# Verified model of the assistant's stateful cores

This project models the parts of the assistant where state is changed over time by code that can be
interleaved, interrupted or run out of budget, and proves what they keep over every run:

- **Steering** (`Steering.dfy`, `SteeringProofs.dfy`): messages that arrive while a session is busy, the
  poll that folds them into the running tool loop, the replay of what was left, and `!stop`. Each stretch of
  a handler between two awaits is one step; handlers interleave freely over any number of sessions.
- **History** (`Tokens.dfy`, `Budget.dfy`, `Compactor.dfy`, `CompactionRuns.dfy`, `HistoryCache.dfy`,
  `CachedHistory.dfy`, `VoiceWindow.dfy`): the token estimate, the budgets and trims built on it, the incremental summary with its
  cover index, the cache with its background prewarm, what a cache hit hands over, and the anchored voice
  window.
- **Self-modification** (`SelfMod.dfy`, `SelfModSteps.dfy`, `SelfModProofs.dfy`, `MergeGate.dfy`): propose, retry, abandon,
  confirm and boot sweep around one worktree, with a confirm that may interleave with a running session.
- **Remote browser bridge** (`RemoteBridge.dfy`): queue, timers and promises under timeout, result and
  disconnect races.
- **Confirmation gate** (`ConfirmGate.dfy`): which tools need a confirmation, the two gated executors, and
  the confirm path that later runs a stored call.
- **Improvement proposals and statistics** (`Proposals.dfy`, `Candidates.dfy`, `Wilson.dfy`): the
  append-only proposal log with its denial cursor and its ledger entries, the grouping of recurring failures, and the Wilson
  interval over exact reals.

## How the model is organised

Where the program keeps state in fields and changes it in place, the model has a class with those fields,
and every method's postcondition equates the new state with a step function `Next` on a plain value
(`View()`). The theorems are about `Run`, which folds `Next` over an arbitrary sequence of steps, so they
hold for every interleaving of the methods. A step that is not enabled leaves the state alone. Where the
program is a loop over a local list, the model is a method with that loop, proved against a declarative
predicate; a separate lemma shows that the predicate admits one result only.

What the definitions behind `Next` and behind those predicates mean is stated again beside them, with the
program's own constants and without going through the definition: what becomes of each message at the end of a
run, at which cost a build folds, which commit a gate's verdict is about, when a call runs or is recorded, how
old a cache hit can be, what a protected path protects, what a word costs.

Outcomes that the model does not compute are parameters of the steps: whether the summariser answers and
with what text, what the coding session and the gate's checks report, what git returns, whether a file could
be written, what the grant store says, and the time.

## What the code does not promise

These are theorems too. Each comes with a concrete run and with the condition under which the code is right,
which holds if and only if the promise does:

- `CompactionRuns.EmptySummaryIsForgotten`: a build that extends a saved summary hands its text to the
  summariser only if that text is not empty, and an empty answer of the summariser is saved like any other.
  What was folded into it is then covered by the index without any later summary having been told of it.
  `SummaryCoversExactly` shows that this is the only way: the cover is exact if and only if no summary with an
  empty text was extended on the way to the saved one.
- `CompactionRuns.LateSaveMovesIndexBack`: a build that answers late overwrites a newer summary with an older
  one, so `coversUpToIndex` is not monotone. `SaveAdvances` shows that a save advances if and only if the saved
  index is within the one about to be saved, which the code does not check.
- `HistoryCache.LostMetadataWriteGivesStaleHit`: a metadata write that fails silently makes a cache hit miss
  the newest turn. `CacheAgreement` shows for every hit that it is whole if and only if no append to its
  session has lost that write since its build began.
- `SelfModProofs.MergeTakesTheBranch`: the gate and the merge look at the commit that is checked out in the
  worktree, and git merges the branch by name. `MergedTipIsConfirmedHead` and `OnlyConfirmedHeadsAreMerged` show
  that the confirmed head is what is merged if and only if the branch is at the checked-out commit at the
  confirmation; `AttachedRunsMergeConfirmedHeads` that it is enough to stay on the branch.
- `SelfModProofs.SetBackHeadMergesUnderOtherVerdict`: the merge checks that *a* passing verdict is on record
  for the slug, not that it is about the head being merged. `VerdictIsAboutConfirmedHead` shows that it is about
  that head if and only if the last gate on the branch judged that head, and in particular when no gate has
  ended on it since the entry was recorded.
- `SelfModProofs.MergeTailCanRemoveAnotherWorktree` and `MergeTailCanTakeFromRetry`: the merge waits for a
  memory write before it removes the worktree on record. By then that can be the worktree of a newer proposal,
  under another slug or the same one again, or the merged worktree with a retry's gate running in it.
  `MergeTailScope` shows over every run that the tail spares every worktree created since the confirmation if
  and only if the record is empty or holds the very worktree that was merged, told apart by its creation and
  not by its slug; `MergeTailTakesFromCalls` that a suspended call loses its worktree to the tail exactly when
  it still has one; `MergeTailIsHarmless` puts both into one condition on the record and the busy flag.
- `Proposals.DenialsThatDoNotLast`: the comment in the code says that denied means never. Two runs from the
  empty log leave an entry of a denied signature open in the ledger: a denial row that also matches another
  proposal by its opening, and a denial whose ledger write failed. Confirming that entry makes the signature
  eligible again. `DenialSurvivesStep` shows that nothing else does, and `ClosedDenialIsTerminal` that denial is
  final once no entry of the signature is open.
- `Proposals.SameMillisecondDenialIsMissed`: a denial row that carries the time of the newest row already read
  is never read (`MissedRowIsNeverRead`). `DenialIsAbsorbed` shows that a denial takes effect in the pass that
  follows if and only if its row is past the cursor, or another unread row denies the proposal anyway;
  `DenialSettles` that it then holds for good.

Two more limits concern inputs that the program does not produce today:

- `Compactor.TrimKeepsPairing`: the final trim runs after the sanitiser and may cut between a call and its
  results; the lemma says exactly when the returned list is still paired. Stored transcripts hold no tool
  messages (`PlainIsClean`).
- `Compactor.StaleMeaning`: with `recentTurnsToKeep` 0 pruning protects everything, since `slice(-0)` is the
  whole array.

## Model

| member | source | states |
|---|---|---|
| Tokens.SegmentsPartition | src/context/tokens.ts:20-23 | splitting at whitespace loses no character, and uniform words and gaps take turns |
| Tokens.SpaceCodes | src/context/tokens.ts:21-26 | white space is that of ECMAScript, by code point |
| Tokens.EstimateTokens | src/context/tokens.ts:15-50 | the accumulating loop computes the sum of per-segment costs that the bounds below are about |
| Tokens.TokenBounds | src/context/tokens.ts:25-46 | for every text, 3 × non-space characters ≤ 14 × tokens, and tokens ≤ 2 × length |
| Tokens.TokenBoundsAreTight | src/context/tokens.ts:25-38 | both bounds are met with equality, by any 14-character word and by a newline |
| Tokens.GapTokens | src/context/tokens.ts:25-29 | a gap costs one token and one for each newline in it |
| Tokens.WordTokens | src/context/tokens.ts:31-46 | a word costs 1, 2 or 3 tokens up to 4, 8 and 14 characters; beyond that every 4 letters begun cost one, and every 3 characters that are none |
| Tokens.LongWordTokens | src/context/tokens.ts:40-46 | a long word counts as dense exactly when more than a quarter of it is not letters |
| Tokens.EstimateMessagesTokens | src/context/tokens.ts:56-63 | the loop over messages computes the additive cost |
| Tokens.CostConcat | src/context/tokens.ts:56-63 | the cost of two lists joined is the sum of their costs |
| Tokens.CostOfOne | src/context/tokens.ts:56-63 | a message costs its text and 4 tokens more |
| Budget.ComputeBudget | src/context/budget.ts:18-45 | when the other shares and the margin are below the context size the history gets exactly the rest, otherwise nothing |
| Budget.SectionsAddUp | src/context/budget.ts:29-31 | every section counts in full, whatever it stands next to |
| Budget.TrimHistoryToFit | src/context/budget.ts:52-63 | the result is a suffix reached by dropping pairs, fits or is at its minimum, and one step less would not have fitted |
| Budget.TrimDropsPairs | src/context/budget.ts:59-61 | an even number of messages is dropped unless that would leave fewer than the minimum, and the last step dropped some that would not have fitted |
| Budget.TrimIsDetermined | src/context/budget.ts:52-63 | that description admits one result only |
| Budget.TrimKeepsWhatFits | src/context/budget.ts:59 | a history within budget is returned whole |
| Budget.RefinedWindowFits | src/dispatch.ts:1232-1249 | with more than two messages left, prompt, sections, message, reserve, 256 and history fit the context; nothing is dropped that would have fitted |
| Compactor.OpenMeaning | src/context/compactor.ts:232-240 | the backward scan finds a call exactly when an assistant tool call precedes with no user message between |
| Compactor.MessageList.HasCallBefore | src/context/compactor.ts:233-240 | the backward loop with its two breaks answers whether a call is open |
| Compactor.MessageList.SanitizeToolPairs | src/context/compactor.ts:228-246 | deleting in place from the back equals one filter of the original list |
| Compactor.SanitisedIsPaired | src/context/compactor.ts:201-246 | every surviving result has its call in the same turn, other messages stay in order, clean lists are fixed points, and the pass is idempotent |
| Compactor.NonToolsMeaning | src/context/compactor.ts:228-246 | the messages said to stay in order are all that are not tool results, wherever they stand |
| Compactor.StaleMeaning | src/context/compactor.ts:177-192 | a result is cleared exactly when it is long and at least `protectCount` > 0 non-system messages follow it |
| Compactor.MessageList.ProtectedIndices | src/context/compactor.ts:179-185 | the loop collects the last `protectCount` non-system indices, all of them for 0 |
| Compactor.MessageList.PruneOldToolResults | src/context/compactor.ts:177-199 | the in-place loop stubs exactly the stale results and touches nothing else |
| Compactor.MessageList.TrimAfterFirst | src/context/compactor.ts:162-165 | the fewest messages after the first are dropped that make the list fit or leave two |
| Compactor.TrimIsDetermined | src/context/compactor.ts:162-165 | that description admits one result only |
| Compactor.SessionStore.BeginBuild | src/context/compactor.ts:60-110 | the half before the first wait decides between a finished history and an archive to fold |
| Compactor.SessionStore.SplitZones | src/context/compactor.ts:93-110 | archive and recent zone are cut where the saved index and `recentTurnsToKeep` say |
| Compactor.PlanSplitsTranscript | src/context/compactor.ts:84-110 | on a stored transcript planning only ever splits: the archive runs from the covered index to the recent zone, and an empty archive gives summary plus recent zone |
| Compactor.PlanDecides | src/context/compactor.ts:76-110 | a stored transcript is handed over as it is up to half the budget, whole up to the budget, and beyond it is folded if and only if a turn before the recent zone is not covered yet |
| Compactor.SessionStore.ConcludeBuild | src/context/compactor.ts:136-169 | the half after the wait saves the index just before the recent zone if there is an answer and the write lands, and returns the sanitised, trimmed list |
| Compactor.FreshResultShape | src/context/compactor.ts:153-169 | a fresh summary is followed by a suffix of the sanitised recent zone that fits or leaves two messages, with the fewest dropped |
| Compactor.SummaryAndFailureShape | src/context/compactor.ts:140-157 | a summary is a marked system message, and after a failed answer exactly the recent zone is returned |
| Compactor.TrimKeepsPairing | src/context/compactor.ts:159-165 | what is returned with a fresh summary is paired if and only if no call is open at the cut or none of its results is behind it |
| Compactor.TrimCanOrphanAResult | src/context/compactor.ts:160-165 | for example a budget one short drops the call and keeps its answer |
| Compactor.PlainIsNotPruned | src/sessions/types.ts:1-12 | pruning is the identity on stored transcripts |
| Compactor.PlainIsClean | src/sessions/types.ts:1-12 | sanitising is the identity on stored transcripts |
| CompactionRuns.SummaryCoversExactly | src/context/compactor.ts:63-151 | under any interleaving of appends and overlapping builds, with failed answers and failed saves, the saved summary was told turns up to its index in order without a gap, short of the recent zone; all of them if and only if no empty text was extended on the way |
| CompactionRuns.WordySummariesCoverExactly | src/context/compactor.ts:139-151 | the cover is exact in every run in which the summariser never answers with an empty text |
| CompactionRuns.EmptySummaryIsForgotten | src/context/compactor.ts:315-336 | a run in which a turn is covered by the index but no later summary was told of it |
| CompactionRuns.ImmediateHistoryIsComplete | src/context/compactor.ts:77-110 | a build that need not wait hands over the transcript, or the saved summary and precisely the turns behind its index, with what the summary was told |
| CompactionRuns.FreshHistoryIsComplete | src/context/compactor.ts:145-169 | a build that waited hands over its summary and a suffix of the zone that directly follows what the summary was told, and that is what is saved if the write lands |
| CompactionRuns.LateSaveMovesIndexBack | src/context/compactor.ts:145-151 | two overlapping builds can move the index from 1 back to 0 |
| CompactionRuns.SaveAdvances | src/context/compactor.ts:145-151 | a save does not move the index back if and only if the saved index is within the new one, and with exact covers it is then that nothing told is lost |
| CompactionRuns.UndisturbedBuildAdvances | src/context/compactor.ts:94-151 | in particular a build strictly advances when no other build saved since it read the summary |
| HistoryCache.Dispatcher.AppendTurn | src/sessions/store.ts:40-59 | a stored turn and, if the write lands, the new turn count |
| HistoryCache.Dispatcher.LoadHistory | src/dispatch.ts:485-533 | a hit needs the current turn count and a live entry; a miss starts a build stamped with the count read |
| HistoryCache.Dispatcher.Prewarm | src/dispatch.ts:1058-1078 | a prewarm starts only when none is pending for its key |
| HistoryCache.Dispatcher.Finish | src/dispatch.ts:1079-1082 | success caches under the stamp taken at the start, failure caches nothing |
| HistoryCache.Dispatcher.ReleaseKey | src/dispatch.ts:1083-1085 | a later step gives the session of a settled prewarm free |
| HistoryCache.CacheAgreement | src/dispatch.ts:485-526 | every hit of every run was built from a beginning of the transcript, and from all of it if and only if no append to the session lost its metadata write since that build began |
| HistoryCache.SinceThen | src/sessions/store.ts:40-59 | between two points of a run a transcript grows exactly when turns were appended, and its stored count passes the old length exactly when one of those writes landed |
| HistoryCache.DurableRunsAgree | src/dispatch.ts:487-526 | when metadata writes land, every hit was built from the whole current transcript, however late a prewarm finished |
| HistoryCache.AtMostOnePrewarmInFlight | src/dispatch.ts:1060-1085 | two prewarms in flight never share a key |
| HistoryCache.PrewarmEnds | src/dispatch.ts:1079-1085 | a prewarm's answer is taken once, and after its last step it holds its session no longer |
| HistoryCache.HitIsFresh | src/dispatch.ts:517-519 | an entry is a hit if and only if it was stored less than 300 000 ms ago, by a build that succeeded, and its stamp is the stored turn count |
| HistoryCache.LostMetadataWriteGivesStaleHit | src/sessions/store.ts:144-162 | one lost metadata write yields a hit without the newest turn |
| CachedHistory.HitHandsOver | src/dispatch.ts:517-533 | over any sessions, a hit hands over the whole source, or a summary and the turns behind it as far as there is room, or after a failed answer the recent turns; and the source is the whole transcript if and only if no metadata write was lost since the build began |
| CachedHistory.FirstHit | src/dispatch.ts:1058-1080 | a turn, a prewarm that need not wait and its end lead to a hit that hands over the transcript |
| VoiceWindow.VoiceWindowAnchors.WindowFor | src/dispatch.ts:506-514 | with sessions interleaved, each anchor is the one its own session's turns lead to, and as long as the transcript only grew the window has at least `cap` turns, or all, and at most twice that |
| VoiceWindow.WindowIsAnchored | src/dispatch.ts:219-234 | windows hold the last `cap` turns and at most twice that, never start earlier than before, and extend the previous window while the anchor holds |
| VoiceWindow.AnchorIsKept | src/dispatch.ts:229-234 | an anchor is kept exactly while the turns are no fewer than it says and no more than twice the cap beyond it |
| VoiceWindow.MovedAnchorLeavesGap | src/dispatch.ts:219-234 | consecutive anchors are set more than `cap` turns apart |
| VoiceWindow.ReanchorsAreRare | src/dispatch.ts:224-227 | the number of re-anchors times `cap + 1` is at most the number of turns appended |
| VoiceWindow.ReanchorsCountsMoves | src/dispatch.ts:224-227 | the number that is bounded is that of the turns at which the anchor moved |
| Steering.Orchestrator.SteeringCheck | src/orchestrator.ts:1141-1153 | a message for a busy session is queued at the back, otherwise its handler registers an empty queue and runs |
| Steering.Orchestrator.PollSteering | src/orchestrator.ts:1220 | the poll takes the whole queue in order and leaves it empty |
| Steering.Orchestrator.StopCommand | src/commands/builtin.ts:727-740 | a stop is recorded only for a busy session |
| Steering.Orchestrator.FinishHandler | src/orchestrator.ts:1438-1450 | the session is released, its stop cleared, and one replay started per undrained message in order |
| Steering.Orchestrator.AnswerRateLimited | src/orchestrator.ts:843-852 | the notice ends a handler before the steering check |
| SteeringProofs.NothingLostNothingDoubled | src/orchestrator.ts:1136-1153 | in every interleaving each received message is in exactly one place: a handler's own, one run's drained list, or one queue position |
| SteeringProofs.UndrainedIsReplayed | src/orchestrator.ts:1441-1449 | at the end of a run each message left in its queue enters again as a handler of its own, in order, and every other handler stays as it was |
| SteeringProofs.FoldedInOrder | src/orchestrator.ts:1143-1220 | what a run has drained and what still waits for it are exactly the messages that found its session busy since it registered, in the order in which they came |
| SteeringProofs.OnlyRunsAndLimitsComplete | src/orchestrator.ts:1438-1450 | over every run a message is completed exactly by the rate limiting of its own handler or by the end of the run whose own message it is or which drained it |
| SteeringProofs.SteeringStaysInSession | src/orchestrator.ts:1141-1144 | a queue and a drained list hold only messages of their own session |
| SteeringProofs.OneDispatchPerSession | src/orchestrator.ts:1142-1153 | a session is in the queue map exactly while one dispatch runs on it, and stops are pending only for such sessions |
| SteeringProofs.OnlyTheOwnerReleases | src/orchestrator.ts:1438-1442 | only the finishing of the one dispatch that runs on a session removes its queue |
| SteeringProofs.StopReachesOnlyItsRun | src/orchestrator.ts:1221 | a run sees a stop exactly when `!stop` was sent while this very run was going |
| SteeringProofs.IsCancelled | src/orchestrator.ts:1221 | so the closure answers whether this very run was stopped |
| SteeringProofs.AtMostOneDispatchEach | src/orchestrator.ts:1438-1450 | without new arrivals, N unfinished messages of a session complete within N dispatches |
| SteeringProofs.UnfinishedMeansWorkInHand | src/orchestrator.ts:1443-1449 | while a message is unfinished some handler has a step to take |
| SteeringProofs.WorkDecreases | src/orchestrator.ts:1438-1450 | each such step completes a message, or completes none and leaves fewer handlers entering |
| RemoteBridge.RemoteBrowserBridge.SetConnectedTo | src/browser/remote-bridge.ts:47-55 | a disconnect rejects every queued request in order, clears its timer and empties the queue |
| RemoteBridge.RemoteBrowserBridge.SendAction | src/browser/remote-bridge.ts:62-81 | without a connection the call is refused, otherwise the request joins the end of the queue with a timer |
| RemoteBridge.RemoteBrowserBridge.OnTimeout | src/browser/remote-bridge.ts:71-77 | a timer takes its own request out of the queue and rejects it |
| RemoteBridge.RemoteBrowserBridge.GetPendingAction | src/browser/remote-bridge.ts:84-86 | polling offers the oldest accepted request that is not settled, if there is one |
| RemoteBridge.PollOffersWhatWasSent | src/browser/remote-bridge.ts:62-86 | over every run what polling offers is the oldest waiting request exactly as it was sent, id and action |
| RemoteBridge.RemoteBrowserBridge.ResolveAction | src/browser/remote-bridge.ts:89-96 | a result settles the request with its id and leaves the others in order; an unknown id changes nothing |
| RemoteBridge.SettledExactlyOnce | src/browser/remote-bridge.ts:38-97 | at any point an accepted request is queued once or settled once, nothing else is settled, timers match the queue, and disconnected means empty |
| RemoteBridge.SettlementsAreTraced | src/browser/remote-bridge.ts:47-96 | every settlement goes back to a result for that id with that text, to that request's timer, or to a disconnect |
| RemoteBridge.QueueIsUnsettledInOrder | src/browser/remote-bridge.ts:39-43 | the queue is the list of unsettled requests in send order |
| RemoteBridge.QueuedWasSent | src/browser/remote-bridge.ts:67-79 | every request in the queue was sent with that id and that action |
| RemoteBridge.AcceptedWhileConnected | src/browser/remote-bridge.ts:62-65 | a request is accepted exactly when it is sent while an extension is connected |
| RemoteBridge.ConnectedIsLastWord | src/browser/remote-bridge.ts:46-59 | the bridge is connected exactly when the extension's last word was that it is |
| RemoteBridge.UnsettledWithout | src/browser/remote-bridge.ts:89-93 | settling one request takes exactly that one out of the unsettled |
| RemoteBridge.TimersSettleEverything | src/browser/remote-bridge.ts:71-77 | once the timers of the queued requests have fired every accepted request is settled |
| MergeGate.TierMeaning | src/coding/merge-gate.ts:72-84 | the tier of a single file by its protection and kind |
| MergeGate.TierIsMaximum | src/coding/merge-gate.ts:72-84 | the tier of a list is the maximum of the tiers of its files |
| MergeGate.TierNeverDrops | src/coding/merge-gate.ts:36-84 | more files or extra protected paths never lower the tier, and tampering with the gate is tier 3 |
| MergeGate.MatchesMeaning | src/coding/merge-gate.ts:68-70 | a path protects itself and everything below it, `.env` every name that begins with it, and nothing else |
| MergeGate.ProtectedIsTierThree | src/coding/merge-gate.ts:68-79 | a listed file and whatever lies below a listed directory is tier 3 |
| MergeGate.OwnGuardsAreProtected | src/coding/merge-gate.ts:40-66 | the program's own guards are tier 3 in every configuration, and build files also count as tampering |
| MergeGate.UnprotectedTiers | src/coding/merge-gate.ts:80-83 | otherwise code is tier 2, documentation tier 0 and the rest tier 1 |
| MergeGate.ChecksStopAtFirstFailure | src/coding/merge-gate.ts:170-190 | the recorded checks are a prefix of the required ones in which all but the last pass, and all pass exactly when each required check does |
| MergeGate.ChecksInOrder | src/coding/merge-gate.ts:170-190 | what is run is a clean install first if the package files are touched, then the compiler, then the tests, as far as all before have passed |
| MergeGate.RunRequiredChecks | src/coding/merge-gate.ts:170-190 | the guarded pushes run exactly that sequence, from trusted tools unless dependencies were reinstalled |
| MergeGate.ForeignMeaning | src/coding/merge-gate.ts:159-161 | foreign are the arena's modules and the runtime data, and nothing else |
| MergeGate.RunMergeGate | src/coding/merge-gate.ts:138-204 | the verdict passes exactly for a non-empty branch without foreign files whose compiler and tests pass, after a clean install if it touches the package files |
| SelfMod.SelfModService.Create | src/coding/self-mod.ts:103-156 | a worktree goes on record only when none is active and both git and the copy succeed; worktree and branch then stand at main |
| SelfMod.SelfModService.Remove | src/coding/self-mod.ts:165-181 | whatever worktree is on record goes, with its branch and the record |
| SelfMod.SelfModService.StartPropose | src/coding/self-mod-service.ts:171-190 | a propose takes the busy flag and a new worktree, or leaves the flag down |
| SelfMod.SelfModService.SessionEnded | src/coding/self-mod-service.ts:191-202 | the gate starts on the head of the session's own worktree, or the call fails if that is gone |
| SelfMod.SelfModService.StartRetry | src/coding/self-mod-service.ts:227-258 | a retry moves the base with the rebase, or changes nothing on conflict or when the worktree is gone |
| SelfMod.SelfModService.JudgeAndProposeMerge | src/coding/self-mod-service.ts:203-217 | the verdict is persisted first; a failed, empty session loses its worktree; a pass asks for a confirmation |
| SelfMod.SelfModService.RecordApproval | src/coding/self-mod-service.ts:286-305 | one ledger entry for the judged head, if the ledger is writable |
| SelfMod.SelfModService.AbandonActive | src/coding/self-mod-service.ts:156-166 | abandoning is refused while a session runs, and otherwise removes what is on record |
| SelfModProofs.AbandonSparesSessions | src/coding/self-mod-service.ts:156-166 | over every run an abandon leaves everything as it is while a session is suspended, and otherwise takes worktree, branch and record |
| SelfModProofs.WhoTakesWorktrees | src/coding/self-mod-service.ts:156-217 | over every run a suspended call loses its worktree only to its own failed end without changes, to the tail of a merge, or when the directory disappears |
| SelfMod.SelfModService.ExecuteMerge | src/coding/self-mod-service.ts:321-347 | main changes only for the active slug, with the approved commit checked out and a passing verdict on record |
| SelfMod.SelfModService.MergeBranch | src/coding/self-mod-service.ts:340-347 | what is merged is the tip of the branch of that name |
| SelfMod.SelfModService.MergeRecorded | src/coding/self-mod-service.ts:352-361 | after the memory write the worktree then on record is removed |
| SelfMod.SelfModService.BootSweep | src/coding/self-mod.ts:220-241 | a fresh process keeps the worktree on record and no other |
| SelfModSteps.ProposeStarts | src/coding/self-mod-service.ts:171-190 | a proposal starts a session if and only if nothing is busy or on record, the slug is free, and git and the copy succeed; a failed copy leaves the worktree behind |
| SelfModSteps.SessionEnds | src/coding/self-mod-service.ts:191-202 | the gate starts on what is checked out in the session's own worktree, or the call ends |
| SelfModSteps.RetryStarts | src/coding/self-mod-service.ts:227-258 | a retry starts a gate if and only if nothing is busy, a worktree is on record and there, and the rebase goes through |
| SelfModSteps.BranchMoves | src/coding/self-mod.ts:112-115 | work in a worktree moves its branch exactly when the branch is checked out there |
| SelfModSteps.RebaseMovesBranch | src/coding/self-mod-service.ts:233-236 | and so does a rebase |
| SelfModSteps.GateRecordsVerdict | src/coding/self-mod-service.ts:271-284 | a gate's end changes verdicts and calls as its recorded verdict says, which passes if and only if the branch touches files, has work of its own and its checks pass |
| SelfModSteps.VerdictIsAboutJudgedHead | src/coding/self-mod-service.ts:429-432 | that record is about the judged head of that branch, and the call is over |
| SelfModSteps.GateAsksOwner | src/coding/self-mod-service.ts:286-305 | the owner is asked about that head if and only if it passed and the ledger can be written |
| SelfModSteps.GateKeepsWorktree | src/coding/self-mod-service.ts:203-207 | the worktree goes if and only if the session failed and left no changes |
| SelfModSteps.ConfirmMerges | src/coding/self-mod-service.ts:321-347 | a confirmation merges if and only if its entry is for the worktree on record, exactly the judged commit is checked out, a passing verdict is on record and git merges; the entry is used up either way |
| SelfModSteps.ClosedEntriesMergeNothing | src/coding/self-mod-service.ts:320-328 | an entry that is not open merges nothing |
| SelfModSteps.TailRemovesRecord | src/coding/self-mod-service.ts:352-361 | the tail ends its call and takes worktree, branch and record of what is on record |
| SelfModSteps.RestartSweeps | src/coding/self-mod.ts:220-241 | after a restart no call is in flight, exactly the worktree on record is left, and record, verdicts and ledger are as they were |
| SelfModSteps.OtherSteps | src/coding/self-mod-service.ts:209-217 | a gate that throws ends its call and changes nothing else |
| SelfModProofs.OneWorktreeOneSession | src/coding/self-mod-service.ts:174-233 | over every run the busy flag is up exactly while one session is suspended, and no worktree but its own is on record meanwhile |
| SelfModProofs.MergesAreGatedAndConfirmed | src/coding/self-mod-service.ts:193-347 | every merge was confirmed by the owner in this run with an entry that an earlier gate of this run recorded when it passed that head, with the head checked out and a passing verdict on record, and no entry served twice |
| SelfModProofs.MergedTipIsConfirmedHead | src/coding/self-mod-service.ts:329-342 | the tip that is merged is the confirmed head if and only if the branch was at the checked-out commit at the confirmation, and a gate had then passed that tip |
| SelfModProofs.OnlyConfirmedHeadsAreMerged | src/coding/self-mod-service.ts:329-342 | over a whole run only confirmed heads were merged if and only if that held at every merging confirmation |
| SelfModProofs.AttachedRunsMergeConfirmedHeads | src/coding/self-mod-service.ts:329-342 | in runs whose worktrees stay on their branches every merged tip is a confirmed head that a gate passed |
| SelfModProofs.MergeTakesTheBranch | src/coding/self-mod-service.ts:329-342 | a run in which the merged tip is another commit than the judged head |
| SelfModProofs.VerdictIsLastJudgement | src/coding/self-mod-service.ts:429-440 | the verdict on record for a slug is that of the last gate on its branch |
| SelfModProofs.VerdictIsAboutConfirmedHead | src/coding/self-mod-service.ts:329-337 | when an entry can be confirmed the verdict on record is about its head if and only if the last gate on the branch judged that head, and whenever no gate ended on the branch since the entry was recorded |
| SelfModProofs.FreshRunsMergeWhatWasJudged | src/coding/self-mod-service.ts:329-337 | in particular it is in every run in which work always gets new commits and none is checked out again |
| SelfModProofs.SetBackHeadMergesUnderOtherVerdict | src/coding/self-mod-service.ts:329-337 | a run in which it is about another head |
| SelfModProofs.MergeTailCanRemoveAnotherWorktree | src/coding/self-mod-service.ts:352-361 | a run, for any two slugs and also for one slug twice, in which the tail of a merge removes worktree, branch and record of a newer proposal under its running session |
| SelfModProofs.MergeTailCanTakeFromRetry | src/coding/self-mod-service.ts:352-361 | a run in which the tail takes the merged worktree from a retry whose gate is running there |
| SelfModProofs.MergedWorktreeIsNewest | src/coding/self-mod-service.ts:325-347 | the worktree being merged is the newest when its merge is confirmed |
| SelfModProofs.MergeTailScope | src/coding/self-mod-service.ts:352-361 | at any point of any run the tail spares every worktree created since the confirmation, with branch and record, if and only if the record is empty or holds the very worktree that was merged |
| SelfModProofs.MergeTailTakesFromCalls | src/coding/self-mod-service.ts:352-361 | the tail takes a suspended call's worktree exactly when that call still has one, which is when the service is busy on a worktree that is on record and there |
| SelfModProofs.MergeTailIsHarmless | src/coding/self-mod-service.ts:352-361 | the tail does neither if and only if the record is empty, or holds the merged worktree and no session is busy on it |
| ConfirmGate.FilterIsToolByTool | src/dispatch.ts:245-252 | filtering two lists joined is joining them filtered, so what stays keeps its order and its repetitions |
| ConfirmGate.FilterOfOne | src/dispatch.ts:246-251 | a single tool stays exactly when the category allows it |
| ConfirmGate.CronKeeps | src/dispatch.ts:236-252 | a scheduled job never writes files, tasks or memory, runs commands only as an exec job and sends messages only as a message job; every other tool stays |
| ConfirmGate.ResolveConfirmSet | src/dispatch.ts:263-280 | a tool needs confirmation if and only if it is explicit, or asks for it itself without being auto-approved and is not the very tool that the scheduled job was scheduled for |
| ConfirmGate.Dispatch.ScopedExecutor | src/tools/registry.ts:59-69 | only an allowed and registered tool runs |
| ConfirmGate.Dispatch.ReActExecutor | src/dispatch.ts:1132-1165 | scope first, then grant, then a recorded preview |
| ConfirmGate.Dispatch.GatedExecutor | src/dispatch.ts:1423-1456 | the same gate for pipelines |
| ConfirmGate.Dispatch.PipelineExecutor | src/dispatch.ts:1458-1467 | the wrapper only adds the record of what was thrown |
| ConfirmGate.Dispatch.HandleConfirmation | src/security/confirm-handler.ts:95-143 | the sender's own entry is used up durably, then today's policy decides, then exactly the stored call runs |
| ConfirmGate.GatedToolsNeedApproval | src/dispatch.ts:1119-1165 | over any calls and confirmations, what ran was in scope, and a gated tool ran under a grant or as its own confirmed entry, each entry at most once |
| ConfirmGate.WhatRuns | src/dispatch.ts:1132-1165 | what runs at a step is the called tool if it is in scope, not gated or granted, and registered, or the stored call of an entry that is used while the policy allows it; nothing else |
| ConfirmGate.WhatIsRecorded | src/dispatch.ts:1150-1160 | an entry is recorded exactly for a call in scope that is gated, not granted and can be written down, and stays open until it is used or closed |
| ConfirmGate.WhatIsLearned | src/dispatch.ts:1458-1467 | a pipeline learns exactly from a tool that is not registered and would have run |
| ConfirmGate.WhatIsReplied | src/dispatch.ts:1134-1163 | the scope denial comes before everything else, and a preview names the entry that a confirmation will run |
| ConfirmGate.ExecutionsAreTraced | src/dispatch.ts:1132-1165 | every execution goes back to its own call, granted where a grant is the reason, or to the sender's own persisted and still permitted confirmation |
| ConfirmGate.OutOfScopeLeavesNoTrace | src/dispatch.ts:1134-1161 | every ledger entry is of a scoped, gated tool and of this sender |
| ConfirmGate.PendingListIsCallOrder | src/dispatch.ts:1131-1160 | the returned pending list is exactly the recorded entries in call order |
| ConfirmGate.ExecutorsAgree | src/dispatch.ts:1417-1456 | a run routed through the pipeline executor ends in the same state, learned errors aside; both executors are proved against the same call |
| ConfirmGate.CronNeverRunsBlockedTools | src/dispatch.ts:1107-1122 | in cron mode no blocked tool ever runs, whatever is granted or confirmed |
| Proposals.KeysAreInFirstInsertionOrder | src/coding/improvement-proposals.ts:68-72 | the keys of the signature map are listed by their first entry in the log |
| Proposals.NewDenialsInOrder | src/coding/improvement-proposals.ts:88-96 | the denial rows after the cursor are read in log order |
| Proposals.NewestIsAttained | src/coding/improvement-proposals.ts:102-105 | the cursor moves exactly to the newest row that was read |
| Proposals.RowNames | src/coding/improvement-proposals.ts:107-116 | a row names a proposal by id or signature anywhere in its detail, or by the first 60 characters of a specification, and by nothing else |
| Proposals.ContainsMeaning | src/coding/improvement-proposals.ts:114-115 | the substring test |
| Proposals.ProposalHistory.AbsorbDenialsFromMetrics | src/coding/improvement-proposals.ts:86-128 | one pass appends the denials of all new rows against the map as it was, and moves the cursor if that write lands |
| Proposals.ProposalHistory.AppendDenials | src/coding/improvement-proposals.ts:103-121 | the loop over rows |
| Proposals.ProposalHistory.AppendDenialsFor | src/coding/improvement-proposals.ts:112-120 | the loop over entries |
| Proposals.ProposalHistory.Eligible | src/coding/improvement-proposals.ts:131-137 | unknown is eligible, denied never, anything else after the cooldown |
| Proposals.AbsorbedMap | src/coding/improvement-proposals.ts:98-121 | after a pass, exactly the proposed signatures that some new row matches are denied and all others keep their entry |
| Proposals.ReabsorbingAppendsNothing | src/coding/improvement-proposals.ts:122-126 | reading the same rows again after a lost cursor write appends nothing |
| Proposals.DenialSurvivesStep | src/coding/improvement-proposals.ts:130-137 | a denied signature stays denied through a step exactly when the step does not run an open ledger entry of it |
| Proposals.ProposalsAreSpaced | src/coding/improvement-proposals.ts:131-137 | over every run a signature is proposed only if its latest entry is not a denial and is more than the cooldown older |
| Proposals.EligibleAfterCooldown | src/coding/improvement-proposals.ts:131-137 | and after the cooldown it may be, as may one that was never logged |
| Proposals.DenialIsTerminal | src/coding/improvement-proposals.ts:80-137 | as long as no open entry of it is run a denied signature stays denied, is never eligible, and gets no further proposal |
| Proposals.ClosedDenialIsTerminal | src/coding/improvement-proposals.ts:80-137 | so it does for good once no entry of it is open |
| Proposals.DenialIsAbsorbed | src/coding/improvement-proposals.ts:92-121 | a denial denies a matching proposal in the pass that follows if and only if its row is past the cursor, or another unread row denies it anyway |
| Proposals.DenialSettles | src/coding/improvement-proposals.ts:92-137 | a denial past the cursor of the only open entry of its signature makes that signature ineligible in every continuation |
| Proposals.MissedRowIsNeverRead | src/coding/improvement-proposals.ts:95 | a row that is not past the cursor is not read by any later pass |
| Proposals.SameMillisecondDenialIsMissed | src/coding/improvement-proposals.ts:95 | from the empty log, two denials in one millisecond with a pass between them leave the second proposal undenied |
| Proposals.CursorOnlyAdvances | src/coding/improvement-proposals.ts:87-126 | the denial cursor never moves back |
| Proposals.ConfirmationRevivesDenied | src/tools/self-improve.ts:27-34 | confirming an open entry of a denied signature makes it eligible again after the cooldown |
| Proposals.DeniedAlongsideStaysOpen | src/coding/improvement-proposals.ts:107-119 | from the empty log, a denial row that matches another proposal by its opening denies it while its entry is open |
| Proposals.DeniedInVainStaysOpen | src/security/confirm-handler.ts:64-75 | from the empty log, a denial whose ledger write fails is logged while its entry stays open |
| Proposals.DenialsThatDoNotLast | src/coding/improvement-proposals.ts:80-85 | from both a confirmation leads to a signature that was denied and is eligible again |
| Candidates.SelectCandidates | src/coding/improvement-proposals.ts:143-176 | the result is exactly the groups with at least the minimum of in-window errors, each with its true count, in descending count with ties by first occurrence |
| Candidates.GroupBySignature | src/coding/improvement-proposals.ts:156-174 | the loop builds one group per signature, in order of first occurrence |
| Candidates.SignatureIsToolAndOpening | src/coding/improvement-proposals.ts:158 | errors of one tool share a group if and only if they open alike in the first 60 characters, normalised |
| Candidates.ToolsStayApart | src/coding/improvement-proposals.ts:158 | tools without a colon in their names never share a group |
| Candidates.SelectionIsDetermined | src/coding/improvement-proposals.ts:175 | that description admits one list only |
| Candidates.SelectedSignaturesAreDistinct | src/coding/improvement-proposals.ts:156-175 | no signature is selected twice |
| Candidates.GroupsPartitionWindow | src/coding/improvement-proposals.ts:157-174 | over distinct signatures that cover the window the counts add up to the number of errors |
| Candidates.SelectionPartitionsWindow | src/coding/improvement-proposals.ts:157-175 | with a minimum of one the selected groups do that |
| Candidates.ExamplesAreDistinctOpenings | src/coding/improvement-proposals.ts:160-170 | at most three examples, distinct, each from the group, and complete when fewer than three |
| Candidates.StaleErrorsDoNotCount | src/coding/improvement-proposals.ts:146-155 | an error outside the window has no influence on the selection |
| Wilson.IntervalIsPlausibleSet | scripts/e2e/stats.ts:8-16 | the unclamped interval is exactly the set of rates within z standard errors of the observed rate |
| Wilson.IntervalHoldsObservedRate | scripts/e2e/stats.ts:6-16 | for 0 ≤ k ≤ n the unclamped ends lie in [0, 1] already, around k/n, so clamping is idle |
| Wilson.IntervalMirrors | scripts/e2e/stats.ts:8-16 | lo(k) = 1 − hi(n − k) and hi(k) = 1 − lo(n − k) |
| Wilson.IntervalIsMonotone | scripts/e2e/stats.ts:8-16 | both ends are nondecreasing in k |

## Left out

- The language model: routing, prompts, summary text and drafting are parameters; only success or failure and which turns were folded matter.
- What `handleMessage` does before the steering check: debouncing, commands, confirmations, attachment questions and speech-to-text; a replay that is taken for one of those, or batched with another message, is not modelled.
- Restarts of the process in the steering, cache and bridge runs, which lose their in-memory state.
- Thinking tags: transcripts enter the compactor with them already stripped.
- The fact flush and the training-pair extraction inside a build, which do not touch the history, and the page content that is cut from an archive before it is summarised.
- The id sets that the sanitiser collects and never reads (src/context/compactor.ts:211-226).
- Session reset, and changes of `recentTurnsToKeep` or `voice.historyTurns` while a session lives.
- A compaction build that throws, which falls back to a turn-count truncation (src/dispatch.ts:537-544).
- Token counts of a cached history: the prewarm uses another budget, so agreement is about the turns used.
- A session is one key. The program joins agent id and session key with a colon for its caches and queues (src/dispatch.ts:485, src/orchestrator.ts:1141); agent ids with a colon, which could make two sessions share a key, are outside the model.
- A metadata file that cannot be read, which counts as 0 turns: the stored count is what the last write that landed left.
- Strings are sequences of characters, one for each UTF-16 unit of the original.
- A summary file that is left half written; a save lands or it does not.
- Bridge request ids are taken to be unique, and a cleared timer not to fire.
- Git, the file system and child processes: commits are ids, and a branch that touches files has a head other than its base.
- A branch that somebody deletes or moves by name behind a worktree's back; a merge of a missing branch is one that git refuses.
- Two worktrees created in the same millisecond: creation times are taken to tell worktrees apart.
- The checkpoint commit that a merge or a new worktree may make first is a separate step that moves main.
- Rollback detection, deploy markers, restart requests and experience writes of the self-modification service.
- Output, durations and messages of gate checks; a check runner answers only pass or fail, and the same for the same check.
- The grant store, which answers each call arbitrarily, and minting of grants by "always".
- A confirmation without an id, which picks the latest entry of sender and channel, and the wording that counts as one.
- A tool that runs and fails: the pipeline's error learning is modelled for a tool that is not registered.
- The conversational guard that swaps the specialist after the filters (src/dispatch.ts:711-719), so nothing is claimed across it.
- The heartbeat's wait for a draft between the eligibility check and the append: both are one step.
- JSON escaping and truncation of a denial row: what follows the id in it is arbitrary.
- Reading the specification fragment and the row type out of a metrics row: they enter as fields of the row.
- Lower-casing and trimming in signatures: any function in their place.
- Floating-point rounding of the Wilson interval; the square root enters as the exact root, and percentages are not formatted.
- Multi-step orchestration, route precedence, the `!heartbeat` review, channel adapters, consoles and other scripts.
