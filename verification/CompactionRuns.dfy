/** Overlapping builds on one session. A build reads transcript and summary together, waits for the
    summariser, and saves later; appends and other builds may run while it waits. The transcript only
    grows and `recentTurnsToKeep` (`keep`) is fixed over a run. */
module CompactionRuns {
  import opened Messages
  import opened Tokens
  import opened Compactor

  type Turn = m: Message | Plain(m) witness Message(User, "", None)

  /** `folded` records the turns that reached the summariser on the way to this summary, in order; `line` the
      texts of the summaries that were extended on that way, oldest first. */
  datatype Stored = Stored(summary: Summary, folded: seq<Message>, line: seq<string>)

  /** A waiting build: its plan, what the summary text that it hands to the summariser had folded, and the
      line of summaries it extends. */
  datatype Job = Job(plan: Waiting, base: seq<Message>, line: seq<string>)

  datatype State = State(transcript: seq<Turn>, stored: Option<Stored>, jobs: map<nat, Job>)

  datatype Step =
    | Append(turn: Turn)
    | Begin(id: nat, budget: nat)
    /** `landed` is false when the new summary could not be saved, which is not reported. */
    | Conclude(id: nat, text: Option<string>, landed: bool)

  function SavedSummary(s: State): Option<Summary> {
    if s.stored.Some? then Some(s.stored.value.summary) else None
  }

  function Folded(s: State): seq<Message> {
    if s.stored.Some? then s.stored.value.folded else []
  }

  /** How many turns the saved index covers. */
  function Covered(s: State): nat {
    if s.stored.Some? then s.stored.value.summary.coversUpToIndex + 1 else 0
  }

  /** A build hands the saved text to the summariser, unless that text is empty: then the summariser is asked
      for a first summary, of the new archive alone. */
  function NewJob(s: State, plan: Waiting): Job {
    if s.stored.None? then Job(plan, [], [])
    else
      var text := s.stored.value.summary.text;
      Job(plan, if text != "" then s.stored.value.folded else [], s.stored.value.line + [text])
  }

  function Told(job: Job): seq<Message> {
    job.base + job.plan.archive
  }

  function Begun(s: State, id: nat, plan: Plan): State
    requires plan.Fold? ==> plan.archiveStart < plan.archiveEnd
  {
    if plan.Fold? && id !in s.jobs then s.(jobs := s.jobs[id := NewJob(s, plan)]) else s
  }

  function Next(s: State, step: Step, keep: nat): State {
    match step
    case Append(turn) => s.(transcript := s.transcript + [turn])
    case Begin(id, budget) => Begun(s, id, PlanOf(s.transcript, SavedSummary(s), budget, keep))
    case Conclude(id, text, landed) =>
      if id !in s.jobs then s
      else
        var job := s.jobs[id];
        var rest := s.(jobs := s.jobs - {id});
        if text.None? || !landed then rest
        else rest.(stored := Some(Stored(Summary(text.value, job.plan.archiveEnd - 1), Told(job), job.line)))
  }

  function Run(steps: seq<Step>, keep: nat): State {
    if steps == [] then State([], None, map[])
    else Next(Run(steps[..|steps| - 1], keep), steps[|steps| - 1], keep)
  }

  function RecentStart(s: State, keep: nat): nat {
    Max(0, |s.transcript| - keep)
  }

  // ------------------------------------------------------------ what a summary has been told

  /** `told` is the end of the first `upTo` turns: some turns up to the index, each once and in order, with
      none left out but perhaps the oldest. */
  predicate EndOf(told: seq<Message>, transcript: seq<Message>, upTo: nat) {
    |told| <= upTo <= |transcript| && told == transcript[upTo - |told|..upTo]
  }

  /** It is all of them exactly when no empty text was extended on the way. */
  predicate ToldOf(told: seq<Message>, line: seq<string>, transcript: seq<Message>, upTo: nat) {
    EndOf(told, transcript, upTo) && (|told| == upTo <==> "" !in line)
  }

  ghost predicate JobOk(s: State, job: Job, keep: nat) {
    && job.plan.archiveEnd + keep <= |s.transcript|
    && ToldOf(Told(job), job.line, s.transcript, job.plan.archiveEnd)
    && job.plan.archive == s.transcript[job.plan.archiveStart..job.plan.archiveEnd]
    && job.plan.recent == s.transcript[job.plan.archiveEnd..job.plan.archiveEnd + keep]
  }

  ghost predicate StoredOk(s: State, keep: nat) {
    s.stored.Some? ==>
      && Covered(s) + keep <= |s.transcript|
      && ToldOf(Folded(s), s.stored.value.line, s.transcript, Covered(s))
  }

  ghost predicate Inv(s: State, keep: nat) {
    StoredOk(s, keep) && forall id | id in s.jobs :: JobOk(s, s.jobs[id], keep)
  }

  /** The saved summary has been told exactly the turns up to its index, each once and in order. */
  predicate ExactCover(s: State) {
    Folded(s) == s.transcript[..Min(Covered(s), |s.transcript|)]
  }

  lemma StoredIsPlain(s: State)
    ensures forall m | m in s.transcript :: Plain(m)
  {
  }

  lemma NewJobIsOk(s: State, budget: nat, keep: nat)
    requires StoredOk(s, keep)
    ensures
      var plan := PlanOf(s.transcript, SavedSummary(s), budget, keep);
      plan.Fold? ==> JobOk(s, NewJob(s, plan), keep) && plan.archiveEnd + keep == |s.transcript|
  {
    StoredIsPlain(s);
    PlanSplitsTranscript(s.transcript, SavedSummary(s), budget, keep);
    var plan := PlanOf(s.transcript, SavedSummary(s), budget, keep);
    if plan.Fold? {
      SplitMakesJob(s, plan, keep);
    }
  }

  lemma SplitMakesJob(s: State, plan: Waiting, keep: nat)
    requires StoredOk(s, keep) && SplitsOnly(s.transcript, SavedSummary(s), keep, plan)
    ensures JobOk(s, NewJob(s, plan), keep) && plan.archiveEnd + keep == |s.transcript|
  {
    ExtendsTold(s, plan, keep);
  }

  /** Telling the summariser the next archive, with or without what the saved summary was told. */
  lemma ExtendsTold(s: State, plan: Waiting, keep: nat)
    requires StoredOk(s, keep)
    requires plan.archiveStart == Covered(s) && plan.archiveEnd + keep == |s.transcript|
    requires plan.archive == s.transcript[plan.archiveStart..plan.archiveEnd]
    ensures
      var job := NewJob(s, plan);
      ToldOf(Told(job), job.line, s.transcript, plan.archiveEnd)
  {
    var job := NewJob(s, plan);
    var told := Told(job);
    var skipped := plan.archiveEnd - |told|;
    assert told == s.transcript[skipped..plan.archiveEnd];
    if s.stored.Some? {
      var text := s.stored.value.summary.text;
      assert "" in job.line <==> "" in s.stored.value.line || text == "";
    }
  }

  lemma {:induction false} NextKeepsInv(s: State, step: Step, keep: nat)
    requires Inv(s, keep)
    ensures Inv(Next(s, step, keep), keep)
  {
    match step
    case Append(turn) => AppendKeepsInv(s, turn, keep);
    case Begin(id, budget) =>
      NewJobIsOk(s, budget, keep);
      BeginKeepsInv(s, id, PlanOf(s.transcript, SavedSummary(s), budget, keep), keep);
    case Conclude(id, text, landed) => ConcludeKeepsInv(s, id, text, landed, keep);
  }

  lemma BeginKeepsInv(s: State, id: nat, plan: Plan, keep: nat)
    requires plan.Fold? ==> plan.archiveStart < plan.archiveEnd
    requires Inv(s, keep) && (plan.Fold? ==> JobOk(s, NewJob(s, plan), keep))
    ensures Inv(Begun(s, id, plan), keep)
  {
    var t := Begun(s, id, plan);
    forall other | other in t.jobs
      ensures JobOk(t, t.jobs[other], keep)
    {
      JobOutlivesAppend(s, t, t.jobs[other], keep);
    }
  }

  lemma ConcludeKeepsInv(s: State, id: nat, text: Option<string>, landed: bool, keep: nat)
    requires Inv(s, keep)
    ensures Inv(Next(s, Conclude(id, text, landed), keep), keep)
  {
    var t := Next(s, Conclude(id, text, landed), keep);
    if id in s.jobs {
      assert JobOk(s, s.jobs[id], keep);
      assert StoredOk(t, keep);
    }
    forall other | other in t.jobs
      ensures JobOk(t, t.jobs[other], keep)
    {
      JobOutlivesAppend(s, t, s.jobs[other], keep);
    }
  }

  lemma AppendKeepsInv(s: State, turn: Turn, keep: nat)
    requires Inv(s, keep)
    ensures Inv(Next(s, Append(turn), keep), keep)
  {
    var t := s.(transcript := s.transcript + [turn]);
    forall id | id in t.jobs
      ensures JobOk(t, t.jobs[id], keep)
    {
      JobOutlivesAppend(s, t, t.jobs[id], keep);
    }
    if s.stored.Some? {
      ToldOutlivesAppend(Folded(s), s.stored.value.line, s.transcript, t.transcript, Covered(s));
    }
  }

  lemma ToldOutlivesAppend(
    told: seq<Message>, line: seq<string>, before: seq<Message>, after: seq<Message>, upTo: nat)
    requires ToldOf(told, line, before, upTo) && before <= after
    ensures ToldOf(told, line, after, upTo)
  {
  }

  lemma JobOutlivesAppend(s: State, t: State, job: Job, keep: nat)
    requires JobOk(s, job, keep)
    requires s.transcript <= t.transcript
    ensures JobOk(t, job, keep)
  {
    var p := job.plan;
    ToldOutlivesAppend(Told(job), job.line, s.transcript, t.transcript, p.archiveEnd);
    assert s.transcript == t.transcript[..|s.transcript|];
  }

  lemma {:induction false} RunKeepsInv(steps: seq<Step>, keep: nat)
    ensures Inv(Run(steps, keep), keep)
  {
    if steps != [] {
      RunKeepsInv(steps[..|steps| - 1], keep);
      NextKeepsInv(Run(steps[..|steps| - 1], keep), steps[|steps| - 1], keep);
    }
  }

  /** Summary cover, over every run: the index stays short of the recent zone, the summary has been told turns
      up to its index in order and without a gap, and it has been told all of them if and only if no summary
      with an empty text was extended on the way to it. */
  lemma {:induction false} SummaryCoversExactly(steps: seq<Step>, keep: nat)
    ensures
      var s := Run(steps, keep);
      && (s.stored.Some? ==> Covered(s) <= RecentStart(s, keep) && EndOf(Folded(s), s.transcript, Covered(s)))
      && (ExactCover(s) <==> s.stored.Some? ==> "" !in s.stored.value.line)
  {
    RunKeepsInv(steps, keep);
  }

  /** So it is enough that the summariser never answers with an empty text. */
  lemma {:induction false} WordySummariesCoverExactly(steps: seq<Step>, keep: nat)
    requires forall i | 0 <= i < |steps| && steps[i].Conclude? :: steps[i].text != Some("")
    ensures ExactCover(Run(steps, keep))
  {
    LinesAreWordy(steps, keep);
    SummaryCoversExactly(steps, keep);
  }

  ghost predicate Wordy(s: State) {
    && (s.stored.Some? ==> s.stored.value.summary.text != "" && "" !in s.stored.value.line)
    && (forall id | id in s.jobs :: "" !in s.jobs[id].line)
  }

  lemma {:induction false} LinesAreWordy(steps: seq<Step>, keep: nat)
    requires forall i | 0 <= i < |steps| && steps[i].Conclude? :: steps[i].text != Some("")
    ensures Wordy(Run(steps, keep))
  {
    if steps != [] {
      LinesAreWordy(steps[..|steps| - 1], keep);
      StepKeepsWordy(Run(steps[..|steps| - 1], keep), steps[|steps| - 1], keep);
    }
  }

  lemma StepKeepsWordy(s: State, step: Step, keep: nat)
    requires Wordy(s) && (step.Conclude? ==> step.text != Some(""))
    ensures Wordy(Next(s, step, keep))
  {
  }

  /** A summary with an empty text is dropped by the build that extends it: the first turn was folded into it,
      and the next summary covers that turn by its index without ever having been told of it. */
  lemma EmptySummaryIsForgotten(first: Turn, second: Turn, third: Turn, text: string)
    ensures
      var s0 := Run([Append(first), Append(second)], 1);
      var s1 := Next(Next(s0, Begin(0, 0), 1), Conclude(0, Some(""), true), 1);
      var s2 := Next(s1, Append(third), 1);
      var s3 := Next(Next(s2, Begin(1, 0), 1), Conclude(1, Some(text), true), 1);
      && s1.stored == Some(Stored(Summary("", 0), [first], []))
      && s3.stored == Some(Stored(Summary(text, 1), [second], [""]))
      && !ExactCover(s3)
  {
    TwoTurns(first, second);
    var s0 := State([first, second], None, map[]);
    OneBuild(s0, 0, "");
    assert [] + s0.transcript[0..1] == [first];
    var s1 := State([first, second], Some(Stored(Summary("", 0), [first], [])), map[]);
    var s2 := Next(s1, Append(third), 1);
    assert s2 == State([first, second, third], s1.stored, map[]);
    OneBuild(s2, 1, text);
    assert [] + s2.transcript[1..2] == [second] && [] + [""] == [""];
  }

  /** A build that nothing disturbs folds all turns but the last, at budget 0. */
  lemma OneBuild(s: State, id: nat, text: string)
    requires |s.transcript| >= 2 && Covered(s) < |s.transcript| - 1 && s.jobs == map[]
    ensures
      var n := |s.transcript|;
      var base := if s.stored.None? || s.stored.value.summary.text == "" then [] else s.stored.value.folded;
      var line := if s.stored.None? then [] else s.stored.value.line + [s.stored.value.summary.text];
      Next(Next(s, Begin(id, 0), 1), Conclude(id, Some(text), true), 1)
      == s.(stored := Some(Stored(Summary(text, n - 2), base + s.transcript[Covered(s)..n - 1], line)))
  {
    StartsFolding(s);
    var begun := Next(s, Begin(id, 0), 1);
    assert begun.jobs - {id} == map[];
  }

  lemma TwoTurns(first: Turn, second: Turn)
    ensures Run([Append(first), Append(second)], 1) == State([first, second], None, map[])
  {
    assert [Append(first), Append(second)][..1] == [Append(first)];
    assert [Append(first)][..0] == [];
    assert Run([Append(first)], 1) == State([first], None, map[]);
  }

  lemma StartsFolding(s: State)
    requires |s.transcript| >= 2 && Covered(s) < |s.transcript| - 1
    ensures
      var plan := PlanOf(s.transcript, SavedSummary(s), 0, 1);
      && plan.Fold? && plan.archiveStart == Covered(s) && plan.archiveEnd == |s.transcript| - 1
      && plan.archive == s.transcript[plan.archiveStart..plan.archiveEnd]
  {
    assert forall m | m in s.transcript :: Plain(m);
    PlainIsNotPruned(s.transcript, 1);
    CostAtLeastOverhead(s.transcript);
  }

  // ------------------------------------------------------------ what builds hand over

  /** What a build hands over at once, at any point of any run: the transcript itself, or the saved summary
      followed by precisely the turns behind its index. */
  lemma {:induction false} ImmediateHistoryIsComplete(steps: seq<Step>, budget: nat, keep: nat)
    ensures
      var s := Run(steps, keep);
      var plan := PlanOf(s.transcript, SavedSummary(s), budget, keep);
      plan.Done? ==> Complete(s, plan.history.messages)
  {
    RunKeepsInv(steps, keep);
    ImmediateHistoryOf(Run(steps, keep), budget, keep);
  }

  /** Behind the summary's index nothing is missing; up to it, what the summary was not told, which is
      nothing unless an empty text was extended. */
  ghost predicate Complete(s: State, history: seq<Message>) {
    || history == s.transcript
    || (s.stored.Some?
        && Covered(s) <= |s.transcript|
        && history == [SummaryMessage(s.stored.value.summary.text)] + s.transcript[Covered(s)..]
        && ToldOf(Folded(s), s.stored.value.line, s.transcript, Covered(s)))
  }

  lemma ImmediateHistoryOf(s: State, budget: nat, keep: nat)
    requires Inv(s, keep)
    ensures
      var plan := PlanOf(s.transcript, SavedSummary(s), budget, keep);
      plan.Done? ==> Complete(s, plan.history.messages)
  {
    assert forall m | m in s.transcript :: Plain(m);
    PlanSplitsTranscript(s.transcript, SavedSummary(s), budget, keep);
    SplitIsComplete(s, PlanOf(s.transcript, SavedSummary(s), budget, keep), keep);
  }

  lemma SplitIsComplete(s: State, plan: Plan, keep: nat)
    requires StoredOk(s, keep) && SplitsOnly(s.transcript, SavedSummary(s), keep, plan)
    ensures plan.Done? ==> Complete(s, plan.history.messages)
  {
    if plan.Done? && plan.history.messages != s.transcript {
      var end := RecentStart(s, keep);
      if s.stored.Some? {
        assert Covered(s) == end;
      }
    }
  }

  /** What a build hands over after a fresh summary, at any point of any run: the summary, and a suffix of the
      zone that directly follows what the summary was told. */
  lemma {:induction false} FreshHistoryIsComplete(
    steps: seq<Step>, id: nat, text: string, budget: nat, keep: nat, history: CompactedHistory)
    requires id in Run(steps, keep).jobs
    requires ConcludesWith(Run(steps, keep).jobs[id].plan, Some(text), budget, history)
    ensures FreshAfter(Run(steps, keep), id, text, history, keep)
  {
    RunKeepsInv(steps, keep);
    FreshHistoryOf(Run(steps, keep), id, text, budget, keep, history);
  }

  lemma FreshHistoryOf(s: State, id: nat, text: string, budget: nat, keep: nat, history: CompactedHistory)
    requires Inv(s, keep) && id in s.jobs && ConcludesWith(s.jobs[id].plan, Some(text), budget, history)
    ensures FreshAfter(s, id, text, history, keep)
  {
    assert JobOk(s, s.jobs[id], keep);
    FreshShapeOfJob(s, s.jobs[id], text, budget, keep, history);
    ConcludeStores(s, id, text, keep);
  }

  /** The new summary and the end of the zone behind what it was told, which is what is saved with it. */
  predicate FreshAfter(s: State, id: nat, text: string, history: CompactedHistory, keep: nat)
    requires id in s.jobs
  {
    var job := s.jobs[id];
    var zone := job.plan.recent;
    var dropped := 1 + |zone| - |history.messages|;
    && 0 <= dropped <= |zone|
    && history.messages == [SummaryMessage(text)] + zone[dropped..]
    && job.plan.archiveEnd <= |s.transcript|
    && zone <= s.transcript[job.plan.archiveEnd..]
    && ToldOf(Told(job), job.line, s.transcript, job.plan.archiveEnd)
    && Next(s, Conclude(id, Some(text), true), keep).stored
       == Some(Stored(Summary(text, job.plan.archiveEnd - 1), Told(job), job.line))
  }

  lemma ConcludeStores(s: State, id: nat, text: string, keep: nat)
    requires id in s.jobs
    ensures
      var job := s.jobs[id];
      Next(s, Conclude(id, Some(text), true), keep).stored
      == Some(Stored(Summary(text, job.plan.archiveEnd - 1), Told(job), job.line))
  {
  }

  lemma FreshShapeOfJob(s: State, job: Job, text: string, budget: nat, keep: nat, history: CompactedHistory)
    requires JobOk(s, job, keep) && ConcludesWith(job.plan, Some(text), budget, history)
    ensures
      var zone := job.plan.recent;
      var dropped := 1 + |zone| - |history.messages|;
      && 0 <= dropped <= |zone|
      && history.messages == [SummaryMessage(text)] + zone[dropped..]
  {
    var p := job.plan;
    forall m | m in p.recent
      ensures Plain(m)
    {
      assert m in s.transcript;
    }
    PlainIsClean(p.recent);
    FreshResultShape(p, text, budget, history);
  }

  // ------------------------------------------------------------ does the index advance?

  /** The index is not monotone: a build that read two turns and answers after a build that read three
      takes the saved summary back. */
  lemma LateSaveMovesIndexBack(turn: Turn, early: string, late: string)
    ensures
      var s0 := Run([Append(turn), Append(turn)], 1);
      var s1 := Next(Next(s0, Begin(0, 0), 1), Append(turn), 1);
      var s2 := Next(Next(s1, Begin(1, 0), 1), Conclude(1, Some(late), true), 1);
      && SavedSummary(s2) == Some(Summary(late, 1))
      && SavedSummary(Next(s2, Conclude(0, Some(early), true), 1)) == Some(Summary(early, 0))
  {
    TwoTurns(turn, turn);
    var s0 := State([turn, turn], None, map[]);
    BeginsFolding(s0, 0);
    var s1 := Next(Next(s0, Begin(0, 0), 1), Append(turn), 1);
    BeginsFolding(s1, 1);
    var s2 := Next(s1, Begin(1, 0), 1);
    ConcludeStores(s2, 1, late, 1);
    ConcludeStores(Next(s2, Conclude(1, Some(late), true), 1), 0, early, 1);
  }

  /** A build that has an archive waits, beside those that wait already. */
  lemma BeginsFolding(s: State, id: nat)
    requires |s.transcript| >= 2 && Covered(s) < |s.transcript| - 1 && id !in s.jobs
    ensures
      var t := Next(s, Begin(id, 0), 1);
      && id in t.jobs && t == s.(jobs := s.jobs[id := t.jobs[id]])
      && t.jobs[id].plan.archiveEnd == |s.transcript| - 1
  {
    StartsFolding(s);
  }

  /** When a save does not go back: exactly when the saved index is within the new one, which a build could
      check before it saves. If no empty text was extended, it is then that the new summary has been told
      everything the old one was. */
  lemma {:induction false} SaveAdvances(steps: seq<Step>, id: nat, text: string, keep: nat)
    requires id in Run(steps, keep).jobs
    ensures
      var s := Run(steps, keep);
      var t := Next(s, Conclude(id, Some(text), true), keep);
      && (Covered(s) <= Covered(t) <==> Covered(s) <= s.jobs[id].plan.archiveEnd)
      && (ExactCover(s) && "" !in s.jobs[id].line ==>
            (Folded(s) <= Folded(t) <==> Covered(s) <= s.jobs[id].plan.archiveEnd))
  {
    RunKeepsInv(steps, keep);
    SaveAdvancesFrom(Run(steps, keep), id, text, keep);
  }

  lemma SaveAdvancesFrom(s: State, id: nat, text: string, keep: nat)
    requires Inv(s, keep) && id in s.jobs
    ensures
      var t := Next(s, Conclude(id, Some(text), true), keep);
      && (Covered(s) <= Covered(t) <==> Covered(s) <= s.jobs[id].plan.archiveEnd)
      && (ExactCover(s) && "" !in s.jobs[id].line ==>
            (Folded(s) <= Folded(t) <==> Covered(s) <= s.jobs[id].plan.archiveEnd))
  {
    var job := s.jobs[id];
    var end := job.plan.archiveEnd;
    assert JobOk(s, job, keep);
    if ExactCover(s) && "" !in job.line {
      assert Told(job) == s.transcript[..end];
      assert |Folded(s)| == Covered(s);
    }
  }

  /** In particular it strictly advances when no other build has saved since this one read the summary. */
  lemma {:induction false} UndisturbedBuildAdvances(steps: seq<Step>, id: nat, text: string, keep: nat)
    requires id in Run(steps, keep).jobs
    requires Run(steps, keep).jobs[id].plan.archiveStart == Covered(Run(steps, keep))
    ensures
      var s := Run(steps, keep);
      var t := Next(s, Conclude(id, Some(text), true), keep);
      && Covered(s) < Covered(t)
      && (ExactCover(s) && "" !in s.jobs[id].line ==> Folded(s) < Folded(t))
  {
    SaveAdvances(steps, id, text, keep);
    RunKeepsInv(steps, keep);
    assert JobOk(Run(steps, keep), Run(steps, keep).jobs[id], keep);
  }
}
