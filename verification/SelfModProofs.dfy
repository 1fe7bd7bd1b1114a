/** What every run of the self-modification service keeps. */
module SelfModProofs {
  import opened Messages
  import opened SelfMod

  // ------------------------------------------------------------ one session, one worktree

  /** `busy` is up exactly while one propose or retry is suspended; a worktree on record meanwhile is that
      call's, and its worktree is on record as long as it is there at all. */
  ghost predicate OneAtATime(s: State) {
    && (s.busy <==> s.jobs != map[])
    && (forall i, j | i in s.jobs && j in s.jobs :: i == j)
    && (forall i | i in s.jobs ::
          s.active.Some? || s.jobs[i].active.slug in s.worktrees ==> s.active == Some(s.jobs[i].active))
  }

  lemma ProposeKeepsOne(s: State, id: nat, slug: Slug, creation: Creation)
    requires OneAtATime(s)
    ensures OneAtATime(DoPropose(s, id, slug, creation))
  {
    var t := DoPropose(s, id, slug, creation);
    if t.jobs != s.jobs {
      assert id in t.jobs;
    }
  }

  lemma EndJobKeepsOne(s: State, id: nat)
    requires OneAtATime(s) && id in s.jobs
    ensures OneAtATime(EndJob(s, id)) && EndJob(s, id).jobs == map[]
  {
  }

  lemma EndSessionKeepsOne(s: State, id: nat, sessionOk: bool)
    requires OneAtATime(s)
    ensures OneAtATime(DoEndSession(s, id, sessionOk))
  {
    if id in s.jobs && s.jobs[id].InSession? {
      EndJobKeepsOne(s, id);
      var t := DoEndSession(s, id, sessionOk);
      assert id in t.jobs || t.jobs == map[];
    }
  }

  lemma RetryKeepsOne(s: State, id: nat, rebased: Option<Commit>)
    requires OneAtATime(s)
    ensures OneAtATime(DoRetry(s, id, rebased))
  {
    var t := DoRetry(s, id, rebased);
    if t != s {
      assert s.jobs == map[] && id in t.jobs && t.jobs.Keys == {id};
    }
  }

  lemma EndGateKeepsOne(s: State, id: nat, touched: bool, checksPass: bool, ledgerWritable: bool)
    requires OneAtATime(s)
    ensures OneAtATime(DoEndGate(s, id, touched, checksPass, ledgerWritable))
  {
    if id in s.jobs && s.jobs[id].InGate? {
      EndJobKeepsOne(s, id);
    }
  }

  lemma RemovedKeepsOne(s: State)
    requires OneAtATime(s)
    ensures OneAtATime(Removed(s))
  {
  }

  lemma ConfirmKeepsOne(s: State, entry: nat, call: nat, mergeCommit: Option<Commit>)
    requires OneAtATime(s)
    ensures OneAtATime(DoConfirm(s, entry, call, mergeCommit))
  {
  }

  lemma NextKeepsOne(s: State, step: Step)
    requires OneAtATime(s)
    ensures OneAtATime(Next(s, step))
  {
    match step
    case Propose(id, slug, creation) => ProposeKeepsOne(s, id, slug, creation);
    case EndSession(id, sessionOk) => EndSessionKeepsOne(s, id, sessionOk);
    case Retry(id, rebased) => RetryKeepsOne(s, id, rebased);
    case GateThrows(id) => if id in s.jobs { EndJobKeepsOne(s, id); }
    case EndGate(id, touched, checksPass, ledgerWritable) =>
      EndGateKeepsOne(s, id, touched, checksPass, ledgerWritable);
    case Abandon => RemovedKeepsOne(s);
    case Confirm(entry, call, mergeCommit) => ConfirmKeepsOne(s, entry, call, mergeCommit);
    case FinishMerge(call) => RemovedKeepsOne(s.(finishing := s.finishing - {call}));
    case Restart => RestartKeepsOne(s);
    case _ =>
  }

  lemma RestartKeepsOne(s: State)
    requires OneAtATime(s)
    ensures OneAtATime(DoRestart(s))
  {
  }

  lemma {:induction false} OneWorktreeOneSession(main: Commit, steps: seq<Step>)
    ensures OneAtATime(Run(main, steps))
  {
    if steps != [] {
      OneWorktreeOneSession(main, steps[..|steps| - 1]);
      NextKeepsOne(Run(main, steps[..|steps| - 1]), steps[|steps| - 1]);
    }
  }

  // ------------------------------------------------------------ merge safety

  /** Step `i` ends a gate on this branch. */
  ghost predicate GateEnds(main: Commit, steps: seq<Step>, i: nat, slug: Slug)
    requires i < |steps|
  {
    && steps[i].EndGate?
    && var s := Run(main, steps[..i]);
       steps[i].id in s.jobs && s.jobs[steps[i].id].InGate? && s.jobs[steps[i].id].active.slug == slug
  }

  /** Step `i` ends a gate that judged this head of this branch. */
  ghost predicate Judged(main: Commit, steps: seq<Step>, i: nat, approval: Approval)
    requires i < |steps|
  {
    && GateEnds(main, steps, i, approval.slug)
    && Run(main, steps[..i]).jobs[steps[i].id].headSha == approval.headSha
  }

  /** Step `i` is a gate that passed this head of this branch. */
  ghost predicate GatePassed(main: Commit, steps: seq<Step>, i: nat, approval: Approval)
    requires i < |steps|
  {
    Judged(main, steps, i, approval) && steps[i].touched && steps[i].checksPass
  }

  /** Step `i` passed what entry `e` asks the owner about, and recorded that entry. */
  ghost predicate MintedAt(main: Commit, steps: seq<Step>, i: nat, e: nat, approval: Approval)
    requires i < |steps|
  {
    GatePassed(main, steps, i, approval) && steps[i].ledgerWritable && Run(main, steps[..i]).issued == e
  }

  /** Step `i` is a confirmation that merges. */
  ghost predicate Merges(main: Commit, steps: seq<Step>, i: nat)
    requires i < |steps|
  {
    && steps[i].Confirm? && steps[i].mergeCommit.Some?
    && var s := Run(main, steps[..i]);
       && steps[i].entry in s.pending && steps[i].call !in s.finishing
       && MayMerge(s, s.pending[steps[i].entry]) && s.pending[steps[i].entry].slug in s.branches
  }

  /** What it merges. */
  function MergeAt(main: Commit, steps: seq<Step>, i: nat): Merge
    requires i < |steps| && Merges(main, steps, i)
  {
    var s := Run(main, steps[..i]);
    var a := s.pending[steps[i].entry];
    Merge(a.slug, a.headSha, s.branches[a.slug], s.verdicts[a.slug])
  }

  /** The owner's confirmation at step `i` made this merge. */
  ghost predicate MergedAt(main: Commit, steps: seq<Step>, i: nat, m: Merge)
    requires i < |steps|
  {
    Merges(main, steps, i) && MergeAt(main, steps, i) == m
  }

  /** Every entry and every merge is of a head that passed, and entries are used at most once. */
  ghost predicate LedgerOk(s: State) {
    && (forall e | e in s.pending :: s.pending[e] in s.passed && e < s.issued)
    && (forall m | m in s.merged :: Approval(m.slug, m.headSha) in s.passed && m.verdict.pass)
    && |s.merged| + |s.pending| <= s.issued
  }

  /** Verdicts, ledger entries, what passed and what was merged. */
  predicate SameRecords(s: State, t: State) {
    t.verdicts == s.verdicts && SameLedger(s, t)
  }

  predicate SameLedger(s: State, t: State) {
    t.pending == s.pending && t.issued == s.issued && t.passed == s.passed && t.merged == s.merged
  }

  lemma ProposeIsQuiet(s: State, id: nat, slug: Slug, creation: Creation)
    ensures SameRecords(s, DoPropose(s, id, slug, creation))
  {
    CreatingIsQuiet(s, slug, creation);
  }

  lemma CreatingIsQuiet(s: State, slug: Slug, creation: Creation)
    ensures SameRecords(s, Creating(s, slug, creation))
  {
  }

  lemma EndSessionIsQuiet(s: State, id: nat, sessionOk: bool)
    ensures SameRecords(s, DoEndSession(s, id, sessionOk))
  {
  }

  lemma RetryIsQuiet(s: State, id: nat, rebased: Option<Commit>)
    ensures SameRecords(s, DoRetry(s, id, rebased))
  {
  }

  /** Only gates and the ledger's own steps touch the records. */
  lemma OthersAreQuiet(s: State, step: Step)
    requires !step.EndGate? && !step.Confirm? && !step.DropEntry?
    ensures SameRecords(s, Next(s, step))
  {
    match step
    case Propose(id, slug, creation) => ProposeIsQuiet(s, id, slug, creation);
    case EndSession(id, sessionOk) => EndSessionIsQuiet(s, id, sessionOk);
    case Retry(id, rebased) => RetryIsQuiet(s, id, rebased);
    case Abandon => RemovedIsQuiet(s);
    case FinishMerge(call) => RemovedIsQuiet(s.(finishing := s.finishing - {call}));
    case _ => RestIsQuiet(s, step);
  }

  lemma RestIsQuiet(s: State, step: Step)
    requires step.GateThrows? || step.Restart? || step.MoveHead? || step.Detach? || step.Attach? || step.LoseWorktree?
             || step.MoveMain?
    ensures SameRecords(s, Next(s, step))
  {
  }

  lemma ConfirmRecords(s: State, entry: nat, call: nat, mergeCommit: Option<Commit>)
    ensures
      var t := DoConfirm(s, entry, call, mergeCommit);
      && t.verdicts == s.verdicts && t.issued == s.issued && t.passed == s.passed && s.merged <= t.merged
      && (forall e | e in t.pending :: e in s.pending && t.pending[e] == s.pending[e])
  {
  }

  lemma EndGateVerdicts(s: State, step: Step)
    requires step.EndGate? && step.id in s.jobs && s.jobs[step.id].InGate?
    ensures
      var job := s.jobs[step.id];
      exists pass :: Next(s, step).verdicts == s.verdicts[job.active.slug := Verdict(job.headSha, pass)]
  {
    var job := s.jobs[step.id];
    var changes := step.touched && job.headSha != job.active.baseSha;
    var pass := step.checksPass && changes;
    ConcludedRecords(WithVerdict(s, step.id, pass), job, changes, pass, step.ledgerWritable);
    assert Next(s, step).verdicts == s.verdicts[job.active.slug := Verdict(job.headSha, pass)];
  }

  /** The ledger after `approval` passed. */
  predicate PassRecorded(s: State, t: State, approval: Approval, ledgerWritable: bool) {
    && t.passed == s.passed + {approval} && t.merged == s.merged
    && t.pending == (if ledgerWritable then s.pending[s.issued := approval] else s.pending)
    && t.issued == if ledgerWritable then s.issued + 1 else s.issued
  }

  lemma EndGateRecords(s: State, step: Step)
    requires step.EndGate? && step.id in s.jobs && s.jobs[step.id].InGate?
    ensures
      var approval := Approval(s.jobs[step.id].active.slug, s.jobs[step.id].headSha);
      SameLedger(s, Next(s, step))
      || (step.touched && step.checksPass && PassRecorded(s, Next(s, step), approval, step.ledgerWritable))
  {
    var job := s.jobs[step.id];
    var changes := step.touched && job.headSha != job.active.baseSha;
    var pass := step.checksPass && changes;
    EndGateConcludes(s, step);
    ConcludedRecords(WithVerdict(s, step.id, pass), job, changes, pass, step.ledgerWritable);
  }

  lemma EndGateConcludes(s: State, step: Step)
    requires step.EndGate? && step.id in s.jobs && s.jobs[step.id].InGate?
    ensures
      var job := s.jobs[step.id];
      var changes := step.touched && job.headSha != job.active.baseSha;
      var pass := step.checksPass && changes;
      && Next(s, step) == Concluded(WithVerdict(s, step.id, pass), job, changes, pass, step.ledgerWritable)
      && SameLedger(s, WithVerdict(s, step.id, pass))
  {
  }

  lemma ConcludedRecords(s: State, job: Job, changes: bool, pass: bool, ledgerWritable: bool)
    requires job.InGate?
    ensures
      var t := Concluded(s, job, changes, pass, ledgerWritable);
      && t.verdicts == s.verdicts
      && (SameLedger(s, t)
          || (pass && PassRecorded(s, t, Approval(job.active.slug, job.headSha), ledgerWritable)))
  {
    RemovedIsQuiet(s);
  }

  lemma RemovedIsQuiet(s: State)
    ensures SameRecords(s, Removed(s))
  {
  }

  lemma SmallerMap<K, V>(m: map<K, V>, k: K)
    requires k in m
    ensures |m - {k}| == |m| - 1
  {
    assert (m - {k}).Keys == m.Keys - {k};
    assert |m| == |m.Keys| && |m - {k}| == |(m - {k}).Keys|;
  }

  lemma LargerMap<K, V>(m: map<K, V>, k: K, v: V)
    requires k !in m
    ensures |m[k := v]| == |m| + 1
  {
    assert m[k := v].Keys == m.Keys + {k};
    assert |m| == |m.Keys| && |m[k := v]| == |m[k := v].Keys|;
  }

  lemma EndGateKeepsLedger(s: State, step: Step)
    requires LedgerOk(s) && step.EndGate?
    ensures LedgerOk(Next(s, step))
  {
    var t := Next(s, step);
    if step.id in s.jobs && s.jobs[step.id].InGate? {
      var job := s.jobs[step.id];
      var approval := Approval(job.active.slug, job.headSha);
      EndGateRecords(s, step);
      if SameLedger(s, t) {
        SameLedgerOk(s, t);
      } else {
        PassKeepsLedger(s, t, approval, step.ledgerWritable);
      }
    }
  }

  lemma SameLedgerOk(s: State, t: State)
    requires LedgerOk(s) && SameLedger(s, t)
    ensures LedgerOk(t)
  {
  }

  lemma PassKeepsLedger(s: State, t: State, approval: Approval, ledgerWritable: bool)
    requires LedgerOk(s) && PassRecorded(s, t, approval, ledgerWritable)
    ensures LedgerOk(t)
  {
    LargerMap(s.pending, s.issued, approval);
  }

  lemma ConfirmKeepsLedger(s: State, entry: nat, call: nat, mergeCommit: Option<Commit>)
    requires LedgerOk(s)
    ensures LedgerOk(DoConfirm(s, entry, call, mergeCommit))
    ensures LedgerOk(s.(pending := s.pending - {entry}))
  {
    if entry in s.pending {
      SmallerMap(s.pending, entry);
    } else {
      assert s.pending - {entry} == s.pending;
    }
  }

  lemma {:induction false} NextKeepsLedger(s: State, step: Step)
    requires LedgerOk(s)
    ensures LedgerOk(Next(s, step))
  {
    match step
    case EndGate(_, _, _, _) => EndGateKeepsLedger(s, step);
    case Confirm(entry, call, mergeCommit) => ConfirmKeepsLedger(s, entry, call, mergeCommit);
    case DropEntry(entry) => ConfirmKeepsLedger(s, entry, 0, None);
    case _ => OthersAreQuiet(s, step);
  }

  lemma {:induction false} RunKeepsLedger(main: Commit, steps: seq<Step>)
    ensures LedgerOk(Run(main, steps))
  {
    if steps != [] {
      RunKeepsLedger(main, steps[..|steps| - 1]);
      NextKeepsLedger(Run(main, steps[..|steps| - 1]), steps[|steps| - 1]);
    }
  }

  lemma {:induction false} PassedIsTraced(main: Commit, steps: seq<Step>, a: Approval)
    requires a in Run(main, steps).passed
    ensures exists i | 0 <= i < |steps| :: GatePassed(main, steps, i, a)
  {
    var n := |steps| - 1;
    var before, last := steps[..n], steps[n];
    if a in Run(main, before).passed {
      PassedIsTraced(main, before, a);
      var i :| 0 <= i < n && GatePassed(main, before, i, a);
      assert steps[..i] == before[..i];
      assert GatePassed(main, steps, i, a);
    } else {
      PassedGrowsAtGates(Run(main, before), last, a);
      assert GatePassed(main, steps, n, a);
    }
  }

  lemma PassedGrowsAtGates(s: State, step: Step, a: Approval)
    requires a !in s.passed && a in Next(s, step).passed
    ensures step.EndGate? && step.touched && step.checksPass && step.id in s.jobs && s.jobs[step.id].InGate?
    ensures a == Approval(s.jobs[step.id].active.slug, s.jobs[step.id].headSha)
  {
    match step
    case EndGate(id, _, _, _) => if id in s.jobs && s.jobs[id].InGate? { EndGateRecords(s, step); }
    case Confirm(entry, call, mergeCommit) => ConfirmRecords(s, entry, call, mergeCommit);
    case DropEntry(_) =>
    case _ => OthersAreQuiet(s, step);
  }

  lemma {:induction false} MergeIsTraced(main: Commit, steps: seq<Step>, m: Merge)
    requires m in Run(main, steps).merged
    ensures exists i | 0 <= i < |steps| :: MergedAt(main, steps, i, m)
  {
    var n := |steps| - 1;
    var before, last := steps[..n], steps[n];
    if m in Run(main, before).merged {
      MergeIsTraced(main, before, m);
      var i :| 0 <= i < n && MergedAt(main, before, i, m);
      assert steps[..i] == before[..i];
      assert MergedAt(main, steps, i, m);
    } else {
      if !last.Confirm? {
        MainOnlyMergesOnConfirm(Run(main, before), last);
      }
      assert MergedAt(main, steps, n, m);
    }
  }

  lemma {:induction false} MergesAreKept(main: Commit, steps: seq<Step>, i: nat)
    requires i < |steps| && Merges(main, steps, i)
    ensures MergeAt(main, steps, i) in Run(main, steps).merged
  {
    var n := |steps| - 1;
    var before, m := steps[..n], MergeAt(main, steps, i);
    if i < n {
      assert steps[..i] == before[..i];
      assert MergedAt(main, before, i, m);
      MergesAreKept(main, before, i);
      MergedOnlyGrows(Run(main, before), steps[n]);
    } else {
      ConfirmAddsMerge(Run(main, before), steps[n]);
    }
  }

  lemma ConfirmAddsMerge(s: State, step: Step)
    requires step.Confirm? && step.mergeCommit.Some? && step.entry in s.pending && step.call !in s.finishing
    requires MayMerge(s, s.pending[step.entry]) && s.pending[step.entry].slug in s.branches
    ensures
      var a := s.pending[step.entry];
      Next(s, step).merged == s.merged + [Merge(a.slug, a.headSha, s.branches[a.slug], s.verdicts[a.slug])]
  {
  }

  lemma MergedOnlyGrows(s: State, step: Step)
    ensures s.merged <= Next(s, step).merged
  {
    if step.Confirm? {
      ConfirmRecords(s, step.entry, step.call, step.mergeCommit);
    } else {
      MainOnlyMergesOnConfirm(s, step);
    }
  }

  lemma {:induction false} PendingIsMinted(main: Commit, steps: seq<Step>, e: nat)
    requires e in Run(main, steps).pending
    ensures exists i | 0 <= i < |steps| :: MintedAt(main, steps, i, e, Run(main, steps).pending[e])
  {
    var n := |steps| - 1;
    var before, last := steps[..n], steps[n];
    var a := Run(main, steps).pending[e];
    if e in Run(main, before).pending && Run(main, before).pending[e] == a {
      PendingIsMinted(main, before, e);
      var i :| 0 <= i < n && MintedAt(main, before, i, e, a);
      assert steps[..i] == before[..i];
      assert MintedAt(main, steps, i, e, a);
    } else {
      PendingOnlyGrowsAtGates(Run(main, before), last, e);
      assert MintedAt(main, steps, n, e, a);
    }
  }

  lemma PendingOnlyGrowsAtGates(s: State, step: Step, e: nat)
    requires e in Next(s, step).pending
    requires !(e in s.pending && s.pending[e] == Next(s, step).pending[e])
    ensures step.EndGate? && step.id in s.jobs && s.jobs[step.id].InGate?
    ensures step.touched && step.checksPass && step.ledgerWritable && s.issued == e
    ensures Next(s, step).pending[e] == Approval(s.jobs[step.id].active.slug, s.jobs[step.id].headSha)
  {
    match step
    case EndGate(id, _, _, _) => if id in s.jobs && s.jobs[id].InGate? { EndGateRecords(s, step); }
    case Confirm(entry, call, mergeCommit) => ConfirmRecords(s, entry, call, mergeCommit);
    case DropEntry(_) =>
    case _ => OthersAreQuiet(s, step);
  }

  lemma MainOnlyMergesOnConfirm(s: State, step: Step)
    requires !step.Confirm?
    ensures Next(s, step).merged == s.merged
  {
    match step
    case EndGate(id, _, _, _) => if id in s.jobs && s.jobs[id].InGate? { EndGateRecords(s, step); }
    case DropEntry(_) =>
    case _ => OthersAreQuiet(s, step);
  }

  /** Merge safety: whatever was merged was confirmed by the owner in this run, for a head that a gate of this
      run had passed before and had recorded that very entry for, that was checked out at that moment, and with
      a passing verdict on record; and no entry was ever used twice. */
  lemma {:induction false} MergesAreGatedAndConfirmed(main: Commit, steps: seq<Step>, m: Merge)
    requires m in Run(main, steps).merged
    ensures m.verdict.pass
    ensures exists i | 0 <= i < |steps| :: MergedAt(main, steps, i, m) && RecordedBefore(main, steps, i, m)
    ensures |Run(main, steps).merged| + |Run(main, steps).pending| <= Run(main, steps).issued
  {
    RunKeepsLedger(main, steps);
    MergeIsTraced(main, steps, m);
    var i :| 0 <= i < |steps| && MergedAt(main, steps, i, m);
    GatePassedBefore(main, steps, i);
  }

  /** A gate before step `i` passed the confirmed head and recorded the entry that step `i` confirms. */
  ghost predicate RecordedBefore(main: Commit, steps: seq<Step>, i: nat, m: Merge)
    requires i < |steps| && steps[i].Confirm?
  {
    exists j | 0 <= j < i :: MintedAt(main, steps, j, steps[i].entry, Approval(m.slug, m.headSha))
  }

  lemma {:induction false} GatePassedBefore(main: Commit, steps: seq<Step>, i: nat)
    requires i < |steps| && Merges(main, steps, i)
    ensures RecordedBefore(main, steps, i, MergeAt(main, steps, i))
  {
    var e, m := steps[i].entry, MergeAt(main, steps, i);
    PendingIsMinted(main, steps[..i], e);
    var j :| 0 <= j < i && MintedAt(main, steps[..i], j, e, Approval(m.slug, m.headSha));
    assert steps[..i][..j] == steps[..j];
    assert MintedAt(main, steps, j, e, Approval(m.slug, m.headSha));
  }

  // ------------------------------------------------------------ is the merged tip the judged head?

  /** The branch is at the commit that is checked out. */
  predicate AtTip(s: State, slug: Slug) {
    slug in s.worktrees && slug in s.branches && s.branches[slug] == s.worktrees[slug]
  }

  /** The checks look at the worktree, git merges the branch. A merge brings in the head that was judged and
      confirmed exactly when the branch was at the checked-out commit at the confirmation. */
  lemma {:induction false} MergedTipIsConfirmedHead(main: Commit, steps: seq<Step>, i: nat)
    requires i < |steps| && Merges(main, steps, i)
    ensures
      var m := MergeAt(main, steps, i);
      && m in Run(main, steps).merged
      && (m.tip == m.headSha <==> AtTip(Run(main, steps[..i]), m.slug))
      && (AtTip(Run(main, steps[..i]), m.slug) ==>
            exists j | 0 <= j < i :: GatePassed(main, steps, j, Approval(m.slug, m.tip)))
  {
    MergesAreKept(main, steps, i);
    var m := MergeAt(main, steps, i);
    GatePassedBefore(main, steps, i);
    var j :| 0 <= j < i && MintedAt(main, steps, j, steps[i].entry, Approval(m.slug, m.headSha));
    assert GatePassed(main, steps, j, Approval(m.slug, m.headSha));
  }

  /** Over a whole run: only confirmed heads were merged if and only if every merging confirmation found the
      branch at the checked-out commit. */
  lemma {:induction false} OnlyConfirmedHeadsAreMerged(main: Commit, steps: seq<Step>)
    ensures
      (forall m | m in Run(main, steps).merged :: m.tip == m.headSha)
      <==> (forall i | 0 <= i < |steps| && Merges(main, steps, i) ::
              AtTip(Run(main, steps[..i]), MergeAt(main, steps, i).slug))
  {
    forall i: nat | i < |steps| && Merges(main, steps, i)
      ensures
        var m := MergeAt(main, steps, i);
        m in Run(main, steps).merged && (m.tip == m.headSha <==> AtTip(Run(main, steps[..i]), m.slug))
    {
      MergedTipIsConfirmedHead(main, steps, i);
    }
    forall m | m in Run(main, steps).merged
      ensures exists i | 0 <= i < |steps| :: MergedAt(main, steps, i, m)
    {
      MergeIsTraced(main, steps, m);
    }
  }

  /** Branches and checked-out commits part only where something else than the branch is checked out. */
  ghost predicate BranchesFollow(s: State) {
    Follow(s.worktrees, s.branches, s.detached)
  }

  ghost predicate Follow(worktrees: map<Slug, Commit>, branches: map<Slug, Commit>, detached: set<Slug>) {
    forall slug | slug in worktrees && slug !in detached :: slug in branches && branches[slug] == worktrees[slug]
  }

  lemma ProposeKeepsBranches(s: State, id: nat, slug: Slug, creation: Creation)
    requires BranchesFollow(s)
    ensures BranchesFollow(DoPropose(s, id, slug, creation))
    ensures DoPropose(s, id, slug, creation).detached <= s.detached
  {
  }

  lemma MovedKeepsBranches(s: State, slug: Slug, head: Commit)
    requires BranchesFollow(s) && slug in s.worktrees
    ensures BranchesFollow(Moved(s, slug, head))
    ensures Moved(s, slug, head).detached == s.detached
  {
  }

  lemma RemovedKeepsBranches(s: State)
    requires BranchesFollow(s)
    ensures BranchesFollow(Removed(s)) && Removed(s).detached <= s.detached
  {
  }

  lemma EndGateKeepsBranches(s: State, id: nat, touched: bool, checksPass: bool, ledgerWritable: bool)
    requires BranchesFollow(s)
    ensures
      var t := DoEndGate(s, id, touched, checksPass, ledgerWritable);
      BranchesFollow(t) && t.detached <= s.detached
  {
    RemovedKeepsBranches(s);
  }

  lemma NextKeepsBranches(s: State, step: Step)
    requires BranchesFollow(s)
    ensures BranchesFollow(Next(s, step))
    ensures !step.Detach? ==> Next(s, step).detached <= s.detached
  {
    match step
    case Propose(id, slug, creation) => ProposeKeepsBranches(s, id, slug, creation);
    case Retry(id, rebased) =>
      if s.active.Some? && s.active.value.slug in s.worktrees && rebased.Some? {
        MovedKeepsBranches(s, s.active.value.slug, rebased.value);
      }
    case EndGate(id, touched, checksPass, ledgerWritable) =>
      EndGateKeepsBranches(s, id, touched, checksPass, ledgerWritable);
    case MoveHead(slug, head) => if slug in s.worktrees { MovedKeepsBranches(s, slug, head); }
    case Abandon => RemovedKeepsBranches(s);
    case FinishMerge(call) => RemovedKeepsBranches(s.(finishing := s.finishing - {call}));
    case _ => OthersKeepBranches(s, step);
  }

  lemma OthersKeepBranches(s: State, step: Step)
    requires BranchesFollow(s)
    requires !step.Propose? && !step.Retry? && !step.EndGate? && !step.MoveHead? && !step.Abandon? && !step.FinishMerge?
    ensures BranchesFollow(Next(s, step))
    ensures !step.Detach? ==> Next(s, step).detached <= s.detached
  {
  }

  lemma {:induction false} RunKeepsBranches(main: Commit, steps: seq<Step>)
    ensures BranchesFollow(Run(main, steps))
    ensures (forall i | 0 <= i < |steps| :: !steps[i].Detach?) ==> Run(main, steps).detached == {}
  {
    if steps != [] {
      RunKeepsBranches(main, steps[..|steps| - 1]);
      NextKeepsBranches(Run(main, steps[..|steps| - 1]), steps[|steps| - 1]);
    }
  }

  /** So it is enough that worktrees stay on their branches. */
  lemma {:induction false} AttachedRunsMergeConfirmedHeads(main: Commit, steps: seq<Step>, m: Merge)
    requires forall i | 0 <= i < |steps| :: !steps[i].Detach?
    requires m in Run(main, steps).merged
    ensures m.tip == m.headSha
    ensures exists i | 0 <= i < |steps| :: GatePassed(main, steps, i, Approval(m.slug, m.tip))
  {
    MergesAreGatedAndConfirmed(main, steps, m);
    var i :| 0 <= i < |steps| && MergedAt(main, steps, i, m);
    RunKeepsBranches(main, steps[..i]);
    MergedTipIsConfirmedHead(main, steps, i);
  }

  // ------------------------------------------------------------ is the verdict about the confirmed head?

  /** Step `i` ends the last gate on this branch so far, and it judged this head. */
  ghost predicate LastJudged(main: Commit, steps: seq<Step>, i: nat, approval: Approval)
    requires i < |steps|
  {
    Judged(main, steps, i, approval) && NoGateSince(main, steps, i + 1, approval.slug)
  }

  ghost predicate NoGateSince(main: Commit, steps: seq<Step>, from: nat, slug: Slug) {
    forall k | from <= k < |steps| :: !GateEnds(main, steps, k, slug)
  }

  lemma {:induction false} VerdictIsLastJudgement(main: Commit, steps: seq<Step>, slug: Slug)
    requires slug in Run(main, steps).verdicts
    ensures exists i | 0 <= i < |steps| ::
              LastJudged(main, steps, i, Approval(slug, Run(main, steps).verdicts[slug].headSha))
  {
    var n := |steps| - 1;
    var before := steps[..n];
    var a := Approval(slug, Run(main, steps).verdicts[slug].headSha);
    if GateEnds(main, steps, n, slug) {
      EndGateVerdicts(Run(main, before), steps[n]);
      assert LastJudged(main, steps, n, a);
    } else {
      VerdictsOnlyChangeAtGates(Run(main, before), steps[n], slug);
      VerdictIsLastJudgement(main, before, slug);
      var i :| 0 <= i < n && LastJudged(main, before, i, a);
      StillLastJudged(main, steps, i, a);
    }
  }

  lemma StillLastJudged(main: Commit, steps: seq<Step>, i: nat, a: Approval)
    requires i < |steps| - 1 && LastJudged(main, steps[..|steps| - 1], i, a)
    requires !GateEnds(main, steps, |steps| - 1, a.slug)
    ensures LastJudged(main, steps, i, a)
  {
    var before := steps[..|steps| - 1];
    assert steps[..i] == before[..i];
    forall k | i + 1 <= k < |steps|
      ensures !GateEnds(main, steps, k, a.slug)
    {
      if k < |before| {
        assert steps[..k] == before[..k] && !GateEnds(main, before, k, a.slug);
      }
    }
  }

  lemma VerdictsOnlyChangeAtGates(s: State, step: Step, slug: Slug)
    requires slug in Next(s, step).verdicts
    requires !(step.EndGate? && step.id in s.jobs && s.jobs[step.id].InGate? && s.jobs[step.id].active.slug == slug)
    ensures slug in s.verdicts && s.verdicts[slug] == Next(s, step).verdicts[slug]
  {
    match step
    case EndGate(id, _, _, _) => if id in s.jobs && s.jobs[id].InGate? { EndGateVerdicts(s, step); }
    case Confirm(entry, call, mergeCommit) => ConfirmRecords(s, entry, call, mergeCommit);
    case DropEntry(_) =>
    case _ => OthersAreQuiet(s, step);
  }

  /** A merge asks for a passing verdict on the slug, not for one on the head. When entry `e` can be confirmed,
      the verdict on record is about the head it asks about if and only if the last gate on the branch judged
      that head; it is so as long as no gate has ended on the branch since the one that recorded the entry. */
  lemma {:induction false} VerdictIsAboutConfirmedHead(main: Commit, steps: seq<Step>, e: nat)
    requires e in Run(main, steps).pending && MayMerge(Run(main, steps), Run(main, steps).pending[e])
    ensures
      var s := Run(main, steps);
      var a := s.pending[e];
      && (s.verdicts[a.slug].headSha == a.headSha
          <==> exists i | 0 <= i < |steps| :: LastJudged(main, steps, i, a))
      && (exists i | 0 <= i < |steps| :: MintedAt(main, steps, i, e, a))
      && (forall i | 0 <= i < |steps| && MintedAt(main, steps, i, e, a) ::
            NoGateSince(main, steps, i + 1, a.slug) ==> s.verdicts[a.slug].headSha == a.headSha)
  {
    var s := Run(main, steps);
    var a := s.pending[e];
    PendingIsMinted(main, steps, e);
    VerdictIsLastJudgement(main, steps, a.slug);
    var v := Approval(a.slug, s.verdicts[a.slug].headSha);
    var last :| 0 <= last < |steps| && LastJudged(main, steps, last, v);
    forall i | 0 <= i < |steps| && LastJudged(main, steps, i, a)
      ensures i == last
    {
    }
  }

  /** New work gets a new commit id: worktrees and main only ever move on to commits that are new, a rebase
      makes a new commit or finds nothing to do, and a merge commits or is up to date. */
  ghost predicate FreshStep(s: State, step: Step) {
    match step
    case MoveHead(_, head) => head !in s.known
    case Detach(slug, head) => head !in s.known || (slug in s.worktrees && s.worktrees[slug] == head)
    case Attach(slug) => slug in s.worktrees ==> AtTip(s, slug)
    case MoveMain(head) => head !in s.known
    case Retry(_, rebased) =>
      rebased.Some? ==>
        || rebased.value !in s.known
        || rebased.value == s.main
        || (s.active.Some? && s.active.value.slug in s.worktrees
            && rebased.value == s.worktrees[s.active.value.slug])
    case Confirm(_, _, mergeCommit) =>
      mergeCommit.Some? ==> mergeCommit.value !in s.known || mergeCommit.value == s.main
    case _ => true
  }

  ghost predicate FreshRun(main: Commit, steps: seq<Step>) {
    forall i | 0 <= i < |steps| :: FreshStep(Run(main, steps[..i]), steps[i])
  }

  ghost predicate AllKnown(s: State) {
    && s.main in s.known
    && (forall slug | slug in s.worktrees :: s.worktrees[slug] in s.known)
    && (forall e | e in s.pending :: s.pending[e].headSha in s.known)
    && (forall i | i in s.jobs && s.jobs[i].InGate? :: s.jobs[i].headSha in s.known)
  }

  ghost predicate AwaitsConfirm(s: State, slug: Slug, head: Commit) {
    exists e | e in s.pending :: s.pending[e] == Approval(slug, head)
  }

  /** A head that is checked out and awaits confirmation is the head of the verdict on record. */
  ghost predicate VerdictIsCurrent(s: State) {
    forall slug | slug in s.worktrees && AwaitsConfirm(s, slug, s.worktrees[slug]) ::
      slug in s.verdicts && s.verdicts[slug].headSha == s.worktrees[slug]
  }

  /** While a gate runs, its worktree is where the gate found it or at a head nobody was asked about. */
  ghost predicate GateHeadHolds(s: State) {
    forall i | i in s.jobs && s.jobs[i].InGate? ::
      var slug := s.jobs[i].active.slug;
      slug in s.worktrees ==> s.worktrees[slug] == s.jobs[i].headSha || !AwaitsConfirm(s, slug, s.worktrees[slug])
  }

  /** A branch that stands at main has no work of its own. */
  ghost predicate MainIsNoWork(s: State) {
    && (forall e | e in s.pending :: s.pending[e].headSha != s.main)
    && (s.active.Some? && s.active.value.slug in s.worktrees && s.worktrees[s.active.value.slug] == s.main ==>
          s.active.value.baseSha == s.main)
    && (forall i | i in s.jobs && s.jobs[i].InGate? ::
          s.jobs[i].headSha == s.main ==> s.jobs[i].active.baseSha == s.main)
  }

  ghost predicate FreshInv(s: State) {
    OneAtATime(s) && AllKnown(s) && MainIsNoWork(s) && GateHeadHolds(s) && VerdictIsCurrent(s)
  }

  lemma EndGateKeepsFresh(s: State, id: nat, touched: bool, checksPass: bool, ledgerWritable: bool)
    requires FreshInv(s) && id in s.jobs && s.jobs[id].InGate?
    ensures FreshInv(DoEndGate(s, id, touched, checksPass, ledgerWritable))
  {
    var t := DoEndGate(s, id, touched, checksPass, ledgerWritable);
    EndGateKeepsOne(s, id, touched, checksPass, ledgerWritable);
    EndGateLeaves(s, id, touched, checksPass, ledgerWritable);
    NewEntryKeepsKnown(s, t, s.jobs[id]);
    NewEntryKeepsVerdict(s, t, s.jobs[id]);
  }

  /** What is left of the state when a gate ends: no job, no new worktree, at most one new entry. */
  ghost predicate GateLeft(s: State, t: State, job: Job)
    requires job.InGate?
  {
    && t.jobs == map[] && t.main == s.main && t.known == s.known
    && (t.active == s.active || t.active.None?)
    && t.worktrees.Keys <= s.worktrees.Keys && (forall x | x in t.worktrees :: t.worktrees[x] == s.worktrees[x])
    && (exists pass :: t.verdicts == s.verdicts[job.active.slug := Verdict(job.headSha, pass)])
    && (t.pending == s.pending
        || (job.headSha != job.active.baseSha
            && t.pending == s.pending[s.issued := Approval(job.active.slug, job.headSha)]))
  }

  lemma EndGateLeaves(s: State, id: nat, touched: bool, checksPass: bool, ledgerWritable: bool)
    requires OneAtATime(s) && id in s.jobs && s.jobs[id].InGate?
    ensures GateLeft(s, DoEndGate(s, id, touched, checksPass, ledgerWritable), s.jobs[id])
  {
    var job := s.jobs[id];
    var changes := touched && job.headSha != job.active.baseSha;
    var pass := checksPass && changes;
    EndJobKeepsOne(s, id);
    var ended := WithVerdict(s, id, pass);
    VerdictLeaves(s, ended, id, pass);
    ConcludedLeaves(s, ended, job, changes, pass, ledgerWritable);
  }

  lemma VerdictLeaves(s: State, ended: State, id: nat, pass: bool)
    requires id in s.jobs && s.jobs[id].InGate? && EndJob(s, id).jobs == map[]
    requires ended == WithVerdict(s, id, pass)
    ensures GateLeft(s, ended, s.jobs[id]) && ended.pending == s.pending && ended.issued == s.issued
  {
    var job := s.jobs[id];
    assert ended.verdicts == s.verdicts[job.active.slug := Verdict(job.headSha, pass)];
  }

  lemma ConcludedLeaves(s: State, ended: State, job: Job, changes: bool, pass: bool, ledgerWritable: bool)
    requires job.InGate? && GateLeft(s, ended, job) && ended.pending == s.pending && ended.issued == s.issued
    requires pass ==> job.headSha != job.active.baseSha
    ensures GateLeft(s, Concluded(ended, job, changes, pass, ledgerWritable), job)
  {
    if job.proposing == Some(false) && !changes {
      RemovedIsQuiet(ended);
    } else if pass {
      MintedLeaves(s, ended, job, ledgerWritable);
    }
  }

  lemma MintedLeaves(s: State, ended: State, job: Job, ledgerWritable: bool)
    requires job.InGate? && GateLeft(s, ended, job) && ended.pending == s.pending && ended.issued == s.issued
    requires job.headSha != job.active.baseSha
    ensures GateLeft(s, Minted(ended, Approval(job.active.slug, job.headSha), ledgerWritable), job)
  {
  }

  lemma NewEntryKeepsKnown(s: State, t: State, job: Job)
    requires job.InGate? && GateLeft(s, t, job)
    requires AllKnown(s) && MainIsNoWork(s) && exists i :: i in s.jobs && s.jobs[i] == job
    ensures AllKnown(t) && MainIsNoWork(t) && GateHeadHolds(t)
  {
  }

  lemma NewEntryKeepsVerdict(s: State, t: State, job: Job)
    requires job.InGate? && GateLeft(s, t, job)
    requires GateHeadHolds(s) && VerdictIsCurrent(s) && exists i :: i in s.jobs && s.jobs[i] == job
    ensures VerdictIsCurrent(t)
  {
    forall slug | slug in t.worktrees && AwaitsConfirm(t, slug, t.worktrees[slug])
      ensures slug in t.verdicts && t.verdicts[slug].headSha == t.worktrees[slug]
    {
      var e :| e in t.pending && t.pending[e] == Approval(slug, t.worktrees[slug]);
      if e in s.pending && s.pending[e] == t.pending[e] {
        assert AwaitsConfirm(s, slug, s.worktrees[slug]);
      }
    }
  }

  lemma NewHeadKeepsFresh(s: State, t: State, slug: Slug, head: Commit)
    requires FreshInv(s) && head !in s.known && slug in s.worktrees
    requires t == s.(worktrees := s.worktrees[slug := head], known := s.known + {head},
                     branches := t.branches, detached := t.detached)
    ensures FreshInv(t)
  {
    forall x, h
      ensures AwaitsConfirm(t, x, h) == AwaitsConfirm(s, x, h)
    {
    }
    assert !AwaitsConfirm(s, slug, head);
  }

  lemma HeadStepKeepsFresh(s: State, step: Step)
    requires FreshInv(s) && FreshStep(s, step) && (step.MoveHead? || step.Detach? || step.Attach?)
    ensures FreshInv(Next(s, step))
  {
    var t := Next(s, step);
    if step.slug in s.worktrees {
      if step.Attach? || step.head in s.known {
        assert t.worktrees == s.worktrees && t.known == s.known;
        NextKeepsOne(s, step);
        SameHeadKeepsFresh(s, t);
      } else {
        NewHeadKeepsFresh(s, t, step.slug, step.head);
      }
    }
  }

  lemma SameHeadKeepsFresh(s: State, t: State)
    requires FreshInv(s) && OneAtATime(t)
    requires t == s.(branches := t.branches, detached := t.detached)
    ensures FreshInv(t)
  {
    forall x, h
      ensures AwaitsConfirm(t, x, h) == AwaitsConfirm(s, x, h)
    {
    }
  }

  lemma RetryKeepsFresh(s: State, id: nat, rebased: Option<Commit>)
    requires FreshInv(s) && FreshStep(s, Retry(id, rebased))
    ensures FreshInv(DoRetry(s, id, rebased))
  {
    var t := DoRetry(s, id, rebased);
    NextKeepsOne(s, Retry(id, rebased));
    forall x, h
      ensures AwaitsConfirm(t, x, h) == AwaitsConfirm(s, x, h)
    {
    }
    if t != s {
      assert s.jobs == map[];
    }
  }

  lemma ProposeKeepsFresh(s: State, id: nat, slug: Slug, creation: Creation)
    requires FreshInv(s)
    ensures FreshInv(DoPropose(s, id, slug, creation))
  {
    var t := DoPropose(s, id, slug, creation);
    ProposeKeepsOne(s, id, slug, creation);
    forall x, h
      ensures AwaitsConfirm(t, x, h) == AwaitsConfirm(s, x, h)
    {
    }
    assert !AwaitsConfirm(s, slug, s.main);
  }

  lemma ConfirmKeepsFresh(s: State, entry: nat, call: nat, mergeCommit: Option<Commit>)
    requires FreshInv(s) && FreshStep(s, Confirm(entry, call, mergeCommit))
    ensures FreshInv(DoConfirm(s, entry, call, mergeCommit))
  {
    var t := DoConfirm(s, entry, call, mergeCommit);
    forall x, h | AwaitsConfirm(t, x, h)
      ensures AwaitsConfirm(s, x, h)
    {
      var e :| e in t.pending && t.pending[e] == Approval(x, h);
      assert e in s.pending;
    }
  }

  /** Steps that only take worktrees, jobs or entries away, or move main to a new commit. */
  lemma LosingKeepsFresh(s: State, t: State)
    requires FreshInv(s) && OneAtATime(t)
    requires t.worktrees.Keys <= s.worktrees.Keys && forall x | x in t.worktrees :: t.worktrees[x] == s.worktrees[x]
    requires t.pending.Keys <= s.pending.Keys && forall e | e in t.pending :: t.pending[e] == s.pending[e]
    requires t.jobs.Keys <= s.jobs.Keys && forall i | i in t.jobs :: t.jobs[i] == s.jobs[i]
    requires t.active == s.active || t.active.None?
    requires t.verdicts == s.verdicts && t.known == s.known + {t.main}
    requires t.main == s.main || t.main !in s.known
    ensures FreshInv(t)
  {
    forall x, h | AwaitsConfirm(t, x, h)
      ensures AwaitsConfirm(s, x, h)
    {
      var e :| e in t.pending && t.pending[e] == Approval(x, h);
      assert e in s.pending;
    }
  }

  lemma EndSessionKeepsFresh(s: State, id: nat, sessionOk: bool)
    requires FreshInv(s)
    ensures FreshInv(DoEndSession(s, id, sessionOk))
  {
    NextKeepsOne(s, EndSession(id, sessionOk));
    if id in s.jobs && s.jobs[id].InSession? {
      var active := s.jobs[id].active;
      if active.slug in s.worktrees {
        GateStartsKeepsFresh(s, id, InGate(active, s.worktrees[active.slug], Some(sessionOk)));
      } else {
        EndJobKeepsFresh(s, id);
      }
    }
  }

  lemma EndJobKeepsFresh(s: State, id: nat)
    requires FreshInv(s) && id in s.jobs
    ensures FreshInv(EndJob(s, id))
  {
    EndJobKeepsOne(s, id);
    LosingKeepsFresh(s, EndJob(s, id));
  }

  lemma GateStartsKeepsFresh(s: State, id: nat, job: Job)
    requires FreshInv(s) && id in s.jobs && OneAtATime(s.(jobs := s.jobs[id := job]))
    requires job.InGate? && s.active == Some(job.active)
    requires job.active.slug in s.worktrees && s.worktrees[job.active.slug] == job.headSha
    ensures FreshInv(s.(jobs := s.jobs[id := job]))
  {
    var t := s.(jobs := s.jobs[id := job]);
    forall i | i in t.jobs
      ensures t.jobs[i] == job
    {
      assert i == id;
    }
    forall slug, head | AwaitsConfirm(t, slug, head)
      ensures AwaitsConfirm(s, slug, head)
    {
      var e :| e in t.pending && t.pending[e] == Approval(slug, head);
      assert e in s.pending;
    }
  }

  lemma {:induction false} NextKeepsFresh(s: State, step: Step)
    requires FreshInv(s) && FreshStep(s, step)
    ensures FreshInv(Next(s, step))
  {
    match step
    case Propose(id, slug, creation) => ProposeKeepsFresh(s, id, slug, creation);
    case EndSession(id, sessionOk) => EndSessionKeepsFresh(s, id, sessionOk);
    case Retry(id, rebased) => RetryKeepsFresh(s, id, rebased);
    case EndGate(id, touched, checksPass, ledgerWritable) =>
      if id in s.jobs && s.jobs[id].InGate? {
        EndGateKeepsFresh(s, id, touched, checksPass, ledgerWritable);
      }
    case Confirm(entry, call, mergeCommit) => ConfirmKeepsFresh(s, entry, call, mergeCommit);
    case MoveHead(_, _) => HeadStepKeepsFresh(s, step);
    case Detach(_, _) => HeadStepKeepsFresh(s, step);
    case Attach(_) => HeadStepKeepsFresh(s, step);
    case GateThrows(id) => if id in s.jobs { EndJobKeepsFresh(s, id); }
    case Abandon => RemovedKeepsFresh(s);
    case FinishMerge(call) => RemovedKeepsFresh(s.(finishing := s.finishing - {call}));
    case _ => OthersKeepFresh(s, step);
  }

  lemma RemovedKeepsFresh(s: State)
    requires FreshInv(s)
    ensures FreshInv(Removed(s))
  {
    RemovedKeepsOne(s);
    RemovedIsQuiet(s);
    RemovedLoses(s);
    LosingKeepsFresh(s, Removed(s));
  }

  lemma RemovedLoses(s: State)
    requires s.main in s.known
    ensures
      var t := Removed(s);
      && t.worktrees.Keys <= s.worktrees.Keys && (forall x | x in t.worktrees :: t.worktrees[x] == s.worktrees[x])
      && t.jobs == s.jobs && t.main == s.main && t.known == s.known && t.known == s.known + {t.main}
      && (t.active == s.active || t.active.None?)
  {
  }

  lemma OthersKeepFresh(s: State, step: Step)
    requires FreshInv(s) && FreshStep(s, step)
    requires step.DropEntry? || step.Restart? || step.LoseWorktree? || step.MoveMain?
    ensures FreshInv(Next(s, step))
  {
    NextKeepsOne(s, step);
    LosingKeepsFresh(s, Next(s, step));
  }

  /** In fresh runs the verdict on record is a verdict on the very head that is merged. */
  lemma {:induction false} FreshRunsMergeWhatWasJudged(main: Commit, steps: seq<Step>)
    requires FreshRun(main, steps)
    ensures FreshInv(Run(main, steps))
    ensures forall m | m in Run(main, steps).merged :: m.verdict.headSha == m.headSha && m.verdict.pass
  {
    if steps != [] {
      var before, last := steps[..|steps| - 1], steps[|steps| - 1];
      FreshPrefix(main, steps);
      FreshRunsMergeWhatWasJudged(main, before);
      NextKeepsFresh(Run(main, before), last);
      FreshStepMergesWhatWasJudged(Run(main, before), last);
    }
  }

  lemma FreshPrefix(main: Commit, steps: seq<Step>)
    requires steps != [] && FreshRun(main, steps)
    ensures
      var before := steps[..|steps| - 1];
      FreshRun(main, before) && FreshStep(Run(main, before), steps[|steps| - 1])
  {
    var before := steps[..|steps| - 1];
    forall i | 0 <= i < |before|
      ensures FreshStep(Run(main, before[..i]), before[i])
    {
      assert before[..i] == steps[..i];
    }
  }

  lemma FreshStepMergesWhatWasJudged(s: State, step: Step)
    requires FreshInv(s)
    ensures forall m | m in Next(s, step).merged && m !in s.merged :: m.verdict.headSha == m.headSha && m.verdict.pass
  {
    if step.Confirm? {
      if step.entry in s.pending && MayMerge(s, s.pending[step.entry]) {
        var a := s.pending[step.entry];
        assert AwaitsConfirm(s, a.slug, s.worktrees[a.slug]);
      }
    } else {
      MainOnlyMergesOnConfirm(s, step);
    }
  }

  // ------------------------------------------------------------ two runs that go wrong

  lemma RunStep(main: Commit, steps: seq<Step>, step: Step)
    ensures Run(main, steps + [step]) == Next(Run(main, steps), step)
  {
    assert (steps + [step])[..|steps|] == steps;
  }

  /** A proposal on a fresh repository at commit 0 whose session commits 1 and whose gate passes. */
  function PassedProposal(slug: Slug): seq<Step> {
    [Propose(0, slug, Created)] + [MoveHead(slug, 1)] + [EndSession(0, true)] + [EndGate(0, true, true, true)]
  }

  lemma ProposalStarts(slug: Slug)
    ensures
      Run(0, [Propose(0, slug, Created)]) ==
      State(Some(Active(slug, 0, 0)), map[slug := 0], map[slug := 0], {}, map[slug := 0], 1, true,
            map[0 := InSession(Active(slug, 0, 0))],
            map[], map[], 0, map[], 0, {}, [], {0})
  {
    RunStep(0, [], Propose(0, slug, Created));
    assert [] + [Propose(0, slug, Created)] == [Propose(0, slug, Created)];
    assert Run(0, []) == Initial(0);
  }

  /** From a session's end through a passing gate. */
  lemma SessionPasses(steps: seq<Step>, slug: Slug, head: Commit)
    requires head != 0
    requires
      var s := Run(0, steps);
      && s.jobs == map[0 := InSession(Active(slug, 0, 0))] && s.active == Some(Active(slug, 0, 0))
      && s.worktrees == map[slug := head] && s.issued == 0 && s.pending == map[] && s.verdicts == map[]
    ensures
      Run(0, steps + [EndSession(0, true)] + [EndGate(0, true, true, true)]) ==
      Run(0, steps).(busy := false, jobs := map[], verdicts := map[slug := Verdict(head, true)],
                     pending := map[0 := Approval(slug, head)], issued := 1,
                     passed := Run(0, steps).passed + {Approval(slug, head)})
  {
    var s := Run(0, steps);
    RunStep(0, steps, EndSession(0, true));
    RunStep(0, steps + [EndSession(0, true)], EndGate(0, true, true, true));
    var gating := s.(jobs := map[0 := InGate(Active(slug, 0, 0), head, Some(true))]);
    assert Next(s, EndSession(0, true)) == gating;
    GatePasses(gating, slug, head);
  }

  lemma GatePasses(s: State, slug: Slug, head: Commit)
    requires s.jobs == map[0 := InGate(Active(slug, 0, 0), head, Some(true))] && head != 0
    requires s.issued == 0 && s.pending == map[] && s.verdicts == map[]
    ensures Next(s, EndGate(0, true, true, true)) ==
            s.(busy := false, jobs := map[], verdicts := map[slug := Verdict(head, true)],
               pending := map[0 := Approval(slug, head)], issued := 1, passed := s.passed + {Approval(slug, head)})
  {
    var t := Next(s, EndGate(0, true, true, true));
    assert t.jobs == map[] && t.verdicts == map[slug := Verdict(head, true)];
    assert t.pending == map[0 := Approval(slug, head)];
  }

  lemma ProposalPasses(slug: Slug)
    ensures
      Run(0, PassedProposal(slug)) ==
      State(Some(Active(slug, 0, 0)), map[slug := 1], map[slug := 1], {}, map[slug := 0], 1, false, map[],
            map[slug := Verdict(1, true)],
            map[0 := Approval(slug, 1)], 1, map[], 0, {Approval(slug, 1)}, [], {0, 1})
  {
    var a, b := Propose(0, slug, Created), MoveHead(slug, 1);
    ProposalStarts(slug);
    RunStep(0, [a], b);
    var s := Run(0, [a] + [b]);
    assert s.worktrees == map[slug := 1] && s.branches == map[slug := 1] && s.known == {0, 1};
    SessionPasses([a] + [b], slug, 1);
  }

  function SecondPass(slug: Slug): seq<Step> {
    PassedProposal(slug) + [MoveHead(slug, 2)] + [Retry(1, Some(2))] + [EndGate(1, true, true, true)]
  }

  lemma RetryPasses(slug: Slug)
    ensures
      var s := Run(0, SecondPass(slug));
      && s.active == Some(Active(slug, 0, 0)) && s.worktrees == map[slug := 2] && s.branches == map[slug := 2]
      && s.detached == {}
      && slug in s.verdicts && s.verdicts[slug] == Verdict(2, true)
      && 0 in s.pending && s.pending[0] == Approval(slug, 1)
      && s.merged == [] && s.finishing == map[]
  {
    var first := PassedProposal(slug);
    ProposalPasses(slug);
    RunStep(0, first, MoveHead(slug, 2));
    RunStep(0, first + [MoveHead(slug, 2)], Retry(1, Some(2)));
    RunStep(0, first + [MoveHead(slug, 2)] + [Retry(1, Some(2))], EndGate(1, true, true, true));
    RetryStarts(Run(0, first), slug);
    RetriedGatePasses(Run(0, first + [MoveHead(slug, 2)] + [Retry(1, Some(2))]), slug);
  }

  lemma RetryStarts(s: State, slug: Slug)
    requires s.active == Some(Active(slug, 0, 0)) && s.main == 0 && !s.busy && s.jobs == map[] && s.detached == {}
    requires s.worktrees == map[slug := 1] && s.branches == map[slug := 1]
    ensures Next(Next(s, MoveHead(slug, 2)), Retry(1, Some(2))) ==
            s.(worktrees := map[slug := 2], branches := map[slug := 2], known := s.known + {2}, busy := true,
               jobs := map[1 := InGate(Active(slug, 0, 0), 2, None)])
  {
    var moved := Next(s, MoveHead(slug, 2));
    assert moved.worktrees == map[slug := 2] && moved.branches == map[slug := 2] && moved.known == s.known + {2};
    var t := Next(moved, Retry(1, Some(2)));
    assert t.worktrees == map[slug := 2] && t.branches == map[slug := 2] && t.known == s.known + {2};
  }

  lemma RetriedGatePasses(s: State, slug: Slug)
    requires s.jobs == map[1 := InGate(Active(slug, 0, 0), 2, None)]
    ensures
      var t := Next(s, EndGate(1, true, true, true));
      && t.verdicts == s.verdicts[slug := Verdict(2, true)] && t.pending == s.pending[s.issued := Approval(slug, 2)]
      && t.active == s.active && t.worktrees == s.worktrees && t.branches == s.branches && t.detached == s.detached
      && t.merged == s.merged && t.finishing == s.finishing
  {
  }

  /** Outside fresh runs the verdict on record can be about another head: the branch passes at commit 1,
      moves on to 2 and passes again, is set back to 1, and the first entry is confirmed. */
  lemma SetBackHeadMergesUnderOtherVerdict(slug: Slug)
    ensures
      var t := Run(0, SecondPass(slug) + [MoveHead(slug, 1)] + [Confirm(0, 0, Some(3))]);
      t.merged == [Merge(slug, 1, 1, Verdict(2, true))]
  {
    RetryPasses(slug);
    RunStep(0, SecondPass(slug), MoveHead(slug, 1));
    RunStep(0, SecondPass(slug) + [MoveHead(slug, 1)], Confirm(0, 0, Some(3)));
  }

  /** The tail of a merge removes whatever is on record when it gets there. If the owner abandons the merged
      worktree while the memory write is pending and proposes something new, under the same slug or another,
      the new proposal loses its worktree, its branch and its record under its running session. */
  lemma MergeTailCanRemoveAnotherWorktree(a: Slug, b: Slug)
    ensures
      var s := Run(0, PassedProposal(a) + [Confirm(0, 0, Some(2))] + [Abandon] + [Propose(1, b, Created)]);
      var t := Next(s, FinishMerge(0));
      && s.active == Some(Active(b, 2, 1)) && 1 in s.jobs && s.jobs[1] == InSession(Active(b, 2, 1))
      && b in s.worktrees && b in s.branches
      && t.active == None && b !in t.worktrees && b !in t.branches && 1 in t.jobs
  {
    var first := PassedProposal(a);
    ConfirmedAndAbandoned(a);
    RunStep(0, first + [Confirm(0, 0, Some(2))] + [Abandon], Propose(1, b, Created));
  }

  lemma ConfirmedAndAbandoned(a: Slug)
    ensures
      var s := Run(0, PassedProposal(a) + [Confirm(0, 0, Some(2))] + [Abandon]);
      && s.active == None && s.worktrees == map[] && s.branches == map[] && !s.busy && s.jobs == map[]
      && s.main == 2 && s.creations == 1 && s.finishing == map[0 := Active(a, 0, 0)]
  {
    var first := PassedProposal(a);
    ProposalPasses(a);
    RunStep(0, first, Confirm(0, 0, Some(2)));
    RunStep(0, first + [Confirm(0, 0, Some(2))], Abandon);
    var confirmed := Run(0, first + [Confirm(0, 0, Some(2))]);
    assert confirmed.main == 2 && confirmed.finishing == map[0 := Active(a, 0, 0)];
  }

  /** It also takes the merged worktree from a retry whose gate is still running there. */
  lemma MergeTailCanTakeFromRetry(a: Slug)
    ensures
      var s := Run(0, PassedProposal(a) + [Retry(1, Some(1))] + [Confirm(0, 0, Some(2))]);
      var t := Next(s, FinishMerge(0));
      && 0 in s.finishing && 1 in s.jobs && s.jobs[1] == InGate(Active(a, 0, 0), 1, None)
      && a in s.worktrees && a !in t.worktrees && 1 in t.jobs
  {
    var first := PassedProposal(a);
    ProposalPasses(a);
    RunStep(0, first, Retry(1, Some(1)));
    RunStep(0, first + [Retry(1, Some(1))], Confirm(0, 0, Some(2)));
    var gating := Run(0, first + [Retry(1, Some(1))]);
    assert gating.jobs == map[1 := InGate(Active(a, 0, 0), 1, None)] && gating.active == Some(Active(a, 0, 0));
    assert gating.worktrees == map[a := 1] && gating.branches == map[a := 1];
    assert gating.pending == map[0 := Approval(a, 1)] && gating.verdicts == map[a := Verdict(1, true)];
    var s := Next(gating, Confirm(0, 0, Some(2)));
    assert s.jobs == gating.jobs && s.worktrees == gating.worktrees && 0 in s.finishing && s.active == gating.active;
    assert Next(s, FinishMerge(0)).worktrees == map[a := 1] - {a} && Next(s, FinishMerge(0)).jobs == s.jobs;
  }

  /** Worktrees are numbered in the order of their creation; the one on record is the newest. */
  ghost predicate Numbered(s: State) {
    && (forall slug | slug in s.worktrees || slug in s.branches :: slug in s.born)
    && (s.active.Some? ==>
          && s.active.value.createdAt + 1 == s.creations
          && s.active.value.slug in s.born && s.born[s.active.value.slug] == s.active.value.createdAt)
    && (forall call | call in s.finishing :: s.finishing[call].createdAt < s.creations)
  }

  lemma CreatingKeepsNumbers(s: State, slug: Slug, creation: Creation)
    requires Numbered(s)
    ensures Numbered(Creating(s, slug, creation))
  {
  }

  lemma RemovedKeepsNumbers(s: State)
    requires Numbered(s)
    ensures Numbered(Removed(s))
  {
  }

  lemma SameNumbers(s: State, t: State)
    requires Numbered(s)
    requires t.active == s.active && t.worktrees == s.worktrees && t.branches == s.branches
    requires t.born == s.born && t.creations == s.creations && t.finishing == s.finishing
    ensures Numbered(t)
  {
  }

  lemma EndGateKeepsNumbers(s: State, id: nat, touched: bool, checksPass: bool, ledgerWritable: bool)
    requires Numbered(s)
    ensures Numbered(DoEndGate(s, id, touched, checksPass, ledgerWritable))
  {
    if id in s.jobs && s.jobs[id].InGate? {
      var job := s.jobs[id];
      var changes := touched && job.headSha != job.active.baseSha;
      SameNumbers(s, WithVerdict(s, id, checksPass && changes));
      ConcludedKeepsNumbers(WithVerdict(s, id, checksPass && changes), job, changes, checksPass && changes,
                            ledgerWritable);
    }
  }

  lemma ConcludedKeepsNumbers(s: State, job: Job, changes: bool, pass: bool, ledgerWritable: bool)
    requires Numbered(s) && job.InGate?
    ensures Numbered(Concluded(s, job, changes, pass, ledgerWritable))
  {
    if job.proposing == Some(false) && !changes {
      RemovedKeepsNumbers(s);
    } else if pass {
      SameNumbers(s, Minted(s, Approval(job.active.slug, job.headSha), ledgerWritable));
    }
  }

  lemma ConfirmKeepsNumbers(s: State, entry: nat, call: nat, mergeCommit: Option<Commit>)
    requires Numbered(s)
    ensures Numbered(DoConfirm(s, entry, call, mergeCommit))
  {
  }

  lemma NextKeepsNumbers(s: State, step: Step)
    requires Numbered(s)
    ensures Numbered(Next(s, step))
  {
    match step
    case Propose(_, slug, creation) => CreatingKeepsNumbers(s, slug, creation);
    case EndGate(id, touched, checksPass, ledgerWritable) =>
      EndGateKeepsNumbers(s, id, touched, checksPass, ledgerWritable);
    case Abandon => RemovedKeepsNumbers(s);
    case Confirm(entry, call, mergeCommit) => ConfirmKeepsNumbers(s, entry, call, mergeCommit);
    case FinishMerge(call) => RemovedKeepsNumbers(s.(finishing := s.finishing - {call}));
    case Retry(id, rebased) => RetryKeepsNumbers(s, id, rebased);
    case _ => OthersKeepNumbers(s, step);
  }

  lemma RetryKeepsNumbers(s: State, id: nat, rebased: Option<Commit>)
    requires Numbered(s)
    ensures Numbered(DoRetry(s, id, rebased))
  {
  }

  lemma OthersKeepNumbers(s: State, step: Step)
    requires Numbered(s)
    requires !step.Propose? && !step.EndGate? && !step.Abandon? && !step.Confirm? && !step.FinishMerge? && !step.Retry?
    ensures Numbered(Next(s, step))
  {
  }

  lemma {:induction false} RunKeepsNumbers(main: Commit, steps: seq<Step>)
    ensures Numbered(Run(main, steps))
  {
    if steps != [] {
      RunKeepsNumbers(main, steps[..|steps| - 1]);
      NextKeepsNumbers(Run(main, steps[..|steps| - 1]), steps[|steps| - 1]);
    }
  }

  /** The merged worktree is the newest one when its merge is confirmed, so that exactly the worktrees with a
      higher number are created after the confirmation. */
  lemma {:induction false} MergedWorktreeIsNewest(main: Commit, steps: seq<Step>, i: nat)
    requires i < |steps| && Merges(main, steps, i)
    ensures
      var s, t := Run(main, steps[..i]), Run(main, steps[..i + 1]);
      && steps[i].call in t.finishing && s.active == Some(t.finishing[steps[i].call])
      && t.finishing[steps[i].call].createdAt + 1 == s.creations == t.creations
  {
    RunKeepsNumbers(main, steps[..i]);
    assert steps[..i + 1][..i] == steps[..i];
  }

  /** Every worktree created after number `since` is still there, with its branch and its record. */
  ghost predicate SparesNewer(s: State, t: State, since: nat) {
    && (forall slug | slug in s.worktrees && slug in s.born && s.born[slug] > since :: slug in t.worktrees)
    && (forall slug | slug in s.branches && slug in s.born && s.born[slug] > since :: slug in t.branches)
    && (s.active.Some? && s.active.value.createdAt > since ==> t.active == s.active)
  }

  /** At any point of any run, the tail of a merge spares every worktree created since its confirmation if and
      only if the record is empty or still holds the very worktree that was merged. */
  lemma {:induction false} MergeTailScope(main: Commit, steps: seq<Step>, call: nat)
    requires call in Run(main, steps).finishing
    ensures
      var s := Run(main, steps);
      var merged := s.finishing[call].createdAt;
      SparesNewer(s, Next(s, FinishMerge(call)), merged)
      <==> (s.active.None? || s.active.value.createdAt == merged)
  {
    RunKeepsNumbers(main, steps);
    MergeTailScopeFrom(Run(main, steps), call);
  }

  lemma MergeTailScopeFrom(s: State, call: nat)
    requires Numbered(s) && call in s.finishing
    ensures
      var merged := s.finishing[call].createdAt;
      SparesNewer(s, Next(s, FinishMerge(call)), merged)
      <==> (s.active.None? || s.active.value.createdAt == merged)
  {
  }

  /** The step takes its worktree from under a suspended call. */
  ghost predicate Loses(s: State, t: State, id: nat) {
    id in s.jobs && s.jobs[id].active.slug in s.worktrees && s.jobs[id].active.slug !in t.worktrees
  }

  /** Over every run: an abandon leaves everything as it is while a session is suspended, and otherwise takes
      worktree, branch and record of what is on record. */
  lemma {:induction false} AbandonSparesSessions(main: Commit, steps: seq<Step>)
    ensures
      var s, t := Run(main, steps), Next(Run(main, steps), Abandon);
      if s.jobs != map[] || s.active.None? then t == s
      else
        var slug := s.active.value.slug;
        && t.active == None && t.worktrees == s.worktrees - {slug} && t.branches == s.branches - {slug}
        && t.jobs == map[]
  {
    OneWorktreeOneSession(main, steps);
  }

  /** Over every run: besides the disappearance of its directory, a suspended call's worktree is taken only by
      the call's own end, of a failed session without changes, and by the tail of a merge. */
  lemma {:induction false} WhoTakesWorktrees(main: Commit, steps: seq<Step>, step: Step, id: nat)
    requires Loses(Run(main, steps), Next(Run(main, steps), step), id)
    ensures
      || step == LoseWorktree(Run(main, steps).jobs[id].active.slug)
      || (step.EndGate? && step.id == id && Run(main, steps).jobs[id].InGate?
          && Run(main, steps).jobs[id].proposing == Some(false)
          && !(step.touched && Run(main, steps).jobs[id].headSha != Run(main, steps).jobs[id].active.baseSha))
      || (step.FinishMerge? && step.call in Run(main, steps).finishing)
  {
    OneWorktreeOneSession(main, steps);
    WhoTakesFrom(Run(main, steps), step, id);
  }

  lemma WhoTakesFrom(s: State, step: Step, id: nat)
    requires OneAtATime(s) && Loses(s, Next(s, step), id)
    ensures
      || step == LoseWorktree(s.jobs[id].active.slug)
      || (step.EndGate? && step.id == id && s.jobs[id].InGate? && s.jobs[id].proposing == Some(false)
          && !(step.touched && s.jobs[id].headSha != s.jobs[id].active.baseSha))
      || (step.FinishMerge? && step.call in s.finishing)
  {
  }

  /** At any point of any run, the tail takes a suspended call's worktree exactly when that call still has one,
      which is when a session is busy on a worktree that is on record and there. */
  lemma {:induction false} MergeTailTakesFromCalls(main: Commit, steps: seq<Step>, call: nat)
    requires call in Run(main, steps).finishing
    ensures
      var s := Run(main, steps);
      var t := Next(s, FinishMerge(call));
      && (forall id | id in s.jobs :: Loses(s, t, id) <==> s.jobs[id].active.slug in s.worktrees)
      && ((exists id :: Loses(s, t, id))
          <==> s.busy && s.active.Some? && s.active.value.slug in s.worktrees)
  {
    OneWorktreeOneSession(main, steps);
    MergeTailTakesFromCallsOf(Run(main, steps), call);
  }

  lemma MergeTailTakesFromCallsOf(s: State, call: nat)
    requires OneAtATime(s) && call in s.finishing
    ensures
      var t := Next(s, FinishMerge(call));
      && (forall id | id in s.jobs :: Loses(s, t, id) <==> s.jobs[id].active.slug in s.worktrees)
      && ((exists id :: Loses(s, t, id))
          <==> s.busy && s.active.Some? && s.active.value.slug in s.worktrees)
  {
    var t := Next(s, FinishMerge(call));
    if s.busy && s.active.Some? && s.active.value.slug in s.worktrees {
      var id :| id in s.jobs;
      assert Loses(s, t, id);
    }
  }

  /** So a tail that found the merged worktree on record and no session busy, or nothing on record, would be
      harmless, and no weaker check would do while the worktree is there. */
  lemma {:induction false} MergeTailIsHarmless(main: Commit, steps: seq<Step>, call: nat)
    requires call in Run(main, steps).finishing
    ensures
      var s := Run(main, steps);
      var t := Next(s, FinishMerge(call));
      SparesNewer(s, t, s.finishing[call].createdAt) && !(exists id :: Loses(s, t, id))
      <==> || s.active.None?
           || (s.active.value.createdAt == s.finishing[call].createdAt
               && (!s.busy || s.active.value.slug !in s.worktrees))
  {
    MergeTailScope(main, steps, call);
    MergeTailTakesFromCalls(main, steps, call);
  }

  function LeftBranch(slug: Slug): seq<Step> {
    [Propose(0, slug, Created)] + [MoveHead(slug, 1)] + [Detach(slug, 2)]
  }

  lemma LeftBranchState(slug: Slug)
    ensures
      Run(0, LeftBranch(slug)) ==
      State(Some(Active(slug, 0, 0)), map[slug := 2], map[slug := 1], {slug}, map[slug := 0], 1, true,
            map[0 := InSession(Active(slug, 0, 0))],
            map[], map[], 0, map[], 0, {}, [], {0, 1, 2})
  {
    var a, b, c := Propose(0, slug, Created), MoveHead(slug, 1), Detach(slug, 2);
    ProposalStarts(slug);
    RunStep(0, [a], b);
    RunStep(0, [a] + [b], c);
    var s := Run(0, [a] + [b]);
    assert s.worktrees == map[slug := 1] && s.branches == map[slug := 1] && s.known == {0, 1};
    assert Next(s, c).worktrees == map[slug := 2] && Next(s, c).known == {0, 1, 2};
  }

  /** A session commits 1 on its branch and then commit 2 beside it. The gate judges 2, the checked-out commit
      is still 2 at the confirmation, and git merges the branch, which is at 1. */
  lemma MergeTakesTheBranch(slug: Slug)
    ensures
      var passed := LeftBranch(slug) + [EndSession(0, true)] + [EndGate(0, true, true, true)];
      var s := Run(0, passed + [Confirm(0, 0, Some(3))]);
      && s.merged == [Merge(slug, 2, 1, Verdict(2, true))]
      && Approval(slug, 1) !in s.passed
  {
    LeftBranchState(slug);
    SessionPasses(LeftBranch(slug), slug, 2);
    var passed := LeftBranch(slug) + [EndSession(0, true)] + [EndGate(0, true, true, true)];
    RunStep(0, passed, Confirm(0, 0, Some(3)));
    ConfirmAddsMerge(Run(0, passed), Confirm(0, 0, Some(3)));
    assert Run(0, passed).merged == [] && Run(0, passed).passed == {Approval(slug, 2)};
    ConfirmRecords(Run(0, passed), 0, 0, Some(3));
  }
}
