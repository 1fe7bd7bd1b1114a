/** The self-modification service (src/coding/self-mod-service.ts, src/coding/self-mod.ts).

    Propose and retry wait for a coding session and for the gate; a confirmed merge waits for a memory
    write. Every stretch between two waits is one step and all of them interleave: `busy` keeps a second
    session out, but a confirm does not look at it. */
module SelfMod {
  import opened Messages

  type Slug = string
  type Commit = nat

  /** The worktree on record in `state.json`. Slugs are used again, so `createdAt` tells worktrees apart: it is
      the number of worktrees created before this one. */
  datatype Active = Active(slug: Slug, baseSha: Commit, createdAt: nat)

  /** What `gate-<slug>.json` holds, reduced to what a merge looks at. */
  datatype Verdict = Verdict(headSha: Commit, pass: bool)

  /** A `self_merge` entry of the pending-action ledger. */
  datatype Approval = Approval(slug: Slug, headSha: Commit)

  /** A suspended propose or retry. `proposing` holds the session's own success flag in a propose. */
  datatype Job =
    | InSession(active: Active)
    | InGate(active: Active, headSha: Commit, proposing: Option<bool>)

  /** One merge into main: the head that was confirmed, the tip of the branch that git merged, and the
      verdict that was on record. */
  datatype Merge = Merge(slug: Slug, headSha: Commit, tip: Commit, verdict: Verdict)

  /** `worktrees` maps each worktree to the commit that is checked out there, `branches` each branch
      `self-mod/<slug>` to its tip; they move together except while the worktree is in `detached`, that is
      while something other than its branch is checked out. `born` keeps for each slug the number of the
      worktree last created under it, out of `creations`. `jobs` are the suspended calls of propose and retry;
      `finishing` those of the merge, which hold the worktree they merged.
      `passed` and `merged` record what the gate let through and what reached main; `known` are all commits
      that have existed. */
  datatype State = State(
    active: Option<Active>,
    worktrees: map<Slug, Commit>,
    branches: map<Slug, Commit>,
    detached: set<Slug>,
    born: map<Slug, nat>,
    creations: nat,
    busy: bool,
    jobs: map<nat, Job>,
    verdicts: map<Slug, Verdict>,
    pending: map<nat, Approval>,
    issued: nat,
    finishing: map<nat, Active>,
    main: Commit,
    passed: set<Approval>,
    merged: seq<Merge>,
    known: set<Commit>)

  function Initial(main: Commit): State {
    State(None, map[], map[], {}, map[], 0, false, map[], map[], map[], 0, map[], main, {}, [], {main})
  }

  datatype Creation =
    | Created
    /** The worktree is checked out but copying `node_modules` failed, so it is never put on record. */
    | CopyFailed
    | GitFailed

  datatype Step =
    | Propose(id: nat, slug: Slug, creation: Creation)
    | EndSession(id: nat, sessionOk: bool)
    | Retry(id: nat, rebased: Option<Commit>)
    | GateThrows(id: nat)
    | EndGate(id: nat, touched: bool, checksPass: bool, ledgerWritable: bool)
    | Abandon
    | Confirm(entry: nat, call: nat, mergeCommit: Option<Commit>)
    | FinishMerge(call: nat)
    | DropEntry(entry: nat)
    | Restart
    /** Somebody commits in, or resets, a worktree: the coding session itself, its tests, or the owner. */
    | MoveHead(slug: Slug, head: Commit)
    /** Somebody checks out something else than the branch there, or the branch again. */
    | Detach(slug: Slug, head: Commit)
    | Attach(slug: Slug)
    /** The directory of a worktree disappears; its branch stays. */
    | LoseWorktree(slug: Slug)
    | MoveMain(head: Commit)

  function Removed(s: State): State {
    if s.active.None? then s
    else
      var slug := s.active.value.slug;
      s.(active := None, worktrees := s.worktrees - {slug}, branches := s.branches - {slug},
         detached := s.detached - {slug})
  }

  /** What happens to a worktree's checked-out commit happens to its branch, unless it is detached. */
  function Moved(s: State, slug: Slug, head: Commit): State
    requires slug in s.worktrees
  {
    s.(worktrees := s.worktrees[slug := head],
       branches := if slug in s.detached then s.branches else s.branches[slug := head],
       known := s.known + {head})
  }

  function EndJob(s: State, id: nat): State {
    s.(jobs := s.jobs - {id}, busy := false)
  }

  /** A worktree goes on record only when none is, and git and the copy succeed. */
  function Creating(s: State, slug: Slug, creation: Creation): State {
    if s.active.Some? || slug in s.worktrees || slug in s.branches || creation.GitFailed? then s
    else
      var checkedOut := CheckedOut(s, slug);
      if creation.CopyFailed? then checkedOut else checkedOut.(active := Some(Active(slug, s.main, s.creations)))
  }

  /** `git worktree add -b self-mod/<slug>`. */
  function CheckedOut(s: State, slug: Slug): State {
    s.(worktrees := s.worktrees[slug := s.main], branches := s.branches[slug := s.main],
       detached := s.detached - {slug}, born := s.born[slug := s.creations], creations := s.creations + 1)
  }

  function DoPropose(s: State, id: nat, slug: Slug, creation: Creation): State {
    if s.busy || id in s.jobs then s
    else
      var t := Creating(s, slug, creation);
      if t.active == s.active then t else t.(busy := true, jobs := s.jobs[id := InSession(t.active.value)])
  }

  function DoEndSession(s: State, id: nat, sessionOk: bool): State {
    if id !in s.jobs || !s.jobs[id].InSession? then s
    else
      var active := s.jobs[id].active;
      if active.slug !in s.worktrees then EndJob(s, id)
      else s.(jobs := s.jobs[id := InGate(active, s.worktrees[active.slug], Some(sessionOk))])
  }

  function DoRetry(s: State, id: nat, rebased: Option<Commit>): State {
    if s.busy || id in s.jobs || s.active.None? || s.active.value.slug !in s.worktrees || rebased.None? then s
    else
      var active := s.active.value.(baseSha := s.main);
      Moved(s, active.slug, rebased.value)
        .(busy := true, active := Some(active), jobs := s.jobs[id := InGate(active, rebased.value, None)])
  }

  /** A gate passes only a branch that touches files, so never a head that is still its base. */
  function DoEndGate(s: State, id: nat, touched: bool, checksPass: bool, ledgerWritable: bool): State {
    if id !in s.jobs || !s.jobs[id].InGate? then s
    else
      var job := s.jobs[id];
      var changes := touched && job.headSha != job.active.baseSha;
      Concluded(WithVerdict(s, id, checksPass && changes), job, changes, checksPass && changes, ledgerWritable)
  }

  function WithVerdict(s: State, id: nat, pass: bool): State
    requires id in s.jobs && s.jobs[id].InGate?
  {
    var job := s.jobs[id];
    EndJob(s, id).(verdicts := s.verdicts[job.active.slug := Verdict(job.headSha, pass)])
  }

  /** After the verdict is on record: a failed session without changes loses its worktree, a pass is put to
      the owner. */
  function Concluded(s: State, job: Job, changes: bool, pass: bool, ledgerWritable: bool): State
    requires job.InGate?
  {
    if job.proposing == Some(false) && !changes then Removed(s)
    else if pass then Minted(s, Approval(job.active.slug, job.headSha), ledgerWritable)
    else s
  }

  /** A passing gate asks the owner for a confirmation, if the ledger can be written. */
  function Minted(s: State, approval: Approval, ledgerWritable: bool): State {
    s.(passed := s.passed + {approval},
       pending := if ledgerWritable then s.pending[s.issued := approval] else s.pending,
       issued := if ledgerWritable then s.issued + 1 else s.issued)
  }

  /** What `executeMerge` checks before it touches main: it compares the commit checked out in the worktree. */
  predicate MayMerge(s: State, approval: Approval) {
    && s.active.Some? && s.active.value.slug == approval.slug
    && approval.slug in s.worktrees && s.worktrees[approval.slug] == approval.headSha
    && approval.slug in s.verdicts && s.verdicts[approval.slug].pass
  }

  /** The entry is used up first. Git merges the branch by name; `mergeCommit` is `None` when it reports a
      conflict. */
  function DoConfirm(s: State, entry: nat, call: nat, mergeCommit: Option<Commit>): State {
    if entry !in s.pending || call in s.finishing then s
    else
      var approval := s.pending[entry];
      var used := s.(pending := s.pending - {entry});
      if !MayMerge(s, approval) || approval.slug !in s.branches || mergeCommit.None? then used
      else MergedState(used, approval, call, mergeCommit.value)
  }

  function MergedState(s: State, approval: Approval, call: nat, mergeCommit: Commit): State
    requires approval.slug in s.branches && approval.slug in s.verdicts && s.active.Some?
  {
    var merge := Merge(approval.slug, approval.headSha, s.branches[approval.slug], s.verdicts[approval.slug]);
    s.(main := mergeCommit, known := s.known + {mergeCommit},
       merged := s.merged + [merge], finishing := s.finishing[call := s.active.value])
  }

  /** Boot: no call survives, and every worktree that is not on record is swept. */
  function DoRestart(s: State): State {
    var keep := if s.active.Some? then {s.active.value.slug} else {};
    Swept(s.(busy := false, jobs := map[], finishing := map[]), s.worktrees.Keys - keep)
  }

  function Swept(s: State, slugs: set<Slug>): State {
    s.(worktrees := s.worktrees - slugs, branches := s.branches - slugs, detached := s.detached - slugs)
  }

  function Next(s: State, step: Step): State {
    match step
    case Propose(id, slug, creation) => DoPropose(s, id, slug, creation)
    case EndSession(id, sessionOk) => DoEndSession(s, id, sessionOk)
    case Retry(id, rebased) => DoRetry(s, id, rebased)
    case GateThrows(id) => if id in s.jobs then EndJob(s, id) else s
    case EndGate(id, touched, checksPass, ledgerWritable) => DoEndGate(s, id, touched, checksPass, ledgerWritable)
    case Abandon => if s.busy then s else Removed(s)
    case Confirm(entry, call, mergeCommit) => DoConfirm(s, entry, call, mergeCommit)
    case FinishMerge(call) =>
      if call in s.finishing then Removed(s.(finishing := s.finishing - {call})) else s
    case DropEntry(entry) => s.(pending := s.pending - {entry})
    case Restart => DoRestart(s)
    case MoveHead(slug, head) =>
      if slug in s.worktrees then Moved(s, slug, head) else s
    case Detach(slug, head) =>
      if slug in s.worktrees
      then s.(worktrees := s.worktrees[slug := head], detached := s.detached + {slug}, known := s.known + {head}) else s
    case Attach(slug) =>
      if slug in s.worktrees && slug in s.branches
      then s.(worktrees := s.worktrees[slug := s.branches[slug]], detached := s.detached - {slug}) else s
    case LoseWorktree(slug) => s.(worktrees := s.worktrees - {slug}, detached := s.detached - {slug})
    case MoveMain(head) => s.(main := head, known := s.known + {head})
  }

  function Run(main: Commit, steps: seq<Step>): State {
    if steps == [] then Initial(main)
    else Next(Run(main, steps[..|steps| - 1]), steps[|steps| - 1])
  }

  // ------------------------------------------------------------ the service itself

  class SelfModService {
    var active: Option<Active>
    var worktrees: map<Slug, Commit>
    var branches: map<Slug, Commit>
    var detached: set<Slug>
    var born: map<Slug, nat>
    var creations: nat
    var busy: bool
    var jobs: map<nat, Job>
    var verdicts: map<Slug, Verdict>
    var pending: map<nat, Approval>
    var issued: nat
    var finishing: map<nat, Active>
    var main: Commit
    ghost var passed: set<Approval>
    ghost var merged: seq<Merge>
    ghost var known: set<Commit>

    ghost function View(): State
      reads this
    {
      State(active, worktrees, branches, detached, born, creations, busy, jobs, verdicts, pending, issued, finishing,
            main, passed, merged, known)
    }

    constructor (main: Commit)
      ensures View() == Initial(main)
    {
      active, worktrees, branches, detached := None, map[], map[], {};
      born, creations := map[], 0;
      busy, jobs, verdicts, pending := false, map[], map[], map[];
      issued, finishing, this.main, passed, merged, known := 0, map[], main, {}, [], {main};
    }

    /** `SelfModWorktrees.remove`: whatever is on record now. */
    method Remove()
      modifies this`active, this`worktrees, this`branches, this`detached
      ensures View() == Removed(old(View()))
    {
      if active.None? {
        return;
      }
      var slug := active.value.slug;
      worktrees := worktrees - {slug};
      detached := detached - {slug};
      branches := branches - {slug};
      active := None;
    }

    /** `SelfModWorktrees.create`: fails, leaving the record alone, when a worktree is already active. */
    method Create(slug: Slug, creation: Creation) returns (created: Option<Active>)
      modifies this`active, this`worktrees, this`branches, this`detached, this`born, this`creations
      ensures View() == Creating(old(View()), slug, creation)
      ensures created == if active == old(active) then None else active
    {
      if active.Some? || slug in worktrees || slug in branches || creation.GitFailed? {
        return None;
      }
      var createdAt := creations;
      CheckOut(slug);
      if creation.CopyFailed? {
        return None;
      }
      active := Some(Active(slug, main, createdAt));
      return active;
    }

    method CheckOut(slug: Slug)
      modifies this`worktrees, this`branches, this`detached, this`born, this`creations
      ensures View() == CheckedOut(old(View()), slug)
    {
      worktrees := worktrees[slug := main];
      branches := branches[slug := main];
      detached := detached - {slug};
      born := born[slug := creations];
      creations := creations + 1;
    }

    method StartPropose(id: nat, slug: Slug, creation: Creation)
      requires id !in jobs
      modifies this`active, this`worktrees, this`branches, this`detached, this`born, this`creations,
               this`busy, this`jobs
      ensures View() == Next(old(View()), Propose(id, slug, creation))
    {
      if busy {
        return;
      }
      var created := Create(slug, creation);
      if created.Some? {
        BeginSession(id, created.value);
      }
    }

    /** The call waits for its session; `busy` is up from before the worktree is created, in the same step. */
    method BeginSession(id: nat, created: Active)
      modifies this`busy, this`jobs
      ensures View() == old(View()).(busy := true, jobs := old(jobs)[id := InSession(created)])
    {
      busy := true;
      jobs := jobs[id := InSession(created)];
    }

    method SessionEnded(id: nat, sessionOk: bool)
      requires id in jobs && jobs[id].InSession?
      modifies this`busy, this`jobs
      ensures View() == Next(old(View()), EndSession(id, sessionOk))
    {
      var active := jobs[id].active;
      if active.slug !in worktrees {
        jobs, busy := jobs - {id}, false;
        return;
      }
      jobs := jobs[id := InGate(active, worktrees[active.slug], Some(sessionOk))];
    }

    method StartRetry(id: nat, rebased: Option<Commit>)
      requires id !in jobs
      modifies this`active, this`worktrees, this`branches, this`busy, this`jobs, this`known
      ensures View() == Next(old(View()), Retry(id, rebased))
    {
      if busy || active.None? {
        return;
      }
      busy := true;
      if active.value.slug !in worktrees || rebased.None? {
        busy := false;
        return;
      }
      Rebase(active.value.slug, rebased.value);
      active := Some(active.value.(baseSha := main));
      jobs := jobs[id := InGate(active.value, rebased.value, None)];
    }

    /** `git rebase` in a worktree moves what is checked out there. */
    method Rebase(slug: Slug, head: Commit)
      requires slug in worktrees
      modifies this`worktrees, this`branches, this`known
      ensures View() == Moved(old(View()), slug, head)
    {
      worktrees := worktrees[slug := head];
      if slug !in detached {
        branches := branches[slug := head];
      }
      known := known + {head};
    }

    method JudgeAndProposeMerge(id: nat, touched: bool, checksPass: bool, ledgerWritable: bool)
      requires id in jobs && jobs[id].InGate?
      modifies this
      ensures View() == Next(old(View()), EndGate(id, touched, checksPass, ledgerWritable))
    {
      var job := jobs[id];
      var slug := job.active.slug;
      var changes := touched && job.headSha != job.active.baseSha;
      var pass := checksPass && changes;
      verdicts := verdicts[slug := Verdict(job.headSha, pass)];
      jobs, busy := jobs - {id}, false;
      Conclude(job, changes, pass, ledgerWritable);
    }

    method Conclude(job: Job, changes: bool, pass: bool, ledgerWritable: bool)
      requires job.InGate?
      modifies this`active, this`worktrees, this`branches, this`detached, this`passed, this`pending, this`issued
      ensures View() == Concluded(old(View()), job, changes, pass, ledgerWritable)
    {
      if job.proposing == Some(false) && !changes {
        Remove();
      } else if pass {
        RecordApproval(Approval(job.active.slug, job.headSha), ledgerWritable);
      }
    }

    method RecordApproval(approval: Approval, ledgerWritable: bool)
      modifies this`passed, this`pending, this`issued
      ensures View() == Minted(old(View()), approval, ledgerWritable)
    {
      passed := passed + {approval};
      if ledgerWritable {
        pending := pending[issued := approval];
        issued := issued + 1;
      }
    }

    method AbandonActive()
      modifies this`active, this`worktrees, this`branches, this`detached
      ensures View() == Next(old(View()), Abandon)
      ensures busy || old(active).None? ==> View() == old(View())
      ensures !busy ==> active == None
    {
      if active.None? || busy {
        return;
      }
      Remove();
    }

    method ExecuteMerge(entry: nat, call: nat, mergeCommit: Option<Commit>) returns (mergedNow: bool)
      requires entry in pending && call !in finishing
      modifies this
      ensures View() == Next(old(View()), Confirm(entry, call, mergeCommit))
      ensures
        var approval := old(pending)[entry];
        mergedNow == (MayMerge(old(View()), approval) && approval.slug in old(branches) && mergeCommit.Some?)
    {
      var approval := pending[entry];
      pending := pending - {entry};
      if active.None? || active.value.slug != approval.slug {
        return false;
      }
      if approval.slug !in worktrees || worktrees[approval.slug] != approval.headSha {
        return false;
      }
      if approval.slug !in verdicts || !verdicts[approval.slug].pass {
        return false;
      }
      if approval.slug !in branches || mergeCommit.None? {
        return false;
      }
      MergeBranch(approval, call, mergeCommit.value);
      return true;
    }

    /** `git merge --no-ff self-mod/<slug>`, and the memory write starts. */
    method MergeBranch(approval: Approval, call: nat, mergeCommit: Commit)
      requires approval.slug in branches && approval.slug in verdicts && active.Some?
      modifies this`main, this`known, this`merged, this`finishing
      ensures View() == MergedState(old(View()), approval, call, mergeCommit)
    {
      main := mergeCommit;
      known := known + {mergeCommit};
      merged := merged + [Merge(approval.slug, approval.headSha, branches[approval.slug], verdicts[approval.slug])];
      finishing := finishing[call := active.value];
    }

    method MergeRecorded(call: nat)
      requires call in finishing
      modifies this`active, this`worktrees, this`branches, this`detached, this`finishing
      ensures View() == Next(old(View()), FinishMerge(call))
    {
      finishing := finishing - {call};
      Remove();
    }

    /** `SelfModWorktrees.sweep`, run by a fresh process. */
    method BootSweep()
      modifies this
      ensures View() == Next(old(View()), Restart)
    {
      busy, jobs, finishing := false, map[], map[];
      RemoveAll(worktrees.Keys - if active.Some? then {active.value.slug} else {});
    }

    method RemoveAll(slugs: set<Slug>)
      modifies this`worktrees, this`branches, this`detached
      ensures View() == Swept(old(View()), slugs)
    {
      worktrees := worktrees - slugs;
      branches := branches - slugs;
      detached := detached - slugs;
    }
  }
}
