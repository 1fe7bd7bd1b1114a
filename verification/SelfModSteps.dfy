/** When each step of the self-modification service takes effect, and what it leaves alone. Every law is about
    any state and names the conditions in terms of what the owner sees. */
module SelfModSteps {
  import opened Messages
  import opened SelfMod
  import SelfModProofs

  /** A proposal starts a session if and only if nothing is busy or on record, the slug is free as worktree and
      as branch, and git and the copy succeed. If only the copy fails, the worktree is left behind. */
  lemma ProposeStarts(s: State, id: nat, slug: Slug, creation: Creation)
    requires id !in s.jobs
    ensures
      var t := Next(s, Propose(id, slug, creation));
      var free := !s.busy && s.active == None && slug !in s.worktrees && slug !in s.branches;
      && (id in t.jobs <==> free && creation == Created)
      && (id in t.jobs ==> t.busy && t.active == Some(Active(slug, s.main, s.creations))
                           && t.jobs == s.jobs[id := InSession(Active(slug, s.main, s.creations))])
      && (id !in t.jobs ==> t.busy == s.busy && t.active == s.active && t.jobs == s.jobs)
      && (t.creations == s.creations + 1 <==> free && creation != GitFailed)
      && (if free && creation != GitFailed
          then t.worktrees == s.worktrees[slug := s.main] && t.branches == s.branches[slug := s.main]
               && slug !in t.detached
          else t == s)
      && t.main == s.main
  {
  }

  /** When a session ends its gate starts on what is checked out in its worktree, if that is still there. */
  lemma SessionEnds(s: State, id: nat, sessionOk: bool)
    requires id in s.jobs && s.jobs[id].InSession?
    ensures
      var t := Next(s, EndSession(id, sessionOk));
      var active := s.jobs[id].active;
      if active.slug in s.worktrees
      then t == s.(jobs := t.jobs) && t.jobs == s.jobs[id := InGate(active, s.worktrees[active.slug], Some(sessionOk))]
      else t == s.(jobs := t.jobs, busy := false) && t.jobs == s.jobs - {id}
  {
  }

  /** A retry starts a gate if and only if nothing is busy, a worktree is on record and there, and the rebase
      goes through; then the base is main. */
  lemma RetryStarts(s: State, id: nat, rebased: Option<Commit>)
    requires id !in s.jobs
    ensures
      var t := Next(s, Retry(id, rebased));
      && (id in t.jobs <==> !s.busy && s.active.Some? && s.active.value.slug in s.worktrees && rebased.Some?)
      && (id !in t.jobs ==> t == s)
      && (id in t.jobs ==>
            var slug := s.active.value.slug;
            var active := Active(slug, s.main, s.active.value.createdAt);
            && t.busy && t.active == Some(active) && t.worktrees == s.worktrees[slug := rebased.value]
            && t.jobs == s.jobs[id := InGate(active, rebased.value, None)])
  {
  }

  /** Work in a worktree moves its branch exactly when the branch is what is checked out there. */
  lemma BranchMoves(s: State, slug: Slug, head: Commit)
    requires slug in s.worktrees && slug in s.branches
    ensures
      var t := Next(s, MoveHead(slug, head));
      && t.worktrees == s.worktrees[slug := head]
      && t.branches == if slug in s.detached then s.branches else s.branches[slug := head]
    ensures
      var t := Next(s, Detach(slug, head));
      t.worktrees == s.worktrees[slug := head] && t.branches == s.branches && slug in t.detached
    ensures
      var t := Next(s, Attach(slug));
      && t.worktrees == s.worktrees[slug := s.branches[slug]] && t.branches == s.branches && slug !in t.detached
  {
  }

  /** A rebase moves the branch along under the same condition. */
  lemma RebaseMovesBranch(s: State, id: nat, head: Commit)
    requires id !in s.jobs && !s.busy && s.active.Some? && s.active.value.slug in s.worktrees
    ensures
      var slug := s.active.value.slug;
      Next(s, Retry(id, Some(head))).branches == if slug in s.detached then s.branches else s.branches[slug := head]
  {
  }

  /** A gate's end: the branch passes if and only if it touches files, has work of its own and its checks pass. */
  predicate Passes(job: Job, touched: bool, checksPass: bool)
    requires job.InGate?
  {
    touched && checksPass && job.headSha != job.active.baseSha
  }

  /** The verdict on the judged head is recorded either way, and the call is over. */
  lemma GateRecordsVerdict(s: State, id: nat, touched: bool, checksPass: bool, ledgerWritable: bool)
    requires id in s.jobs && s.jobs[id].InGate?
    ensures
      SameCalls(WithVerdict(s, id, Passes(s.jobs[id], touched, checksPass)),
                Next(s, EndGate(id, touched, checksPass, ledgerWritable)))
  {
    var job := s.jobs[id];
    var changes := touched && job.headSha != job.active.baseSha;
    SelfModProofs.EndGateConcludes(s, EndGate(id, touched, checksPass, ledgerWritable));
    ConclusionKeeps(WithVerdict(s, id, checksPass && changes), job, changes, checksPass && changes, ledgerWritable);
  }

  lemma VerdictIsAboutJudgedHead(s: State, id: nat, pass: bool)
    requires id in s.jobs && s.jobs[id].InGate?
    ensures
      var job := s.jobs[id];
      WithVerdict(s, id, pass)
      == s.(busy := false, jobs := s.jobs - {id}, verdicts := s.verdicts[job.active.slug := Verdict(job.headSha, pass)])
  {
  }

  predicate SameCalls(s: State, t: State) {
    t.verdicts == s.verdicts && t.jobs == s.jobs && t.busy == s.busy && t.main == s.main && t.merged == s.merged
  }

  lemma ConclusionKeeps(s: State, job: Job, changes: bool, pass: bool, ledgerWritable: bool)
    requires job.InGate?
    ensures SameCalls(s, Concluded(s, job, changes, pass, ledgerWritable))
  {
    if job.proposing == Some(false) && !changes {
      RemovalKeeps(s);
    } else if pass {
      AskingKeeps(s, Approval(job.active.slug, job.headSha), ledgerWritable);
    }
  }

  lemma RemovalKeeps(s: State)
    ensures SameCalls(s, Removed(s))
  {
  }

  lemma AskingKeeps(s: State, approval: Approval, ledgerWritable: bool)
    ensures SameCalls(s, Minted(s, approval, ledgerWritable))
  {
  }

  /** The owner is asked if and only if it passed and the ledger can be written. */
  lemma GateAsksOwner(s: State, id: nat, touched: bool, checksPass: bool, ledgerWritable: bool)
    requires id in s.jobs && s.jobs[id].InGate?
    ensures
      var job := s.jobs[id];
      var t := Next(s, EndGate(id, touched, checksPass, ledgerWritable));
      if Passes(job, touched, checksPass) && ledgerWritable
      then t.pending == s.pending[s.issued := Approval(job.active.slug, job.headSha)] && t.issued == s.issued + 1
      else t.pending == s.pending && t.issued == s.issued
  {
  }

  /** The worktree on record goes if and only if this was a failed session that left no changes; a failed gate
      keeps it for inspection. */
  lemma GateKeepsWorktree(s: State, id: nat, touched: bool, checksPass: bool, ledgerWritable: bool)
    requires id in s.jobs && s.jobs[id].InGate? && s.active.Some?
    ensures
      var job := s.jobs[id];
      var t := Next(s, EndGate(id, touched, checksPass, ledgerWritable));
      var empty := !touched || job.headSha == job.active.baseSha;
      if job.proposing == Some(false) && empty
      then t.active == None && t.worktrees == s.worktrees - {s.active.value.slug}
           && t.branches == s.branches - {s.active.value.slug}
      else t.active == s.active && t.worktrees == s.worktrees && t.branches == s.branches
  {
  }

  /** A confirmation merges if and only if its entry is for the worktree on record, exactly the judged commit is
      checked out there, a passing verdict is on record and git merges. The entry is used up either way. */
  lemma ConfirmMerges(s: State, e: nat, call: nat, mergeCommit: Option<Commit>)
    requires e in s.pending && call !in s.finishing
    ensures
      var a := s.pending[e];
      var t := Next(s, Confirm(e, call, mergeCommit));
      var merges :=
        && s.active.Some? && s.active.value.slug == a.slug
        && a.slug in s.worktrees && s.worktrees[a.slug] == a.headSha
        && a.slug in s.verdicts && s.verdicts[a.slug].pass
        && a.slug in s.branches && mergeCommit.Some?;
      && t.pending == s.pending - {e}
      && (if merges
          then t.main == mergeCommit.value && t.finishing == s.finishing[call := s.active.value]
               && t.merged == s.merged + [Merge(a.slug, a.headSha, s.branches[a.slug], s.verdicts[a.slug])]
          else t == s.(pending := s.pending - {e}))
      && t.active == s.active && t.worktrees == s.worktrees && t.branches == s.branches && t.jobs == s.jobs
      && t.busy == s.busy && t.verdicts == s.verdicts
  {
  }

  /** An entry that is not open merges nothing, and dropping one does nothing else. */
  lemma ClosedEntriesMergeNothing(s: State, e: nat, call: nat, mergeCommit: Option<Commit>)
    ensures e !in s.pending ==> Next(s, Confirm(e, call, mergeCommit)) == s
    ensures Next(s, DropEntry(e)) == s.(pending := s.pending - {e})
  {
  }

  /** The tail of a merge ends its call and takes worktree, branch and record of what is on record. */
  lemma TailRemovesRecord(s: State, call: nat)
    requires call in s.finishing
    ensures
      var t := Next(s, FinishMerge(call));
      && t.finishing == s.finishing - {call} && t.main == s.main && t.jobs == s.jobs && t.busy == s.busy
      && t.active == None
      && (if s.active.None? then t.worktrees == s.worktrees && t.branches == s.branches
          else t.worktrees == s.worktrees - {s.active.value.slug} && t.branches == s.branches - {s.active.value.slug})
  {
  }

  /** After a restart no call is in flight and of the worktrees exactly the one on record is left, with its
      branch; record, verdicts and ledger are as they were. */
  lemma RestartSweeps(s: State)
    ensures
      var t := Next(s, Restart);
      && !t.busy && t.jobs == map[] && t.finishing == map[]
      && t.active == s.active && t.verdicts == s.verdicts && t.pending == s.pending && t.main == s.main
      && (forall slug :: slug in t.worktrees
                         <==> slug in s.worktrees && s.active.Some? && s.active.value.slug == slug)
      && (forall slug | slug in t.worktrees :: t.worktrees[slug] == s.worktrees[slug])
      && (forall slug :: slug in t.branches
                         <==> slug in s.branches
                              && (slug !in s.worktrees || (s.active.Some? && s.active.value.slug == slug)))
  {
  }

  /** A gate that throws ends its call and changes nothing else; a worktree whose directory disappears leaves its
      branch and its record. */
  lemma OtherSteps(s: State, id: nat, slug: Slug, head: Commit)
    ensures id in s.jobs ==> Next(s, GateThrows(id)) == s.(jobs := s.jobs - {id}, busy := false)
    ensures
      var t := Next(s, LoseWorktree(slug));
      t.worktrees == s.worktrees - {slug} && t.branches == s.branches && t.active == s.active
    ensures Next(s, MoveMain(head)) == s.(main := head, known := s.known + {head})
  {
  }
}
