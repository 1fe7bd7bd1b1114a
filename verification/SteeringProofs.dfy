/** What every run of the steering protocol keeps. */
module SteeringProofs {
  import opened Messages
  import opened Steering

  // ------------------------------------------------------------ where a message can be

  datatype Place =
    | Own(h: nat)
    | Drained(h: nat, i: nat)
    | Queued(key: Key, i: nat)

  function At(s: State, p: Place): Option<Inbound> {
    match p
    case Own(h) =>
      if h < |s.handlers| && !s.handlers[h].Deferred? then Some(s.handlers[h].msg) else None
    case Drained(h, i) =>
      if h < |s.handlers| && (s.handlers[h].Running? || s.handlers[h].Finished?) && i < |s.handlers[h].drained|
      then Some(s.handlers[h].drained[i]) else None
    case Queued(key, i) =>
      if key in s.queues && i < |s.queues[key]| then Some(s.queues[key][i]) else None
  }

  /** Every received message is in one place and one only, and nothing else is anywhere. */
  ghost predicate ExactlyOnePlace(s: State) {
    && (forall p :: At(s, p).Some? ==> At(s, p).value in s.received)
    && (forall p, q :: At(s, p).Some? && At(s, p) == At(s, q) ==> p == q)
    && (forall m | m in s.received :: exists p :: At(s, p) == Some(m))
  }

  /** Where a step takes the message at place `p`. */
  function Moved(s: State, step: Step, p: Place): Place {
    match step
    case Check(h) =>
      if IsEntering(s, h) && s.handlers[h].msg.key in s.queues && p == Own(h)
      then Queued(s.handlers[h].msg.key, |s.queues[s.handlers[h].msg.key]|) else p
    case Poll(h) =>
      if IsRunning(s, h) && p.Queued? && p.key == s.handlers[h].msg.key
      then Drained(h, |s.handlers[h].drained| + p.i) else p
    case Finish(h) =>
      if IsRunning(s, h) && p.Queued? && p.key == s.handlers[h].msg.key
      then Own(|s.handlers| + p.i) else p
    case _ => p
  }

  /** Where the message at place `q` after the step was before it. */
  function MovedFrom(s: State, step: Step, q: Place): Place {
    match step
    case Check(h) =>
      if IsEntering(s, h) && s.handlers[h].msg.key in s.queues
         && q == Queued(s.handlers[h].msg.key, |s.queues[s.handlers[h].msg.key]|)
      then Own(h) else q
    case Poll(h) =>
      if IsRunning(s, h) && q.Drained? && q.h == h && q.i >= |s.handlers[h].drained|
      then Queued(s.handlers[h].msg.key, q.i - |s.handlers[h].drained|) else q
    case Finish(h) =>
      if IsRunning(s, h) && q.Own? && q.h >= |s.handlers|
      then Queued(s.handlers[h].msg.key, q.h - |s.handlers|) else q
    case _ => q
  }

  lemma MessagesMove(s: State, step: Step, p: Place)
    requires !step.Receive? && At(s, p).Some?
    ensures At(Next(s, step), Moved(s, step, p)) == At(s, p)
  {
  }

  lemma MessagesCameFrom(s: State, step: Step, q: Place)
    requires !step.Receive? && At(Next(s, step), q).Some?
    ensures At(s, MovedFrom(s, step, q)) == At(Next(s, step), q)
    ensures Moved(s, step, MovedFrom(s, step, q)) == q
  {
  }

  lemma StepKeepsPlaces(s: State, step: Step)
    requires ExactlyOnePlace(s)
    ensures ExactlyOnePlace(Next(s, step))
  {
    if step.Receive? {
      ReceiveKeepsPlaces(s, step.m);
      return;
    }
    var t := Next(s, step);
    forall q | At(t, q).Some?
      ensures At(t, q).value in t.received
    {
      MessagesCameFrom(s, step, q);
    }
    forall p, q | At(t, p).Some? && At(t, p) == At(t, q)
      ensures p == q
    {
      MessagesCameFrom(s, step, p);
      MessagesCameFrom(s, step, q);
    }
    forall m | m in t.received
      ensures exists p :: At(t, p) == Some(m)
    {
      var p :| At(s, p) == Some(m);
      MessagesMove(s, step, p);
    }
  }

  lemma ReceiveKeepsPlaces(s: State, m: Inbound)
    requires ExactlyOnePlace(s)
    ensures ExactlyOnePlace(Next(s, Receive(m)))
  {
    var t := Next(s, Receive(m));
    if m !in s.received {
      var spot := Own(|s.handlers|);
      assert At(t, spot) == Some(m);
      forall p | p != spot
        ensures At(t, p) == At(s, p)
      {
      }
      assert At(s, spot) == None;
      forall x | x in t.received
        ensures exists p :: At(t, p) == Some(x)
      {
        if x != m {
          var p :| At(s, p) == Some(x);
          assert At(t, p) == Some(x);
        }
      }
    }
  }

  // ------------------------------------------------------------ one dispatch a session

  /** Every registered queue has a dispatch. */
  ghost predicate Manned(s: State) {
    forall key | key in s.queues :: exists h :: RunsOn(s, h, key)
  }

  /** Every dispatch has its session's queue to itself. */
  ghost predicate Registered(s: State) {
    && (forall h: nat | IsRunning(s, h) :: s.handlers[h].msg.key in s.queues)
    && (forall h: nat, g: nat | IsRunning(s, h) && IsRunning(s, g) ::
          s.handlers[h].msg.key == s.handlers[g].msg.key ==> h == g)
  }

  /** A queue is registered exactly while one dispatch runs on its session, and stops are pending only
      for such sessions. */
  ghost predicate Exclusive(s: State) {
    Manned(s) && Registered(s) && s.cancels <= s.queues.Keys
  }

  lemma StepKeepsManned(s: State, step: Step)
    requires Exclusive(s)
    ensures Manned(Next(s, step))
  {
    var t := Next(s, step);
    forall key | key in t.queues
      ensures exists h :: RunsOn(t, h, key)
    {
      if key in s.queues {
        var h :| RunsOn(s, h, key);
        assert RunsOn(t, h, key);
      } else {
        assert RunsOn(t, step.h, key);
      }
    }
  }

  lemma StepKeepsRegistered(s: State, step: Step)
    requires Registered(s)
    ensures Registered(Next(s, step))
  {
    var t := Next(s, step);
    forall h: nat | IsRunning(t, h)
      ensures t.handlers[h].msg.key in t.queues
    {
      assert IsRunning(s, h) || (step.Check? && h == step.h);
    }
    forall h: nat, g: nat | IsRunning(t, h) && IsRunning(t, g) && t.handlers[h].msg.key == t.handlers[g].msg.key
      ensures h == g
    {
      assert IsRunning(s, h) || (step.Check? && h == step.h);
      assert IsRunning(s, g) || (step.Check? && g == step.h);
    }
  }

  lemma {:induction false} StepKeepsExclusive(s: State, step: Step)
    requires Exclusive(s)
    ensures Exclusive(Next(s, step))
  {
    StepKeepsManned(s, step);
    StepKeepsRegistered(s, step);
  }

  lemma {:induction false} RunFacts(steps: seq<Step>)
    ensures ExactlyOnePlace(Run(steps)) && Exclusive(Run(steps))
  {
    if steps != [] {
      var before, last := steps[..|steps| - 1], steps[|steps| - 1];
      RunFacts(before);
      StepKeepsPlaces(Run(before), last);
      StepKeepsExclusive(Run(before), last);
    }
  }

  /** Steering conservation. */
  lemma {:induction false} NothingLostNothingDoubled(steps: seq<Step>)
    ensures ExactlyOnePlace(Run(steps))
  {
    RunFacts(steps);
  }

  /** Run exclusivity: the queue map is exactly the record of who is dispatching. */
  lemma {:induction false} OneDispatchPerSession(steps: seq<Step>, key: Key)
    ensures
      var s := Run(steps);
      && (key in s.queues <==> exists h :: RunsOn(s, h, key))
      && (forall h, g | RunsOn(s, h, key) && RunsOn(s, g, key) :: h == g)
      && s.cancels <= s.queues.Keys
  {
    RunFacts(steps);
  }

  /** Queued input is never dropped: when a run ends, each message left in its queue enters again as a handler
      of its own, in order, and every other handler stays as it was. */
  lemma UndrainedIsReplayed(s: State, h: nat)
    requires IsRunning(s, h)
    ensures
      var run, t := s.handlers[h], Next(s, Finish(h));
      var undrained := QueueOf(s, run.msg.key);
      && |t.handlers| == |s.handlers| + |undrained|
      && t.handlers[h] == Finished(run.msg, run.drained)
      && (forall i | 0 <= i < |undrained| :: t.handlers[|s.handlers| + i] == Entering(undrained[i]))
      && (forall g | 0 <= g < |s.handlers| && g != h :: t.handlers[g] == s.handlers[g])
  {
  }

  /** The messages that were folded into the run of handler `h`: those that found its session busy since it
      registered, in the order of their checks. */
  function FoldedInto(steps: seq<Step>, h: nat): seq<Inbound> {
    if steps == [] || !IsRunning(Run(steps), h) then []
    else
      var before, last := steps[..|steps| - 1], steps[|steps| - 1];
      var earlier := FoldedInto(before, h);
      if last.Check? && last.h != h && IsEntering(Run(before), last.h)
         && Run(before).handlers[last.h].msg.key == Run(steps).handlers[h].msg.key
      then earlier + [Run(before).handlers[last.h].msg]
      else earlier
  }

  /** First come, first served: what a run has drained and what still waits for it are together exactly the
      messages folded into it, in the order in which they came. */
  lemma {:induction false} FoldedInOrder(steps: seq<Step>, h: nat)
    requires IsRunning(Run(steps), h)
    ensures
      var s := Run(steps);
      s.handlers[h].drained + QueueOf(s, s.handlers[h].msg.key) == FoldedInto(steps, h)
  {
    var before, last := steps[..|steps| - 1], steps[|steps| - 1];
    RunFacts(before);
    if IsRunning(Run(before), h) {
      FoldedInOrder(before, h);
      FoldStep(Run(before), last, h);
    } else {
      FirstStep(Run(before), last, h);
      NotRunningYet(before, h);
    }
  }

  lemma FoldStep(s: State, step: Step, h: nat)
    requires Exclusive(s) && IsRunning(s, h) && IsRunning(Next(s, step), h)
    ensures
      var t, key := Next(s, step), s.handlers[h].msg.key;
      && t.handlers[h].msg.key == key
      && t.handlers[h].drained + QueueOf(t, key)
         == s.handlers[h].drained + QueueOf(s, key)
            + if step.Check? && step.h != h && IsEntering(s, step.h) && s.handlers[step.h].msg.key == key
              then [s.handlers[step.h].msg] else []
  {
  }

  lemma FirstStep(s: State, step: Step, h: nat)
    requires Exclusive(s) && !IsRunning(s, h) && IsRunning(Next(s, step), h)
    ensures
      var t := Next(s, step);
      step == Check(h) && t.handlers[h].drained + QueueOf(t, t.handlers[h].msg.key) == []
  {
  }

  lemma NotRunningYet(steps: seq<Step>, h: nat)
    requires !IsRunning(Run(steps), h)
    ensures FoldedInto(steps, h) == []
  {
  }

  /** Messages never cross sessions: a queue, and whatever a run drained, belongs to the run's session. */
  ghost predicate SameSession(s: State) {
    && (forall key | key in s.queues :: forall m | m in s.queues[key] :: m.key == key)
    && (forall h: nat | h < |s.handlers| && (s.handlers[h].Running? || s.handlers[h].Finished?) ::
          forall m | m in s.handlers[h].drained :: m.key == s.handlers[h].msg.key)
  }

  lemma {:induction false} SteeringStaysInSession(steps: seq<Step>)
    ensures SameSession(Run(steps))
  {
    if steps != [] {
      SteeringStaysInSession(steps[..|steps| - 1]);
      StepKeepsSameSession(Run(steps[..|steps| - 1]), steps[|steps| - 1]);
    }
  }

  lemma StepKeepsSameSession(s: State, step: Step)
    requires SameSession(s)
    ensures SameSession(Next(s, step))
  {
    var t := Next(s, step);
    forall key, m | key in t.queues && m in t.queues[key]
      ensures m.key == key
    {
      assert (key in s.queues && m in s.queues[key]) || (step.Check? && m == s.handlers[step.h].msg);
    }
    forall h: nat, m | h < |t.handlers| && (t.handlers[h].Running? || t.handlers[h].Finished?)
                       && m in t.handlers[h].drained
      ensures m.key == t.handlers[h].msg.key
    {
      if step == Poll(h) && IsRunning(s, h) {
        assert m in s.handlers[h].drained || m in QueueOf(s, s.handlers[h].msg.key);
      }
    }
  }

  /** Only the handler that registered a queue takes it down. */
  lemma {:induction false} OnlyTheOwnerReleases(steps: seq<Step>, step: Step, key: Key)
    requires key in Run(steps).queues && key !in Next(Run(steps), step).queues
    ensures step.Finish? && RunsOn(Run(steps), step.h, key)
    ensures forall h | RunsOn(Run(steps), h, key) :: h == step.h
  {
    RunFacts(steps);
  }

  /** Cancel scoping: a run sees a stop exactly when someone asked for it while this very run was going. */
  lemma {:induction false} StopReachesOnlyItsRun(steps: seq<Step>, h: nat)
    requires IsRunning(Run(steps), h)
    ensures
      var key := Run(steps).handlers[h].msg.key;
      key in Run(steps).cancels <==> StoppedWhileRunning(steps, h, key)
  {
    var n := |steps| - 1;
    var key := Run(steps).handlers[h].msg.key;
    var before, last := steps[..n], steps[n];
    var s := Run(before);
    RunFacts(before);
    if IsRunning(s, h) {
      StopReachesOnlyItsRun(before, h);
      ShorterRunsAgree(steps, h, key);
      RunGoesOn(s, last, h);
    } else {
      RunStarts(s, last, h);
      NeverStoppedBefore(steps, h, key);
    }
  }

  /** The `isCancelled` closure of a running handler, in an orchestrator that has gone through `steps`. */
  method IsCancelled(o: Orchestrator, h: nat, ghost steps: seq<Step>) returns (cancelled: bool)
    requires o.View() == Run(steps) && IsRunning(Run(steps), h)
    ensures cancelled <==> StoppedWhileRunning(steps, h, o.handlers[h].msg.key)
  {
    StopReachesOnlyItsRun(steps, h);
    cancelled := o.handlers[h].msg.key in o.cancelRequests;
  }

  lemma RunGoesOn(s: State, step: Step, h: nat)
    requires Exclusive(s) && IsRunning(s, h) && IsRunning(Next(s, step), h)
    ensures
      var key, t := s.handlers[h].msg.key, Next(s, step);
      && t.handlers[h].msg.key == key
      && (key in t.cancels <==> key in s.cancels || step == Stop(key))
  {
  }

  lemma RunStarts(s: State, step: Step, h: nat)
    requires Exclusive(s) && !IsRunning(s, h) && IsRunning(Next(s, step), h)
    ensures IsEntering(s, h)
    ensures Next(s, step).handlers[h].msg.key !in Next(s, step).cancels
  {
  }

  lemma NeverStoppedBefore(steps: seq<Step>, h: nat, key: Key)
    requires steps != [] && IsEntering(Run(steps[..|steps| - 1]), h)
    ensures !StoppedWhileRunning(steps, h, key)
  {
    var before := steps[..|steps| - 1];
    NotRunningBefore(before, h);
    forall i | 0 <= i < |steps|
      ensures !StopDuring(steps, i, h, key)
    {
      assert steps[..i] == before[..i];
    }
  }

  ghost predicate StopDuring(steps: seq<Step>, i: nat, h: nat, key: Key)
    requires i < |steps|
  {
    steps[i] == Stop(key) && RunsOn(Run(steps[..i]), h, key)
  }

  ghost predicate StoppedWhileRunning(steps: seq<Step>, h: nat, key: Key) {
    exists i | 0 <= i < |steps| :: StopDuring(steps, i, h, key)
  }

  lemma ShorterRunsAgree(steps: seq<Step>, h: nat, key: Key)
    requires steps != []
    ensures
      var n := |steps| - 1;
      StoppedWhileRunning(steps, h, key)
      <==> StoppedWhileRunning(steps[..n], h, key) || StopDuring(steps, n, h, key)
  {
    var n := |steps| - 1;
    forall i | 0 <= i < n
      ensures StopDuring(steps, i, h, key) == StopDuring(steps[..n], i, h, key)
    {
      assert steps[..n][..i] == steps[..i];
    }
  }

  /** A handler that is still entering, or not yet called, has never been running. */
  lemma {:induction false} NotRunningBefore(steps: seq<Step>, h: nat)
    requires h >= |Run(steps).handlers| || IsEntering(Run(steps), h)
    ensures forall i | 0 <= i <= |steps| :: !IsRunning(Run(steps[..i]), h)
  {
    assert steps[..|steps|] == steps;
    if steps != [] {
      var before := steps[..|steps| - 1];
      NotRunningBefore(before, h);
      forall i | 0 <= i <= |steps|
        ensures !IsRunning(Run(steps[..i]), h)
      {
        if i < |steps| {
          assert steps[..i] == before[..i];
        }
      }
    }
  }

  // ------------------------------------------------------------ replay terminates

  ghost predicate CompletedBy(s: State, m: Inbound, h: nat) {
    && h < |s.handlers|
    && match s.handlers[h]
       case Finished(msg, drained) => m == msg || m in drained
       case Limited(msg) => m == msg
       case _ => false
  }

  ghost predicate Completed(s: State, m: Inbound) {
    exists h :: CompletedBy(s, m, h)
  }

  ghost function Unfinished(s: State, key: Key): set<Inbound> {
    set m | m in s.received && m.key == key && !Completed(s, m)
  }

  /** How many dispatches on `key` these steps finish, starting from `s`. */
  ghost function Dispatches(s: State, steps: seq<Step>, key: Key): nat {
    if steps == [] then 0
    else
      var before, last := steps[..|steps| - 1], steps[|steps| - 1];
      Dispatches(s, before, key) + if last.Finish? && RunsOn(RunFrom(s, before), last.h, key) then 1 else 0
  }

  lemma CompletionIsFinal(s: State, step: Step, m: Inbound)
    requires Completed(s, m)
    ensures Completed(Next(s, step), m)
  {
    var h :| CompletedBy(s, m, h);
    assert CompletedBy(Next(s, step), m, h);
  }

  /** The step that completes a message: its own handler's rate limiting, or the end of the run whose own
      message it is or which drained it. */
  ghost predicate Completes(s: State, step: Step, m: Inbound) {
    || (step.Limit? && IsEntering(s, step.h) && s.handlers[step.h].msg == m)
    || (step.Finish? && IsRunning(s, step.h) && (s.handlers[step.h].msg == m || m in s.handlers[step.h].drained))
  }

  lemma CompletionHasCause(s: State, step: Step, m: Inbound)
    ensures Completed(Next(s, step), m) <==> Completed(s, m) || Completes(s, step, m)
  {
    if Completed(s, m) {
      CompletionIsFinal(s, step, m);
    }
    if Completes(s, step, m) {
      assert CompletedBy(Next(s, step), m, step.h);
    }
    if Completed(Next(s, step), m) && !Completed(s, m) {
      var h :| CompletedBy(Next(s, step), m, h);
      assert !CompletedBy(s, m, h);
    }
  }

  ghost predicate CompletedAt(steps: seq<Step>, i: nat, m: Inbound)
    requires i < |steps|
  {
    Completes(Run(steps[..i]), steps[i], m)
  }

  /** Over every run: a message is completed exactly when one of the steps completed it in that way. */
  lemma {:induction false} OnlyRunsAndLimitsComplete(steps: seq<Step>, m: Inbound)
    ensures Completed(Run(steps), m) <==> exists i | 0 <= i < |steps| :: CompletedAt(steps, i, m)
  {
    if steps == [] {
      assert forall h: nat :: !CompletedBy(IDLE, m, h);
    } else {
      OnlyRunsAndLimitsComplete(steps[..|steps| - 1], m);
      CompletionHasCause(Run(steps[..|steps| - 1]), steps[|steps| - 1], m);
      OneStepLonger(steps, m);
    }
  }

  lemma OneStepLonger(steps: seq<Step>, m: Inbound)
    requires steps != []
    ensures
      var n := |steps| - 1;
      (exists i | 0 <= i < |steps| :: CompletedAt(steps, i, m))
      <==> (exists i | 0 <= i < n :: CompletedAt(steps[..n], i, m)) || Completes(Run(steps[..n]), steps[n], m)
  {
    var n := |steps| - 1;
    forall i | 0 <= i < n
      ensures CompletedAt(steps[..n], i, m) == CompletedAt(steps, i, m)
    {
      assert steps[..n][..i] == steps[..i];
    }
    assert CompletedAt(steps, n, m) == Completes(Run(steps[..n]), steps[n], m);
  }

  lemma CompletedHasPlace(s: State, m: Inbound, g: nat) returns (p: Place)
    requires CompletedBy(s, m, g)
    ensures At(s, p) == Some(m)
    ensures (p.Own? || p.Drained?) && p.h == g
  {
    if s.handlers[g].msg == m {
      p := Own(g);
    } else {
      var i :| 0 <= i < |s.handlers[g].drained| && s.handlers[g].drained[i] == m;
      p := Drained(g, i);
    }
  }

  lemma RunningMessageIsUnfinished(s: State, h: nat)
    requires ExactlyOnePlace(s) && h < |s.handlers| && (s.handlers[h].Running? || s.handlers[h].Entering?)
    ensures !Completed(s, s.handlers[h].msg)
    ensures s.handlers[h].msg in s.received
  {
    var m := s.handlers[h].msg;
    assert At(s, Own(h)) == Some(m);
    if Completed(s, m) {
      var g :| CompletedBy(s, m, g);
      var p := CompletedHasPlace(s, m, g);
      assert false;
    }
  }

  /** Without new arrivals the unfinished messages of a session only become fewer, by at least one with
      every dispatch. */
  lemma StepShrinksUnfinished(s: State, step: Step, key: Key)
    requires ExactlyOnePlace(s) && !step.Receive?
    ensures Unfinished(Next(s, step), key) <= Unfinished(s, key)
    ensures step.Finish? && RunsOn(s, step.h, key) ==> |Unfinished(Next(s, step), key)| < |Unfinished(s, key)|
    ensures |Unfinished(Next(s, step), key)| <= |Unfinished(s, key)|
  {
    var t := Next(s, step);
    forall m | m in Unfinished(t, key)
      ensures m in Unfinished(s, key)
    {
      if Completed(s, m) {
        CompletionIsFinal(s, step, m);
      }
    }
    Fewer(Unfinished(t, key), Unfinished(s, key));
    if step.Finish? && RunsOn(s, step.h, key) {
      var m := s.handlers[step.h].msg;
      RunningMessageIsUnfinished(s, step.h);
      assert CompletedBy(t, m, step.h);
      Fewer(Unfinished(t, key), Unfinished(s, key) - {m});
    }
  }

  lemma {:induction false} Fewer<T>(a: set<T>, b: set<T>)
    requires a <= b
    ensures |a| <= |b|
  {
    if a != {} {
      var x :| x in a;
      Fewer(a - {x}, b - {x});
    }
  }

  /** N unfinished messages of a session complete within N dispatches. */
  lemma {:induction false} AtMostOneDispatchEach(prefix: seq<Step>, more: seq<Step>, key: Key)
    requires forall i | 0 <= i < |more| :: !more[i].Receive?
    ensures
      var s := Run(prefix);
      Dispatches(s, more, key) + |Unfinished(RunFrom(s, more), key)| <= |Unfinished(s, key)|
  {
    if more != [] {
      var before, last := more[..|more| - 1], more[|more| - 1];
      AtMostOneDispatchEach(prefix, before, key);
      RunsCompose(prefix, before);
      RunFacts(prefix + before);
      StepShrinksUnfinished(Run(prefix + before), last, key);
    }
  }

  /** A run goes through all of its steps, in order. */
  lemma RunStep(steps: seq<Step>, step: Step)
    ensures Run([]) == IDLE && Run(steps + [step]) == Next(Run(steps), step)
  {
    assert (steps + [step])[..|steps|] == steps;
  }

  lemma {:induction false} RunsCompose(prefix: seq<Step>, more: seq<Step>)
    ensures RunFrom(Run(prefix), more) == Run(prefix + more)
  {
    if more == [] {
      assert prefix + more == prefix;
    } else {
      RunsCompose(prefix, more[..|more| - 1]);
      assert (prefix + more)[..|prefix + more| - 1] == prefix + more[..|more| - 1];
    }
  }

  /** And the protocol cannot stall: while a message is unfinished, some handler has a step to take. */
  lemma {:induction false} UnfinishedMeansWorkInHand(steps: seq<Step>, m: Inbound)
    requires m in Run(steps).received && !Completed(Run(steps), m)
    ensures exists h :: IsEntering(Run(steps), h) || IsRunning(Run(steps), h)
  {
    RunFacts(steps);
    var s := Run(steps);
    var p :| At(s, p) == Some(m);
    match p
    case Own(h) =>
      assert !CompletedBy(s, m, h);
    case Drained(h, i) =>
      assert !CompletedBy(s, m, h);
    case Queued(key, i) =>
      var h :| RunsOn(s, h, key);
  }

  ghost function EnteringOf(s: State): set<nat> {
    set h | 0 <= h < |s.handlers| && s.handlers[h].Entering?
  }

  ghost function AllUnfinished(s: State): set<Inbound> {
    set m | m in s.received && !Completed(s, m)
  }

  /** Those steps cannot go on for ever: rate limiting and finishing complete a message, and a check
      leaves the unfinished as they are but one handler fewer is entering. */
  lemma {:induction false} WorkDecreases(steps: seq<Step>, step: Step)
    requires
      || ((step.Limit? || step.Check?) && IsEntering(Run(steps), step.h))
      || (step.Finish? && IsRunning(Run(steps), step.h))
    ensures
      var s, t := Run(steps), Next(Run(steps), step);
      || |AllUnfinished(t)| < |AllUnfinished(s)|
      || (AllUnfinished(t) == AllUnfinished(s) && |EnteringOf(t)| < |EnteringOf(s)|)
  {
    RunFacts(steps);
    var s, t := Run(steps), Next(Run(steps), step);
    var m := s.handlers[step.h].msg;
    RunningMessageIsUnfinished(s, step.h);
    forall x | x in AllUnfinished(t)
      ensures x in AllUnfinished(s)
    {
      if Completed(s, x) {
        CompletionIsFinal(s, step, x);
      }
    }
    if step.Check? {
      forall x | x in AllUnfinished(s)
        ensures x in AllUnfinished(t)
      {
        if Completed(t, x) {
          var h :| CompletedBy(t, x, h);
          assert CompletedBy(s, x, h);
        }
      }
      assert EnteringOf(t) == EnteringOf(s) - {step.h};
    } else {
      assert CompletedBy(t, m, step.h);
      Fewer(AllUnfinished(t), AllUnfinished(s) - {m});
    }
  }
}
