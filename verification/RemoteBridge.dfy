/** The bridge to a connected browser extension (src/browser/remote-bridge.ts): a queue of requests, each
    with its own timer, settled by a result, a timeout or a disconnect, whichever comes first. */
module RemoteBridge {
  import opened Messages

  type Id = string

  datatype Error = NoExtension | Disconnected | TimedOut | Reported(text: string)

  datatype Outcome = Resolved(result: string) | Rejected(error: Error)

  datatype BrowserAction = BrowserAction(id: Id, action: string)

  datatype Settlement = Settlement(id: Id, outcome: Outcome)

  /** `accepted` and `settlements` record the calls of `sendAction` that were queued, and every call made
      of a queued promise's `resolve` or `reject`, in the order in which they happened. */
  datatype State = State(
    queue: seq<BrowserAction>,
    connected: bool,
    timers: set<Id>,
    accepted: seq<Id>,
    settlements: seq<Settlement>)

  const FRESH := State([], false, {}, [], [])

  datatype Step =
    | SetConnected(connected: bool)
    | Send(request: BrowserAction)
    | Timeout(id: Id)
    | Result(id: Id, success: bool, result: string)

  function Ids(queue: seq<BrowserAction>): seq<Id> {
    seq(|queue|, i requires 0 <= i < |queue| => queue[i].id)
  }

  function AsSet(ids: seq<Id>): set<Id> {
    set id | id in ids
  }

  function SettledIds(settlements: seq<Settlement>): set<Id> {
    set p | p in settlements :: p.id
  }

  /** `findIndex` by id: the first match, or the length of the queue. */
  function Find(queue: seq<BrowserAction>, id: Id): (i: nat)
    ensures i <= |queue|
    ensures i < |queue| ==> queue[i].id == id
    ensures forall k | 0 <= k < i :: queue[k].id != id
  {
    if queue == [] || queue[0].id == id then 0 else 1 + Find(queue[1..], id)
  }

  function Rejections(queue: seq<BrowserAction>): seq<Settlement> {
    seq(|queue|, i requires 0 <= i < |queue| => Settlement(queue[i].id, Rejected(Disconnected)))
  }

  /** Take the request out of the queue, silence its timer, settle its promise. */
  function Settle(s: State, id: Id, outcome: Outcome): State {
    var i := Find(s.queue, id);
    if i == |s.queue| then s
    else s.(queue := s.queue[..i] + s.queue[i + 1..],
            timers := s.timers - {id},
            settlements := s.settlements + [Settlement(id, outcome)])
  }

  /** Ids are unique over a run, and a timer that was cleared does not fire. */
  function Next(s: State, step: Step): State {
    match step
    case SetConnected(connected) =>
      if connected then s.(connected := true)
      else s.(connected := false, queue := [], timers := s.timers - AsSet(Ids(s.queue)),
              settlements := s.settlements + Rejections(s.queue))
    case Send(request) =>
      if !s.connected || request.id in s.accepted then s
      else s.(queue := s.queue + [request], timers := s.timers + {request.id}, accepted := s.accepted + [request.id])
    case Timeout(id) =>
      if id !in s.timers then s
      else Settle(s.(timers := s.timers - {id}), id, Rejected(TimedOut))
    case Result(id, success, result) =>
      Settle(s, id, if success then Resolved(result) else Rejected(Reported(result)))
  }

  function RunFrom(s: State, steps: seq<Step>): State {
    if steps == [] then s else Next(RunFrom(s, steps[..|steps| - 1]), steps[|steps| - 1])
  }

  function Run(steps: seq<Step>): State {
    RunFrom(FRESH, steps)
  }

  class RemoteBrowserBridge {
    var queue: seq<BrowserAction>
    var connected: bool
    var timers: set<Id>
    var settlements: seq<Settlement>
    ghost var accepted: seq<Id>

    ghost function View(): State
      reads this
    {
      State(queue, connected, timers, accepted, settlements)
    }

    constructor ()
      ensures View() == FRESH
    {
      queue, connected, timers, settlements, accepted := [], false, {}, [], [];
    }

    method SetConnectedTo(connected: bool)
      modifies this
      ensures View() == Next(old(View()), SetConnected(connected))
    {
      this.connected := connected;
      if !connected {
        var spliced := queue;
        queue := [];
        for i := 0 to |spliced|
          invariant timers == old(timers) - AsSet(Ids(spliced[..i]))
          invariant settlements == old(settlements) + Rejections(spliced[..i])
          modifies this`timers, this`settlements
        {
          var p := spliced[i];
          assert Ids(spliced[..i + 1]) == Ids(spliced[..i]) + [p.id];
          assert Rejections(spliced[..i + 1]) == Rejections(spliced[..i]) + [Settlement(p.id, Rejected(Disconnected))];
          timers := timers - {p.id};
          settlements := settlements + [Settlement(p.id, Rejected(Disconnected))];
        }
        assert spliced[..|spliced|] == spliced;
      }
    }

    /** An immediate rejection, or `None` for a promise that is now pending. */
    method SendAction(id: Id, action: string) returns (refused: Option<Error>)
      requires id !in accepted
      modifies this
      ensures refused == if old(connected) then None else Some(NoExtension)
      ensures View() == Next(old(View()), Send(BrowserAction(id, action)))
      ensures queue == if old(connected) then old(queue) + [BrowserAction(id, action)] else old(queue)
    {
      if !connected {
        return Some(NoExtension);
      }
      timers := timers + {id};
      queue := queue + [BrowserAction(id, action)];
      accepted := accepted + [id];
      return None;
    }

    /** The timer's callback; it runs only while the timer is live. */
    method OnTimeout(id: Id)
      requires id in timers
      modifies this
      ensures View() == Next(old(View()), Timeout(id))
    {
      timers := timers - {id};
      var idx := FindIndex(id);
      if idx != |queue| {
        queue := queue[..idx] + queue[idx + 1..];
        settlements := settlements + [Settlement(id, Rejected(TimedOut))];
      }
    }

    /** The oldest accepted request that is not settled, if there is one. */
    method GetPendingAction() returns (head: Option<BrowserAction>)
      requires Inv(View())
      ensures head.Some? ==> head.value in queue
      ensures
        var waiting := Unsettled(accepted, SettledIds(settlements));
        if waiting == [] then head == None else head.Some? && head.value.id == waiting[0]
    {
      assert |Ids(queue)| == |queue|;
      head := if |queue| > 0 then Some(queue[0]) else None;
    }

    method ResolveAction(id: Id, success: bool, result: string)
      modifies this
      ensures View() == Next(old(View()), Result(id, success, result))
    {
      var idx := FindIndex(id);
      if idx == |queue| {
        return;
      }
      queue := queue[..idx] + queue[idx + 1..];
      timers := timers - {id};
      if success {
        settlements := settlements + [Settlement(id, Resolved(result))];
      } else {
        settlements := settlements + [Settlement(id, Rejected(Reported(result)))];
      }
    }

    method FindIndex(id: Id) returns (idx: nat)
      ensures idx == Find(queue, id)
    {
      idx := 0;
      while idx < |queue| && queue[idx].id != id
        invariant idx <= |queue|
        invariant forall k | 0 <= k < idx :: queue[k].id != id
      {
        idx := idx + 1;
      }
    }
  }

  // ------------------------------------------------------------ what every run keeps

  ghost predicate Distinct<T>(s: seq<T>) {
    forall i, j | 0 <= i < j < |s| :: s[i] != s[j]
  }

  /** The accepted requests that have not been settled, in the order in which they were sent. */
  function Unsettled(accepted: seq<Id>, settled: set<Id>): (r: seq<Id>)
    ensures forall id | id in r :: id in accepted && id !in settled
  {
    if accepted == [] then []
    else
      var n := |accepted| - 1;
      Unsettled(accepted[..n], settled) + if accepted[n] in settled then [] else [accepted[n]]
  }

  function SettlementIds(settlements: seq<Settlement>): seq<Id> {
    seq(|settlements|, i requires 0 <= i < |settlements| => settlements[i].id)
  }

  ghost predicate Inv(s: State) {
    && Distinct(s.accepted)
    && Distinct(SettlementIds(s.settlements))
    && (forall p | p in s.settlements :: p.id in s.accepted)
    && Ids(s.queue) == Unsettled(s.accepted, SettledIds(s.settlements))
    && s.timers == AsSet(Ids(s.queue))
    && (!s.connected ==> s.queue == [])
  }

  lemma {:induction false} UnsettledFacts(accepted: seq<Id>, settled: set<Id>)
    requires Distinct(accepted)
    ensures Distinct(Unsettled(accepted, settled))
    ensures forall id | id in accepted && id !in settled :: id in Unsettled(accepted, settled)
  {
    if accepted != [] {
      UnsettledFacts(accepted[..|accepted| - 1], settled);
    }
  }

  function Without(ids: seq<Id>, id: Id): seq<Id> {
    if ids == [] then []
    else
      var n := |ids| - 1;
      Without(ids[..n], id) + if ids[n] == id then [] else [ids[n]]
  }

  /** Settling one more request takes exactly that request out. */
  lemma {:induction false} UnsettledWithout(accepted: seq<Id>, settled: set<Id>, id: Id)
    ensures Unsettled(accepted, settled + {id}) == Without(Unsettled(accepted, settled), id)
  {
    if accepted != [] {
      var n := |accepted| - 1;
      UnsettledWithout(accepted[..n], settled, id);
      var before, open := Unsettled(accepted[..n], settled), Unsettled(accepted, settled);
      if accepted[n] in settled {
        assert open == before;
      } else {
        assert open == before + [accepted[n]] && open[..|open| - 1] == before;
      }
    }
  }

  lemma {:induction false} WithoutAbsent(ids: seq<Id>, id: Id)
    requires id !in ids
    ensures Without(ids, id) == ids
  {
    if ids != [] {
      WithoutAbsent(ids[..|ids| - 1], id);
    }
  }

  lemma {:induction false} WithoutAt(ids: seq<Id>, i: nat)
    requires Distinct(ids) && i < |ids|
    ensures Without(ids, ids[i]) == ids[..i] + ids[i + 1..]
  {
    var n := |ids| - 1;
    if i == n {
      WithoutAbsent(ids[..n], ids[i]);
    } else {
      WithoutAt(ids[..n], i);
      assert ids[..n][..i] == ids[..i] && ids[i + 1..] == ids[..n][i + 1..] + [ids[n]];
    }
  }

  lemma {:induction false} UnsettledNone(accepted: seq<Id>, settled: set<Id>)
    requires forall id | id in accepted :: id in settled
    ensures Unsettled(accepted, settled) == []
  {
    if accepted != [] {
      UnsettledNone(accepted[..|accepted| - 1], settled);
    }
  }

  lemma SettleKeepsInv(s: State, id: Id, outcome: Outcome)
    requires Inv(s) && Find(s.queue, id) < |s.queue|
    ensures Inv(Settle(s, id, outcome))
  {
    QueuedIsUnsettled(s, id);
    SettleKeepsQueue(s, id, outcome);
    OneSettlementMore(s, id, outcome);
    SettlementsStayAccepted(s, id, outcome);
  }

  lemma QueuedIsUnsettled(s: State, id: Id)
    requires Inv(s) && Find(s.queue, id) < |s.queue|
    ensures id in s.accepted && id !in SettledIds(s.settlements)
  {
    assert Ids(s.queue)[Find(s.queue, id)] == id && id in Ids(s.queue);
  }

  lemma SettleKeepsQueue(s: State, id: Id, outcome: Outcome)
    requires Inv(s) && Find(s.queue, id) < |s.queue|
    ensures
      var t := Settle(s, id, outcome);
      && Ids(t.queue) == Unsettled(t.accepted, SettledIds(t.settlements))
      && t.timers == AsSet(Ids(t.queue))
  {
    UnsettledFacts(s.accepted, SettledIds(s.settlements));
    TakeOut(s.queue, s.accepted, s.settlements, Find(s.queue, id), outcome);
  }

  lemma TakeOut(queue: seq<BrowserAction>, accepted: seq<Id>, settlements: seq<Settlement>, i: nat, outcome: Outcome)
    requires i < |queue| && Distinct(Ids(queue)) && Ids(queue) == Unsettled(accepted, SettledIds(settlements))
    ensures
      var rest := Ids(queue[..i] + queue[i + 1..]);
      && rest == Unsettled(accepted, SettledIds(settlements + [Settlement(queue[i].id, outcome)]))
      && AsSet(rest) == AsSet(Ids(queue)) - {queue[i].id}
  {
    QueueWithout(queue, i);
    UnsettledWithout(accepted, SettledIds(settlements), queue[i].id);
    SettledIdsGrow(settlements, queue[i].id, outcome);
  }

  lemma SettlementsStayAccepted(s: State, id: Id, outcome: Outcome)
    requires id in s.accepted && forall p | p in s.settlements :: p.id in s.accepted
    ensures forall p | p in s.settlements + [Settlement(id, outcome)] :: p.id in s.accepted
  {
  }

  lemma QueueWithout(queue: seq<BrowserAction>, i: nat)
    requires Distinct(Ids(queue)) && i < |queue|
    ensures Ids(queue[..i] + queue[i + 1..]) == Without(Ids(queue), queue[i].id)
    ensures AsSet(Ids(queue[..i] + queue[i + 1..])) == AsSet(Ids(queue)) - {queue[i].id}
  {
    var ids, rest := Ids(queue), Ids(queue[..i] + queue[i + 1..]);
    WithoutAt(ids, i);
    assert rest == ids[..i] + ids[i + 1..];
    assert ids == ids[..i] + [ids[i]] + ids[i + 1..];
    forall id
      ensures id in rest <==> id in ids && id != ids[i]
    {
      assert id in ids <==> id in ids[..i] || id == ids[i] || id in ids[i + 1..];
    }
  }

  lemma SettledIdsGrow(settlements: seq<Settlement>, id: Id, outcome: Outcome)
    ensures SettledIds(settlements + [Settlement(id, outcome)]) == SettledIds(settlements) + {id}
  {
    var after := settlements + [Settlement(id, outcome)];
    forall x | x in SettledIds(settlements) + {id}
      ensures x in SettledIds(after)
    {
      if x in SettledIds(settlements) {
        var p :| p in settlements && p.id == x;
        assert p in after;
      } else {
        assert Settlement(id, outcome) in after;
      }
    }
  }

  lemma OneSettlementMore(s: State, id: Id, outcome: Outcome)
    requires Distinct(SettlementIds(s.settlements)) && id !in SettledIds(s.settlements)
    ensures Distinct(SettlementIds(s.settlements + [Settlement(id, outcome)]))
  {
    var before, after := SettlementIds(s.settlements), SettlementIds(s.settlements + [Settlement(id, outcome)]);
    assert after == before + [id];
    forall k | 0 <= k < |before|
      ensures before[k] != id
    {
      assert s.settlements[k] in s.settlements;
    }
  }

  lemma DisconnectKeepsInv(s: State)
    requires Inv(s)
    ensures Inv(Next(s, SetConnected(false)))
  {
    var t := Next(s, SetConnected(false));
    var settled := SettledIds(s.settlements);
    UnsettledFacts(s.accepted, settled);
    forall id | id in s.accepted
      ensures id in SettledIds(t.settlements)
    {
      if id in settled {
        var p :| p in s.settlements && p.id == id;
        assert p in t.settlements;
      } else {
        var i :| 0 <= i < |s.queue| && Ids(s.queue)[i] == id;
        assert Rejections(s.queue)[i] in t.settlements;
      }
    }
    UnsettledNone(s.accepted, SettledIds(t.settlements));
    assert SettlementIds(t.settlements) == SettlementIds(s.settlements) + Ids(s.queue);
    forall i, j | 0 <= i < |s.settlements| && 0 <= j < |s.queue|
      ensures SettlementIds(s.settlements)[i] != Ids(s.queue)[j]
    {
      assert s.settlements[i] in s.settlements && Ids(s.queue)[j] in Ids(s.queue);
    }
    forall p | p in t.settlements
      ensures p.id in s.accepted
    {
      if p !in s.settlements {
        var j :| 0 <= j < |s.queue| && p == Rejections(s.queue)[j];
        assert p.id == Ids(s.queue)[j] && Ids(s.queue)[j] in Ids(s.queue);
      }
    }
  }

  lemma SendKeepsInv(s: State, request: BrowserAction)
    requires Inv(s)
    ensures Inv(Next(s, Send(request)))
  {
    if s.connected && request.id !in s.accepted {
      var t := Next(s, Send(request));
      assert t.accepted[..|s.accepted|] == s.accepted;
      assert Ids(t.queue) == Ids(s.queue) + [request.id];
      assert request.id !in SettledIds(s.settlements);
    }
  }

  lemma NextKeepsInv(s: State, step: Step)
    requires Inv(s)
    ensures Inv(Next(s, step))
  {
    match step
    case SetConnected(connected) => if !connected { DisconnectKeepsInv(s); }
    case Send(request) => SendKeepsInv(s, request);
    case Timeout(id) =>
      if id in s.timers {
        QueuedIsFound(s, id);
        SettleKeepsInv(s, id, Rejected(TimedOut));
      }
    case Result(id, success, result) =>
      if Find(s.queue, id) < |s.queue| {
        SettleKeepsInv(s, id, if success then Resolved(result) else Rejected(Reported(result)));
      }
  }

  lemma QueuedIsFound(s: State, id: Id)
    requires id in Ids(s.queue)
    ensures Find(s.queue, id) < |s.queue|
  {
    var i :| 0 <= i < |s.queue| && Ids(s.queue)[i] == id;
  }

  lemma {:induction false} RunKeepsInv(steps: seq<Step>)
    ensures Inv(Run(steps))
  {
    if steps != [] {
      RunKeepsInv(steps[..|steps| - 1]);
      NextKeepsInv(Run(steps[..|steps| - 1]), steps[|steps| - 1]);
    }
  }

  function CountId(ids: seq<Id>, id: Id): nat {
    multiset(ids)[id]
  }

  /** Exactly-once settlement: at any point of any run an accepted request is either in the queue, once,
      or settled, once; no other request is settled; the live timers are those of the queue; and without
      a connection nothing waits. */
  lemma {:induction false} SettledExactlyOnce(steps: seq<Step>, id: Id)
    ensures
      var s := Run(steps);
      && CountId(Ids(s.queue), id) + CountId(SettlementIds(s.settlements), id) == (if id in s.accepted then 1 else 0)
      && (id in s.timers <==> id in Ids(s.queue))
      && (!s.connected ==> s.queue == [])
  {
    RunKeepsInv(steps);
    var s := Run(steps);
    var settled := SettledIds(s.settlements);
    UnsettledFacts(s.accepted, settled);
    DistinctCount(Ids(s.queue), id);
    DistinctCount(SettlementIds(s.settlements), id);
    assert id in SettlementIds(s.settlements) <==> id in settled by {
      if id in settled {
        var p :| p in s.settlements && p.id == id;
        var k :| 0 <= k < |s.settlements| && s.settlements[k] == p;
        assert SettlementIds(s.settlements)[k] == id;
      }
    }
  }

  lemma {:induction false} DistinctCount(ids: seq<Id>, id: Id)
    requires Distinct(ids)
    ensures CountId(ids, id) == if id in ids then 1 else 0
  {
    if ids != [] {
      DistinctCount(ids[1..], id);
      assert ids == [ids[0]] + ids[1..];
    }
  }

  /** What settles a request in this way. */
  ghost predicate Causes(step: Step, p: Settlement) {
    match p.outcome
    case Resolved(result) => step == Result(p.id, true, result)
    case Rejected(Reported(text)) => step == Result(p.id, false, text)
    case Rejected(TimedOut) => step == Timeout(p.id)
    case Rejected(Disconnected) => step == SetConnected(false)
    case Rejected(NoExtension) => false
  }

  /** A caller gets the answer to its own request: every settlement goes back to a result for that id with
      that text, to that request's own timer, or to a disconnect. */
  lemma {:induction false} SettlementsAreTraced(steps: seq<Step>, p: Settlement)
    requires p in Run(steps).settlements
    ensures exists i | 0 <= i < |steps| :: Causes(steps[i], p)
  {
    var n := |steps| - 1;
    if p in Run(steps[..n]).settlements {
      SettlementsAreTraced(steps[..n], p);
      var i :| 0 <= i < n && Causes(steps[..n][i], p);
      assert Causes(steps[i], p);
    } else {
      assert Causes(steps[n], p);
    }
  }

  /** First in, first out: the queue is the list of unsettled requests in send order, so polling offers
      the oldest of them. */
  lemma {:induction false} QueueIsUnsettledInOrder(steps: seq<Step>)
    ensures Ids(Run(steps).queue) == Unsettled(Run(steps).accepted, SettledIds(Run(steps).settlements))
  {
    RunKeepsInv(steps);
  }

  /** Whatever waits in the queue was sent just so, id and action. */
  lemma {:induction false} QueuedWasSent(steps: seq<Step>, request: BrowserAction)
    requires request in Run(steps).queue
    ensures exists i | 0 <= i < |steps| :: steps[i] == Send(request)
  {
    var n := |steps| - 1;
    if request in Run(steps[..n]).queue {
      QueuedWasSent(steps[..n], request);
      var i :| 0 <= i < n && steps[..n][i] == Send(request);
      assert steps[i] == Send(request);
    } else {
      assert steps[n] == Send(request);
    }
  }

  /** So what polling offers is a request as it was sent, the oldest of those that still wait. */
  lemma {:induction false} PollOffersWhatWasSent(steps: seq<Step>)
    requires Run(steps).queue != []
    ensures
      var s := Run(steps);
      && (exists i | 0 <= i < |steps| :: steps[i] == Send(s.queue[0]))
      && Unsettled(s.accepted, SettledIds(s.settlements)) != []
      && s.queue[0].id == Unsettled(s.accepted, SettledIds(s.settlements))[0]
  {
    QueuedWasSent(steps, Run(steps).queue[0]);
    QueueIsUnsettledInOrder(steps);
    assert Ids(Run(steps).queue)[0] == Run(steps).queue[0].id;
  }

  /** The bridge is connected exactly when the extension's last word was that it is. */
  lemma {:induction false} ConnectedIsLastWord(steps: seq<Step>)
    ensures
      Run(steps).connected
      <==> exists i | 0 <= i < |steps| ::
             steps[i] == SetConnected(true) && forall j | i < j < |steps| :: steps[j] != SetConnected(false)
  {
    if steps != [] {
      var n := |steps| - 1;
      ConnectedIsLastWord(steps[..n]);
      if Run(steps[..n]).connected && steps[n] != SetConnected(false) {
        var i :| 0 <= i < n && steps[..n][i] == SetConnected(true)
                 && forall j | i < j < n :: steps[..n][j] != SetConnected(false);
        assert steps[i] == SetConnected(true);
        forall j | i < j < |steps|
          ensures steps[j] != SetConnected(false)
        {
          assert j < n ==> steps[..n][j] == steps[j];
        }
      }
      if i :| 0 <= i < |steps| && steps[i] == SetConnected(true)
              && forall j | i < j < |steps| :: steps[j] != SetConnected(false) {
        if i < n {
          assert steps[n] != SetConnected(false) && steps[..n][i] == SetConnected(true);
          forall j | i < j < n
            ensures steps[..n][j] != SetConnected(false)
          {
            assert steps[..n][j] == steps[j];
          }
        }
      }
    }
  }

  /** A request is accepted exactly when it is sent while an extension is connected, under a new id. */
  lemma AcceptedWhileConnected(s: State, step: Step)
    ensures
      Next(s, step).accepted
      == if step.Send? && s.connected && step.request.id !in s.accepted then s.accepted + [step.request.id]
         else s.accepted
  {
  }

  /** Nobody waits for ever: once the timers of all queued requests have fired, every accepted request
      of the run is settled. */
  lemma {:induction false} TimersSettleEverything(steps: seq<Step>)
    ensures
      var s := Run(steps);
      var fire := seq(|s.queue|, i requires 0 <= i < |s.queue| => Timeout(s.queue[i].id));
      var t := RunFrom(s, fire);
      t.queue == [] && t.accepted == s.accepted && forall id | id in t.accepted :: id in SettledIds(t.settlements)
  {
    RunKeepsInv(steps);
    var s := Run(steps);
    var fire := seq(|s.queue|, i requires 0 <= i < |s.queue| => Timeout(s.queue[i].id));
    FireInOrder(s, fire, |fire|);
    assert fire[..|fire|] == fire;
    var t := RunFrom(s, fire);
    UnsettledFacts(t.accepted, SettledIds(t.settlements));
    assert Ids(t.queue) == [];
  }

  lemma {:induction false} FireInOrder(s: State, fire: seq<Step>, n: nat)
    requires Inv(s) && n <= |fire| == |s.queue|
    requires forall i | 0 <= i < |fire| :: fire[i] == Timeout(s.queue[i].id)
    ensures
      var t := RunFrom(s, fire[..n]);
      Inv(t) && t.queue == s.queue[n..] && t.accepted == s.accepted
  {
    if n > 0 {
      FireInOrder(s, fire, n - 1);
      var t := RunFrom(s, fire[..n - 1]);
      assert fire[..n][..n - 1] == fire[..n - 1];
      assert Ids(t.queue)[0] == s.queue[n - 1].id && Ids(t.queue)[0] in Ids(t.queue);
      NextKeepsInv(t, fire[n - 1]);
      assert Find(t.queue, s.queue[n - 1].id) == 0;
    }
  }
}
