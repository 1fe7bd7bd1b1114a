/** Steering of busy sessions (src/orchestrator.ts, `!stop` in src/commands/builtin.ts).

    Every call of `handleMessage` is a handler. Each stretch of a handler between two awaits is one step,
    and the steps of different handlers interleave freely. */
module Steering {
  import opened Messages

  type Key = string

  /** One inbound message object: its identity and the session it is routed to. */
  datatype Inbound = Inbound(id: nat, key: Key)

  datatype Handler =
    /** Called, but not at the steering check yet: a first delivery or a replay. */
    | Entering(msg: Inbound)
    /** Registered the session's queue and is dispatching; `drained` went into its tool loop. */
    | Running(msg: Inbound, drained: seq<Inbound>)
    /** Found the session busy, queued its message and returned. */
    | Deferred
    | Finished(msg: Inbound, drained: seq<Inbound>)
    /** Answered with the rate limiter's notice. */
    | Limited(msg: Inbound)

  datatype State = State(
    queues: map<Key, seq<Inbound>>,
    cancels: set<Key>,
    handlers: seq<Handler>,
    received: set<Inbound>)

  const IDLE := State(map[], {}, [], {})

  datatype Step =
    | Receive(m: Inbound)
    | Limit(h: nat)
    | Check(h: nat)
    | Poll(h: nat)
    | Stop(key: Key)
    | Finish(h: nat)

  predicate IsEntering(s: State, h: nat) {
    h < |s.handlers| && s.handlers[h].Entering?
  }

  predicate IsRunning(s: State, h: nat) {
    h < |s.handlers| && s.handlers[h].Running?
  }

  predicate RunsOn(s: State, h: nat, key: Key) {
    IsRunning(s, h) && s.handlers[h].msg.key == key
  }

  function QueueOf(s: State, key: Key): seq<Inbound> {
    if key in s.queues then s.queues[key] else []
  }

  function Replays(leftovers: seq<Inbound>): seq<Handler> {
    seq(|leftovers|, i requires 0 <= i < |leftovers| => Entering(leftovers[i]))
  }

  /** Steps that are not enabled leave the state alone; a message object is delivered once. */
  function Next(s: State, step: Step): State {
    match step
    case Receive(m) =>
      if m in s.received then s
      else s.(handlers := s.handlers + [Entering(m)], received := s.received + {m})
    case Limit(h) =>
      if IsEntering(s, h) then s.(handlers := s.handlers[h := Limited(s.handlers[h].msg)]) else s
    case Check(h) =>
      if !IsEntering(s, h) then s
      else
        var m := s.handlers[h].msg;
        if m.key in s.queues then
          s.(queues := s.queues[m.key := s.queues[m.key] + [m]], handlers := s.handlers[h := Deferred])
        else
          s.(queues := s.queues[m.key := []], handlers := s.handlers[h := Running(m, [])])
    case Poll(h) =>
      if !IsRunning(s, h) then s
      else
        var run := s.handlers[h];
        s.(queues := if run.msg.key in s.queues then s.queues[run.msg.key := []] else s.queues,
           handlers := s.handlers[h := Running(run.msg, run.drained + QueueOf(s, run.msg.key))])
    case Stop(key) =>
      if key in s.queues then s.(cancels := s.cancels + {key}) else s
    case Finish(h) =>
      if !IsRunning(s, h) then s
      else
        var run := s.handlers[h];
        s.(cancels := s.cancels - {run.msg.key},
           queues := s.queues - {run.msg.key},
           handlers := s.handlers[h := Finished(run.msg, run.drained)] + Replays(QueueOf(s, run.msg.key)))
  }

  function RunFrom(s: State, steps: seq<Step>): State {
    if steps == [] then s else Next(RunFrom(s, steps[..|steps| - 1]), steps[|steps| - 1])
  }

  function Run(steps: seq<Step>): State {
    RunFrom(IDLE, steps)
  }

  /** The orchestrator's own fields, changed in place. */
  class Orchestrator {
    var steeringQueues: map<Key, seq<Inbound>>
    var cancelRequests: set<Key>
    var handlers: seq<Handler>
    ghost var received: set<Inbound>

    ghost function View(): State
      reads this
    {
      State(steeringQueues, cancelRequests, handlers, received)
    }

    constructor ()
      ensures View() == IDLE
    {
      steeringQueues, cancelRequests, handlers, received := map[], {}, [], {};
    }

    method HandleMessage(m: Inbound) returns (h: nat)
      requires m !in received
      modifies this`handlers, this`received
      ensures View() == Next(old(View()), Receive(m))
      ensures h == |old(handlers)|
    {
      h := |handlers|;
      handlers := handlers + [Entering(m)];
      received := received + {m};
    }

    method AnswerRateLimited(h: nat)
      requires h < |handlers| && handlers[h].Entering?
      modifies this`handlers
      ensures View() == Next(old(View()), Limit(h))
    {
      handlers := handlers[h := Limited(handlers[h].msg)];
    }

    /** The steering check: fold into the running dispatch, or register a queue and become it. */
    method SteeringCheck(h: nat) returns (queued: bool)
      requires h < |handlers| && handlers[h].Entering?
      modifies this`handlers, this`steeringQueues
      ensures queued == (old(handlers[h]).msg.key in old(steeringQueues))
      ensures View() == Next(old(View()), Check(h))
    {
      var msg := handlers[h].msg;
      if msg.key in steeringQueues {
        var activeQueue := steeringQueues[msg.key];
        activeQueue := activeQueue + [msg];
        steeringQueues := steeringQueues[msg.key := activeQueue];
        handlers := handlers[h := Deferred];
        return true;
      }
      steeringQueues := steeringQueues[msg.key := []];
      handlers := handlers[h := Running(msg, [])];
      return false;
    }

    /** The `pollSteering` closure of a running handler: `splice(0)` on its session's queue. */
    method PollSteering(h: nat) returns (drained: seq<Inbound>)
      requires h < |handlers| && handlers[h].Running?
      modifies this`handlers, this`steeringQueues
      ensures drained == QueueOf(old(View()), old(handlers[h]).msg.key)
      ensures View() == Next(old(View()), Poll(h))
    {
      var run := handlers[h];
      drained := [];
      if run.msg.key in steeringQueues {
        drained := steeringQueues[run.msg.key];
        steeringQueues := steeringQueues[run.msg.key := []];
      }
      handlers := handlers[h := Running(run.msg, run.drained + drained)];
    }

    method StopCommand(key: Key) returns (active: bool)
      modifies this`cancelRequests
      ensures active == (key in steeringQueues)
      ensures View() == Next(old(View()), Stop(key))
    {
      active := key in steeringQueues;
      if active {
        cancelRequests := cancelRequests + {key};
      }
    }

    /** The `finally` block: release the session, then start one replay per undrained message. */
    method FinishHandler(h: nat)
      requires h < |handlers| && handlers[h].Running?
      modifies this`handlers, this`steeringQueues, this`cancelRequests
      ensures View() == Next(old(View()), Finish(h))
      ensures
        var undrained := QueueOf(old(View()), old(handlers[h]).msg.key);
        && |handlers| == |old(handlers)| + |undrained|
        && forall i | 0 <= i < |undrained| :: handlers[|old(handlers)| + i] == Entering(undrained[i])
    {
      var run := handlers[h];
      var key := run.msg.key;
      cancelRequests := cancelRequests - {key};
      var leftovers := if key in steeringQueues then steeringQueues[key] else [];
      steeringQueues := steeringQueues - {key};
      handlers := handlers[h := Finished(run.msg, run.drained)];
      ghost var settled := handlers;
      for i := 0 to |leftovers|
        invariant handlers == settled + Replays(leftovers[..i])
        modifies this`handlers
      {
        handlers := handlers + [Entering(leftovers[i])];
        assert Replays(leftovers[..i + 1]) == Replays(leftovers[..i]) + [Entering(leftovers[i])];
      }
      assert leftovers[..|leftovers|] == leftovers;
    }
  }
}
