/** The confirmation gate around tool calls (src/dispatch.ts), together with the ledger entries it records
    and the confirm path that later runs them (src/security/pending-actions.ts, confirm-handler.ts). */
module ConfirmGate {
  import opened Messages

  type Tool = string
  type Params = string
  type Principal = string

  // ------------------------------------------------------------ which tools are gated

  const CRON_BLOCKED_TOOLS: set<Tool> :=
    {"write_file", "task_add", "task_update", "task_done", "task_remove", "workspace_write", "memory_save"}

  predicate CronAllows(tool: Tool, category: string) {
    && tool !in CRON_BLOCKED_TOOLS
    && (tool == "exec" ==> category == "exec")
    && (tool == "send_message" ==> category == "message")
  }

  /** `tools.filter(...)`: order and repetitions are kept. */
  function FilterCronTools(tools: seq<Tool>, category: string): (kept: seq<Tool>)
    ensures forall t :: t in kept <==> t in tools && CronAllows(t, category)
  {
    if tools == [] then []
    else (if CronAllows(tools[0], category) then [tools[0]] else []) + FilterCronTools(tools[1..], category)
  }

  /** The filter looks at one tool at a time, so it keeps order and repetitions. */
  lemma {:induction false} FilterIsToolByTool(tools: seq<Tool>, more: seq<Tool>, category: string)
    ensures FilterCronTools(tools + more, category)
            == FilterCronTools(tools, category) + FilterCronTools(more, category)
  {
    if tools == [] {
      assert tools + more == more;
    } else {
      assert (tools + more)[1..] == tools[1..] + more;
      FilterIsToolByTool(tools[1..], more, category);
    }
  }

  lemma FilterOfOne(t: Tool, category: string)
    ensures FilterCronTools([], category) == []
    ensures FilterCronTools([t], category) == if CronAllows(t, category) then [t] else []
  {
    assert [t][1..] == [];
  }

  /** What a scheduled job may not do: change files, tasks or memory, whatever it was scheduled for; run commands
      unless it is an exec job; send messages unless it is a message job. Everything else stays. */
  lemma {:induction false} CronKeeps(tools: seq<Tool>, category: string, t: Tool)
    ensures
      t in FilterCronTools(tools, category)
      <==> t in tools
           && match t
              case "write_file" => false
              case "task_add" => false
              case "task_update" => false
              case "task_done" => false
              case "task_remove" => false
              case "workspace_write" => false
              case "memory_save" => false
              case "exec" => category == "exec"
              case "send_message" => category == "message"
              case _ => true
  {
  }

  /** The tool an owner-scheduled job was approved for by being scheduled. */
  function CategoryTool(cronMode: bool, category: string): set<Tool> {
    if !cronMode then {}
    else if category == "message" then {"send_message"}
    else if category == "exec" then {"exec"}
    else {}
  }

  method ResolveConfirmSet(confirmTools: set<Tool>, metadata: set<Tool>, autoApproveTools: seq<Tool>,
                           cronMode: bool, category: string)
    returns (confirm: set<Tool>)
    ensures confirm == confirmTools + (metadata - (set t | t in autoApproveTools) - CategoryTool(cronMode, category))
    ensures
      forall t ::
        t in confirm
        <==> || t in confirmTools
             || (t in metadata && t !in autoApproveTools
                 && !(cronMode && category == "message" && t == "send_message")
                 && !(cronMode && category == "exec" && t == "exec"))
  {
    confirm := confirmTools + metadata;
    for i := 0 to |autoApproveTools|
      invariant confirm == confirmTools + (metadata - (set t | t in autoApproveTools[..i]))
    {
      var t := autoApproveTools[i];
      assert autoApproveTools[..i + 1] == autoApproveTools[..i] + [t];
      if t !in confirmTools {
        confirm := confirm - {t};
      }
    }
    assert autoApproveTools[..|autoApproveTools|] == autoApproveTools;
    if cronMode {
      if category == "message" {
        if "send_message" !in confirmTools {
          confirm := confirm - {"send_message"};
        }
      } else if category == "exec" {
        if "exec" !in confirmTools {
          confirm := confirm - {"exec"};
        }
      }
    }
  }

  // ------------------------------------------------------------ one dispatch and what follows from it

  datatype Policy = Policy(allowed: set<Tool>, confirm: set<Tool>, registered: set<Tool>, sender: Principal)

  datatype Entry = Entry(tool: Tool, params: Params, sender: Principal)

  datatype Reason = Ungated | Granted | Confirmed(entry: nat)

  /** One execution of a tool, and why it was let through. */
  datatype Execution = Execution(tool: Tool, params: Params, reason: Reason)

  datatype Reply =
    | ScopeDenied
    /** The tool is not registered, which the executor reports by throwing. */
    | NotFound
    | Executed
    | LedgerUnwritable
    | Preview(entry: nat)

  /** `issued` lists every entry this dispatch recorded; `open` are the ids still in the ledger. */
  datatype State = State(
    issued: seq<Entry>,
    open: set<nat>,
    recordedPending: seq<(nat, Tool)>,
    executions: seq<Execution>,
    learnedErrors: seq<Tool>)

  const START := State([], {}, [], [], [])

  function Scoped(allowed: set<Tool>, registered: set<Tool>, s: State, tool: Tool, params: Params, reason: Reason)
    : (State, Reply)
  {
    if tool !in allowed then (s, ScopeDenied)
    else if tool !in registered then (s, NotFound)
    else (s.(executions := s.executions + [Execution(tool, params, reason)]), Executed)
  }

  /** A gated call; `granted` is what the grant store answers for it. */
  function Call(p: Policy, s: State, tool: Tool, params: Params, granted: bool, writable: bool): (State, Reply) {
    if tool in p.allowed && tool in p.confirm then
      if granted then Scoped(p.allowed, p.registered, s, tool, params, Granted)
      else if !writable then (s, LedgerUnwritable)
      else
        var id := |s.issued|;
        (s.(issued := s.issued + [Entry(tool, params, p.sender)], open := s.open + {id},
            recordedPending := s.recordedPending + [(id, tool)]),
         Preview(id))
    else Scoped(p.allowed, p.registered, s, tool, params, Ungated)
  }

  /** "confirm <id>": the entry must be the sender's, its removal must persist, and today's policy must
      still allow the tool; then exactly the stored call runs. */
  function Confirm(p: Policy, s: State, id: nat, sender: Principal, persisted: bool, policyAllows: bool): State {
    if id !in s.open || id >= |s.issued| || s.issued[id].sender != sender || !persisted then s
    else
      var used := s.(open := s.open - {id});
      var e := s.issued[id];
      if policyAllows then Scoped({e.tool}, p.registered, used, e.tool, e.params, Confirmed(id)).0 else used
  }

  datatype Step =
    | ReActCall(tool: Tool, params: Params, granted: bool, writable: bool)
    | PipelineCall(tool: Tool, params: Params, granted: bool, writable: bool)
    | ConfirmEntry(id: nat, sender: Principal, persisted: bool, policyAllows: bool)
    /** Denied, expired, or cancelled as a replay. */
    | CloseEntry(id: nat)

  function Next(p: Policy, s: State, step: Step): State {
    match step
    case ReActCall(tool, params, granted, writable) => Call(p, s, tool, params, granted, writable).0
    case PipelineCall(tool, params, granted, writable) =>
      var (t, reply) := Call(p, s, tool, params, granted, writable);
      if reply.NotFound? then t.(learnedErrors := s.learnedErrors + [tool]) else t
    case ConfirmEntry(id, sender, persisted, policyAllows) => Confirm(p, s, id, sender, persisted, policyAllows)
    case CloseEntry(id) => s.(open := s.open - {id})
  }

  function Run(p: Policy, steps: seq<Step>): State {
    if steps == [] then START else Next(p, Run(p, steps[..|steps| - 1]), steps[|steps| - 1])
  }

  /** The executors of one dispatch over their shared state. */
  class Dispatch {
    const p: Policy
    var issued: seq<Entry>
    var open: set<nat>
    var recordedPending: seq<(nat, Tool)>
    var executions: seq<Execution>
    var learnedErrors: seq<Tool>

    ghost function View(): State
      reads this
    {
      State(issued, open, recordedPending, executions, learnedErrors)
    }

    constructor (p: Policy)
      ensures this.p == p && View() == START
    {
      this.p := p;
      issued, open, recordedPending, executions, learnedErrors := [], {}, [], [], [];
    }

    /** `createScopedExecutor`. */
    method ScopedExecutor(allowed: set<Tool>, tool: Tool, params: Params, reason: Reason) returns (reply: Reply)
      modifies this`executions
      ensures (View(), reply) == Scoped(allowed, p.registered, old(View()), tool, params, reason)
    {
      if tool !in allowed {
        return ScopeDenied;
      }
      if tool !in p.registered {
        return NotFound;
      }
      executions := executions + [Execution(tool, params, reason)];
      return Executed;
    }

    method RecordPending(tool: Tool, params: Params, writable: bool) returns (id: Option<nat>)
      modifies this`issued, this`open
      ensures id == if writable then Some(|old(issued)|) else None
      ensures issued == if writable then old(issued) + [Entry(tool, params, p.sender)] else old(issued)
      ensures open == if writable then old(open) + {|old(issued)|} else old(open)
    {
      if !writable {
        return None;
      }
      id := Some(|issued|);
      open := open + {|issued|};
      issued := issued + [Entry(tool, params, p.sender)];
    }

    /** The executor handed to the ReAct tool loop (`runSpecialist`). */
    method ReActExecutor(tool: Tool, params: Params, granted: bool, writable: bool) returns (reply: Reply)
      modifies this
      ensures View() == Next(p, old(View()), ReActCall(tool, params, granted, writable))
      ensures reply == Call(p, old(View()), tool, params, granted, writable).1
    {
      if |p.confirm| > 0 {
        if tool !in p.allowed {
          reply := ScopedExecutor(p.allowed, tool, params, Ungated);
          return;
        }
        if tool in p.confirm {
          if granted {
            reply := ScopedExecutor(p.allowed, tool, params, Granted);
            return;
          }
          var recorded := RecordPending(tool, params, writable);
          if recorded.None? {
            return LedgerUnwritable;
          }
          recordedPending := recordedPending + [(recorded.value, tool)];
          return Preview(recorded.value);
        }
      }
      reply := ScopedExecutor(p.allowed, tool, params, Ungated);
    }

    /** The executor handed to a pipeline (`runPipelineDispatch`): the same gate inside a wrapper that
        records what is thrown. */
    method PipelineExecutor(tool: Tool, params: Params, granted: bool, writable: bool) returns (reply: Reply)
      modifies this
      ensures View() == Next(p, old(View()), PipelineCall(tool, params, granted, writable))
      ensures reply == Call(p, old(View()), tool, params, granted, writable).1
    {
      reply := GatedExecutor(tool, params, granted, writable);
      if reply.NotFound? {
        learnedErrors := learnedErrors + [tool];
      }
    }

    method GatedExecutor(tool: Tool, params: Params, granted: bool, writable: bool) returns (reply: Reply)
      modifies this
      ensures (View(), reply) == Call(p, old(View()), tool, params, granted, writable)
    {
      if |p.confirm| > 0 {
        if tool !in p.allowed {
          reply := ScopedExecutor(p.allowed, tool, params, Ungated);
          return;
        }
        if tool in p.confirm {
          if granted {
            reply := ScopedExecutor(p.allowed, tool, params, Granted);
            return;
          }
          var recorded := RecordPending(tool, params, writable);
          if recorded.None? {
            return LedgerUnwritable;
          }
          recordedPending := recordedPending + [(recorded.value, tool)];
          return Preview(recorded.value);
        }
      }
      reply := ScopedExecutor(p.allowed, tool, params, Ungated);
    }

    /** `handleConfirmation` for "confirm <id>": consume first, then re-check the policy, then run. */
    method HandleConfirmation(id: nat, sender: Principal, persisted: bool, policyAllows: bool)
      modifies this`open, this`executions
      ensures View() == Next(p, old(View()), ConfirmEntry(id, sender, persisted, policyAllows))
    {
      if id !in open || id >= |issued| || issued[id].sender != sender {
        return;
      }
      if !persisted {
        return;
      }
      open := open - {id};
      if !policyAllows {
        return;
      }
      var e := issued[id];
      var _ := ScopedExecutor({e.tool}, e.tool, e.params, Confirmed(id));
    }
  }

  // ------------------------------------------------------------ what every run keeps

  /** Why each execution was right. */
  ghost predicate Justified(p: Policy, s: State, x: Execution) {
    match x.reason
    case Ungated => x.tool in p.allowed && x.tool !in p.confirm
    case Granted => x.tool in p.allowed && x.tool in p.confirm
    case Confirmed(id) =>
      id < |s.issued| && id !in s.open && s.issued[id].tool == x.tool && s.issued[id].params == x.params
  }

  ghost predicate Inv(p: Policy, s: State) {
    && (forall x | x in s.executions :: Justified(p, s, x))
    && (forall i, j | 0 <= i < j < |s.executions| ::
          s.executions[i].reason.Confirmed? ==> s.executions[j].reason != s.executions[i].reason)
    && (forall e | e in s.issued :: e.tool in p.allowed && e.tool in p.confirm && e.sender == p.sender)
    && (forall id | id in s.open :: id < |s.issued|)
    && |s.recordedPending| == |s.issued|
    && (forall i | 0 <= i < |s.issued| :: s.recordedPending[i] == (i, s.issued[i].tool))
  }

  lemma CallKeepsInv(p: Policy, s: State, tool: Tool, params: Params, granted: bool, writable: bool)
    requires Inv(p, s)
    ensures Inv(p, Call(p, s, tool, params, granted, writable).0)
  {
    var t := Call(p, s, tool, params, granted, writable).0;
    forall x | x in t.executions
      ensures Justified(p, t, x)
    {
      assert x in s.executions ==> Justified(p, s, x);
    }
  }

  lemma ConfirmKeepsInv(p: Policy, s: State, id: nat, sender: Principal, persisted: bool, policyAllows: bool)
    requires Inv(p, s)
    ensures Inv(p, Confirm(p, s, id, sender, persisted, policyAllows))
  {
    var t := Confirm(p, s, id, sender, persisted, policyAllows);
    forall x | x in t.executions
      ensures Justified(p, t, x)
    {
      assert x in s.executions ==> Justified(p, s, x);
    }
    forall i | 0 <= i < |s.executions|
      ensures id in s.open ==> s.executions[i].reason != Confirmed(id)
    {
      assert Justified(p, s, s.executions[i]);
    }
  }

  lemma NextKeepsInv(p: Policy, s: State, step: Step)
    requires Inv(p, s)
    ensures Inv(p, Next(p, s, step))
  {
    match step
    case ReActCall(tool, params, granted, writable) => CallKeepsInv(p, s, tool, params, granted, writable);
    case PipelineCall(tool, params, granted, writable) =>
      CallKeepsInv(p, s, tool, params, granted, writable);
      ErrorsDoNotMatter(p, Call(p, s, tool, params, granted, writable).0, s.learnedErrors + [tool]);
    case ConfirmEntry(id, sender, persisted, policyAllows) =>
      ConfirmKeepsInv(p, s, id, sender, persisted, policyAllows);
    case CloseEntry(id) =>
      forall x | x in s.executions
        ensures Justified(p, s.(open := s.open - {id}), x)
      {
        assert Justified(p, s, x);
      }
  }

  lemma ErrorsDoNotMatter(p: Policy, s: State, learnedErrors: seq<Tool>)
    requires Inv(p, s)
    ensures Inv(p, s.(learnedErrors := learnedErrors))
  {
    forall x | x in s.executions
      ensures Justified(p, s.(learnedErrors := learnedErrors), x)
    {
      assert Justified(p, s, x);
    }
  }

  lemma {:induction false} RunKeepsInv(p: Policy, steps: seq<Step>)
    ensures Inv(p, Run(p, steps))
  {
    if steps != [] {
      RunKeepsInv(p, steps[..|steps| - 1]);
      NextKeepsInv(p, Run(p, steps[..|steps| - 1]), steps[|steps| - 1]);
    }
  }

  /** A tool outside the scoped list neither runs nor leaves an entry that could run later; a tool in the
      confirm set runs only under a grant or as the stored call of its own entry; and no entry runs twice. */
  lemma {:induction false} GatedToolsNeedApproval(p: Policy, steps: seq<Step>, x: Execution)
    requires x in Run(p, steps).executions
    ensures
      var s := Run(p, steps);
      && x.tool in p.allowed
      && (x.tool in p.confirm ==>
            || x.reason == Granted
            || (x.reason.Confirmed? && x.reason.entry < |s.issued|
                && s.issued[x.reason.entry] == Entry(x.tool, x.params, p.sender)))
      && (x.reason.Confirmed? ==> multiset(s.executions)[x] == 1)
  {
    RunKeepsInv(p, steps);
    var s := Run(p, steps);
    assert Justified(p, s, x);
    if x.reason.Confirmed? {
      assert s.issued[x.reason.entry] in s.issued;
      OnceOnly(s.executions, x);
    }
  }

  lemma {:induction false} OnceOnly(xs: seq<Execution>, x: Execution)
    requires x in xs
    requires forall i, j | 0 <= i < j < |xs| && xs[i] == x :: xs[j] != x
    ensures multiset(xs)[x] == 1
  {
    assert xs == [xs[0]] + xs[1..];
    if xs[0] == x {
      assert x !in xs[1..];
    } else {
      OnceOnly(xs[1..], x);
    }
  }

  /** The step that let this execution through. */
  ghost predicate LetsThrough(p: Policy, step: Step, x: Execution) {
    match step
    case ReActCall(tool, params, granted, _) => IsCallOf(tool, params, granted, x)
    case PipelineCall(tool, params, granted, _) => IsCallOf(tool, params, granted, x)
    case ConfirmEntry(id, sender, persisted, policyAllows) =>
      x.reason == Confirmed(id) && sender == p.sender && persisted && policyAllows
    case CloseEntry(_) => false
  }

  ghost predicate IsCallOf(tool: Tool, params: Params, granted: bool, x: Execution) {
    tool == x.tool && params == x.params && (x.reason == Ungated || (x.reason == Granted && granted))
  }

  /** Whatever ran, a step of this run let it through: the very call, with a grant where one is the reason,
      or the confirmation by the sender, durably recorded and still allowed by the policy. */
  lemma {:induction false} ExecutionsAreTraced(p: Policy, steps: seq<Step>, x: Execution)
    requires x in Run(p, steps).executions
    ensures exists i | 0 <= i < |steps| :: LetsThrough(p, steps[i], x)
  {
    var n := |steps| - 1;
    var s := Run(p, steps[..n]);
    if x in s.executions {
      ExecutionsAreTraced(p, steps[..n], x);
      var i :| 0 <= i < n && LetsThrough(p, steps[..n][i], x);
      assert LetsThrough(p, steps[i], x);
    } else {
      RunKeepsInv(p, steps[..n]);
      NewExecution(p, s, steps[n], x);
    }
  }

  lemma NewExecution(p: Policy, s: State, step: Step, x: Execution)
    requires Inv(p, s) && x !in s.executions && x in Next(p, s, step).executions
    ensures LetsThrough(p, step, x)
  {
    if step.ConfirmEntry? {
      assert s.issued[step.id] in s.issued;
    }
  }

  lemma {:induction false} OutOfScopeLeavesNoTrace(p: Policy, steps: seq<Step>, e: Entry)
    requires e in Run(p, steps).issued
    ensures e.tool in p.allowed && e.tool in p.confirm && e.sender == p.sender
  {
    RunKeepsInv(p, steps);
  }

  /** What the dispatch hands back is the list of its own entries, in the order of the calls. */
  lemma {:induction false} PendingListIsCallOrder(p: Policy, steps: seq<Step>)
    ensures
      var s := Run(p, steps);
      s.recordedPending == seq(|s.issued|, i requires 0 <= i < |s.issued| => (i, s.issued[i].tool))
  {
    RunKeepsInv(p, steps);
  }

  /** The call itself would run, were the tool registered: it is in scope, and not gated or granted. */
  predicate Clear(p: Policy, tool: Tool, granted: bool) {
    tool in p.allowed && (tool in p.confirm ==> granted)
  }

  /** The sender confirms an entry that is still open, and the removal persists. */
  predicate Uses(s: State, step: Step, id: nat) {
    step.ConfirmEntry? && step.id == id && id in s.open && id < |s.issued| && s.issued[id].sender == step.sender
    && step.persisted
  }

  /** What runs at a step: the called tool if it is clear and registered, or the stored call of an entry that is
      used while the policy allows it and the tool is registered; nothing else. */
  lemma {:induction false} WhatRuns(p: Policy, steps: seq<Step>)
    requires steps != []
    ensures
      var n := |steps| - 1;
      var s, t := Run(p, steps[..n]), Run(p, steps);
      t.executions
      == s.executions
         + match steps[n]
           case ReActCall(tool, params, granted, _) =>
             if Clear(p, tool, granted) && tool in p.registered
             then [Execution(tool, params, if tool in p.confirm then Granted else Ungated)] else []
           case PipelineCall(tool, params, granted, _) =>
             if Clear(p, tool, granted) && tool in p.registered
             then [Execution(tool, params, if tool in p.confirm then Granted else Ungated)] else []
           case ConfirmEntry(id, _, _, policyAllows) =>
             if Uses(s, steps[n], id) && policyAllows && s.issued[id].tool in p.registered
             then [Execution(s.issued[id].tool, s.issued[id].params, Confirmed(id))] else []
           case CloseEntry(_) => []
  {
  }

  /** What is recorded at a step: a call in scope that is gated, not granted and can be written down. */
  lemma {:induction false} WhatIsRecorded(p: Policy, steps: seq<Step>)
    requires steps != []
    ensures
      var n := |steps| - 1;
      var s, t, step := Run(p, steps[..n]), Run(p, steps), steps[n];
      var recorded :=
        && (step.ReActCall? || step.PipelineCall?)
        && step.tool in p.allowed && step.tool in p.confirm && !step.granted && step.writable;
      && t.issued == (if recorded then s.issued + [Entry(step.tool, step.params, p.sender)] else s.issued)
      && (forall id :: id in t.open
                       <==> || (recorded && id == |s.issued|)
                            || (id in s.open && !Uses(s, step, id) && step != CloseEntry(id)))
  {
    RunKeepsInv(p, steps[..|steps| - 1]);
  }

  /** What a pipeline learns from: a tool that is not registered and would have run. */
  lemma {:induction false} WhatIsLearned(p: Policy, steps: seq<Step>)
    requires steps != []
    ensures
      var n := |steps| - 1;
      var step := steps[n];
      Run(p, steps).learnedErrors
      == Run(p, steps[..n]).learnedErrors
         + if step.PipelineCall? && Clear(p, step.tool, step.granted) && step.tool !in p.registered
           then [step.tool] else []
  {
  }

  /** What the model is told: the scope denial comes before everything else, and a preview names the entry that
      a confirmation will run. */
  lemma {:induction false} WhatIsReplied(
    p: Policy, s: State, tool: Tool, params: Params, granted: bool, writable: bool)
    ensures
      var (t, reply) := Call(p, s, tool, params, granted, writable);
      && (reply == ScopeDenied <==> tool !in p.allowed)
      && (reply == Executed <==> Clear(p, tool, granted) && tool in p.registered)
      && (reply == NotFound <==> Clear(p, tool, granted) && tool !in p.registered)
      && (reply == LedgerUnwritable <==> tool in p.allowed && !Clear(p, tool, granted) && !writable)
      && (reply.Preview? <==> tool in p.allowed && !Clear(p, tool, granted) && writable)
      && (reply.Preview? ==> reply.entry in t.open && reply.entry < |t.issued|
                             && t.issued[reply.entry] == Entry(tool, params, p.sender))
  {
  }

  function AsPipeline(step: Step): Step {
    match step
    case ReActCall(tool, params, granted, writable) => PipelineCall(tool, params, granted, writable)
    case _ => step
  }

  /** Routing a dispatch through a pipeline gates it no differently. */
  lemma {:induction false} ExecutorsAgree(p: Policy, steps: seq<Step>)
    ensures
      var s := Run(p, steps);
      var t := Run(p, seq(|steps|, i requires 0 <= i < |steps| => AsPipeline(steps[i])));
      t.(learnedErrors := s.learnedErrors) == s
  {
    var routed := seq(|steps|, i requires 0 <= i < |steps| => AsPipeline(steps[i]));
    if steps != [] {
      var n := |steps| - 1;
      ExecutorsAgree(p, steps[..n]);
      assert routed[..n] == seq(n, i requires 0 <= i < n => AsPipeline(steps[..n][i]));
      SameButForErrors(p, Run(p, steps[..n]), Run(p, routed[..n]), steps[n]);
    }
  }

  lemma SameButForErrors(p: Policy, s: State, t: State, step: Step)
    requires t.(learnedErrors := s.learnedErrors) == s
    ensures
      var s', t' := Next(p, s, step), Next(p, t, AsPipeline(step));
      t'.(learnedErrors := s'.learnedErrors) == s'
  {
  }

  /** In cron mode no blocked tool ever runs, whatever is called, granted or confirmed. */
  lemma {:induction false} CronNeverRunsBlockedTools(
    p: Policy, tools: seq<Tool>, category: string, steps: seq<Step>, x: Execution)
    requires p.allowed == set t | t in FilterCronTools(tools, category)
    requires x in Run(p, steps).executions
    ensures x.tool in tools && CronAllows(x.tool, category)
  {
    GatedToolsNeedApproval(p, steps, x);
  }
}
