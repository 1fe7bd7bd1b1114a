/** History compaction (src/context/compactor.ts): pruning and sanitising in place, and the two
    synchronous halves of a build, before and after it waits for the summariser. */
module Compactor {
  import opened Messages
  import opened Tokens

  const STUB := "[Old tool output cleared to save context space]"

  // ------------------------------------------------------------ sanitising tool pairs

  predicate HasCalls(m: Message) {
    m.role.Assistant? && m.toolCalls.Some?
  }

  /** The backward scan from `i`: does it meet an assistant tool call before a user message? */
  predicate Open(ms: seq<Message>, i: nat)
    requires i <= |ms|
  {
    if i == 0 then false
    else if HasCalls(ms[i - 1]) then true
    else if ms[i - 1].role.User? then false
    else Open(ms, i - 1)
  }

  predicate Survives(ms: seq<Message>, i: nat)
    requires i < |ms|
  {
    ms[i].role.Tool? ==> Open(ms, i)
  }

  /** The survivors among the first `n` messages, in order. */
  function Survivors(ms: seq<Message>, n: nat): seq<Message>
    requires n <= |ms|
  {
    if n == 0 then []
    else Survivors(ms, n - 1) + if Survives(ms, n - 1) then [ms[n - 1]] else []
  }

  function Sanitised(ms: seq<Message>): seq<Message> {
    Survivors(ms, |ms|)
  }

  function NonTools(ms: seq<Message>): seq<Message> {
    if ms == [] then []
    else NonTools(ms[..|ms| - 1]) + if ms[|ms| - 1].role.Tool? then [] else [ms[|ms| - 1]]
  }

  /** `NonTools` takes out the tool messages and nothing else, in order. */
  lemma {:induction false} NonToolsMeaning(a: seq<Message>, m: Message, b: seq<Message>)
    ensures NonTools([]) == []
    ensures NonTools(a + [m] + b) == NonTools(a) + (if m.role == Tool then [] else [m]) + NonTools(b)
  {
    if b == [] {
      assert (a + [m])[..|a|] == a && a + [m] + b == a + [m];
    } else {
      var n := |b| - 1;
      var all := a + [m] + b;
      NonToolsMeaning(a, m, b[..n]);
      assert all[..|all| - 1] == a + [m] + b[..n] && all[|all| - 1] == b[n];
    }
  }

  /** Every tool message answers a call made earlier in the same turn. */
  ghost predicate Paired(ms: seq<Message>) {
    forall i | 0 <= i < |ms| && ms[i].role.Tool? ::
      exists j | 0 <= j < i :: HasCalls(ms[j]) && NoUserBetween(ms, j, i)
  }

  ghost predicate NoUserBetween(ms: seq<Message>, j: nat, i: nat)
    requires j < i <= |ms|
  {
    forall k | j < k < i :: !ms[k].role.User?
  }

  lemma {:induction false} OpenMeaning(ms: seq<Message>, i: nat)
    requires i <= |ms|
    ensures Open(ms, i) <==> exists j | 0 <= j < i :: HasCalls(ms[j]) && NoUserBetween(ms, j, i)
  {
    if i > 0 {
      OpenMeaning(ms, i - 1);
      if HasCalls(ms[i - 1]) {
        assert NoUserBetween(ms, i - 1, i);
      } else if !ms[i - 1].role.User? && Open(ms, i - 1) {
        var j :| 0 <= j < i - 1 && HasCalls(ms[j]) && NoUserBetween(ms, j, i - 1);
        assert NoUserBetween(ms, j, i);
      } else {
        forall j | 0 <= j < i && HasCalls(ms[j])
          ensures !NoUserBetween(ms, j, i)
        {
          assert j < i - 1;
          if !ms[i - 1].role.User? {
            assert !NoUserBetween(ms, j, i - 1);
          }
        }
      }
    }
  }

  /** Deleting behind `i` does not change what the scan from `i` finds. */
  lemma {:induction false} SameScan(a: seq<Message>, b: seq<Message>, i: nat)
    requires i <= |a| && i <= |b| && a[..i] == b[..i]
    ensures Open(a, i) == Open(b, i)
  {
    OpenReadsPrefix(a[..i], a[i..], i);
    OpenReadsPrefix(b[..i], b[i..], i);
    assert a == a[..i] + a[i..] && b == b[..i] + b[i..];
  }

  lemma {:induction false} PairedIsSurviving(ms: seq<Message>)
    ensures Paired(ms) <==> forall i | 0 <= i < |ms| :: Survives(ms, i)
  {
    if Paired(ms) {
      forall i | 0 <= i < |ms|
        ensures Survives(ms, i)
      {
        OpenMeaning(ms, i);
      }
    }
    if forall i | 0 <= i < |ms| :: Survives(ms, i) {
      forall i | 0 <= i < |ms| && ms[i].role.Tool?
        ensures exists j | 0 <= j < i :: HasCalls(ms[j]) && NoUserBetween(ms, j, i)
      {
        assert Survives(ms, i);
        OpenMeaning(ms, i);
      }
    }
  }

  lemma {:induction false} OpenReadsPrefix(a: seq<Message>, b: seq<Message>, i: nat)
    requires i <= |a|
    ensures Open(a + b, i) == Open(a, i)
  {
    if i > 0 {
      assert (a + b)[i - 1] == a[i - 1];
      OpenReadsPrefix(a, b, i - 1);
    }
  }

  /** Removing tool messages never closes or opens a call. */
  lemma {:induction false} SurvivorsOpen(ms: seq<Message>, n: nat)
    requires n <= |ms|
    ensures Open(Survivors(ms, n), |Survivors(ms, n)|) == Open(ms, n)
  {
    if n > 0 {
      SurvivorsOpen(ms, n - 1);
      var before, last := Survivors(ms, n - 1), ms[n - 1];
      if Survives(ms, n - 1) {
        assert Survivors(ms, n) == before + [last];
        OpenReadsPrefix(before, [last], |before|);
      } else {
        assert Survivors(ms, n) == before;
      }
    }
  }

  lemma {:induction false} SurvivorsSurvive(ms: seq<Message>, n: nat)
    requires n <= |ms|
    ensures forall i | 0 <= i < |Survivors(ms, n)| :: Survives(Survivors(ms, n), i)
  {
    if n > 0 {
      var before, after, last := Survivors(ms, n - 1), Survivors(ms, n), ms[n - 1];
      SurvivorsSurvive(ms, n - 1);
      SurvivorsOpen(ms, n - 1);
      forall i | 0 <= i < |after|
        ensures Survives(after, i)
      {
        if i < |before| {
          assert after == before + after[|before|..] && Survives(before, i);
          OpenReadsPrefix(before, after[|before|..], i);
        } else {
          assert after == before + [last];
          OpenReadsPrefix(before, [last], i);
        }
      }
    }
  }

  lemma {:induction false} SurvivorsNonTools(ms: seq<Message>, n: nat)
    requires n <= |ms|
    ensures NonTools(Survivors(ms, n)) == NonTools(ms[..n])
  {
    if n > 0 {
      SurvivorsNonTools(ms, n - 1);
      var before, after, last := Survivors(ms, n - 1), Survivors(ms, n), ms[n - 1];
      assert ms[..n][..n - 1] == ms[..n - 1];
      if Survives(ms, n - 1) {
        assert after == before + [last] && after[..|after| - 1] == before;
      } else {
        assert after == before;
      }
    }
  }

  lemma {:induction false} SurvivorsOfPaired(ms: seq<Message>, n: nat)
    requires n <= |ms|
    requires forall i | 0 <= i < |ms| :: Survives(ms, i)
    ensures Survivors(ms, n) == ms[..n]
  {
    if n > 0 {
      SurvivorsOfPaired(ms, n - 1);
    }
  }

  /** What sanitising promises: the survivors are paired, nothing but tool messages is lost or
      reordered, a paired list is a fixed point, and so a second pass changes nothing. */
  lemma SanitisedIsPaired(ms: seq<Message>)
    ensures Paired(Sanitised(ms))
    ensures NonTools(Sanitised(ms)) == NonTools(ms)
    ensures Paired(ms) ==> Sanitised(ms) == ms
    ensures Sanitised(Sanitised(ms)) == Sanitised(ms)
  {
    var clean := Sanitised(ms);
    SurvivorsSurvive(ms, |ms|);
    SurvivorsNonTools(ms, |ms|);
    assert ms[..|ms|] == ms;
    PairedIsSurviving(clean);
    PairedIsSurviving(ms);
    if Paired(ms) {
      SurvivorsOfPaired(ms, |ms|);
    }
    SurvivorsOfPaired(clean, |clean|);
    assert clean[..|clean|] == clean;
  }

  // ------------------------------------------------------------ pruning old tool output

  predicate NonSystem(m: Message) {
    !m.role.System?
  }

  function NonSystemIndices(ms: seq<Message>, n: nat): (indices: seq<nat>)
    requires n <= |ms|
    ensures forall p | 0 <= p < |indices| :: indices[p] < n
  {
    if n == 0 then []
    else NonSystemIndices(ms, n - 1) + if NonSystem(ms[n - 1]) then [n - 1] else []
  }

  /** `array.slice(-n)`, which for 0 is the whole array. */
  function LastN<T>(s: seq<T>, n: nat): (r: seq<T>)
    ensures |r| <= |s| && r == s[|s| - |r|..]
    ensures |r| == if n == 0 || n >= |s| then |s| else n
  {
    if n == 0 || n >= |s| then s else s[|s| - n..]
  }

  predicate Stale(ms: seq<Message>, protectCount: nat, i: nat)
    requires i < |ms|
  {
    && i !in LastN(NonSystemIndices(ms, |ms|), protectCount)
    && ms[i].role.Tool?
    && |ms[i].content| > 200
  }

  function PrunedAt(ms: seq<Message>, protectCount: nat, i: nat): Message
    requires i < |ms|
  {
    if Stale(ms, protectCount, i) then ms[i].(content := STUB) else ms[i]
  }

  function Pruned(ms: seq<Message>, protectCount: nat): seq<Message> {
    seq(|ms|, i requires 0 <= i < |ms| => PrunedAt(ms, protectCount, i))
  }

  function CountNonSystem(ms: seq<Message>): nat {
    if ms == [] then 0 else CountNonSystem(ms[..|ms| - 1]) + if ms[|ms| - 1].role == System then 0 else 1
  }

  lemma {:induction false} IndicesCount(ms: seq<Message>, n: nat)
    requires n <= |ms|
    ensures |NonSystemIndices(ms, n)| == CountNonSystem(ms[..n])
  {
    if n > 0 {
      IndicesCount(ms, n - 1);
      assert ms[..n][..n - 1] == ms[..n - 1];
    }
  }

  /** The place of a non-system message in the index list tells how many of them follow it. */
  lemma {:induction false} IndexPosition(ms: seq<Message>, n: nat, i: nat)
    requires i < n <= |ms| && NonSystem(ms[i])
    ensures |NonSystemIndices(ms, i)| < |NonSystemIndices(ms, n)|
    ensures NonSystemIndices(ms, n)[|NonSystemIndices(ms, i)|] == i
    ensures forall p | 0 <= p < |NonSystemIndices(ms, n)| ::
              NonSystemIndices(ms, n)[p] == i ==> p == |NonSystemIndices(ms, i)|
  {
    if i < n - 1 {
      IndexPosition(ms, n - 1, i);
    }
  }

  lemma {:induction false} IndicesAfter(ms: seq<Message>, i: nat, n: nat)
    requires i <= n <= |ms|
    ensures |NonSystemIndices(ms, n)|
            == |NonSystemIndices(ms, i)| + |NonSystemIndices(ms[i..], n - i)|
  {
    if i < n {
      IndicesAfter(ms, i, n - 1);
      assert ms[i..][n - 1 - i] == ms[n - 1];
    }
  }

  /** A tool result is spared exactly when it is short, when the protection is 0, or when fewer than
      `protectCount` non-system messages come after it. */
  lemma StaleMeaning(ms: seq<Message>, protectCount: nat, i: nat)
    requires i < |ms| && ms[i].role.Tool?
    ensures Stale(ms, protectCount, i)
            <==> |ms[i].content| > 200 && protectCount > 0 && CountNonSystem(ms[i + 1..]) >= protectCount
  {
    var later := |ms| - (i + 1);
    StaleByPosition(ms, protectCount, i);
    IndicesCount(ms[i + 1..], later);
    assert ms[i + 1..][..later] == ms[i + 1..];
  }

  lemma StaleByPosition(ms: seq<Message>, protectCount: nat, i: nat)
    requires i < |ms| && ms[i].role.Tool?
    ensures Stale(ms, protectCount, i)
            <==> |ms[i].content| > 200 && protectCount > 0
                 && |NonSystemIndices(ms[i + 1..], |ms| - (i + 1))| >= protectCount
  {
    var all := NonSystemIndices(ms, |ms|);
    var protect := LastN(all, protectCount);
    var p := |NonSystemIndices(ms, i)|;
    IndexPosition(ms, |ms|, i);
    IndicesAfter(ms, i + 1, |ms|);
    var skip := |all| - |protect|;
    if p >= skip {
      assert protect[p - skip] == i;
    }
  }

  // ------------------------------------------------------------ the mutable message list

  /** The array that the compactor edits in place. */
  class MessageList {
    var items: seq<Message>

    constructor (items: seq<Message>)
      ensures this.items == items
    {
      this.items := items;
    }

    method PruneOldToolResults(protectCount: nat)
      modifies this
      ensures items == Pruned(old(items), protectCount)
    {
      var protect := ProtectedIndices(protectCount);
      ghost var before := items;
      for i := 0 to |items|
        invariant |items| == |before|
        invariant forall k | 0 <= k < i :: items[k] == PrunedAt(before, protectCount, k)
        invariant forall k | i <= k < |items| :: items[k] == before[k]
      {
        if i in protect {
          continue;
        }
        if !items[i].role.Tool? {
          continue;
        }
        if |items[i].content| > 200 {
          items := items[i := items[i].(content := STUB)];
        }
      }
    }

    /** The indices that pruning must not touch. */
    method ProtectedIndices(protectCount: nat) returns (protect: seq<nat>)
      ensures protect == LastN(NonSystemIndices(items, |items|), protectCount)
    {
      var nonSystem: seq<nat> := [];
      for i := 0 to |items|
        invariant nonSystem == NonSystemIndices(items, i)
      {
        if NonSystem(items[i]) {
          nonSystem := nonSystem + [i];
        }
      }
      protect := LastN(nonSystem, protectCount);
    }

    method SanitizeToolPairs()
      modifies this
      ensures items == Sanitised(old(items))
    {
      ghost var before := items;
      ghost var tail: seq<Message> := [];
      var i := |items|;
      assert before[..i] + tail == before;
      while i > 0
        invariant 0 <= i <= |before|
        invariant items == before[..i] + tail
        invariant Survivors(before, i) + tail == Sanitised(before)
      {
        i := i - 1;
        var msg := items[i];
        assert msg == before[i];
        ghost var removed := false;
        if msg.role.Tool? {
          var hasCall := HasCallBefore(i);
          SameScan(before, items, i);
          if !hasCall {
            items := items[..i] + items[i + 1..];
            removed := true;
          }
        }
        assert removed == !Survives(before, i);
        if !removed {
          assert Survivors(before, i) + ([msg] + tail) == (Survivors(before, i) + [msg]) + tail;
          tail := [msg] + tail;
        }
      }
    }

    /** The inner scan, backwards from `i`. */
    method HasCallBefore(i: nat) returns (hasCall: bool)
      requires i < |items|
      ensures hasCall == Open(items, i)
    {
      hasCall := false;
      var j := i;
      while j > 0
        invariant 0 <= j <= i
        invariant !hasCall && Open(items, i) == Open(items, j)
      {
        j := j - 1;
        if HasCalls(items[j]) {
          hasCall := true;
          break;
        }
        if items[j].role.User? {
          break;
        }
      }
    }

    /** `while (result.length > 2 && over budget) result.splice(1, 1)`. */
    method TrimAfterFirst(budget: nat)
      requires items != []
      modifies this
      ensures TrimmedAfterFirst(old(items), budget, items)
    {
      ghost var before := items;
      ghost var d: nat := 0;
      assert WithoutAfterFirst(before, 0) == before;
      var cost := EstimateMessagesTokens(items);
      while |items| > 2 && cost > budget
        invariant d < |before| && items == WithoutAfterFirst(before, d)
        invariant cost == Cost(items)
        invariant forall k | 0 <= k < d :: Cost(WithoutAfterFirst(before, k)) > budget
        invariant d > 0 ==> |items| >= 2
        decreases |items|
      {
        items := items[..1] + items[2..];
        d := d + 1;
        assert items == WithoutAfterFirst(before, d);
        cost := EstimateMessagesTokens(items);
      }
    }
  }

  /** `ms` without the `d` messages that follow its first one. */
  function WithoutAfterFirst(ms: seq<Message>, d: nat): (r: seq<Message>)
    requires d < |ms|
    ensures |r| == |ms| - d
  {
    [ms[0]] + ms[1 + d..]
  }

  /** `kept` is `ms` with the fewest messages dropped after the first one that make it fit or leave two. */
  ghost predicate TrimmedAfterFirst(ms: seq<Message>, budget: nat, kept: seq<Message>)
    requires ms != []
  {
    var d := |ms| - |kept|;
    && 0 <= d < |ms|
    && kept == WithoutAfterFirst(ms, d)
    && (Cost(kept) <= budget || |kept| <= 2)
    && (d > 0 ==> |kept| >= 2)
    && (forall k | 0 <= k < d :: Cost(WithoutAfterFirst(ms, k)) > budget)
  }

  lemma TrimIsDetermined(ms: seq<Message>, budget: nat, a: seq<Message>, b: seq<Message>)
    requires ms != [] && TrimmedAfterFirst(ms, budget, a) && TrimmedAfterFirst(ms, budget, b)
    ensures a == b
  {
  }

  // ------------------------------------------------------------ building a compacted history

  datatype Summary = Summary(text: string, coversUpToIndex: nat)

  datatype CompactedHistory = CompactedHistory(messages: seq<Message>, compacted: bool)

  /** How far a build gets before it first waits: finished, or with an archive to be summarised. */
  datatype Plan =
    | Done(history: CompactedHistory)
    | Fold(archiveStart: nat, archiveEnd: nat, archive: seq<Message>, recent: seq<Message>)

  type Waiting = plan: Plan | plan.Fold? && plan.archiveStart < plan.archiveEnd
    witness Fold(0, 1, [], [])

  function SummaryMessage(text: string): Message {
    Message(System, "[Prior conversation summary]\n" + text, None)
  }

  function PlanOf(transcript: seq<Message>, saved: Option<Summary>, budget: nat, keep: nat): (plan: Plan)
    ensures plan.Fold? ==> plan.archiveStart < plan.archiveEnd
  {
    if transcript == [] then Done(CompactedHistory([], false))
    else if Cost(transcript) <= budget / 2 then Done(CompactedHistory(transcript, false))
    else
      var messages := Pruned(transcript, keep);
      if Cost(messages) <= budget then Done(CompactedHistory(messages, true))
      else Zones(messages, saved, keep)
  }

  /** Splitting into an archive, of which the saved summary knows a part, and a recent zone. */
  function Zones(messages: seq<Message>, saved: Option<Summary>, keep: nat): (plan: Plan)
    ensures plan.Fold? ==> plan.archiveStart < plan.archiveEnd
  {
    var recentStart := Max(0, |messages| - keep);
    var archiveStart := if saved.Some? then saved.value.coversUpToIndex + 1 else 0;
    var recent := messages[recentStart..];
    if archiveStart >= recentStart then
      var head := if saved.Some? then [SummaryMessage(saved.value.text)] else [];
      Done(CompactedHistory(head + recent, true))
    else
      Fold(archiveStart, recentStart, messages[archiveStart..recentStart], recent)
  }

  /** What a build that was left with an archive returns; `summary` is `None` when the summariser failed. */
  ghost predicate ConcludesWith(plan: Waiting, summary: Option<string>, budget: nat, history: CompactedHistory) {
    && history.compacted
    && match summary
       case None => history.messages == plan.recent
       case Some(text) =>
         var clean := Sanitised([SummaryMessage(text)] + plan.recent);
         clean != [] && TrimmedAfterFirst(clean, budget, history.messages)
  }

  class SessionStore {
    var transcript: seq<Message>
    var summary: Option<Summary>

    constructor ()
      ensures transcript == [] && summary == None
    {
      transcript, summary := [], None;
    }

    /** `buildCompactedHistory` up to the first `await`: transcript and summary are read in one go. */
    method BeginBuild(budget: nat, keep: nat) returns (plan: Plan)
      ensures plan == PlanOf(transcript, summary, budget, keep)
    {
      if transcript == [] {
        return Done(CompactedHistory([], false));
      }
      var all := new MessageList(transcript);
      var threshold := budget / 2;
      var cost := EstimateMessagesTokens(all.items);
      if cost <= threshold {
        return Done(CompactedHistory(all.items, false));
      }
      all.PruneOldToolResults(keep);
      cost := EstimateMessagesTokens(all.items);
      if cost <= budget {
        return Done(CompactedHistory(all.items, true));
      }
      plan := SplitZones(all.items, keep);
    }

    method SplitZones(messages: seq<Message>, keep: nat) returns (plan: Plan)
      ensures plan == Zones(messages, summary, keep)
    {
      var recentStart := Max(0, |messages| - keep);
      var recent := messages[recentStart..];
      var archiveStart := if summary.Some? then summary.value.coversUpToIndex + 1 else 0;
      if archiveStart >= recentStart {
        var result: seq<Message> := [];
        if summary.Some? {
          result := result + [SummaryMessage(summary.value.text)];
        }
        return Done(CompactedHistory(result + recent, true));
      }
      return Fold(archiveStart, recentStart, messages[archiveStart..recentStart], recent);
    }

    /** The rest of the build, once the summariser has answered or failed. The save may fail, which is not
        reported: `landed`. */
    method ConcludeBuild(plan: Waiting, text: Option<string>, budget: nat, landed: bool)
      returns (history: CompactedHistory)
      modifies this
      ensures ConcludesWith(plan, text, budget, history)
      ensures transcript == old(transcript)
      ensures summary == if text.Some? && landed then Some(Summary(text.value, plan.archiveEnd - 1)) else old(summary)
    {
      if text.None? {
        return CompactedHistory(plan.recent, true);
      }
      if landed {
        summary := Some(Summary(text.value, plan.archiveEnd - 1));
      }
      var result := new MessageList([SummaryMessage(text.value)] + plan.recent);
      SanitisedBehindSummary(SummaryMessage(text.value), plan.recent);
      result.SanitizeToolPairs();
      result.TrimAfterFirst(budget);
      history := CompactedHistory(result.items, true);
    }
  }

  lemma {:induction false} OpenBehindSummary(head: Message, ms: seq<Message>, i: nat)
    requires head.role.System? && i <= |ms|
    ensures Open([head] + ms, i + 1) == Open(ms, i)
  {
    if i > 0 {
      OpenBehindSummary(head, ms, i - 1);
    }
  }

  lemma {:induction false} SurvivorsBehindSummary(head: Message, ms: seq<Message>, n: nat)
    requires head.role.System? && n <= |ms|
    ensures Survivors([head] + ms, n + 1) == [head] + Survivors(ms, n)
  {
    var all := [head] + ms;
    if n == 0 {
      assert Survivors(all, 0) == [] && Survives(all, 0);
    } else {
      SurvivorsBehindSummary(head, ms, n - 1);
      OpenBehindSummary(head, ms, n - 1);
      assert all[n] == ms[n - 1] && Survives(all, n) == Survives(ms, n - 1);
      var last := if Survives(ms, n - 1) then [ms[n - 1]] else [];
      assert Survivors(all, n + 1) == Survivors(all, n) + last;
      assert [head] + (Survivors(ms, n - 1) + last) == ([head] + Survivors(ms, n - 1)) + last;
    }
  }

  lemma SanitisedBehindSummary(head: Message, ms: seq<Message>)
    requires head.role.System?
    ensures Sanitised([head] + ms) == [head] + Sanitised(ms)
  {
    SurvivorsBehindSummary(head, ms, |ms|);
  }

  lemma FreshCut(plan: Waiting, text: string, budget: nat, history: CompactedHistory)
    requires ConcludesWith(plan, Some(text), budget, history)
    ensures
      var clean := Sanitised(plan.recent);
      var d := 1 + |clean| - |history.messages|;
      0 <= d <= |clean| && history.messages == [SummaryMessage(text)] + clean[d..]
  {
    SanitisedBehindSummary(SummaryMessage(text), plan.recent);
  }

  /** The shape of every history that comes with a fresh summary. */
  lemma FreshResultShape(plan: Waiting, text: string, budget: nat, history: CompactedHistory)
    requires ConcludesWith(plan, Some(text), budget, history)
    ensures
      var clean := Sanitised(plan.recent);
      var d := 1 + |clean| - |history.messages|;
      && 0 <= d <= |clean|
      && history.messages == [SummaryMessage(text)] + clean[d..]
      && history.compacted
      && (Cost(history.messages) <= budget || |history.messages| <= 2)
      && (d > 0 ==> |history.messages| >= 2)
      && (forall k | 0 <= k < d :: Cost(WithoutAfterFirst([SummaryMessage(text)] + clean, k)) > budget)
  {
    SanitisedBehindSummary(SummaryMessage(text), plan.recent);
  }

  /** A summary is a marked system message, and a failed answer leaves the recent zone alone. */
  lemma SummaryAndFailureShape(plan: Waiting, text: string, budget: nat, history: CompactedHistory)
    ensures SummaryMessage(text) == Message(System, "[Prior conversation summary]" + "\n" + text, None)
    ensures ConcludesWith(plan, None, budget, history) <==> history == CompactedHistory(plan.recent, true)
  {
    assert "[Prior conversation summary]" + "\n" == "[Prior conversation summary]\n";
  }

  /** From `d` on, a tool result comes before any user message and any further call. */
  predicate AnswersFirst(ms: seq<Message>, d: nat)
    requires d <= |ms|
    decreases |ms| - d
  {
    && d < |ms|
    && (ms[d].role.Tool? || (!ms[d].role.User? && !HasCalls(ms[d]) && AnswersFirst(ms, d + 1)))
  }

  /** A call that is open at the cut stays open until the next user message, and only the cut loses it. */
  lemma {:induction false} OpenAcrossCut(ms: seq<Message>, d: nat, i: nat)
    requires d + i <= |ms|
    ensures Open(ms, d + i) <==> Open(ms[d..], i) || (Open(ms, d) && forall k | d <= k < d + i :: !ms[k].role.User?)
  {
    if i > 0 {
      OpenAcrossCut(ms, d, i - 1);
      assert ms[d..][i - 1] == ms[d + i - 1];
    }
  }

  lemma {:induction false} AnswersFirstFinds(ms: seq<Message>, d: nat) returns (i: nat)
    requires d <= |ms| && AnswersFirst(ms, d)
    ensures d + i < |ms| && ms[d + i].role.Tool? && !Open(ms[d..], i)
    ensures forall k | d <= k < d + i :: !ms[k].role.User? && !HasCalls(ms[k])
    decreases |ms| - d
  {
    i := 0;
    if !ms[d].role.Tool? {
      i := AnswersFirstFinds(ms, d + 1);
      i := i + 1;
    }
    NothingOpens(ms[d..], i);
  }

  lemma {:induction false} NothingOpens(ms: seq<Message>, i: nat)
    requires i <= |ms| && forall k | 0 <= k < i :: !HasCalls(ms[k])
    ensures !Open(ms, i)
  {
    if i > 0 {
      NothingOpens(ms, i - 1);
    }
  }

  /** An unpaired result behind the cut is one that answers a call from before it. */
  lemma {:induction false} OrphanAnswersFirst(ms: seq<Message>, d: nat, i: nat)
    requires d + i < |ms| && ms[d + i].role.Tool? && Open(ms, d + i) && !Open(ms[d..], i)
    ensures Open(ms, d) && AnswersFirst(ms, d)
  {
    OpenAcrossCut(ms, d, i);
    forall k | d <= k < d + i
      ensures !HasCalls(ms[k])
    {
      if HasCalls(ms[k]) {
        OpenAcrossCut(ms[d..], k - d, i - (k - d));
        StaysOpen(ms[d..], k - d, i);
      }
    }
    QuietUntil(ms, d, d + i);
  }

  lemma {:induction false} StaysOpen(ms: seq<Message>, k: nat, i: nat)
    requires k < i <= |ms| && HasCalls(ms[k]) && forall j | k < j < i :: !ms[j].role.User?
    ensures Open(ms, i)
  {
    if i > k + 1 {
      StaysOpen(ms, k, i - 1);
    }
  }

  lemma {:induction false} QuietUntil(ms: seq<Message>, d: nat, e: nat)
    requires d <= e < |ms| && ms[e].role.Tool? && forall k | d <= k < e :: !ms[k].role.User? && !HasCalls(ms[k])
    ensures AnswersFirst(ms, d)
    decreases e - d
  {
    if d < e {
      QuietUntil(ms, d + 1, e);
    }
  }

  /** The trim runs after the sanitiser and may cut between a call and its results. What is returned with a
      fresh summary is still paired exactly when no call is open at the cut, or none of its results is behind
      it: both can be read off the message the trim is about to drop and those that follow. */
  lemma {:induction false} TrimKeepsPairing(plan: Waiting, text: string, budget: nat, history: CompactedHistory)
    requires ConcludesWith(plan, Some(text), budget, history)
    ensures
      var clean := Sanitised(plan.recent);
      var d := 1 + |clean| - |history.messages|;
      0 <= d <= |clean| && (Paired(history.messages) <==> !(Open(clean, d) && AnswersFirst(clean, d)))
  {
    var clean := Sanitised(plan.recent);
    var d := 1 + |clean| - |history.messages|;
    FreshCut(plan, text, budget, history);
    SurvivorsSurvive(plan.recent, |plan.recent|);
    CutKeepsPairing(SummaryMessage(text), clean, d);
    assert history.messages == [SummaryMessage(text)] + clean[d..];
  }

  lemma {:induction false} CutKeepsPairing(head: Message, clean: seq<Message>, d: nat)
    requires head.role.System? && d <= |clean| && forall i | 0 <= i < |clean| :: Survives(clean, i)
    ensures Paired([head] + clean[d..]) <==> !(Open(clean, d) && AnswersFirst(clean, d))
  {
    var tail := clean[d..];
    var kept := [head] + tail;
    PairedIsSurviving(kept);
    forall i | 0 <= i < |tail|
      ensures Survives(kept, i + 1) == Survives(tail, i)
    {
      OpenBehindSummary(head, tail, i);
    }
    if Open(clean, d) && AnswersFirst(clean, d) {
      var i := AnswersFirstFinds(clean, d);
      assert !Survives(tail, i) && !Survives(kept, i + 1);
    } else {
      forall i | 0 <= i < |kept|
        ensures Survives(kept, i)
      {
        if i > 0 && !Survives(tail, i - 1) {
          assert Survives(clean, d + (i - 1));
          OrphanAnswersFirst(clean, d, i - 1);
        }
      }
    }
  }

  /** For example, a budget one short of the whole list drops the call and keeps its answer. */
  lemma {:induction false} TrimCanOrphanAResult(text: string, call: Message, result: Message, reply: Message)
    requires HasCalls(call) && result.role.Tool? && reply.role.Assistant? && reply.toolCalls.None?
    ensures
      var full := [SummaryMessage(text)] + [call, result, reply];
      var kept := [SummaryMessage(text), result, reply];
      && Cost(full) > 0
      && ConcludesWith(Fold(0, 1, [reply], [call, result, reply]), Some(text), Cost(full) - 1,
                       CompactedHistory(kept, true))
      && Paired(Sanitised(full)) && !Paired(kept)
  {
    var head := SummaryMessage(text);
    var full, kept := [head] + [call, result, reply], [head, result, reply];
    CostAtLeastOverhead(full);
    AnsweredCallIsClean(head, call, result, reply);
    SanitisedIsPaired(full);
    CallIsTrimmed(head, call, result, reply);
    assert kept[1].role.Tool? && !HasCalls(kept[0]);
  }

  lemma CallIsTrimmed(head: Message, call: Message, result: Message, reply: Message)
    ensures
      var full := [head] + [call, result, reply];
      Cost(full) > 0 && TrimmedAfterFirst(full, Cost(full) - 1, [head, result, reply])
  {
    var full, kept := [head] + [call, result, reply], [head, result, reply];
    CostAtLeastOverhead(full);
    OneMessageDearer(head, call, [result, reply]);
    assert full == [head] + [call] + [result, reply] && kept == [head] + [result, reply];
    assert WithoutAfterFirst(full, 0) == full && WithoutAfterFirst(full, 1) == kept;
  }

  lemma AnsweredCallIsClean(head: Message, call: Message, result: Message, reply: Message)
    requires head.role.System? && HasCalls(call) && result.role.Tool? && reply.role.Assistant?
    ensures Sanitised([head] + [call, result, reply]) == [head] + [call, result, reply]
  {
    var ms := [call, result, reply];
    assert Open(ms, 1);
    SurvivorsOfPaired(ms, 3);
    SanitisedBehindSummary(head, ms);
  }

  lemma OneMessageDearer(head: Message, extra: Message, rest: seq<Message>)
    ensures Cost([head] + [extra] + rest) > Cost([head] + rest)
  {
    CostConcat([head] + [extra], rest);
    CostConcat([head], [extra]);
    CostConcat([head], rest);
    CostAtLeastOverhead([extra]);
  }

  /** Stored turns are user and assistant text only (src/sessions/types.ts). */
  predicate Plain(m: Message) {
    (m.role.User? || m.role.Assistant?) && m.toolCalls.None?
  }

  /** On stored transcripts pruning and sanitising are both the identity. */
  lemma PlainIsNotPruned(ms: seq<Message>, keep: nat)
    requires forall m | m in ms :: Plain(m)
    ensures Pruned(ms, keep) == ms
  {
    forall i | 0 <= i < |ms|
      ensures PrunedAt(ms, keep, i) == ms[i]
    {
      assert Plain(ms[i]);
    }
  }

  lemma PlainIsClean(ms: seq<Message>)
    requires forall m | m in ms :: Plain(m)
    ensures Sanitised(ms) == ms
  {
    forall i | 0 <= i < |ms|
      ensures Survives(ms, i)
    {
      assert Plain(ms[i]);
    }
    SurvivorsOfPaired(ms, |ms|);
  }

  lemma ZonesSplit(messages: seq<Message>, saved: Option<Summary>, keep: nat)
    ensures SplitsOnly(messages, saved, keep, Zones(messages, saved, keep))
  {
  }

  /** A plan that hands over the transcript, or cuts it at the end of the archive. */
  predicate SplitsOnly(transcript: seq<Message>, saved: Option<Summary>, keep: nat, plan: Plan) {
    var start := if saved.Some? then saved.value.coversUpToIndex + 1 else 0;
    var end := Max(0, |transcript| - keep);
    match plan
    case Done(history) =>
      || history.messages == transcript
      || (start >= end
          && history.messages
             == (if saved.Some? then [SummaryMessage(saved.value.text)] else []) + transcript[end..])
    case Fold(archiveStart, archiveEnd, archive, recent) =>
      && archiveStart == start < end == archiveEnd
      && archive == transcript[start..end]
      && recent == transcript[end..]
  }

  /** What planning does to a stored transcript: it only ever splits it. */
  lemma PlanSplitsTranscript(transcript: seq<Message>, saved: Option<Summary>, budget: nat, keep: nat)
    requires forall m | m in transcript :: Plain(m)
    ensures SplitsOnly(transcript, saved, keep, PlanOf(transcript, saved, budget, keep))
  {
    PlainIsNotPruned(transcript, keep);
    ZonesSplit(transcript, saved, keep);
  }

  /** What decides how a stored transcript is handed over: below half the budget as it is, up to the budget
      still whole, and beyond it folded if and only if some turn before the recent zone is not covered yet. */
  lemma {:induction false} PlanDecides(transcript: seq<Message>, saved: Option<Summary>, budget: nat, keep: nat)
    requires forall m | m in transcript :: Plain(m)
    ensures
      var plan := PlanOf(transcript, saved, budget, keep);
      var covered := if saved.Some? then saved.value.coversUpToIndex + 1 else 0;
      && (plan.Fold? <==> Cost(transcript) > budget && covered < |transcript| - keep)
      && (plan.Done? && !plan.history.compacted <==> 2 * Cost(transcript) <= budget)
      && (Cost(transcript) <= budget ==> plan.Done? && plan.history.messages == transcript)
  {
    PlainIsNotPruned(transcript, keep);
    if transcript != [] {
      CostAtLeastOverhead(transcript);
    }
  }
}
