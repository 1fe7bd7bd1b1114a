/** Dividing the context window and trimming history to what is left (src/context/budget.ts). */
module Budget {
  import opened Messages
  import opened Tokens

  const SAFETY_MARGIN := 256

  datatype ContextBudget = ContextBudget(
    totalTokens: int, systemTokens: nat, outputReserve: int, historyBudget: nat)

  function SumTokens(sections: seq<string>): nat {
    if sections == [] then 0 else TokensOf(sections[0]) + SumTokens(sections[1..])
  }

  /** Every section counts, whatever it stands next to. */
  lemma {:induction false} SectionsAddUp(a: seq<string>, b: seq<string>)
    ensures SumTokens(a + b) == SumTokens(a) + SumTokens(b)
    ensures SumTokens([]) == 0 && forall section :: SumTokens([section]) == TokensOf(section)
  {
    if a == [] {
      assert a + b == b;
    } else {
      assert (a + b)[1..] == a[1..] + b;
      SectionsAddUp(a[1..], b);
    }
  }

  function ComputeBudget(contextSize: int, systemPrompt: string, workspaceContext: string,
                         currentMessage: string, outputReserve: int, extraSections: seq<string>)
    : (b: ContextBudget)
    ensures b.systemTokens == TokensOf(systemPrompt) + TokensOf(workspaceContext) + SumTokens(extraSections)
    ensures
      var shares := b.systemTokens + TokensOf(currentMessage) + outputReserve + 256;
      if shares < contextSize then shares + b.historyBudget == contextSize else b.historyBudget == 0
  {
    var systemTokens := TokensOf(systemPrompt) + TokensOf(workspaceContext) + SumTokens(extraSections);
    var room := contextSize - systemTokens - TokensOf(currentMessage) - outputReserve - SAFETY_MARGIN;
    ContextBudget(contextSize, systemTokens, outputReserve, Max(0, room))
  }

  /** How many messages `trimHistoryToFit` has dropped after `k` steps on a list of `n`. */
  function DroppedAfter(k: nat, n: nat, minKeep: nat): (d: nat)
    ensures d <= n
  {
    if n <= minKeep then 0 else Min(2 * k, n - minKeep)
  }

  /** The trimmed list stops the stepwise dropping at the first step that fits, or at `minKeep`. */
  ghost predicate TrimmedAt(messages: seq<Message>, budget: nat, minKeep: nat, kept: seq<Message>, k: nat) {
    var n := |messages|;
    && kept == messages[DroppedAfter(k, n, minKeep)..]
    && (Cost(kept) <= budget || |kept| <= minKeep)
    && (k > 0 ==> TooLongBefore(messages, budget, minKeep, k))
  }

  /** Step `k` had something to drop, and without it the list would not have fitted. */
  ghost predicate TooLongBefore(messages: seq<Message>, budget: nat, minKeep: nat, k: nat)
    requires k > 0
  {
    var n := |messages|;
    && DroppedAfter(k - 1, n, minKeep) < DroppedAfter(k, n, minKeep)
    && Cost(messages[DroppedAfter(k - 1, n, minKeep)..]) > budget
  }

  lemma OneStepMore(messages: seq<Message>, minKeep: nat, k: nat)
    requires |messages| - DroppedAfter(k, |messages|, minKeep) > minKeep
    ensures
      var before, after := DroppedAfter(k, |messages|, minKeep), DroppedAfter(k + 1, |messages|, minKeep);
      && before < after
      && messages[before..][Min(2, |messages| - before - minKeep)..] == messages[after..]
  {
  }

  method TrimHistoryToFit(messages: seq<Message>, budget: nat, minKeep: nat := 2)
    returns (trimmed: seq<Message>)
    ensures exists k: nat :: TrimmedAt(messages, budget, minKeep, trimmed, k)
  {
    if messages == [] {
      assert TrimmedAt(messages, budget, minKeep, messages, 0);
      return messages;
    }
    trimmed := messages;
    ghost var k: nat := 0;
    ghost var n := |messages|;
    var cost := EstimateMessagesTokens(trimmed);
    while |trimmed| > minKeep && cost > budget
      invariant cost == Cost(trimmed)
      invariant trimmed == messages[DroppedAfter(k, n, minKeep)..]
      invariant k > 0 ==> TooLongBefore(messages, budget, minKeep, k)
      decreases |trimmed|
    {
      OneStepMore(messages, minKeep, k);
      trimmed := trimmed[Min(2, |trimmed| - minKeep)..];
      k := k + 1;
      cost := EstimateMessagesTokens(trimmed);
    }
    assert TrimmedAt(messages, budget, minKeep, trimmed, k);
  }

  lemma SuffixCost(messages: seq<Message>, d: nat)
    requires d <= |messages|
    ensures Cost(messages[d..]) <= Cost(messages)
  {
    CostConcat(messages[..d], messages[d..]);
    assert messages == messages[..d] + messages[d..];
  }

  /** `TrimmedAt` pins the list down: two different stopping points cannot both qualify. */
  lemma TrimIsDetermined(messages: seq<Message>, budget: nat, minKeep: nat,
                         a: seq<Message>, i: nat, b: seq<Message>, j: nat)
    requires TrimmedAt(messages, budget, minKeep, a, i)
    requires TrimmedAt(messages, budget, minKeep, b, j)
    ensures a == b
    decreases j < i
  {
    var n := |messages|;
    if i < j {
      var before := messages[DroppedAfter(j - 1, n, minKeep)..];
      var skip := DroppedAfter(j - 1, n, minKeep) - DroppedAfter(i, n, minKeep);
      assert before == a[skip..];
      SuffixCost(a, skip);
    } else if j < i {
      TrimIsDetermined(messages, budget, minKeep, b, j, a, i);
    }
  }

  /** What stepping by turn pairs means for the cut: an even number of messages is dropped, unless that would
      leave fewer than `minKeep`, and the last step dropped one or two that would not have fitted. */
  lemma TrimDropsPairs(messages: seq<Message>, budget: nat, minKeep: nat, kept: seq<Message>, k: nat)
    requires TrimmedAt(messages, budget, minKeep, kept, k)
    ensures
      var dropped := |messages| - |kept|;
      && dropped >= 0 && kept == messages[dropped..]
      && (dropped % 2 == 0 || |kept| == minKeep)
      && (dropped > 0 ==> |kept| >= minKeep)
      && (dropped > 0 ==> Cost(messages[dropped - (if dropped % 2 == 0 then 2 else 1)..]) > budget)
  {
  }

  /** A list that already fits is left alone. */
  lemma TrimKeepsWhatFits(messages: seq<Message>, budget: nat, minKeep: nat, kept: seq<Message>, k: nat)
    requires TrimmedAt(messages, budget, minKeep, kept, k)
    requires Cost(messages) <= budget
    ensures kept == messages
  {
    assert messages[0..] == messages;
    TrimIsDetermined(messages, budget, minKeep, kept, k, messages, 0);
  }

  /** End to end: what a specialist is sent fits its context window whenever more than two messages
      survive, and a history that fits on arrival survives whole. */
  lemma RefinedWindowFits(contextSize: int, systemPrompt: string, workspaceContext: string, message: string,
                          outputReserve: int, extraSections: seq<string>,
                          history: seq<Message>, kept: seq<Message>, k: nat)
    requires
      var b := ComputeBudget(contextSize, systemPrompt, workspaceContext, message, outputReserve, extraSections);
      TrimmedAt(history, b.historyBudget, 2, kept, k)
    ensures
      var prompt := TokensOf(systemPrompt) + TokensOf(workspaceContext) + SumTokens(extraSections)
                    + TokensOf(message) + outputReserve + SAFETY_MARGIN;
      && (|kept| > 2 ==> prompt + Cost(kept) <= contextSize)
      && (|kept| > 2 ==> prompt + MESSAGE_OVERHEAD * |kept| <= contextSize)
      && (prompt + Cost(history) <= contextSize ==> kept == history)
      && (kept != history ==>
            |history| > 2 && prompt + Cost(history[DroppedAfter(k - 1, |history|, 2)..]) > contextSize)
  {
    var b := ComputeBudget(contextSize, systemPrompt, workspaceContext, message, outputReserve, extraSections);
    CostAtLeastOverhead(kept);
    if Cost(history) <= b.historyBudget {
      TrimKeepsWhatFits(history, b.historyBudget, 2, kept, k);
    }
    assert history[0..] == history;
  }
}
