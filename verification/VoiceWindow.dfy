/** The anchored history window of spoken sessions (src/dispatch.ts). */
module VoiceWindow {
  import opened Messages

  function VoiceWindowStart(totalTurns: nat, anchor: Option<nat>, cap: nat): (start: nat)
    ensures start <= totalTurns
  {
    if anchor.None? || anchor.value > totalTurns || totalTurns - anchor.value > 2 * cap
    then Max(0, totalTurns - cap)
    else anchor.value
  }

  /** One session over time: the transcript as each voice turn found it. It only grows. */
  ghost predicate AppendOnly<Turn>(seen: seq<seq<Turn>>) {
    forall i, j | 0 <= i <= j < |seen| :: seen[i] <= seen[j]
  }

  /** The anchor left behind by the last of these voice turns. */
  function AnchorAfter<Turn>(seen: seq<seq<Turn>>, cap: nat): Option<nat> {
    if seen == [] then None
    else
      var n := |seen| - 1;
      Some(VoiceWindowStart(|seen[n]|, AnchorAfter(seen[..n], cap), cap))
  }

  /** How often the anchor moved after it was first set. */
  function Reanchors<Turn>(seen: seq<seq<Turn>>, cap: nat): nat {
    if |seen| <= 1 then 0
    else
      var n := |seen| - 1;
      Reanchors(seen[..n], cap) + if AnchorAfter(seen, cap) != AnchorAfter(seen[..n], cap) then 1 else 0
  }

  /** The transcript length at which the present anchor was set. */
  function AnchoredAt<Turn>(seen: seq<seq<Turn>>, cap: nat): nat
    requires seen != []
  {
    var n := |seen| - 1;
    if n == 0 || AnchorAfter(seen, cap) != AnchorAfter(seen[..n], cap) then |seen[n]|
    else AnchoredAt(seen[..n], cap)
  }

  lemma {:induction false} AnchorFacts<Turn>(seen: seq<seq<Turn>>, cap: nat)
    requires seen != [] && AppendOnly(seen)
    ensures
      var at := AnchoredAt(seen, cap);
      && AnchorAfter(seen, cap) == Some(Max(0, at - cap))
      && |seen[0]| <= at <= |seen[|seen| - 1]| <= Max(0, at - cap) + 2 * cap
  {
    var n := |seen| - 1;
    if n > 0 {
      AnchorFacts(seen[..n], cap);
      assert seen[n - 1] <= seen[n];
    } else {
      assert seen[..0] == [];
    }
  }

  lemma MovedAnchorLeavesGap<Turn>(seen: seq<seq<Turn>>, cap: nat)
    requires |seen| > 1 && AppendOnly(seen)
    requires AnchorAfter(seen, cap) != AnchorAfter(seen[..|seen| - 1], cap)
    ensures AnchoredAt(seen, cap) > AnchoredAt(seen[..|seen| - 1], cap) + cap
  {
    AnchorFacts(seen[..|seen| - 1], cap);
    assert seen[|seen| - 2] <= seen[|seen| - 1];
  }

  lemma {:induction false} ReanchorsArePaidFor<Turn>(seen: seq<seq<Turn>>, cap: nat)
    requires seen != [] && AppendOnly(seen)
    ensures Reanchors(seen, cap) * (cap + 1) <= AnchoredAt(seen, cap) - |seen[0]|
  {
    var n := |seen| - 1;
    if n > 0 {
      var before := seen[..n];
      ReanchorsArePaidFor(before, cap);
      var r, at := Reanchors(before, cap), AnchoredAt(before, cap);
      if AnchorAfter(seen, cap) != AnchorAfter(before, cap) {
        MovedAnchorLeavesGap(seen, cap);
        OneMore(r, cap + 1);
      }
    }
  }

  lemma OneMore(r: nat, price: nat)
    ensures (r + 1) * price == r * price + price
  {
  }

  /** Every window holds at least the last `cap` turns (or all there are) and never more than `2 * cap`;
      while the anchor holds, the window of the turn before is a prefix of this one; and the anchor only
      moves forward. */
  lemma WindowIsAnchored<Turn>(seen: seq<seq<Turn>>, cap: nat)
    requires seen != [] && AppendOnly(seen)
    ensures
      var n := |seen| - 1;
      var start := AnchorAfter(seen, cap).value;
      && start <= |seen[n]|
      && Min(cap, |seen[n]|) <= |seen[n]| - start <= 2 * cap
      && (n > 0 ==>
            var before := AnchorAfter(seen[..n], cap).value;
            && before <= start
            && before <= |seen[n - 1]|
            && (before == start ==> seen[n - 1][before..] <= seen[n][start..])
            && (before != start ==> start == |seen[n]| - cap))
  {
    AnchorFacts(seen, cap);
    var n := |seen| - 1;
    if n > 0 {
      AnchorFacts(seen[..n], cap);
      assert seen[n - 1] <= seen[n];
      var before := AnchorAfter(seen[..n], cap).value;
      assert seen[n - 1][before..] <= seen[n][before..];
    }
  }

  /** Whether an anchor is kept depends on nothing but how many turns there are: no fewer than it says and no
      more than `2 * cap` beyond it. Only after a reset can there be fewer, and if there happen to be exactly as
      many the window is empty. */
  lemma AnchorIsKept(totalTurns: nat, anchor: nat, cap: nat)
    ensures
      VoiceWindowStart(totalTurns, Some(anchor), cap)
      == if anchor <= totalTurns <= anchor + 2 * cap then anchor else Max(0, totalTurns - cap)
    ensures VoiceWindowStart(totalTurns, None, cap) == Max(0, totalTurns - cap)
  {
  }

  /** The turns at which the anchor moved. */
  function Moves<Turn>(seen: seq<seq<Turn>>, cap: nat): set<int> {
    set i | 1 <= i < |seen| && MovedAt(seen, cap, i)
  }

  predicate MovedAt<Turn>(seen: seq<seq<Turn>>, cap: nat, i: nat)
    requires i < |seen|
  {
    AnchorAfter(seen[..i + 1], cap) != AnchorAfter(seen[..i], cap)
  }

  lemma {:induction false} ReanchorsCountsMoves<Turn>(seen: seq<seq<Turn>>, cap: nat)
    ensures Reanchors(seen, cap) == |Moves(seen, cap)|
  {
    if |seen| <= 1 {
      assert Moves(seen, cap) == {};
    } else {
      ReanchorsCountsMoves(seen[..|seen| - 1], cap);
      OneTurnMore(seen, cap);
    }
  }

  lemma OneTurnMore<Turn>(seen: seq<seq<Turn>>, cap: nat)
    requires |seen| > 1
    ensures
      var n := |seen| - 1;
      && Moves(seen, cap) == Moves(seen[..n], cap) + (if MovedAt(seen, cap, n) then {n} else {})
      && n !in Moves(seen[..n], cap)
      && (MovedAt(seen, cap, n) <==> AnchorAfter(seen, cap) != AnchorAfter(seen[..n], cap))
  {
    var n := |seen| - 1;
    assert seen[..n + 1] == seen;
    forall i | 1 <= i < n
      ensures MovedAt(seen, cap, i) == MovedAt(seen[..n], cap, i)
    {
      MoveOfPrefix(seen, cap, n, i);
    }
  }

  lemma MoveOfPrefix<Turn>(seen: seq<seq<Turn>>, cap: nat, n: nat, i: nat)
    requires i < n <= |seen|
    ensures MovedAt(seen, cap, i) == MovedAt(seen[..n], cap, i)
  {
    assert seen[..n][..i + 1] == seen[..i + 1] && seen[..n][..i] == seen[..i];
  }

  /** Each move of the anchor is paid for by more than `cap` appended turns. */
  lemma ReanchorsAreRare<Turn>(seen: seq<seq<Turn>>, cap: nat)
    requires seen != [] && AppendOnly(seen)
    ensures Reanchors(seen, cap) * (cap + 1) <= |seen[|seen| - 1]| - |seen[0]|
  {
    ReanchorsArePaidFor(seen, cap);
    AnchorFacts(seen, cap);
  }

  // ------------------------------------------------------------ all sessions

  /** The per-session anchors that the dispatcher keeps between turns. `seen` records, for each session, the
      transcripts its voice turns found; sessions interleave freely. */
  class VoiceWindowAnchors<Turn> {
    const cap: nat
    var anchors: map<string, nat>
    ghost var seen: map<string, seq<seq<Turn>>>

    ghost predicate Valid()
      reads this
    {
      anchors.Keys == seen.Keys
      && forall key | key in seen :: seen[key] != [] && AnchorAfter(seen[key], cap) == Some(anchors[key])
    }

    ghost function Seen(key: string): seq<seq<Turn>>
      reads this
    {
      if key in seen then seen[key] else []
    }

    constructor (cap: nat)
      ensures Valid() && this.cap == cap && seen == map[]
    {
      this.cap := cap;
      anchors, seen := map[], map[];
    }

    /** One voice turn. As long as its session's transcript has only grown, the window has at least the last
        `cap` turns, or all there are, and never more than twice that. */
    method WindowFor(key: string, transcript: seq<Turn>) returns (history: seq<Turn>)
      requires Valid()
      modifies this
      ensures Valid()
      ensures seen == old(seen)[key := old(Seen(key)) + [transcript]]
      ensures history == transcript[AnchorAfter(seen[key], cap).value..]
      ensures AppendOnly(seen[key]) ==> Min(cap, |transcript|) <= |history| <= 2 * cap
    {
      var anchor := if key in anchors then Some(anchors[key]) else None;
      ghost var turns := Seen(key) + [transcript];
      assert turns[..|turns| - 1] == Seen(key);
      assert anchor == AnchorAfter(Seen(key), cap);
      var start := VoiceWindowStart(|transcript|, anchor, cap);
      anchors := anchors[key := start];
      seen := seen[key := turns];
      history := transcript[start..];
      if AppendOnly(turns) {
        WindowIsAnchored(turns, cap);
      }
    }
  }
}
