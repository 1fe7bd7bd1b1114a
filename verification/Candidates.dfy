/** Which recurring tool failures are worth a proposal (`selectCandidates`, src/coding/improvement-proposals.ts).
    `norm` stands for lower-casing and trimming, `lessons` for the lesson lookup; both enter as functions. */
module Candidates {
  import opened Messages
  import opened Proposals

  /** `timestamp` is absent when the logged text is not a date. */
  datatype ErrorEntry = ErrorEntry(tool: string, error: string, timestamp: Option<int>)

  datatype Candidate = Candidate(
    signature: Signature, tool: string, error: string, count: nat, examples: seq<string>,
    lessonBoundary: Option<string>)

  type Normaliser = string -> string
  type Lessons = string -> Option<string>

  function SignatureOf(e: ErrorEntry, norm: Normaliser): Signature {
    e.tool + ":" + norm(Prefix(e.error, 60))
  }

  predicate InWindow(e: ErrorEntry, cutoff: int) {
    e.timestamp.Some? && e.timestamp.value > cutoff
  }

  function Window(log: seq<ErrorEntry>, cutoff: int): (w: seq<ErrorEntry>)
    ensures forall e :: e in w <==> e in log && e.timestamp.Some? && e.timestamp.value > cutoff
  {
    if log == [] then []
    else
      var last := log[|log| - 1];
      Window(log[..|log| - 1], cutoff) + if InWindow(last, cutoff) then [last] else []
  }

  // ------------------------------------------------------------ what a group should hold

  function OfSignature(w: seq<ErrorEntry>, s: Signature, norm: Normaliser): seq<ErrorEntry> {
    if w == [] then []
    else
      var last := w[|w| - 1];
      OfSignature(w[..|w| - 1], s, norm) + if SignatureOf(last, norm) == s then [last] else []
  }

  function Examples(es: seq<ErrorEntry>): seq<string> {
    if es == [] then []
    else WithExample(Examples(es[..|es| - 1]), Prefix(es[|es| - 1].error, 150))
  }

  function WithExample(examples: seq<string>, text: string): seq<string> {
    if |examples| < 3 && text !in examples then examples + [text] else examples
  }

  function GroupOf(w: seq<ErrorEntry>, s: Signature, norm: Normaliser, lessons: Lessons): Candidate
    requires OfSignature(w, s, norm) != []
  {
    var es := OfSignature(w, s, norm);
    Candidate(s, es[0].tool, Prefix(es[0].error, 150), |es|, Examples(es), lessons(es[0].tool))
  }

  /** Where a signature first occurs; `|w|` when it does not. */
  function First(w: seq<ErrorEntry>, s: Signature, norm: Normaliser): (f: nat)
    ensures f <= |w|
    ensures forall k | 0 <= k < f :: SignatureOf(w[k], norm) != s
    ensures f < |w| ==> SignatureOf(w[f], norm) == s
  {
    if w == [] then 0
    else
      var n := |w| - 1;
      var f := First(w[..n], s, norm);
      if f < n then f else if SignatureOf(w[n], norm) == s then n else n + 1
  }

  lemma {:induction false} Occurs(w: seq<ErrorEntry>, s: Signature, norm: Normaliser)
    ensures First(w, s, norm) < |w| <==> OfSignature(w, s, norm) != []
  {
    if w != [] {
      Occurs(w[..|w| - 1], s, norm);
    }
  }

  /** The order of a stable descending sort: larger counts first, ties by first occurrence. */
  ghost predicate Before(w: seq<ErrorEntry>, norm: Normaliser, a: Candidate, b: Candidate) {
    a.count > b.count || (a.count == b.count && Older(w, norm, a, b))
  }

  ghost predicate Older(w: seq<ErrorEntry>, norm: Normaliser, a: Candidate, b: Candidate) {
    First(w, a.signature, norm) < First(w, b.signature, norm)
  }

  ghost predicate InOrder(w: seq<ErrorEntry>, norm: Normaliser, cs: seq<Candidate>) {
    forall i, j | 0 <= i < j < |cs| :: Before(w, norm, cs[i], cs[j])
  }

  ghost predicate IsGroup(w: seq<ErrorEntry>, norm: Normaliser, lessons: Lessons, c: Candidate) {
    OfSignature(w, c.signature, norm) != [] && c == GroupOf(w, c.signature, norm, lessons)
  }

  /** Exactly the groups with at least `min` errors, in order. */
  ghost predicate IsSelection(w: seq<ErrorEntry>, norm: Normaliser, lessons: Lessons, min: int, cs: seq<Candidate>) {
    && (forall c :: c in cs <==> IsGroup(w, norm, lessons, c) && c.count >= min)
    && InOrder(w, norm, cs)
  }

  // ------------------------------------------------------------ the algorithm

  function AtLeast(cs: seq<Candidate>, min: int): (kept: seq<Candidate>)
    ensures forall c :: c in kept <==> c in cs && c.count >= min
  {
    if cs == [] then []
    else
      var last := cs[|cs| - 1];
      AtLeast(cs[..|cs| - 1], min) + if last.count >= min then [last] else []
  }

  function SortByCount(cs: seq<Candidate>): seq<Candidate> {
    if cs == [] then [] else InsertByCount(SortByCount(cs[..|cs| - 1]), cs[|cs| - 1])
  }

  function InsertByCount(sorted: seq<Candidate>, c: Candidate): (more: seq<Candidate>)
    ensures forall x :: x in more <==> x in sorted || x == c
  {
    if sorted == [] then [c]
    else
      var n := |sorted| - 1;
      if sorted[n].count >= c.count then sorted + [c] else InsertByCount(sorted[..n], c) + [sorted[n]]
  }

  ghost predicate OldestFirst(w: seq<ErrorEntry>, norm: Normaliser, cs: seq<Candidate>) {
    forall i, j | 0 <= i < j < |cs| :: Older(w, norm, cs[i], cs[j])
  }

  lemma {:induction false} InsertKeepsOrder(w: seq<ErrorEntry>, norm: Normaliser, sorted: seq<Candidate>, c: Candidate)
    requires InOrder(w, norm, sorted)
    requires forall x | x in sorted :: Older(w, norm, x, c)
    ensures InOrder(w, norm, InsertByCount(sorted, c))
  {
    if sorted != [] {
      var n := |sorted| - 1;
      if sorted[n].count >= c.count {
        forall i | 0 <= i < n
          ensures Before(w, norm, sorted[i], c)
        {
          assert Before(w, norm, sorted[i], sorted[n]);
        }
      } else {
        InsertKeepsOrder(w, norm, sorted[..n], c);
        var more := InsertByCount(sorted[..n], c);
        forall i | 0 <= i < |more|
          ensures Before(w, norm, more[i], sorted[n])
        {
          assert more[i] in more;
        }
      }
    }
  }

  lemma {:induction false} SortSorts(w: seq<ErrorEntry>, norm: Normaliser, cs: seq<Candidate>)
    requires OldestFirst(w, norm, cs)
    ensures InOrder(w, norm, SortByCount(cs))
    ensures forall c :: c in SortByCount(cs) <==> c in cs
  {
    if cs != [] {
      var n := |cs| - 1;
      SortSorts(w, norm, cs[..n]);
      InsertKeepsOrder(w, norm, SortByCount(cs[..n]), cs[n]);
      assert forall c :: c in cs <==> c in cs[..n] || c == cs[n];
    }
  }

  lemma {:induction false} FilterKeepsAge(w: seq<ErrorEntry>, norm: Normaliser, cs: seq<Candidate>, min: int)
    requires OldestFirst(w, norm, cs)
    ensures OldestFirst(w, norm, AtLeast(cs, min))
  {
    if cs != [] {
      var n := |cs| - 1;
      FilterKeepsAge(w, norm, cs[..n], min);
      var kept := AtLeast(cs[..n], min);
      forall i | 0 <= i < |kept|
        ensures Older(w, norm, kept[i], cs[n])
      {
        assert kept[i] in cs[..n];
      }
    }
  }

  /** The map of groups, whose keys a JavaScript `Map` lists by first insertion. */
  ghost predicate Grouped(
    w: seq<ErrorEntry>, norm: Normaliser, lessons: Lessons, keys: seq<Signature>, groups: map<Signature, Candidate>)
  {
    GroupsFit(w, norm, lessons, groups) && KeysFit(w, norm, keys, groups)
  }

  ghost predicate GroupsFit(w: seq<ErrorEntry>, norm: Normaliser, lessons: Lessons, groups: map<Signature, Candidate>) {
    && (forall s :: s in groups <==> OfSignature(w, s, norm) != [])
    && (forall s | s in groups :: groups[s] == GroupOf(w, s, norm, lessons))
  }

  ghost predicate KeysFit(
    w: seq<ErrorEntry>, norm: Normaliser, keys: seq<Signature>, groups: map<Signature, Candidate>)
  {
    && (forall s :: s in keys <==> s in groups)
    && (forall i, j | 0 <= i < j < |keys| :: First(w, keys[i], norm) < First(w, keys[j], norm))
  }

  method SelectCandidates(log: seq<ErrorEntry>, cutoff: int, min: int, norm: Normaliser, lessons: Lessons)
    returns (selected: seq<Candidate>)
    ensures IsSelection(Window(log, cutoff), norm, lessons, min, selected)
  {
    var entries := Window(log, cutoff);
    var keys, groups := GroupBySignature(entries, norm, lessons);
    selected := SortByCount(AtLeast(Values(keys, groups), min));
    RankingSelects(entries, norm, lessons, min, keys, groups);
  }

  /** The loop over the errors in the window. */
  method GroupBySignature(entries: seq<ErrorEntry>, norm: Normaliser, lessons: Lessons)
    returns (keys: seq<Signature>, groups: map<Signature, Candidate>)
    ensures Grouped(entries, norm, lessons, keys, groups)
  {
    keys, groups := [], map[];
    for i := 0 to |entries|
      invariant Grouped(entries[..i], norm, lessons, keys, groups)
    {
      var e := entries[i];
      var s := SignatureOf(e, norm);
      assert entries[..i + 1][..i] == entries[..i];
      GroupedStep(entries[..i + 1], norm, lessons, keys, groups);
      if s in groups {
        var g := groups[s];
        g := g.(count := g.count + 1);
        if |g.examples| < 3 && Prefix(e.error, 150) !in g.examples {
          g := g.(examples := g.examples + [Prefix(e.error, 150)]);
        }
        assert g == Grown(groups[s], e);
        groups := groups[s := g];
      } else {
        keys := keys + [s];
        groups := groups[s := Candidate(s, e.tool, Prefix(e.error, 150), 1, [Prefix(e.error, 150)], lessons(e.tool))];
      }
    }
    assert entries[..|entries|] == entries;
  }

  function Values(keys: seq<Signature>, groups: map<Signature, Candidate>): (values: seq<Candidate>)
    requires forall s | s in keys :: s in groups
    ensures |values| == |keys| && forall i | 0 <= i < |keys| :: values[i] == groups[keys[i]]
  {
    seq(|keys|, i requires 0 <= i < |keys| => groups[keys[i]])
  }

  lemma {:induction false} RankingSelects(
    w: seq<ErrorEntry>, norm: Normaliser, lessons: Lessons, min: int,
    keys: seq<Signature>, groups: map<Signature, Candidate>)
    requires Grouped(w, norm, lessons, keys, groups)
    ensures IsSelection(w, norm, lessons, min, SortByCount(AtLeast(Values(keys, groups), min)))
  {
    var values := Values(keys, groups);
    ValuesAreGroups(w, norm, lessons, keys, groups, values);
    FilterKeepsAge(w, norm, values, min);
    SortSorts(w, norm, AtLeast(values, min));
  }

  function Grown(g: Candidate, e: ErrorEntry): Candidate {
    g.(count := g.count + 1, examples := WithExample(g.examples, Prefix(e.error, 150)))
  }

  function NewGroup(s: Signature, e: ErrorEntry, lessons: Lessons): Candidate {
    Candidate(s, e.tool, Prefix(e.error, 150), 1, [Prefix(e.error, 150)], lessons(e.tool))
  }

  /** One more error changes the group of its signature alone. */
  lemma GroupsStep(w: seq<ErrorEntry>, norm: Normaliser, lessons: Lessons, t: Signature)
    requires w != []
    ensures
      var n := |w| - 1;
      var e, was := w[n], OfSignature(w[..n], t, norm);
      if SignatureOf(e, norm) != t then OfSignature(w, t, norm) == was
      else
        && OfSignature(w, t, norm) != []
        && GroupOf(w, t, norm, lessons)
           == if was == [] then NewGroup(t, e, lessons) else Grown(GroupOf(w[..n], t, norm, lessons), e)
  {
    var n := |w| - 1;
    var was := OfSignature(w[..n], t, norm);
    if SignatureOf(w[n], norm) == t {
      var es := OfSignature(w, t, norm);
      assert es == was + [w[n]] && es[..|was|] == was;
      assert Examples(es) == WithExample(Examples(was), Prefix(w[n].error, 150));
    }
  }

  lemma {:induction false} GroupedStep(
    w: seq<ErrorEntry>, norm: Normaliser, lessons: Lessons, keys: seq<Signature>, groups: map<Signature, Candidate>)
    requires w != [] && Grouped(w[..|w| - 1], norm, lessons, keys, groups)
    ensures
      var e := w[|w| - 1];
      var s := SignatureOf(e, norm);
      if s in groups then Grouped(w, norm, lessons, keys, groups[s := Grown(groups[s], e)])
      else Grouped(w, norm, lessons, keys + [s], groups[s := NewGroup(s, e, lessons)])
  {
    var e := w[|w| - 1];
    var s := SignatureOf(e, norm);
    var keys', groups' := if s in groups then keys else keys + [s],
                          groups[s := if s in groups then Grown(groups[s], e) else NewGroup(s, e, lessons)];
    GroupsFitStep(w, norm, lessons, groups, groups');
    KeysStep(w, norm, lessons, keys, groups, keys', groups');
  }

  lemma GroupsFitStep(
    w: seq<ErrorEntry>, norm: Normaliser, lessons: Lessons,
    groups: map<Signature, Candidate>, groups': map<Signature, Candidate>)
    requires w != [] && GroupsFit(w[..|w| - 1], norm, lessons, groups)
    requires
      var e := w[|w| - 1];
      var s := SignatureOf(e, norm);
      groups' == groups[s := if s in groups then Grown(groups[s], e) else NewGroup(s, e, lessons)]
    ensures GroupsFit(w, norm, lessons, groups')
  {
    forall t
      ensures t in groups' <==> OfSignature(w, t, norm) != []
      ensures t in groups' ==> groups'[t] == GroupOf(w, t, norm, lessons)
    {
      GroupsStep(w, norm, lessons, t);
      assert t in groups <==> OfSignature(w[..|w| - 1], t, norm) != [];
    }
  }

  lemma {:induction false} KeysStep(
    w: seq<ErrorEntry>, norm: Normaliser, lessons: Lessons, keys: seq<Signature>, groups: map<Signature, Candidate>,
    keys': seq<Signature>, groups': map<Signature, Candidate>)
    requires w != [] && KeysFit(w[..|w| - 1], norm, keys, groups)
    requires GroupsFit(w[..|w| - 1], norm, lessons, groups)
    requires
      var s := SignatureOf(w[|w| - 1], norm);
      keys' == (if s in groups then keys else keys + [s]) && groups'.Keys == groups.Keys + {s}
    ensures KeysFit(w, norm, keys', groups')
  {
    var n, s := |w| - 1, SignatureOf(w[|w| - 1], norm);
    forall i | 0 <= i < |keys|
      ensures First(w, keys[i], norm) == First(w[..n], keys[i], norm) < n
    {
      assert keys[i] in keys;
      Occurs(w[..n], keys[i], norm);
    }
    Occurs(w[..n], s, norm);
    forall i, j | 0 <= i < j < |keys'|
      ensures First(w, keys'[i], norm) < First(w, keys'[j], norm)
    {
      if j == |keys| {
        assert keys'[j] == s && keys'[i] == keys[i];
      } else {
        assert keys'[j] == keys[j] && keys'[i] == keys[i];
      }
    }
    assert forall t :: t in keys' <==> t in keys || t == s;
  }

  lemma ValuesAreGroups(
    w: seq<ErrorEntry>, norm: Normaliser, lessons: Lessons,
    keys: seq<Signature>, groups: map<Signature, Candidate>, values: seq<Candidate>)
    requires Grouped(w, norm, lessons, keys, groups)
    requires |values| == |keys|
    requires forall i | 0 <= i < |keys| :: keys[i] in groups && values[i] == groups[keys[i]]
    ensures OldestFirst(w, norm, values)
    ensures forall c :: c in values <==> IsGroup(w, norm, lessons, c)
  {
    forall c | IsGroup(w, norm, lessons, c)
      ensures c in values
    {
      var i :| 0 <= i < |keys| && keys[i] == c.signature;
      assert values[i] == c;
    }
  }

  // ------------------------------------------------------------ what follows for any selection

  /** The selection is determined by the errors in the window: exactly one list is one. */
  lemma {:induction false} SelectionIsDetermined(
    w: seq<ErrorEntry>, norm: Normaliser, lessons: Lessons, min: int, a: seq<Candidate>, b: seq<Candidate>)
    requires IsSelection(w, norm, lessons, min, a) && IsSelection(w, norm, lessons, min, b)
    ensures a == b
  {
    SameMembersSameList(w, norm, a, b);
  }

  lemma {:induction false} SameMembersSameList(
    w: seq<ErrorEntry>, norm: Normaliser, a: seq<Candidate>, b: seq<Candidate>)
    requires InOrder(w, norm, a) && InOrder(w, norm, b)
    requires forall c :: c in a <==> c in b
    ensures a == b
  {
    if a != [] {
      assert a[0] in a;
    }
    if b != [] {
      assert b[0] in b;
    }
    if a != [] && b != [] {
      assert a[0] in b && b[0] in a;
      assert a[0] == b[0] by {
        var i :| 0 <= i < |b| && b[i] == a[0];
        var j :| 0 <= j < |a| && a[j] == b[0];
        assert i > 0 ==> Before(w, norm, b[0], b[i]);
        assert j > 0 ==> Before(w, norm, a[0], a[j]);
      }
      HeadOnlyOnce(w, norm, a);
      HeadOnlyOnce(w, norm, b);
      forall c
        ensures c in a[1..] <==> c in b[1..]
      {
        assert c in a <==> c == a[0] || c in a[1..];
        assert c in b <==> c == b[0] || c in b[1..];
      }
      SameMembersSameList(w, norm, a[1..], b[1..]);
      assert a == [a[0]] + a[1..] && b == [b[0]] + b[1..];
    }
  }

  lemma HeadOnlyOnce(w: seq<ErrorEntry>, norm: Normaliser, a: seq<Candidate>)
    requires a != [] && InOrder(w, norm, a)
    ensures a[0] !in a[1..]
  {
    forall i | 1 <= i < |a|
      ensures a[i] != a[0]
    {
      assert Before(w, norm, a[0], a[i]);
    }
  }

  /** No signature is selected twice. */
  lemma SelectedSignaturesAreDistinct(
    w: seq<ErrorEntry>, norm: Normaliser, lessons: Lessons, min: int, cs: seq<Candidate>, i: nat, j: nat)
    requires IsSelection(w, norm, lessons, min, cs) && i < j < |cs|
    ensures cs[i].signature != cs[j].signature
  {
    assert cs[i] in cs && cs[j] in cs;
    assert Before(w, norm, cs[i], cs[j]);
  }

  ghost predicate Distinct(keys: seq<Signature>) {
    forall i, j | 0 <= i < j < |keys| :: keys[i] != keys[j]
  }

  function TotalCount(w: seq<ErrorEntry>, keys: seq<Signature>, norm: Normaliser): nat {
    if keys == [] then 0
    else TotalCount(w, keys[..|keys| - 1], norm) + |OfSignature(w, keys[|keys| - 1], norm)|
  }

  /** Every error is in exactly one group: over distinct signatures that cover the window the counts add up
      to the number of errors. */
  lemma {:induction false} GroupsPartitionWindow(w: seq<ErrorEntry>, keys: seq<Signature>, norm: Normaliser)
    requires Distinct(keys)
    requires forall e | e in w :: SignatureOf(e, norm) in keys
    ensures TotalCount(w, keys, norm) == |w|
  {
    if w == [] {
      NoErrorsNoCount(keys, norm);
    } else {
      var n := |w| - 1;
      GroupsPartitionWindow(w[..n], keys, norm);
      OneMoreError(w, keys, norm);
    }
  }

  /** In particular the groups selected with a minimum of one cover the window exactly. */
  lemma {:induction false} SelectionPartitionsWindow(
    w: seq<ErrorEntry>, norm: Normaliser, lessons: Lessons, min: int, cs: seq<Candidate>, keys: seq<Signature>)
    requires min <= 1 && IsSelection(w, norm, lessons, min, cs)
    requires |keys| == |cs| && forall i | 0 <= i < |cs| :: keys[i] == cs[i].signature
    ensures TotalCount(w, keys, norm) == |w|
  {
    forall i: nat, j: nat | i < j < |keys|
      ensures keys[i] != keys[j]
    {
      SelectedSignaturesAreDistinct(w, norm, lessons, min, cs, i, j);
    }
    forall k: nat | k < |w|
      ensures SignatureOf(w[k], norm) in keys
    {
      var s := SignatureOf(w[k], norm);
      Occurs(w, s, norm);
      assert IsGroup(w, norm, lessons, GroupOf(w, s, norm, lessons));
      var i :| 0 <= i < |cs| && cs[i] == GroupOf(w, s, norm, lessons);
      assert keys[i] == s;
    }
    GroupsPartitionWindow(w, keys, norm);
  }

  lemma {:induction false} NoErrorsNoCount(keys: seq<Signature>, norm: Normaliser)
    ensures TotalCount([], keys, norm) == 0
  {
    if keys != [] {
      NoErrorsNoCount(keys[..|keys| - 1], norm);
    }
  }

  lemma LongerByOne(w: seq<ErrorEntry>, s: Signature, norm: Normaliser)
    requires w != []
    ensures |OfSignature(w, s, norm)|
            == |OfSignature(w[..|w| - 1], s, norm)| + if SignatureOf(w[|w| - 1], norm) == s then 1 else 0
  {
  }

  lemma LastKey(keys: seq<Signature>, s: Signature)
    requires keys != [] && Distinct(keys)
    ensures Distinct(keys[..|keys| - 1])
    ensures var m := |keys| - 1; if s == keys[m] then s !in keys[..m] else s in keys <==> s in keys[..m]
  {
  }

  lemma {:induction false} OneMoreError(w: seq<ErrorEntry>, keys: seq<Signature>, norm: Normaliser)
    requires w != []
    requires Distinct(keys)
    ensures TotalCount(w, keys, norm)
            == TotalCount(w[..|w| - 1], keys, norm) + if SignatureOf(w[|w| - 1], norm) in keys then 1 else 0
  {
    if keys != [] {
      var m := |keys| - 1;
      LastKey(keys, SignatureOf(w[|w| - 1], norm));
      OneMoreError(w, keys[..m], norm);
      LongerByOne(w, keys[m], norm);
    }
  }

  /** At most three examples, all different, each the opening of an error of the group; with fewer than
      three, no error of the group opens differently. */
  lemma {:induction false} ExamplesAreDistinctOpenings(es: seq<ErrorEntry>)
    ensures |Examples(es)| <= 3
    ensures forall i, j | 0 <= i < j < |Examples(es)| :: Examples(es)[i] != Examples(es)[j]
    ensures forall x | x in Examples(es) :: exists e | e in es :: x == Prefix(e.error, 150)
    ensures |Examples(es)| < 3 ==> forall e | e in es :: Prefix(e.error, 150) in Examples(es)
    ensures es != [] ==> Examples(es) != [] && Examples(es)[0] == Prefix(es[0].error, 150)
  {
    if es != [] {
      var n := |es| - 1;
      ExamplesAreDistinctOpenings(es[..n]);
      var was, text := Examples(es[..n]), Prefix(es[n].error, 150);
      forall x | x in Examples(es)
        ensures exists e | e in es :: x == Prefix(e.error, 150)
      {
        if x in was {
          var e :| e in es[..n] && x == Prefix(e.error, 150);
          assert e in es;
        } else {
          assert x == text && es[n] in es;
        }
      }
      forall e | e in es && |Examples(es)| < 3
        ensures Prefix(e.error, 150) in Examples(es)
      {
        if e != es[n] {
          assert e in es[..n];
        }
      }
    }
  }

  /** An error outside the window has no influence: a failure that does not recur is not selected again. */
  lemma {:induction false} StaleErrorsDoNotCount(
    before: seq<ErrorEntry>, stale: ErrorEntry, after: seq<ErrorEntry>, cutoff: int)
    requires !InWindow(stale, cutoff)
    ensures Window(before + [stale] + after, cutoff) == Window(before + after, cutoff)
  {
    if after == [] {
      WindowOfOneMore(before, stale, cutoff);
      assert before + [stale] + after == before + [stale] && before + after == before;
    } else {
      var n := |after| - 1;
      StaleErrorsDoNotCount(before, stale, after[..n], cutoff);
      WindowOfOneMore(before + [stale] + after[..n], after[n], cutoff);
      WindowOfOneMore(before + after[..n], after[n], cutoff);
      assert before + [stale] + after == (before + [stale] + after[..n]) + [after[n]];
      assert before + after == (before + after[..n]) + [after[n]];
    }
  }

  lemma WindowOfOneMore(log: seq<ErrorEntry>, e: ErrorEntry, cutoff: int)
    ensures Window(log + [e], cutoff) == Window(log, cutoff) + if InWindow(e, cutoff) then [e] else []
  {
    assert (log + [e])[..|log|] == log;
  }

  /** What a group is: errors of one tool share a signature if and only if they open alike in the first 60
      characters, normalised. What follows never matters. */
  lemma {:induction false} SignatureIsToolAndOpening(a: ErrorEntry, b: ErrorEntry, norm: Normaliser)
    requires a.tool == b.tool
    ensures
      SignatureOf(a, norm) == SignatureOf(b, norm)
      <==> norm(if |a.error| <= 60 then a.error else a.error[..60])
           == norm(if |b.error| <= 60 then b.error else b.error[..60])
  {
    var head := a.tool + ":";
    assert Prefix(a.error, 60) == if |a.error| <= 60 then a.error else a.error[..60];
    assert Prefix(b.error, 60) == if |b.error| <= 60 then b.error else b.error[..60];
    assert SignatureOf(a, norm) == head + norm(Prefix(a.error, 60));
    assert SignatureOf(b, norm) == head + norm(Prefix(b.error, 60));
    SameTail(head, norm(Prefix(a.error, 60)), norm(Prefix(b.error, 60)));
  }

  lemma SameTail(head: string, x: string, y: string)
    ensures head + x == head + y <==> x == y
  {
    assert (head + x)[|head|..] == x && (head + y)[|head|..] == y;
  }

  /** Tools whose names hold no colon never share a group. */
  lemma {:induction false} ToolsStayApart(a: ErrorEntry, b: ErrorEntry, norm: Normaliser)
    requires ':' !in a.tool && ':' !in b.tool && SignatureOf(a, norm) == SignatureOf(b, norm)
    ensures a.tool == b.tool
  {
    var s := SignatureOf(a, norm);
    assert s[..|a.tool|] == a.tool && s[..|b.tool|] == b.tool;
    assert s[|a.tool|] == ':' && s[|b.tool|] == ':';
    forall i | 0 <= i < |a.tool|
      ensures s[i] != ':'
    {
      assert a.tool[i] in a.tool;
    }
    forall i | 0 <= i < |b.tool|
      ensures s[i] != ':'
    {
      assert b.tool[i] in b.tool;
    }
  }
}
