/** Self-improvement proposals (src/coding/improvement-proposals.ts): the append-only proposal log with its
    denial cursor, and the ledger entries through which the owner confirms (src/tools/self-improve.ts) or
    denies (src/security/confirm-handler.ts) a proposal. */
module Proposals {
  import opened Messages

  type Signature = string

  const MS_PER_DAY := 86_400_000

  datatype Outcome = Proposed | Denied | Confirmed

  datatype Entry = Entry(
    signature: Signature, spec: string, proposedAt: int, outcome: Outcome, pendingId: Option<string>)

  /** A row of the metrics log. `isDenial` stands for its type and action, `specFragment` for the spec text
      that could be read back out of a truncated `detail`. */
  datatype Row = Row(timestamp: nat, isDenial: bool, detail: string, specFragment: Option<string>)

  // ------------------------------------------------------------ the log and its latest entries

  /** Latest entry per signature. */
  function BySignature(log: seq<Entry>): map<Signature, Entry> {
    if log == [] then map[]
    else
      var last := log[|log| - 1];
      BySignature(log[..|log| - 1])[last.signature := last]
  }

  /** The order in which a JavaScript `Map` lists its keys: by first insertion. */
  function KeyOrder(log: seq<Entry>): (keys: seq<Signature>)
    ensures forall s :: s in keys <==> s in BySignature(log)
    ensures forall i, j | 0 <= i < j < |keys| :: keys[i] != keys[j]
  {
    if log == [] then []
    else
      var before, s := KeyOrder(log[..|log| - 1]), log[|log| - 1].signature;
      if s in BySignature(log[..|log| - 1]) then before else before + [s]
  }

  /** `a` is logged before `b` is logged at all. */
  ghost predicate FirstBefore(log: seq<Entry>, a: Signature, b: Signature) {
    exists p: nat | p < |log| :: log[p].signature == a && NotAmong(log[..p + 1], b)
  }

  predicate NotAmong(log: seq<Entry>, s: Signature) {
    forall e | e in log :: e.signature != s
  }

  lemma {:induction false} Among(log: seq<Entry>, s: Signature)
    ensures s in BySignature(log) <==> !NotAmong(log, s)
  {
    if log != [] {
      var n := |log| - 1;
      Among(log[..n], s);
      assert log == log[..n] + [log[n]];
    }
  }

  lemma {:induction false} KeysAreInFirstInsertionOrder(log: seq<Entry>, i: nat, j: nat)
    requires i < j < |KeyOrder(log)|
    ensures FirstBefore(log, KeyOrder(log)[i], KeyOrder(log)[j])
  {
    var n := |log| - 1;
    var before, keys := log[..n], KeyOrder(log);
    if j < |KeyOrder(before)| {
      KeysAreInFirstInsertionOrder(before, i, j);
      var p: nat :| p < n && before[p].signature == keys[i] && NotAmong(before[..p + 1], keys[j]);
      assert log[..p + 1] == before[..p + 1];
    } else {
      Among(before, keys[j]);
      Among(before, keys[i]);
      assert keys[i] in KeyOrder(before);
      var e :| e in before && e.signature == keys[i];
      var p: nat :| p < n && before[p] == e;
      assert log[p].signature == keys[i];
      forall x | x in log[..p + 1]
        ensures x.signature != keys[j]
      {
        assert x in before;
      }
    }
  }

  lemma {:induction false} LatestCarriesItsSignature(log: seq<Entry>, s: Signature)
    requires s in BySignature(log)
    ensures BySignature(log)[s].signature == s
  {
    if log[|log| - 1].signature != s {
      LatestCarriesItsSignature(log[..|log| - 1], s);
    }
  }

  lemma {:induction false} AppendOthers(log: seq<Entry>, more: seq<Entry>, s: Signature)
    requires forall e | e in more :: e.signature != s
    ensures s in BySignature(log + more) <==> s in BySignature(log)
    ensures s in BySignature(log) ==> BySignature(log + more)[s] == BySignature(log)[s]
  {
    if more == [] {
      assert log + more == log;
    } else {
      var n := |more| - 1;
      assert (log + more)[..|log + more| - 1] == log + more[..n];
      AppendOthers(log, more[..n], s);
    }
  }

  lemma {:induction false} AppendSame(log: seq<Entry>, more: seq<Entry>, e: Entry)
    requires e in more
    requires forall x | x in more && x.signature == e.signature :: x == e
    ensures e.signature in BySignature(log + more) && BySignature(log + more)[e.signature] == e
  {
    var n := |more| - 1;
    assert (log + more)[..|log + more| - 1] == log + more[..n];
    if more[n].signature != e.signature {
      AppendSame(log, more[..n], e);
    }
  }

  // ------------------------------------------------------------ absorbing denials

  predicate Contains(text: string, part: string) {
    exists i | 0 <= i <= |text| :: OccursAt(text, part, i)
  }

  predicate OccursAt(text: string, part: string, i: nat)
    requires i <= |text|
  {
    part <= text[i..]
  }

  function Prefix(text: string, n: nat): string {
    text[..Min(n, |text|)]
  }

  predicate MatchesRow(e: Entry, row: Row) {
    || (e.pendingId.Some? && e.pendingId.value != "" && Contains(row.detail, e.pendingId.value))
    || Contains(row.detail, e.signature)
    || (row.specFragment.Some? && Prefix(row.specFragment.value, 60) <= e.spec)
  }

  /** `text.includes(part)`. */
  lemma {:induction false} ContainsMeaning(text: string, part: string)
    ensures Contains(text, part) <==> exists a, b :: text == a + part + b
  {
    if Contains(text, part) {
      var i :| 0 <= i <= |text| && OccursAt(text, part, i);
      assert text == text[..i] + part + text[i + |part|..];
    }
    if a, b :| text == a + part + b {
      assert text[|a|..] == part + b;
      assert OccursAt(text, part, |a|);
    }
  }

  /** A row names a proposal by its id or its signature, anywhere in its detail, or by the first 60 characters
      of a specification; nothing else matches. */
  lemma {:induction false} RowNames(e: Entry, row: Row)
    ensures
      MatchesRow(e, row)
      <==> || (e.pendingId.Some? && e.pendingId.value != ""
               && exists a, b :: row.detail == a + e.pendingId.value + b)
           || (exists a, b :: row.detail == a + e.signature + b)
           || (row.specFragment.Some?
               && (var fragment := row.specFragment.value;
                   (if |fragment| <= 60 then fragment else fragment[..60]) <= e.spec))
  {
    ContainsMeaning(row.detail, e.signature);
    if e.pendingId.Some? {
      ContainsMeaning(row.detail, e.pendingId.value);
    }
  }

  predicate Denies(e: Entry, row: Row) {
    e.outcome.Proposed? && MatchesRow(e, row)
  }

  function NewDenials(rows: seq<Row>, since: nat): (found: seq<Row>)
    ensures forall r :: r in found <==> r in rows && r.isDenial && r.timestamp > since
  {
    if rows == [] then []
    else (if rows[0].isDenial && rows[0].timestamp > since then [rows[0]] else []) + NewDenials(rows[1..], since)
  }

  /** Rows are read in log order: reading a longer log reads the rows behind after those before. */
  lemma {:induction false} NewDenialsInOrder(rows: seq<Row>, more: seq<Row>, since: nat)
    ensures NewDenials(rows + more, since) == NewDenials(rows, since) + NewDenials(more, since)
  {
    if rows == [] {
      assert rows + more == more;
    } else {
      assert (rows + more)[1..] == rows[1..] + more;
      NewDenialsInOrder(rows[1..], more, since);
    }
  }

  /** The entries appended for one row, in key order. */
  function DenialsOf(current: map<Signature, Entry>, keys: seq<Signature>, row: Row): seq<Entry>
    requires forall s | s in keys :: s in current
  {
    if keys == [] then []
    else
      var e := current[keys[0]];
      (if Denies(e, row) then [e.(outcome := Denied)] else []) + DenialsOf(current, keys[1..], row)
  }

  function AllDenials(current: map<Signature, Entry>, keys: seq<Signature>, rows: seq<Row>): seq<Entry>
    requires forall s | s in keys :: s in current
  {
    if rows == [] then []
    else AllDenials(current, keys, rows[..|rows| - 1]) + DenialsOf(current, keys, rows[|rows| - 1])
  }

  function Newest(rows: seq<Row>, since: nat): (newest: nat)
    ensures newest >= since
    ensures forall r | r in rows :: r.timestamp <= newest
  {
    if rows == [] then since
    else Max(rows[|rows| - 1].timestamp, Newest(rows[..|rows| - 1], since))
  }

  /** The cursor moves exactly to the newest row that was read. */
  lemma {:induction false} NewestIsAttained(rows: seq<Row>, since: nat)
    ensures Newest(rows, since) == since || exists r | r in rows :: r.timestamp == Newest(rows, since)
  {
    if rows != [] {
      var n := |rows| - 1;
      NewestIsAttained(rows[..n], since);
      assert rows == rows[..n] + [rows[n]];
    }
  }

  function Appended(log: seq<Entry>, rows: seq<Row>): seq<Entry> {
    AllDenials(BySignature(log), KeyOrder(log), rows)
  }

  lemma OneRowMore(current: map<Signature, Entry>, keys: seq<Signature>, rows: seq<Row>, i: nat, since: nat)
    requires i < |rows| && forall s | s in keys :: s in current
    ensures AllDenials(current, keys, rows[..i + 1])
            == AllDenials(current, keys, rows[..i]) + DenialsOf(current, keys, rows[i])
    ensures Newest(rows[..i + 1], since) == Max(rows[i].timestamp, Newest(rows[..i], since))
  {
    assert rows[..i + 1][..i] == rows[..i];
  }

  class ProposalHistory {
    var log: seq<Entry>
    var cursor: nat
    var metrics: seq<Row>

    constructor ()
      ensures log == [] && cursor == 0 && metrics == []
    {
      log, cursor, metrics := [], 0, [];
    }

    method Append(e: Entry)
      modifies this`log
      ensures log == old(log) + [e]
    {
      log := log + [e];
    }

    /** `cursorLands` is false when the cursor file could not be written, which is not an error. */
    method AbsorbDenialsFromMetrics(cursorLands: bool) returns (marked: nat)
      modifies this`log, this`cursor
      ensures
        var rows := NewDenials(metrics, old(cursor));
        && log == old(log) + Appended(old(log), rows)
        && marked == |Appended(old(log), rows)|
        && cursor == if cursorLands then Newest(rows, old(cursor)) else old(cursor)
    {
      var since := cursor;
      var rows := NewDenials(metrics, since);
      if |rows| == 0 {
        assert log == log + [];
        return 0;
      }
      var newest;
      marked, newest := AppendDenials(BySignature(log), KeyOrder(log), rows, since);
      if cursorLands {
        cursor := newest;
      }
    }

    /** The loop over the rows. */
    method AppendDenials(current: map<Signature, Entry>, keys: seq<Signature>, rows: seq<Row>, since: nat)
      returns (marked: nat, newest: nat)
      requires forall s | s in keys :: s in current
      modifies this`log
      ensures log == old(log) + AllDenials(current, keys, rows)
      ensures marked == |AllDenials(current, keys, rows)|
      ensures newest == Newest(rows, since)
    {
      marked, newest := 0, since;
      ghost var done: seq<Entry> := [];
      for i := 0 to |rows|
        invariant newest == Newest(rows[..i], since)
        invariant done == AllDenials(current, keys, rows[..i])
        invariant log == old(log) + done && marked == |done|
      {
        var r := rows[i];
        OneRowMore(current, keys, rows, i, since);
        if r.timestamp > newest {
          newest := r.timestamp;
        }
        var n := AppendDenialsFor(current, keys, r);
        marked := marked + n;
        done := done + DenialsOf(current, keys, r);
      }
      assert rows[..|rows|] == rows;
    }

    /** The inner loop, over the entries as they were before the first row. */
    method AppendDenialsFor(current: map<Signature, Entry>, keys: seq<Signature>, row: Row) returns (n: nat)
      requires forall s | s in keys :: s in current
      modifies this`log
      ensures log == old(log) + DenialsOf(current, keys, row)
      ensures n == |DenialsOf(current, keys, row)|
    {
      n := 0;
      ghost var all := DenialsOf(current, keys, row);
      for k := 0 to |keys|
        invariant log + DenialsOf(current, keys[k..], row) == old(log) + all
        invariant n + |DenialsOf(current, keys[k..], row)| == |all|
      {
        var e := current[keys[k]];
        ghost var rest := DenialsOf(current, keys[k + 1..], row);
        assert keys[k..][1..] == keys[k + 1..];
        if Denies(e, row) {
          assert log + DenialsOf(current, keys[k..], row) == (log + [e.(outcome := Denied)]) + rest;
          Append(e.(outcome := Denied));
          n := n + 1;
        } else {
          assert DenialsOf(current, keys[k..], row) == rest;
        }
      }
    }

    method Eligible(s: Signature, cooldownDays: nat, now: int) returns (eligible: bool)
      ensures eligible == EligibleIn(log, s, cooldownDays, now)
    {
      var latest := BySignature(log);
      if s !in latest {
        return true;
      }
      if latest[s].outcome.Denied? {
        return false;
      }
      var age := now - latest[s].proposedAt;
      return age > cooldownDays * MS_PER_DAY;
    }
  }

  predicate EligibleIn(log: seq<Entry>, s: Signature, cooldownDays: nat, now: int) {
    var latest := BySignature(log);
    if s !in latest then true
    else if latest[s].outcome.Denied? then false
    else now - latest[s].proposedAt > cooldownDays * MS_PER_DAY
  }

  lemma {:induction false} DenialsOfMembers(current: map<Signature, Entry>, keys: seq<Signature>, row: Row, x: Entry)
    requires forall s | s in keys :: s in current
    ensures x in DenialsOf(current, keys, row)
            <==> exists s | s in keys :: Denies(current[s], row) && x == current[s].(outcome := Denied)
  {
    if keys != [] {
      DenialsOfMembers(current, keys[1..], row, x);
      assert forall s :: s in keys <==> s == keys[0] || s in keys[1..];
    }
  }

  lemma SomeRowExtends(current: map<Signature, Entry>, keys: seq<Signature>, rows: seq<Row>, last: Row, x: Entry)
    requires forall s | s in keys :: s in current
    ensures (exists r | r in rows + [last] :: x in DenialsOf(current, keys, r))
            <==> (exists r | r in rows :: x in DenialsOf(current, keys, r)) || x in DenialsOf(current, keys, last)
  {
    if exists r | r in rows :: x in DenialsOf(current, keys, r) {
      var r :| r in rows && x in DenialsOf(current, keys, r);
      assert r in rows + [last];
    }
    assert last in rows + [last];
  }

  lemma {:induction false} AllDenialsMembers(
    current: map<Signature, Entry>, keys: seq<Signature>, rows: seq<Row>, x: Entry)
    requires forall s | s in keys :: s in current
    ensures x in AllDenials(current, keys, rows) <==> exists r | r in rows :: x in DenialsOf(current, keys, r)
  {
    if rows != [] {
      var n := |rows| - 1;
      AllDenialsMembers(current, keys, rows[..n], x);
      assert rows == rows[..n] + [rows[n]];
      SomeRowExtends(current, keys, rows[..n], rows[n], x);
    }
  }

  /** Every appended entry denies the latest entry of its signature on account of some row. */
  lemma AppendedIsDenial(log: seq<Entry>, rows: seq<Row>, x: Entry) returns (r: Row)
    requires x in Appended(log, rows)
    ensures r in rows && x.signature in BySignature(log)
    ensures Denies(BySignature(log)[x.signature], r) && x == BySignature(log)[x.signature].(outcome := Denied)
  {
    var current, keys := BySignature(log), KeyOrder(log);
    AllDenialsMembers(current, keys, rows, x);
    r :| r in rows && x in DenialsOf(current, keys, r);
    DenialsOfMembers(current, keys, r, x);
    var s :| s in keys && Denies(current[s], r) && x == current[s].(outcome := Denied);
    LatestCarriesItsSignature(log, s);
  }

  lemma DenialIsAppended(log: seq<Entry>, rows: seq<Row>, s: Signature, r: Row)
    requires r in rows && s in BySignature(log) && Denies(BySignature(log)[s], r)
    ensures BySignature(log)[s].(outcome := Denied) in Appended(log, rows)
  {
    var x := BySignature(log)[s].(outcome := Denied);
    DenialsOfMembers(BySignature(log), KeyOrder(log), r, x);
    AllDenialsMembers(BySignature(log), KeyOrder(log), rows, x);
  }

  /** The point of absorbing, however many rows match however many entries: a proposed signature that some
      new row denies becomes denied, and every other signature keeps its latest entry. */
  lemma {:induction false} AbsorbedMap(log: seq<Entry>, rows: seq<Row>, s: Signature)
    ensures
      var before, after := BySignature(log), BySignature(log + Appended(log, rows));
      && (s in after <==> s in before)
      && (s in before ==>
            after[s]
            == if exists r | r in rows :: Denies(before[s], r) then before[s].(outcome := Denied) else before[s])
  {
    var before, more := BySignature(log), Appended(log, rows);
    forall x | x in more && x.signature == s
      ensures s in before && x == before[s].(outcome := Denied)
      ensures exists r | r in rows :: Denies(before[s], r)
    {
      var r := AppendedIsDenial(log, rows, x);
    }
    if s in before && exists r | r in rows :: Denies(before[s], r) {
      var r :| r in rows && Denies(before[s], r);
      DenialIsAppended(log, rows, s, r);
      LatestCarriesItsSignature(log, s);
      AppendSame(log, more, before[s].(outcome := Denied));
    } else {
      AppendOthers(log, more, s);
    }
  }

  /** A lost cursor write is harmless: absorbing the same rows again appends nothing at all. */
  lemma {:induction false} ReabsorbingAppendsNothing(log: seq<Entry>, rows: seq<Row>)
    ensures Appended(log + Appended(log, rows), rows) == []
  {
    var again := log + Appended(log, rows);
    if Appended(again, rows) != [] {
      var x := Appended(again, rows)[0];
      var r := AppendedIsDenial(again, rows, x);
      AbsorbedMap(log, rows, x.signature);
      assert false;
    }
  }

  // ------------------------------------------------------------ runs

  type PendingId = string

  /** What a ledger entry of `self_improve` carries. */
  datatype Proposal = Proposal(signature: Signature, spec: string)

  datatype State = State(log: seq<Entry>, cursor: nat, metrics: seq<Row>, ledger: map<PendingId, Proposal>)

  const EMPTY := State([], 0, [], map[])

  datatype Step =
    /** The heartbeat proposes, having checked eligibility at `now`; the ledger gives out a new id. */
    | Propose(signature: Signature, spec: string, now: int, id: PendingId, cooldownDays: nat)
    | Absorb(cursorLands: bool)
    /** Some other row of the metrics log, denials of earlier versions included. */
    | LogRow(row: Row)
    /** The owner denies an open entry. The row leads with its id; `preview` and `fragment` are what is left of
        its parameters. The row is written even when the entry could not be taken out of the ledger. */
    | Deny(id: PendingId, at: nat, preview: string, fragment: Option<string>, consumed: bool)
    /** The owner confirms an open entry: it must be taken out of the ledger, and still be allowed, to run. */
    | Confirm(id: PendingId, now: int, consumed: bool, allowed: bool)
    | Expire(id: PendingId)

  function DenialRow(id: PendingId, at: nat, preview: string, fragment: Option<string>): Row {
    Row(at, true, id + " " + preview, fragment)
  }

  /** A confirmed proposal runs, and says so in the log, unless its specification is blank. */
  predicate Runs(s: State, step: Step, signature: Signature) {
    && step.Confirm? && step.consumed && step.allowed && step.id in s.ledger
    && s.ledger[step.id].signature == signature && s.ledger[step.id].spec != ""
  }

  function Next(s: State, step: Step): State {
    match step
    case Propose(signature, spec, now, id, cooldownDays) =>
      if EligibleIn(s.log, signature, cooldownDays, now) && id !in s.ledger
      then s.(log := s.log + [Entry(signature, spec, now, Proposed, Some(id))],
              ledger := s.ledger[id := Proposal(signature, spec)])
      else s
    case Absorb(cursorLands) =>
      var rows := NewDenials(s.metrics, s.cursor);
      s.(log := s.log + Appended(s.log, rows), cursor := if cursorLands then Newest(rows, s.cursor) else s.cursor)
    case LogRow(row) => s.(metrics := s.metrics + [row])
    case Deny(id, at, preview, fragment, consumed) =>
      if id !in s.ledger then s
      else s.(metrics := s.metrics + [DenialRow(id, at, preview, fragment)],
              ledger := if consumed then s.ledger - {id} else s.ledger)
    case Confirm(id, now, consumed, allowed) =>
      if id !in s.ledger || !consumed then s
      else
        var p := s.ledger[id];
        s.(ledger := s.ledger - {id},
           log := if allowed && p.spec != "" then s.log + [Entry(p.signature, p.spec, now, Confirmed, None)] else s.log)
    case Expire(id) => s.(ledger := s.ledger - {id})
  }

  function RunFrom(s: State, steps: seq<Step>): State {
    if steps == [] then s else Next(RunFrom(s, steps[..|steps| - 1]), steps[|steps| - 1])
  }

  predicate IsDenied(s: State, signature: Signature) {
    signature in BySignature(s.log) && BySignature(s.log)[signature].outcome.Denied?
  }

  /** One step leaves a denied signature denied exactly when it does not run an open entry of it. */
  lemma DenialSurvivesStep(s: State, step: Step, signature: Signature)
    requires IsDenied(s, signature)
    ensures IsDenied(Next(s, step), signature) <==> !Runs(s, step, signature)
  {
    match step
    case Propose(other, spec, now, id, cooldownDays) =>
      if EligibleIn(s.log, other, cooldownDays, now) {
        AppendOthers(s.log, [Entry(other, spec, now, Proposed, Some(id))], signature);
      }
    case Absorb(_) => AbsorbedMap(s.log, NewDenials(s.metrics, s.cursor), signature);
    case Confirm(id, now, consumed, allowed) =>
      if id in s.ledger {
        var p := s.ledger[id];
        var e := Entry(p.signature, p.spec, now, Confirmed, None);
        if p.signature != signature {
          AppendOthers(s.log, [e], signature);
        } else {
          AppendSame(s.log, [e], e);
        }
      }
    case _ =>
  }

  /** Denial is terminal: as long as no open entry of it is run, a denied signature stays denied through any
      run, is never eligible again whatever the cooldown and the clock, and gets no further proposal. */
  lemma {:induction false} DenialIsTerminal(s: State, steps: seq<Step>, signature: Signature)
    requires IsDenied(s, signature)
    requires NeverRun(s, steps, signature)
    ensures IsDenied(RunFrom(s, steps), signature)
    ensures forall days: nat, now :: !EligibleIn(RunFrom(s, steps).log, signature, days, now)
    ensures OnlyDenialsSince(s, RunFrom(s, steps), signature)
  {
    if steps != [] {
      var n := |steps| - 1;
      var before := RunFrom(s, steps[..n]);
      NeverRunBefore(s, steps, signature);
      DenialIsTerminal(s, steps[..n], signature);
      DenialSurvivesStep(before, steps[n], signature);
      StepAppends(before, steps[n], signature);
      DenialsSince(s, before, Next(before, steps[n]), signature);
    }
  }

  /** No step of this run runs an open entry of the signature. */
  predicate NeverRun(s: State, steps: seq<Step>, signature: Signature) {
    forall i | 0 <= i < |steps| :: !Runs(RunFrom(s, steps[..i]), steps[i], signature)
  }

  lemma NeverRunBefore(s: State, steps: seq<Step>, signature: Signature)
    requires steps != [] && NeverRun(s, steps, signature)
    ensures
      var n := |steps| - 1;
      NeverRun(s, steps[..n], signature) && !Runs(RunFrom(s, steps[..n]), steps[n], signature)
  {
    var n := |steps| - 1;
    forall i | 0 <= i < n
      ensures !Runs(RunFrom(s, steps[..n][..i]), steps[..n][i], signature)
    {
      assert steps[..n][..i] == steps[..i];
    }
  }

  /** The log has grown, by no entry of the signature but denials. */
  ghost predicate OnlyDenialsSince(s: State, t: State, signature: Signature) {
    s.log <= t.log && forall e | e in t.log[|s.log|..] && e.signature == signature :: e.outcome.Denied?
  }

  lemma DenialsSince(s: State, t: State, u: State, signature: Signature)
    requires OnlyDenialsSince(s, t, signature) && OnlyDenialsSince(t, u, signature)
    ensures OnlyDenialsSince(s, u, signature)
  {
    assert u.log[|s.log|..] == t.log[|s.log|..] + u.log[|t.log|..];
  }

  lemma StepAppends(s: State, step: Step, signature: Signature)
    requires IsDenied(s, signature) && !Runs(s, step, signature)
    ensures OnlyDenialsSince(s, Next(s, step), signature)
  {
    if step.Absorb? {
      var rows := NewDenials(s.metrics, s.cursor);
      forall e | e in Appended(s.log, rows)
        ensures e.outcome.Denied?
      {
        var r := AppendedIsDenial(s.log, rows, e);
      }
    }
  }

  /** In particular once no entry of it is open any more, whatever else is confirmed. */
  lemma {:induction false} ClosedDenialIsTerminal(s: State, steps: seq<Step>, signature: Signature)
    requires IsDenied(s, signature)
    requires NoneOpen(s, signature)
    ensures IsDenied(RunFrom(s, steps), signature) && NoneOpen(RunFrom(s, steps), signature)
    ensures forall days: nat, now :: !EligibleIn(RunFrom(s, steps).log, signature, days, now)
  {
    if steps != [] {
      var before, last := RunFrom(s, steps[..|steps| - 1]), steps[|steps| - 1];
      ClosedDenialIsTerminal(s, steps[..|steps| - 1], signature);
      DenialSurvivesStep(before, last, signature);
    }
  }

  predicate NoneOpen(s: State, signature: Signature) {
    forall id | id in s.ledger :: s.ledger[id].signature != signature
  }

  /** A denial and the pass that follows it: a proposal that the new row matches, as the denied one does by its
      id, is denied if and only if the row is past the cursor, or another unread row denies it anyway. */
  lemma {:induction false} DenialIsAbsorbed(
    s: State, id: PendingId, at: nat, preview: string, fragment: Option<string>, consumed: bool, lands: bool,
    signature: Signature)
    requires id in s.ledger && signature in BySignature(s.log)
    requires Denies(BySignature(s.log)[signature], DenialRow(id, at, preview, fragment))
    ensures
      var t := Next(Next(s, Deny(id, at, preview, fragment, consumed)), Absorb(lands));
      IsDenied(t, signature)
      <==> || at > s.cursor
           || exists r | r in NewDenials(s.metrics, s.cursor) :: Denies(BySignature(s.log)[signature], r)
  {
    var row := DenialRow(id, at, preview, fragment);
    NewDenialsInOrder(s.metrics, [row], s.cursor);
    assert NewDenials([row], s.cursor) == if at > s.cursor then [row] else [];
    AbsorbedMap(s.log, NewDenials(s.metrics + [row], s.cursor), signature);
    EitherDenies(NewDenials(s.metrics, s.cursor), NewDenials([row], s.cursor), BySignature(s.log)[signature]);
  }

  lemma EitherDenies(rows: seq<Row>, more: seq<Row>, e: Entry)
    ensures (exists r | r in rows + more :: Denies(e, r))
            <==> (exists r | r in rows :: Denies(e, r)) || (exists r | r in more :: Denies(e, r))
  {
    if r :| r in rows && Denies(e, r) {
      assert r in rows + more;
    }
    if r :| r in more && Denies(e, r) {
      assert r in rows + more;
    }
  }

  lemma DenialNamesItsProposal(e: Entry, id: PendingId, at: nat, preview: string, fragment: Option<string>)
    requires e.pendingId == Some(id) && id != ""
    ensures MatchesRow(e, DenialRow(id, at, preview, fragment))
  {
    assert OccursAt(DenialRow(id, at, preview, fragment).detail, id, 0);
  }

  /** So a denial that is past the cursor, of the only open entry of its signature, settles it for good: after
      the pass that follows, no run whatever makes the signature eligible again. */
  lemma {:induction false} DenialSettles(
    s: State, id: PendingId, at: nat, preview: string, fragment: Option<string>, lands: bool, more: seq<Step>)
    requires id in s.ledger && id != "" && at > s.cursor
    requires
      var signature := s.ledger[id].signature;
      && signature in BySignature(s.log) && BySignature(s.log)[signature].outcome.Proposed?
      && BySignature(s.log)[signature].pendingId == Some(id)
      && forall other | other in s.ledger && other != id :: s.ledger[other].signature != signature
    ensures
      var t := RunFrom(Next(Next(s, Deny(id, at, preview, fragment, true)), Absorb(lands)), more);
      && IsDenied(t, s.ledger[id].signature)
      && forall days: nat, now :: !EligibleIn(t.log, s.ledger[id].signature, days, now)
  {
    var signature := s.ledger[id].signature;
    DenialNamesItsProposal(BySignature(s.log)[signature], id, at, preview, fragment);
    DenialIsAbsorbed(s, id, at, preview, fragment, true, lands, signature);
    ClosedDenialIsTerminal(Next(Next(s, Deny(id, at, preview, fragment, true)), Absorb(lands)), more, signature);
  }

  /** A row that is not past the cursor is never read, in this pass or any later one. */
  lemma {:induction false} MissedRowIsNeverRead(s: State, row: Row, more: seq<Step>)
    requires row.timestamp <= s.cursor
    ensures row !in NewDenials(RunFrom(s, more).metrics, RunFrom(s, more).cursor)
  {
    CursorOnlyAdvances(s, more);
  }

  /** The denial cursor never moves back. */
  lemma {:induction false} CursorOnlyAdvances(s: State, steps: seq<Step>)
    ensures s.cursor <= RunFrom(s, steps).cursor
  {
    if steps != [] {
      CursorOnlyAdvances(s, steps[..|steps| - 1]);
    }
  }

  /** Proposals are spaced: where no cooldown is shorter than `days`, a signature is proposed only if its latest
      entry, proposed or confirmed, is more than that many days older. */
  lemma {:induction false} ProposalsAreSpaced(steps: seq<Step>, days: nat, j: nat)
    requires forall i | 0 <= i < |steps| && steps[i].Propose? :: steps[i].cooldownDays >= days
    requires j < |RunFrom(EMPTY, steps).log| && RunFrom(EMPTY, steps).log[j].outcome.Proposed?
    ensures SpacedAt(RunFrom(EMPTY, steps).log, days, j)
  {
    var before, last := steps[..|steps| - 1], steps[|steps| - 1];
    var s, t := RunFrom(EMPTY, before), RunFrom(EMPTY, steps);
    LogOnlyGrows(s, last);
    assert s.log == t.log[..|s.log|];
    if j < |s.log| {
      ProposalsAreSpaced(before, days, j);
      assert t.log[..j] == s.log[..j];
    } else {
      NewProposalIsSpaced(s, last, days, j);
    }
  }

  predicate SpacedAt(log: seq<Entry>, days: nat, j: nat)
    requires j < |log|
  {
    var latest := BySignature(log[..j]);
    var e := log[j];
    e.signature in latest ==>
      !latest[e.signature].outcome.Denied?
      && e.proposedAt - latest[e.signature].proposedAt > days * 24 * 60 * 60 * 1000
  }

  lemma LogOnlyGrows(s: State, step: Step)
    ensures s.log <= Next(s, step).log
  {
  }

  lemma NewProposalIsSpaced(s: State, step: Step, days: nat, j: nat)
    requires step.Propose? ==> step.cooldownDays >= days
    requires |s.log| <= j < |Next(s, step).log| && Next(s, step).log[j].outcome.Proposed?
    ensures SpacedAt(Next(s, step).log, days, j)
  {
    var t := Next(s, step);
    if step.Absorb? {
      var rows := NewDenials(s.metrics, s.cursor);
      var r := AppendedIsDenial(s.log, rows, Appended(s.log, rows)[j - |s.log|]);
      assert false;
    } else if step.Propose? {
      assert t.log[..j] == s.log;
      Longer(days, step.cooldownDays);
    }
  }

  lemma Longer(a: nat, b: nat)
    requires a <= b
    ensures a * 24 * 60 * 60 * 1000 <= b * MS_PER_DAY
  {
  }

  /** And once the cooldown is over a signature that was proposed, and not denied, may be proposed again; one
      that was never logged always may. */
  lemma EligibleAfterCooldown(log: seq<Entry>, signature: Signature, days: nat, now: int)
    requires signature in BySignature(log) ==>
               !BySignature(log)[signature].outcome.Denied?
               && now - BySignature(log)[signature].proposedAt > days * 24 * 60 * 60 * 1000
    ensures EligibleIn(log, signature, days, now)
  {
    assert days * 24 * 60 * 60 * 1000 == days * MS_PER_DAY;
  }

  // ------------------------------------------------------------ runs in which a denial does not last

  /** From the empty log: two proposals whose specifications open alike. Denying the second also denies the
      first, by its opening, while the first is still open in the ledger. */
  function DeniedAlongside(a: Proposal, b: Proposal, preview: string): seq<Step> {
    [Propose(a.signature, a.spec, 0, "1", 7), Propose(b.signature, b.spec, 0, "2", 7),
     Deny("2", 1, preview, Some(b.spec), true), Absorb(true)]
  }

  /** From the empty log: a proposal is denied while the ledger cannot be written, so its entry stays open. */
  function DeniedInVain(a: Proposal, preview: string): seq<Step> {
    [Propose(a.signature, a.spec, 0, "1", 7), Deny("1", 1, preview, None, false), Absorb(true)]
  }

  function FirstEntry(a: Proposal, id: PendingId): Entry {
    Entry(a.signature, a.spec, 0, Proposed, Some(id))
  }

  lemma ProposesFirst(a: Proposal)
    ensures Next(EMPTY, Propose(a.signature, a.spec, 0, "1", 7)) == State([FirstEntry(a, "1")], 0, [], map["1" := a])
    ensures BySignature([FirstEntry(a, "1")]) == map[a.signature := FirstEntry(a, "1")]
  {
    LogOfOne(FirstEntry(a, "1"));
    assert [] + [FirstEntry(a, "1")] == [FirstEntry(a, "1")];
  }

  lemma LogOfOne(e: Entry)
    ensures BySignature([e]) == map[e.signature := e]
  {
    assert [e][..0] == [];
  }

  /** Reading one new denial row that matches a proposed entry. */
  lemma AbsorbsDenial(s: State, row: Row, signature: Signature)
    requires s.metrics == [row] && s.cursor == 0 && row.isDenial && row.timestamp > 0
    requires signature in BySignature(s.log) && Denies(BySignature(s.log)[signature], row)
    ensures IsDenied(Next(s, Absorb(true)), signature)
    ensures Next(s, Absorb(true)).ledger == s.ledger
  {
    assert NewDenials([row], 0) == [row] + NewDenials([], 0);
    AbsorbedMap(s.log, [row], signature);
    assert row in [row];
  }

  lemma DeniedAlongsideStaysOpen(a: Proposal, b: Proposal, preview: string)
    requires a.signature != b.signature && Prefix(b.spec, 60) <= a.spec
    ensures
      var s := RunFrom(EMPTY, DeniedAlongside(a, b, preview));
      IsDenied(s, a.signature) && s.ledger == map["1" := a]
  {
    var steps := DeniedAlongside(a, b, preview);
    var first, second := FirstEntry(a, "1"), FirstEntry(b, "2");
    var row := DenialRow("2", 1, preview, Some(b.spec));
    FourSteps(EMPTY, steps);
    ProposesAndDeniesSecond(a, b, preview);
    ProposesFirst(a);
    AppendOthers([first], [second], a.signature);
    assert Denies(first, row);
    AbsorbsDenial(State([first] + [second], 0, [row], map["1" := a]), row, a.signature);
  }

  lemma ProposesAndDeniesSecond(a: Proposal, b: Proposal, preview: string)
    requires a.signature != b.signature
    ensures
      var steps := DeniedAlongside(a, b, preview);
      Next(Next(Next(EMPTY, steps[0]), steps[1]), steps[2])
      == State([FirstEntry(a, "1")] + [FirstEntry(b, "2")], 0, [DenialRow("2", 1, preview, Some(b.spec))],
               map["1" := a])
  {
    var steps := DeniedAlongside(a, b, preview);
    ProposesBoth(a, b);
    assert map["1" := a, "2" := b] - {"2"} == map["1" := a];
  }

  lemma DeniedInVainStaysOpen(a: Proposal, preview: string)
    ensures
      var s := RunFrom(EMPTY, DeniedInVain(a, preview));
      IsDenied(s, a.signature) && s.ledger == map["1" := a]
  {
    var steps := DeniedInVain(a, preview);
    var first := FirstEntry(a, "1");
    ThreeSteps(EMPTY, steps);
    ProposesFirst(a);
    var row := DenialRow("1", 1, preview, None);
    var s2 := Next(Next(EMPTY, steps[0]), steps[1]);
    assert s2 == State([first], 0, [row], map["1" := a]);
    assert OccursAt(row.detail, "1", 0);
    assert Denies(first, row);
    AbsorbsDenial(s2, row, a.signature);
  }

  lemma ThreeSteps(s: State, steps: seq<Step>)
    requires |steps| == 3
    ensures RunFrom(s, steps) == Next(Next(Next(s, steps[0]), steps[1]), steps[2])
  {
    assert steps[..2][..1] == steps[..1];
    assert RunFrom(s, steps[..1]) == Next(RunFrom(s, steps[..1][..0]), steps[0]);
    assert RunFrom(s, steps[..2]) == Next(RunFrom(s, steps[..1]), steps[1]);
  }

  lemma FourSteps(s: State, steps: seq<Step>)
    requires |steps| == 4
    ensures RunFrom(s, steps) == Next(Next(Next(Next(s, steps[0]), steps[1]), steps[2]), steps[3])
  {
    ThreeSteps(s, steps[..3]);
  }

  /** Confirming an entry that is still open brings its denied signature back after the cooldown. */
  lemma {:induction false} ConfirmationRevivesDenied(s: State, id: PendingId, at: int, days: nat)
    requires id in s.ledger && s.ledger[id].spec != "" && IsDenied(s, s.ledger[id].signature)
    ensures
      var signature := s.ledger[id].signature;
      var t := Next(s, Confirm(id, at, true, true));
      !IsDenied(t, signature) && EligibleIn(t.log, signature, days, at + days * MS_PER_DAY + 1)
  {
    DenialSurvivesStep(s, Confirm(id, at, true, true), s.ledger[id].signature);
    var p := s.ledger[id];
    var e := Entry(p.signature, p.spec, at, Confirmed, None);
    AppendSame(s.log, [e], e);
  }

  /** Both runs get there, with any two proposals that open alike and with any one. */
  lemma {:induction false} DenialsThatDoNotLast(a: Proposal, b: Proposal, preview: string, at: int, days: nat)
    requires a.signature != b.signature && Prefix(b.spec, 60) <= a.spec && a.spec != ""
    ensures Revived(RunFrom(EMPTY, DeniedAlongside(a, b, preview)), a.signature, at, days)
    ensures Revived(RunFrom(EMPTY, DeniedInVain(a, preview)), a.signature, at, days)
  {
    DeniedAlongsideStaysOpen(a, b, preview);
    DeniedInVainStaysOpen(a, preview);
    ConfirmationRevivesDenied(RunFrom(EMPTY, DeniedAlongside(a, b, preview)), "1", at, days);
    ConfirmationRevivesDenied(RunFrom(EMPTY, DeniedInVain(a, preview)), "1", at, days);
  }

  /** Denied now, and eligible some time after the owner confirms entry "1". */
  predicate Revived(s: State, signature: Signature, at: int, days: nat) {
    && IsDenied(s, signature)
    && EligibleIn(Next(s, Confirm("1", at, true, true)).log, signature, days, at + days * MS_PER_DAY + 1)
  }

  lemma {:induction false} NotContained(text: string, part: string)
    requires part != "" && forall c | c in text :: c != part[0]
    ensures !Contains(text, part)
  {
    forall i: nat | i <= |text|
      ensures !OccursAt(text, part, i)
    {
      if i < |text| {
        assert text[i] in text && text[i..][0] == text[i];
      }
    }
  }

  /** From the empty log: two proposals are denied in one millisecond, with a pass between the two denials. The
      second row is not past the cursor. */
  function DeniedTooSoon(a: Proposal, b: Proposal, at: nat): seq<Step> {
    [Propose(a.signature, a.spec, 0, "1", 7), Propose(b.signature, b.spec, 0, "2", 7)]
    + [Deny("1", at, "", None, true), Absorb(true)] + [Deny("2", at, "", None, true), Absorb(true)]
  }

  lemma {:induction false} SameMillisecondDenialIsMissed(a: Proposal, b: Proposal, at: nat, days: nat)
    requires a.signature != b.signature && at > 0
    requires b.signature != "" && b.signature[0] != '1' && b.signature[0] != ' '
    ensures
      var s := RunFrom(EMPTY, DeniedTooSoon(a, b, at));
      && s.ledger == map[] && DenialRow("2", at, "", None) in s.metrics
      && !IsDenied(s, b.signature) && EligibleIn(s.log, b.signature, days, days * MS_PER_DAY + 1)
  {
    var steps := DeniedTooSoon(a, b, at);
    var log := [FirstEntry(a, "1")] + [FirstEntry(b, "2")];
    SixSteps(EMPTY, steps);
    ProposesBoth(a, b);
    DeniesFirst(a, b, at);
    AbsorbsFirst(a, b, at);
    MissesSecond(Next(State(log, 0, [DenialRow("1", at, "", None)], map["2" := b]), Absorb(true)), b, at);
  }

  /** The first denial row does not touch the second proposal. */
  lemma AbsorbsFirst(a: Proposal, b: Proposal, at: nat)
    requires a.signature != b.signature && at > 0
    requires b.signature != "" && b.signature[0] != '1' && b.signature[0] != ' '
    ensures
      var row := DenialRow("1", at, "", None);
      var s := Next(State([FirstEntry(a, "1")] + [FirstEntry(b, "2")], 0, [row], map["2" := b]), Absorb(true));
      && s.cursor == at && s.metrics == [row] && s.ledger == map["2" := b]
      && b.signature in BySignature(s.log) && BySignature(s.log)[b.signature] == FirstEntry(b, "2")
  {
    var first, second := FirstEntry(a, "1"), FirstEntry(b, "2");
    var row := DenialRow("1", at, "", None);
    assert row.detail == ['1', ' '];
    NotContained(row.detail, "2");
    NotContained(row.detail, b.signature);
    assert !Denies(second, row);
    AppendSame([first], [second], second);
    assert NewDenials([row], 0) == [row] + NewDenials([], 0);
    assert [row][..0] == [] && Newest([row], 0) == at;
    AbsorbedMap([first] + [second], [row], b.signature);
  }

  lemma MissesSecond(s: State, b: Proposal, at: nat)
    requires s.cursor == at && s.metrics == [DenialRow("1", at, "", None)] && s.ledger == map["2" := b]
    requires b.signature in BySignature(s.log) && BySignature(s.log)[b.signature] == FirstEntry(b, "2")
    ensures
      var t := Next(Next(s, Deny("2", at, "", None, true)), Absorb(true));
      && t.log == s.log && t.ledger == map[] && DenialRow("2", at, "", None) in t.metrics
  {
    var missed := DenialRow("2", at, "", None);
    var denied := Next(s, Deny("2", at, "", None, true));
    assert denied == s.(metrics := s.metrics + [missed], ledger := map["2" := b] - {"2"});
    assert map["2" := b] - {"2"} == map[];
    PassWithoutNews(denied, true);
  }

  /** A pass that finds no row past the cursor changes nothing. */
  lemma PassWithoutNews(s: State, lands: bool)
    requires forall r | r in s.metrics :: r.timestamp <= s.cursor
    ensures Next(s, Absorb(lands)) == s
  {
    NothingNew(s.metrics, s.cursor);
    assert s.log + [] == s.log;
  }

  lemma {:induction false} NothingNew(rows: seq<Row>, since: nat)
    requires forall r | r in rows :: r.timestamp <= since
    ensures NewDenials(rows, since) == []
  {
    if rows != [] {
      NothingNew(rows[1..], since);
    }
  }

  lemma ProposesBoth(a: Proposal, b: Proposal)
    requires a.signature != b.signature
    ensures
      Next(Next(EMPTY, Propose(a.signature, a.spec, 0, "1", 7)), Propose(b.signature, b.spec, 0, "2", 7))
      == State([FirstEntry(a, "1")] + [FirstEntry(b, "2")], 0, [], map["1" := a, "2" := b])
  {
    ProposesFirst(a);
  }

  lemma DeniesFirst(a: Proposal, b: Proposal, at: nat)
    ensures
      var log := [FirstEntry(a, "1")] + [FirstEntry(b, "2")];
      Next(State(log, 0, [], map["1" := a, "2" := b]), Deny("1", at, "", None, true))
      == State(log, 0, [DenialRow("1", at, "", None)], map["2" := b])
  {
    assert map["1" := a, "2" := b] - {"1"} == map["2" := b];
  }

  lemma SixSteps(s: State, steps: seq<Step>)
    requires |steps| == 6
    ensures RunFrom(s, steps)
            == Next(Next(Next(Next(Next(Next(s, steps[0]), steps[1]), steps[2]), steps[3]), steps[4]), steps[5])
  {
    FourSteps(s, steps[..4]);
    assert steps[..5][..4] == steps[..4];
    assert RunFrom(s, steps[..5]) == Next(RunFrom(s, steps[..5][..4]), steps[4]);
  }
}
