/** The compaction cache and its background prewarm (src/dispatch.ts), over any number of sessions.
    A build reads the turn count and the transcript in one step and stores its result in a later one; a
    prewarm gives its session free again in a third. */
module HistoryCache {
  import opened Messages

  const TTL_MS := 300_000

  type Key = string

  /** A stored turn; what it says does not matter here. */
  type Turn = Message

  /** A cached history; `source` is the transcript it was built from, and `startedAt` the number of steps
      that had been taken when that build began. */
  datatype Entry = Entry(source: seq<Turn>, cachedAt: nat, turnCount: nat, startedAt: nat)

  /** `settled` is up while a prewarm has stored its result but not yet given its session free. */
  datatype Build = Build(key: Key, source: seq<Turn>, turnCount: nat, startedAt: nat, prewarm: bool, settled: bool)

  datatype State = State(
    transcripts: map<Key, seq<Turn>>,
    turnCounts: map<Key, nat>,
    cache: map<Key, Entry>,
    pending: set<Key>,
    builds: map<nat, Build>,
    now: nat,
    ticks: nat)

  const EMPTY := State(map[], map[], map[], {}, map[], 0, 0)

  datatype Step =
    /** `landed` is false when the turn is stored but the metadata write fails, which is not reported. */
    | Append(key: Key, turn: Turn, landed: bool)
    | StartBuild(id: nat, key: Key)
    | StartPrewarm(id: nat, key: Key)
    | FinishBuild(id: nat, ok: bool)
    | Release(id: nat)
    | Pass(ms: nat)

  function Transcript(s: State, key: Key): seq<Turn> {
    if key in s.transcripts then s.transcripts[key] else []
  }

  function TurnCount(s: State, key: Key): nat {
    if key in s.turnCounts then s.turnCounts[key] else 0
  }

  function BuildNow(s: State, key: Key, prewarm: bool): Build {
    Build(key, Transcript(s, key), TurnCount(s, key), s.ticks, prewarm, false)
  }

  function Next(s: State, step: Step): State {
    Effect(s, step).(ticks := s.ticks + 1)
  }

  function Effect(s: State, step: Step): State {
    match step
    case Append(key, turn, landed) =>
      var longer := Transcript(s, key) + [turn];
      s.(transcripts := s.transcripts[key := longer],
         turnCounts := if landed then s.turnCounts[key := |longer|] else s.turnCounts)
    case StartBuild(id, key) =>
      if id in s.builds then s else s.(builds := s.builds[id := BuildNow(s, key, false)])
    case StartPrewarm(id, key) =>
      if id in s.builds || key in s.pending then s
      else s.(pending := s.pending + {key}, builds := s.builds[id := BuildNow(s, key, true)])
    case FinishBuild(id, ok) =>
      if id !in s.builds || s.builds[id].settled then s
      else
        var b := s.builds[id];
        s.(builds := if b.prewarm then s.builds[id := b.(settled := true)] else s.builds - {id},
           cache := if ok then s.cache[b.key := Cached(b, s.now)] else s.cache)
    case Release(id) =>
      if id !in s.builds || !s.builds[id].settled then s
      else s.(builds := s.builds - {id}, pending := s.pending - {s.builds[id].key})
    case Pass(ms) => s.(now := s.now + ms)
  }

  function Cached(b: Build, now: nat): Entry {
    Entry(b.source, now, b.turnCount, b.startedAt)
  }

  /** The cached entry that a dispatch on `key` would reuse. */
  function Lookup(s: State, key: Key): Option<Entry> {
    if key in s.cache && s.cache[key].turnCount == TurnCount(s, key) && s.now - s.cache[key].cachedAt < TTL_MS
    then Some(s.cache[key]) else None
  }

  function Run(steps: seq<Step>): State {
    if steps == [] then EMPTY else Next(Run(steps[..|steps| - 1]), steps[|steps| - 1])
  }

  /** The same cells as the module keeps them, changed in place. */
  class Dispatcher {
    var transcripts: map<Key, seq<Turn>>
    var turnCounts: map<Key, nat>
    var compactionCache: map<Key, Entry>
    var pendingCompactions: set<Key>
    var builds: map<nat, Build>
    var now: nat
    /** Counts steps; nothing is decided by it. */
    var ticks: nat

    ghost function View(): State
      reads this
    {
      State(transcripts, turnCounts, compactionCache, pendingCompactions, builds, now, ticks)
    }

    constructor ()
      ensures View() == EMPTY
    {
      transcripts, turnCounts, compactionCache, pendingCompactions, builds := map[], map[], map[], {}, map[];
      now, ticks := 0, 0;
    }

    method AppendTurn(key: Key, turn: Turn, landed: bool)
      modifies this`transcripts, this`turnCounts, this`ticks
      ensures View() == Next(old(View()), Append(key, turn, landed))
    {
      var existing := if key in transcripts then transcripts[key] else [];
      existing := existing + [turn];
      transcripts := transcripts[key := existing];
      ticks := ticks + 1;
      if landed {
        turnCounts := turnCounts[key := |existing|];
      }
    }

    /** Reuse the cached history, or start a build whose id is handed back. */
    method LoadHistory(key: Key, id: nat) returns (hit: Option<Entry>)
      requires id !in builds
      modifies this`builds, this`ticks
      ensures hit == Lookup(old(View()), key)
      ensures View() == if hit.Some? then old(View()) else Next(old(View()), StartBuild(id, key))
    {
      var currentTurnCount := if key in turnCounts then turnCounts[key] else 0;
      if key in compactionCache {
        var cached := compactionCache[key];
        if cached.turnCount == currentTurnCount && now - cached.cachedAt < TTL_MS {
          return Some(cached);
        }
      }
      var transcript := if key in transcripts then transcripts[key] else [];
      builds := builds[id := Build(key, transcript, currentTurnCount, ticks, false, false)];
      ticks := ticks + 1;
      return None;
    }

    method Prewarm(key: Key, id: nat)
      requires id !in builds
      modifies this`builds, this`pendingCompactions, this`ticks
      ensures View() == Next(old(View()), StartPrewarm(id, key))
    {
      var newTurnCount := if key in turnCounts then turnCounts[key] else 0;
      if key !in pendingCompactions {
        pendingCompactions := pendingCompactions + {key};
        var transcript := if key in transcripts then transcripts[key] else [];
        builds := builds[id := Build(key, transcript, newTurnCount, ticks, true, false)];
      }
      ticks := ticks + 1;
    }

    /** The build's answer arrives: `then` or `catch`. */
    method Finish(id: nat, ok: bool)
      requires id in builds && !builds[id].settled
      modifies this`builds, this`compactionCache, this`ticks
      ensures View() == Next(old(View()), FinishBuild(id, ok))
    {
      var b := builds[id];
      if ok {
        compactionCache := compactionCache[b.key := Cached(b, now)];
      }
      builds := if b.prewarm then builds[id := b.(settled := true)] else builds - {id};
      ticks := ticks + 1;
    }

    /** The prewarm's `finally`. */
    method ReleaseKey(id: nat)
      requires id in builds && builds[id].settled
      modifies this`builds, this`pendingCompactions, this`ticks
      ensures View() == Next(old(View()), Release(id))
    {
      pendingCompactions := pendingCompactions - {builds[id].key};
      builds := builds - {id};
      ticks := ticks + 1;
    }
  }

  // ------------------------------------------------------------ what every run keeps

  /** A key is marked pending exactly while one prewarm of it is in flight. */
  ghost predicate OnePrewarmPerKey(s: State) {
    && (forall id | id in s.builds && s.builds[id].settled :: s.builds[id].prewarm)
    && (forall id | id in s.builds && s.builds[id].prewarm :: s.builds[id].key in s.pending)
    && (forall key | key in s.pending :: exists id :: Prewarms(s, id, key))
    && (forall i, j, key | Prewarms(s, i, key) && Prewarms(s, j, key) :: i == j)
  }

  predicate Prewarms(s: State, id: nat, key: Key) {
    id in s.builds && s.builds[id].prewarm && s.builds[id].key == key
  }

  lemma PrewarmStaysSingle(s: State, step: Step)
    requires OnePrewarmPerKey(s)
    ensures OnePrewarmPerKey(Next(s, step))
  {
    match step
    case StartBuild(id, key) => SamePrewarmsStaySingle(s, Next(s, step));
    case StartPrewarm(id, key) => StartStaysSingle(s, id, key);
    case FinishBuild(id, ok) => SamePrewarmsStaySingle(s, Next(s, step));
    case Release(id) => ReleaseStaysSingle(s, id);
    case _ => SamePrewarmsStaySingle(s, Next(s, step));
  }

  lemma SamePrewarmsStaySingle(s: State, t: State)
    requires OnePrewarmPerKey(s) && t.pending == s.pending
    requires forall id | id in t.builds && t.builds[id].settled :: t.builds[id].prewarm
    requires forall id: nat, key :: Prewarms(t, id, key) == Prewarms(s, id, key)
    ensures OnePrewarmPerKey(t)
  {
    forall id | id in t.builds && t.builds[id].prewarm
      ensures t.builds[id].key in t.pending
    {
      assert Prewarms(s, id, t.builds[id].key);
    }
    forall key | key in t.pending
      ensures exists id :: Prewarms(t, id, key)
    {
      var id :| Prewarms(s, id, key);
      assert Prewarms(t, id, key);
    }
  }

  lemma StartStaysSingle(s: State, id: nat, key: Key)
    requires OnePrewarmPerKey(s)
    ensures OnePrewarmPerKey(Next(s, StartPrewarm(id, key)))
  {
    var t := Next(s, StartPrewarm(id, key));
    if id in s.builds || key in s.pending {
      SamePrewarmsStaySingle(s, t);
    } else {
      forall i: nat, k
        ensures Prewarms(t, i, k) <==> Prewarms(s, i, k) || (i == id && k == key)
      {
      }
      forall k | k in t.pending
        ensures exists i :: Prewarms(t, i, k)
      {
        if k == key {
          assert Prewarms(t, id, key);
        } else {
          var i :| Prewarms(s, i, k);
          assert Prewarms(t, i, k);
        }
      }
    }
  }

  lemma ReleaseStaysSingle(s: State, id: nat)
    requires OnePrewarmPerKey(s)
    ensures OnePrewarmPerKey(Next(s, Release(id)))
  {
    var t := Next(s, Release(id));
    if id in s.builds && s.builds[id].settled {
      assert Prewarms(s, id, s.builds[id].key);
      forall i: nat, k
        ensures Prewarms(t, i, k) <==> Prewarms(s, i, k) && i != id
      {
      }
      forall i | i in t.builds && t.builds[i].prewarm
        ensures t.builds[i].key in t.pending
      {
        assert Prewarms(s, i, t.builds[i].key);
      }
      forall k | k in t.pending
        ensures exists i :: Prewarms(t, i, k)
      {
        var i :| Prewarms(s, i, k);
        assert Prewarms(t, i, k);
      }
    } else {
      SamePrewarmsStaySingle(s, t);
    }
  }

  /** A prewarm ends: its answer is taken once, and after the step that follows it holds its session no longer. */
  lemma {:induction false} PrewarmEnds(s: State, id: nat, ok: bool, again: bool)
    requires id in s.builds && s.builds[id].prewarm && !s.builds[id].settled
    ensures
      var answered := Next(s, FinishBuild(id, ok));
      var t := Next(answered, Release(id));
      && Next(answered, FinishBuild(id, again)).cache == answered.cache
      && (s.builds[id].key in s.pending ==> s.builds[id].key in answered.pending)
      && id !in t.builds && s.builds[id].key !in t.pending
      && t.cache == if ok then s.cache[s.builds[id].key := Cached(s.builds[id], s.now)] else s.cache
  {
  }

  lemma {:induction false} RunKeepsSingle(steps: seq<Step>)
    ensures OnePrewarmPerKey(Run(steps))
  {
    if steps != [] {
      RunKeepsSingle(steps[..|steps| - 1]);
      PrewarmStaysSingle(Run(steps[..|steps| - 1]), steps[|steps| - 1]);
    }
  }

  lemma {:induction false} AtMostOnePrewarmInFlight(steps: seq<Step>, i: nat, j: nat)
    requires i in Run(steps).builds && j in Run(steps).builds
    requires Run(steps).builds[i].prewarm && Run(steps).builds[j].prewarm
    requires Run(steps).builds[i].key == Run(steps).builds[j].key
    ensures i == j
  {
    RunKeepsSingle(steps);
    assert Prewarms(Run(steps), i, Run(steps).builds[i].key) && Prewarms(Run(steps), j, Run(steps).builds[i].key);
  }

  // ------------------------------------------------------------ what a hit was built from

  /** Source and stamp are the transcript and the stored count of the moment when the build began. */
  ghost predicate TakenAt(steps: seq<Step>, key: Key, source: seq<Turn>, turnCount: nat, startedAt: nat) {
    && startedAt <= |steps|
    && source == Transcript(Run(steps[..startedAt]), key)
    && turnCount == TurnCount(Run(steps[..startedAt]), key)
  }

  ghost predicate AllTaken(steps: seq<Step>, s: State) {
    && s.ticks == |steps|
    && (forall key | key in s.cache ::
          TakenAt(steps, key, s.cache[key].source, s.cache[key].turnCount, s.cache[key].startedAt))
    && (forall id | id in s.builds ::
          TakenAt(steps, s.builds[id].key, s.builds[id].source, s.builds[id].turnCount, s.builds[id].startedAt))
  }

  lemma {:induction false} RunKeepsTaken(steps: seq<Step>)
    ensures AllTaken(steps, Run(steps))
  {
    if steps != [] {
      var before, step := steps[..|steps| - 1], steps[|steps| - 1];
      var s, t := Run(before), Run(steps);
      RunKeepsTaken(before);
      assert steps == before + [step];
      forall key | key in t.cache
        ensures TakenAt(steps, key, t.cache[key].source, t.cache[key].turnCount, t.cache[key].startedAt)
      {
        if !(key in s.cache && s.cache[key] == t.cache[key]) {
          var id := EntryOrigin(s, step, key);
        }
        TakenStays(before, step, key, t.cache[key].source, t.cache[key].turnCount, t.cache[key].startedAt);
      }
      forall id | id in t.builds
        ensures TakenAt(steps, t.builds[id].key, t.builds[id].source, t.builds[id].turnCount, t.builds[id].startedAt)
      {
        BuildOrigin(s, step, id);
        assert before[..|before|] == before;
        TakenStays(before, step, t.builds[id].key, t.builds[id].source, t.builds[id].turnCount, t.builds[id].startedAt);
      }
    }
  }

  lemma TakenStays(before: seq<Step>, step: Step, key: Key, source: seq<Turn>, turnCount: nat, startedAt: nat)
    requires TakenAt(before, key, source, turnCount, startedAt)
    ensures TakenAt(before + [step], key, source, turnCount, startedAt)
  {
    assert (before + [step])[..startedAt] == before[..startedAt];
  }

  /** A new cache entry is the result of a build in flight. */
  lemma EntryOrigin(s: State, step: Step, key: Key) returns (id: nat)
    requires key in Next(s, step).cache && !(key in s.cache && s.cache[key] == Next(s, step).cache[key])
    ensures id in s.builds && s.builds[id].key == key && Next(s, step).cache[key] == Cached(s.builds[id], s.now)
  {
    id := step.id;
  }

  /** A build in flight was in flight before with the same stamp, or begins now. */
  lemma BuildOrigin(s: State, step: Step, id: nat)
    requires id in Next(s, step).builds
    ensures
      var b := Next(s, step).builds[id];
      || (id in s.builds && b == s.builds[id].(settled := b.settled))
      || b == BuildNow(s, b.key, b.prewarm)
  {
  }

  predicate IsAppend(step: Step, key: Key, landed: bool) {
    step.Append? && step.key == key && step.landed == landed
  }

  /** Since `from`, a turn was appended whose metadata write landed, or did not. */
  ghost predicate AppendedSince(steps: seq<Step>, from: nat, key: Key, landed: bool) {
    exists i | from <= i < |steps| :: IsAppend(steps[i], key, landed)
  }

  lemma OnSession(s: State, step: Step, key: Key)
    ensures
      var t := Next(s, step);
      && Transcript(t, key)
         == (if step.Append? && step.key == key then Transcript(s, key) + [step.turn] else Transcript(s, key))
      && TurnCount(t, key)
         == if IsAppend(step, key, true) then |Transcript(s, key)| + 1 else TurnCount(s, key)
  {
  }

  lemma {:induction false} CountNeverAhead(steps: seq<Step>, key: Key)
    ensures TurnCount(Run(steps), key) <= |Transcript(Run(steps), key)|
  {
    if steps != [] {
      CountNeverAhead(steps[..|steps| - 1], key);
      OnSession(Run(steps[..|steps| - 1]), steps[|steps| - 1], key);
    }
  }

  /** What happens to one session between two points of a run: its transcript grows exactly when turns were
      appended, and the stored count moves, past the old length, exactly when one of those writes landed. */
  lemma {:induction false} SinceThen(steps: seq<Step>, from: nat, key: Key)
    requires from <= |steps|
    ensures Grown(Run(steps[..from]), Run(steps), key,
                  AppendedSince(steps, from, key, true), AppendedSince(steps, from, key, false))
  {
    if from == |steps| {
      assert steps[..from] == steps;
    } else {
      var n := |steps| - 1;
      var before := steps[..n];
      assert before[..from] == steps[..from];
      SinceThen(before, from, key);
      OneStepSince(steps, from, key, true);
      OneStepSince(steps, from, key, false);
      OnSession(Run(before), steps[n], key);
    }
  }

  predicate Grown(s: State, t: State, key: Key, landed: bool, lost: bool) {
    && Transcript(s, key) <= Transcript(t, key)
    && (Transcript(s, key) == Transcript(t, key) <==> !landed && !lost)
    && if landed then TurnCount(t, key) > |Transcript(s, key)| else TurnCount(t, key) == TurnCount(s, key)
  }

  lemma OneStepSince(steps: seq<Step>, from: nat, key: Key, landed: bool)
    requires from < |steps|
    ensures
      var n := |steps| - 1;
      AppendedSince(steps, from, key, landed)
      <==> AppendedSince(steps[..n], from, key, landed) || IsAppend(steps[n], key, landed)
  {
    var n := |steps| - 1;
    if AppendedSince(steps[..n], from, key, landed) {
      var i :| from <= i < n && IsAppend(steps[..n][i], key, landed);
      assert IsAppend(steps[i], key, landed);
    }
    if AppendedSince(steps, from, key, landed) && !IsAppend(steps[n], key, landed) {
      var i :| from <= i < |steps| && IsAppend(steps[i], key, landed);
      assert IsAppend(steps[..n][i], key, landed);
    }
  }

  /** Cache agreement, for every hit of every run: it was built from a beginning of the transcript, and from
      all of it if and only if no append to the session has lost its metadata write since that build began. */
  lemma {:induction false} CacheAgreement(steps: seq<Step>, key: Key)
    requires Lookup(Run(steps), key).Some?
    ensures
      var s := Run(steps);
      var hit := Lookup(s, key).value;
      && hit.startedAt <= |steps|
      && hit.source <= Transcript(s, key)
      && (hit.source == Transcript(s, key) <==> !AppendedSince(steps, hit.startedAt, key, false))
  {
    RunKeepsTaken(steps);
    var hit := Lookup(Run(steps), key).value;
    assert TakenAt(steps, key, hit.source, hit.turnCount, hit.startedAt);
    SinceThen(steps, hit.startedAt, key);
    CountNeverAhead(steps[..hit.startedAt], key);
  }

  /** Runs in which every metadata write lands, so that every hit is whole. */
  ghost predicate Durable(steps: seq<Step>) {
    forall i | 0 <= i < |steps| && steps[i].Append? :: steps[i].landed
  }

  lemma {:induction false} DurableRunsAgree(steps: seq<Step>, key: Key)
    requires Durable(steps) && Lookup(Run(steps), key).Some?
    ensures Lookup(Run(steps), key).value.source == Transcript(Run(steps), key)
  {
    CacheAgreement(steps, key);
  }

  /** One lost metadata write is enough for a hit that misses the newest turn. */
  lemma LostMetadataWriteGivesStaleHit(key: Key, first: Turn, newest: Turn)
    ensures
      var s := Run([Append(key, first, true), StartBuild(0, key), FinishBuild(0, true), Append(key, newest, false)]);
      && Lookup(s, key) == Some(Entry([first], 0, 1, 1))
      && Transcript(s, key) == [first, newest]
  {
    var a, b, c, d := Append(key, first, true), StartBuild(0, key), FinishBuild(0, true), Append(key, newest, false);
    RunStep([], a);
    RunStep([a], b);
    RunStep([a, b], c);
    RunStep([a, b, c], d);
    assert [a, b, c, d] == [a, b, c] + [d] && [a, b, c] == [a, b] + [c] && [a, b] == [a] + [b] && [a] == [] + [a];
    var built := Next(EMPTY, a);
    assert [] + [first] == [first] && [first] + [newest] == [first, newest];
    assert Next(built, b).builds == map[0 := Build(key, [first], 1, 1, false, false)];
    assert Next(Next(built, b), c).cache == map[key := Entry([first], 0, 1, 1)];
  }

  lemma RunStep(steps: seq<Step>, step: Step)
    ensures Run(steps + [step]) == Next(Run(steps), step)
  {
    assert (steps + [step])[..|steps|] == steps;
  }

  // ------------------------------------------------------------ how old a hit can be

  /** The time that has passed since step `from`, in milliseconds. */
  function Elapsed(steps: seq<Step>, from: nat): nat {
    if |steps| <= from then 0
    else
      var n := |steps| - 1;
      Elapsed(steps[..n], from) + if steps[n].Pass? then steps[n].ms else 0
  }

  /** Step `i` stored this entry. */
  ghost predicate StoredAt(steps: seq<Step>, i: nat, key: Key, e: Entry)
    requires i < |steps|
  {
    && steps[i].FinishBuild? && steps[i].ok
    && var s := Run(steps[..i]);
       steps[i].id in s.builds && s.builds[steps[i].id].key == key && e == Cached(s.builds[steps[i].id], s.now)
  }

  lemma {:induction false} EntriesAreStored(steps: seq<Step>, key: Key)
    requires key in Run(steps).cache
    ensures exists i | 0 <= i < |steps| :: StoredAt(steps, i, key, Run(steps).cache[key])
  {
    var n := |steps| - 1;
    var before, e := steps[..n], Run(steps).cache[key];
    if key in Run(before).cache && Run(before).cache[key] == e {
      EntriesAreStored(before, key);
      var i :| 0 <= i < n && StoredAt(before, i, key, e);
      assert steps[..i] == before[..i];
      assert StoredAt(steps, i, key, e);
    } else {
      EntryIsFinished(Run(before), steps[n], key);
      assert StoredAt(steps, n, key, e);
    }
  }

  lemma EntryIsFinished(s: State, step: Step, key: Key)
    requires key in Next(s, step).cache && !(key in s.cache && s.cache[key] == Next(s, step).cache[key])
    ensures step.FinishBuild? && step.ok && step.id in s.builds && s.builds[step.id].key == key
    ensures Next(s, step).cache[key] == Cached(s.builds[step.id], s.now)
  {
  }

  lemma {:induction false} ClockRuns(steps: seq<Step>, from: nat)
    requires from <= |steps|
    ensures Run(steps).now == Run(steps[..from]).now + Elapsed(steps, from)
  {
    if from == |steps| {
      assert steps[..from] == steps;
    } else {
      var n := |steps| - 1;
      ClockRuns(steps[..n], from);
      assert steps[..n][..from] == steps[..from];
    }
  }

  /** A hit comes from a build that succeeded less than five minutes ago and whose stamp is the stored turn
      count; and an entry of which both is true is a hit. */
  lemma {:induction false} HitIsFresh(steps: seq<Step>, key: Key)
    requires key in Run(steps).cache
    ensures
      var s := Run(steps);
      exists i | 0 <= i < |steps| ::
        && StoredAt(steps, i, key, s.cache[key])
        && (Lookup(s, key) == Some(s.cache[key])
            <==> Elapsed(steps, i) < 300_000 && s.cache[key].turnCount == TurnCount(s, key))
        && (Lookup(s, key) == None || Lookup(s, key) == Some(s.cache[key]))
  {
    EntriesAreStored(steps, key);
    var i :| 0 <= i < |steps| && StoredAt(steps, i, key, Run(steps).cache[key]);
    ClockRuns(steps, i);
  }
}
