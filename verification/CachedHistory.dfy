/** Cache and compaction together: what a cache hit hands over. The cache of `HistoryCache` is filled by the
    builds of `CompactionRuns`, one summary per session, all sessions interleaved. */
module CachedHistory {
  import opened Messages
  import opened Tokens
  import opened Compactor
  import R = CompactionRuns
  import C = HistoryCache

  type Key = C.Key

  /** How a history came about. `told` are the turns that reached the summariser on the way to the summary,
      `line` the texts of the summaries that were extended on that way. */
  datatype Made =
    | Whole
    | Summarised(text: string, told: seq<Message>, line: seq<string>, upTo: nat, budget: nat)
    | RecentOnly

  datatype Result = Result(history: seq<Message>, made: Made)

  /** A build in flight: its session and budget, and its result once it has one. */
  datatype Work = Work(key: Key, budget: nat, result: Option<Result>)

  datatype State = State(
    cache: C.State,
    sessions: map<Key, R.State>,
    work: map<nat, Work>,
    results: map<Key, Result>)

  const EMPTY := State(C.EMPTY, map[], map[], map[])

  datatype Step =
    | Append(key: Key, turn: R.Turn, landed: bool)
    | Start(id: nat, key: Key, budget: nat, prewarm: bool)
    /** The summariser answers, or fails, and `history` is what the build returns; `saved` tells whether a new
        summary could be saved. */
    | Conclude(id: nat, text: Option<string>, saved: bool, history: CompactedHistory)
    /** The build's promise settles; it is rejected when the build threw. */
    | Finish(id: nat, ok: bool)
    | Release(id: nat)
    | Pass(ms: nat)

  function Session(s: State, key: Key): R.State {
    if key in s.sessions then s.sessions[key] else R.State([], None, map[])
  }

  /** What a build has when it first waits, if it waits at all. */
  function Immediate(session: R.State, budget: nat, keep: nat): Option<Result> {
    OfPlan(session, PlanOf(session.transcript, R.SavedSummary(session), budget, keep), budget)
  }

  function OfPlan(session: R.State, plan: Plan, budget: nat): Option<Result> {
    if plan.Fold? then None
    else if plan.history.messages == session.transcript || session.stored.None? then
      Some(Result(plan.history.messages, Whole))
    else
      var d := session.stored.value;
      Some(Result(plan.history.messages, Summarised(d.summary.text, d.folded, d.line, R.Covered(session), budget)))
  }

  function DoStart(s: State, id: nat, key: Key, budget: nat, keep: nat): State {
    var session := Session(s, key);
    s.(sessions := s.sessions[key := R.Next(session, R.Begin(id, budget), keep)],
       work := s.work[id := Work(key, budget, Immediate(session, budget, keep))])
  }

  function Concluded(job: R.Job, text: Option<string>, history: CompactedHistory, budget: nat): Result {
    match text
    case None => Result(history.messages, RecentOnly)
    case Some(summary) =>
      Result(history.messages, Summarised(summary, R.Told(job), job.line, job.plan.archiveEnd, budget))
  }

  /** A build may conclude when it waits, with a history that fits the answer. */
  ghost predicate CanConclude(s: State, id: nat, text: Option<string>, history: CompactedHistory) {
    && id in s.work && s.work[id].result.None?
    && var session := Session(s, s.work[id].key);
       id in session.jobs && ConcludesWith(session.jobs[id].plan, text, s.work[id].budget, history)
  }

  ghost function DoConclude(s: State, id: nat, text: Option<string>, saved: bool, history: CompactedHistory,
                            keep: nat): State
    requires CanConclude(s, id, text, history)
  {
    var w := s.work[id];
    var session := Session(s, w.key);
    s.(sessions := s.sessions[w.key := R.Next(session, R.Conclude(id, text, saved), keep)],
       work := s.work[id := w.(result := Some(Concluded(session.jobs[id], text, history, w.budget)))])
  }

  predicate CanStart(s: State, id: nat, key: Key, prewarm: bool) {
    && id !in s.work && id !in s.cache.builds && id !in Session(s, key).jobs
    && (prewarm ==> key !in s.cache.pending)
  }

  predicate CanFinish(s: State, id: nat, ok: bool) {
    && id in s.work && id in s.cache.builds && !s.cache.builds[id].settled
    && (ok ==> s.work[id].result.Some?)
  }

  /** The result, if there is one, is cached under the session; a build that threw just ends. */
  function DoFinish(s: State, id: nat, ok: bool, keep: nat): State
    requires CanFinish(s, id, ok)
  {
    var w := s.work[id];
    s.(work := s.work - {id},
       results := if ok then s.results[w.key := w.result.value] else s.results,
       sessions := s.sessions[w.key := R.Next(Session(s, w.key), R.Conclude(id, None, false), keep)])
  }

  /** What a step does to the cache; one that does nothing there still counts as a step. */
  ghost function CacheStep(s: State, step: Step): C.Step {
    match step
    case Append(key, turn, landed) => C.Append(key, turn, landed)
    case Start(id, key, _, prewarm) =>
      if !CanStart(s, id, key, prewarm) then C.Pass(0)
      else if prewarm then C.StartPrewarm(id, key) else C.StartBuild(id, key)
    case Finish(id, ok) => if CanFinish(s, id, ok) then C.FinishBuild(id, ok) else C.Pass(0)
    case Release(id) => C.Release(id)
    case Pass(ms) => C.Pass(ms)
    case Conclude(_, _, _, _) => C.Pass(0)
  }

  ghost function Rest(s: State, step: Step, keep: nat): State {
    match step
    case Append(key, turn, landed) =>
      s.(sessions := s.sessions[key := R.Next(Session(s, key), R.Append(turn), keep)])
    case Start(id, key, budget, prewarm) =>
      if CanStart(s, id, key, prewarm) then DoStart(s, id, key, budget, keep) else s
    case Conclude(id, text, saved, history) =>
      if CanConclude(s, id, text, history) then DoConclude(s, id, text, saved, history, keep) else s
    case Finish(id, ok) => if CanFinish(s, id, ok) then DoFinish(s, id, ok, keep) else s
    case _ => s
  }

  ghost function Next(s: State, step: Step, keep: nat): State {
    Rest(s, step, keep).(cache := C.Next(s.cache, CacheStep(s, step)))
  }

  ghost function Run(steps: seq<Step>, keep: nat): State {
    if steps == [] then EMPTY else Next(Run(steps[..|steps| - 1], keep), steps[|steps| - 1], keep)
  }

  // ------------------------------------------------------------ what a result is, of its source

  /** A result is the whole source; or a summary that was told about the turns before `upTo`, and the turns
      behind them as far as there is room; or, when the summariser failed, the recent turns alone. */
  ghost predicate Describes(r: Result, source: seq<Message>, keep: nat) {
    match r.made
    case Whole => r.history == source
    case Summarised(text, told, line, upTo, budget) =>
      && R.ToldOf(told, line, source, upTo)
      && SummaryAndEnd(r.history, text, source[upTo..], budget)
    case RecentOnly => keep <= |source| && r.history == source[|source| - keep..]
  }

  /** The summary and an end of the zone, shortened only while it did not fit. */
  ghost predicate SummaryAndEnd(history: seq<Message>, text: string, zone: seq<Message>, budget: nat) {
    var dropped := 1 + |zone| - |history|;
    && 0 <= dropped <= |zone|
    && history == [SummaryMessage(text)] + zone[dropped..]
    && (dropped > 0 ==> Cost([SummaryMessage(text)] + zone[dropped - 1..]) > budget)
  }

  lemma ImmediateDescribes(session: R.State, budget: nat, keep: nat)
    requires R.Inv(session, keep)
    ensures
      var r := Immediate(session, budget, keep);
      r.Some? ==> Describes(r.value, session.transcript, keep)
  {
    R.ImmediateHistoryOf(session, budget, keep);
    var plan := PlanOf(session.transcript, R.SavedSummary(session), budget, keep);
    if plan.Done? {
      PlanDescribes(session, plan, budget, keep);
    }
  }

  lemma PlanDescribes(session: R.State, plan: Plan, budget: nat, keep: nat)
    requires plan.Done? && R.Complete(session, plan.history.messages)
    ensures Describes(OfPlan(session, plan, budget).value, session.transcript, keep)
  {
    if plan.history.messages != session.transcript {
      var zone := session.transcript[R.Covered(session)..];
      assert zone[0..] == zone;
      NothingDropped(plan.history.messages, session.stored.value.summary.text, zone, budget);
    }
  }

  lemma NothingDropped(history: seq<Message>, text: string, zone: seq<Message>, budget: nat)
    requires history == [SummaryMessage(text)] + zone[0..]
    ensures SummaryAndEnd(history, text, zone, budget)
  {
  }

  /** The waiting build `job` began when the transcript was `source`. */
  ghost predicate BeganAt(session: R.State, job: R.Job, source: seq<Message>, keep: nat) {
    && R.JobOk(session, job, keep)
    && source <= session.transcript
    && |source| == job.plan.archiveEnd + keep
  }

  lemma ConcludedDescribes(session: R.State, job: R.Job, source: seq<Message>, text: Option<string>,
                           history: CompactedHistory, budget: nat, keep: nat)
    requires BeganAt(session, job, source, keep) && ConcludesWith(job.plan, text, budget, history)
    ensures Describes(Concluded(job, text, history, budget), source, keep)
  {
    ZoneIsEndOfSource(session, job, source, keep);
    if text.Some? {
      FreshZoneOf(session, job, text.value, budget, keep, history);
      ToldBySource(session, job, source, keep);
      FreshDescribes(job, source, text.value, history, budget, keep);
    }
  }

  lemma ZoneIsEndOfSource(session: R.State, job: R.Job, source: seq<Message>, keep: nat)
    requires BeganAt(session, job, source, keep)
    ensures job.plan.recent == source[job.plan.archiveEnd..]
  {
    assert source == session.transcript[..|source|];
  }

  lemma FreshDescribes(
    job: R.Job, source: seq<Message>, text: string, history: CompactedHistory, budget: nat, keep: nat)
    requires job.plan.archiveEnd <= |source| && job.plan.recent == source[job.plan.archiveEnd..]
    requires R.ToldOf(R.Told(job), job.line, source, job.plan.archiveEnd)
    requires SummaryAndEnd(history.messages, text, job.plan.recent, budget)
    ensures Describes(Concluded(job, Some(text), history, budget), source, keep)
  {
  }

  lemma ToldBySource(session: R.State, job: R.Job, source: seq<Message>, keep: nat)
    requires BeganAt(session, job, source, keep)
    ensures R.ToldOf(R.Told(job), job.line, source, job.plan.archiveEnd)
  {
    var end := job.plan.archiveEnd;
    assert source == session.transcript[..|source|];
  }

  lemma ZoneIsPlain(session: R.State, job: R.Job, keep: nat)
    requires R.JobOk(session, job, keep)
    ensures Sanitised(job.plan.recent) == job.plan.recent
  {
    forall m | m in job.plan.recent
      ensures Plain(m)
    {
      assert m in session.transcript;
    }
    PlainIsClean(job.plan.recent);
  }

  lemma FreshZoneOf(session: R.State, job: R.Job, text: string, budget: nat, keep: nat, history: CompactedHistory)
    requires R.JobOk(session, job, keep) && ConcludesWith(job.plan, Some(text), budget, history)
    ensures SummaryAndEnd(history.messages, text, job.plan.recent, budget)
  {
    ZoneIsPlain(session, job, keep);
    FreshResultShape(job.plan, text, budget, history);
    LastDropWasNeeded(history.messages, text, job.plan.recent, budget);
  }

  lemma LastDropWasNeeded(history: seq<Message>, text: string, zone: seq<Message>, budget: nat)
    requires
      var dropped := 1 + |zone| - |history|;
      && 0 <= dropped <= |zone|
      && history == [SummaryMessage(text)] + zone[dropped..]
      && (forall k | 0 <= k < dropped :: Cost(WithoutAfterFirst([SummaryMessage(text)] + zone, k)) > budget)
    ensures SummaryAndEnd(history, text, zone, budget)
  {
    var k := |zone| - |history|;
    if k >= 0 {
      assert WithoutAfterFirst([SummaryMessage(text)] + zone, k) == [SummaryMessage(text)] + zone[k..];
    }
  }

  // ------------------------------------------------------------ what every run keeps

  ghost predicate SessionsOk(s: State, keep: nat) {
    forall key :: R.Inv(Session(s, key), keep) && Session(s, key).transcript == C.Transcript(s.cache, key)
  }

  /** A build that is still to finish has the right result, or waits on the right plan. */
  ghost predicate WorkOk(s: State, id: nat, keep: nat)
    requires id in s.work
  {
    && id in s.cache.builds && s.cache.builds[id].key == s.work[id].key
    && var source := s.cache.builds[id].source;
       var session := Session(s, s.work[id].key);
       match s.work[id].result
       case Some(r) => Describes(r, source, keep)
       case None => id in session.jobs && BeganAt(session, session.jobs[id], source, keep)
  }

  ghost predicate ResultsOk(s: State, keep: nat) {
    forall key | key in s.cache.cache :: key in s.results && Describes(s.results[key], s.cache.cache[key].source, keep)
  }

  ghost predicate Inv(s: State, keep: nat) {
    && SessionsOk(s, keep)
    && (forall id | id in s.work :: WorkOk(s, id, keep))
    && InFlight(s.work.Keys, s.cache.builds)
    && ResultsOk(s, keep)
  }

  /** The work at hand is that of the builds that have not settled. */
  ghost predicate InFlight(work: set<nat>, builds: map<nat, C.Build>) {
    forall id :: id in work <==> id in builds && !builds[id].settled
  }

  lemma WorkSurvives(s: State, t: State, id: nat, keep: nat)
    requires id in s.work && WorkOk(s, id, keep)
    requires id in t.work && t.work[id] == s.work[id]
    requires id in t.cache.builds && t.cache.builds[id] == s.cache.builds[id]
    requires
      var before, after := Session(s, s.work[id].key), Session(t, s.work[id].key);
      && before.transcript <= after.transcript
      && (id in before.jobs ==> id in after.jobs && after.jobs[id] == before.jobs[id])
    ensures WorkOk(t, id, keep)
  {
    var before, after := Session(s, s.work[id].key), Session(t, s.work[id].key);
    if s.work[id].result.None? {
      R.JobOutlivesAppend(before, after, before.jobs[id], keep);
    }
  }

  /** A step of one session's own machine. */
  lemma SessionsStayOk(s: State, t: State, key: Key, step: R.Step, keep: nat)
    requires SessionsOk(s, keep)
    requires t.sessions == s.sessions[key := R.Next(Session(s, key), step, keep)]
    requires forall k ::
               C.Transcript(t.cache, k) == if k == key then Session(t, key).transcript else C.Transcript(s.cache, k)
    ensures SessionsOk(t, keep)
  {
    R.NextKeepsInv(Session(s, key), step, keep);
    forall k
      ensures R.Inv(Session(t, k), keep) && Session(t, k).transcript == C.Transcript(t.cache, k)
    {
      if k != key {
        assert Session(t, k) == Session(s, k);
      }
    }
  }

  lemma AppendKeepsInv(s: State, key: Key, turn: R.Turn, landed: bool, keep: nat)
    requires Inv(s, keep)
    ensures Inv(Next(s, Append(key, turn, landed), keep), keep)
  {
    var t := Next(s, Append(key, turn, landed), keep);
    forall k
      ensures C.Transcript(t.cache, k) == if k == key then Session(t, key).transcript else C.Transcript(s.cache, k)
    {
      C.OnSession(s.cache, C.Append(key, turn, landed), k);
    }
    SessionsStayOk(s, t, key, R.Append(turn), keep);
    forall id | id in t.work
      ensures WorkOk(t, id, keep)
    {
      WorkSurvives(s, t, id, keep);
    }
  }

  lemma StartKeepsInv(s: State, id: nat, key: Key, budget: nat, prewarm: bool, keep: nat)
    requires Inv(s, keep) && CanStart(s, id, key, prewarm)
    ensures Inv(Next(s, Start(id, key, budget, prewarm), keep), keep)
  {
    var t := Next(s, Start(id, key, budget, prewarm), keep);
    var session := Session(s, key);
    SessionsStayOk(s, t, key, R.Begin(id, budget), keep);
    forall other | other in t.work
      ensures WorkOk(t, other, keep)
    {
      if other == id {
        StartedIsOk(s, id, key, budget, prewarm, keep);
      } else {
        WorkSurvives(s, t, other, keep);
      }
    }
  }

  lemma StartedIsOk(s: State, id: nat, key: Key, budget: nat, prewarm: bool, keep: nat)
    requires Inv(s, keep) && CanStart(s, id, key, prewarm)
    ensures WorkOk(Next(s, Start(id, key, budget, prewarm), keep), id, keep)
  {
    var t := Next(s, Start(id, key, budget, prewarm), keep);
    var session := Session(s, key);
    assert Session(t, key) == R.Next(session, R.Begin(id, budget), keep);
    assert t.cache.builds[id].source == session.transcript;
    ImmediateDescribes(session, budget, keep);
    if t.work[id].result.None? {
      R.NewJobIsOk(session, budget, keep);
      R.JobOutlivesAppend(session, Session(t, key), Session(t, key).jobs[id], keep);
    }
  }

  lemma ConcludeKeepsInv(s: State, id: nat, text: Option<string>, saved: bool, history: CompactedHistory, keep: nat)
    requires Inv(s, keep) && CanConclude(s, id, text, history)
    ensures Inv(Next(s, Conclude(id, text, saved, history), keep), keep)
  {
    var t := Next(s, Conclude(id, text, saved, history), keep);
    ConcludeChanges(s, id, text, saved, history, keep);
    SessionsStayOk(s, t, s.work[id].key, R.Conclude(id, text, saved), keep);
    ConcludedIsOk(s, t, id, text, history, keep);
    ConcludeLeavesOthers(s, t, id, text, saved, keep);
    assert ResultsOk(t, keep);
  }

  lemma ConcludeChanges(s: State, id: nat, text: Option<string>, saved: bool, history: CompactedHistory, keep: nat)
    requires CanConclude(s, id, text, history)
    ensures
      var t := Next(s, Conclude(id, text, saved, history), keep);
      var key := s.work[id].key;
      && t.cache == s.cache.(ticks := s.cache.ticks + 1) && t.results == s.results
      && t.sessions == s.sessions[key := R.Next(Session(s, key), R.Conclude(id, text, saved), keep)]
      && t.work == s.work[id := s.work[id].(result := Some(Concluded(Session(s, key).jobs[id], text, history,
                                                                     s.work[id].budget)))]
  {
  }

  lemma ConcludeLeavesOthers(s: State, t: State, id: nat, text: Option<string>, saved: bool, keep: nat)
    requires forall other | other in s.work :: WorkOk(s, other, keep)
    requires id in s.work && id in t.work
    requires
      var key := s.work[id].key;
      t.sessions == s.sessions[key := R.Next(Session(s, key), R.Conclude(id, text, saved), keep)]
    requires t.cache.builds == s.cache.builds && t.work == s.work[id := t.work[id]]
    ensures forall other | other in t.work && other != id :: WorkOk(t, other, keep)
  {
    SameOtherJobs(s, t, s.work[id].key, id, text, saved, keep);
    forall other | other in t.work && other != id
      ensures SameWork(s, t, other)
    {
      assert WorkOk(s, other, keep);
    }
    OthersStayOk(s, t, id, keep);
  }

  lemma ConcludedIsOk(s: State, t: State, id: nat, text: Option<string>, history: CompactedHistory, keep: nat)
    requires CanConclude(s, id, text, history) && WorkOk(s, id, keep)
    requires t.cache.builds == s.cache.builds && id in t.work
    requires
      var w := s.work[id];
      t.work[id] == w.(result := Some(Concluded(Session(s, w.key).jobs[id], text, history, w.budget)))
    ensures WorkOk(t, id, keep)
  {
    var w := s.work[id];
    ConcludedDescribes(Session(s, w.key), Session(s, w.key).jobs[id], s.cache.builds[id].source, text, history,
                       w.budget, keep);
  }

  ghost predicate SameWork(s: State, t: State, id: nat) {
    && id in s.work && id in t.work && t.work[id] == s.work[id]
    && id in s.cache.builds && id in t.cache.builds && t.cache.builds[id] == s.cache.builds[id]
  }

  /** But for build `id`. */
  ghost predicate SameJobs(before: R.State, after: R.State, id: nat) {
    && before.transcript == after.transcript
    && forall other | other in before.jobs && other != id ::
         other in after.jobs && after.jobs[other] == before.jobs[other]
  }

  lemma SameOtherJobs(s: State, t: State, key: Key, id: nat, text: Option<string>, saved: bool, keep: nat)
    requires t.sessions == s.sessions[key := R.Next(Session(s, key), R.Conclude(id, text, saved), keep)]
    ensures forall k :: SameJobs(Session(s, k), Session(t, k), id)
  {
    forall k
      ensures SameJobs(Session(s, k), Session(t, k), id)
    {
      if k != key {
        assert Session(t, k) == Session(s, k);
      }
    }
  }

  lemma OthersStayOk(s: State, t: State, id: nat, keep: nat)
    requires forall other | other in s.work :: WorkOk(s, other, keep)
    requires forall other | other in t.work && other != id :: SameWork(s, t, other)
    requires forall key :: SameJobs(Session(s, key), Session(t, key), id)
    ensures forall other | other in t.work && other != id :: WorkOk(t, other, keep)
  {
    forall other | other in t.work && other != id
      ensures WorkOk(t, other, keep)
    {
      assert SameWork(s, t, other) && WorkOk(s, other, keep);
      assert SameJobs(Session(s, s.work[other].key), Session(t, s.work[other].key), id);
      WorkSurvives(s, t, other, keep);
    }
  }

  lemma FinishKeepsInv(s: State, id: nat, ok: bool, keep: nat)
    requires Inv(s, keep) && CanFinish(s, id, ok)
    ensures Inv(Next(s, Finish(id, ok), keep), keep)
  {
    var t := Next(s, Finish(id, ok), keep);
    SessionsStayOk(s, t, s.work[id].key, R.Conclude(id, None, false), keep);
    SameOtherJobs(s, t, s.work[id].key, id, None, false, keep);
    forall other | other in t.work
      ensures other != id && SameWork(s, t, other)
    {
      assert WorkOk(s, other, keep);
    }
    OthersStayOk(s, t, id, keep);
    FinishedIsCached(s, id, ok, keep);
  }

  lemma FinishedIsCached(s: State, id: nat, ok: bool, keep: nat)
    requires Inv(s, keep) && CanFinish(s, id, ok)
    ensures ResultsOk(Next(s, Finish(id, ok), keep), keep)
  {
    var t := Next(s, Finish(id, ok), keep);
    var w := s.work[id];
    assert WorkOk(s, id, keep);
    forall key | key in t.cache.cache
      ensures key in t.results && Describes(t.results[key], t.cache.cache[key].source, keep)
    {
      if ok && key == w.key {
        assert t.cache.cache[key] == C.Cached(s.cache.builds[id], s.cache.now);
      } else {
        assert key in s.cache.cache && t.cache.cache[key] == s.cache.cache[key] && t.results[key] == s.results[key];
      }
    }
  }

  /** Steps that touch nothing but the cache's own bookkeeping. */
  lemma BookkeepingKeepsInv(s: State, t: State, keep: nat)
    requires Inv(s, keep) && t.sessions == s.sessions && t.work == s.work && t.results == s.results
    requires t.cache.transcripts == s.cache.transcripts && t.cache.cache == s.cache.cache
    requires forall id :: id in t.cache.builds ==> id in s.cache.builds && t.cache.builds[id] == s.cache.builds[id]
    requires forall id :: id in s.cache.builds && !s.cache.builds[id].settled ==> id in t.cache.builds
    ensures Inv(t, keep)
  {
    forall id | id in t.work
      ensures WorkOk(t, id, keep)
    {
      assert WorkOk(s, id, keep);
      WorkSurvives(s, t, id, keep);
    }
    forall key
      ensures R.Inv(Session(t, key), keep) && Session(t, key).transcript == C.Transcript(t.cache, key)
    {
      assert Session(t, key) == Session(s, key);
    }
  }

  lemma NextKeepsInv(s: State, step: Step, keep: nat)
    requires Inv(s, keep)
    ensures Inv(Next(s, step, keep), keep)
  {
    var t := Next(s, step, keep);
    match step
    case Append(key, turn, landed) => AppendKeepsInv(s, key, turn, landed, keep);
    case Start(id, key, budget, prewarm) =>
      if CanStart(s, id, key, prewarm) {
        StartKeepsInv(s, id, key, budget, prewarm, keep);
      } else {
        BookkeepingKeepsInv(s, t, keep);
      }
    case Conclude(id, text, saved, history) =>
      if CanConclude(s, id, text, history) {
        ConcludeKeepsInv(s, id, text, saved, history, keep);
      } else {
        BookkeepingKeepsInv(s, t, keep);
      }
    case Finish(id, ok) =>
      if CanFinish(s, id, ok) {
        FinishKeepsInv(s, id, ok, keep);
      } else {
        BookkeepingKeepsInv(s, t, keep);
      }
    case Release(id) => BookkeepingKeepsInv(s, t, keep);
    case Pass(_) => BookkeepingKeepsInv(s, t, keep);
  }

  lemma {:induction false} RunKeepsInv(steps: seq<Step>, keep: nat)
    ensures Inv(Run(steps, keep), keep)
  {
    if steps != [] {
      RunKeepsInv(steps[..|steps| - 1], keep);
      NextKeepsInv(Run(steps[..|steps| - 1], keep), steps[|steps| - 1], keep);
    }
  }

  // ------------------------------------------------------------ what a hit hands over

  /** Step by step, the cache goes through a run of its own. */
  ghost predicate Mirrors(cs: seq<C.Step>, steps: seq<Step>) {
    |cs| == |steps| && forall i, key | 0 <= i < |cs| :: C.IsAppend(cs[i], key, false) <==> LosesCount(steps[i], key)
  }

  ghost predicate Tracks(s: State, cs: seq<C.Step>, steps: seq<Step>) {
    s.cache == C.Run(cs) && Mirrors(cs, steps)
  }

  lemma {:induction false} CacheRuns(steps: seq<Step>, keep: nat) returns (cs: seq<C.Step>)
    ensures Tracks(Run(steps, keep), cs, steps)
  {
    cs := [];
    if steps != [] {
      var before := steps[..|steps| - 1];
      cs := CacheRuns(before, keep);
      cs := CacheAdvances(Run(before, keep), steps[|steps| - 1], keep, cs, steps);
    }
  }

  lemma CacheAdvances(s: State, step: Step, keep: nat, cs: seq<C.Step>, steps: seq<Step>) returns (next: seq<C.Step>)
    requires steps != [] && steps[|steps| - 1] == step && Tracks(s, cs, steps[..|steps| - 1])
    ensures Tracks(Next(s, step, keep), next, steps)
  {
    var c := CacheStep(s, step);
    C.RunStep(cs, c);
    assert steps == steps[..|steps| - 1] + [step];
    StepMirrors(cs, steps[..|steps| - 1], c, step, s);
    next := cs + [c];
  }

  lemma StepMirrors(cs: seq<C.Step>, before: seq<Step>, c: C.Step, last: Step, s: State)
    requires Mirrors(cs, before) && c == CacheStep(s, last)
    ensures Mirrors(cs + [c], before + [last])
  {
    forall key
      ensures C.IsAppend(c, key, false) <==> LosesCount(last, key)
    {
      StepLosesCount(s, last, key);
    }
  }

  lemma StepLosesCount(s: State, step: Step, key: Key)
    ensures C.IsAppend(CacheStep(s, step), key, false) <==> LosesCount(step, key)
  {
  }

  /** A turn is stored whose metadata write is lost. */
  predicate LosesCount(step: Step, key: Key) {
    step.Append? && step.key == key && !step.landed
  }

  /** A hit, at any point of any run over any sessions: it describes a beginning of the transcript, which is
      all of it if and only if no append to the session has lost its metadata write since the build began. */
  lemma {:induction false} HitHandsOver(steps: seq<Step>, key: Key, keep: nat)
    requires C.Lookup(Run(steps, keep).cache, key).Some?
    ensures
      var s := Run(steps, keep);
      var hit := C.Lookup(s.cache, key).value;
      && key in s.results && Describes(s.results[key], hit.source, keep)
      && hit.source <= Session(s, key).transcript
      && (hit.source == Session(s, key).transcript
          <==> !exists i | hit.startedAt <= i < |steps| :: LosesCount(steps[i], key))
  {
    RunKeepsInv(steps, keep);
    var cs := CacheRuns(steps, keep);
    var hit := C.Lookup(Run(steps, keep).cache, key).value;
    C.CacheAgreement(cs, key);
    assert Session(Run(steps, keep), key).transcript == C.Transcript(Run(steps, keep).cache, key);
    SameLosses(cs, steps, hit.startedAt, key);
  }

  lemma SameLosses(cs: seq<C.Step>, steps: seq<Step>, from: nat, key: Key)
    requires Mirrors(cs, steps)
    ensures C.AppendedSince(cs, from, key, false) <==> exists i | from <= i < |steps| :: LosesCount(steps[i], key)
  {
    if C.AppendedSince(cs, from, key, false) {
      var i :| from <= i < |cs| && C.IsAppend(cs[i], key, false);
      assert LosesCount(steps[i], key);
    }
    if i :| from <= i < |steps| && LosesCount(steps[i], key) {
      assert C.IsAppend(cs[i], key, false);
    }
  }

  /** The shortest run to a hit: a turn, a prewarm whose build need not wait, and its end. */
  lemma FirstHit(key: Key, turn: R.Turn, budget: nat, keep: nat)
    requires Cost([turn]) <= budget / 2
    ensures
      var s := Run([Append(key, turn, true), Start(0, key, budget, true), Finish(0, true)], keep);
      && C.Lookup(s.cache, key) == Some(C.Entry([turn], 0, 1, 1))
      && key in s.results && s.results[key] == Result([turn], Whole)
      && s.cache.pending == {key}
  {
    var a, b, c := Append(key, turn, true), Start(0, key, budget, true), Finish(0, true);
    RunStep([], a, keep);
    RunStep([a], b, keep);
    RunStep([a, b], c, keep);
    assert [] + [a] == [a] && [a] + [b] == [a, b] && [a, b] + [c] == [a, b, c];
    FirstTurn(key, turn, keep);
    FirstBuild(Run([a], keep), key, turn, budget, keep);
    FirstEnd(Run([a, b], keep), key, turn, budget, keep);
  }

  lemma RunStep(steps: seq<Step>, step: Step, keep: nat)
    ensures Run([], keep) == EMPTY && Run(steps + [step], keep) == Next(Run(steps, keep), step, keep)
  {
    assert (steps + [step])[..|steps|] == steps;
  }

  lemma FirstTurn(key: Key, turn: R.Turn, keep: nat)
    ensures
      var s := Next(EMPTY, Append(key, turn, true), keep);
      && Session(s, key).transcript == [turn] && Session(s, key).stored == None && Session(s, key).jobs == map[]
      && s.work == map[] && s.cache == C.State(map[key := [turn]], map[key := 1], map[], {}, map[], 0, 1)
  {
    assert [] + [turn] == [turn];
  }

  lemma FirstBuild(s: State, key: Key, turn: R.Turn, budget: nat, keep: nat)
    requires Cost([turn]) <= budget / 2
    requires Session(s, key).transcript == [turn] && Session(s, key).stored == None && Session(s, key).jobs == map[]
    requires s.work == map[] && s.cache == C.State(map[key := [turn]], map[key := 1], map[], {}, map[], 0, 1)
    ensures
      var t := Next(s, Start(0, key, budget, true), keep);
      && t.work == map[0 := Work(key, budget, Some(Result([turn], Whole)))]
      && t.cache == C.State(map[key := [turn]], map[key := 1], map[], {key},
                            map[0 := C.Build(key, [turn], 1, 1, true, false)], 0, 2)
  {
    assert Immediate(Session(s, key), budget, keep) == Some(Result([turn], Whole));
  }

  lemma FirstEnd(s: State, key: Key, turn: R.Turn, budget: nat, keep: nat)
    requires s.work == map[0 := Work(key, budget, Some(Result([turn], Whole)))]
    requires s.cache == C.State(map[key := [turn]], map[key := 1], map[], {key},
                                map[0 := C.Build(key, [turn], 1, 1, true, false)], 0, 2)
    ensures
      var t := Next(s, Finish(0, true), keep);
      && C.Lookup(t.cache, key) == Some(C.Entry([turn], 0, 1, 1)) && t.cache.pending == {key}
      && key in t.results && t.results[key] == Result([turn], Whole)
  {
    assert CanFinish(s, 0, true);
  }
}
