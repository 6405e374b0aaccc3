/** The in-process sink: each event of a batch is calibrated, processed and, if it alerts,
    written as a line. A failed batch is sent again and its events are processed again. */
module NoveltySink {
  import opened Event
  import opened Faults
  import opened Text
  import opened Novelty
  import opened NoveltyAlert
  import opened NoveltyHistory
  import opened NoveltyResults

  // ---------- the lines on file ----------

  /** The alert lines on file after a run of attempts. */
  function Lines(c: Setup, h: seq<Attempt>): seq<Alert> {
    if h == [] then []
    else Lines(c, h[..|h| - 1]) + if GetsOut(h[|h| - 1].writes) then EmittedAt(c, h, |h| - 1) else []
  }

  lemma EmittedInPast(c: Setup, h: seq<Attempt>, n: nat, i: nat)
    requires i < n <= |h|
    ensures EmittedAt(c, h[..n], i) == EmittedAt(c, h, i)
    ensures EmitsTierA(c, h[..n], i) <==> EmitsTierA(c, h, i)
  {
    hide Alerts;
    assert h[..n][..i] == h[..i];
  }

  /** An attempt answers with one alert at most. */
  lemma OneAlertAtMost(t: Tables, ignore: set<string>, p: Policy, ev: MatchEvent)
    ensures |Alerts(t, ignore, p, ev)| <= 1
  {
  }

  lemma LinesStep(c: Setup, h: seq<Attempt>, k: nat)
    requires k < |Lines(c, h)|
    ensures h != []
    ensures var before := Lines(c, h[..|h| - 1]);
      if k < |before| then Lines(c, h)[k] == before[k]
      else k == |before| && GetsOut(h[|h| - 1].writes) && EmittedAt(c, h, |h| - 1) == [Lines(c, h)[k]]
  {
    if h != [] {
      OneAlertAtMost(Run(c, h[..|h| - 1]), c.ignore, PolicyAt(c, h[|h| - 1]), h[|h| - 1].ev);
    }
    hide Alerts;
  }

  /** Every tier A line comes from its own attempt. */
  lemma {:induction false} LineOrigin(c: Setup, h: seq<Attempt>, k: nat) returns (i: nat)
    requires k < |Lines(c, h)| && Lines(c, h)[k].TierA?
    ensures i < |h| && GetsOut(h[i].writes) && EmitsTierA(c, h, i) && EmittedAt(c, h, i)[0] == Lines(c, h)[k]
  {
    hide EmittedAt, GetsOut, Lines;
    LinesStep(c, h, k);
    var front := h[..|h| - 1];
    if k < |Lines(c, front)| {
      i := LineOrigin(c, front, k);
      EmittedInPast(c, h, |h| - 1, i);
    } else {
      i := |h| - 1;
    }
  }

  lemma {:induction false} LineOfAttempt(c: Setup, h: seq<Attempt>, i: nat) returns (k: nat)
    requires i < |h| && GetsOut(h[i].writes) && EmitsTierA(c, h, i)
    ensures k < |Lines(c, h)| && Lines(c, h)[k] == EmittedAt(c, h, i)[0]
    decreases |h|
  {
    hide EmittedAt, GetsOut;
    var n := |h| - 1;
    if i < n {
      EmittedInPast(c, h, n, i);
      k := LineOfAttempt(c, h[..n], i);
    } else {
      k := |Lines(c, h[..n])|;
    }
  }

  /** At most once: whatever fails and is retried, no two lines name the same set of brands. */
  lemma {:induction false} LinesAreDistinct(c: Setup, h: seq<Attempt>, p: nat, q: nat)
    requires CleanStart(c) && CleanBrands(h)
    requires p < q < |Lines(c, h)| && Lines(c, h)[p].TierA? && Lines(c, h)[q].TierA?
    ensures Elems(Lines(c, h)[p].coalition) != Elems(Lines(c, h)[q].coalition)
  {
    hide EmittedAt, GetsOut, Lines, CleanStart;
    LinesStep(c, h, q);
    LinesStep(c, h, p);
    var front := h[..|h| - 1];
    if q < |Lines(c, front)| {
      LinesAreDistinct(c, front, p, q);
    } else {
      var i := LineOrigin(c, front, p);
      EmittedInPast(c, h, |h| - 1, i);
      EmittedAreDistinct(c, h, i, |h| - 1);
    }
  }

  lemma EmittedAreDistinct(c: Setup, h: seq<Attempt>, i: nat, j: nat)
    requires CleanStart(c) && CleanBrands(h) && i < j < |h|
    requires EmitsTierA(c, h, i) && EmitsTierA(c, h, j)
    ensures Elems(EmittedAt(c, h, i)[0].coalition) != Elems(EmittedAt(c, h, j)[0].coalition)
  {
    AlertShape(c, h, i);
    AlertShape(c, h, j);
    AlertsAreDistinct(c, h, i, j);
  }

  /** The line's coalition is among the facts, and the row tells of the line's event. */
  ghost predicate HasFact(line: Alert, certs: map<string, Fact>) {
    line.TierA? ==>
      var key := Join(line.coalition, CSV_SEP);
      key in certs && TellsOf(certs[key], line.event, line.event.seen)
  }

  /** Every line has its captured fact row. */
  lemma LineHasFact(c: Setup, h: seq<Attempt>, k: nat)
    requires CleanStart(c) && CleanBrands(h) && k < |Lines(c, h)| && Lines(c, h)[k].TierA?
    ensures HasFact(Lines(c, h)[k], Run(c, h).certs)
  {
    hide TellsOf, Join;
    hide EmittedAt, EmitsTierA, LowDf, Run, Lines, CleanStart, CleanBrands;
    var i := LineOrigin(c, h, k);
    AlertShape(c, h, i);
    AlertsExactlyWhen(c, h, i);
    CaptureLeavesFact(c, h, i);
  }

  ghost predicate LineNames(c: Setup, h: seq<Attempt>, k: nat, brands: seq<string>)
    requires k < |Lines(c, h)|
  {
    Lines(c, h)[k].TierA? && Lines(c, h)[k].coalition == brands
  }

  /** A captured fact has its line on file exactly when no statement after its commit fails and the
      next write gets out: no retry ever makes up for either. */
  lemma FactHasLineExactlyWhen(c: Setup, h: seq<Attempt>, j: nat)
    requires CleanStart(c) && CleanBrands(h) && Scripted(c, h) && j < |h| && Captures(c, h, j)
    ensures (exists k: nat :: k < |Lines(c, h)| && LineNames(c, h, k, LowDf(c, h, j)))
      <==> RestSucceeds(c, h, j) && GetsOut(h[j].writes)
  {
    hide EmittedAt, LowDf, Lines, GetsOut, Scripted, RestSucceeds, CleanBrands, CleanStart;
    CaptureCompletesExactlyWhen(c, h, j);
    forall k: nat | k < |Lines(c, h)| && LineNames(c, h, k, LowDf(c, h, j))
      ensures h[j].fate.Done? && GetsOut(h[j].writes)
    {
      var i := LineOrigin(c, h, k);
      AlertShape(c, h, i);
      SameCoalitionSameAttempt(c, h, i, j);
    }
    if h[j].fate.Done? && GetsOut(h[j].writes) {
      AlertsExactlyWhen(c, h, j);
      AlertShape(c, h, j);
      var k := LineOfAttempt(c, h, j);
      assert LineNames(c, h, k, LowDf(c, h, j));
    }
  }

  /** The attempt that alerts on a coalition is the one that captured it. */
  lemma SameCoalitionSameAttempt(c: Setup, h: seq<Attempt>, i: nat, j: nat)
    requires CleanStart(c) && CleanBrands(h) && i < |h| && j < |h|
    requires EmitsTierA(c, h, i) && Captures(c, h, j) && LowDf(c, h, i) == LowDf(c, h, j)
    ensures i == j && h[j].fate.Done?
  {
    hide EmittedAt, EmitsTierA, LowDf, CleanBrands, CleanStart;
    AlertsExactlyWhen(c, h, i);
    assert j < i ==> RecordedSame(c, h, j, i);
    assert i < j ==> RecordedSame(c, h, i, j);
  }

  /** With tier B and the learning feed off, as by default, only the write itself can lose a line. */
  lemma DefaultLosesLinesOnlyToWrites(c: Setup, h: seq<Attempt>, j: nat)
    requires CleanStart(c) && CleanBrands(h) && Scripted(c, h) && j < |h| && Captures(c, h, j)
    requires !c.policy.wantB && !c.policy.emitCandidates
    ensures (exists k: nat :: k < |Lines(c, h)| && LineNames(c, h, k, LowDf(c, h, j))) <==> GetsOut(h[j].writes)
  {
    hide LowDf, Lines, GetsOut, Scripted, CleanBrands, CleanStart, Captures, ToCapture, Rest;
    FactHasLineExactlyWhen(c, h, j);
  }

  // ---------- opening ----------

  function LowerSet(names: seq<string>): set<string> { set n | n in names :: Lower(n) }

  /** Names come from trimmed lines. */
  ghost predicate Trimmed(names: seq<string>) {
    forall n :: n in names ==> Bare(n)
  }

  lemma BareSeeds(n: string)
    requires Bare(n)
    ensures SeedBrand(Lower(n)) == Lower(n)
  {
    LowerFolds(n);
    LowerKeepsBare(n);
    BareStays(Lower(n));
  }

  /** Opening raises both columns of every ignored name to the floor, and touches no other name. */
  lemma SeedsIgnoredOnly(degree: map<string, Degree>, names: seq<string>, floor: nat, b: string)
    requires Trimmed(names)
    ensures var d := SeededAll(degree, LowerAll(names), floor);
      if b in LowerSet(names) && b != ""
      then EventsIn(d, b) == Max(EventsIn(degree, b), floor) && PartnersIn(d, b) == Max(PartnersIn(degree, b), floor)
      else EventsIn(d, b) == EventsIn(degree, b) && PartnersIn(d, b) == PartnersIn(degree, b)
  {
    hide SeedBrand, Lower, Bare;
    SeededColumns(degree, LowerAll(names), floor, b);
    forall i | 0 <= i < |names|
      ensures SeedBrand(LowerAll(names)[i]) == Lower(names[i]) && Lower(names[i]) in LowerSet(names)
    {
      assert names[i] in names;
      BareSeeds(names[i]);
    }
    SeedIsTrimmed();
    if b in LowerSet(names) {
      var i :| 0 <= i < |names| && Lower(names[i]) == b;
      assert Lower(Trim(LowerAll(names)[i])) == b;
    }
  }

  lemma SeedIsTrimmed()
    ensures forall raw :: SeedBrand(raw) == Lower(Trim(raw))
  {
  }

  // ---------- the journal of a sink ----------

  /** What a sink has been through: its attempts and the clock readings. */
  datatype Journal = Journal(attempts: seq<Attempt>, nows: seq<i64>)

  /** Tables and lines are exactly what the journal says, and each attempt fared as the faults ahead
      of it decided. */
  ghost predicate Explains(c: Setup, j: Journal, t: Tables, lines: seq<Alert>) {
    && CleanStart(c)
    && t == Run(c, j.attempts)
    && lines == Lines(c, j.attempts)
    && CalibratedBy(c, j.attempts, j.nows)
    && Scripted(c, j.attempts)
  }

  function Extend(j: Journal, a: Attempt, now: i64): Journal {
    Journal(j.attempts + [a], j.nows + [now])
  }

  /** What an attempt answers, and what of it gets on file. */
  function Answer(c: Setup, t: Tables, a: Attempt): seq<Alert> {
    if a.fate.Done? then Alerts(t, c.ignore, PolicyAt(c, a), a.ev) else []
  }

  /** One more attempt keeps the journal exact. */
  lemma ExplainsStep(c: Setup, j: Journal, t: Tables, lines: seq<Alert>, a: Attempt, now: i64)
    requires Explains(c, j, t, lines)
    requires a.calibrating
      == Calibrating(c.start.startedAt, t.multiEvents, now, c.policy.calibrateSecs, c.policy.calibrateEvents)
    requires Fares(t, c.ignore, PolicyAt(c, a), a.ev, a.script, a.fate)
    ensures Explains(c, Extend(j, a, now), After(t, c.ignore, PolicyAt(c, a), a.ev, a.fate),
                     lines + if GetsOut(a.writes) then Answer(c, t, a) else [])
    ensures Extend(j, a, now).attempts == j.attempts + [a] && Extend(j, a, now).nows == j.nows + [now]
  {
    hide Fares, After, Alerts, Calibrating, GetsOut;
    var next := Extend(j, a, now);
    var h := next.attempts;
    assert h[..|h| - 1] == j.attempts && next.nows[..|h| - 1] == j.nows;
    MultiEventsAreCounted(c, j.attempts);
    ScriptedNext(c, j.attempts, a);
  }

  lemma ScriptedNext(c: Setup, h: seq<Attempt>, a: Attempt)
    requires Scripted(c, h) && Fares(Run(c, h), c.ignore, PolicyAt(c, a), a.ev, a.script, a.fate)
    ensures Scripted(c, h + [a])
  {
    hide Fares, Run;
    var next := h + [a];
    forall i | 0 <= i < |next| ensures FaresAt(c, next, i) {
      if i < |h| {
        assert FaresAt(c, h, i);
        assert next[..i] == h[..i];
      } else {
        assert next[..i] == h;
      }
    }
  }

  /** Whatever a sink has been through, its file never names a coalition twice, and every line has
      its fact row. */
  lemma FileOfSink(c: Setup, j: Journal, t: Tables, lines: seq<Alert>, p: nat, q: nat)
    requires Explains(c, j, t, lines) && CleanBrands(j.attempts)
    requires p < q < |lines| && lines[p].TierA? && lines[q].TierA?
    ensures Elems(lines[p].coalition) != Elems(lines[q].coalition)
    ensures HasFact(lines[p], t.certs) && HasFact(lines[q], t.certs)
  {
    hide HasFact, Run, Lines, CleanStart, CleanBrands;
    LinesAreDistinct(c, j.attempts, p, q);
    LineHasFact(c, j.attempts, p);
    LineHasFact(c, j.attempts, q);
  }

  /** Every tier A line was written at a reading past the time gate, after as many multi-brand events as
      the event gate asks for. */
  lemma LinesAfterBurnIn(c: Setup, j: Journal, t: Tables, lines: seq<Alert>, k: nat) returns (i: nat)
    requires Explains(c, j, t, lines) && CleanBrands(j.attempts) && k < |lines| && lines[k].TierA?
    ensures i < |j.attempts| == |j.nows| && EmitsTierA(c, j.attempts, i) && EmittedAt(c, j.attempts, i)[0] == lines[k]
    ensures c.policy.calibrateSecs > 0 ==> j.nows[i] >= c.start.startedAt + Min(c.policy.calibrateSecs, I64_MAX)
    ensures MultiCount(j.attempts[..i]) >= c.policy.calibrateEvents
  {
    hide EmittedAt, EmitsTierA, Run, Lines, LowDf, CleanStart, CleanBrands, Scripted;
    i := LineOrigin(c, j.attempts, k);
    AlertsInPlainTerms(c, j.attempts, j.nows, i);
  }

  lemma ExplainedIsNotStuck(c: Setup, j: Journal, t: Tables, lines: seq<Alert>, ev: MatchEvent, p: Policy)
    requires Explains(c, j, t, lines) && CleanBrands(j.attempts) && CleanEvent(ev)
    ensures !PlanConflict(t, c.ignore, p, ev)
  {
    hide PlanConflict, CleanBrands, CleanEvent, Run;
    NeverStuck(c, j.attempts, ev, p);
  }

  ghost predicate CleanEvents(items: seq<MatchEvent>) {
    forall i :: 0 <= i < |items| ==> CleanEvent(items[i])
  }

  // ---------- delivered attempts ----------

  /** Lines due after a completed step: its alert, and a row of the learning feed. */
  function DueWrites(t: Tables, ignore: set<string>, p: Policy, ev: MatchEvent): nat {
    |Alerts(t, ignore, p, ev)| + if FeedDue(p, StatsOf(t, ignore, p, ev)) then 1 else 0
  }

  predicate FeedDue(p: Policy, s: Stats) { p.emitCandidates && s.highDf + s.muted + s.alertsA > 0 }

  /** The learning feed gets a row of every completed attempt that is the first to record its key, unless
      a gate other than burn-in stops it. */
  lemma FeedExactlyWhen(c: Setup, h: seq<Attempt>, i: nat)
    requires CleanStart(c) && CleanBrands(h) && i < |h|
    ensures FeedDue(c.policy, StatsAt(c, Run(c, h[..i]), h[i])) <==>
      && c.policy.emitCandidates && RecordsFirst(c, h, i)
      && (|LowDf(c, h, i)| >= 2 ==>
        c.policy.wantA && |LowDf(c, h, i)| <= c.policy.maxCoalitionLen && WithinSans(c.policy.maxSanCount, h[i].ev))
  {
    hide StatsAt, LowDf, Run, RecordsFirst, WithinSans;
    CountersExactlyWhen(c, h, i);
  }

  /** The attempt ran to its end and all its lines got out. */
  predicate Delivered(c: Setup, h: seq<Attempt>, i: nat)
    requires i < |h|
  {
    && h[i].fate.Done?
    && AllWritten(h[i].writes, DueWrites(Run(c, h[..i]), c.ignore, PolicyAt(c, h[i]), h[i].ev))
  }

  /** A delivered attempt's alert is on file. */
  lemma DeliveredIsOnFile(c: Setup, h: seq<Attempt>, i: nat) returns (k: nat)
    requires i < |h| && Delivered(c, h, i) && EmitsTierA(c, h, i)
    ensures k < |Lines(c, h)| && Lines(c, h)[k] == EmittedAt(c, h, i)[0]
  {
    hide Alerts, StatsOf, Run;
    k := LineOfAttempt(c, h, i);
  }

  lemma DeliveredInPast(c: Setup, h: seq<Attempt>, n: nat, i: nat)
    requires i < n <= |h|
    ensures Delivered(c, h[..n], i) <==> Delivered(c, h, i)
  {
    hide DueWrites;
    assert h[..n][..i] == h[..i];
  }

  /** The attempts from `at` on ran the batch, event by event, each delivered. */
  ghost predicate RanBatch(c: Setup, h: seq<Attempt>, at: nat, batch: seq<MatchEvent>) {
    at + |batch| <= |h| && forall i :: 0 <= i < |batch| ==> RanEvent(c, h, at, batch, i)
  }

  predicate RanEvent(c: Setup, h: seq<Attempt>, at: nat, batch: seq<MatchEvent>, i: nat)
    requires at + i < |h| && i < |batch|
  {
    h[at + i].ev == batch[i] && Delivered(c, h, at + i)
  }

  ghost predicate RanSomewhere(c: Setup, h: seq<Attempt>, batch: seq<MatchEvent>) {
    exists at: nat :: RanBatch(c, h, at, batch)
  }

  /** Every acknowledged batch was run and delivered, event by event and in order. */
  ghost predicate Backed(c: Setup, h: seq<Attempt>, batches: seq<seq<MatchEvent>>) {
    forall k :: 0 <= k < |batches| ==> RanSomewhere(c, h, batches[k])
  }

  lemma BackedAppend(c: Setup, h: seq<Attempt>, made: seq<Attempt>, batches: seq<seq<MatchEvent>>,
                     batch: seq<MatchEvent>, ok: bool)
    requires Backed(c, h, batches) && (ok ==> RanBatch(c, h + made, |h|, batch))
    ensures Backed(c, h + made, batches + if ok then [batch] else [])
  {
    hide RanBatch;
    forall k | 0 <= k < |batches| ensures RanSomewhere(c, h + made, batches[k]) {
      StaysRun(c, h, made, batches[k]);
    }
    if ok { assert RanSomewhere(c, h + made, batch); }
  }

  lemma StaysRun(c: Setup, h: seq<Attempt>, made: seq<Attempt>, batch: seq<MatchEvent>)
    requires RanSomewhere(c, h, batch)
    ensures RanSomewhere(c, h + made, batch)
  {
    hide Delivered;
    var at: nat :| RanBatch(c, h, at, batch);
    var all := h + made;
    assert all[..|h|] == h;
    forall i | 0 <= i < |batch| ensures RanEvent(c, all, at, batch, i) {
      assert RanEvent(c, h, at, batch, i);
      DeliveredInPast(c, all, |h|, at + i);
    }
    assert RanBatch(c, all, at, batch);
  }

  // ---------- runs without faults ----------

  /** The events the attempts ran, in order, retries included. */
  function EventsOf(h: seq<Attempt>): (r: seq<MatchEvent>)
    ensures |r| == |h| && forall i :: 0 <= i < |r| ==> r[i] == h[i].ev
  {
    seq(|h|, i requires 0 <= i < |h| => h[i].ev)
  }

  /** The attempts of a run in which nothing fails: each event once, calibrated by the clock. */
  ghost function IdealAttempts(c: Setup, events: seq<MatchEvent>, clock: nat -> i64): seq<Attempt> {
    if events == [] then []
    else
      var h := IdealAttempts(c, events[..|events| - 1], clock);
      h + [Attempt(events[|events| - 1], GatesUnmet(c, h, clock(|events|)), Done, [], [])]
  }

  /** The alerts a history calls for, read without the store. */
  ghost function AlertsDue(c: Setup, h: seq<Attempt>): seq<Alert> {
    if h == [] then []
    else
      AlertsDue(c, h[..|h| - 1])
      + if Alertable(c, h, |h| - 1) then [TierA(LowDf(c, h, |h| - 1), h[|h| - 1].ev)] else []
  }

  function TierAOf(alerts: seq<Alert>): seq<Alert> {
    if alerts == [] then []
    else
      TierAOf(alerts[..|alerts| - 1])
      + if alerts[|alerts| - 1].TierA? then [alerts[|alerts| - 1]] else []
  }

  /** With tier B off there are tier A alerts only. */
  lemma QuietWithoutTierB(c: Setup, h: seq<Attempt>, i: nat)
    requires i < |h| && !c.policy.wantB && !EmitsTierA(c, h, i)
    ensures EmittedAt(c, h, i) == []
  {
    hide Stripped, Run, WantEmit, IsNewKey;
  }

  /** When every line gets out, the tier A lines on file are exactly the alerts the history calls
      for, in order. */
  lemma {:induction false} FileIsAlertsDue(c: Setup, h: seq<Attempt>)
    requires CleanStart(c) && CleanBrands(h)
    requires forall i :: 0 <= i < |h| ==> GetsOut(h[i].writes)
    ensures TierAOf(Lines(c, h)) == AlertsDue(c, h)
    ensures !c.policy.wantB ==> Lines(c, h) == AlertsDue(c, h)
  {
    if h != [] {
      hide EmittedAt, Alertable, LowDf, CleanStart, GetsOut;
      var n := |h| - 1;
      FileIsAlertsDue(c, h[..n]);
      EmittedOneAtMost(c, h, n);
      if !c.policy.wantB && !EmitsTierA(c, h, n) { QuietWithoutTierB(c, h, n); }
      AlertsExactlyWhen(c, h, n);
      var before := Lines(c, h[..n]);
      assert Lines(c, h) == before + EmittedAt(c, h, n);
      if EmittedAt(c, h, n) == [] {
        assert before + EmittedAt(c, h, n) == before;
      } else {
        assert (before + EmittedAt(c, h, n))[..|before|] == before;
      }
    }
  }

  lemma EmittedOneAtMost(c: Setup, h: seq<Attempt>, i: nat)
    requires i < |h|
    ensures |EmittedAt(c, h, i)| <= 1
  {
    OneAlertAtMost(Run(c, h[..i]), c.ignore, PolicyAt(c, h[i]), h[i].ev);
  }

  lemma {:induction false} IdealIsClean(c: Setup, events: seq<MatchEvent>, clock: nat -> i64)
    requires CleanEvents(events)
    ensures var h := IdealAttempts(c, events, clock);
      && EventsOf(h) == events && CleanBrands(h)
      && forall i :: 0 <= i < |h| ==> h[i].writes == []
  {
    hide CleanEvent, GatesUnmet;
    if events != [] {
      var front := events[..|events| - 1];
      IdealIsClean(c, front, clock);
      var h := IdealAttempts(c, front, clock);
      assert EventsOf(IdealAttempts(c, events, clock)) == front + [events[|events| - 1]] == events;
    }
  }

  // ---------- the sink ----------

  class Sink {
    const ignore: set<string>
    const policy: Policy
    const store: NoveltyStore
    var lines: seq<Alert>

    /** Fates of the coming writes; all succeed once the script runs out. */
    var writes: seq<WriteFate>

    /** Wall clock readings, one per processed event. */
    const clock: nat -> i64
    var ticks: nat

    ghost const start: Tables
    ghost var journal: Journal
    /** Batches acknowledged so far. */
    ghost var accepted: seq<seq<MatchEvent>>

    ghost function SetupOf(): Setup { Setup(ignore, policy, start) }

    ghost predicate Valid()
      reads this`journal, this`lines, store
    {
      store.startedAt == start.startedAt && Explains(SetupOf(), journal, store.View(), lines)
    }

    function FaultsLeft(): nat
      reads this`writes, store`script
    {
      |store.script| + |writes|
    }

    /** The faults ahead of an attempt, once the burn-in gates are read. */
    ghost predicate Faced(a: Attempt, script: seq<bool>, writes: seq<WriteFate>) {
      a.writes == writes && a.script == Rest(script, GateReads(policy.calibrateSecs, policy.calibrateEvents))
    }

    /** Nothing has failed and nothing will: every event was processed once. */
    ghost predicate Ideal()
      reads this`journal, this`writes, this`ticks, store`script
    {
      && store.script == [] && writes == [] && ticks == |journal.attempts| + 1
      && journal.attempts == IdealAttempts(SetupOf(), EventsOf(journal.attempts), clock)
    }

    /** A sink over a store that holds nothing but seeded counters of ignored names. */
    constructor (ignore: set<string>, policy: Policy, store: NoveltyStore, writes: seq<WriteFate>, clock: nat -> i64)
      requires CleanStart(Setup(ignore, policy, store.View()))
      ensures Valid() && this.ignore == ignore && this.policy == policy && this.store == store
      ensures this.writes == writes && this.clock == clock && ticks == 1 && start == store.View()
      ensures journal == Journal([], []) && lines == [] && accepted == []
    {
      this.ignore, this.policy, this.store, this.writes, this.clock := ignore, policy, store, writes, clock;
      lines, ticks := [], 1;
      start, journal, accepted := store.View(), Journal([], []), [];
    }

    method WriteLine() returns (ok: bool, wroteIt: bool)
      modifies this`writes
      ensures ok <==> AllWritten(old(writes), 1)
      ensures wroteIt <==> GetsOut(old(writes))
      ensures writes == if old(writes) == [] then [] else old(writes)[1..]
    {
      if writes == [] { return true, true; }
      ok, wroteIt := writes[0].Written?, !writes[0].NotWritten?;
      writes := writes[1..];
    }

    /** Write the answer of a completed step; the learning-feed row comes after the alert. */
    method WriteAnswer(alerts: seq<Alert>, feed: bool) returns (ok: bool)
      requires |alerts| <= 1
      modifies this`lines, this`writes
      ensures lines == old(lines) + if GetsOut(old(writes)) then alerts else []
      ensures ok <==> AllWritten(old(writes), |alerts| + if feed then 1 else 0)
      ensures Spent(|old(writes)|, |writes|, ok) && (old(writes) == [] ==> writes == [])
    {
      ok := true;
      for i := 0 to |alerts|
        invariant ok && lines == old(lines) + (if GetsOut(old(writes)) then alerts[..i] else [])
        invariant writes == if i == 0 || old(writes) == [] then old(writes) else old(writes)[1..]
        invariant i > 0 ==> AllWritten(old(writes), 1)
      {
        var wroteIt;
        ok, wroteIt := WriteLine();
        if wroteIt { lines := lines + [alerts[i]]; }
        if !ok { return; }
      }
      if feed {
        var fed;
        ok, fed := WriteLine();
      }
    }

    /** The engine step of one event. */
    method Match(p: Policy, ev: MatchEvent) returns (r: Result<(seq<Alert>, Stats)>, ghost fate: Fate)
      requires Valid()
      modifies store
      ensures store.View() == After(old(store.View()), ignore, p, ev, fate)
      ensures r.Ok? <==> fate.Done?
      ensures r.Ok? ==> r.value == (Alerts(old(store.View()), ignore, p, ev), StatsOf(old(store.View()), ignore, p, ev))
      ensures |Alerts(old(store.View()), ignore, p, ev)| <= 1
      ensures Fares(old(store.View()), ignore, p, ev, old(store.script), fate)
      ensures |store.script| <= |old(store.script)|
      ensures CleanEvent(ev) && CleanBrands(journal.attempts) ==>
        Spent(|old(store.script)|, |store.script|, r.Ok?) && (old(store.script) == [] ==> r.Ok?)
    {
      hide Explains, After, Alerts, StatsOf, PlanConflict, CleanEvent, CleanBrands, Fares, StepStatements;
      if CleanEvent(ev) && CleanBrands(journal.attempts) {
        ExplainedIsNotStuck(SetupOf(), journal, store.View(), lines, ev, p);
      }
      OneAlertAtMost(store.View(), ignore, p, ev);
      r, fate := ProcessMatch(store, ignore, p, ev);
    }

    /** Process a calibrated event and write its lines. */
    method ProcessCalibrated(ev: MatchEvent, calibrating: bool, now: i64) returns (ok: bool)
      requires Valid()
      requires calibrating
        == Calibrating(store.startedAt, store.multiEvents, now, policy.calibrateSecs, policy.calibrateEvents)
      modifies this`lines, this`writes, this`journal, store
      ensures Valid()
      ensures IsNext(journal.attempts, old(journal.attempts), ev, calibrating, old(store.script), old(writes))
      ensures journal.nows == old(journal.nows) + [now]
      ensures ok <==> Delivered(SetupOf(), journal.attempts, |old(journal.attempts)|)
      ensures |store.script| <= |old(store.script)| && |writes| <= |old(writes)|
      ensures CleanEvent(ev) && CleanBrands(old(journal.attempts)) ==> Spent(old(FaultsLeft()), FaultsLeft(), ok)
      ensures CleanEvent(ev) && CleanBrands(old(journal.attempts)) && old(FaultsLeft()) == 0 ==> ok
    {
      hide Explains, After, Alerts, StatsOf, PlanConflict, CleanEvent, CleanBrands, Calibrating, Extend, Fares, FeedDue,
        GetsOut;
      var p := policy.(calibrating := calibrating);
      ghost var c, t, j, script, fates := SetupOf(), store.View(), journal, store.script, writes;
      var r; ghost var fate;
      r, fate := Match(p, ev);
      ghost var a := Attempt(ev, calibrating, fate, script, fates);
      assert PolicyAt(c, a) == p;
      ok := r.Ok?;
      if ok {
        ok := WriteAnswer(r.value.0, FeedDue(p, r.value.1));
      }
      assert lines == old(lines) + if GetsOut(fates) then Answer(c, t, a) else [];
      ExplainsStep(c, j, t, old(lines), a, now);
      journal := Extend(j, a, now);
      DeliveredLast(c, j, t, old(lines), a);
    }

    /** Calibrate and process one event and write its lines. */
    method ProcessOne(ev: MatchEvent) returns (ok: bool, ghost made: seq<Attempt>)
      requires Valid()
      modifies this`lines, this`writes, this`ticks, this`journal, store
      ensures Valid() && ticks == old(ticks) + 1
      ensures journal.attempts == old(journal.attempts) + made
      ensures |made| == if Good(old(store.script), GateReads(policy.calibrateSecs, policy.calibrateEvents)) then 1 else 0
      ensures made != [] ==> made[0].ev == ev && Faced(made[0], old(store.script), old(writes))
      ensures journal.nows == old(journal.nows) + if made == [] then [] else [clock(old(ticks))]
      ensures ok <==> made != [] && Delivered(SetupOf(), journal.attempts, |old(journal.attempts)|)
      ensures |store.script| <= |old(store.script)| && |writes| <= |old(writes)|
      ensures CleanEvent(ev) && CleanBrands(old(journal.attempts)) ==> Spent(old(FaultsLeft()), FaultsLeft(), ok)
      ensures CleanEvent(ev) && CleanBrands(old(journal.attempts)) && old(Ideal()) ==> ok && Ideal()
    {
      hide Explains, CleanEvent, CleanBrands, Calibrating, Good, Delivered, IdealAttempts;
      ghost var before := journal;
      var now := clock(ticks);
      ticks, made := ticks + 1, [];
      var calibrating := store.IsCalibrating(now, policy.calibrateSecs, policy.calibrateEvents);
      if calibrating.Err? { return false, []; }
      ok := ProcessCalibrated(ev, calibrating.value, now);
      made := [journal.attempts[|before.attempts|]];
      assert journal.attempts == before.attempts + made;
      if ok && old(Ideal()) {
        OneReadingEach(SetupOf(), before, old(store.View()), old(lines));
        IdealNext(SetupOf(), before.attempts, journal, store.View(), lines, clock);
      }
    }

    /** Process a batch in order, stopping at the first failure. */
    method SendBatch(items: seq<MatchEvent>) returns (ok: bool, ghost made: seq<Attempt>)
      requires Valid()
      modifies this, store
      ensures Valid()
      ensures journal.attempts == old(journal.attempts) + made && |made| <= |items|
      ensures forall i :: 0 <= i < |made| ==> made[i].ev == items[i]
      ensures forall i :: 0 <= i < |made| - 1 ==>
        RanEvent(SetupOf(), journal.attempts, |old(journal.attempts)|, items, i)
      ensures ok <==> items != [] && RanBatch(SetupOf(), journal.attempts, |old(journal.attempts)|, items)
      ensures items != [] ==>
        (made == [] <==> !Good(old(store.script), GateReads(policy.calibrateSecs, policy.calibrateEvents)))
      ensures made != [] ==> Faced(made[0], old(store.script), old(writes))
      ensures |store.script| <= |old(store.script)|
      ensures accepted == old(accepted) + if ok then [items] else []
      ensures items != [] && CleanEvents(items) && CleanBrands(old(journal.attempts)) ==>
        Spent(old(FaultsLeft()), FaultsLeft(), ok)
      ensures items != [] && CleanEvents(items) && CleanBrands(old(journal.attempts)) && old(Ideal()) ==> ok && Ideal()
    {
      hide Valid, Ideal, Delivered, CleanEvent, Good, GateReads, RanBatch, RanEvent, Faced, CleanBrands;
      made := [];
      if items == [] { return false, []; }
      NothingRan(SetupOf(), journal.attempts, items);
      for k := 0 to |items|
        invariant Valid() && accepted == old(accepted)
        invariant journal.attempts == old(journal.attempts) + made
        invariant |made| == k && forall i :: 0 <= i < |made| ==> made[i].ev == items[i]
        invariant RanBatch(SetupOf(), journal.attempts, |old(journal.attempts)|, items[..k])
        invariant made == [] ==> store.script == old(store.script) && writes == old(writes)
        invariant made != [] ==> Faced(made[0], old(store.script), old(writes))
        invariant made != [] ==> Good(old(store.script), GateReads(policy.calibrateSecs, policy.calibrateEvents))
        invariant FaultsLeft() <= old(FaultsLeft()) && |store.script| <= |old(store.script)|
        invariant CleanEvents(items) && CleanBrands(old(journal.attempts)) && old(Ideal()) ==> Ideal()
      {
        ghost var one, sofar := [], journal.attempts;
        if CleanEvents(items) && CleanBrands(old(journal.attempts)) {
          CleanAppend(old(journal.attempts), made, items);
        }
        ok, one := ProcessOne(items[k]);
        RanOneMore(SetupOf(), sofar, one, |old(journal.attempts)|, items, k);
        made := made + one;
        if !ok { return; }
      }
      assert items[..|items|] == items;
      RanEach(SetupOf(), journal.attempts, |old(journal.attempts)|, items);
      ok, accepted := true, accepted + [items];
    }
  }

  /** One more attempt, at this event and with these faults ahead. */
  ghost predicate IsNext(after: seq<Attempt>, before: seq<Attempt>, ev: MatchEvent, calibrating: bool,
                         script: seq<bool>, writes: seq<WriteFate>)
  {
    && |after| == |before| + 1 && after[..|before|] == before
    && var a := after[|before|];
      a.ev == ev && a.calibrating == calibrating && a.script == script && a.writes == writes
  }

  lemma DeliveredLast(c: Setup, j: Journal, t: Tables, lines: seq<Alert>, a: Attempt)
    requires Explains(c, j, t, lines)
    ensures Delivered(c, j.attempts + [a], |j.attempts|) <==>
      a.fate.Done? && AllWritten(a.writes, DueWrites(t, c.ignore, PolicyAt(c, a), a.ev))
  {
    hide DueWrites, AllWritten;
    assert (j.attempts + [a])[..|j.attempts|] == j.attempts;
  }

  lemma OneReadingEach(c: Setup, j: Journal, t: Tables, lines: seq<Alert>)
    requires Explains(c, j, t, lines)
    ensures |j.nows| == |j.attempts|
  {
  }

  /** A delivered attempt without faults ahead extends the ideal run. */
  lemma IdealNext(c: Setup, h: seq<Attempt>, j: Journal, t: Tables, lines: seq<Alert>, clock: nat -> i64)
    requires Explains(c, j, t, lines) && |j.attempts| == |h| + 1 && j.attempts[..|h|] == h
    requires h == IdealAttempts(c, EventsOf(h), clock) && |j.nows| == |h| + 1 && j.nows[|h|] == clock(|h| + 1)
    requires j.attempts[|h|].script == [] && j.attempts[|h|].writes == [] && Delivered(c, j.attempts, |h|)
    ensures j.attempts == IdealAttempts(c, EventsOf(j.attempts), clock)
  {
    hide DueWrites, GatesUnmet, Run, Lines, Scripted, CleanStart;
    var a := j.attempts[|h|];
    assert j.attempts == h + [a];
    assert EventsOf(j.attempts)[..|h|] == EventsOf(h);
  }

  lemma NoScript(script: seq<bool>, n: nat)
    requires script == []
    ensures Good(script, n) && Rest(script, n) == []
  {
  }

  lemma NothingRan(c: Setup, h: seq<Attempt>, items: seq<MatchEvent>)
    ensures RanBatch(c, h, |h|, items[..0])
    ensures items != [] ==> !RanBatch(c, h, |h|, items)
  {
  }

  lemma RanEach(c: Setup, h: seq<Attempt>, at: nat, items: seq<MatchEvent>)
    requires RanBatch(c, h, at, items)
    ensures at + |items| <= |h| && forall i :: 0 <= i < |items| ==> RanEvent(c, h, at, items, i)
  {
  }

  lemma RanOneMore(c: Setup, h: seq<Attempt>, one: seq<Attempt>, at: nat, items: seq<MatchEvent>, k: nat)
    requires k < |items| && |h| == at + k && RanBatch(c, h, at, items[..k])
    requires |one| <= 1 && (one != [] ==> one[0].ev == items[k])
    ensures one != [] && Delivered(c, h + one, |h|) ==> RanBatch(c, h + one, at, items[..k + 1])
    ensures RanBatch(c, h + one, at, items) ==> one != [] && Delivered(c, h + one, |h|)
    ensures forall i :: 0 <= i < k ==> RanEvent(c, h + one, at, items, i)
  {
    hide Delivered;
    var all := h + one;
    forall i | 0 <= i < k ensures RanEvent(c, all, at, items, i) {
      assert RanEvent(c, h, at, items[..k], i);
      assert all[..|h|] == h;
      DeliveredInPast(c, all, |h|, at + i);
    }
    if RanBatch(c, all, at, items) { assert RanEvent(c, all, at, items, k); }
    if one == [] || !Delivered(c, all, |h|) { return; }
    assert all[..|h|] == h;
    var upTo := items[..k + 1];
    forall i | 0 <= i < k + 1 ensures RanEvent(c, all, at, upTo, i) {
      if i < k {
        assert RanEvent(c, h, at, items[..k], i);
        DeliveredInPast(c, all, |h|, at + i);
      }
    }
  }

  lemma CleanAppend(h: seq<Attempt>, made: seq<Attempt>, items: seq<MatchEvent>)
    requires CleanBrands(h) && CleanEvents(items) && |made| <= |items|
    requires forall i :: 0 <= i < |made| ==> made[i].ev == items[i]
    ensures CleanBrands(h + made)
  {
    hide CleanEvent;
  }

  // ---------- opening a sink ----------

  /** Both columns of every ignored name stand at the floor, and nothing else is counted. */
  ghost predicate Floored(degree: map<string, Degree>, names: seq<string>, floor: nat) {
    forall b :: EventsIn(degree, b) == PartnersIn(degree, b) == if b in LowerSet(names) && b != "" then floor else 0
  }

  lemma SeededIsClean(names: seq<string>, policy: Policy, now: i64, floor: nat)
    requires Trimmed(names)
    ensures CleanStart(Setup(LowerSet(names), policy,
                             Fresh(now).(degree := SeededAll(map[], LowerAll(names), floor))))
    ensures Floored(SeededAll(map[], LowerAll(names), floor), names, floor)
  {
    var degree := SeededAll(map[], LowerAll(names), floor);
    hide SeededAll;
    forall b
      ensures EventsIn(degree, b) == PartnersIn(degree, b) == if b in LowerSet(names) && b != "" then floor else 0
    {
      SeedsIgnoredOnly(map[], names, floor, b);
    }
  }

  /** Open a sink on a new database, seeded with the operator's ignore names; a statement that fails
      while seeding keeps the sink from opening. */
  method Open(names: seq<string>, policy: Policy, script: seq<bool>, writes: seq<WriteFate>, clock: nat -> i64)
    returns (r: Result<Sink>)
    requires Trimmed(names)
    ensures r.Ok? <==> Good(script, SeedStatements(LowerAll(names), Max(policy.maxPartnerDegree, policy.maxBrandDf)))
    ensures r.Ok? ==> var s := r.value;
      && fresh(s) && fresh(s.store) && s.Valid() && s.ignore == LowerSet(names) && s.policy == policy
      && s.store.script == Rest(script, SeedStatements(LowerAll(names), Max(policy.maxPartnerDegree, policy.maxBrandDf)))
      && s.writes == writes && s.clock == clock && s.ticks == 1
      && s.journal == Journal([], []) && s.lines == [] && s.accepted == []
      && s.store.View() == Fresh(clock(0)).(degree := s.store.degree)
      && Floored(s.store.degree, names, Max(policy.maxPartnerDegree, policy.maxBrandDf))
  {
    hide Floored, Good, Rest, SeedStatements, Sink.Valid, CleanStart;
    var db := new NoveltyStore(clock(0), script);
    var floor := Max(policy.maxPartnerDegree, policy.maxBrandDf);
    var ok; ghost var done;
    ok, done := db.SeedDegreeFloor(LowerAll(names), floor);
    if !ok { return Err; }
    assert LowerAll(names)[..done] == LowerAll(names);
    SeededIsClean(names, policy, clock(0), floor);
    var sink := new Sink(LowerSet(names), policy, db, writes, clock);
    return Ok(sink);
  }
}
