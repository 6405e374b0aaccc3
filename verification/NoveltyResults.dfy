/** Further results over whole runs of the novelty engine: budgets, conservation, burn-in,
    and which captured facts have an alert. */
module NoveltyResults {
  import opened Event
  import opened Faults
  import opened Text
  import opened Novelty
  import opened NoveltyAlert
  import opened NoveltyHistory

  // ---------- alert budget ----------

  predicate AlertNames(c: Setup, h: seq<Attempt>, i: nat, b: string)
    requires i < |h|
  {
    EmitsTierA(c, h, i) && b in EmittedAt(c, h, i)[0].coalition
  }

  function AlertsNaming(c: Setup, h: seq<Attempt>, b: string): nat {
    if h == [] then 0
    else AlertsNaming(c, h[..|h| - 1], b) + if AlertNames(c, h, |h| - 1, b) then 1 else 0
  }

  function TotalAlerts(c: Setup, h: seq<Attempt>): nat {
    if h == [] then 0 else TotalAlerts(c, h[..|h| - 1]) + if EmitsTierA(c, h, |h| - 1) then 1 else 0
  }

  /** An alert names low-frequency brands of a completed attempt, two of them at least. */
  lemma AlertShape(c: Setup, h: seq<Attempt>, i: nat)
    requires CleanStart(c) && i < |h| && EmitsTierA(c, h, i)
    ensures h[i].fate.Done? && EmittedAt(c, h, i)[0].coalition == LowDf(c, h, i)
    ensures |LowDf(c, h, i)| >= 2 && StrictlySorted(LowDf(c, h, i))
  {
    StrippedIsLowDf(c, h, i);
  }

  lemma {:induction false} AlertsAreMentions(c: Setup, h: seq<Attempt>, b: string)
    requires CleanStart(c)
    ensures AlertsNaming(c, h, b) <= Named(h, b)
  {
    if h != [] {
      AlertsAreMentions(c, h[..|h| - 1], b);
      if AlertNames(c, h, |h| - 1, b) { AlertShape(c, h, |h| - 1); }
    }
  }

  /** With an event cap D, no brand is ever named in more than D - 1 alerts. */
  lemma {:induction false} AlertBudget(c: Setup, h: seq<Attempt>, b: string)
    requires CleanStart(c) && c.policy.maxBrandDf > 0
    ensures AlertsNaming(c, h, b) <= c.policy.maxBrandDf - 1
  {
    if h != [] {
      if AlertNames(c, h, |h| - 1, b) {
        AlertShape(c, h, |h| - 1);
        AlertsAreMentions(c, h, b);
        assert h[..|h|] == h;
      } else {
        AlertBudget(c, h[..|h| - 1], b);
      }
    }
  }

  function AllKeywords(h: seq<Attempt>): seq<string> {
    if h == [] then [] else AllKeywords(h[..|h| - 1]) + UniqueKeywords(h[|h| - 1].ev)
  }

  /** The distinct brands of a run. */
  function BrandsSeen(h: seq<Attempt>): seq<string> { SortedUnique(AllKeywords(h)) }

  function SumNaming(c: Setup, h: seq<Attempt>, bs: seq<string>): nat {
    if bs == [] then 0 else AlertsNaming(c, h, bs[0]) + SumNaming(c, h, bs[1..])
  }

  function Members(bs: seq<string>, s: seq<string>): nat {
    if bs == [] then 0 else (if bs[0] in s then 1 else 0) + Members(bs[1..], s)
  }

  lemma {:induction false} TwoMembers(bs: seq<string>, s: seq<string>, x: string, y: string)
    requires x in bs && x in s && y in bs && y in s
    ensures Members(bs, s) >= if x == y then 1 else 2
  {
    assert bs == [bs[0]] + bs[1..];
    if x in bs[1..] && y in bs[1..] {
      TwoMembers(bs[1..], s, x, y);
    } else if x in bs[1..] {
      TwoMembers(bs[1..], s, x, x);
    } else if y in bs[1..] {
      TwoMembers(bs[1..], s, y, y);
    }
  }

  lemma {:induction false} SumNamingStep(c: Setup, h: seq<Attempt>, bs: seq<string>)
    requires h != []
    ensures SumNaming(c, h, bs) == SumNaming(c, h[..|h| - 1], bs)
      + if EmitsTierA(c, h, |h| - 1) then Members(bs, EmittedAt(c, h, |h| - 1)[0].coalition) else 0
  {
    if bs != [] { SumNamingStep(c, h, bs[1..]); }
  }

  lemma {:induction false} EachAlertNamesTwo(c: Setup, h: seq<Attempt>, bs: seq<string>)
    requires CleanStart(c) && forall b :: b in AllKeywords(h) ==> b in bs
    ensures 2 * TotalAlerts(c, h) <= SumNaming(c, h, bs)
  {
    if h != [] {
      EachAlertNamesTwo(c, h[..|h| - 1], bs);
      SumNamingStep(c, h, bs);
      if EmitsTierA(c, h, |h| - 1) {
        AlertShape(c, h, |h| - 1);
        var s := LowDf(c, h, |h| - 1);
        assert s[0] in s && s[1] in s;
        assert s[0] in UniqueKeywords(h[|h| - 1].ev) && s[1] in UniqueKeywords(h[|h| - 1].ev);
        if s[0] == s[1] { SortedHasNoDuplicates(s, 0, 1); }
        TwoMembers(bs, s, s[0], s[1]);
      }
    }
  }

  lemma {:induction false} SumWithinBudget(c: Setup, h: seq<Attempt>, bs: seq<string>)
    requires CleanStart(c) && c.policy.maxBrandDf > 0
    ensures SumNaming(c, h, bs) <= (c.policy.maxBrandDf - 1) * |bs|
  {
    if bs != [] {
      AlertBudget(c, h, bs[0]);
      SumWithinBudget(c, h, bs[1..]);
      TimesNext(c.policy.maxBrandDf - 1, |bs[1..]|);
    }
  }

  lemma TimesNext(d: nat, n: nat)
    ensures d * (n + 1) == d * n + d
  {
  }

  /** Twice the alerts of a run never exceed D - 1 times its distinct brands. */
  lemma AlertsWithinBrandBudget(c: Setup, h: seq<Attempt>)
    requires CleanStart(c) && c.policy.maxBrandDf > 0
    ensures 2 * TotalAlerts(c, h) <= (c.policy.maxBrandDf - 1) * |BrandsSeen(h)|
  {
    assert forall b :: b in AllKeywords(h) ==> b in Elems(BrandsSeen(h));
    EachAlertNamesTwo(c, h, BrandsSeen(h));
    SumWithinBudget(c, h, BrandsSeen(h));
  }

  // ---------- funnel conservation ----------

  function Add(s: Stats, t: Stats): Stats {
    Stats(s.fullyIgnored + t.fullyIgnored, s.alertsA + t.alertsA, s.alertsB + t.alertsB, s.inserted + t.inserted,
          s.oversized + t.oversized, s.megaSan + t.megaSan, s.highDf + t.highDf, s.muted + t.muted)
  }

  /** The counters an attempt reports; a failed attempt reports none. */
  function StatsAt(c: Setup, t: Tables, a: Attempt): Stats {
    if a.fate.Done? then StatsOf(t, c.ignore, PolicyAt(c, a), a.ev) else NO_STATS
  }

  function Totals(c: Setup, h: seq<Attempt>): Stats {
    if h == [] then NO_STATS
    else Add(Totals(c, h[..|h| - 1]), StatsAt(c, Run(c, h[..|h| - 1]), h[|h| - 1]))
  }

  ghost predicate AllDone(h: seq<Attempt>) {
    forall i :: 0 <= i < |h| ==> h[i].fate.Done?
  }

  /** How many mute keys and facts a key effect adds. */
  lemma KeyGrowth(t: Tables, p: Policy, full: seq<string>, brands: seq<string>, ev: MatchEvent)
    requires !BrandsConflict(t, p, ev, brands)
    ensures var effect, s := KeyEffect(p, full, brands, ev), StatsFor(t, p, ev, full, brands);
      && (effect == [] ==> s.inserted == 0 && s.alertsA == 0)
      && (effect != [] ==>
        |Apply(t, effect[0]).coalitions| == |t.coalitions| + s.inserted
        && |Apply(t, effect[0]).certs| == |t.certs| + s.alertsA)
  {
  }

  /** A key effect adds what the counters of its step say, and otherwise touches neither table. */
  lemma StepGrowth(t: Tables, ignore: set<string>, p: Policy, ev: MatchEvent, effect: seq<Effect>)
    requires !PlanConflict(t, ignore, p, ev)
    requires effect == KeyEffect(p, UniqueKeywords(ev), Stripped(t, ignore, p, ev), ev)
    ensures var s := StatsOf(t, ignore, p, ev);
      && (effect == [] ==> s.inserted == 0 && s.alertsA == 0)
      && (effect != [] ==>
        |Apply(t, effect[0]).coalitions| == |t.coalitions| + s.inserted
        && |Apply(t, effect[0]).certs| == |t.certs| + s.alertsA)
  {
    KeyGrowth(t, p, UniqueKeywords(ev), Stripped(t, ignore, p, ev), ev);
  }

  /** Summed insert counters never exceed the growth of the mute keys, nor summed alerts that of
      the facts; without failures they are equal, and every insert has exactly one reason. */
  lemma {:induction false} FunnelOverRun(c: Setup, h: seq<Attempt>)
    requires CleanStart(c) && CleanBrands(h)
    ensures Totals(c, h).inserted <= |Run(c, h).coalitions| && Totals(c, h).alertsA <= |Run(c, h).certs|
    ensures AllDone(h) ==>
      Totals(c, h).inserted == |Run(c, h).coalitions| && Totals(c, h).alertsA == |Run(c, h).certs|
    ensures c.policy.wantA ==> var s := Totals(c, h);
      s.inserted == s.alertsA + s.oversized + s.megaSan + s.muted + s.highDf
  {
    hide Stripped, PlanConflict, StatsOf, Apply, KeyEffect, UniqueKeywords, CleanEvent;
    if h != [] {
      var front, a := h[..|h| - 1], h[|h| - 1];
      var t, p := Run(c, front), PolicyAt(c, a);
      FunnelOverRun(c, front);
      KeysStep(c, h);
      NeverStuck(c, front, a.ev, p);
      StepGrowth(t, c.ignore, p, a.ev, KeyOf(c, t, a));
      FunnelConserved(t, c.ignore, p, a.ev);
      assert AllDone(h) ==> AllDone(front) && a.fate.Done?;
    }
  }

  function One(b: bool): nat { if b then 1 else 0 }

  /** The key attempt `i` goes for: what stripping leaves, or all its brands when that is too little. */
  function KeyFor(c: Setup, h: seq<Attempt>, i: nat): seq<string>
    requires i < |h|
  {
    if |LowDf(c, h, i)| >= 2 then LowDf(c, h, i) else UniqueKeywords(h[i].ev)
  }

  /** Attempt `i` completes, and is the first to record its key. */
  ghost predicate RecordsFirst(c: Setup, h: seq<Attempt>, i: nat)
    requires i < |h|
  {
    && h[i].fate.Done? && |KeyFor(c, h, i)| >= 2
    && forall j: nat :: j < i ==> !Recorded(c, h, j, KeyFor(c, h, i))
  }

  /** What each counter of an attempt says, by the history alone: why a new key did not alert, or that
      it did. */
  lemma CountersExactlyWhen(c: Setup, h: seq<Attempt>, i: nat)
    requires CleanStart(c) && CleanBrands(h) && i < |h|
    ensures var s, low, first := StatsAt(c, Run(c, h[..i]), h[i]), LowDf(c, h, i), RecordsFirst(c, h, i);
      var wanted := |low| >= 2 && c.policy.wantA;
      var fits := wanted && |low| <= c.policy.maxCoalitionLen;
      var passes := fits && WithinSans(c.policy.maxSanCount, h[i].ev);
      && s.inserted == One(first)
      && s.highDf == One(first && |low| < 2)
      && s.oversized == One(first && wanted && !fits)
      && s.megaSan == One(first && fits && !passes)
      && s.muted == One(first && passes && h[i].calibrating)
      && s.alertsA == One(first && passes && !h[i].calibrating)
      && s.fullyIgnored == One(h[i].fate.Done? && low == [] && |UniqueKeywords(h[i].ev)| < 2)
  {
    if h[i].fate.Done? {
      var t, p, key := Run(c, h[..i]), PolicyAt(c, h[i]), KeyFor(c, h, i);
      StrippedIsLowDf(c, h, i);
      SanGateIs(p, h[i].ev);
      LowDfIsClean(c, h, i);
      assert CleanEvent(h[i].ev);
      assert KeyBrands(UniqueKeywords(h[i].ev), LowDf(c, h, i)) == if |key| >= 2 then key else [];
      hide Run, LowDf, Stripped, UniqueKeywords, IsNewKey, Recorded, PassesSanGate, WithinSans, CleanStart, CleanBrands,
        AlertsFor, KeyFor;
      if |key| >= 2 { NewKeyMeansFirst(c, h, i, key); }
    }
  }

  // ---------- burn-in ----------

  /** Multi-brand attempts counted so far. */
  function MultiCount(h: seq<Attempt>): nat {
    if h == [] then 0
    else
      var a := h[|h| - 1];
      MultiCount(h[..|h| - 1]) + if Reached(a.fate, 1) && |UniqueKeywords(a.ev)| >= 2 then 1 else 0
  }

  /** Every attempt reads the burn-in gates just before it runs, as the sink does. */
  ghost predicate CalibratedBy(c: Setup, h: seq<Attempt>, nows: seq<i64>) {
    |nows| == |h| && (h == [] ||
      var n := |h| - 1;
      CalibratedBy(c, h[..n], nows[..n]) && h[n].calibrating == GatesUnmet(c, h[..n], nows[n]))
  }

  ghost predicate GatesUnmet(c: Setup, h: seq<Attempt>, now: i64) {
    Calibrating(c.start.startedAt, MultiCount(h), now, c.policy.calibrateSecs, c.policy.calibrateEvents)
  }

  lemma {:induction false} CalibratedAt(c: Setup, h: seq<Attempt>, nows: seq<i64>, i: nat)
    requires CalibratedBy(c, h, nows) && i < |h|
    ensures h[i].calibrating == GatesUnmet(c, h[..i], nows[i])
    decreases |h|
  {
    var n := |h| - 1;
    if i < n {
      CalibratedAt(c, h[..n], nows[..n], i);
      assert h[..n][..i] == h[..i] && h[..n][i] == h[i] && nows[..n][i] == nows[i];
    } else {
      assert i == n;
    }
  }

  /** The stored event counter is the multi-brand count of the history. */
  lemma {:induction false} MultiEventsAreCounted(c: Setup, h: seq<Attempt>)
    ensures Run(c, h).multiEvents == c.start.multiEvents + MultiCount(h)
  {
    if h != [] {
      var t, full := Run(c, h[..|h| - 1]), UniqueKeywords(h[|h| - 1].ev);
      MultiEventsAreCounted(c, h[..|h| - 1]);
      CountersStep(c, h);
      if full != [] { ApplyOne(t, RecordEffect(full)[0]); }
    }
  }

  lemma {:induction false} MultiCountGrows(h: seq<Attempt>, i: nat)
    requires i <= |h|
    ensures MultiCount(h[..i]) <= MultiCount(h)
    decreases |h|
  {
    if i < |h| {
      assert h[..|h| - 1][..i] == h[..i];
      MultiCountGrows(h[..|h| - 1], i);
    } else {
      assert h[..i] == h;
    }
  }

  /** Once burn-in is over it stays over, while the clock does not run backwards. */
  lemma BurnInLatch(c: Setup, h: seq<Attempt>, nows: seq<i64>, i: nat, j: nat)
    requires CalibratedBy(c, h, nows) && i <= j < |h|
    requires nows[i] <= nows[j] && !h[i].calibrating
    ensures !h[j].calibrating
  {
    CalibratedAt(c, h, nows, i);
    CalibratedAt(c, h, nows, j);
    assert h[..j][..i] == h[..i];
    MultiCountGrows(h[..j], i);
    GatesLatch(c.start.startedAt, MultiCount(h[..i]), MultiCount(h[..j]), nows[i], nows[j],
               c.policy.calibrateSecs, c.policy.calibrateEvents);
  }

  lemma GatesLatch(started: i64, m: nat, n: nat, now: i64, later: i64, secs: nat, events: nat)
    requires m <= n && now <= later
    ensures Calibrating(started, n, later, secs, events) ==> Calibrating(started, m, now, secs, events)
  {
  }

  /** Burn-in in plain terms: an attempt is muted exactly while the clock has not come as far as the time
      gate after the start, or fewer multi-brand events than the event gate were counted. */
  lemma MutedExactlyWhile(c: Setup, h: seq<Attempt>, nows: seq<i64>, i: nat)
    requires CalibratedBy(c, h, nows) && i < |h|
    ensures h[i].calibrating
      <==> ((c.policy.calibrateSecs > 0 && nows[i] < c.start.startedAt + Min(c.policy.calibrateSecs, I64_MAX))
        || (c.policy.calibrateEvents > 0 && MultiCount(h[..i]) < c.policy.calibrateEvents))
  {
    CalibratedAt(c, h, nows, i);
    CalibratingMeans(c.start.startedAt, MultiCount(h[..i]), nows[i], c.policy.calibrateSecs, c.policy.calibrateEvents);
  }

  /** With a time gate of S seconds, no attempt within S seconds of the start alerts. */
  lemma NoAlertWithinTimeGate(c: Setup, h: seq<Attempt>, nows: seq<i64>, i: nat)
    requires CleanStart(c) && CleanBrands(h) && CalibratedBy(c, h, nows) && i < |h|
    requires 0 < c.policy.calibrateSecs <= I64_MAX && nows[i] < c.start.startedAt + c.policy.calibrateSecs
    ensures !EmitsTierA(c, h, i)
  {
    hide EmitsTierA;
    MutedExactlyWhile(c, h, nows, i);
    AlertsExactlyWhen(c, h, i);
  }

  /** Everything an alert takes, on the event, the clock and the earlier attempts. */
  lemma AlertsInPlainTerms(c: Setup, h: seq<Attempt>, nows: seq<i64>, i: nat)
    requires CleanStart(c) && CleanBrands(h) && CalibratedBy(c, h, nows) && i < |h|
    ensures var p, ev, low := c.policy, h[i].ev, LowDf(c, h, i);
      EmitsTierA(c, h, i) <==>
        && h[i].fate.Done? && p.wantA && 2 <= |low| <= p.maxCoalitionLen
        && (p.maxSanCount == 0 || (ev.sanCount > 0 && ev.sanCount <= p.maxSanCount)
          || (ev.sanCount == 0 && Min(|ev.domains|, U32_MAX) <= p.maxSanCount))
        && (p.calibrateSecs == 0 || nows[i] >= c.start.startedAt + Min(p.calibrateSecs, I64_MAX))
        && (p.calibrateEvents == 0 || MultiCount(h[..i]) >= p.calibrateEvents)
        && forall j: nat :: j < i && Reached(h[j].fate, 2) ==> LowDf(c, h, j) != low
  {
    hide EmitsTierA, EmittedAt, LowDf, CleanStart, CleanBrands, CalibratedBy;
    MutedExactlyWhile(c, h, nows, i);
    AlertsExactlyWhen(c, h, i);
    forall j: nat | j < i
      ensures RecordedSame(c, h, j, i) <==> Reached(h[j].fate, 2) && LowDf(c, h, j) == LowDf(c, h, i)
    {
    }
  }

  /** With an event gate E, none of the first E multi-brand events alerts. */
  lemma FirstEventsNeverAlert(c: Setup, h: seq<Attempt>, nows: seq<i64>, i: nat)
    requires CleanStart(c) && CalibratedBy(c, h, nows) && i < |h|
    requires 0 < MultiCount(h[..i + 1]) <= c.policy.calibrateEvents
    ensures !EmitsTierA(c, h, i)
  {
    CalibratedAt(c, h, nows, i);
    assert h[..i + 1][..i] == h[..i];
    if |LowDf(c, h, i)| >= 2 && Reached(h[i].fate, 1) {
      LowDfWithin(c, h, i);
      assert h[i].calibrating;
    }
    if EmitsTierA(c, h, i) { AlertShape(c, h, i); }
  }

  lemma LowDfWithin(c: Setup, h: seq<Attempt>, i: nat)
    requires i < |h| && |LowDf(c, h, i)| >= 2
    ensures |UniqueKeywords(h[i].ev)| >= 2
  {
    WithoutHubsShrinks(c, h[..i + 1], UniqueKeywords(h[i].ev));
  }

  lemma WithoutHubsShrinks(c: Setup, h: seq<Attempt>, full: seq<string>)
    ensures |WithoutHubs(c, h, full)| <= |full|
  {
  }

  // ---------- facts and their alerts ----------

  /** No fact goes or changes. */
  ghost predicate Keeps(before: map<string, Fact>, after: map<string, Fact>) {
    forall k :: k in before ==> k in after && after[k] == before[k]
  }

  lemma {:induction false} FactsPersist(c: Setup, h: seq<Attempt>, i: nat)
    requires i <= |h|
    ensures Keeps(Run(c, h[..i]).certs, Run(c, h).certs)
    decreases |h|
  {
    if i < |h| {
      assert h[..|h| - 1][..i] == h[..i];
      FactsPersist(c, h[..|h| - 1], i);
      KeysStep(c, h);
      var t, a := Run(c, h[..|h| - 1]), h[|h| - 1];
      if KeyOf(c, t, a) != [] { FactsGrow(t, KeyOf(c, t, a)[0]); }
    } else {
      assert h[..i] == h;
    }
  }

  lemma FactsGrow(t: Tables, op: Effect)
    ensures Keeps(t.certs, Apply(t, op).certs)
  {
  }

  /** Attempt `j` is the first to record its coalition and passes every gate, so it captures a
      fact, whether or not it then completes. */
  ghost predicate Captures(c: Setup, h: seq<Attempt>, j: nat)
    requires j < |h|
  {
    && Reached(h[j].fate, 2) && c.policy.wantA && !h[j].calibrating
    && 2 <= |LowDf(c, h, j)| <= c.policy.maxCoalitionLen
    && WithinSans(c.policy.maxSanCount, h[j].ev)
    && forall k: nat :: k < j ==> !RecordedSame(c, h, k, j)
  }

  /** The key effect of a capturing attempt is its capture, and nothing blocks it. */
  lemma CapturingKey(c: Setup, h: seq<Attempt>, j: nat)
    requires CleanStart(c) && CleanBrands(h) && j < |h| && Captures(c, h, j)
    ensures var t, p, low := Run(c, h[..j]), PolicyAt(c, h[j]), LowDf(c, h, j);
      && Stripped(t, c.ignore, p, h[j].ev) == low
      && KeyOf(c, t, h[j]) == [Capture(low, FactOf(h[j].ev, h[j].ev.seen), h[j].ev.seen)]
      && IsNewKey(t, low) && !CaptureConflict(t, low)
  {
    var t, p := Run(c, h[..j]), PolicyAt(c, h[j]);
    SanGateIs(p, h[j].ev);
    StrippedIsLowDf(c, h, j);
    NewKeyMeansFirstRecorded(c, h, j);
    CleanPrefix(h, j);
    NeverStuck(c, h[..j], h[j].ev, p);
    hide Run, LowDf, Stripped, UniqueKeywords, FactOf, IsNewKey, CaptureConflict, CleanBrands, CleanStart;
  }

  /** Every capturing attempt leaves a fact row for good, and the row tells of its own event. */
  lemma CaptureLeavesFact(c: Setup, h: seq<Attempt>, j: nat)
    requires CleanStart(c) && CleanBrands(h) && j < |h| && Captures(c, h, j)
    ensures Join(LowDf(c, h, j), CSV_SEP) in Run(c, h).certs
    ensures TellsOf(Run(c, h).certs[Join(LowDf(c, h, j), CSV_SEP)], h[j].ev, h[j].ev.seen)
  {
    hide Run, LowDf, Stripped, UniqueKeywords, FactOf, KeyOf, CleanBrands, CleanStart, TellsOf, Join;
    var upTo, t, low := h[..j + 1], Run(c, h[..j]), LowDf(c, h, j);
    assert upTo[..j] == h[..j] && upTo[j] == h[j];
    CapturingKey(c, h, j);
    KeysStep(c, upTo);
    FactTells(h[j].ev, h[j].ev.seen);
    assert Run(c, upTo).certs == t.certs[Join(low, CSV_SEP) := FactOf(h[j].ev, h[j].ev.seen)];
    FactsPersist(c, h, j + 1);
    hide Apply;
    assert Keeps(Run(c, upTo).certs, Run(c, h).certs);
  }

  lemma CleanPrefix(h: seq<Attempt>, j: nat)
    requires CleanBrands(h) && j < |h|
    ensures CleanBrands(h[..j]) && CleanEvent(h[j].ev)
  {
  }

  /** The statements of attempt `j` up to its capture's commit. */
  function ToCapture(c: Setup, h: seq<Attempt>, j: nat): nat
    requires j < |h|
  {
    StatementsToKey(Run(c, h[..j]), c.ignore, PolicyAt(c, h[j]), h[j].ev)
  }

  /** What an alerting step still has to do after that commit: one insert per host row of tier B,
      and two counter reads per brand of the learning feed. */
  function AfterCapture(p: Policy, ev: MatchEvent, brands: seq<string>): nat {
    (if p.wantB then |NormalizedHosts(ev)| * |brands| else 0)
    + if p.emitCandidates then 2 * |UniqueKeywords(ev)| else 0
  }

  lemma {:induction false} PairsCount(brands: seq<string>, hosts: seq<string>)
    ensures |HostPairs(brands, hosts)| == |hosts| * |brands|
  {
    if brands != [] {
      var n := |brands| - 1;
      PairsCount(brands[..n], hosts);
      TimesNext(|hosts|, n);
      assert |HostPairs(brands, hosts)| == |HostPairs(brands[..n], hosts)| + |hosts|;
    }
  }

  lemma AfterCaptureIs(p: Policy, ev: MatchEvent, brands: seq<string>)
    ensures AfterCapture(p, ev, brands) == |TailPairs(p, brands, ev)| + FeedReads(p, UniqueKeywords(ev))
  {
    hide NormalizedHosts, UniqueKeywords, HostPairs;
    PairsCount(brands, NormalizedHosts(ev));
  }

  /** No statement after the commit of attempt `j` is scripted to fail. */
  predicate RestSucceeds(c: Setup, h: seq<Attempt>, j: nat)
    requires j < |h|
  {
    Good(Rest(h[j].script, ToCapture(c, h, j)), AfterCapture(c.policy, h[j].ev, LowDf(c, h, j)))
  }

  lemma PolicyForPairs(c: Setup, a: Attempt, brands: seq<string>)
    ensures TailPairs(PolicyAt(c, a), brands, a.ev) == TailPairs(c.policy, brands, a.ev)
    ensures FeedReads(PolicyAt(c, a), UniqueKeywords(a.ev)) == FeedReads(c.policy, UniqueKeywords(a.ev))
    ensures PassesSanGate(PolicyAt(c, a), a.ev) == PassesSanGate(c.policy, a.ev)
  {
  }

  /** A capturing attempt completes exactly when the statements after its commit succeed. */
  lemma CaptureCompletesExactlyWhen(c: Setup, h: seq<Attempt>, j: nat)
    requires CleanStart(c) && CleanBrands(h) && Scripted(c, h) && j < |h| && Captures(c, h, j)
    ensures h[j].fate.Done? <==> RestSucceeds(c, h, j)
  {
    var t, p, low := Run(c, h[..j]), PolicyAt(c, h[j]), LowDf(c, h, j);
    CapturingKey(c, h, j);
    PolicyForPairs(c, h[j], low);
    AfterCaptureIs(c.policy, h[j].ev, low);
    assert FaresAt(c, h, j);
    hide Run, LowDf, Stripped, UniqueKeywords, StatementsToKey, TailPairs, FeedReads, AfterCapture, Good, Rest, KeyOf,
      CleanBrands, CleanStart, IsNewKey, CaptureConflict, PassesSanGate, Reached, RecordedSame;
    GoodSplit(h[j].script, ToCapture(c, h, j), AfterCapture(c.policy, h[j].ev, low));
  }

  /** A captured fact has an alert exactly when no statement after its commit fails: the alert of a
      step that fails there is lost for good, since a retry finds the coalition recorded. */
  lemma FactHasAlertExactlyWhen(c: Setup, h: seq<Attempt>, j: nat)
    requires CleanStart(c) && CleanBrands(h) && Scripted(c, h) && j < |h| && Captures(c, h, j)
    ensures (exists i: nat :: i < |h| && EmitsTierA(c, h, i) && LowDf(c, h, i) == LowDf(c, h, j))
      <==> RestSucceeds(c, h, j)
  {
    hide EmittedAt, LowDf, Scripted, RestSucceeds, CleanBrands, CleanStart, EmitsTierA;
    CaptureCompletesExactlyWhen(c, h, j);
    AlertsExactlyWhen(c, h, j);
    forall i: nat | i < |h| && EmitsTierA(c, h, i) && LowDf(c, h, i) == LowDf(c, h, j) ensures i == j {
      AlertsExactlyWhen(c, h, i);
      assert j < i ==> RecordedSame(c, h, j, i);
      assert i < j ==> RecordedSame(c, h, i, j);
    }
  }

  /** With tier B and the learning feed off, as by default, nothing follows the commit, and every
      captured fact has its alert, whatever fails. */
  lemma DefaultKeepsAlerts(c: Setup, h: seq<Attempt>, j: nat)
    requires CleanStart(c) && CleanBrands(h) && Scripted(c, h) && j < |h| && Captures(c, h, j)
    requires !c.policy.wantB && !c.policy.emitCandidates
    ensures EmitsTierA(c, h, j) && EmittedAt(c, h, j) == [TierA(LowDf(c, h, j), h[j].ev)]
  {
    hide EmittedAt, LowDf, Scripted, CleanBrands, CleanStart, EmitsTierA, StatementsToKey, Rest;
    CaptureCompletesExactlyWhen(c, h, j);
    AlertsExactlyWhen(c, h, j);
  }

  // ---------- a lost alert ----------

  /** Seventeen statements commit the capture of the first pair of brands; the next one fails. */
  function FaultAfterCapture(): seq<bool> { seq(17, i => true) + [false] }

  /** A run of tries at one clean two-brand event, on an empty store and under the default gates. */
  ghost predicate OpensWithPair(c: Setup, h: seq<Attempt>) {
    && CleanStart(c) && c.ignore == {} && DefaultGates(c.policy)
    && h != [] && !h[0].calibrating && |UniqueKeywords(h[0].ev)| == 2 && CleanEvent(h[0].ev) && h[0].ev.sanCount == 2
    && forall k :: 0 <= k < |h| ==> h[k].ev == h[0].ev
  }

  lemma PairIsClean(c: Setup, h: seq<Attempt>)
    requires OpensWithPair(c, h)
    ensures CleanBrands(h)
  {
  }

  /** On an empty store nothing of the pair is stripped. */
  lemma FirstPairStays(c: Setup, h: seq<Attempt>)
    requires OpensWithPair(c, h)
    ensures Stripped(Run(c, h[..0]), c.ignore, PolicyAt(c, h[0]), h[0].ev) == UniqueKeywords(h[0].ev)
  {
    var done := [h[0].(fate := Done)];
    hide UniqueKeywords, Stripped, LowDf;
    FirstLowDf(c, done);
    StrippedIsLowDf(c, done, 0);
    assert done[..0] == h[..0] == [];
  }

  /** Nine statements count the pair, four read its counters, four capture it. */
  lemma FirstPairStatements(c: Setup, h: seq<Attempt>)
    requires OpensWithPair(c, h)
    ensures ToCapture(c, h, 0) == 17
  {
    var t, p, full := Run(c, h[..0]), PolicyAt(c, h[0]), UniqueKeywords(h[0].ev);
    FirstPairStays(c, h);
    SortedPair(full);
    assert t == c.start;
    hide UniqueKeywords, Counted, Strip;
    PairStatementsOfTwo(full);
    NoHubsReads(Counted(t, full), c.ignore, p, full);
  }

  lemma SortedPair(full: seq<string>)
    requires |full| == 2 && StrictlySorted(full)
    ensures full[0] != full[1]
  {
    if full[0] == full[1] { SortedHasNoDuplicates(full, 0, 1); }
  }

  lemma PairStatementsOfTwo(full: seq<string>)
    requires |full| == 2 && full[0] != full[1]
    ensures CooccurrenceStatements(full) == 9
  {
    assert full[..2] == full && full[..1] == [full[0]] && full[..0] == [];
    assert [full[0]][..0] == [] && full[..1][..0] == [];
    assert Others(full[..1], full[0]) == 0 && Others(full[..1], full[1]) == 1;
    assert PairStatements(full[..1], full) == Others(full, full[0]) == 1;
    assert Others(full, full[1]) == 1;
  }

  lemma {:induction false} NoHubsReads(t: Tables, ignore: set<string>, p: Policy, full: seq<string>)
    requires p.maxBrandDf > 0 && p.maxPartnerDegree > 0
    requires forall b :: b in full ==> !IsHub(t, ignore, p, b)
    ensures HubReads(t, ignore, p, full) == 2 * |full|
  {
    if full != [] {
      var front, b := full[..|full| - 1], full[|full| - 1];
      assert b in full && forall x :: x in front ==> x in full;
      NoHubsReads(t, ignore, p, front);
    }
  }

  /** The first attempt at the pair gets to its key, if nothing fails up to that point. */
  lemma FirstPairReached(c: Setup, h: seq<Attempt>)
    requires OpensWithPair(c, h) && Scripted(c, h) && Good(h[0].script, 17)
    ensures Reached(h[0].fate, 2)
  {
    FirstPairStays(c, h);
    FirstPairStatements(c, h);
    PairIsClean(c, h);
    NeverStuck(c, h[..0], h[0].ev, PolicyAt(c, h[0]));
    assert FaresAt(c, h, 0);
    hide UniqueKeywords, Stripped, StatementsToKey, StepStatements, PlanConflict, CleanEvent;
  }

  /** So it captures it. */
  lemma FirstPairCaptures(c: Setup, h: seq<Attempt>)
    requires OpensWithPair(c, h) && Scripted(c, h) && Good(h[0].script, 17)
    ensures LowDf(c, h, 0) == UniqueKeywords(h[0].ev) && Captures(c, h, 0)
  {
    hide UniqueKeywords, CleanEvent, Scripted, CleanStart, WithoutHubs;
    FirstPairReached(c, h);
    FirstLowDf(c, h[..1]);
    assert h[..1][..1] == h[..1] && h[..0 + 1] == h[..1];
  }

  /** The first statement after the capture fails. */
  lemma FirstPairCutShort(c: Setup, h: seq<Attempt>)
    requires OpensWithPair(c, h) && c.policy.emitCandidates && h[0].script == FaultAfterCapture()
    ensures Good(h[0].script, 17) && !RestSucceeds(c, h, 0)
  {
    FirstPairStatements(c, h);
    AfterCaptureIs(c.policy, h[0].ev, LowDf(c, h, 0));
    hide LowDf, UniqueKeywords, ToCapture, TailPairs, CleanEvent, CleanStart, AfterCapture;
    assert Rest(h[0].script, 17)[0] == false;
    assert AfterCapture(c.policy, h[0].ev, LowDf(c, h, 0)) >= 1;
  }

  /** With the learning feed on, one failed counter read right after the capture: the fact is there,
      and no alert ever is, however often the event is tried again. */
  lemma AlertCanBeLost(c: Setup, h: seq<Attempt>, i: nat)
    requires OpensWithPair(c, h) && Scripted(c, h) && i < |h|
    requires c.policy.emitCandidates && h[0].script == FaultAfterCapture()
    ensures Captures(c, h, 0) && !h[0].fate.Done? && !EmitsTierA(c, h, i)
    ensures Join(UniqueKeywords(h[0].ev), CSV_SEP) in Run(c, h).certs
  {
    hide Captures, LowDf, UniqueKeywords, EmitsTierA, Scripted, CleanBrands, RestSucceeds, Run, CleanEvent, Reached, Join,
      FaultAfterCapture, Good;
    PairIsClean(c, h);
    FirstPairCutShort(c, h);
    FirstPairCaptures(c, h);
    CaptureLeavesFact(c, h, 0);
    CaptureCompletesExactlyWhen(c, h, 0);
    AlertsExactlyWhen(c, h, 0);
    if i > 0 { RetriesFindItRecorded(c, h, i); }
  }

  /** Every later try has the same coalition, or has lost brands to the counting. */
  lemma RetriesFindItRecorded(c: Setup, h: seq<Attempt>, i: nat)
    requires OpensWithPair(c, h) && 0 < i < |h| && Captures(c, h, 0) && CleanBrands(h)
    requires LowDf(c, h, 0) == UniqueKeywords(h[0].ev)
    ensures !EmitsTierA(c, h, i)
  {
    hide EmittedAt, EmitsTierA, UniqueKeywords, CleanBrands, CleanStart, PassesSanGate, LowDf, StrictlySorted, CleanEvent,
      DefaultGates;
    AlertsExactlyWhen(c, h, i);
    if h[i].fate.Done? && |LowDf(c, h, i)| >= 2 {
      StrippedIsLowDf(c, h, i);
      LowDfIsPart(c, h, i);
      PairIsWhole(LowDf(c, h, i), UniqueKeywords(h[i].ev));
      assert RecordedSame(c, h, 0, i);
    }
  }

  lemma LowDfIsPart(c: Setup, h: seq<Attempt>, i: nat)
    requires i < |h|
    ensures forall b :: b in LowDf(c, h, i) ==> b in UniqueKeywords(h[i].ev)
  {
  }

  lemma PairIsWhole(low: seq<string>, full: seq<string>)
    requires StrictlySorted(low) && StrictlySorted(full) && |low| >= 2 && |full| == 2
    requires forall b :: b in low ==> b in full
    ensures low == full
  {
    assert low[0] in full && low[1] in full;
    SortedPair(full);
    if low[0] == low[1] { SortedHasNoDuplicates(low, 0, 1); }
    assert Elems(full) == {full[0], full[1]};
    assert full[0] in low && full[1] in low;
    SortedIsCanonical(low, full);
  }

  predicate DefaultGates(p: Policy) {
    p.wantA && p.maxCoalitionLen == 5 && p.maxSanCount == 32 && p.maxPartnerDegree == 25 && p.maxBrandDf == 25
  }

  /** One try makes no brand a hub. */
  lemma FirstLowDf(c: Setup, h: seq<Attempt>)
    requires OpensWithPair(c, h) && |h| == 1 && Reached(h[0].fate, 1)
    ensures LowDf(c, h, 0) == UniqueKeywords(h[0].ev)
  {
    hide UniqueKeywords, StrictlySorted;
    var full := UniqueKeywords(h[0].ev);
    assert h[..0 + 1] == h;
    forall k | 0 <= k < |full| ensures !Hub(c, h, full[k]) { NamedBound(h, full[k]); }
    StrippedIsLowDf(c, h, 0);
    SortedIsCanonical(LowDf(c, h, 0), full);
  }

  lemma {:induction false} NamedBound(h: seq<Attempt>, b: string)
    requires forall i :: 0 <= i < |h| ==> |UniqueKeywords(h[i].ev)| == 2
    ensures Named(h, b) <= |h| && |CoNamed(h, b)| <= 2 * |h|
  {
    if h != [] {
      NamedBound(h[..|h| - 1], b);
      var full := UniqueKeywords(h[|h| - 1].ev);
      assert Elems(full) == {full[0], full[1]};
      UnionBound(CoNamed(h[..|h| - 1], b), Elems(full) - {b}, {full[0], full[1]});
    }
  }

  lemma UnionBound<T>(a: set<T>, b: set<T>, wider: set<T>)
    requires b <= wider
    ensures |a + b| <= |a| + |wider|
  {
    assert a + b == a + (b - a);
    SubsetSize(b - a, wider);
  }
}
