/** The engine against its history: what a whole run of steps, some of them cut short by
    failures and tried again, alerts on. */
module NoveltyHistory {
  import opened Event
  import opened Faults
  import opened Text
  import opened Novelty
  import opened NoveltyAlert

  /** One try at one event, with the faults that lay ahead of it: the fates of the coming statements
      and of the coming writes. Retries are further attempts with the same event. */
  datatype Attempt = Attempt(ev: MatchEvent, calibrating: bool, fate: Fate, script: seq<bool>, writes: seq<WriteFate>)

  /** What stays fixed over a run. */
  datatype Setup = Setup(ignore: set<string>, policy: Policy, start: Tables)

  function PolicyAt(c: Setup, a: Attempt): Policy { c.policy.(calibrating := a.calibrating) }

  /** The tables after a run of attempts. */
  function Run(c: Setup, h: seq<Attempt>): Tables {
    if h == [] then c.start
    else
      var a := h[|h| - 1];
      After(Run(c, h[..|h| - 1]), c.ignore, PolicyAt(c, a), a.ev, a.fate)
  }

  /** An empty store; seeding may have touched the counters of ignored brands only. */
  ghost predicate CleanStart(c: Setup) {
    && c.start.coalitions == map[] && c.start.certs == map[] && c.start.edges == {}
    && c.start.multiEvents == 0
    && forall b :: b !in c.ignore ==> EventsIn(c.start.degree, b) == 0 && PartnersIn(c.start.degree, b) == 0
  }

  /** Registrable domains hold neither separator. */
  ghost predicate CleanBrands(h: seq<Attempt>) {
    forall i :: 0 <= i < |h| ==> CleanEvent(h[i].ev)
  }

  ghost predicate CleanEvent(ev: MatchEvent) {
    FreeOf(UniqueKeywords(ev), FIELD_SEP) && FreeOf(UniqueKeywords(ev), CSV_SEP)
  }

  /** Every attempt fared as the statements ahead of it decided. */
  ghost predicate Scripted(c: Setup, h: seq<Attempt>) {
    forall i :: 0 <= i < |h| ==> FaresAt(c, h, i)
  }

  ghost predicate FaresAt(c: Setup, h: seq<Attempt>, i: nat)
    requires i < |h|
  {
    Fares(Run(c, h[..i]), c.ignore, PolicyAt(c, h[i]), h[i].ev, h[i].script, h[i].fate)
  }

  // ---------- the history, read without the store ----------

  predicate CountsBrand(a: Attempt, b: string) { Reached(a.fate, 1) && b in UniqueKeywords(a.ev) }

  /** Number of counted attempts that name the brand. */
  function Named(h: seq<Attempt>, b: string): nat {
    if h == [] then 0 else Named(h[..|h| - 1], b) + if CountsBrand(h[|h| - 1], b) then 1 else 0
  }

  /** The brands named together with the brand in some counted attempt. */
  function CoNamed(h: seq<Attempt>, b: string): set<string> {
    if h == [] then {}
    else
      var a := h[|h| - 1];
      CoNamed(h[..|h| - 1], b) + if CountsBrand(a, b) then Elems(UniqueKeywords(a.ev)) - {b} else {}
  }

  predicate Hub(c: Setup, h: seq<Attempt>, b: string) {
    b in c.ignore
    || (c.policy.maxBrandDf > 0 && Named(h, b) >= c.policy.maxBrandDf)
    || (c.policy.maxPartnerDegree > 0 && |CoNamed(h, b)| >= c.policy.maxPartnerDegree)
  }

  function WithoutHubs(c: Setup, h: seq<Attempt>, full: seq<string>): (r: seq<string>)
    ensures forall b :: b in r <==> b in full && !Hub(c, h, b)
  {
    if full == [] then []
    else
      var front, b := full[..|full| - 1], full[|full| - 1];
      assert full == front + [b];
      WithoutHubs(c, h, front) + if Hub(c, h, b) then [] else [b]
  }

  /** The brands of attempt `i` that are not hubs by then, its own mention included. */
  function LowDf(c: Setup, h: seq<Attempt>, i: nat): seq<string>
    requires i < |h|
  {
    WithoutHubs(c, h[..i + 1], UniqueKeywords(h[i].ev))
  }

  /** The SAN gate, on the counts of the event: a cap of zero is no cap, and an event without a SAN
      count is measured by its matched names, up to 32 bits. */
  predicate WithinSans(cap: nat, ev: MatchEvent) {
    || cap == 0
    || (ev.sanCount > 0 && ev.sanCount <= cap)
    || (ev.sanCount == 0 && Min(|ev.domains|, U32_MAX) <= cap)
  }

  lemma SanGateIs(p: Policy, ev: MatchEvent)
    ensures PassesSanGate(p, ev) <==> WithinSans(p.maxSanCount, ev)
  {
  }

  /** When a tier A alert is due, by the history alone. */
  ghost predicate Alertable(c: Setup, h: seq<Attempt>, i: nat)
    requires i < |h|
  {
    var s := LowDf(c, h, i);
    && h[i].fate.Done? && c.policy.wantA && !h[i].calibrating
    && 2 <= |s| <= c.policy.maxCoalitionLen
    && WithinSans(c.policy.maxSanCount, h[i].ev)
    && forall j: nat :: j < i ==> !RecordedSame(c, h, j, i)
  }

  /** Attempt `j` got as far as recording the coalition of attempt `i`. */
  ghost predicate RecordedSame(c: Setup, h: seq<Attempt>, j: nat, i: nat)
    requires j < |h| && i < |h|
  {
    Reached(h[j].fate, 2) && LowDf(c, h, j) == LowDf(c, h, i)
  }

  /** What the engine answers at attempt `i`. */
  function EmittedAt(c: Setup, h: seq<Attempt>, i: nat): seq<Alert>
    requires i < |h|
  {
    if h[i].fate.Done? then Alerts(Run(c, h[..i]), c.ignore, PolicyAt(c, h[i]), h[i].ev) else []
  }

  predicate EmitsTierA(c: Setup, h: seq<Attempt>, i: nat)
    requires i < |h|
  {
    |EmittedAt(c, h, i)| > 0 && EmittedAt(c, h, i)[0].TierA?
  }

  // ---------- one attempt ----------

  /** How many host rows an attempt commits, after the effects that come before them. */
  function RowsDone(fate: Fate, before: nat, rows: nat): (n: nat)
    ensures n <= rows
  {
    match fate
    case Done => rows
    case Failed(k) => if k <= before then 0 else Min(k - before, rows)
  }

  /** The part of a plan that an attempt commits: the counting, the key, some of the rest. */
  lemma CommittedParts(record: seq<Effect>, key: seq<Effect>, rows: seq<Effect>, fate: Fate) returns (n: nat)
    requires |record| <= 1 && |key| <= 1 && (record == [] ==> key + rows == [])
    ensures n == RowsDone(fate, |record| + |key|, |rows|)
    ensures Committed(record + (key + rows), fate)
      == (if Reached(fate, 1) then record else []) + ((if Reached(fate, 2) then key else []) + rows[..n])
  {
    var plan := record + (key + rows);
    match fate
    case Done =>
      n := |rows|;
      assert rows[..n] == rows;
    case Failed(k) =>
      n := RowsDone(fate, |record| + |key|, |rows|);
      if record == [] {
        assert plan == [] && key == [] && rows == [];
      } else if k <= 1 {
        assert plan[..Min(k, |plan|)] == if k == 0 then [] else record;
      } else {
        assert plan[..Min(k, |plan|)] == record + (key + rows[..n]);
      }
  }

  /** The tables after one attempt, part by part. */
  lemma AfterParts(t: Tables, ignore: set<string>, p: Policy, ev: MatchEvent, fate: Fate)
    returns (pairs: seq<(string, string)>)
    ensures var full := UniqueKeywords(ev);
      var key := KeyEffect(p, full, Stripped(t, ignore, p, ev), ev);
      var counted := if Reached(fate, 1) then Counted(t, full) else t;
      var keyed := if Reached(fate, 2) then ApplyAll(counted, key) else counted;
      After(t, ignore, p, ev, fate) == keyed.(hosts := HostsWith(keyed.hosts, pairs, ev.seen))
    ensures var full := UniqueKeywords(ev);
      var brands := Stripped(t, ignore, p, ev);
      var all, ahead := TailPairs(p, brands, ev), |RecordEffect(full)| + |KeyEffect(p, full, brands, ev)|;
      pairs == all[..RowsDone(fate, ahead, |all|)]
  {
    var full := UniqueKeywords(ev);
    var brands := Stripped(t, ignore, p, ev);
    PlanShape(t, ignore, p, ev);
    hide UniqueKeywords, Stripped, KeyEffect, TailPairs, RecordEffect, HostsWith, HostEffects, Plan, Committed, ApplyAll;
    pairs := AppliedParts(t, RecordEffect(full), KeyEffect(p, full, brands, ev), TailPairs(p, brands, ev), ev.seen, fate);
  }

  /** A plan counts at most once, then has at most one key, then its host rows. */
  lemma PlanShape(t: Tables, ignore: set<string>, p: Policy, ev: MatchEvent)
    ensures var full := UniqueKeywords(ev);
      var brands := Stripped(t, ignore, p, ev);
      var record, key, rows := RecordEffect(full), KeyEffect(p, full, brands, ev), TailPairs(p, brands, ev);
      && Plan(t, ignore, p, ev) == record + (key + HostEffects(rows, ev.seen))
      && |record| <= 1 && |key| <= 1 && (record == [] ==> key == [] && rows == [])
  {
    var full := UniqueKeywords(ev);
    if full == [] { NothingWithoutBrands(Counted(t, full), ignore, p, full, ev); }
    hide UniqueKeywords, Strip, TailPairs, HostEffects, FactOf, Join;
  }

  lemma NothingWithoutBrands(t: Tables, ignore: set<string>, p: Policy, full: seq<string>, ev: MatchEvent)
    requires full == []
    ensures var brands := Strip(t, ignore, p, full);
      KeyEffect(p, full, brands, ev) == [] && TailPairs(p, brands, ev) == []
  {
  }

  lemma AppliedParts(t: Tables, record: seq<Effect>, key: seq<Effect>, all: seq<(string, string)>, ts: int, fate: Fate)
    returns (pairs: seq<(string, string)>)
    requires |record| <= 1 && |key| <= 1 && (record == [] ==> key == [] && all == [])
    ensures var counted := if Reached(fate, 1) then ApplyAll(t, record) else t;
      var keyed := if Reached(fate, 2) then ApplyAll(counted, key) else counted;
      ApplyAll(t, Committed(record + (key + HostEffects(all, ts)), fate))
        == keyed.(hosts := HostsWith(keyed.hosts, pairs, ts))
    ensures pairs == all[..RowsDone(fate, |record| + |key|, |all|)]
  {
    var rows := HostEffects(all, ts);
    var n := CommittedParts(record, key, rows, fate);
    pairs := all[..n];
    assert rows[..n] == HostEffects(pairs, ts);
    var record', key' := if Reached(fate, 1) then record else [], if Reached(fate, 2) then key else [];
    ApplyAllAppend(t, record', key' + rows[..n]);
    ApplyAllAppend(ApplyAll(t, record'), key', rows[..n]);
    ApplyHosts(ApplyAll(ApplyAll(t, record'), key'), pairs, ts);
  }

  /** A key effect touches keys and facts only. */
  lemma KeyPart(t: Tables, p: Policy, full: seq<string>, brands: seq<string>, ev: MatchEvent)
    ensures var key := KeyEffect(p, full, brands, ev);
      var u := ApplyAll(t, key);
      && u.degree == t.degree && u.edges == t.edges && u.multiEvents == t.multiEvents && u.startedAt == t.startedAt
      && (key == [] ==> u == t) && (key != [] ==> u == Apply(t, key[0]))
  {
    var key := KeyEffect(p, full, brands, ev);
    if key != [] { assert key == [key[0]]; ApplyOne(t, key[0]); }
  }

  lemma CountersStep(c: Setup, h: seq<Attempt>)
    requires h != []
    ensures var t, u, a := Run(c, h[..|h| - 1]), Run(c, h), h[|h| - 1];
      var counted := if Reached(a.fate, 1) then Counted(t, UniqueKeywords(a.ev)) else t;
      u.degree == counted.degree && u.edges == counted.edges && u.multiEvents == counted.multiEvents
      && u.startedAt == t.startedAt
  {
    var t, a := Run(c, h[..|h| - 1]), h[|h| - 1];
    var p, full := PolicyAt(c, a), UniqueKeywords(a.ev);
    var pairs := AfterParts(t, c.ignore, p, a.ev, a.fate);
    RecordKeepsKeys(t, full);
    KeyPart(if Reached(a.fate, 1) then Counted(t, full) else t, p, full, Stripped(t, c.ignore, p, a.ev), a.ev);
  }

  /** The key effect attempt `a` would commit on tables `t`. */
  function KeyOf(c: Setup, t: Tables, a: Attempt): seq<Effect> {
    KeyEffect(PolicyAt(c, a), UniqueKeywords(a.ev), Stripped(t, c.ignore, PolicyAt(c, a), a.ev), a.ev)
  }

  /** Mute keys and facts after an attempt depend only on whether it got to its key. */
  lemma KeysStep(c: Setup, h: seq<Attempt>)
    requires h != []
    ensures var t, u, a := Run(c, h[..|h| - 1]), Run(c, h), h[|h| - 1];
      if Reached(a.fate, 2) && KeyOf(c, t, a) != []
      then u.coalitions == Apply(t, KeyOf(c, t, a)[0]).coalitions && u.certs == Apply(t, KeyOf(c, t, a)[0]).certs
      else u.coalitions == t.coalitions && u.certs == t.certs
  {
    var t, a := Run(c, h[..|h| - 1]), h[|h| - 1];
    var p, full := PolicyAt(c, a), UniqueKeywords(a.ev);
    var brands := Stripped(t, c.ignore, p, a.ev);
    var pairs := AfterParts(t, c.ignore, p, a.ev, a.fate);
    RecordKeepsKeys(t, full);
    var counted := if Reached(a.fate, 1) then Counted(t, full) else t;
    KeyPart(counted, p, full, brands, a.ev);
    KeyFrame(t, counted, KeyOf(c, t, a));
  }

  lemma KeyFrame(t: Tables, u: Tables, key: seq<Effect>)
    requires t.coalitions == u.coalitions && t.certs == u.certs
    requires key != [] ==> key[0].Mute? || key[0].Capture?
    ensures key != [] ==>
      Apply(t, key[0]).coalitions == Apply(u, key[0]).coalitions && Apply(t, key[0]).certs == Apply(u, key[0]).certs
  {
    hide Join;
  }

  // ---------- the index agrees with the history ----------

  lemma {:induction false} IndexMatchesHistory(c: Setup, h: seq<Attempt>, b: string)
    requires CleanStart(c)
    ensures Neighbours(Run(c, h).edges, b) == CoNamed(h, b)
    ensures b !in c.ignore ==> EventsIn(Run(c, h).degree, b) == Named(h, b)
    ensures b !in c.ignore ==> PartnersIn(Run(c, h).degree, b) == |CoNamed(h, b)|
  {
    if h != [] {
      IndexMatchesHistory(c, h[..|h| - 1], b);
      CountersStep(c, h);
      if Reached(h[|h| - 1].fate, 1) {
        CountedColumns(Run(c, h[..|h| - 1]), UniqueKeywords(h[|h| - 1].ev), b);
      }
    }
  }

  /** What counting one unique brand list does to the columns of one brand. */
  lemma CountedColumns(t: Tables, full: seq<string>, b: string)
    requires StrictlySorted(full)
    ensures var u := Counted(t, full);
      && Neighbours(u.edges, b) == Neighbours(t.edges, b) + (if b in full then Elems(full) - {b} else {})
      && EventsIn(u.degree, b) == EventsIn(t.degree, b) + (if b in full then 1 else 0)
      && (PartnersIn(t.degree, b) == |Neighbours(t.edges, b)| ==> PartnersIn(u.degree, b) == |Neighbours(u.edges, b)|)
  {
    if full != [] {
      var op := RecordEffect(full)[0];
      ApplyOne(t, op);
      UniqueMultiplicity(full, b);
      EventsStep(t, op, b);
      if PartnersIn(t.degree, b) == |Neighbours(t.edges, b)| { PartnersStep(t, op, b, 0); }
      EdgesAfter(t, full, b);
    }
  }

  lemma EdgesAfter(t: Tables, full: seq<string>, b: string)
    requires full != []
    ensures Neighbours(Apply(t, RecordEffect(full)[0]).edges, b)
      == Neighbours(t.edges, b) + (if b in full then Elems(full) - {b} else {})
  {
    if |full| >= 2 { NeighboursAfter(t.edges, full, b); } else { assert Elems(full) == {full[0]}; }
  }

  lemma UniqueMultiplicity(full: seq<string>, b: string)
    requires StrictlySorted(full)
    ensures multiset(full)[b] == if b in full then 1 else 0
  {
    if full != [] {
      var front := full[..|full| - 1];
      assert full == front + [full[|full| - 1]];
      UniqueMultiplicity(front, b);
      LessIrreflexive(b);
    }
  }

  lemma NeighboursAfter(edges: set<(string, string)>, full: seq<string>, b: string)
    ensures Neighbours(edges + CrossEdges(full, full), b)
      == Neighbours(edges, b) + (if b in full then Elems(full) - {b} else {})
  {
    var more := edges + CrossEdges(full, full);
    forall x | x in Neighbours(edges, b) + (if b in full then Elems(full) - {b} else {})
      ensures x in Neighbours(more, b)
    {
      assert (b, x) in more;
    }
  }

  /** After its own counting, the engine strips attempt `i` to exactly its low-frequency brands. */
  lemma StrippedIsLowDf(c: Setup, h: seq<Attempt>, i: nat)
    requires CleanStart(c) && i < |h| && Reached(h[i].fate, 1)
    ensures Stripped(Run(c, h[..i]), c.ignore, PolicyAt(c, h[i]), h[i].ev) == LowDf(c, h, i)
    ensures StrictlySorted(LowDf(c, h, i))
  {
    var past, full := h[..i + 1], UniqueKeywords(h[i].ev);
    assert past[..i] == h[..i];
    CountersStep(c, past);
    var counted := Counted(Run(c, h[..i]), full);
    forall b | b in full ensures IsHub(counted, c.ignore, PolicyAt(c, h[i]), b) <==> Hub(c, past, b) {
      IndexMatchesHistory(c, past, b);
    }
    StripIsWithoutHubs(c, past, counted, PolicyAt(c, h[i]), full);
  }

  lemma {:induction false} StripIsWithoutHubs(c: Setup, h: seq<Attempt>, t: Tables, p: Policy, full: seq<string>)
    requires forall b :: b in full ==> (IsHub(t, c.ignore, p, b) <==> Hub(c, h, b))
    ensures Strip(t, c.ignore, p, full) == WithoutHubs(c, h, full)
  {
    if full != [] {
      assert forall b :: b in full[..|full| - 1] ==> b in full;
      StripIsWithoutHubs(c, h, t, p, full[..|full| - 1]);
    }
  }

  // ---------- hubs are permanent ----------

  lemma {:induction false} HubsArePermanent(c: Setup, h: seq<Attempt>, i: nat, b: string)
    requires i <= |h| && Hub(c, h[..i], b)
    ensures Hub(c, h, b)
    decreases |h|
  {
    if i < |h| {
      var front := h[..|h| - 1];
      assert front[..i] == h[..i];
      HubsArePermanent(c, front, i, b);
      SubsetSize(CoNamed(front, b), CoNamed(h, b));
    } else {
      assert h[..i] == h;
    }
  }

  /** The full key of an attempt that stripping left too small is no later stripped key: it
      holds a brand that is a hub from then on. */
  lemma BookkeepingNeverSilences(c: Setup, h: seq<Attempt>, j: nat, i: nat)
    requires j <= i < |h| && CleanBrands(h)
    requires |UniqueKeywords(h[j].ev)| >= 2 && |LowDf(c, h, j)| < 2
    requires |LowDf(c, h, i)| >= 2
    ensures Join(UniqueKeywords(h[j].ev), FIELD_SEP) != Join(LowDf(c, h, i), FIELD_SEP)
  {
    var full, low := UniqueKeywords(h[j].ev), LowDf(c, h, i);
    var b := SomeHub(c, h, j);
    assert h[..i + 1][..j + 1] == h[..j + 1];
    HubsArePermanent(c, h[..i + 1], j + 1, b);
    assert full != low;
    if Join(full, FIELD_SEP) == Join(low, FIELD_SEP) {
      LowDfIsClean(c, h, i);
      JoinInjective(full, low, FIELD_SEP);
    }
  }

  lemma SomeHub(c: Setup, h: seq<Attempt>, j: nat) returns (b: string)
    requires j < |h| && |UniqueKeywords(h[j].ev)| >= 2 && |LowDf(c, h, j)| < 2
    ensures b in UniqueKeywords(h[j].ev) && Hub(c, h[..j + 1], b)
  {
    var full, low := UniqueKeywords(h[j].ev), LowDf(c, h, j);
    if Hub(c, h[..j + 1], full[0]) {
      b := full[0];
    } else {
      b := full[1];
      assert full[0] in low;
      if !Hub(c, h[..j + 1], b) {
        assert b in low;
        assert low[0] == full[0] && low[0] == full[1];
        SortedHasNoDuplicates(full, 0, 1);
      }
    }
  }

  lemma LowDfIsClean(c: Setup, h: seq<Attempt>, i: nat)
    requires i < |h| && CleanBrands(h)
    ensures FreeOf(LowDf(c, h, i), FIELD_SEP) && FreeOf(LowDf(c, h, i), CSV_SEP)
  {
    assert CleanEvent(h[i].ev);
    assert forall b :: b in LowDf(c, h, i) ==> b in UniqueKeywords(h[i].ev);
  }

  // ---------- mute keys are the recorded coalitions ----------

  /** The brand list whose key attempt `j` recorded, if it got that far. */
  function KeyAt(c: Setup, h: seq<Attempt>, j: nat): seq<string>
    requires j < |h|
  {
    if Reached(h[j].fate, 2) then KeyBrands(UniqueKeywords(h[j].ev), LowDf(c, h, j)) else []
  }

  ghost predicate RecordedBefore(c: Setup, h: seq<Attempt>, key: string) {
    exists j: nat :: j < |h| && RecordedAt(c, h, j, key)
  }

  ghost predicate RecordedAt(c: Setup, h: seq<Attempt>, j: nat, key: string)
    requires j < |h|
  {
    KeyAt(c, h, j) != [] && Join(KeyAt(c, h, j), FIELD_SEP) == key
  }

  lemma RecordedInPast(c: Setup, h: seq<Attempt>, i: nat, j: nat, key: string)
    requires j < i <= |h|
    ensures RecordedAt(c, h[..i], j, key) <==> RecordedAt(c, h, j, key)
  {
    assert h[..i][..j + 1] == h[..j + 1];
  }

  lemma RecordedStep(c: Setup, h: seq<Attempt>, key: string)
    requires h != []
    ensures RecordedBefore(c, h, key) <==> RecordedBefore(c, h[..|h| - 1], key) || RecordedAt(c, h, |h| - 1, key)
  {
    hide RecordedAt;
    var front := h[..|h| - 1];
    forall j: nat | j < |front| ensures RecordedAt(c, front, j, key) <==> RecordedAt(c, h, j, key) {
      RecordedInPast(c, h, |front|, j, key);
    }
    if RecordedBefore(c, front, key) {
      var j: nat :| j < |front| && RecordedAt(c, front, j, key);
      assert RecordedAt(c, h, j, key);
    }
  }

  lemma {:induction false} FactsMutedOverRun(c: Setup, h: seq<Attempt>)
    requires CleanStart(c) && CleanBrands(h)
    ensures FactsAreMuted(Run(c, h))
  {
    if h != [] {
      var t, a := Run(c, h[..|h| - 1]), h[|h| - 1];
      FactsMutedOverRun(c, h[..|h| - 1]);
      KeysStep(c, h);
      KeyOfIsClean(c, t, a);
      if KeyOf(c, t, a) != [] { FactsStayMuted(t, KeyOf(c, t, a)[0]); }
    }
  }

  lemma KeyOfIsClean(c: Setup, t: Tables, a: Attempt)
    requires CleanEvent(a.ev)
    ensures KeyOf(c, t, a) != [] ==> CommaFree(KeyOf(c, t, a)[0])
  {
  }

  /** On registrable domains the fact insert never conflicts, so no step is stuck for good. */
  lemma NeverStuck(c: Setup, h: seq<Attempt>, ev: MatchEvent, p: Policy)
    requires CleanStart(c) && CleanBrands(h) && CleanEvent(ev)
    ensures !PlanConflict(Run(c, h), c.ignore, p, ev)
  {
    FactsMutedOverRun(c, h);
    NoCaptureConflict(Run(c, h), Stripped(Run(c, h), c.ignore, p, ev));
  }

  lemma {:induction false} MuteKeysAreRecorded(c: Setup, h: seq<Attempt>, key: string)
    requires CleanStart(c) && CleanBrands(h)
    ensures key in Run(c, h).coalitions <==> RecordedBefore(c, h, key)
  {
    if h != [] {
      var front, a := h[..|h| - 1], h[|h| - 1];
      MuteKeysAreRecorded(c, front, key);
      RecordedStep(c, h, key);
      KeysStep(c, h);
      if Reached(a.fate, 2) {
        StrippedIsLowDf(c, h, |front|);
        NeverStuck(c, front, a.ev, PolicyAt(c, a));
        var p, full := PolicyAt(c, a), UniqueKeywords(a.ev);
        KeyInsert(Run(c, front), p, full, Stripped(Run(c, front), c.ignore, p, a.ev), a.ev, key);
      }
    }
  }

  /** A mute key carries the event time of the first attempt that recorded it. */
  lemma {:induction false} KeyHasFirstSeen(c: Setup, h: seq<Attempt>, key: string) returns (j: nat)
    requires CleanStart(c) && CleanBrands(h) && key in Run(c, h).coalitions
    ensures j < |h| && RecordedAt(c, h, j, key) && forall k: nat :: k < j ==> !RecordedAt(c, h, k, key)
    ensures Run(c, h).coalitions[key] == h[j].ev.seen
  {
    hide RecordedAt, RecordedBefore, CleanStart, CleanEvent, Run, KeyOf, Apply;
    if h == [] { EmptyStart(c, h); }
    var n := |h| - 1;
    var front := h[..n];
    MuteKeysAreRecorded(c, front, key);
    MuteKeysAreRecorded(c, h, key);
    RecordedStep(c, h, key);
    KeysStep(c, h);
    KeyIsStamped(c, Run(c, front), h[n]);
    KeyStamp(Run(c, front), KeyOf(c, Run(c, front), h[n]), h[n].ev, key);
    EarlierRecords(c, front, key);
    if key in Run(c, front).coalitions {
      j := KeyHasFirstSeen(c, front, key);
    } else {
      j := n;
    }
    forall k: nat | k < n ensures RecordedAt(c, front, k, key) <==> RecordedAt(c, h, k, key) {
      RecordedInPast(c, h, n, k, key);
    }
  }

  lemma EmptyStart(c: Setup, h: seq<Attempt>)
    requires CleanStart(c) && h == []
    ensures Run(c, h).coalitions == map[]
  {
  }

  lemma KeyIsStamped(c: Setup, t: Tables, a: Attempt)
    ensures var effect := KeyOf(c, t, a);
      effect != [] ==> (effect[0].Mute? || effect[0].Capture?) && effect[0].ts == a.ev.seen
  {
    hide Stripped;
  }

  lemma EarlierRecords(c: Setup, h: seq<Attempt>, key: string)
    ensures RecordedBefore(c, h, key) <==> exists j: nat :: j < |h| && RecordedAt(c, h, j, key)
  {
  }

  /** A key effect stamps a new key with the time of its event, and no known key again. */
  lemma KeyStamp(t: Tables, effect: seq<Effect>, ev: MatchEvent, key: string)
    requires effect != [] ==> (effect[0].Mute? || effect[0].Capture?) && effect[0].ts == ev.seen
    ensures effect != [] && key in Apply(t, effect[0]).coalitions ==>
      Apply(t, effect[0]).coalitions[key] == if key in t.coalitions then t.coalitions[key] else ev.seen
    ensures effect != [] ==> t.coalitions.Keys <= Apply(t, effect[0]).coalitions.Keys
  {
    hide Join;
  }

  /** Without a conflict, a key effect adds exactly its own key. */
  lemma KeyInsert(t: Tables, p: Policy, full: seq<string>, brands: seq<string>, ev: MatchEvent, key: string)
    requires !BrandsConflict(t, p, ev, brands)
    ensures var own, effect := KeyBrands(full, brands), KeyEffect(p, full, brands, ev);
      && (own == [] <==> effect == [])
      && (own != [] ==>
          (key in Apply(t, effect[0]).coalitions <==> key in t.coalitions || key == Join(own, FIELD_SEP)))
  {
  }

  // ---------- main results ----------

  /** The incremental store alerts exactly when the history says so: on the stripped coalition
      of the attempt, the first time that coalition was recorded, and only if the gates pass. */
  lemma AlertsExactlyWhen(c: Setup, h: seq<Attempt>, i: nat)
    requires CleanStart(c) && CleanBrands(h) && i < |h|
    ensures EmitsTierA(c, h, i) <==> Alertable(c, h, i)
    ensures Alertable(c, h, i) ==> EmittedAt(c, h, i) == [TierA(LowDf(c, h, i), h[i].ev)]
  {
    if h[i].fate.Done? {
      var low := LowDf(c, h, i);
      SanGateIs(PolicyAt(c, h[i]), h[i].ev);
      StrippedIsLowDf(c, h, i);
      if |low| >= 2 {
        NewKeyMeansFirstRecorded(c, h, i);
      }
    }
  }

  /** Attempt `j` recorded these brands: what stripping left of its own, or all of them when that was
      fewer than two. */
  ghost predicate Recorded(c: Setup, h: seq<Attempt>, j: nat, brands: seq<string>)
    requires j < |h|
  {
    && Reached(h[j].fate, 2) && |brands| >= 2
    && brands == if |LowDf(c, h, j)| >= 2 then LowDf(c, h, j) else UniqueKeywords(h[j].ev)
  }

  /** A key is new exactly when no earlier attempt recorded its brands. */
  lemma NewKeyMeansFirst(c: Setup, h: seq<Attempt>, i: nat, brands: seq<string>)
    requires CleanStart(c) && CleanBrands(h) && i <= |h| && |brands| >= 2
    requires FreeOf(brands, FIELD_SEP)
    ensures IsNewKey(Run(c, h[..i]), brands) <==> forall j: nat :: j < i ==> !Recorded(c, h, j, brands)
  {
    hide Run, LowDf, Join, Recorded;
    var past, key := h[..i], Join(brands, FIELD_SEP);
    MuteKeysAreRecorded(c, past, key);
    forall j: nat | j < i ensures RecordedAt(c, past, j, key) <==> Recorded(c, h, j, brands) {
      RecordedInPast(c, h, i, j, key);
      SameKeyMeansSameBrands(c, h, j, brands);
    }
  }

  lemma SameKeyMeansSameBrands(c: Setup, h: seq<Attempt>, j: nat, brands: seq<string>)
    requires CleanBrands(h) && j < |h| && |brands| >= 2 && FreeOf(brands, FIELD_SEP)
    ensures RecordedAt(c, h, j, Join(brands, FIELD_SEP)) <==> Recorded(c, h, j, brands)
  {
    LowDfIsClean(c, h, j);
    assert CleanEvent(h[j].ev);
    hide LowDf, Join, UniqueKeywords, CleanBrands;
    var own := KeyAt(c, h, j);
    if own != [] && Join(own, FIELD_SEP) == Join(brands, FIELD_SEP) {
      JoinInjective(own, brands, FIELD_SEP);
    }
  }

  /** For a stripped coalition only equal stripped coalitions count. */
  lemma NewKeyMeansFirstRecorded(c: Setup, h: seq<Attempt>, i: nat)
    requires CleanStart(c) && CleanBrands(h) && i < |h| && |LowDf(c, h, i)| >= 2
    ensures IsNewKey(Run(c, h[..i]), LowDf(c, h, i)) <==> forall j: nat :: j < i ==> !RecordedSame(c, h, j, i)
  {
    hide IsNewKey, LowDf, Run;
    LowDfIsClean(c, h, i);
    NewKeyMeansFirst(c, h, i, LowDf(c, h, i));
    forall j: nat | j < i ensures Recorded(c, h, j, LowDf(c, h, i)) <==> RecordedSame(c, h, j, i) {
      if |LowDf(c, h, j)| < 2 && |UniqueKeywords(h[j].ev)| >= 2 { BookkeepingNeverSilences(c, h, j, i); }
    }
  }

  /** No two attempts alert on the same set of brands, whatever was retried. */
  lemma AlertsAreDistinct(c: Setup, h: seq<Attempt>, i: nat, j: nat)
    requires CleanStart(c) && CleanBrands(h) && i < j < |h|
    requires EmitsTierA(c, h, i) && EmitsTierA(c, h, j)
    ensures Elems(LowDf(c, h, i)) != Elems(LowDf(c, h, j))
  {
    AlertsExactlyWhen(c, h, i);
    AlertsExactlyWhen(c, h, j);
    assert !RecordedSame(c, h, i, j);
    StrippedIsLowDf(c, h, i);
    StrippedIsLowDf(c, h, j);
    if Elems(LowDf(c, h, i)) == Elems(LowDf(c, h, j)) {
      SortedIsCanonical(LowDf(c, h, i), LowDf(c, h, j));
    }
  }

  /** A coalition first recorded while muted, or by an attempt that failed afterwards, stays silent. */
  lemma RecordedStaysSilent(c: Setup, h: seq<Attempt>, j: nat, i: nat)
    requires CleanStart(c) && CleanBrands(h) && j < i < |h|
    requires RecordedSame(c, h, j, i)
    ensures !EmitsTierA(c, h, i)
  {
    AlertsExactlyWhen(c, h, i);
  }
}
