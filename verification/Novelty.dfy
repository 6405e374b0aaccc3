/** The durable novelty tables: a value model of the tables, the committed effects
    that change them, and the class whose methods run the SQL. */
module Novelty {
  import opened Event
  import opened Faults
  import opened Text

  // ---------- tables ----------

  const I64_MAX: int := 0x7FFF_FFFF_FFFF_FFFF

  type i64 = x: int | -I64_MAX - 1 <= x <= I64_MAX

  datatype Degree = Degree(events: nat, partners: nat)

  /** One captured row; the list columns are comma encoded. */
  datatype Fact = Fact(
    watchlistHits: string,
    hosts: string,
    fingerprint: Option<string>,
    seenAt: int,
    sanCount: u32,
    ctLog: Option<string>)

  datatype Tables = Tables(
    coalitions: map<string, int>,
    hosts: map<(string, string), int>,
    degree: map<string, Degree>,
    edges: set<(string, string)>,
    multiEvents: nat,
    startedAt: i64,
    certs: map<string, Fact>)

  function Fresh(startedAt: i64): Tables {
    Tables(map[], map[], map[], {}, 0, startedAt, map[])
  }

  function EventsIn(degree: map<string, Degree>, b: string): nat {
    if b in degree then degree[b].events else 0
  }

  function PartnersIn(degree: map<string, Degree>, b: string): nat {
    if b in degree then degree[b].partners else 0
  }

  function Neighbours(edges: set<(string, string)>, b: string): set<string> {
    set e | e in edges && e.0 == b :: e.1
  }

  /** Column reads come back clamped to 32 bits. */
  function ClampU32(n: nat): u32 { if n <= U32_MAX then n else U32_MAX }

  // ---------- committed effects ----------

  datatype Effect =
    | Cooccur(brands: seq<string>)
    | Appear(brands: seq<string>)
    | Seed(brand: string, floor: nat)
    | Mute(key: string, ts: int)
    | Capture(brands: seq<string>, fact: Fact, ts: int)
    | Host(brand: string, host: string, ts: int)

  /** Every listed brand, with multiplicity, gains one event. */
  function Bumped(degree: map<string, Degree>, brands: seq<string>): map<string, Degree> {
    if brands == [] then degree
    else
      var d, b := Bumped(degree, brands[..|brands| - 1]), brands[|brands| - 1];
      d[b := Degree(EventsIn(d, b) + 1, PartnersIn(d, b))]
  }

  lemma {:induction false} BumpedColumns(degree: map<string, Degree>, brands: seq<string>, b: string)
    ensures EventsIn(Bumped(degree, brands), b) == EventsIn(degree, b) + multiset(brands)[b]
    ensures PartnersIn(Bumped(degree, brands), b) == PartnersIn(degree, b)
    ensures b in brands ==> b in Bumped(degree, brands)
  {
    if brands != [] {
      assert brands == brands[..|brands| - 1] + [brands[|brands| - 1]];
      BumpedColumns(degree, brands[..|brands| - 1], b);
    }
  }

  function CrossEdges(from: seq<string>, to: seq<string>): set<(string, string)> {
    set a, b | a in from && b in to && a != b :: (a, b)
  }

  /** The partner columns of the listed brands are raised to their edge counts. */
  function Recounted(degree: map<string, Degree>, edges: set<(string, string)>, brands: seq<string>):
    map<string, Degree>
  {
    if brands == [] then degree
    else
      var d, b := Recounted(degree, edges, brands[..|brands| - 1]), brands[|brands| - 1];
      if b in d then d[b := d[b].(partners := Max(d[b].partners, |Neighbours(edges, b)|))] else d
  }

  lemma {:induction false} RecountedColumns(degree: map<string, Degree>, edges: set<(string, string)>,
                                            brands: seq<string>, b: string)
    ensures var d := Recounted(degree, edges, brands);
      && d.Keys == degree.Keys
      && EventsIn(d, b) == EventsIn(degree, b)
      && PartnersIn(d, b) == if b in brands && b in degree
           then Max(PartnersIn(degree, b), |Neighbours(edges, b)|) else PartnersIn(degree, b)
  {
    if brands != [] {
      assert brands == brands[..|brands| - 1] + [brands[|brands| - 1]];
      RecountedColumns(degree, edges, brands[..|brands| - 1], b);
    }
  }

  function Seeded(degree: map<string, Degree>, b: string, floor: nat): map<string, Degree> {
    degree[b := Degree(Max(EventsIn(degree, b), floor), Max(PartnersIn(degree, b), floor))]
  }

  function InsertOrIgnore<K, V>(m: map<K, V>, k: K, v: V): map<K, V> {
    if k in m then m else m[k := v]
  }

  /** The mute key is new, yet the captured primary key is taken: the transaction fails. */
  predicate CaptureConflict(t: Tables, brands: seq<string>) {
    Join(brands, FIELD_SEP) !in t.coalitions && Join(brands, CSV_SEP) in t.certs
  }

  function Apply(t: Tables, e: Effect): Tables {
    match e
    case Cooccur(brands) =>
      if |brands| < 2 then t else
        var edges := t.edges + CrossEdges(brands, brands);
        t.(degree := Recounted(Bumped(t.degree, brands), edges, brands),
           edges := edges,
           multiEvents := t.multiEvents + 1)
    case Appear(brands) => t.(degree := Bumped(t.degree, brands))
    case Seed(b, floor) => t.(degree := Seeded(t.degree, b, floor))
    case Mute(key, ts) => t.(coalitions := InsertOrIgnore(t.coalitions, key, ts))
    case Capture(brands, fact, ts) =>
      var key := Join(brands, FIELD_SEP);
      if key in t.coalitions || CaptureConflict(t, brands) then t
      else t.(coalitions := t.coalitions[key := ts], certs := t.certs[Join(brands, CSV_SEP) := fact])
    case Host(b, h, ts) => t.(hosts := InsertOrIgnore(t.hosts, (b, h), ts))
  }

  function ApplyAll(t: Tables, ops: seq<Effect>): Tables {
    if ops == [] then t else Apply(ApplyAll(t, ops[..|ops| - 1]), ops[|ops| - 1])
  }

  lemma {:induction false} ApplyAllAppend(t: Tables, a: seq<Effect>, b: seq<Effect>)
    ensures ApplyAll(t, a + b) == ApplyAll(ApplyAll(t, a), b)
  {
    if b == [] {
      assert a + b == a;
    } else {
      assert (a + b)[..|a + b| - 1] == a + b[..|b| - 1];
      ApplyAllAppend(t, a, b[..|b| - 1]);
    }
  }

  lemma ApplyOne(t: Tables, e: Effect)
    ensures ApplyAll(t, [e]) == Apply(t, e)
  {
    assert [e][..0] == [];
    assert ApplyAll(t, []) == t;
  }

  // ---------- burn-in clock ----------

  function SaturatingSub(a: i64, b: i64): i64 {
    Min(I64_MAX, Max(-I64_MAX - 1, a - b))
  }

  /** Burn-in gates: zero disables a gate, and every enabled gate must pass. */
  predicate Calibrating(started: i64, multiEvents: nat, now: i64, secs: nat, events: nat) {
    var timeOk := secs == 0 || SaturatingSub(now, started) >= Min(secs, I64_MAX);
    var eventsOk := events == 0 || multiEvents >= events;
    (secs != 0 || events != 0) && !(timeOk && eventsOk)
  }

  /** Calibration in plain terms: some enabled gate is unmet, by the difference of the two readings or
      by the number of events. */
  lemma CalibratingMeans(started: i64, multiEvents: nat, now: i64, secs: nat, events: nat)
    ensures Calibrating(started, multiEvents, now, secs, events)
      <==> ((secs > 0 && now < started + Min(secs, I64_MAX)) || (events > 0 && multiEvents < events))
  {
  }

  // ---------- degree index ----------

  function Mentions(ops: seq<Effect>, b: string): nat {
    if ops == [] then 0 else Mentions(ops[..|ops| - 1], b) + Counts(ops[|ops| - 1], b)
  }

  function SeedFloor(ops: seq<Effect>, b: string): nat {
    if ops == [] then 0
    else
      var before := SeedFloor(ops[..|ops| - 1], b);
      match ops[|ops| - 1]
      case Seed(brand, floor) => if brand == b then Max(before, floor) else before
      case _ => before
  }

  ghost predicate NamedTogether(ops: seq<Effect>, a: string, b: string) {
    a != b && exists i :: 0 <= i < |ops| && TogetherIn(ops[i], a, b)
  }

  predicate TogetherIn(op: Effect, a: string, b: string) {
    op.Cooccur? && |op.brands| >= 2 && a in op.brands && b in op.brands
  }

  lemma NeighboursGrow(edges: set<(string, string)>, more: set<(string, string)>, b: string)
    requires edges <= more
    ensures Neighbours(edges, b) <= Neighbours(more, b)
    ensures |Neighbours(edges, b)| <= |Neighbours(more, b)|
  {
    SubsetSize(Neighbours(edges, b), Neighbours(more, b));
  }

  lemma SubsetSize<T>(a: set<T>, b: set<T>)
    requires a <= b
    ensures |a| <= |b|
  {
    assert b == a + (b - a);
    assert |b| == |a| + |b - a|;
  }

  /** The partner graph holds exactly the pairs some recorded co-occurrence named together. */
  lemma {:induction false} EdgesAreCooccurrences(started: i64, ops: seq<Effect>, a: string, b: string)
    ensures (a, b) in ApplyAll(Fresh(started), ops).edges <==> NamedTogether(ops, a, b)
  {
    if ops != [] {
      var before, op := ops[..|ops| - 1], ops[|ops| - 1];
      EdgesAreCooccurrences(started, before, a, b);
      assert NamedTogether(ops, a, b) <==> NamedTogether(before, a, b) || (a != b && TogetherIn(op, a, b)) by {
        assert ops == before + [op];
        if NamedTogether(before, a, b) {
          var i :| 0 <= i < |before| && TogetherIn(before[i], a, b);
          assert ops[i] == before[i];
        }
        if a != b && TogetherIn(op, a, b) { assert TogetherIn(ops[|before|], a, b); }
      }
    }
  }

  /** Degree index: after any run of effects the graph is symmetric and irreflexive, and each
      partner column is the larger of the brand's seed floor and its number of partners. */
  lemma {:induction false} DegreeIndex(started: i64, ops: seq<Effect>, a: string, b: string)
    ensures var t := ApplyAll(Fresh(started), ops);
      && ((a, b) in t.edges <==> (b, a) in t.edges)
      && (a, a) !in t.edges
      && PartnersIn(t.degree, a) == Max(SeedFloor(ops, a), |Neighbours(t.edges, a)|)
  {
    EdgesAreCooccurrences(started, ops, a, b);
    EdgesAreCooccurrences(started, ops, b, a);
    EdgesAreCooccurrences(started, ops, a, a);
    PartnersColumn(started, ops, a);
  }

  lemma {:induction false} PartnersColumn(started: i64, ops: seq<Effect>, b: string)
    ensures var t := ApplyAll(Fresh(started), ops);
      PartnersIn(t.degree, b) == Max(SeedFloor(ops, b), |Neighbours(t.edges, b)|)
  {
    if ops == [] {
      assert Neighbours({}, b) == {};
    } else {
      var before, op := ops[..|ops| - 1], ops[|ops| - 1];
      PartnersColumn(started, before, b);
      PartnersStep(ApplyAll(Fresh(started), before), op, b, SeedFloor(before, b));
    }
  }

  lemma PartnersStep(t: Tables, op: Effect, b: string, floor: nat)
    requires PartnersIn(t.degree, b) == Max(floor, |Neighbours(t.edges, b)|)
    ensures var u := Apply(t, op);
      var raised := if op.Seed? && op.brand == b then Max(floor, op.floor) else floor;
      PartnersIn(u.degree, b) == Max(raised, |Neighbours(u.edges, b)|)
  {
    match op
    case Cooccur(brands) =>
      if |brands| >= 2 {
        var edges := t.edges + CrossEdges(brands, brands);
        NeighboursGrow(t.edges, edges, b);
        BumpedColumns(t.degree, brands, b);
        RecountedColumns(Bumped(t.degree, brands), edges, brands, b);
        if b !in brands { assert Neighbours(edges, b) == Neighbours(t.edges, b); }
      }
    case Appear(brands) => BumpedColumns(t.degree, brands, b);
    case _ =>
  }

  /** Between two seedings, event counts grow by exactly the number of recorded mentions. */
  lemma {:induction false} EventsGrowByMentions(t: Tables, ops: seq<Effect>, b: string)
    requires forall i :: 0 <= i < |ops| ==> !ops[i].Seed?
    ensures EventsIn(ApplyAll(t, ops).degree, b) == EventsIn(t.degree, b) + Mentions(ops, b)
  {
    if ops != [] {
      EventsGrowByMentions(t, ops[..|ops| - 1], b);
      EventsStep(ApplyAll(t, ops[..|ops| - 1]), ops[|ops| - 1], b);
    }
  }

  /** How often one effect counts a brand. */
  function Counts(op: Effect, b: string): nat {
    match op
    case Cooccur(brands) => if |brands| < 2 then 0 else multiset(brands)[b]
    case Appear(brands) => multiset(brands)[b]
    case _ => 0
  }

  lemma EventsStep(t: Tables, op: Effect, b: string)
    requires !op.Seed?
    ensures EventsIn(Apply(t, op).degree, b) == EventsIn(t.degree, b) + Counts(op, b)
  {
    if op.Cooccur? || op.Appear? { BumpedColumns(t.degree, op.brands, b); }
    if op.Cooccur? {
      RecountedColumns(Bumped(t.degree, op.brands), t.edges + CrossEdges(op.brands, op.brands), op.brands, b);
    }
  }

  predicate SeedsBrand(op: Effect, b: string) { op.Seed? && op.brand == b }

  /** The seed floor of effect `i` for the brand, and the mentions after it; without one, nothing. */
  function FloorAt(ops: seq<Effect>, b: string, i: nat): nat
    requires i < |ops|
  {
    if SeedsBrand(ops[i], b) then ops[i].floor + Mentions(ops[i + 1..], b) else 0
  }

  lemma FloorStep(ops: seq<Effect>, b: string, i: nat)
    requires i < |ops|
    ensures var last := |ops| - 1;
      FloorAt(ops, b, i) ==
        if i == last then if SeedsBrand(ops[last], b) then ops[last].floor else 0
        else if SeedsBrand(ops[i], b) then FloorAt(ops[..last], b, i) + Counts(ops[last], b) else 0
  {
    var last := |ops| - 1;
    if i < last {
      assert ops[i + 1..][..last - i - 1] == ops[..last][i + 1..];
    }
  }

  /** Whatever the order of seeding and counting, an event column is the largest of the mentions and
      of each seed floor of the brand with the mentions after it. */
  lemma {:induction false} EventsColumn(started: i64, ops: seq<Effect>, b: string)
    ensures var n := EventsIn(ApplyAll(Fresh(started), ops).degree, b);
      && n >= Mentions(ops, b)
      && (forall i :: 0 <= i < |ops| ==> n >= FloorAt(ops, b, i))
      && (n == Mentions(ops, b) || exists i :: 0 <= i < |ops| && n == FloorAt(ops, b, i))
  {
    if ops != [] {
      var last := |ops| - 1;
      var before, op := ops[..last], ops[last];
      var t := ApplyAll(Fresh(started), before);
      EventsColumn(started, before, b);
      EventsAfter(t, op, b);
      hide Apply, FloorAt, Counts;
      var n := EventsIn(t.degree, b);
      forall i | 0 <= i < |ops| ensures EventsIn(Apply(t, op).degree, b) >= FloorAt(ops, b, i) {
        FloorStep(ops, b, i);
      }
      if n != Mentions(before, b) {
        var i :| 0 <= i < last && n == FloorAt(before, b, i);
        FloorStep(ops, b, i);
        NoFloor(before, b, i);
      }
      FloorStep(ops, b, last);
    }
  }

  lemma NoFloor(ops: seq<Effect>, b: string, i: nat)
    requires i < |ops| && FloorAt(ops, b, i) > 0
    ensures SeedsBrand(ops[i], b)
  {
  }

  lemma EventsAfter(t: Tables, op: Effect, b: string)
    ensures EventsIn(Apply(t, op).degree, b) ==
      if SeedsBrand(op, b) then Max(EventsIn(t.degree, b), op.floor) else EventsIn(t.degree, b) + Counts(op, b)
    ensures op.Seed? ==> Counts(op, b) == 0
  {
    if !op.Seed? { EventsStep(t, op, b); }
  }

  // ---------- mute keys and captured facts ----------

  /** Every captured primary key has its unit-separator twin among the mute keys. */
  ghost predicate FactsAreMuted(t: Tables) {
    forall k :: k in t.certs ==> Replace(k, CSV_SEP, FIELD_SEP) in t.coalitions
  }

  ghost predicate CommaFree(op: Effect) {
    op.Capture? ==> FreeOf(op.brands, CSV_SEP)
  }

  lemma FactsStayMuted(t: Tables, op: Effect)
    requires FactsAreMuted(t) && CommaFree(op)
    ensures FactsAreMuted(Apply(t, op))
  {
    if op.Capture? { ReplaceJoin(op.brands, CSV_SEP, FIELD_SEP); }
  }

  /** Mute/fact consistency in every state reachable from an empty database. */
  lemma {:induction false} FactsAlwaysMuted(started: i64, ops: seq<Effect>)
    requires forall i :: 0 <= i < |ops| ==> CommaFree(ops[i])
    ensures FactsAreMuted(ApplyAll(Fresh(started), ops))
  {
    if ops != [] {
      FactsAlwaysMuted(started, ops[..|ops| - 1]);
      FactsStayMuted(ApplyAll(Fresh(started), ops[..|ops| - 1]), ops[|ops| - 1]);
    }
  }

  /** After a new mute key, the fact insert never hits the primary key. */
  lemma NoCaptureConflict(t: Tables, brands: seq<string>)
    requires FactsAreMuted(t) && FreeOf(brands, CSV_SEP)
    ensures !CaptureConflict(t, brands)
  {
    ReplaceJoin(brands, CSV_SEP, FIELD_SEP);
  }

  /** Without comma-free brands the consistency is lost: two different coalitions share one
      captured key, and the second capture can never succeed. */
  lemma CommaBrandsConflict(fact: Fact, ts: int)
    ensures var t := Apply(Fresh(0), Capture(["a,b", "c"], fact, ts));
      CaptureConflict(t, ["a", "b,c"])
  {
    var s := FIELD_SEP;
    assert Join(["b,c"], ',') == "b,c" && Join(["c"], ',') == "c";
    assert ["a,b", "c"][1..] == ["c"] && ["a", "b,c"][1..] == ["b,c"];
    assert Join(["a,b", "c"], ',') == "a,b,c" == Join(["a", "b,c"], ',');
    assert Join(["a,b", "c"], s)[1] == ',' && Join(["a", "b,c"], s)[1] == s;
  }

  // ---------- the connection ----------

  function SeedBrand(raw: string): string { Lower(Trim(raw)) }

  /** The degree rows after seeding a list of names with one floor. */
  function SeededAll(degree: map<string, Degree>, raws: seq<string>, floor: nat): map<string, Degree> {
    if raws == [] then degree
    else
      var before := SeededAll(degree, raws[..|raws| - 1], floor);
      var brand := SeedBrand(raws[|raws| - 1]);
      if brand == "" || floor == 0 then before else Seeded(before, brand, floor)
  }

  lemma NothingSeeded(degree: map<string, Degree>, raws: seq<string>, floor: nat)
    ensures SeededAll(degree, raws[..0], floor) == degree && SeedStatements(raws[..0], floor) == 0
    ensures floor == 0 ==> SeedStatements(raws, floor) == 0
  {
  }

  lemma SeedingNext(degree: map<string, Degree>, raws: seq<string>, floor: nat, i: nat)
    requires i < |raws| && floor > 0
    ensures var before, brand := SeededAll(degree, raws[..i], floor), SeedBrand(raws[i]);
      && SeededAll(degree, raws[..i + 1], floor) == (if brand == "" then before else Seeded(before, brand, floor))
      && SeedStatements(raws[..i + 1], floor) == SeedStatements(raws[..i], floor) + if brand == "" then 0 else 1
  {
    assert raws[..i + 1][..i] == raws[..i];
  }

  lemma SeedZero(degree: map<string, Degree>, raws: seq<string>)
    ensures SeededAll(degree, raws, 0) == degree
  {
  }

  /** Some name of the list is this brand, once trimmed and in lower case. */
  predicate NamesBrand(raws: seq<string>, b: string) {
    b != "" && exists i :: 0 <= i < |raws| && Lower(Trim(raws[i])) == b
  }

  /** Seeding raises both columns of exactly the named brands to the floor. */
  lemma {:induction false} SeededColumns(degree: map<string, Degree>, raws: seq<string>, floor: nat, b: string)
    ensures var d := SeededAll(degree, raws, floor);
      if NamesBrand(raws, b)
      then EventsIn(d, b) == Max(EventsIn(degree, b), floor) && PartnersIn(d, b) == Max(PartnersIn(degree, b), floor)
      else EventsIn(d, b) == EventsIn(degree, b) && PartnersIn(d, b) == PartnersIn(degree, b)
  {
    hide Lower, Trim;
    if raws != [] {
      var last := |raws| - 1;
      var front := raws[..last];
      SeededColumns(degree, front, floor, b);
      assert NamesBrand(raws, b) <==> NamesBrand(front, b) || (b != "" && Lower(Trim(raws[last])) == b) by {
        if NamesBrand(front, b) {
          var i :| 0 <= i < last && Lower(Trim(front[i])) == b;
          assert Lower(Trim(raws[i])) == b;
        }
      }
    }
  }

  /** Seeding a list of names as a run of effects. */
  lemma {:induction false} SeedingIsEffects(t: Tables, raws: seq<string>, floor: nat) returns (ops: seq<Effect>)
    ensures ApplyAll(t, ops) == t.(degree := SeededAll(t.degree, raws, floor))
    ensures forall i :: 0 <= i < |ops| ==> ops[i].Seed?
  {
    if raws == [] {
      ops := [];
    } else {
      ops := SeedingIsEffects(t, raws[..|raws| - 1], floor);
      var brand := SeedBrand(raws[|raws| - 1]);
      if brand != "" && floor > 0 {
        assert (ops + [Seed(brand, floor)])[..|ops|] == ops;
        ops := ops + [Seed(brand, floor)];
      }
    }
  }

  function SortedCsv(parts: seq<string>): string {
    Join(SortedUnique(NonEmptyTrimmed(parts)), CSV_SEP)
  }

  function NonEmptyTrimmed(parts: seq<string>): seq<string> {
    if parts == [] then []
    else
      var p := Lower(Trim(parts[0]));
      (if p == "" then [] else [p]) + NonEmptyTrimmed(parts[1..])
  }

  function FactOf(ev: MatchEvent, ts: int): Fact {
    Fact(SortedCsv(ev.keywords), SortedCsv(ev.domains), ev.fingerprint, ts, ev.sanCount, ev.source)
  }

  /** The entries of a list column: each distinct non-empty part once, trimmed, in lower case, sorted. */
  ghost predicate IsCsvList(list: seq<string>, parts: seq<string>) {
    StrictlySorted(list) && Elems(list) == (set p | p in parts :: Lower(Trim(p))) - {""}
  }

  ghost predicate IsCsvOf(column: string, parts: seq<string>) {
    exists list: seq<string> :: IsCsvList(list, parts) && column == Join(list, ',')
  }

  /** What a captured row tells of its event, column by column. */
  ghost predicate TellsOf(row: Fact, ev: MatchEvent, ts: int) {
    && IsCsvOf(row.watchlistHits, ev.keywords) && IsCsvOf(row.hosts, ev.domains)
    && (row.fingerprint, row.ctLog) == (ev.fingerprint, ev.source)
    && (row.sanCount, row.seenAt) == (ev.sanCount, ts)
  }

  lemma {:induction false} NonEmptyTrimmedElems(parts: seq<string>)
    ensures Elems(NonEmptyTrimmed(parts)) == (set p | p in parts :: Lower(Trim(p))) - {""}
  {
    hide Lower, Trim;
    if parts != [] {
      var rest := parts[1..];
      NonEmptyTrimmedElems(rest);
      assert parts == [parts[0]] + rest;
      assert (set p | p in parts :: Lower(Trim(p))) == {Lower(Trim(parts[0]))} + set p | p in rest :: Lower(Trim(p));
      var p := Lower(Trim(parts[0]));
      var head := if p == "" then [] else [p];
      assert NonEmptyTrimmed(parts) == head + NonEmptyTrimmed(rest);
      assert Elems(head + NonEmptyTrimmed(rest)) == Elems(head) + Elems(NonEmptyTrimmed(rest));
    }
  }

  lemma FactTells(ev: MatchEvent, ts: int)
    ensures TellsOf(FactOf(ev, ts), ev, ts)
  {
    NonEmptyTrimmedElems(ev.keywords);
    NonEmptyTrimmedElems(ev.domains);
    hide Lower, Trim, Join, NonEmptyTrimmed;
    assert IsCsvList(SortedUnique(NonEmptyTrimmed(ev.keywords)), ev.keywords);
    assert IsCsvList(SortedUnique(NonEmptyTrimmed(ev.domains)), ev.domains);
  }

  /** Splitting a list column at its commas gives the entries back. */
  lemma ColumnReadsBack(column: string, parts: seq<string>)
    requires IsCsvOf(column, parts)
    requires forall p :: p in parts ==> CSV_SEP !in Lower(Trim(p))
    requires exists p :: p in parts && Lower(Trim(p)) != ""
    ensures IsCsvList(Split(column, CSV_SEP), parts)
  {
    hide Lower, Trim;
    var list: seq<string> :| IsCsvList(list, parts) && column == Join(list, CSV_SEP);
    forall x | x in list ensures CSV_SEP !in x { assert x in Elems(list); }
    var p :| p in parts && Lower(Trim(p)) != "";
    assert Lower(Trim(p)) in Elems(list);
    SplitJoin(list, CSV_SEP);
  }

  // ---------- statement counts ----------

  /** Entries of a list that differ from `a`. */
  function Others(to: seq<string>, a: string): nat {
    if to == [] then 0 else Others(to[..|to| - 1], a) + if to[|to| - 1] == a then 0 else 1
  }

  /** Ordered pairs of different brands. */
  function PairStatements(from: seq<string>, to: seq<string>): nat {
    if from == [] then 0 else PairStatements(from[..|from| - 1], to) + Others(to, from[|from| - 1])
  }

  lemma {:induction false} OthersGrow(to: seq<string>, a: string, j: nat)
    requires j <= |to|
    ensures Others(to[..j], a) <= Others(to, a)
    decreases |to|
  {
    if j < |to| {
      assert to[..|to| - 1][..j] == to[..j];
      OthersGrow(to[..|to| - 1], a, j);
    } else {
      assert to[..j] == to;
    }
  }

  lemma {:induction false} PairStatementsGrow(from: seq<string>, to: seq<string>, i: nat)
    requires i <= |from|
    ensures PairStatements(from[..i], to) <= PairStatements(from, to)
    decreases |from|
  {
    if i < |from| {
      assert from[..|from| - 1][..i] == from[..i];
      PairStatementsGrow(from[..|from| - 1], to, i);
    } else {
      assert from[..i] == from;
    }
  }

  lemma NothingLinked(a: string, brands: seq<string>)
    ensures CrossEdges([a], brands[..0]) == {} && Others(brands[..0], a) == 0
  {
  }

  lemma LinkedNext(a: string, brands: seq<string>, j: nat)
    requires j < |brands|
    ensures CrossEdges([a], brands[..j + 1])
      == CrossEdges([a], brands[..j]) + if a == brands[j] then {} else {(a, brands[j])}
    ensures Others(brands[..j + 1], a) == Others(brands[..j], a) + if a == brands[j] then 0 else 1
  {
    assert brands[..j + 1] == brands[..j] + [brands[j]] && brands[..j + 1][..j] == brands[..j];
  }

  lemma PairsSoFar(brands: seq<string>, i: nat)
    requires i < |brands|
    ensures PairStatements(brands[..i + 1], brands) == PairStatements(brands[..i], brands) + Others(brands, brands[i])
    ensures PairStatements(brands[..i + 1], brands) <= PairStatements(brands, brands)
  {
    assert brands[..i + 1][..i] == brands[..i];
    PairStatementsGrow(brands, brands, i + 1);
  }

  /** Begin, count, link, refresh, bump the event counter, commit. */
  function CooccurrenceStatements(brands: seq<string>): nat {
    if |brands| < 2 then 0 else 2 * |brands| + PairStatements(brands, brands) + 3
  }

  function SeedStatements(raws: seq<string>, floor: nat): nat {
    if raws == [] || floor == 0 then 0
    else SeedStatements(raws[..|raws| - 1], floor) + if SeedBrand(raws[|raws| - 1]) == "" then 0 else 1
  }

  lemma {:induction false} SeedStatementsGrow(raws: seq<string>, floor: nat, i: nat)
    requires i <= |raws|
    ensures SeedStatements(raws[..i], floor) <= SeedStatements(raws, floor)
    decreases |raws|
  {
    if i < |raws| {
      assert raws[..|raws| - 1][..i] == raws[..i];
      SeedStatementsGrow(raws[..|raws| - 1], floor, i);
    } else {
      assert raws[..i] == raws;
    }
  }

  /** Reads of the burn-in gates. */
  function GateReads(secs: nat, events: nat): nat {
    if secs == 0 && events == 0 then 0 else if events == 0 then 1 else 2
  }

  /** Begin, mute key, fact when the key is new, commit. */
  function CaptureStatements(t: Tables, brands: seq<string>): nat {
    if Join(brands, FIELD_SEP) in t.coalitions then 3 else 4
  }

  class NoveltyStore {
    var coalitions: map<string, int>
    var hosts: map<(string, string), int>
    var degree: map<string, Degree>
    var edges: set<(string, string)>
    var multiEvents: nat
    const startedAt: i64
    var certs: map<string, Fact>

    /** Which of the coming SQL statements succeed; all do once the script runs out. */
    var script: seq<bool>

    function View(): Tables
      reads this
    {
      Tables(coalitions, hosts, degree, edges, multiEvents, startedAt, certs)
    }

    /** Open a new database. */
    constructor (now: i64, script: seq<bool>)
      ensures View() == Fresh(now) && this.script == script
    {
      coalitions, hosts, degree, edges, multiEvents := map[], map[], map[], {}, 0;
      startedAt, certs, this.script := now, map[], script;
    }

    /** One statement: it fails as a whole or takes effect as a whole. */
    method Exec() returns (ok: bool)
      modifies this`script
      ensures Ran(old(script), script, 1, ok)
    {
      if script == [] {
        ok := true;
      } else {
        ok, script := script[0], script[1..];
      }
    }

    method EventCount(b: string) returns (r: Result<u32>)
      modifies this`script
      ensures r.Ok? ==> r.value == ClampU32(EventsIn(degree, b))
      ensures Ran(old(script), script, 1, r.Ok?)
    {
      var ok := Exec();
      if !ok { return Err; }
      return Ok(ClampU32(EventsIn(degree, b)));
    }

    method PartnerDegree(b: string) returns (r: Result<u32>)
      modifies this`script
      ensures r.Ok? ==> r.value == ClampU32(PartnersIn(degree, b))
      ensures Ran(old(script), script, 1, r.Ok?)
    {
      var ok := Exec();
      if !ok { return Err; }
      return Ok(ClampU32(PartnersIn(degree, b)));
    }

    method IsCalibrating(now: i64, secs: nat, events: nat) returns (r: Result<bool>)
      modifies this`script
      ensures r.Ok? ==> r.value == Calibrating(startedAt, multiEvents, now, secs, events)
      ensures r.Ok? ==> (r.value <==>
        (secs > 0 && now < startedAt + Min(secs, I64_MAX)) || (events > 0 && multiEvents < events))
      ensures Ran(old(script), script, GateReads(secs, events), r.Ok?)
    {
      hide Good, Rest, Ran, Underway;
      ghost var all := GateReads(secs, events);
      Starting(script);
      if secs == 0 && events == 0 {
        Finishing(script, script, 0);
        return Ok(false);
      }
      var ok := Exec();
      GoingOn(old(script), old(script), script, 0, 1, all, ok);
      if !ok { return Err; }
      var timeOk := secs == 0 || SaturatingSub(now, startedAt) >= Min(secs, I64_MAX);
      var eventsOk := true;
      if events != 0 {
        ghost var mid := script;
        ok := Exec();
        GoingOn(old(script), mid, script, 1, 1, all, ok);
        if !ok { return Err; }
        eventsOk := multiEvents >= events;
      }
      Finishing(old(script), script, all);
      return Ok(!(timeOk && eventsOk));
    }

    /** `done` names were counted before the first failing statement. */
    method RecordAppearances(brands: seq<string>) returns (ok: bool, ghost done: nat)
      modifies this`degree, this`script
      ensures done <= |brands| && (ok <==> done == |brands|)
      ensures degree == Bumped(old(degree), brands[..done])
      ensures Ran(old(script), script, |brands|, ok)
    {
      hide Good, Rest, Ran, Underway;
      done := 0;
      Starting(script);
      for i := 0 to |brands|
        invariant done == i
        invariant degree == Bumped(old(degree), brands[..i])
        invariant Underway(old(script), script, i)
      {
        ghost var mid := script;
        ok := Exec();
        GoingOn(old(script), mid, script, i, 1, |brands|, ok);
        if !ok { return; }
        var b := brands[i];
        assert brands[..i + 1][..i] == brands[..i];
        degree := degree[b := Degree(EventsIn(degree, b) + 1, PartnersIn(degree, b))];
        done := i + 1;
      }
      Finishing(old(script), script, |brands|);
      ok := true;
    }

    method InsertPartners(brands: seq<string>) returns (ok: bool)
      modifies this`edges, this`script
      ensures ok ==> edges == old(edges) + CrossEdges(brands, brands)
      ensures Ran(old(script), script, PairStatements(brands, brands), ok)
    {
      hide Good, Rest, Ran, Underway;
      ghost var all := PairStatements(brands, brands);
      Starting(script);
      for i := 0 to |brands|
        invariant edges == old(edges) + CrossEdges(brands[..i], brands)
        invariant Underway(old(script), script, PairStatements(brands[..i], brands))
      {
        PairsSoFar(brands, i);
        ghost var mid := script;
        ok := LinkPartners(brands[i], brands);
        GoingOn(old(script), mid, script, PairStatements(brands[..i], brands), Others(brands, brands[i]), all, ok);
        if !ok { return; }
        assert brands[..i + 1] == brands[..i] + [brands[i]];
      }
      assert brands[..|brands|] == brands;
      Finishing(old(script), script, all);
      ok := true;
    }

    method LinkPartners(a: string, brands: seq<string>) returns (ok: bool)
      modifies this`edges, this`script
      ensures ok ==> edges == old(edges) + CrossEdges([a], brands)
      ensures Ran(old(script), script, Others(brands, a), ok)
    {
      hide Good, Rest, Ran, Underway, CrossEdges, Others;
      Starting(script);
      NothingLinked(a, brands);
      for j := 0 to |brands|
        invariant edges == old(edges) + CrossEdges([a], brands[..j])
        invariant Underway(old(script), script, Others(brands[..j], a))
      {
        var b := brands[j];
        LinkedNext(a, brands, j);
        if a == b { continue; }
        OthersGrow(brands, a, j + 1);
        ghost var mid := script;
        ok := Exec();
        GoingOn(old(script), mid, script, Others(brands[..j], a), 1, Others(brands, a), ok);
        if !ok { return; }
        edges := edges + {(a, b)};
      }
      assert brands[..|brands|] == brands;
      Finishing(old(script), script, Others(brands, a));
      ok := true;
    }

    method RefreshPartnerCounts(brands: seq<string>) returns (ok: bool)
      modifies this`degree, this`script
      ensures ok ==> degree == Recounted(old(degree), edges, brands)
      ensures Ran(old(script), script, |brands|, ok)
    {
      hide Good, Rest, Ran, Underway;
      Starting(script);
      for i := 0 to |brands|
        invariant degree == Recounted(old(degree), edges, brands[..i])
        invariant Underway(old(script), script, i)
      {
        ghost var mid := script;
        ok := Exec();
        GoingOn(old(script), mid, script, i, 1, |brands|, ok);
        if !ok { return; }
        var b := brands[i];
        if b in degree {
          degree := degree[b := degree[b].(partners := Max(degree[b].partners, |Neighbours(edges, b)|))];
        }
        assert brands[..i + 1][..i] == brands[..i];
      }
      assert brands[..|brands|] == brands;
      Finishing(old(script), script, |brands|);
      ok := true;
    }

    /** All the statements of one co-occurrence, or none of them. */
    method RecordCooccurrence(brands: seq<string>) returns (ok: bool)
      modifies this`degree, this`edges, this`multiEvents, this`script
      ensures View() == if ok then Apply(old(View()), Cooccur(brands)) else old(View())
      ensures Ran(old(script), script, CooccurrenceStatements(brands), ok)
    {
      hide Good, Rest, Ran, Underway;
      ghost var all := CooccurrenceStatements(brands);
      Starting(script);
      if |brands| < 2 {
        Finishing(script, script, 0);
        return true;
      }
      ok := Exec(); // begin
      GoingOn(old(script), old(script), script, 0, 1, all, ok);
      if !ok { return; }
      var savedDegree, savedEdges, savedEvents := degree, edges, multiEvents;
      ghost var begun := script;
      ok := CountAndLink(brands);
      GoingOn(old(script), begun, script, 1, all - 2, all, ok);
      if ok {
        ghost var linked := script;
        ok := Exec(); // commit
        GoingOn(old(script), linked, script, all - 1, 1, all, ok);
      }
      if ok {
        Finishing(old(script), script, all);
      } else {
        degree, edges, multiEvents := savedDegree, savedEdges, savedEvents; // roll back
      }
    }

    method CountAndLink(brands: seq<string>) returns (ok: bool)
      requires |brands| >= 2
      modifies this`degree, this`edges, this`multiEvents, this`script
      ensures ok ==> View() == Apply(old(View()), Cooccur(brands))
      ensures Ran(old(script), script, CooccurrenceStatements(brands) - 2, ok)
    {
      hide Good, Rest, Ran, Underway;
      ghost var all, n := CooccurrenceStatements(brands) - 2, |brands|;
      ghost var done;
      Starting(script);
      ok, done := RecordAppearances(brands);
      GoingOn(old(script), old(script), script, 0, n, all, ok);
      if !ok { return; }
      assert brands[..|brands|] == brands;
      ghost var counted := script;
      ok := InsertPartners(brands);
      GoingOn(old(script), counted, script, n, PairStatements(brands, brands), all, ok);
      if !ok { return; }
      ghost var linked := script;
      ok := RefreshPartnerCounts(brands);
      GoingOn(old(script), linked, script, all - n - 1, n, all, ok);
      if !ok { return; }
      ghost var refreshed := script;
      ok := Exec();
      GoingOn(old(script), refreshed, script, all - 1, 1, all, ok);
      if !ok { return; }
      multiEvents := multiEvents + 1;
      Finishing(old(script), script, all);
    }

    /** `done` names were seeded before the first failing statement. */
    method SeedDegreeFloor(raws: seq<string>, floor: nat) returns (ok: bool, ghost done: nat)
      modifies this`degree, this`script
      ensures done <= |raws| && (ok <==> done == |raws|)
      ensures degree == SeededAll(old(degree), raws[..done], floor)
      ensures Ran(old(script), script, SeedStatements(raws, floor), ok)
    {
      hide Good, Rest, Ran, Underway, SeededAll, SeedStatements, Seeded, SeedBrand;
      ghost var all := SeedStatements(raws, floor);
      Starting(script);
      NothingSeeded(degree, raws, floor);
      done := 0;
      if floor == 0 {
        SeedZero(degree, raws);
        assert raws[..|raws|] == raws;
        Finishing(script, script, 0);
        return true, |raws|;
      }
      for i := 0 to |raws|
        invariant done == i
        invariant degree == SeededAll(old(degree), raws[..i], floor)
        invariant Underway(old(script), script, SeedStatements(raws[..i], floor))
      {
        var brand := SeedBrand(raws[i]);
        SeedingNext(old(degree), raws, floor, i);
        if brand != "" {
          SeedStatementsGrow(raws, floor, i + 1);
          ghost var mid := script;
          ok := Exec();
          GoingOn(old(script), mid, script, SeedStatements(raws[..i], floor), 1, all, ok);
          if !ok { return; }
          degree := Seeded(degree, brand, floor);
        }
        done := i + 1;
      }
      assert raws[..|raws|] == raws;
      Finishing(old(script), script, all);
      ok := true;
    }

    /** True when the mute key is new. */
    method InsertCoalition(key: string, ts: int) returns (r: Result<bool>)
      modifies this`coalitions, this`script
      ensures View() == if r.Ok? then Apply(old(View()), Mute(key, ts)) else old(View())
      ensures r.Ok? ==> (r.value <==> key !in old(coalitions))
      ensures Ran(old(script), script, 1, r.Ok?)
    {
      var ok := Exec();
      if !ok { return Err; }
      r := Ok(key !in coalitions);
      coalitions := InsertOrIgnore(coalitions, key, ts);
    }

    method InsertHost(brand: string, host: string, ts: int) returns (r: Result<bool>)
      modifies this`hosts, this`script
      ensures hosts == if r.Ok? then InsertOrIgnore(old(hosts), (brand, host), ts) else old(hosts)
      ensures r.Ok? ==> (r.value <==> (brand, host) !in old(hosts))
      ensures Ran(old(script), script, 1, r.Ok?)
    {
      var ok := Exec();
      if !ok { return Err; }
      r := Ok((brand, host) !in hosts);
      hosts := InsertOrIgnore(hosts, (brand, host), ts);
    }

    /** Mute key and captured fact in one transaction: both, or neither. */
    method InsertMultiBrandCert(brands: seq<string>, ev: MatchEvent, ts: int) returns (r: Result<bool>)
      modifies this`coalitions, this`certs, this`script
      ensures r.Ok? ==> View() == Apply(old(View()), Capture(brands, FactOf(ev, ts), ts))
      ensures r.Ok? ==> (r.value <==> Join(brands, FIELD_SEP) !in old(coalitions))
      ensures r.Ok? && r.value ==>
        Join(brands, CSV_SEP) in certs && TellsOf(certs[Join(brands, CSV_SEP)], ev, ts)
        && Join(brands, FIELD_SEP) in coalitions && coalitions[Join(brands, FIELD_SEP)] == ts
      ensures r.Err? ==> View() == old(View())
      ensures Ran(old(script), script, CaptureStatements(old(View()), brands), r.Ok?, CaptureConflict(old(View()), brands))
    {
      hide Good, Rest, Ran, Underway, Apply, FactOf, CaptureConflict, Join, TellsOf;
      ghost var all, conflict := CaptureStatements(View(), brands), CaptureConflict(View(), brands);
      Starting(script);
      var ok := Exec(); // begin
      GoingOn(old(script), old(script), script, 0, 1, all, ok);
      if !ok {
        FailedEarly(old(script), script, all, conflict);
        return Err;
      }
      var savedCoalitions, savedCerts := coalitions, certs;
      ghost var begun := script;
      r := InsertKeyAndFact(brands, ev, ts);
      GoingOn(old(script), begun, script, 1, all - 2, all, r.Ok?, conflict);
      if r.Ok? {
        ghost var inserted := script;
        ok := Exec(); // commit
        GoingOn(old(script), inserted, script, all - 1, 1, all, ok);
        if ok {
          Finishing(old(script), script, all);
        } else {
          r := Err;
        }
      }
      if r.Err? {
        coalitions, certs := savedCoalitions, savedCerts; // roll back
      }
    }

    method InsertKeyAndFact(brands: seq<string>, ev: MatchEvent, ts: int) returns (r: Result<bool>)
      modifies this`coalitions, this`certs, this`script
      ensures r.Ok? ==> View() == Apply(old(View()), Capture(brands, FactOf(ev, ts), ts))
      ensures r.Ok? ==> !CaptureConflict(old(View()), brands)
      ensures r.Ok? ==> (r.value <==> Join(brands, FIELD_SEP) !in old(coalitions))
      ensures r.Ok? && r.value ==>
        Join(brands, CSV_SEP) in certs && TellsOf(certs[Join(brands, CSV_SEP)], ev, ts)
        && Join(brands, FIELD_SEP) in coalitions && coalitions[Join(brands, FIELD_SEP)] == ts
      ensures Ran(old(script), script, CaptureStatements(old(View()), brands) - 2, r.Ok?, CaptureConflict(old(View()), brands))
    {
      hide Good, Rest, Ran, Underway, TellsOf;
      ghost var all, conflict := CaptureStatements(View(), brands) - 2, CaptureConflict(View(), brands);
      var key := Join(brands, FIELD_SEP);
      Starting(script);
      var ok := Exec();
      GoingOn(old(script), old(script), script, 0, 1, all, ok);
      if !ok {
        FailedEarly(old(script), script, all, conflict);
        return Err;
      }
      if key in coalitions {
        Finishing(old(script), script, all);
        return Ok(false);
      }
      coalitions := coalitions[key := ts];
      ghost var muted := script;
      ok := Exec();
      GoingOn(old(script), muted, script, 1, 1, all, ok);
      if !ok {
        FailedEarly(old(script), script, all, conflict);
        return Err;
      }
      Finishing(old(script), script, all, conflict);
      var primary := Join(brands, CSV_SEP);
      if primary in certs { return Err; }
      certs := certs[primary := FactOf(ev, ts)];
      FactTells(ev, ts);
      return Ok(true);
    }
  }
}
