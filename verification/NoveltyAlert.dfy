/** One step of the novelty engine: count the brands of a match, strip the hubs with the
    just-updated counters, record a mute key and perhaps emit an alert. */
module NoveltyAlert {
  import opened Event
  import opened Faults
  import opened Text
  import opened Novelty

  datatype Policy = Policy(
    wantA: bool,
    wantB: bool,
    skipRoutine: bool,
    maxCoalitionLen: nat,
    maxSanCount: u32,
    maxPartnerDegree: u32,
    maxBrandDf: u32,
    calibrating: bool,
    calibrateSecs: nat,
    calibrateEvents: nat,
    emitCandidates: bool)

  datatype Alert =
    | TierA(coalition: seq<string>, event: MatchEvent)
    | TierB(brand: string, host: string, novelHosts: seq<string>, event: MatchEvent)

  datatype Stats = Stats(
    fullyIgnored: nat,
    alertsA: nat,
    alertsB: nat,
    inserted: nat,
    oversized: nat,
    megaSan: nat,
    highDf: nat,
    muted: nat)

  const NO_STATS := Stats(0, 0, 0, 0, 0, 0, 0, 0)

  const ROUTINE_LEFT: seq<string> := [
    "www", "mail", "autodiscover", "cpanel", "webmail", "webdisk", "cpcalendars", "cpcontacts",
    "ftp", "pop", "imap", "smtp", "ns1", "ns2", "mx", "m", "cdn", "static", "img", "images",
    "api", "app", "dev", "test", "qa", "staging", "sandbox", "sbx", "graphql", "mcpserver"]

  // ---------- pure readings of an event ----------

  function LowerAll(s: seq<string>): (r: seq<string>)
    ensures |r| == |s| && forall i :: 0 <= i < |s| ==> r[i] == Lower(s[i])
  {
    seq(|s|, i requires 0 <= i < |s| => Lower(s[i]))
  }

  /** Watchlist names of the event: lower case, unique, sorted. */
  function UniqueKeywords(ev: MatchEvent): (full: seq<string>)
    ensures StrictlySorted(full)
  {
    SortedUnique(LowerAll(ev.keywords))
  }

  /** The brand list is the sorted list of the lower-cased names, so it is the same for two events
      exactly when they name the same set of brands, whatever the order, case or repetition. */
  lemma BrandsAreASet(ev: MatchEvent, other: MatchEvent)
    ensures Elems(UniqueKeywords(ev)) == set k | k in ev.keywords :: Lower(k)
    ensures (set k | k in ev.keywords :: Lower(k)) == (set k | k in other.keywords :: Lower(k))
      <==> UniqueKeywords(ev) == UniqueKeywords(other)
  {
    LowerAllElems(ev.keywords);
    LowerAllElems(other.keywords);
    hide Lower;
    if Elems(UniqueKeywords(ev)) == Elems(UniqueKeywords(other)) {
      SortedIsCanonical(UniqueKeywords(ev), UniqueKeywords(other));
    }
  }

  lemma LowerAllElems(names: seq<string>)
    ensures Elems(LowerAll(names)) == set k | k in names :: Lower(k)
  {
    hide Lower;
    forall k | k in names ensures Lower(k) in LowerAll(names) {
      var i :| 0 <= i < |names| && names[i] == k;
      assert LowerAll(names)[i] == Lower(k);
    }
  }

  function AlertHost(d: string): string {
    StripPrefix(Lower(TrimEndChar(Trim(d), '.')), "*.")
  }

  function AlertHosts(domains: seq<string>): seq<string> {
    if domains == [] then []
    else (if AlertHost(domains[0]) == "" then [] else [AlertHost(domains[0])]) + AlertHosts(domains[1..])
  }

  function NormalizedHosts(ev: MatchEvent): (hosts: seq<string>)
    ensures StrictlySorted(hosts)
  {
    SortedUnique(AlertHosts(ev.domains))
  }

  function EffectiveSanCount(ev: MatchEvent): u32 {
    if ev.sanCount > 0 then ev.sanCount else ClampU32(|ev.domains|)
  }

  predicate IsRoutineHost(brand: string, host: string) {
    host == brand || host[..Min(IndexOf(host, '.'), |host|)] in ROUTINE_LEFT
  }

  /** The leftmost label of a host. */
  predicate IsFirstLabel(host: string, first: string) {
    '.' !in first && (host == first || first + "." <= host)
  }

  /** Routine are the brand's own host and the hosts under a routine first label. */
  lemma RoutineMeans(brand: string, host: string)
    ensures IsRoutineHost(brand, host) <==> host == brand || exists l :: l in ROUTINE_LEFT && IsFirstLabel(host, l)
  {
    var k := IndexOf(host, '.');
    assert host == host[..k] + host[k..];
    assert IsFirstLabel(host, host[..k]);
    forall l | IsFirstLabel(host, l) ensures l == host[..k] {
      assert host[..|l|] == l;
      IndexIs(host, '.', |l|);
    }
  }

  lemma {:induction false} AlertHostsAre(domains: seq<string>)
    ensures Elems(AlertHosts(domains)) == (set d | d in domains :: AlertHost(d)) - {""}
  {
    hide AlertHost;
    if domains != [] {
      var rest, host := domains[1..], AlertHost(domains[0]);
      AlertHostsAre(rest);
      assert domains == [domains[0]] + rest;
      assert (set d | d in domains :: AlertHost(d)) == {host} + set d | d in rest :: AlertHost(d);
      var head := if host == "" then [] else [host];
      assert AlertHosts(domains) == head + AlertHosts(rest);
      assert Elems(head + AlertHosts(rest)) == Elems(head) + Elems(AlertHosts(rest));
    }
  }

  /** The hosts of an event are its normalised names, the non-empty ones. */
  lemma HostOfEvent(ev: MatchEvent, host: string)
    ensures host in NormalizedHosts(ev) <==> host != "" && exists d :: d in ev.domains && AlertHost(d) == host
  {
    hide AlertHost;
    AlertHostsAre(ev.domains);
    hide SortedUnique, StrictlySorted, AlertHosts;
    assert host in NormalizedHosts(ev) <==> host in Elems(NormalizedHosts(ev));
  }

  // ---------- hub test ----------

  /** A brand that may not appear in a tier A coalition. A zero cap means no cap. */
  predicate IsHub(t: Tables, ignore: set<string>, p: Policy, b: string) {
    b in ignore
    || (p.maxBrandDf > 0 && EventsIn(t.degree, b) >= p.maxBrandDf)
    || (p.maxPartnerDegree > 0 && PartnersIn(t.degree, b) >= p.maxPartnerDegree)
  }

  function Strip(t: Tables, ignore: set<string>, p: Policy, full: seq<string>): (r: seq<string>)
    ensures forall b :: b in r <==> b in full && !IsHub(t, ignore, p, b)
    ensures StrictlySorted(full) ==> StrictlySorted(r)
  {
    if full == [] then []
    else
      var front, b := full[..|full| - 1], full[|full| - 1];
      assert full == front + [b];
      var kept := Strip(t, ignore, p, front);
      assert StrictlySorted(full) ==> forall x :: x in kept ==> Less(x, b);
      kept + if IsHub(t, ignore, p, b) then [] else [b]
  }

  function NotIgnored(full: seq<string>, ignore: set<string>): seq<string> {
    if full == [] then []
    else
      var b := full[|full| - 1];
      NotIgnored(full[..|full| - 1], ignore) + if b in ignore then [] else [b]
  }

  /** With both caps off, only the ignore set strips, and the final sort changes nothing. */
  lemma StripWithoutCaps(t: Tables, ignore: set<string>, p: Policy, full: seq<string>)
    requires StrictlySorted(full) && p.maxPartnerDegree == 0 && p.maxBrandDf == 0
    ensures SortedUnique(NotIgnored(full, ignore)) == Strip(t, ignore, p, full)
  {
    NotIgnoredIsStrip(t, ignore, p, full);
    SortedIsCanonical(SortedUnique(NotIgnored(full, ignore)), NotIgnored(full, ignore));
  }

  lemma {:induction false} NotIgnoredIsStrip(t: Tables, ignore: set<string>, p: Policy, full: seq<string>)
    requires p.maxPartnerDegree == 0 && p.maxBrandDf == 0
    ensures NotIgnored(full, ignore) == Strip(t, ignore, p, full)
  {
    if full != [] { NotIgnoredIsStrip(t, ignore, p, full[..|full| - 1]); }
  }

  // ---------- the effects of one step ----------

  function RecordEffect(full: seq<string>): seq<Effect> {
    if |full| >= 2 then [Cooccur(full)] else if |full| == 1 then [Appear(full)] else []
  }

  predicate PassesSanGate(p: Policy, ev: MatchEvent) {
    p.maxSanCount == 0 || EffectiveSanCount(ev) <= p.maxSanCount
  }

  predicate WantEmit(p: Policy, brands: seq<string>, ev: MatchEvent) {
    p.wantA && |brands| <= p.maxCoalitionLen && PassesSanGate(p, ev) && !p.calibrating
  }

  /** The mute key: the stripped coalition, or the full one when stripping left too little. */
  function KeyBrands(full: seq<string>, brands: seq<string>): seq<string> {
    if |brands| >= 2 then brands else if |full| >= 2 then full else []
  }

  function KeyEffect(p: Policy, full: seq<string>, brands: seq<string>, ev: MatchEvent): seq<Effect> {
    if KeyBrands(full, brands) == [] then []
    else if |brands| >= 2 && WantEmit(p, brands, ev) then [Capture(brands, FactOf(ev, ev.seen), ev.seen)]
    else [Mute(Join(KeyBrands(full, brands), FIELD_SEP), ev.seen)]
  }

  function HostPairs(brands: seq<string>, hosts: seq<string>): seq<(string, string)> {
    if brands == [] then []
    else HostPairs(brands[..|brands| - 1], hosts) + HostRow(brands[|brands| - 1], hosts)
  }

  function HostRow(brand: string, hosts: seq<string>): (r: seq<(string, string)>)
    ensures |r| == |hosts|
  {
    seq(|hosts|, i requires 0 <= i < |hosts| => (brand, hosts[i]))
  }

  function HostEffects(pairs: seq<(string, string)>, ts: int): (r: seq<Effect>)
    ensures |r| == |pairs|
  {
    seq(|pairs|, i requires 0 <= i < |pairs| => Host(pairs[i].0, pairs[i].1, ts))
  }

  function HostsWith(hosts: map<(string, string), int>, pairs: seq<(string, string)>, ts: int):
    map<(string, string), int>
  {
    if pairs == [] then hosts
    else InsertOrIgnore(HostsWith(hosts, pairs[..|pairs| - 1], ts), pairs[|pairs| - 1], ts)
  }

  /** What follows the counting: the mute key, then the hosts when tier B is on. */
  function Tail(p: Policy, full: seq<string>, brands: seq<string>, ev: MatchEvent): seq<Effect> {
    KeyEffect(p, full, brands, ev) + HostEffects(TailPairs(p, brands, ev), ev.seen)
  }

  function TailPairs(p: Policy, brands: seq<string>, ev: MatchEvent): seq<(string, string)> {
    if p.wantB then HostPairs(brands, NormalizedHosts(ev)) else []
  }

  function Counted(t: Tables, full: seq<string>): Tables { ApplyAll(t, RecordEffect(full)) }

  function Stripped(t: Tables, ignore: set<string>, p: Policy, ev: MatchEvent): seq<string> {
    var full := UniqueKeywords(ev);
    Strip(Counted(t, full), ignore, p, full)
  }

  /** Everything one undisturbed step commits, in order. */
  function Plan(t: Tables, ignore: set<string>, p: Policy, ev: MatchEvent): seq<Effect> {
    var full := UniqueKeywords(ev);
    RecordEffect(full) + Tail(p, full, Stripped(t, ignore, p, ev), ev)
  }

  /** A step completes, or fails after committing a prefix of its plan. */
  datatype Fate = Done | Failed(committed: nat)

  function Committed(plan: seq<Effect>, fate: Fate): seq<Effect> {
    match fate
    case Done => plan
    case Failed(k) => plan[..Min(k, |plan|)]
  }

  function After(t: Tables, ignore: set<string>, p: Policy, ev: MatchEvent, fate: Fate): Tables {
    ApplyAll(t, Committed(Plan(t, ignore, p, ev), fate))
  }

  // ---------- the answer of one step ----------

  predicate IsNewKey(t: Tables, key: seq<string>) { Join(key, FIELD_SEP) !in t.coalitions }

  function NovelHosts(known: map<(string, string), int>, p: Policy, brand: string, hosts: seq<string>): seq<string> {
    if hosts == [] then []
    else
      var h := hosts[|hosts| - 1];
      NovelHosts(known, p, brand, hosts[..|hosts| - 1])
      + if (brand, h) in known || (p.skipRoutine && IsRoutineHost(brand, h)) then [] else [h]
  }

  /** The hosts a tier B alert lists: those not seen with the brand before and, if asked, not routine. */
  predicate IsNovel(known: map<(string, string), int>, p: Policy, brand: string, h: string) {
    (brand, h) !in known && !(p.skipRoutine && IsRoutineHost(brand, h))
  }

  lemma {:induction false} NovelHostsAre(known: map<(string, string), int>, p: Policy, brand: string, hosts: seq<string>)
    requires StrictlySorted(hosts)
    ensures StrictlySorted(NovelHosts(known, p, brand, hosts))
    ensures forall h :: h in NovelHosts(known, p, brand, hosts) <==> h in hosts && IsNovel(known, p, brand, h)
  {
    hide IsRoutineHost;
    if hosts != [] {
      var front, last := hosts[..|hosts| - 1], hosts[|hosts| - 1];
      assert hosts == front + [last];
      NovelHostsAre(known, p, brand, front);
      assert forall h :: h in front ==> Less(h, last);
    }
  }

  function Alerts(t: Tables, ignore: set<string>, p: Policy, ev: MatchEvent): seq<Alert> {
    AlertsFor(t, p, ev, Stripped(t, ignore, p, ev))
  }

  function AlertsFor(t: Tables, p: Policy, ev: MatchEvent, brands: seq<string>): seq<Alert> {
    if |brands| >= 2 then
      if WantEmit(p, brands, ev) && IsNewKey(t, brands) then [TierA(brands, ev)] else []
    else if |brands| == 1 && p.wantB then
      var novel := NovelHosts(t.hosts, p, brands[0], NormalizedHosts(ev));
      if novel == [] then [] else [TierB(brands[0], novel[0], novel, ev)]
    else []
  }

  /** Counters of one step, each from its own condition. */
  function StatsOf(t: Tables, ignore: set<string>, p: Policy, ev: MatchEvent): Stats {
    StatsFor(t, p, ev, UniqueKeywords(ev), Stripped(t, ignore, p, ev))
  }

  function StatsFor(t: Tables, p: Policy, ev: MatchEvent, full: seq<string>, brands: seq<string>): Stats {
    var key := KeyBrands(full, brands);
    var isNew := key != [] && IsNewKey(t, key);
    var pair := |brands| >= 2;
    var fits := |brands| <= p.maxCoalitionLen;
    Stats(
      fullyIgnored := if brands == [] && |full| < 2 then 1 else 0,
      alertsA := if pair && isNew && WantEmit(p, brands, ev) then 1 else 0,
      alertsB := if !pair && AlertsFor(t, p, ev, brands) != [] then 1 else 0,
      inserted := if isNew then 1 else 0,
      oversized := if pair && isNew && p.wantA && !fits then 1 else 0,
      megaSan := if pair && isNew && p.wantA && fits && !PassesSanGate(p, ev) then 1 else 0,
      highDf := if !pair && isNew then 1 else 0,
      muted := if pair && isNew && p.wantA && fits && PassesSanGate(p, ev) && p.calibrating then 1 else 0)
  }

  predicate PlanConflict(t: Tables, ignore: set<string>, p: Policy, ev: MatchEvent) {
    BrandsConflict(t, p, ev, Stripped(t, ignore, p, ev))
  }

  predicate BrandsConflict(t: Tables, p: Policy, ev: MatchEvent, brands: seq<string>) {
    |brands| >= 2 && WantEmit(p, brands, ev) && CaptureConflict(t, brands)
  }

  /** Funnel conservation for one step: a new key is accounted for exactly once, unless tier A
      is off and the key is a stripped coalition. */
  lemma FunnelConserved(t: Tables, ignore: set<string>, p: Policy, ev: MatchEvent)
    ensures var s := StatsOf(t, ignore, p, ev);
      s.inserted == s.alertsA + s.oversized + s.megaSan + s.muted + s.highDf
      <==> p.wantA || s.inserted == 0 || |Stripped(t, ignore, p, ev)| < 2
  {
  }

  // ---------- how many statements a step takes ----------

  function RecordStatements(full: seq<string>): nat {
    if |full| >= 2 then CooccurrenceStatements(full) else |full|
  }

  /** Counters read to decide one brand. */
  function BrandReads(t: Tables, ignore: set<string>, p: Policy, b: string): nat {
    if b in ignore then 0
    else if p.maxBrandDf > 0 && EventsIn(t.degree, b) >= p.maxBrandDf then 1
    else (if p.maxBrandDf > 0 then 1 else 0) + (if p.maxPartnerDegree > 0 then 1 else 0)
  }

  function HubReads(t: Tables, ignore: set<string>, p: Policy, full: seq<string>): nat {
    if full == [] || (p.maxPartnerDegree == 0 && p.maxBrandDf == 0) then 0
    else HubReads(t, ignore, p, full[..|full| - 1]) + BrandReads(t, ignore, p, full[|full| - 1])
  }

  lemma {:induction false} HubReadsGrow(t: Tables, ignore: set<string>, p: Policy, full: seq<string>, i: nat)
    requires i <= |full|
    ensures HubReads(t, ignore, p, full[..i]) <= HubReads(t, ignore, p, full)
    decreases |full|
  {
    if i < |full| {
      assert full[..|full| - 1][..i] == full[..i];
      HubReadsGrow(t, ignore, p, full[..|full| - 1], i);
    } else {
      assert full[..i] == full;
    }
  }

  lemma HubReadsSoFar(t: Tables, ignore: set<string>, p: Policy, full: seq<string>, i: nat)
    requires i < |full| && (p.maxPartnerDegree > 0 || p.maxBrandDf > 0)
    ensures HubReads(t, ignore, p, full[..i + 1]) == HubReads(t, ignore, p, full[..i]) + BrandReads(t, ignore, p, full[i])
    ensures HubReads(t, ignore, p, full[..i + 1]) <= HubReads(t, ignore, p, full)
  {
    assert full[..i + 1][..i] == full[..i];
    HubReadsGrow(t, ignore, p, full, i + 1);
  }

  /** The learning feed reads both counters of every brand. */
  function FeedReads(p: Policy, full: seq<string>): nat {
    if p.emitCandidates then 2 * |full| else 0
  }

  /** A new coalition within the size and SAN gates goes to the learning feed, alerted or muted. */
  predicate FeedsCoalition(t: Tables, p: Policy, ev: MatchEvent, brands: seq<string>) {
    IsNewKey(t, brands) && p.wantA && |brands| <= p.maxCoalitionLen && PassesSanGate(p, ev)
  }

  function KeyStatements(t: Tables, p: Policy, ev: MatchEvent, full: seq<string>, brands: seq<string>): nat {
    if KeyBrands(full, brands) == [] then 0
    else if |brands| >= 2 && WantEmit(p, brands, ev) then CaptureStatements(t, brands)
    else 1
  }

  /** What follows the key: host rows, and the counters of the learning feed. */
  function LaterStatements(t: Tables, p: Policy, ev: MatchEvent, full: seq<string>, brands: seq<string>): nat {
    |TailPairs(p, brands, ev)|
    + if |brands| >= 2 then if FeedsCoalition(t, p, ev, brands) then FeedReads(p, full) else 0
      else if |full| >= 2 && IsNewKey(t, full) then FeedReads(p, full) else 0
  }

  /** The statements up to the key's commit, and those of the whole step. */
  function StatementsToKey(t: Tables, ignore: set<string>, p: Policy, ev: MatchEvent): nat {
    var full := UniqueKeywords(ev);
    RecordStatements(full) + HubReads(Counted(t, full), ignore, p, full)
    + KeyStatements(t, p, ev, full, Stripped(t, ignore, p, ev))
  }

  function StepStatements(t: Tables, ignore: set<string>, p: Policy, ev: MatchEvent): nat {
    StatementsToKey(t, ignore, p, ev) + LaterStatements(t, p, ev, UniqueKeywords(ev), Stripped(t, ignore, p, ev))
  }

  /** How a step fares under a script: it completes exactly when all its statements succeed, and a
      coalition commits its key exactly when the statements up to that commit succeed. */
  predicate Fares(t: Tables, ignore: set<string>, p: Policy, ev: MatchEvent, script: seq<bool>, fate: Fate) {
    var blocked := PlanConflict(t, ignore, p, ev);
    && (fate.Done? <==> Good(script, StepStatements(t, ignore, p, ev)) && !blocked)
    && (|Stripped(t, ignore, p, ev)| >= 2 ==>
      (Reached(fate, 2) <==> Good(script, StatementsToKey(t, ignore, p, ev)) && !blocked))
  }

  /** At least `k` effects were committed. */
  predicate Reached(fate: Fate, k: nat) { fate.Done? || fate.committed >= k }

  // ---------- the step as it runs ----------

  /** Whether the counters make a brand a hub, read column by column. */
  method IsLearnedHub(store: NoveltyStore, b: string, ignore: set<string>, p: Policy) returns (r: Result<bool>)
    requires p.maxPartnerDegree > 0 || p.maxBrandDf > 0
    modifies store`script
    ensures r.Ok? ==> (r.value <==> IsHub(store.View(), ignore, p, b))
    ensures Ran(old(store.script), store.script, BrandReads(store.View(), ignore, p, b), r.Ok?)
  {
    hide Good, Rest, Ran, Underway;
    ghost var all := BrandReads(store.View(), ignore, p, b);
    Starting(store.script);
    if b in ignore {
      Finishing(store.script, store.script, 0);
      return Ok(true);
    }
    ghost var read := 0;
    if p.maxBrandDf > 0 {
      var events := store.EventCount(b);
      GoingOn(old(store.script), old(store.script), store.script, 0, 1, all, events.Ok?);
      if events.Err? { return Err; }
      read := 1;
      if events.value >= p.maxBrandDf {
        Finishing(old(store.script), store.script, 1);
        return Ok(true);
      }
    }
    if p.maxPartnerDegree > 0 {
      ghost var mid := store.script;
      var observed := store.PartnerDegree(b);
      GoingOn(old(store.script), mid, store.script, read, 1, all, observed.Ok?);
      if observed.Err? { return Err; }
      if observed.value >= p.maxPartnerDegree {
        Finishing(old(store.script), store.script, all);
        return Ok(true);
      }
    }
    Finishing(old(store.script), store.script, all);
    return Ok(false);
  }

  lemma NoHubReads(t: Tables, ignore: set<string>, p: Policy, full: seq<string>)
    requires p.maxPartnerDegree == 0 && p.maxBrandDf == 0
    ensures HubReads(t, ignore, p, full) == 0
  {
  }

  lemma StripNothing(t: Tables, ignore: set<string>, p: Policy, full: seq<string>)
    ensures Strip(t, ignore, p, full[..0]) == [] && HubReads(t, ignore, p, full[..0]) == 0
  {
  }

  lemma StripSoFar(t: Tables, ignore: set<string>, p: Policy, full: seq<string>, i: nat)
    requires i < |full|
    ensures Strip(t, ignore, p, full[..i + 1])
      == Strip(t, ignore, p, full[..i]) + if IsHub(t, ignore, p, full[i]) then [] else [full[i]]
  {
    assert full[..i + 1][..i] == full[..i];
  }

  method TierABrands(store: NoveltyStore, full: seq<string>, ignore: set<string>, p: Policy)
    returns (r: Result<seq<string>>)
    requires StrictlySorted(full)
    modifies store`script
    ensures r.Ok? ==> r.value == Strip(store.View(), ignore, p, full)
    ensures Ran(old(store.script), store.script, HubReads(store.View(), ignore, p, full), r.Ok?)
  {
    hide Good, Rest, Ran, Underway, IsHub, BrandReads, HubReads, StrictlySorted, Strip, NotIgnored, SortedUnique;
    ghost var t, all := store.View(), HubReads(store.View(), ignore, p, full);
    Starting(store.script);
    if p.maxPartnerDegree == 0 && p.maxBrandDf == 0 {
      StripWithoutCaps(store.View(), ignore, p, full);
      NoHubReads(t, ignore, p, full);
      Finishing(store.script, store.script, 0);
      return Ok(SortedUnique(NotIgnored(full, ignore)));
    }
    var out := [];
    StripNothing(t, ignore, p, full);
    for i := 0 to |full|
      invariant store.View() == t
      invariant out == Strip(t, ignore, p, full[..i])
      invariant Underway(old(store.script), store.script, HubReads(t, ignore, p, full[..i]))
    {
      StripSoFar(t, ignore, p, full, i);
      HubReadsSoFar(t, ignore, p, full, i);
      ghost var mid := store.script;
      var hub := IsLearnedHub(store, full[i], ignore, p);
      GoingOn(old(store.script), mid, store.script, HubReads(t, ignore, p, full[..i]), BrandReads(t, ignore, p, full[i]), all, hub.Ok?);
      if hub.Err? { return Err; }
      if hub.value { continue; }
      out := out + [full[i]];
    }
    assert full[..|full|] == full;
    Finishing(old(store.script), store.script, all);
    return Ok(out);
  }

  /** The learning feed reads both counters of every brand; only its failures matter here. */
  method MaybeCandidate(store: NoveltyStore, p: Policy, full: seq<string>) returns (ok: bool)
    modifies store`script
    ensures Ran(old(store.script), store.script, FeedReads(p, full), ok)
  {
    hide Good, Rest, Ran, Underway;
    ghost var all := FeedReads(p, full);
    Starting(store.script);
    if !p.emitCandidates {
      Finishing(store.script, store.script, 0);
      return true;
    }
    for i := 0 to |full|
      invariant Underway(old(store.script), store.script, 2 * i)
    {
      ghost var mid := store.script;
      var degree := store.PartnerDegree(full[i]);
      GoingOn(old(store.script), mid, store.script, 2 * i, 1, all, degree.Ok?);
      if degree.Err? { return false; }
      mid := store.script;
      var events := store.EventCount(full[i]);
      GoingOn(old(store.script), mid, store.script, 2 * i + 1, 1, all, events.Ok?);
      if events.Err? { return false; }
    }
    Finishing(old(store.script), store.script, all);
    return true;
  }

  /** Insert a row of hosts; `done` of them are in when a statement fails. */
  method InsertHosts(store: NoveltyStore, p: Policy, brand: string, hosts: seq<string>, ts: int)
    returns (ok: bool, novel: seq<string>, ghost done: nat)
    requires StrictlySorted(hosts)
    modifies store`hosts, store`script
    ensures done <= |hosts| && (ok ==> done == |hosts|)
    ensures store.hosts == HostsWith(old(store.hosts), HostRow(brand, hosts)[..done], ts)
    ensures ok ==> novel == NovelHosts(old(store.hosts), p, brand, hosts)
    ensures Ran(old(store.script), store.script, |hosts|, ok)
  {
    hide Good, Rest, Ran, Underway, StrictlySorted, HostsWith, InsertOrIgnore;
    ghost var row := HostRow(brand, hosts);
    novel, done := [], 0;
    HostsWithNothing(store.hosts, row, ts);
    Starting(store.script);
    for i := 0 to |hosts|
      invariant done == i
      invariant store.hosts == HostsWith(old(store.hosts), row[..i], ts)
      invariant novel == NovelHosts(old(store.hosts), p, brand, hosts[..i])
      invariant Underway(old(store.script), store.script, i)
    {
      var host := hosts[i];
      RowHostIsNew(old(store.hosts), brand, hosts, i, ts);
      ghost var mid := store.script;
      var added := store.InsertHost(brand, host, ts);
      GoingOn(old(store.script), mid, store.script, i, 1, |hosts|, added.Ok?);
      if added.Err? { return false, novel, i; }
      HostsWithNext(old(store.hosts), row, i, ts);
      assert hosts[..i + 1][..i] == hosts[..i];
      done := i + 1;
      if !added.value { continue; }
      if p.skipRoutine && IsRoutineHost(brand, host) { continue; }
      novel := novel + [host];
    }
    assert hosts[..|hosts|] == hosts;
    Finishing(old(store.script), store.script, |hosts|);
    ok := true;
  }

  /** Earlier hosts of the same row do not make a host known. */
  lemma RowHostIsNew(m: map<(string, string), int>, brand: string, hosts: seq<string>, i: nat, ts: int)
    requires StrictlySorted(hosts) && i < |hosts|
    ensures (brand, hosts[i]) in HostsWith(m, HostRow(brand, hosts)[..i], ts) <==> (brand, hosts[i]) in m
  {
    var earlier := HostRow(brand, hosts)[..i];
    HostsWithKeys(m, earlier, ts, (brand, hosts[i]));
    if (brand, hosts[i]) in earlier {
      var j :| 0 <= j < i && earlier[j] == (brand, hosts[i]);
      SortedHasNoDuplicates(hosts, i, j);
    }
  }

  lemma HostsWithNothing(m: map<(string, string), int>, pairs: seq<(string, string)>, ts: int)
    ensures HostsWith(m, pairs[..0], ts) == m
  {
  }

  lemma HostsWithNext(m: map<(string, string), int>, pairs: seq<(string, string)>, i: nat, ts: int)
    requires i < |pairs|
    ensures HostsWith(m, pairs[..i + 1], ts) == InsertOrIgnore(HostsWith(m, pairs[..i], ts), pairs[i], ts)
  {
    assert pairs[..i + 1][..i] == pairs[..i];
  }

  lemma {:induction false} HostsWithKeys(m: map<(string, string), int>, pairs: seq<(string, string)>, ts: int,
                                         pair: (string, string))
    ensures pair in HostsWith(m, pairs, ts) <==> pair in m || pair in pairs
  {
    if pairs != [] {
      assert pairs == pairs[..|pairs| - 1] + [pairs[|pairs| - 1]];
      HostsWithKeys(m, pairs[..|pairs| - 1], ts, pair);
    }
  }

  /** Insert every brand and host pair; `done` of them are in when a statement fails. */
  method InsertAllHosts(store: NoveltyStore, p: Policy, brands: seq<string>, hosts: seq<string>, ts: int)
    returns (ok: bool, ghost done: nat)
    requires StrictlySorted(hosts)
    modifies store`hosts, store`script
    ensures done <= |HostPairs(brands, hosts)| && (ok ==> done == |HostPairs(brands, hosts)|)
    ensures store.hosts == HostsWith(old(store.hosts), HostPairs(brands, hosts)[..done], ts)
    ensures Ran(old(store.script), store.script, |HostPairs(brands, hosts)|, ok)
  {
    hide Good, Rest, Ran, Underway, StrictlySorted, HostsWith;
    done := 0;
    Starting(store.script);
    HostsWithNothing(store.hosts, [], ts);
    assert brands[..0] == [] && HostPairs([], hosts) == [];
    for i := 0 to |brands|
      invariant done == |HostPairs(brands[..i], hosts)|
      invariant store.hosts == HostsWith(old(store.hosts), HostPairs(brands[..i], hosts), ts)
      invariant Underway(old(store.script), store.script, |HostPairs(brands[..i], hosts)|)
    {
      var novel; ghost var k, mid := 0, store.script;
      ok, novel, k := InsertHosts(store, p, brands[i], hosts, ts);
      HostPairsStep(old(store.hosts), brands, i, hosts, ts, k);
      GoingOn(old(store.script), mid, store.script, done, |hosts|, |HostPairs(brands, hosts)|, ok);
      done := done + k;
      if !ok { return; }
    }
    assert brands[..|brands|] == brands;
    ghost var pairs := HostPairs(brands, hosts);
    assert pairs[..done] == pairs;
    Finishing(old(store.script), store.script, |pairs|);
    ok := true;
  }

  /** Progress through the host pairs, one row at a time. */
  lemma HostPairsStep(m: map<(string, string), int>, brands: seq<string>, i: nat, hosts: seq<string>, ts: int, k: nat)
    requires i < |brands| && k <= |hosts|
    ensures var before := HostPairs(brands[..i], hosts);
      var pairs := HostPairs(brands, hosts);
      && |HostPairs(brands[..i + 1], hosts)| == |before| + |hosts| <= |pairs|
      && |before| + k <= |pairs|
      && HostsWith(HostsWith(m, before, ts), HostRow(brands[i], hosts)[..k], ts) == HostsWith(m, pairs[..|before| + k], ts)
      && (k == |hosts| ==> pairs[..|before| + k] == HostPairs(brands[..i + 1], hosts))
  {
    var before := HostPairs(brands[..i], hosts);
    var row := HostRow(brands[i], hosts);
    assert brands[..i + 1][..i] == brands[..i];
    HostPairsPrefix(brands, i + 1, hosts);
    HostsWithAppend(m, before, row[..k], ts);
    assert HostPairs(brands, hosts)[..|before| + k] == before + row[..k];
    if k == |hosts| { assert row[..k] == row; }
  }

  lemma HostPairsPrefix(brands: seq<string>, i: nat, hosts: seq<string>)
    requires i <= |brands|
    ensures HostPairs(brands[..i], hosts) <= HostPairs(brands, hosts)
    decreases |brands| - i
  {
    if i < |brands| {
      assert brands[..i + 1][..i] == brands[..i];
      HostPairsPrefix(brands, i + 1, hosts);
    } else {
      assert brands[..i] == brands;
    }
  }

  lemma HostsWithAppend(m: map<(string, string), int>, a: seq<(string, string)>, b: seq<(string, string)>, ts: int)
    ensures HostsWith(m, a + b, ts) == HostsWith(HostsWith(m, a, ts), b, ts)
  {
    if b == [] {
      assert a + b == a;
    } else {
      assert (a + b)[..|a + b| - 1] == a + b[..|b| - 1];
      HostsWithAppend(m, a, b[..|b| - 1], ts);
    }
  }

  lemma {:induction false} ApplyHosts(t: Tables, pairs: seq<(string, string)>, ts: int)
    ensures ApplyAll(t, HostEffects(pairs, ts)) == t.(hosts := HostsWith(t.hosts, pairs, ts))
  {
    if pairs != [] {
      var front := pairs[..|pairs| - 1];
      assert HostEffects(pairs, ts)[..|pairs| - 1] == HostEffects(front, ts);
      ApplyHosts(t, front, ts);
    }
  }

  /** The tables after the key and the first `done` host pairs. */
  lemma TailPrefix(t: Tables, p: Policy, full: seq<string>, brands: seq<string>, ev: MatchEvent, done: nat)
    requires done <= |TailPairs(p, brands, ev)|
    ensures var key := KeyEffect(p, full, brands, ev);
      var keyed := ApplyAll(t, key);
      && |key| + done <= |Tail(p, full, brands, ev)|
      && ApplyAll(t, Tail(p, full, brands, ev)[..|key| + done])
           == keyed.(hosts := HostsWith(keyed.hosts, TailPairs(p, brands, ev)[..done], ev.seen))
  {
    var key := KeyEffect(p, full, brands, ev);
    var pairs := TailPairs(p, brands, ev);
    assert Tail(p, full, brands, ev)[..|key| + done] == key + HostEffects(pairs[..done], ev.seen);
    ApplyAllAppend(t, key, HostEffects(pairs[..done], ev.seen));
    ApplyHosts(ApplyAll(t, key), pairs[..done], ev.seen);
  }

  /** Counting brands touches neither the mute keys, nor the facts, nor the hosts. */
  lemma RecordKeepsKeys(t: Tables, full: seq<string>)
    ensures var c := Counted(t, full);
      c.coalitions == t.coalitions && c.certs == t.certs && c.hosts == t.hosts && c.startedAt == t.startedAt
  {
    if full != [] { ApplyOne(t, RecordEffect(full)[0]); }
  }

  method RecordBrands(store: NoveltyStore, full: seq<string>) returns (ok: bool)
    modifies store`degree, store`edges, store`multiEvents, store`script
    ensures store.View() == if ok then Counted(old(store.View()), full) else old(store.View())
    ensures Ran(old(store.script), store.script, RecordStatements(full), ok)
  {
    hide Good, Rest, Ran, Underway, CooccurrenceStatements;
    ok := true;
    Starting(store.script);
    Finishing(store.script, store.script, 0);
    if |full| >= 2 {
      ok := store.RecordCooccurrence(full);
      ApplyOne(old(store.View()), Cooccur(full));
    } else if full != [] {
      ghost var done;
      ok, done := store.RecordAppearances(full);
      assert full[..|full|] == full && full[..0] == [];
      assert Bumped(old(store.degree), []) == old(store.degree);
      ApplyOne(old(store.View()), Appear(full));
    }
  }

  /** Insert the mute key, with the fact when the coalition may be emitted. */
  method InsertKey(store: NoveltyStore, p: Policy, full: seq<string>, brands: seq<string>, ev: MatchEvent)
    returns (r: Result<bool>)
    requires |brands| >= 2
    modifies store`coalitions, store`certs, store`script
    ensures store.View() ==
      if r.Ok? then ApplyAll(old(store.View()), KeyEffect(p, full, brands, ev)) else old(store.View())
    ensures r.Ok? ==> (r.value <==> IsNewKey(old(store.View()), brands))
    ensures Ran(old(store.script), store.script, KeyStatements(old(store.View()), p, ev, full, brands), r.Ok?,
                BrandsConflict(old(store.View()), p, ev, brands))
  {
    hide Good, Rest, Ran, CaptureConflict;
    if WantEmit(p, brands, ev) {
      r := store.InsertMultiBrandCert(brands, ev, ev.seen);
    } else {
      r := store.InsertCoalition(Join(brands, FIELD_SEP), ev.seen);
    }
    ApplyOne(old(store.View()), KeyEffect(p, full, brands, ev)[0]);
  }

  /** The drop reasons, tried in order, decide what a coalition turns into. */
  method Report(store: NoveltyStore, ghost t: Tables, p: Policy, ev: MatchEvent,
                full: seq<string>, brands: seq<string>, isNew: bool)
    returns (r: Result<(seq<Alert>, Stats)>)
    requires |brands| >= 2 && (isNew <==> IsNewKey(t, brands))
    modifies store`script
    ensures r.Ok? ==> r.value == (AlertsFor(t, p, ev, brands), StatsFor(t, p, ev, full, brands))
    ensures Ran(old(store.script), store.script, if FeedsCoalition(t, p, ev, brands) then FeedReads(p, full) else 0, r.Ok?)
  {
    hide Good, Rest, Ran, Underway;
    Starting(store.script);
    Finishing(store.script, store.script, 0);
    var stats := NO_STATS;
    var alerts := [];
    if isNew { stats := stats.(inserted := 1); }
    if isNew && p.wantA {
      if |brands| > p.maxCoalitionLen {
        stats := stats.(oversized := 1);
      } else if p.maxSanCount > 0 && EffectiveSanCount(ev) > p.maxSanCount {
        stats := stats.(megaSan := 1);
      } else if p.calibrating {
        stats := stats.(muted := 1);
        var ok := MaybeCandidate(store, p, full);
        if !ok { return Err; }
      } else {
        stats := stats.(alertsA := 1);
        var ok := MaybeCandidate(store, p, full);
        if !ok { return Err; }
        alerts := [TierA(brands, ev)];
      }
    }
    return Ok((alerts, stats));
  }

  /** Two or more brands are left after stripping. */
  method ProcessCoalition(store: NoveltyStore, p: Policy, ev: MatchEvent, full: seq<string>, brands: seq<string>)
    returns (r: Result<(seq<Alert>, Stats)>, ghost done: nat)
    requires |brands| >= 2
    modifies store`coalitions, store`certs, store`hosts, store`script
    ensures done <= |Tail(p, full, brands, ev)| && (r.Ok? ==> done == |Tail(p, full, brands, ev)|)
    ensures store.View() == ApplyAll(old(store.View()), Tail(p, full, brands, ev)[..done])
    ensures done >= 1 <==> KeyCommitted(old(store.View()), p, ev, full, brands, old(store.script))
    ensures r.Ok? ==>
      r.value == (AlertsFor(old(store.View()), p, ev, brands), StatsFor(old(store.View()), p, ev, full, brands))
    ensures Ran(old(store.script), store.script, TailStatements(old(store.View()), p, ev, full, brands), r.Ok?,
                BrandsConflict(old(store.View()), p, ev, brands))
  {
    hide Good, Rest, Ran, Underway, KeyStatements, BrandsConflict, Tail, AlertsFor, StatsFor, FeedsCoalition, FeedReads, KeyCommitted;
    ghost var t, all := store.View(), TailStatements(store.View(), p, ev, full, brands);
    ghost var n := KeyStatements(t, p, ev, full, brands) + |TailPairs(p, brands, ev)|;
    var isNew;
    Starting(store.script);
    isNew, done := InsertTail(store, p, ev, full, brands);
    GoingOn(old(store.script), old(store.script), store.script, 0, n, all, isNew.Ok?, BrandsConflict(t, p, ev, brands));
    if isNew.Err? { return Err, done; }
    ghost var mid := store.script;
    r := Report(store, t, p, ev, full, brands, isNew.value);
    GoingOn(old(store.script), mid, store.script, n, all - n, all, r.Ok?);
    if r.Ok? { Finishing(old(store.script), store.script, all); }
    NoConflict(old(store.script), mid, n, t, p, ev, brands);
  }

  /** A part that succeeded was not blocked. */
  lemma NoConflict(before: seq<bool>, after: seq<bool>, n: nat, t: Tables, p: Policy, ev: MatchEvent, brands: seq<string>)
    requires Ran(before, after, n, true, BrandsConflict(t, p, ev, brands))
    ensures !BrandsConflict(t, p, ev, brands)
  {
  }

  /** The statements up to the key succeed, and nothing blocks it. */
  predicate KeyCommitted(t: Tables, p: Policy, ev: MatchEvent, full: seq<string>, brands: seq<string>, script: seq<bool>) {
    Good(script, KeyStatements(t, p, ev, full, brands)) && !BrandsConflict(t, p, ev, brands)
  }

  function TailStatements(t: Tables, p: Policy, ev: MatchEvent, full: seq<string>, brands: seq<string>): nat {
    KeyStatements(t, p, ev, full, brands) + LaterStatements(t, p, ev, full, brands)
  }

  /** The statements of a coalition step: the key, then the host pairs. */
  method InsertTail(store: NoveltyStore, p: Policy, ev: MatchEvent, full: seq<string>, brands: seq<string>)
    returns (r: Result<bool>, ghost done: nat)
    requires |brands| >= 2
    modifies store`coalitions, store`certs, store`hosts, store`script
    ensures done <= |Tail(p, full, brands, ev)| && (r.Ok? ==> done == |Tail(p, full, brands, ev)|)
    ensures store.View() == ApplyAll(old(store.View()), Tail(p, full, brands, ev)[..done])
    ensures done >= 1 <==> KeyCommitted(old(store.View()), p, ev, full, brands, old(store.script))
    ensures r.Ok? ==> (r.value <==> IsNewKey(old(store.View()), brands))
    ensures Ran(old(store.script), store.script,
                KeyStatements(old(store.View()), p, ev, full, brands) + |TailPairs(p, brands, ev)|, r.Ok?,
                BrandsConflict(old(store.View()), p, ev, brands))
  {
    hide Good, Rest, Underway, KeyStatements, BrandsConflict, HostsWith, TailPairs, KeyEffect, Tail, ApplyAll, IsNewKey;
    ghost var t, n := store.View(), KeyStatements(store.View(), p, ev, full, brands);
    ghost var all := n + |TailPairs(p, brands, ev)|;
    Starting(store.script);
    r := InsertKey(store, p, full, brands, ev);
    GoingOn(old(store.script), old(store.script), store.script, 0, n, all, r.Ok?, BrandsConflict(t, p, ev, brands));
    TailOpens(t, p, full, brands, ev);
    if r.Err? { return Err, 0; }
    ghost var keyed := store.script;
    var ok; ghost var inserted;
    ok, inserted := InsertPairs(store, p, ev, brands);
    GoingOn(old(store.script), keyed, store.script, n, all - n, all, ok);
    TailPrefix(t, p, full, brands, ev, inserted);
    done := 1 + inserted;
    if ok { Finishing(old(store.script), store.script, all); } else { r := Err; }
  }

  lemma TailOpens(t: Tables, p: Policy, full: seq<string>, brands: seq<string>, ev: MatchEvent)
    ensures ApplyAll(t, Tail(p, full, brands, ev)[..0]) == t
    ensures |Tail(p, full, brands, ev)| == |KeyEffect(p, full, brands, ev)| + |TailPairs(p, brands, ev)|
    ensures |brands| >= 2 ==> |KeyEffect(p, full, brands, ev)| == 1
  {
    assert Tail(p, full, brands, ev)[..0] == [];
  }

  /** Host rows are only needed for tier B. */
  method InsertPairs(store: NoveltyStore, p: Policy, ev: MatchEvent, brands: seq<string>)
    returns (ok: bool, ghost done: nat)
    modifies store`hosts, store`script
    ensures done <= |TailPairs(p, brands, ev)| && (ok ==> done == |TailPairs(p, brands, ev)|)
    ensures store.hosts == HostsWith(old(store.hosts), TailPairs(p, brands, ev)[..done], ev.seen)
    ensures Ran(old(store.script), store.script, |TailPairs(p, brands, ev)|, ok)
  {
    hide Ran, Good, Rest, Underway, HostsWith, NormalizedHosts;
    ok, done := true, 0;
    Starting(store.script);
    Finishing(store.script, store.script, 0);
    HostsWithNothing(store.hosts, [], ev.seen);
    if p.wantB {
      ok, done := InsertAllHosts(store, p, brands, NormalizedHosts(ev), ev.seen);
    }
  }

  /** At most one brand is left after stripping. */
  method ProcessRemainder(store: NoveltyStore, p: Policy, ev: MatchEvent, full: seq<string>, brands: seq<string>)
    returns (r: Result<(seq<Alert>, Stats)>, ghost done: nat)
    requires |brands| < 2
    modifies store`coalitions, store`hosts, store`script
    ensures done <= |Tail(p, full, brands, ev)| && (r.Ok? ==> done == |Tail(p, full, brands, ev)|)
    ensures store.View() == ApplyAll(old(store.View()), Tail(p, full, brands, ev)[..done])
    ensures r.Ok? ==>
      r.value == (AlertsFor(old(store.View()), p, ev, brands), StatsFor(old(store.View()), p, ev, full, brands))
    ensures Ran(old(store.script), store.script, TailStatements(old(store.View()), p, ev, full, brands), r.Ok?)
  {
    hide Good, Rest, Ran, Underway, KeyEffect, ApplyAll, HostsWith, NormalizedHosts, IsNewKey, HighDfStatements;
    ghost var t, all := store.View(), TailStatements(store.View(), p, ev, full, brands);
    ghost var n := HighDfStatements(t, p, full);
    RemainderStatements(t, p, ev, full, brands);
    Starting(store.script);
    var ok, stats;
    ok, stats, done := RecordHighDf(store, p, ev, full, brands);
    GoingOn(old(store.script), old(store.script), store.script, 0, n, all, ok);
    TailStart(p, full, brands, ev, done);
    if !ok { return Err, done; }
    if brands == [] || !p.wantB {
      Finishing(old(store.script), store.script, all);
      return Ok(([], stats)), done;
    }
    ghost var inserted, mid := 0, store.script;
    r, inserted := ReportHosts(store, p, ev, brands, stats);
    GoingOn(old(store.script), mid, store.script, n, |TailPairs(p, brands, ev)|, all, r.Ok?);
    if r.Ok? { Finishing(old(store.script), store.script, all); }
    TailPrefix(t, p, full, brands, ev, inserted);
    done := done + inserted;
    HostAnswer(t, t.(coalitions := store.coalitions), p, ev, full, brands);
  }

  /** The bookkeeping key of a multi-brand event, and its learning-feed reads when it is new. */
  function HighDfStatements(t: Tables, p: Policy, full: seq<string>): nat {
    if |full| < 2 then 0 else 1 + if IsNewKey(t, full) then FeedReads(p, full) else 0
  }

  lemma RemainderStatements(t: Tables, p: Policy, ev: MatchEvent, full: seq<string>, brands: seq<string>)
    requires |brands| < 2
    ensures TailStatements(t, p, ev, full, brands) == HighDfStatements(t, p, full) + |TailPairs(p, brands, ev)|
    ensures brands == [] || !p.wantB ==> |TailPairs(p, brands, ev)| == 0
  {
  }

  /** The answer of a remainder step, with the host alert counted last. */
  lemma HostAnswer(t: Tables, u: Tables, p: Policy, ev: MatchEvent, full: seq<string>, brands: seq<string>)
    requires |brands| < 2 && t.hosts == u.hosts
    ensures var alerts := AlertsFor(t, p, ev, brands);
      && alerts == AlertsFor(u, p, ev, brands)
      && StatsFor(t, p, ev, full, brands)
        == StatsFor(t, p, ev, full, brands).(alertsB := if alerts != [] then 1 else 0)
  {
  }

  lemma TailStart(p: Policy, full: seq<string>, brands: seq<string>, ev: MatchEvent, done: nat)
    requires done <= |KeyEffect(p, full, brands, ev)|
    ensures done <= |Tail(p, full, brands, ev)|
    ensures Tail(p, full, brands, ev)[..done] == KeyEffect(p, full, brands, ev)[..done]
    ensures |brands| == 0 || !p.wantB ==> |Tail(p, full, brands, ev)| == |KeyEffect(p, full, brands, ev)|
  {
  }

  /** One brand is left and tier B is on: its unseen, non-routine hosts make the alert. */
  method ReportHosts(store: NoveltyStore, p: Policy, ev: MatchEvent, brands: seq<string>, stats: Stats)
    returns (r: Result<(seq<Alert>, Stats)>, ghost done: nat)
    requires |brands| == 1 && p.wantB
    modifies store`hosts, store`script
    ensures done <= |TailPairs(p, brands, ev)| && (r.Ok? ==> done == |TailPairs(p, brands, ev)|)
    ensures store.hosts == HostsWith(old(store.hosts), TailPairs(p, brands, ev)[..done], ev.seen)
    ensures r.Ok? ==>
      var alerts := AlertsFor(old(store.View()), p, ev, brands);
      r.value == (alerts, stats.(alertsB := if alerts != [] then 1 else stats.alertsB))
    ensures Ran(old(store.script), store.script, |TailPairs(p, brands, ev)|, r.Ok?)
  {
    hide Ran, HostsWith, NormalizedHosts, NovelHosts;
    var ok, novel;
    ok, novel, done := InsertHosts(store, p, brands[0], NormalizedHosts(ev), ev.seen);
    OneHostRow(brands, NormalizedHosts(ev));
    if !ok { return Err, done; }
    if novel == [] { return Ok(([], stats)), done; }
    return Ok(([TierB(brands[0], novel[0], novel, ev)], stats.(alertsB := 1))), done;
  }

  /** Too few low-frequency brands for a coalition: the full set becomes a bookkeeping key. */
  method RecordHighDf(store: NoveltyStore, p: Policy, ev: MatchEvent, full: seq<string>, brands: seq<string>)
    returns (ok: bool, stats: Stats, ghost done: nat)
    requires |brands| < 2
    modifies store`coalitions, store`script
    ensures done <= |KeyEffect(p, full, brands, ev)| && (ok ==> done == |KeyEffect(p, full, brands, ev)|)
    ensures store.View() == ApplyAll(old(store.View()), KeyEffect(p, full, brands, ev)[..done])
    ensures ok ==> stats == StatsFor(old(store.View()), p, ev, full, brands).(alertsB := 0)
    ensures Ran(old(store.script), store.script, HighDfStatements(old(store.View()), p, full), ok)
  {
    hide Good, Rest, Ran, Underway, FeedReads;
    stats, done := NO_STATS, 0;
    ghost var all := HighDfStatements(store.View(), p, full);
    Starting(store.script);
    ghost var key := KeyEffect(p, full, brands, ev);
    assert key[..|key|] == key;
    if |full| >= 2 {
      var isNew := store.InsertCoalition(Join(full, FIELD_SEP), ev.seen);
      GoingOn(old(store.script), old(store.script), store.script, 0, 1, all, isNew.Ok?);
      ApplyOne(old(store.View()), key[0]);
      if isNew.Err? { return false, stats, 0; }
      done := 1;
      if isNew.value {
        stats := stats.(inserted := 1, highDf := 1);
        ghost var mid := store.script;
        ok := MaybeCandidate(store, p, full);
        GoingOn(old(store.script), mid, store.script, 1, all - 1, all, ok);
        if !ok { return; }
      }
    } else if brands == [] {
      stats := stats.(fullyIgnored := 1);
    }
    Finishing(old(store.script), store.script, all);
    ok := true;
  }

  lemma OneHostRow(brands: seq<string>, hosts: seq<string>)
    requires |brands| == 1
    ensures HostPairs(brands, hosts) == HostRow(brands[0], hosts)
  {
    assert brands[..0] == [];
    assert HostPairs([], hosts) == [];
  }

  /** One step. It either completes with exactly the specified tables, alerts and counters, or
      fails and leaves exactly a prefix of the plan committed; which of the two, and whether a
      coalition got its key, the coming statements decide. */
  method ProcessMatch(store: NoveltyStore, ignore: set<string>, p: Policy, ev: MatchEvent)
    returns (r: Result<(seq<Alert>, Stats)>, ghost fate: Fate)
    modifies store
    ensures store.View() == After(old(store.View()), ignore, p, ev, fate)
    ensures r.Ok? <==> fate.Done?
    ensures r.Ok? ==> r.value == (Alerts(old(store.View()), ignore, p, ev), StatsOf(old(store.View()), ignore, p, ev))
    ensures Fares(old(store.View()), ignore, p, ev, old(store.script), fate)
    ensures Ran(old(store.script), store.script, StepStatements(old(store.View()), ignore, p, ev), r.Ok?,
                PlanConflict(old(store.View()), ignore, p, ev))
  {
    hide Good, Rest, Ran, Underway, HubReads, RecordStatements, TailStatements, BrandsConflict, Counted, KeyCommitted,
      Tail, Strip, AlertsFor, StatsFor, UniqueKeywords, Fares, StatementsToKey, StepStatements;
    ghost var t, script := store.View(), store.script;
    var full := UniqueKeywords(ev);
    ghost var n, m := RecordStatements(full), HubReads(Counted(t, full), ignore, p, full);
    ghost var toKey := StatementsToKey(t, ignore, p, ev);
    StepParts(t, ignore, p, ev);
    Starting(store.script);
    var ok := RecordBrands(store, full);
    GoingOn(script, script, store.script, 0, n, toKey, ok);
    if !ok {
      NothingCommitted(t, ignore, p, ev);
      FaresEarly(t, ignore, p, ev, script, store.script, Failed(0));
      return Err, Failed(0);
    }
    ghost var recorded := store.script;
    var stripped := TierABrands(store, full, ignore, p);
    GoingOn(script, recorded, store.script, n, m, toKey, stripped.Ok?);
    if stripped.Err? {
      PlanPrefix(t, ignore, p, ev, 0);
      FaresEarly(t, ignore, p, ev, script, store.script, Failed(|RecordEffect(full)|));
      return Err, Failed(|RecordEffect(full)|);
    }
    var brands := stripped.value;
    AnswerFrame(t, p, ev, full, brands);
    ghost var done, read := 0, store.script;
    r, done := ProcessBrands(store, p, ev, full, brands);
    PlanPrefix(t, ignore, p, ev, done);
    fate := if r.Ok? then Done else Failed(|RecordEffect(full)| + done);
    FaresLate(t, ignore, p, ev, script, read, store.script, done, r.Ok?);
  }

  lemma NothingCommitted(t: Tables, ignore: set<string>, p: Policy, ev: MatchEvent)
    ensures After(t, ignore, p, ev, Failed(0)) == t
  {
    assert Plan(t, ignore, p, ev)[..0] == [];
  }

  lemma StepParts(t: Tables, ignore: set<string>, p: Policy, ev: MatchEvent)
    ensures var full := UniqueKeywords(ev);
      var brands := Stripped(t, ignore, p, ev);
      && brands == Strip(Counted(t, full), ignore, p, full)
      && StatementsToKey(t, ignore, p, ev)
        == RecordStatements(full) + HubReads(Counted(t, full), ignore, p, full) + KeyStatements(t, p, ev, full, brands)
      && StepStatements(t, ignore, p, ev)
        == RecordStatements(full) + HubReads(Counted(t, full), ignore, p, full) + TailStatements(t, p, ev, full, brands)
  {
  }

  /** A step that fails before its key. */
  lemma FaresEarly(t: Tables, ignore: set<string>, p: Policy, ev: MatchEvent, script: seq<bool>, after: seq<bool>, fate: Fate)
    requires Ran(script, after, StatementsToKey(t, ignore, p, ev), false) && fate.Failed? && fate.committed < 2
    ensures Fares(t, ignore, p, ev, script, fate)
    ensures Ran(script, after, StepStatements(t, ignore, p, ev), false, PlanConflict(t, ignore, p, ev))
  {
    hide Stripped, PlanConflict, StatementsToKey, LaterStatements, UniqueKeywords;
    var all, toKey := StepStatements(t, ignore, p, ev), StatementsToKey(t, ignore, p, ev);
    GoodSplit(script, toKey, all - toKey);
  }

  /** A step that got as far as its key, or to its end. */
  lemma FaresLate(t: Tables, ignore: set<string>, p: Policy, ev: MatchEvent, script: seq<bool>, read: seq<bool>,
                  after: seq<bool>, done: nat, ok: bool)
    requires var full := UniqueKeywords(ev);
      var brands := Stripped(t, ignore, p, ev);
      && Underway(script, read, RecordStatements(full) + HubReads(Counted(t, full), ignore, p, full))
      && (|brands| >= 2 ==> (done >= 1 <==> KeyCommitted(t, p, ev, full, brands, read)))
      && Ran(read, after, TailStatements(t, p, ev, full, brands), ok, BrandsConflict(t, p, ev, brands))
    ensures var fate := if ok then Done else Failed(|RecordEffect(UniqueKeywords(ev))| + done);
      Fares(t, ignore, p, ev, script, fate)
    ensures Ran(script, after, StepStatements(t, ignore, p, ev), ok, PlanConflict(t, ignore, p, ev))
  {
    var full, brands := UniqueKeywords(ev), Stripped(t, ignore, p, ev);
    StepParts(t, ignore, p, ev);
    StripShrinks(Counted(t, full), ignore, p, full);
    hide Good, Strip, Stripped, UniqueKeywords, StatementsToKey, StepStatements, HubReads, RecordStatements, Counted, BrandsConflict,
      KeyStatements, LaterStatements;
    var n, key := RecordStatements(full) + HubReads(Counted(t, full), ignore, p, full), KeyStatements(t, p, ev, full, brands);
    GoodSplit(script, n, key);
    GoodSplit(script, n, TailStatements(t, p, ev, full, brands));
    GoodSplit(read, key, TailStatements(t, p, ev, full, brands) - key);
  }

  lemma {:induction false} StripShrinks(t: Tables, ignore: set<string>, p: Policy, full: seq<string>)
    ensures |Strip(t, ignore, p, full)| <= |full|
  {
    if full != [] { StripShrinks(t, ignore, p, full[..|full| - 1]); }
  }

  method ProcessBrands(store: NoveltyStore, p: Policy, ev: MatchEvent, full: seq<string>, brands: seq<string>)
    returns (r: Result<(seq<Alert>, Stats)>, ghost done: nat)
    modifies store`coalitions, store`certs, store`hosts, store`script
    ensures done <= |Tail(p, full, brands, ev)| && (r.Ok? ==> done == |Tail(p, full, brands, ev)|)
    ensures store.View() == ApplyAll(old(store.View()), Tail(p, full, brands, ev)[..done])
    ensures |brands| >= 2 ==> (done >= 1 <==> KeyCommitted(old(store.View()), p, ev, full, brands, old(store.script)))
    ensures r.Ok? ==>
      r.value == (AlertsFor(old(store.View()), p, ev, brands), StatsFor(old(store.View()), p, ev, full, brands))
    ensures Ran(old(store.script), store.script, TailStatements(old(store.View()), p, ev, full, brands), r.Ok?,
                BrandsConflict(old(store.View()), p, ev, brands))
  {
    hide Ran, TailStatements, KeyCommitted, Tail, AlertsFor, StatsFor;
    if |brands| >= 2 {
      r, done := ProcessCoalition(store, p, ev, full, brands);
    } else {
      r, done := ProcessRemainder(store, p, ev, full, brands);
    }
  }

  /** The counters do not enter the answer once the brands are stripped. */
  lemma AnswerFrame(t: Tables, p: Policy, ev: MatchEvent, full: seq<string>, brands: seq<string>)
    ensures var c := Counted(t, full);
      && AlertsFor(c, p, ev, brands) == AlertsFor(t, p, ev, brands)
      && StatsFor(c, p, ev, full, brands) == StatsFor(t, p, ev, full, brands)
      && (BrandsConflict(c, p, ev, brands) <==> BrandsConflict(t, p, ev, brands))
      && TailStatements(c, p, ev, full, brands) == TailStatements(t, p, ev, full, brands)
      && forall script :: KeyCommitted(c, p, ev, full, brands, script) <==> KeyCommitted(t, p, ev, full, brands, script)
  {
    hide Good;
    RecordKeepsKeys(t, full);
  }

  /** The tables after the counting and the first `done` later effects. */
  lemma PlanPrefix(t: Tables, ignore: set<string>, p: Policy, ev: MatchEvent, done: nat)
    requires done <= |Tail(p, UniqueKeywords(ev), Stripped(t, ignore, p, ev), ev)|
    ensures var full := UniqueKeywords(ev);
      var tail := Tail(p, full, Stripped(t, ignore, p, ev), ev);
      && After(t, ignore, p, ev, Failed(|RecordEffect(full)| + done)) == ApplyAll(Counted(t, full), tail[..done])
      && (done == |tail| ==> After(t, ignore, p, ev, Done) == ApplyAll(Counted(t, full), tail[..done]))
  {
    var full := UniqueKeywords(ev);
    PrefixOfSum(t, RecordEffect(full), Tail(p, full, Stripped(t, ignore, p, ev), ev), done);
  }

  lemma PrefixOfSum(t: Tables, record: seq<Effect>, tail: seq<Effect>, done: nat)
    requires done <= |tail|
    ensures ApplyAll(t, Committed(record + tail, Failed(|record| + done))) == ApplyAll(ApplyAll(t, record), tail[..done])
    ensures done == |tail| ==> Committed(record + tail, Done) == Committed(record + tail, Failed(|record| + done))
  {
    assert (record + tail)[..|record| + done] == record + tail[..done];
    ApplyAllAppend(t, record, tail[..done]);
  }
}
