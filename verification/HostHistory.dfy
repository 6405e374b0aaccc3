/** Tier B over whole runs: which hosts a brand has been seen with, and when a host alert is due. */
module HostHistory {
  import opened Event
  import opened Text
  import opened Novelty
  import opened NoveltyAlert
  import opened NoveltyHistory
  import opened NoveltyResults

  // ---------- the history, read without the store ----------

  /** Counting and a key come before the host rows of an attempt. */
  function Ahead(c: Setup, h: seq<Attempt>, j: nat): nat
    requires j < |h|
  {
    var full := UniqueKeywords(h[j].ev);
    if full == [] then 0 else if |full| >= 2 then 2 else 1
  }

  /** The pairs attempt `j` is to insert: every brand that is left with every host, when tier B is on. */
  function RowsOf(c: Setup, h: seq<Attempt>, j: nat): seq<(string, string)>
    requires j < |h|
  {
    if c.policy.wantB then HostPairs(LowDf(c, h, j), NormalizedHosts(h[j].ev)) else []
  }

  /** Those it got to insert. */
  function Inserted(c: Setup, h: seq<Attempt>, j: nat): seq<(string, string)>
    requires j < |h|
  {
    RowsOf(c, h, j)[..RowsDone(h[j].fate, Ahead(c, h, j), |RowsOf(c, h, j)|)]
  }

  /** No attempt inserted the pair. */
  ghost predicate Unseen(c: Setup, h: seq<Attempt>, pair: (string, string)) {
    pair !in c.start.hosts && forall j: nat :: j < |h| ==> pair !in Inserted(c, h, j)
  }

  /** A host that attempt `i` has to report: not routine, if that matters, and new with the brand. */
  ghost predicate Reportable(c: Setup, h: seq<Attempt>, i: nat, brand: string, host: string)
    requires i < |h|
  {
    && (exists d :: d in h[i].ev.domains && AlertHost(d) == host) && host != ""
    && !(c.policy.skipRoutine && IsRoutineHost(brand, host))
    && Unseen(c, h[..i], (brand, host))
  }

  // ---------- the host table agrees with the history ----------

  lemma InsertedInPast(c: Setup, h: seq<Attempt>, n: nat, j: nat)
    requires j < n <= |h|
    ensures Inserted(c, h[..n], j) == Inserted(c, h, j)
  {
    hide UniqueKeywords, NormalizedHosts, WithoutHubs;
    assert h[..n][..j + 1] == h[..j + 1];
  }

  /** One attempt inserts its rows, up to where it was cut short. */
  lemma HostsStep(c: Setup, h: seq<Attempt>)
    requires CleanStart(c) && h != []
    ensures var n := |h| - 1;
      Run(c, h).hosts == HostsWith(Run(c, h[..n]).hosts, Inserted(c, h, n), h[n].ev.seen)
  {
    var n := |h| - 1;
    var t, a := Run(c, h[..n]), h[n];
    var p, full := PolicyAt(c, a), UniqueKeywords(a.ev);
    var brands := Stripped(t, c.ignore, p, a.ev);
    var pairs := AfterParts(t, c.ignore, p, a.ev, a.fate);
    RecordKeepsKeys(t, full);
    KeyKeepsHosts(if Reached(a.fate, 1) then Counted(t, full) else t, p, full, brands, a.ev);
    KeyIsAhead(t, c.ignore, p, a.ev);
    if Reached(a.fate, 1) {
      StrippedIsLowDf(c, h, n);
    }
    hide Run, UniqueKeywords, NormalizedHosts, LowDf, Stripped, HostPairs, HostsWith, KeyEffect, Counted, After;
  }

  lemma KeyKeepsHosts(t: Tables, p: Policy, full: seq<string>, brands: seq<string>, ev: MatchEvent)
    ensures ApplyAll(t, KeyEffect(p, full, brands, ev)).hosts == t.hosts
  {
    hide Join, FactOf;
    var key := KeyEffect(p, full, brands, ev);
    if key != [] { assert key == [key[0]]; ApplyOne(t, key[0]); }
  }

  lemma KeyIsAhead(t: Tables, ignore: set<string>, p: Policy, ev: MatchEvent)
    ensures var full := UniqueKeywords(ev);
      |RecordEffect(full)| + |KeyEffect(p, full, Stripped(t, ignore, p, ev), ev)|
        == if full == [] then 0 else if |full| >= 2 then 2 else 1
  {
    var full := UniqueKeywords(ev);
    StripShrinks(Counted(t, full), ignore, p, full);
    hide UniqueKeywords, Strip, Counted, FactOf;
  }

  lemma UnseenStep(c: Setup, h: seq<Attempt>, pair: (string, string))
    requires h != []
    ensures Unseen(c, h, pair) <==> Unseen(c, h[..|h| - 1], pair) && pair !in Inserted(c, h, |h| - 1)
  {
    hide Inserted;
    var n := |h| - 1;
    forall j: nat | j < n ensures Inserted(c, h[..n], j) == Inserted(c, h, j) { InsertedInPast(c, h, n, j); }
  }

  /** The host table holds exactly the pairs that some attempt got to insert. */
  lemma {:induction false} HostsMatchHistory(c: Setup, h: seq<Attempt>, pair: (string, string))
    requires CleanStart(c)
    ensures pair !in Run(c, h).hosts <==> Unseen(c, h, pair)
  {
    if h == [] {
      StartHosts(c, h);
    } else {
      hide Inserted, CleanStart, HostsWith, Run, Unseen;
      var n := |h| - 1;
      HostsMatchHistory(c, h[..n], pair);
      HostsStep(c, h);
      HostsWithKeys(Run(c, h[..n]).hosts, Inserted(c, h, n), h[n].ev.seen, pair);
      UnseenStep(c, h, pair);
    }
  }

  lemma StartHosts(c: Setup, h: seq<Attempt>)
    requires h == []
    ensures Run(c, h) == c.start
  {
  }

  /** A host row carries the event time of the first attempt that inserted it. */
  lemma {:induction false} HostHasFirstSeen(c: Setup, h: seq<Attempt>, pair: (string, string)) returns (j: nat)
    requires CleanStart(c) && pair in Run(c, h).hosts && pair !in c.start.hosts
    ensures j < |h| && pair in Inserted(c, h, j) && forall k: nat :: k < j ==> pair !in Inserted(c, h, k)
    ensures Run(c, h).hosts[pair] == h[j].ev.seen
  {
    hide Run, Inserted, CleanStart, HostsWith;
    if h == [] { StartHosts(c, h); }
    var n := |h| - 1;
    var before := Run(c, h[..n]).hosts;
    HostsStep(c, h);
    HostsMatchHistory(c, h[..n], pair);
    HostsWithStamps(before, Inserted(c, h, n), h[n].ev.seen, pair);
    forall k: nat | k < n ensures Inserted(c, h[..n], k) == Inserted(c, h, k) { InsertedInPast(c, h, n, k); }
    if pair in before {
      j := HostHasFirstSeen(c, h[..n], pair);
    } else {
      j := n;
    }
  }

  lemma {:induction false} HostsWithStamps(m: map<(string, string), int>, pairs: seq<(string, string)>, ts: int,
                                           pair: (string, string))
    ensures var after := HostsWith(m, pairs, ts);
      && (pair in after <==> pair in m || pair in pairs)
      && (pair in after ==> after[pair] == if pair in m then m[pair] else ts)
  {
    if pairs != [] {
      assert pairs == pairs[..|pairs| - 1] + [pairs[|pairs| - 1]];
      HostsWithStamps(m, pairs[..|pairs| - 1], ts, pair);
    }
  }

  // ---------- when a host alert is due ----------

  /** With one brand left, the engine finds exactly the hosts that the history says to report. */
  lemma NovelIsReportable(c: Setup, h: seq<Attempt>, i: nat, brand: string)
    requires CleanStart(c) && i < |h|
    ensures var novel := NovelHosts(Run(c, h[..i]).hosts, c.policy, brand, NormalizedHosts(h[i].ev));
      StrictlySorted(novel) && forall host :: host in novel <==> Reportable(c, h, i, brand, host)
  {
    hide Run, NormalizedHosts, IsRoutineHost, CleanStart, Unseen, StrictlySorted, AlertHost, NovelHosts;
    var known := Run(c, h[..i]).hosts;
    NovelHostsAre(known, c.policy, brand, NormalizedHosts(h[i].ev));
    forall host
      ensures host in NormalizedHosts(h[i].ev) && IsNovel(known, c.policy, brand, host) <==> Reportable(c, h, i, brand, host)
    {
      HostsMatchHistory(c, h[..i], (brand, host));
      HostOfEvent(h[i].ev, host);
    }
  }

  lemma SamePolicyNovel(known: map<(string, string), int>, p: Policy, q: Policy, brand: string, hosts: seq<string>)
    requires p.skipRoutine == q.skipRoutine
    ensures NovelHosts(known, p, brand, hosts) == NovelHosts(known, q, brand, hosts)
  {
    hide IsRoutineHost;
  }

  /** What the engine answers when one brand is left. */
  lemma OneBrandAnswer(c: Setup, h: seq<Attempt>, i: nat)
    requires CleanStart(c) && i < |h|
    ensures var emitted, low := EmittedAt(c, h, i), LowDf(c, h, i);
      if h[i].fate.Done? && c.policy.wantB && |low| == 1 then
        var novel := NovelHosts(Run(c, h[..i]).hosts, c.policy, low[0], NormalizedHosts(h[i].ev));
        emitted == if novel == [] then [] else [TierB(low[0], novel[0], novel, h[i].ev)]
      else emitted == [] || emitted[0].TierA?
  {
    if h[i].fate.Done? {
      StrippedIsLowDf(c, h, i);
      var low := LowDf(c, h, i);
      hide Run, LowDf, Stripped, NormalizedHosts, CleanStart, WantEmit, IsNewKey, NovelHosts;
      if |low| == 1 {
        SamePolicyNovel(Run(c, h[..i]).hosts, c.policy, PolicyAt(c, h[i]), low[0], NormalizedHosts(h[i].ev));
      }
    }
  }

  /** An attempt emits a host alert exactly when, by the history alone, it completes, tier B is on, one
      brand is left and has a host to report; the alert lists exactly those hosts. */
  lemma HostAlertExactlyWhen(c: Setup, h: seq<Attempt>, i: nat)
    requires CleanStart(c) && i < |h|
    ensures EmitsTierB(c, h, i) <==>
      h[i].fate.Done? && c.policy.wantB && |LowDf(c, h, i)| == 1
      && exists host :: Reportable(c, h, i, LowDf(c, h, i)[0], host)
    ensures EmitsTierB(c, h, i) ==>
      var low, novel := LowDf(c, h, i), EmittedAt(c, h, i)[0].novelHosts;
      && |low| == 1 && novel != [] && EmittedAt(c, h, i) == [TierB(low[0], novel[0], novel, h[i].ev)]
      && StrictlySorted(novel) && forall host :: host in novel <==> Reportable(c, h, i, low[0], host)
  {
    hide Run, LowDf, NormalizedHosts, CleanStart, NovelHosts, Reportable, StrictlySorted, EmittedAt;
    OneBrandAnswer(c, h, i);
    if |LowDf(c, h, i)| == 1 {
      var brand := LowDf(c, h, i)[0];
      NovelIsReportable(c, h, i, brand);
      var novel := NovelHosts(Run(c, h[..i]).hosts, c.policy, brand, NormalizedHosts(h[i].ev));
      if novel != [] { assert novel[0] in novel; }
    }
  }

  /** It is counted as such. */
  lemma HostAlertCounted(c: Setup, h: seq<Attempt>, i: nat)
    requires CleanStart(c) && i < |h|
    ensures StatsAt(c, Run(c, h[..i]), h[i]).alertsB == One(EmitsTierB(c, h, i))
  {
    if h[i].fate.Done? {
      hide Run, Stripped, NormalizedHosts, WantEmit, IsNewKey, NovelHosts, PassesSanGate;
    }
  }

  predicate EmitsTierB(c: Setup, h: seq<Attempt>, i: nat)
    requires i < |h|
  {
    EmittedAt(c, h, i) != [] && EmittedAt(c, h, i)[0].TierB?
  }

  /** A completed attempt inserts every brand that is left with every host. */
  lemma DoneInserts(c: Setup, h: seq<Attempt>, i: nat, brand: string, host: string)
    requires i < |h| && h[i].fate.Done?
    ensures (brand, host) in Inserted(c, h, i)
      <==> c.policy.wantB && brand in LowDf(c, h, i) && host in NormalizedHosts(h[i].ev)
  {
    hide LowDf, NormalizedHosts, HostPairs;
    HostPairsAre(LowDf(c, h, i), NormalizedHosts(h[i].ev), brand, host);
    assert Inserted(c, h, i) == RowsOf(c, h, i);
  }

  lemma {:induction false} HostPairsAre(brands: seq<string>, hosts: seq<string>, brand: string, host: string)
    ensures (brand, host) in HostPairs(brands, hosts) <==> brand in brands && host in hosts
  {
    if brands != [] {
      var front, last := brands[..|brands| - 1], brands[|brands| - 1];
      assert brands == front + [last];
      HostPairsAre(front, hosts, brand, host);
      var row := HostRow(last, hosts);
      if last == brand && host in hosts {
        var k :| 0 <= k < |hosts| && hosts[k] == host;
        assert row[k] == (brand, host);
      }
    }
  }

  /** No host is reported twice for a brand, whatever was retried. */
  lemma HostsAlertOnce(c: Setup, h: seq<Attempt>, i: nat, j: nat, host: string)
    requires CleanStart(c) && i < j < |h|
    requires EmitsTierB(c, h, i) && host in EmittedAt(c, h, i)[0].novelHosts
    requires EmitsTierB(c, h, j) && host in EmittedAt(c, h, j)[0].novelHosts
    ensures EmittedAt(c, h, i)[0].brand != EmittedAt(c, h, j)[0].brand
  {
    hide EmittedAt, CleanStart, LowDf, NormalizedHosts, AlertHost, IsRoutineHost, Inserted;
    HostAlertExactlyWhen(c, h, i);
    HostAlertExactlyWhen(c, h, j);
    HostOfEvent(h[i].ev, host);
    DoneInserts(c, h, i, LowDf(c, h, i)[0], host);
    InsertedInPast(c, h, j, i);
  }
}
