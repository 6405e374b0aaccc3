/** The watchlist matcher: a walk over the DNS suffixes of each name of a certificate, looked up
    in a hash set, against a scan over every watched name. */
module Watchlist {
  import opened Event
  import opened Text
  import opened NoveltyAlert
  import opened NoveltyHistory

  datatype FrameMeta = FrameMeta(seen: int, source: Option<string>, fingerprint: Option<string>)

  // ---------- hosts ----------

  function NormalizeHost(raw: string): Option<string> {
    var trimmed := Trim(TrimEndChar(Trim(raw), '.'));
    var host := StripPrefix(Lower(trimmed), "*.");
    if trimmed == "" || host == "" then None else Some(host)
  }

  /** What stands after each dot, left to right. */
  function AfterDots(host: string): seq<string> {
    if host == "" then []
    else (if host[0] == '.' then [host[1..]] else []) + AfterDots(host[1..])
  }

  /** Every DNS suffix of a host, longest first. */
  function HostSuffixes(host: string): seq<string> { [host] + AfterDots(host) }

  /** The host is the name itself or a subdomain of it. */
  predicate Under(host: string, name: string) { host == name || EndsWith(host, "." + name) }

  lemma {:induction false} AfterDotsAreEndings(host: string, name: string)
    ensures name in AfterDots(host) <==> EndsWith(host, "." + name)
  {
    if host != "" {
      AfterDotsAreEndings(host[1..], name);
      var cut := |host| - |name| - 1;
      if cut > 0 { assert host[1..][cut - 1..] == host[cut..]; }
      if cut == 0 { assert host == [host[0]] + host[1..]; }
    }
  }

  /** The suffix walk visits exactly the names the host is under. */
  lemma SuffixWalkIsUnder(host: string, name: string)
    ensures name in HostSuffixes(host) <==> Under(host, name)
  {
    AfterDotsAreEndings(host, name);
  }

  // ---------- what a certificate hits ----------

  predicate Covers(san: string, name: string) {
    NormalizeHost(san).Some? && Under(NormalizeHost(san).value, name)
  }

  ghost predicate CoveredBySome(san: string, names: set<string>) {
    exists n :: n in names && Covers(san, n)
  }

  /** The watched names that some name of the certificate is under. */
  function Hits(names: set<string>, domains: seq<string>): set<string> {
    set n | n in names && exists i :: 0 <= i < |domains| && Covers(domains[i], n)
  }

  /** The names of the certificate under one of the given names, in certificate order. */
  ghost function CoveredDomains(domains: seq<string>, names: set<string>): seq<string> {
    if domains == [] then []
    else
      var san := domains[|domains| - 1];
      CoveredDomains(domains[..|domains| - 1], names) + if CoveredBySome(san, names) then [san] else []
  }

  /** The declarative reading of one inspection, by a scan over every watched name. */
  ghost predicate Reports(names: set<string>, suppress: set<string>, domains: seq<string>, meta: FrameMeta,
                          r: InspectOutcome<MatchEvent>)
  {
    var hits := Hits(names, domains);
    var live := hits - suppress;
    && (r.event.Some? <==> live != {})
    && (r.fullySuppressed <==> hits != {} && live == {})
    && (r.event.Some? ==>
      var ev := r.event.value;
      && StrictlySorted(ev.keywords) && Elems(ev.keywords) == live
      && ev.domains == CoveredDomains(domains, live) && ev.domains != []
      && ev.sanCount == Min(|domains|, U32_MAX)
      && (ev.seen, ev.source, ev.fingerprint) == (meta.seen, meta.source, meta.fingerprint))
  }

  /** The declarative reading determines the outcome. */
  lemma ReportIsUnique(names: set<string>, suppress: set<string>, domains: seq<string>, meta: FrameMeta,
                       r: InspectOutcome<MatchEvent>, q: InspectOutcome<MatchEvent>)
    requires Reports(names, suppress, domains, meta, r) && Reports(names, suppress, domains, meta, q)
    ensures r == q
  {
    if r.event.Some? { SortedIsCanonical(r.event.value.keywords, q.event.value.keywords); }
  }

  /** Two passes with a suppress set match exactly as one pass over the remaining names. */
  lemma SuppressingIsDifference(names: set<string>, suppress: set<string>, domains: seq<string>, meta: FrameMeta,
                                r: InspectOutcome<MatchEvent>, q: InspectOutcome<MatchEvent>)
    requires Reports(names, suppress, domains, meta, r) && Reports(names - suppress, {}, domains, meta, q)
    ensures r.event == q.event && !q.fullySuppressed
  {
    assert Hits(names, domains) - suppress == Hits(names - suppress, domains) - {};
    if r.event.Some? { SortedIsCanonical(r.event.value.keywords, q.event.value.keywords); }
  }

  /** The engine counts exactly the watched names that were hit: on lower-case names, its own
      normalisation of the event changes nothing. */
  lemma EngineSeesTheHits(names: set<string>, suppress: set<string>, domains: seq<string>, meta: FrameMeta,
                          r: InspectOutcome<MatchEvent>)
    requires Reports(names, suppress, domains, meta, r) && r.event.Some?
    requires forall n :: n in names ==> Lower(n) == n
    ensures UniqueKeywords(r.event.value) == r.event.value.keywords
    ensures Elems(UniqueKeywords(r.event.value)) == Hits(names, domains) - suppress
  {
    var ks := r.event.value.keywords;
    forall i | 0 <= i < |ks| ensures Lower(ks[i]) == ks[i] { assert ks[i] in Elems(ks); }
    assert LowerAll(ks) == ks;
    SortedIsCanonical(SortedUnique(ks), ks);
  }

  /** Names without separators make events the engine never gets stuck on. */
  lemma MatchesAreClean(names: set<string>, suppress: set<string>, domains: seq<string>, meta: FrameMeta,
                        r: InspectOutcome<MatchEvent>)
    requires Reports(names, suppress, domains, meta, r) && r.event.Some?
    requires forall n :: n in names ==> Lower(n) == n && FIELD_SEP !in n && CSV_SEP !in n
    ensures CleanEvent(r.event.value)
  {
    EngineSeesTheHits(names, suppress, domains, meta, r);
    forall k | k in UniqueKeywords(r.event.value) ensures k in names {
      assert k in Elems(UniqueKeywords(r.event.value));
    }
  }

  /** Some name of the certificate is under every hit. */
  lemma {:induction false} HitsAreCovered(domains: seq<string>, live: set<string>, n: string)
    requires n in live && exists i :: 0 <= i < |domains| && Covers(domains[i], n)
    ensures CoveredDomains(domains, live) != []
  {
    var i :| 0 <= i < |domains| && Covers(domains[i], n);
    if i < |domains| - 1 {
      assert Covers(domains[..|domains| - 1][i], n);
      HitsAreCovered(domains[..|domains| - 1], live, n);
    }
  }

  // ---------- the matcher ----------

  /** The hit names of the certificate with their normalised hosts. */
  ghost function HitHosts(domains: seq<string>, names: set<string>): seq<(string, string)> {
    if domains == [] then []
    else
      var san := domains[|domains| - 1];
      HitHosts(domains[..|domains| - 1], names)
        + if CoveredBySome(san, names) then [(san, NormalizeHost(san).value)] else []
  }

  ghost function Kept(hosts: seq<(string, string)>, live: set<string>): seq<string> {
    if hosts == [] then []
    else
      var (raw, host) := hosts[|hosts| - 1];
      Kept(hosts[..|hosts| - 1], live) + if exists n :: n in live && Under(host, n) then [raw] else []
  }

  /** Filtering twice, first by the watchlist and then by what is left of the hits, keeps what one
      filter by the rest keeps. */
  lemma {:induction false} TwoFilters(domains: seq<string>, names: set<string>, live: set<string>)
    requires live <= names
    ensures Kept(HitHosts(domains, names), live) == CoveredDomains(domains, live)
  {
    if domains != [] {
      var front, san := domains[..|domains| - 1], domains[|domains| - 1];
      TwoFilters(front, names, live);
      if CoveredBySome(san, names) {
        var pair := (san, NormalizeHost(san).value);
        var hosts := HitHosts(front, names);
        assert (hosts + [pair])[..|hosts|] == hosts;
        assert CoveredBySome(san, live) <==> exists n :: n in live && Under(pair.1, n) by {
          assert forall n :: Covers(san, n) <==> Under(pair.1, n);
        }
      } else {
        assert !CoveredBySome(san, live);
        assert HitHosts(domains, names) == HitHosts(front, names);
      }
    }
  }

  /** One more certificate name adds what it covers. */
  lemma HitsStep(names: set<string>, domains: seq<string>, i: nat)
    requires i < |domains|
    ensures Hits(names, domains[..i + 1]) == Hits(names, domains[..i]) + set n | n in names && Covers(domains[i], n)
  {
    forall n | n in names && exists k :: 0 <= k < i && Covers(domains[k], n)
      ensures n in Hits(names, domains[..i + 1])
    {
      var k :| 0 <= k < i && Covers(domains[k], n);
      assert Covers(domains[..i + 1][k], n);
    }
    forall n | n in Hits(names, domains[..i]) ensures n in Hits(names, domains[..i + 1]) {
      var k :| 0 <= k < i && Covers(domains[..i][k], n);
      assert Covers(domains[..i + 1][k], n);
    }
    forall n | n in names && Covers(domains[i], n) ensures n in Hits(names, domains[..i + 1]) {
      assert Covers(domains[..i + 1][i], n);
    }
    forall n | n in Hits(names, domains[..i + 1])
      ensures n in Hits(names, domains[..i]) || Covers(domains[i], n)
    {
      var k :| 0 <= k < i + 1 && Covers(domains[..i + 1][k], n);
      if k < i { assert Covers(domains[..i][k], n); }
    }
  }

  method SortNames(names: set<string>) returns (sorted: seq<string>)
    ensures StrictlySorted(sorted) && Elems(sorted) == names
  {
    var left := names;
    sorted := [];
    while left != {}
      invariant left <= names && StrictlySorted(sorted) && Elems(sorted) == names - left
      decreases |left|
    {
      var n :| n in left;
      InsertUniqueElems(n, sorted);
      InsertUniqueSorts(n, sorted);
      left, sorted := left - {n}, InsertUnique(n, sorted);
    }
  }

  datatype DomainWatchlist = DomainWatchlist(names: set<string>, suppress: set<string>)
  {
    /** Look up every suffix of one host. */
    method LookUp(host: string) returns (found: set<string>)
      ensures found == set n | n in names && Under(host, n)
    {
      found := {};
      var candidates := HostSuffixes(host);
      for j := 0 to |candidates|
        invariant found == set n | n in names && n in candidates[..j]
      {
        assert candidates[..j + 1] == candidates[..j] + [candidates[j]];
        if candidates[j] in names { found := found + {candidates[j]}; }
      }
      assert candidates[..|candidates|] == candidates;
      forall n | n in names ensures n in candidates <==> Under(host, n) { SuffixWalkIsUnder(host, n); }
    }

    /** First pass: every watched name hit, and the certificate names that hit one. */
    method CollectHits(domains: seq<string>) returns (implicated: set<string>, sanHosts: seq<(string, string)>)
      ensures implicated == Hits(names, domains)
      ensures sanHosts == HitHosts(domains, names)
    {
      implicated, sanHosts := {}, [];
      for i := 0 to |domains|
        invariant implicated == Hits(names, domains[..i])
        invariant sanHosts == HitHosts(domains[..i], names)
      {
        assert domains[..i + 1][..i] == domains[..i];
        HitsStep(names, domains, i);
        var host := NormalizeHost(domains[i]);
        if host.None? { continue; }
        var found := LookUp(host.value);
        implicated := implicated + found;
        if found != {} {
          var n :| n in found;
          assert Covers(domains[i], n);
          sanHosts := sanHosts + [(domains[i], host.value)];
        } else {
          assert forall n :: n in names ==> (Covers(domains[i], n) <==> n in found);
        }
      }
      assert domains[..|domains|] == domains;
    }

    /** Second pass: the certificate names under a name that is left. */
    method KeepLive(sanHosts: seq<(string, string)>, live: set<string>) returns (matched: seq<string>)
      ensures matched == Kept(sanHosts, live)
    {
      matched := [];
      for i := 0 to |sanHosts|
        invariant matched == Kept(sanHosts[..i], live)
      {
        assert sanHosts[..i + 1][..i] == sanHosts[..i];
        var (raw, host) := sanHosts[i];
        var found := DomainWatchlist(live, {}).LookUp(host);
        assert found != {} <==> exists n :: n in live && Under(host, n) by {
          if n :| n in live && Under(host, n) { assert n in found; }
          if found != {} { var n :| n in found; assert Under(host, n); }
        }
        if found != {} { matched := matched + [raw]; }
      }
      assert sanHosts[..|sanHosts|] == sanHosts;
    }

    method Inspect(domains: seq<string>, meta: FrameMeta) returns (r: InspectOutcome<MatchEvent>)
      ensures Reports(names, suppress, domains, meta, r)
      ensures r.WellFormed()
    {
      if names == {} { return InspectOutcome(None, false); }
      var implicated, sanHosts := CollectHits(domains);
      if implicated == {} { return InspectOutcome(None, false); }
      implicated := implicated - suppress;
      if implicated == {} { return InspectOutcome(None, true); }
      var matched := KeepLive(sanHosts, implicated);
      TwoFilters(domains, names, implicated);
      var n :| n in implicated;
      HitsAreCovered(domains, implicated, n);
      if matched == [] { assert false; } // the remaining names always keep the names that hit them
      var keywords := SortNames(implicated);
      var sanCount := if |domains| <= U32_MAX then |domains| else U32_MAX;
      return InspectOutcome(Some(MatchEvent(matched, keywords, meta.seen, meta.source, meta.fingerprint, sanCount)), false);
    }
  }
}
