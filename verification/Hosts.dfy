/** What normalising a host name does, for the matcher and for the host rows of the engine, and what
    that makes of a certificate name in any spelling. */
module Hosts {
  import opened Event
  import opened Text
  import opened NoveltyAlert
  import opened Watchlist

  /** A host in normal form. */
  predicate PlainHost(h: string) {
    h != "" && Bare(h) && NoUpper(h) && h[|h| - 1] != '.' && !("*." <= h)
  }

  /** The name without surrounding spaces and trailing dots. */
  function Core(raw: string): string { Trim(TrimEndChar(Trim(raw), '.')) }

  function HostOf(core: string): Option<string> {
    var host := StripPrefix(Lower(core), "*.");
    if host == "" then None else Some(host)
  }

  lemma NormalIs(raw: string)
    ensures NormalizeHost(raw) == HostOf(Core(raw))
  {
  }

  // ---------- case ----------

  lemma {:induction false} TrimStartLower(s: string)
    ensures TrimStart(Lower(s)) == Lower(TrimStart(s))
  {
    if s != "" && IsSpace(s[0]) {
      assert Lower(s)[1..] == Lower(s[1..]);
      TrimStartLower(s[1..]);
    }
  }

  lemma {:induction false} TrimEndLower(s: string)
    ensures TrimEnd(Lower(s)) == Lower(TrimEnd(s))
  {
    if s != "" && IsSpace(s[|s| - 1]) {
      assert Lower(s)[..|s| - 1] == Lower(s[..|s| - 1]);
      TrimEndLower(s[..|s| - 1]);
    }
  }

  lemma {:induction false} TrimDotsLower(s: string)
    ensures TrimEndChar(Lower(s), '.') == Lower(TrimEndChar(s, '.'))
  {
    if s != "" && s[|s| - 1] == '.' {
      assert Lower(s)[..|s| - 1] == Lower(s[..|s| - 1]);
      TrimDotsLower(s[..|s| - 1]);
    }
  }

  lemma TrimLower(s: string)
    ensures Trim(Lower(s)) == Lower(Trim(s))
  {
    TrimStartLower(s);
    TrimEndLower(TrimStart(s));
  }

  /** A normal host has no upper-case letter, and letter case never matters. */
  lemma CaseDoesNotMatter(raw: string)
    ensures NormalizeHost(Lower(raw)) == NormalizeHost(raw)
    ensures NormalizeHost(raw).Some? ==> NoUpper(NormalizeHost(raw).value)
  {
    TrimLower(raw);
    TrimDotsLower(Trim(raw));
    TrimLower(TrimEndChar(Trim(raw), '.'));
    LowerFolds(Core(raw));
  }

  // ---------- spaces and dots ----------

  /** Surrounding spaces never matter. */
  lemma SpacesDoNotMatter(pre: string, raw: string, post: string)
    requires AllSpace(pre) && AllSpace(post)
    ensures NormalizeHost(pre + raw + post) == NormalizeHost(raw)
  {
    var p, q := TrimParts(raw);
    TrimStrips(pre + p, Trim(raw), q + post);
    assert (pre + p) + Trim(raw) + (q + post) == pre + (p + Trim(raw) + q) + post;
  }

  predicate EndsInSpace(s: string) { s != "" && IsSpace(s[|s| - 1]) }

  predicate EndsInDot(s: string) { s != "" && s[|s| - 1] == '.' }

  lemma DotGoes(s: string)
    ensures TrimEndChar(s + ".", '.') == TrimEndChar(s, '.')
  {
    assert (s + ".")[..|s|] == s;
  }

  /** A dot right behind the text goes with the dots before it. */
  lemma DotBehindText(pre: string, u: string)
    requires AllSpace(pre) && Bare(u)
    ensures Trim(pre + u + ".") == u + "."
  {
    TrimStrips(pre, u + ".", "");
    assert pre + (u + ".") + "" == pre + u + ".";
  }

  /** The core of a name with one more dot. */
  lemma CoreWithDot(raw: string)
    ensures Core(raw + ".") == if EndsInSpace(raw) then Trim(raw) else Core(raw)
  {
    var u := Trim(raw);
    var pre, post := TrimParts(raw);
    hide Trim, TrimEndChar, IsSpace;
    if u == "" || post == "" {
      if u == "" {
        DotBehindText(raw, "");
        assert raw + "" + "." == raw + "." && "" + "" == "";
        TidyEnd("", "");
      } else {
        DotBehindText(pre, u);
        assert pre + u + "." == raw + "." && raw[|raw| - 1] == u[|u| - 1];
      }
      DotGoes(u);
    } else {
      TrimStrips(pre, u + post + ".", "") by { DotIsNoSpace(); }
      assert raw + "." == pre + (u + post + ".") + "";
      assert raw[|raw| - 1] == post[|post| - 1];
      DotGoes(u + post);
      TidyEnd(u, post);
    }
  }

  lemma DotIsNoSpace()
    ensures !IsSpace('.')
  {
  }

  /** Spaces behind the text go, and shield its dots. */
  lemma TidyEnd(u: string, post: string)
    requires Bare(u) && AllSpace(post) && (u == "" <==> post == "")
    ensures Trim(TrimEndChar(u + post, '.')) == u
  {
    TrimStrips("", u, post);
    assert "" + u + post == u + post;
    assert TrimEndChar(u + post, '.') == u + post;
  }

  /** The core of a trimmed name ends before its dots, and before the spaces in front of them. */
  lemma CoreIsPrefix(raw: string)
    ensures var u, w := Trim(raw), Core(raw);
      && |w| <= |u| && w == u[..|w|]
      && (forall i :: |w| <= i < |u| ==> u[i] == '.' || IsSpace(u[i]))
      && (w == u <==> !EndsInDot(u))
  {
    var u := Trim(raw);
    var pre, post := TrimParts(raw);
    var n := TrimEndCharParts(u, '.');
    var p, q := TrimParts(u[..n]);
    if !EndsInDot(u) {
      assert u[..n] == u;
      BareStays(u);
    }
    hide Trim, TrimEndChar, IsSpace;
    if p != "" { assert false; } // the trimmed name does not start with a space
    assert u[..n] == Core(raw) + q;
  }

  /** A name whose trailing dots are kept never has the same host. */
  lemma DotsMatter(u: string, w: string)
    requires |w| < |u| && w == u[..|w|] && forall i :: |w| <= i < |u| ==> u[i] == '.' || IsSpace(u[i])
    ensures HostOf(u) != HostOf(w)
  {
    var low, short := Lower(u), Lower(w);
    assert short == low[..|w|];
    if "*." <= low && !("*." <= short) {
      assert low[0] == '*' && low[1] == '.' && |w| < 2;
      assert |w| == 1;
      if HostOf(u).Some? { assert low[2..][0] == low[2]; }
    }
  }

  /** One more trailing dot does not matter, except behind a space that follows a dot. */
  lemma DotMattersExactlyWhen(raw: string)
    ensures NormalizeHost(raw + ".") == NormalizeHost(raw) <==> !(EndsInSpace(raw) && EndsInDot(Trim(raw)))
  {
    hide Core, HostOf;
    NormalIs(raw);
    NormalIs(raw + ".");
    CoreWithDot(raw);
    CoreIsPrefix(raw);
    if EndsInDot(Trim(raw)) { DotsMatter(Trim(raw), Core(raw)); }
  }

  // ---------- normal hosts ----------

  /** A bare name without a trailing dot is its own core. */
  lemma TidyCore(san: string)
    requires Tidy(san)
    ensures Core(san) == san
  {
    BareStays(san);
    hide Trim;
    assert TrimEndChar(san, '.') == san;
  }

  lemma HostOfPlain(h: string)
    requires h != "" && NoUpper(h) && !("*." <= h)
    ensures HostOf(h) == Some(h) && HostOf("*." + h) == Some(h)
  {
    LowerFolds(h);
    LowerFolds("*.");
    LowerAppend("*.", h);
    hide Lower, NoUpper;
    assert ("*." + h)[2..] == h;
  }

  lemma WildIsTidy(h: string)
    requires PlainHost(h)
    ensures Tidy(h) && Tidy("*." + h) && NoUpper(h)
  {
    var wild := "*." + h;
    assert wild[0] == '*' && wild[|wild| - 1] == h[|h| - 1];
  }

  /** A normal host stands for itself, with or without a wildcard. */
  lemma PlainHostStays(h: string)
    requires PlainHost(h)
    ensures NormalizeHost(h) == Some(h) && NormalizeHost("*." + h) == Some(h)
  {
    WildIsTidy(h);
    hide Core, HostOf, NormalizeHost, Tidy, Bare, NoUpper;
    TidyCore(h);
    TidyCore("*." + h);
    NormalIs(h);
    NormalIs("*." + h);
    HostOfPlain(h);
  }

  /** Such a name: a host, a dot and a space. Without another dot it stands for the host, with it for the
      host and its dot. */
  lemma DotBehindSpace(h: string)
    requires PlainHost(h) && h != "*"
    ensures NormalizeHost(h + ". ") == Some(h) && NormalizeHost(h + ". " + ".") == Some(h + ".")
  {
    var raw, dotted := h + ". ", h + ".";
    WildIsTidy(h);
    DottedIsPlain(h);
    hide HostOf, NormalizeHost, NoUpper;
    TrimStrips("", dotted, " ");
    assert "" + dotted + " " == raw && raw[|raw| - 1] == ' ';
    assert dotted[..|h|] == h && TrimEndChar(dotted, '.') == TrimEndChar(h, '.');
    TidyCore(h);
    BareStays(h);
    CoreWithDot(raw);
    hide Core, Trim, TrimEndChar, Bare, Tidy;
    NormalIs(raw);
    NormalIs(raw + ".");
    HostOfPlain(h);
    HostOfPlain(dotted);
  }

  lemma DottedIsPlain(h: string)
    requires PlainHost(h) && h != "*"
    ensures Bare(h + ".") && NoUpper(h + ".") && !("*." <= h + ".")
  {
    var dotted := h + ".";
    assert dotted[0] == h[0] && dotted[|h|] == '.';
    if |h| >= 2 { assert h[..2] == dotted[..2]; }
  }

  /** A certificate name without spaces around it and without a trailing dot. */
  predicate Tidy(san: string) { san != "" && Bare(san) && san[|san| - 1] != '.' }

  lemma WildcardUnder(host: string, name: string)
    requires host != "" && !("*." <= name)
    ensures Under(host, name) <==> "*." + host == name || EndsWith("*." + host, "." + name)
  {
    var wild, dotted := "*." + host, "." + name;
    var cut := |wild| - |dotted|;
    if cut >= 2 {
      assert wild[cut..] == host[cut - 2..];
    } else if cut == 1 {
      assert wild[1..] == "." + host && dotted[1..] == name && ("." + host)[1..] == host;
    } else if cut == 0 {
      assert wild[0..] == wild && wild[0] == '*' && dotted[0] == '.';
    }
  }

  /** Whatever its letter case, a tidy name is covered by a normal name exactly when it is that name or
      ends in a dot and that name. */
  lemma CoversExactlyWhen(san: string, name: string)
    requires Tidy(san) && PlainHost(name)
    ensures Covers(san, name) <==> Lower(san) == name || EndsWith(Lower(san), "." + name)
  {
    TidyCore(san);
    NormalIs(san);
    LowerFolds(san);
    hide Core, NormalizeHost, Lower, Under;
    var low := Lower(san);
    if "*." <= low {
      var host := low[2..];
      assert low == "*." + host;
      assert low[|low| - 1] != '.';
      WildcardUnder(host, name);
    } else {
      assert Under(low, name) <==> low == name || EndsWith(low, "." + name) by { UnderIs(low, name); }
    }
  }

  lemma UnderIs(host: string, name: string)
    ensures Under(host, name) <==> host == name || EndsWith(host, "." + name)
  {
  }

  lemma {:induction false} CoveredIsKept(domains: seq<string>, names: set<string>, i: nat)
    requires i < |domains| && CoveredBySome(domains[i], names)
    ensures domains[i] in CoveredDomains(domains, names)
  {
    if i < |domains| - 1 {
      assert domains[..|domains| - 1][i] == domains[i];
      CoveredIsKept(domains[..|domains| - 1], names, i);
    }
  }

  /** A certificate name in any letter case that is a watched name, or ends in a dot and a watched name,
      is reported with that name. */
  lemma AnyCaseIsReported(names: set<string>, suppress: set<string>, domains: seq<string>, meta: FrameMeta,
                          r: InspectOutcome<MatchEvent>, i: nat, name: string)
    requires Reports(names, suppress, domains, meta, r) && i < |domains| && Tidy(domains[i])
    requires PlainHost(name) && (Lower(domains[i]) == name || EndsWith(Lower(domains[i]), "." + name))
    requires name in names && name !in suppress
    ensures r.event.Some? && name in r.event.value.keywords && domains[i] in r.event.value.domains
  {
    CoversExactlyWhen(domains[i], name);
    hide Covers, Tidy, PlainHost;
    assert name in Hits(names, domains);
    var live := Hits(names, domains) - suppress;
    assert name in live && CoveredBySome(domains[i], live);
    CoveredIsKept(domains, live, i);
    assert name in Elems(r.event.value.keywords);
  }

  // ---------- the engine's hosts ----------

  /** The engine's own normalisation gives the matcher's host, except for a name with a space in front of
      its trailing dots. */
  lemma EngineHostExactlyWhen(d: string)
    ensures var own := AlertHost(d);
      NormalizeHost(d) == (if own == "" then None else Some(own)) <==> !EndsInSpace(TrimEndChar(Trim(d), '.'))
  {
    var pre, post := TrimParts(d);
    var v := TrimEndChar(Trim(d), '.');
    var n := TrimEndCharParts(Trim(d), '.');
    var p, q := TrimParts(v);
    if EndsInSpace(v) {
      EngineKeepsSpace(v);
    } else {
      assert Bare(v);
      BareStays(v);
    }
  }

  lemma EngineKeepsSpace(v: string)
    requires EndsInSpace(v)
    ensures var own := StripPrefix(Lower(v), "*.");
      own != "" && HostOf(Trim(v)) != Some(own)
  {
    var p, q := TrimParts(v);
    LowerKeepsBare(Trim(v));
    hide Trim;
    var low, short := Lower(v), Lower(Trim(v));
    assert EndsInSpace(low) && Bare(short);
    hide Lower, IsSpace;
    StrippedEnd(low);
    StrippedEnd(short);
  }

  lemma StrippedEnd(s: string)
    ensures var t := StripPrefix(s, "*.");
      && (EndsInSpace(s) ==> EndsInSpace(t)) && (Bare(s) && t != "" ==> !EndsInSpace(t))
  {
    var t := StripPrefix(s, "*.");
    if t != "" { assert t[|t| - 1] == s[|s| - 1]; }
  }
}
