/** Strings as the program uses them: ordering, canonical sorted lists, the two
    list encodings of the novelty database, trimming and ASCII case. */
module Text {
  import opened Event

  /** ASCII unit separator: encoding of the mute keys. */
  const FIELD_SEP: char := '\U{1F}'

  /** Comma: encoding of the captured list columns. */
  const CSV_SEP: char := ','

  function Elems<T>(s: seq<T>): set<T> { set x | x in s }

  // ---------- ordering ----------

  /** Lexicographic order on characters, as `sort` orders strings. */
  predicate Less(a: string, b: string) {
    b != [] && (a == [] || a[0] < b[0] || (a[0] == b[0] && Less(a[1..], b[1..])))
  }

  lemma LessTotal(a: string, b: string)
    ensures a == b || Less(a, b) || Less(b, a)
  {
    if a != [] && b != [] && a[0] == b[0] {
      LessTotal(a[1..], b[1..]);
      assert a == [a[0]] + a[1..] && b == [b[0]] + b[1..];
    }
  }

  lemma LessIrreflexive(a: string)
    ensures !Less(a, a)
  {
    if a != [] { LessIrreflexive(a[1..]); }
  }

  lemma LessTransitive(a: string, b: string, c: string)
    requires Less(a, b) && Less(b, c)
    ensures Less(a, c)
  {
    if a != [] && a[0] == b[0] && b[0] == c[0] { LessTransitive(a[1..], b[1..], c[1..]); }
  }

  /** The order looks at the first character in which two strings differ; a proper prefix is smaller. */
  lemma {:induction false} LessIsLexicographic(a: string, b: string)
    ensures Less(a, b) <==> exists k: nat :: FirstDifference(a, b, k)
  {
    if a == [] || b == [] {
      if a == [] && b != [] { assert FirstDifference(a, b, 0); }
    } else if a[0] != b[0] {
      assert FirstDifference(a, b, 0) <==> a[0] < b[0];
      forall k: nat | FirstDifference(a, b, k) ensures k == 0 { assert a[..k] == b[..k]; }
    } else {
      LessIsLexicographic(a[1..], b[1..]);
      if Less(a[1..], b[1..]) {
        var k: nat :| FirstDifference(a[1..], b[1..], k);
        assert a[..k + 1] == [a[0]] + a[1..][..k] && b[..k + 1] == [b[0]] + b[1..][..k];
        assert FirstDifference(a, b, k + 1);
      }
      forall k: nat | FirstDifference(a, b, k) ensures k > 0 && FirstDifference(a[1..], b[1..], k - 1) {
        assert a[1..][..k - 1] == a[..k][1..] && b[1..][..k - 1] == b[..k][1..];
      }
    }
  }

  predicate FirstDifference(a: string, b: string, k: nat) {
    k <= |a| && k < |b| && a[..k] == b[..k] && (k == |a| || a[k] < b[k])
  }

  predicate StrictlySorted(s: seq<string>) {
    forall i, j :: 0 <= i < j < |s| ==> Less(s[i], s[j])
  }

  /** A strictly sorted list is determined by its members. */
  lemma {:induction false} SortedIsCanonical(s: seq<string>, t: seq<string>)
    requires StrictlySorted(s) && StrictlySorted(t) && Elems(s) == Elems(t)
    ensures s == t
  {
    assert |s| > 0 ==> s[0] in Elems(s);
    assert |t| > 0 ==> t[0] in Elems(t);
    if s != [] {
      HeadsAgree(s, t);
      TailElems(s);
      TailElems(t);
      SortedIsCanonical(s[1..], t[1..]);
      assert s == [s[0]] + s[1..] && t == [t[0]] + t[1..];
    }
  }

  lemma HeadsAgree(s: seq<string>, t: seq<string>)
    requires s != [] && t != []
    requires StrictlySorted(s) && StrictlySorted(t) && Elems(s) == Elems(t)
    ensures s[0] == t[0]
  {
    assert s[0] in Elems(t) && t[0] in Elems(s);
    if s[0] != t[0] {
      assert Less(t[0], s[0]);
      assert Less(s[0], t[0]);
      LessTransitive(s[0], t[0], s[0]);
      LessIrreflexive(s[0]);
    }
  }

  lemma TailElems(s: seq<string>)
    requires s != [] && StrictlySorted(s)
    ensures Elems(s[1..]) == Elems(s) - {s[0]}
  {
    LessIrreflexive(s[0]);
    assert forall x :: x in s ==> x == s[0] || x in s[1..];
  }

  /** Insert into a strictly sorted list, dropping a duplicate. */
  function InsertUnique(x: string, s: seq<string>): seq<string> {
    if s == [] then [x]
    else if x == s[0] then s
    else if Less(x, s[0]) then [x] + s
    else [s[0]] + InsertUnique(x, s[1..])
  }

  lemma {:induction false} InsertUniqueElems(x: string, s: seq<string>)
    ensures Elems(InsertUnique(x, s)) == Elems(s) + {x}
  {
    if s != [] {
      assert s == [s[0]] + s[1..];
      InsertUniqueElems(x, s[1..]);
      assert Elems([s[0]] + InsertUnique(x, s[1..])) == {s[0]} + Elems(InsertUnique(x, s[1..]));
    }
  }

  lemma {:induction false} InsertUniqueSorts(x: string, s: seq<string>)
    requires StrictlySorted(s)
    ensures StrictlySorted(InsertUnique(x, s))
  {
    if s != [] && x != s[0] {
      if Less(x, s[0]) {
        forall j | 0 < j < |s| ensures Less(x, s[j]) { LessTransitive(x, s[0], s[j]); }
      } else {
        LessTotal(x, s[0]);
        InsertUniqueSorts(x, s[1..]);
        InsertUniqueElems(x, s[1..]);
        PrependSorted(s[0], InsertUnique(x, s[1..]), s[1..], x);
      }
    }
  }

  lemma PrependSorted(h: string, rest: seq<string>, tail: seq<string>, x: string)
    requires StrictlySorted(rest) && Elems(rest) == Elems(tail) + {x}
    requires Less(h, x) && forall j :: 0 <= j < |tail| ==> Less(h, tail[j])
    ensures StrictlySorted([h] + rest)
  {
    forall j | 0 <= j < |rest| ensures Less(h, rest[j]) {
      assert rest[j] in Elems(rest);
    }
  }

  /** Collect into a hash set, then sort. */
  function SortedUnique(s: seq<string>): (r: seq<string>)
    ensures StrictlySorted(r)
    ensures Elems(r) == Elems(s)
  {
    if s == [] then [] else
      assert s == [s[0]] + s[1..];
      InsertUniqueSorts(s[0], SortedUnique(s[1..]));
      InsertUniqueElems(s[0], SortedUnique(s[1..]));
      InsertUnique(s[0], SortedUnique(s[1..]))
  }

  lemma SortedHasNoDuplicates(s: seq<string>, i: nat, j: nat)
    requires StrictlySorted(s) && i < |s| && j < |s| && s[i] == s[j]
    ensures i == j
  {
    LessIrreflexive(s[i]);
  }

  // ---------- list encodings ----------

  function Join(parts: seq<string>, sep: char): string {
    if |parts| == 0 then ""
    else if |parts| == 1 then parts[0]
    else parts[0] + [sep] + Join(parts[1..], sep)
  }

  ghost predicate FreeOf(parts: seq<string>, sep: char) {
    forall p :: p in parts ==> sep !in p
  }

  function IndexOf(s: string, c: char): (k: nat)
    ensures k <= |s| && c !in s[..k] && (k < |s| ==> s[k] == c)
  {
    if s == [] || s[0] == c then 0
    else
      var k := IndexOf(s[1..], c);
      assert s[..k + 1] == [s[0]] + s[1..][..k];
      1 + k
  }

  /** What stands before, between and after the separators of a string. */
  function Split(s: string, sep: char): (parts: seq<string>)
    ensures |parts| >= 1
  {
    var k := IndexOf(s, sep);
    if k == |s| then [s] else [s[..k]] + Split(s[k + 1..], sep)
  }

  lemma IndexIs(s: string, c: char, k: nat)
    requires k <= |s| && c !in s[..k] && (k < |s| ==> s[k] == c)
    ensures IndexOf(s, c) == k
  {
    var m := IndexOf(s, c);
    assert forall i :: 0 <= i < k ==> s[..k][i] == s[i];
    assert forall i :: 0 <= i < m ==> s[..m][i] == s[i];
  }

  /** Text up to the first separator is the first part. */
  lemma SplitFirst(first: string, rest: string, sep: char)
    requires sep !in first
    ensures Split(first, sep) == [first]
    ensures Split(first + [sep] + rest, sep) == [first] + Split(rest, sep)
  {
    var s := first + [sep] + rest;
    assert first[..|first|] == first && s[..|first|] == first && s[|first| + 1..] == rest;
    IndexIs(first, sep, |first|);
    IndexIs(s, sep, |first|);
  }

  /** Splitting undoes joining on non-empty lists whose parts do not hold the separator. */
  lemma {:induction false} SplitJoin(parts: seq<string>, sep: char)
    requires |parts| >= 1 && FreeOf(parts, sep)
    ensures Split(Join(parts, sep), sep) == parts
  {
    assert sep !in parts[0];
    if |parts| == 1 {
      SplitFirst(parts[0], "", sep);
    } else {
      SplitFirst(parts[0], Join(parts[1..], sep), sep);
      SplitJoin(parts[1..], sep);
    }
  }

  /** Joining is injective on such lists. */
  lemma JoinInjective(a: seq<string>, b: seq<string>, sep: char)
    requires |a| >= 1 && |b| >= 1
    requires FreeOf(a, sep) && FreeOf(b, sep)
    requires Join(a, sep) == Join(b, sep)
    ensures a == b
  {
    SplitJoin(a, sep);
    SplitJoin(b, sep);
  }

  /** Character-wise replacement: turns one list encoding into the other. */
  function Replace(s: string, from: char, to: char): (r: string)
    ensures |r| == |s|
  {
    seq(|s|, i requires 0 <= i < |s| => if s[i] == from then to else s[i])
  }

  lemma ReplaceAppend(s: string, t: string, from: char, to: char)
    ensures Replace(s + t, from, to) == Replace(s, from, to) + Replace(t, from, to)
  {
  }

  lemma {:induction false} ReplaceJoin(parts: seq<string>, from: char, to: char)
    requires FreeOf(parts, from)
    ensures Replace(Join(parts, from), from, to) == Join(parts, to)
  {
    if |parts| == 0 {
    } else {
      assert from !in parts[0];
      assert Replace(parts[0], from, to) == parts[0];
      if |parts| > 1 {
        ReplaceAppend(parts[0] + [from], Join(parts[1..], from), from, to);
        ReplaceAppend(parts[0], [from], from, to);
        assert Replace([from], from, to) == [to];
        ReplaceJoin(parts[1..], from, to);
      }
    }
  }

  // ---------- case and trimming ----------

  function LowerChar(c: char): char {
    if 'A' <= c <= 'Z' then (c as int + 32) as char else c
  }

  function Lower(s: string): (r: string)
    ensures |r| == |s|
  {
    seq(|s|, i requires 0 <= i < |s| => LowerChar(s[i]))
  }

  /** ASCII upper-case letters. */
  predicate IsUpper(c: char) { 'A' <= c <= 'Z' }

  predicate NoUpper(s: string) { forall i :: 0 <= i < |s| ==> !IsUpper(s[i]) }

  /** Each upper-case letter becomes the letter at the same place of the lower-case alphabet, and
      everything else stays. */
  lemma LowerFolds(s: string)
    ensures forall i :: 0 <= i < |s| ==>
      if IsUpper(s[i]) then 'a' <= Lower(s)[i] <= 'z' && Lower(s)[i] as int - 'a' as int == s[i] as int - 'A' as int
      else Lower(s)[i] == s[i]
    ensures NoUpper(Lower(s)) && (NoUpper(s) ==> Lower(s) == s) && Lower(Lower(s)) == Lower(s)
  {
  }

  lemma LowerAppend(a: string, b: string)
    ensures Lower(a + b) == Lower(a) + Lower(b)
  {
  }

  /** Unicode `White_Space`, the class `trim` strips. */
  predicate IsSpace(c: char) {
    '\U{9}' <= c <= '\U{D}' || c == ' ' || c == '\U{85}' || c == '\U{A0}' || c == '\U{1680}'
    || '\U{2000}' <= c <= '\U{200A}' || c == '\U{2028}' || c == '\U{2029}' || c == '\U{202F}'
    || c == '\U{205F}' || c == '\U{3000}'
  }

  function TrimStart(s: string): string {
    if s != [] && IsSpace(s[0]) then TrimStart(s[1..]) else s
  }

  function TrimEnd(s: string): string {
    if s != [] && IsSpace(s[|s| - 1]) then TrimEnd(s[..|s| - 1]) else s
  }

  function Trim(s: string): string { TrimEnd(TrimStart(s)) }

  function TrimEndChar(s: string, c: char): string {
    if s != [] && s[|s| - 1] == c then TrimEndChar(s[..|s| - 1], c) else s
  }

  predicate AllSpace(s: string) { forall i :: 0 <= i < |s| ==> IsSpace(s[i]) }

  /** Neither starts nor ends with a space. */
  predicate Bare(s: string) { s != "" ==> !IsSpace(s[0]) && !IsSpace(s[|s| - 1]) }

  lemma {:induction false} TrimStartStrips(pre: string, t: string)
    requires AllSpace(pre) && (t != "" ==> !IsSpace(t[0]))
    ensures TrimStart(pre + t) == t
  {
    if pre == "" {
      assert pre + t == t;
    } else {
      assert (pre + t)[1..] == pre[1..] + t && IsSpace(pre[0]);
      TrimStartStrips(pre[1..], t);
    }
  }

  lemma {:induction false} TrimEndStrips(t: string, post: string)
    requires AllSpace(post) && (t != "" ==> !IsSpace(t[|t| - 1]))
    ensures TrimEnd(t + post) == t
  {
    if post == "" {
      assert t + post == t;
    } else {
      assert (t + post)[..|t + post| - 1] == t + post[..|post| - 1] && IsSpace(post[|post| - 1]);
      TrimEndStrips(t, post[..|post| - 1]);
    }
  }

  /** Surrounding spaces go, all of them and nothing else. */
  lemma TrimStrips(pre: string, t: string, post: string)
    requires AllSpace(pre) && Bare(t) && AllSpace(post)
    ensures Trim(pre + t + post) == t
  {
    if t == "" {
      assert AllSpace(pre + post) && pre + t + post == (pre + post) + "";
      TrimStartStrips(pre + post, "");
    } else {
      assert pre + t + post == pre + (t + post);
      TrimStartStrips(pre, t + post);
      TrimEndStrips(t, post);
    }
  }

  lemma BareStays(s: string)
    requires Bare(s)
    ensures Trim(s) == s
  {
    TrimStrips("", s, "");
    assert "" + s + "" == s;
  }

  lemma LowerKeepsBare(s: string)
    requires Bare(s)
    ensures Bare(Lower(s))
  {
  }

  lemma {:induction false} TrimStartParts(s: string) returns (pre: string)
    ensures AllSpace(pre) && s == pre + TrimStart(s)
    ensures TrimStart(s) != "" ==> !IsSpace(TrimStart(s)[0])
  {
    pre := "";
    if s != "" && IsSpace(s[0]) {
      var rest := TrimStartParts(s[1..]);
      pre := [s[0]] + rest;
    }
  }

  lemma {:induction false} TrimEndParts(s: string) returns (post: string)
    ensures AllSpace(post) && s == TrimEnd(s) + post
    ensures TrimEnd(s) != "" ==> !IsSpace(TrimEnd(s)[|TrimEnd(s)| - 1])
  {
    post := "";
    if s != "" && IsSpace(s[|s| - 1]) {
      var rest := TrimEndParts(s[..|s| - 1]);
      post := rest + [s[|s| - 1]];
    }
  }

  /** Every string is its trimmed text between spaces. */
  lemma TrimParts(s: string) returns (pre: string, post: string)
    ensures AllSpace(pre) && AllSpace(post) && s == pre + Trim(s) + post && Bare(Trim(s))
  {
    pre := TrimStartParts(s);
    post := TrimEndParts(TrimStart(s));
  }

  /** Every `c` at the end goes, and nothing else. */
  lemma {:induction false} TrimEndCharParts(s: string, c: char) returns (n: nat)
    ensures n <= |s| && TrimEndChar(s, c) == s[..n] && (n > 0 ==> s[n - 1] != c)
    ensures forall i :: n <= i < |s| ==> s[i] == c
  {
    n := |s|;
    if s != "" && s[|s| - 1] == c {
      n := TrimEndCharParts(s[..|s| - 1], c);
      assert s[..|s| - 1][..n] == s[..n];
      forall i | n <= i < |s| ensures s[i] == c { assert i < |s| - 1 ==> s[..|s| - 1][i] == c; }
    }
  }

  function StripPrefix(s: string, prefix: string): string {
    if prefix <= s then s[|prefix|..] else s
  }

  predicate EndsWith(s: string, t: string) { |t| <= |s| && s[|s| - |t|..] == t }

  function StripSuffix(s: string, suffix: string): string {
    if EndsWith(s, suffix) then s[..|s| - |suffix|] else s
  }

  /** Strip the suffix as often as it occurs. */
  function TrimEndMatches(s: string, suffix: string): string
    requires suffix != ""
  {
    if EndsWith(s, suffix) then TrimEndMatches(s[..|s| - |suffix|], suffix) else s
  }

  /** Split at the last separator. */
  function RSplitOnce(s: string, sep: char): Option<(string, string)> {
    if s == "" then None
    else if s[|s| - 1] == sep then Some((s[..|s| - 1], ""))
    else
      match RSplitOnce(s[..|s| - 1], sep)
      case None => None
      case Some((before, after)) => Some((before, after + [s[|s| - 1]]))
  }

  lemma {:induction false} RSplitAtLast(before: string, after: string, sep: char)
    requires sep !in after
    ensures RSplitOnce(before + [sep] + after, sep) == Some((before, after))
  {
    var s := before + [sep] + after;
    if after == "" {
      assert s[..|s| - 1] == before;
    } else {
      assert s[..|s| - 1] == before + [sep] + after[..|after| - 1];
      RSplitAtLast(before, after[..|after| - 1], sep);
      assert after[..|after| - 1] + [after[|after| - 1]] == after;
    }
  }

  // ---------- decimal numbers ----------

  predicate IsDigit(c: char) { '0' <= c <= '9' }

  predicate AllDigits(s: string) { forall i :: 0 <= i < |s| ==> IsDigit(s[i]) }

  function Decimal(n: nat): string {
    (if n < 10 then "" else Decimal(n / 10)) + [('0' as int + n % 10) as char]
  }

  /** Value of a string of digits. */
  function Value(s: string): nat
    requires AllDigits(s)
  {
    if s == "" then 0 else 10 * Value(s[..|s| - 1]) + (s[|s| - 1] as int - '0' as int)
  }

  lemma {:induction false} DecimalRoundTrip(n: nat)
    ensures Decimal(n) != "" && AllDigits(Decimal(n)) && Value(Decimal(n)) == n
  {
    var front := if n < 10 then "" else Decimal(n / 10);
    if n >= 10 { DecimalRoundTrip(n / 10); }
    assert Decimal(n)[..|Decimal(n)| - 1] == front;
  }

  /** Among numerals of one width, the order of strings is the order of the numbers. */
  lemma {:induction false} SameWidthOrder(a: string, b: string)
    requires AllDigits(a) && AllDigits(b) && |a| == |b|
    ensures Less(a, b) <==> Value(a) < Value(b)
    ensures a == b <==> Value(a) == Value(b)
  {
    if a != "" {
      var n := |a| - 1;
      var x, y := a[..n], b[..n];
      SameWidthOrder(x, y);
      assert a == x + [a[n]] && b == y + [b[n]];
      LessAppend(x, y, a[n], b[n]);
    }
  }

  lemma {:induction false} LessAppend(x: string, y: string, c: char, d: char)
    requires |x| == |y|
    ensures Less(x + [c], y + [d]) <==> Less(x, y) || (x == y && c < d)
  {
    if x == [] {
      assert x + [c] == [c] && y + [d] == [d];
    } else {
      assert (x + [c])[1..] == x[1..] + [c] && (y + [d])[1..] == y[1..] + [d];
      LessAppend(x[1..], y[1..], c, d);
      assert x == [x[0]] + x[1..] && y == [y[0]] + y[1..];
    }
  }
}
