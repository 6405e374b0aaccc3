/** Names of sealed log chunks: a time stamp after the live name, perhaps compressed. */
module ChunkNames {
  import opened Event
  import opened Text

  const U128_MAX: nat := 0xFFFF_FFFF_FFFF_FFFF_FFFF_FFFF_FFFF_FFFF

  /** Time stamps: nanoseconds since the epoch. */
  type u128 = x: nat | x <= U128_MAX

  const GZ := ".gz"

  function RotatedName(live: string, ts: nat): string { live + "." + Decimal(ts) }

  function Suffix(gz: bool): string { if gz then GZ else "" }

  function SealedName(live: string, ts: nat, gz: bool): string {
    RotatedName(live, ts) + Suffix(gz)
  }

  function Stem(rest: string): string { StripSuffix(rest, GZ) }

  /** Chunks of this log, by name. */
  predicate IsRotatedSibling(live: string, name: string) {
    && live + "." <= name
    && Stem(name[|live| + 1..]) != ""
    && AllDigits(Stem(name[|live| + 1..]))
  }

  /** Unsigned 128-bit parsing; a leading plus sign is accepted. */
  function ParseU128(s: string): Option<nat> {
    var digits := if s != "" && s[0] == '+' then s[1..] else s;
    if digits == "" || !AllDigits(digits) || Value(digits) > U128_MAX then None else Some(Value(digits))
  }

  function AfterLastDot(name: string): string {
    match RSplitOnce(name, '.')
    case None => ""
    case Some((_, after)) => after
  }

  function SortKey(name: string): nat {
    var after := AfterLastDot(name);
    var stem := if after == "gz" then AfterLastDot(TrimEndMatches(name, GZ)) else after;
    match ParseU128(stem)
    case None => 0
    case Some(ts) => ts
  }

  lemma EndsInZ(s: string)
    requires EndsWith(s, GZ)
    ensures s[|s| - 1] == 'z'
  {
    assert s[|s| - 3..][2] == GZ[2];
  }

  lemma StemOf(stem: string, gz: bool)
    requires stem != "" && AllDigits(stem)
    ensures Stem(stem + Suffix(gz)) == stem
  {
    if gz {
      assert (stem + GZ)[|stem|..] == GZ && (stem + GZ)[..|stem|] == stem;
    } else {
      assert stem + "" == stem && IsDigit(stem[|stem| - 1]);
      if EndsWith(stem, GZ) { EndsInZ(stem); }
    }
  }

  /** Siblings are exactly the live name, a dot, some digits, and perhaps the suffix of a compressed
      chunk. */
  lemma SiblingShape(live: string, name: string)
    ensures IsRotatedSibling(live, name) <==>
      exists stem, gz :: stem != "" && AllDigits(stem) && name == live + "." + stem + Suffix(gz)
  {
    if IsRotatedSibling(live, name) {
      var rest := name[|live| + 1..];
      assert name == live + "." + rest;
      assert rest == Stem(rest) + Suffix(EndsWith(rest, GZ));
      assert name == live + "." + Stem(rest) + Suffix(EndsWith(rest, GZ));
    }
    forall stem, gz | stem != "" && AllDigits(stem) && name == live + "." + stem + Suffix(gz)
      ensures IsRotatedSibling(live, name)
    {
      StemIsSibling(live, stem, gz);
    }
  }

  lemma StemIsSibling(live: string, stem: string, gz: bool)
    requires stem != "" && AllDigits(stem)
    ensures IsRotatedSibling(live, live + "." + stem + Suffix(gz))
  {
    var name := live + "." + stem + Suffix(gz);
    assert name[..|live| + 1] == live + ".";
    assert name[|live| + 1..] == stem + Suffix(gz);
    StemOf(stem, gz);
  }

  /** The sort key reads the digits back, with or without compression. */
  lemma KeyOfStem(live: string, stem: string, gz: bool)
    requires stem != "" && AllDigits(stem)
    ensures SortKey(live + "." + stem + Suffix(gz)) == if Value(stem) <= U128_MAX then Value(stem) else 0
  {
    var plain := live + "." + stem;
    assert '.' !in stem;
    assert plain == live + ['.'] + stem;
    RSplitAtLast(live, stem, '.');
    hide RSplitOnce, Value;
    assert AfterLastDot(plain) == stem && IsDigit(stem[0]);
    assert stem != "gz";
    if gz { GzIsTrimmed(live, stem); } else { assert plain + "" == plain; }
  }

  lemma GzIsTrimmed(live: string, stem: string)
    requires stem != "" && AllDigits(stem)
    ensures var plain := live + "." + stem;
      AfterLastDot(plain + GZ) == "gz" && TrimEndMatches(plain + GZ, GZ) == plain
  {
    var plain := live + "." + stem;
    var name := plain + GZ;
    assert name == plain + ['.'] + "gz";
    RSplitAtLast(plain, "gz", '.');
    assert name[|plain|..] == GZ && name[..|plain|] == plain;
    assert plain[|plain| - 1] == stem[|stem| - 1] && IsDigit(stem[|stem| - 1]);
    if EndsWith(plain, GZ) { EndsInZ(plain); }
  }

  lemma LiveIsNoSibling(live: string)
    ensures !IsRotatedSibling(live, live)
  {
  }

  /** Sort key after chunk name is the identity on time stamps. */
  lemma KeyOfName(live: string, ts: nat, gz: bool)
    requires ts <= U128_MAX
    ensures IsRotatedSibling(live, SealedName(live, ts, gz)) && SortKey(SealedName(live, ts, gz)) == ts
    ensures SealedName(live, ts, gz) != live
  {
    DecimalRoundTrip(ts);
    StemIsSibling(live, Decimal(ts), gz);
    KeyOfStem(live, Decimal(ts), gz);
  }
}
