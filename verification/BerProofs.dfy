/** The BER-TLV parser and encoder are inverse to each other on every input. */
module BerProofs {
  import opened Wrappers
  import opened Bytes
  import opened Ber

  // ---- Encode, then parse ----

  lemma TagReads(t: Tag, rest: seq<byte>)
    requires WellFormed(t)
    ensures ReadTag(TagOctets(t) + rest) == Ok(Cursor(t, |TagOctets(t)|))
  {
  }

  /** Every length beyond the short form is a marker and a big-endian number of one to four octets. */
  lemma LongLength(n: nat) returns (width: nat)
    requires 128 <= n < U32_LIMIT
    ensures 1 <= width <= 4 && n < Pow256(width) && LengthOctets(n) == [0x80 + width] + ToBe(n, width)
    ensures width > 1 ==> n >= Pow256(width - 1)
  {
    Pow256Values();
    width := if n < 256 then 1 else if n < U16_LIMIT then 2 else if n < 0x100_0000 then 3 else 4;
    if width == 1 {
      assert ToBe(n, 1) == ToBe(n / 256, 0) + [n];
    }
  }

  lemma LongLengthReads(prefix: seq<byte>, n: nat, width: nat, rest: seq<byte>)
    requires 1 <= width <= 4 && n < Pow256(width)
    ensures ReadLength(prefix + ([0x80 + width] + ToBe(n, width)) + rest, |prefix|) ==
            Ok(Cursor(n, |prefix| + 1 + width))
  {
    hide ToBe, FromBe, Pow256;
    var b, at := prefix + ([0x80 + width] + ToBe(n, width)) + rest, |prefix|;
    assert b[at] == 0x80 + width && b[at] % 16 == width;
    assert b[at + 1..at + 1 + width] == ToBe(n, width);
    BeRoundTrip(n, width);
  }

  lemma LengthReads(prefix: seq<byte>, n: nat, rest: seq<byte>)
    requires n < U32_LIMIT
    ensures ReadLength(prefix + LengthOctets(n) + rest, |prefix|) == Ok(Cursor(n, |prefix| + |LengthOctets(n)|))
  {
    if n < 128 {
      assert (prefix + LengthOctets(n) + rest)[|prefix|] == n;
    } else {
      hide LengthOctets, ReadLength, ToBe;
      var width := LongLength(n);
      LongLengthReads(prefix, n, width, rest);
    }
  }

  /** Whatever follows a record, parsing its encoding gives back its tag and value and the octets it took. */
  lemma EncodedRecordParses(r: Record, suffix: seq<byte>)
    requires Encodable(r)
    ensures Parse(Encode(r) + suffix) == Ok(Tlv(r.tag, r.value, |Encode(r)|))
  {
    hide ReadTag, ReadLength, TagOctets, LengthOctets;
    var tag, length := TagOctets(r.tag), LengthOctets(|r.value|);
    Regroup(tag, length, r.value, suffix);
    TagReads(r.tag, length + r.value + suffix);
    LengthReads(tag, |r.value|, r.value + suffix);
    TagIsOctets(r.tag);
  }

  lemma Regroup(tag: seq<byte>, length: seq<byte>, value: seq<byte>, suffix: seq<byte>)
    ensures var b, at := tag + length + value + suffix, |tag| + |length|;
            && b == tag + (length + value + suffix) && b == tag + length + (value + suffix)
            && b[at..at + |value|] == value
  {
  }

  lemma TagIsOctets(t: Tag)
    requires WellFormed(t)
    ensures |TagOctets(t)| > 0
  {
  }

  function EncodeAll(rs: seq<Record>): seq<byte>
    requires forall i :: 0 <= i < |rs| ==> Encodable(rs[i])
  {
    if rs == [] then [] else Encode(rs[0]) + EncodeAll(rs[1..])
  }

  function SizeSum(ts: seq<Result<Tlv, BerError>>): nat
    requires forall i :: 0 <= i < |ts| ==> ts[i].Ok?
  {
    if ts == [] then 0 else ts[0].value.size + SizeSum(ts[1..])
  }

  /**
   * Iterating over the encodings of any records yields exactly those records, in order, without
   * error, with sizes that add up to the whole buffer.
   */
  lemma {:induction false} RecordsIterateBack(rs: seq<Record>)
    requires forall i :: 0 <= i < |rs| ==> Encodable(rs[i])
    ensures var ts := Yielded(EncodeAll(rs));
            && |ts| == |rs|
            && (forall i :: 0 <= i < |rs| ==>
                  ts[i].Ok? && ts[i].value.tag == rs[i].tag && ts[i].value.value == rs[i].value)
            && SizeSum(ts) == |EncodeAll(rs)|
  {
    hide Parse, Encode, Encodable;
    if rs != [] {
      var rest := EncodeAll(rs[1..]);
      EncodedRecordParses(rs[0], rest);
      RecordsIterateBack(rs[1..]);
      var b := EncodeAll(rs);
      assert b == Encode(rs[0]) + rest;
      assert b[|Encode(rs[0])|..] == rest;
      assert Yielded(b) == [Parse(b)] + Yielded(rest);
      assert Yielded(b)[1..] == Yielded(rest);
    }
  }

  /** Octets that are no record, behind records, are yielded as one error after them, and end the iteration. */
  lemma {:induction false} FaultEndsTheIteration(rs: seq<Record>, bad: seq<byte>)
    requires forall i :: 0 <= i < |rs| ==> Encodable(rs[i])
    requires bad != [] && Parse(bad).Err?
    ensures Yielded(EncodeAll(rs) + bad) == Yielded(EncodeAll(rs)) + [Err(Parse(bad).error)]
  {
    hide Parse, Encode, Encodable;
    if rs == [] {
      assert EncodeAll(rs) + bad == bad;
    } else {
      var whole, cut := EncodeAll(rs[1..]) + bad, EncodeAll(rs[1..]);
      FaultEndsTheIteration(rs[1..], bad);
      FirstYield(rs[0], whole);
      FirstYield(rs[0], cut);
      hide Yielded;
      assert EncodeAll(rs) == Encode(rs[0]) + cut;
      assert EncodeAll(rs) + bad == Encode(rs[0]) + whole;
    }
  }

  lemma FirstYield(r: Record, rest: seq<byte>)
    requires Encodable(r)
    ensures Yielded(Encode(r) + rest) == [Ok(Tlv(r.tag, r.value, |Encode(r)|))] + Yielded(rest)
  {
    hide Parse, Encode, Encodable;
    EncodedRecordParses(r, rest);
    assert (Encode(r) + rest)[|Encode(r)|..] == rest;
  }

  // ---- What follows a record does not matter ----

  /** A verdict other than running out of input is the same whatever octets follow. */
  lemma SuffixDoesNotMatter(b: seq<byte>, suffix: seq<byte>)
    requires Parse(b) != Err(Truncated) && Parse(b) != Err(Empty)
    ensures Parse(b + suffix) == Parse(b)
  {
    hide WellFormed, IsLeader;
    var whole := b + suffix;
    assert ReadTag(whole) == ReadTag(b);
    if ReadTag(b).Ok? {
      var at := ReadTag(b).value.at;
      LengthIgnoresSuffix(b, suffix, at);
      if ReadLength(b, at).Ok? {
        var c := ReadLength(b, at).value;
        assert whole[c.at..c.at + c.n] == b[c.at..c.at + c.n];
      }
    }
  }

  lemma LengthIgnoresSuffix(b: seq<byte>, suffix: seq<byte>, at: nat)
    requires at <= |b| && ReadLength(b, at) != Err(Truncated)
    ensures ReadLength(b + suffix, at) == ReadLength(b, at)
  {
    var count := b[at] % 16;
    if ReadLength(b, at).Ok? && b[at] >= 128 {
      assert (b + suffix)[at + 1..at + 1 + count] == b[at + 1..at + 1 + count];
    }
  }

  // ---- Parse, then encode ----

  /** The length octets of a parsed record. */
  function LengthPart(b: seq<byte>): seq<byte>
    requires Parse(b).Ok?
  {
    var at := ReadTag(b).value.at;
    b[at..ReadLength(b, at).value.at]
  }

  /** Length octets that no shorter form could replace. */
  predicate IsShortest(octets: seq<byte>) {
    && octets != []
    && (|octets| == 2 ==> octets[1] >= 128)
    && (|octets| > 2 ==> octets[1] != 0)
  }

  /** A big-endian number needs all its octets exactly when the first is not zero. */
  lemma {:induction false} BeLeads(s: seq<byte>)
    requires s != []
    ensures FromBe(s) < Pow256(|s| - 1) <==> s[0] == 0
  {
    if |s| == 1 {
      assert s[..0] == [] && FromBe(s) == s[0];
    } else {
      BeLeads(s[..|s| - 1]);
    }
  }

  /**
   * Length octets the parser reads as `n`: never fewer than the encoder's, and as many only when
   * they are the encoder's.
   */
  lemma LengthOctetsAreShortest(b: seq<byte>, at: nat)
    requires at <= |b| && ReadLength(b, at).Ok?
    ensures var c := ReadLength(b, at).value;
            && c.n < U32_LIMIT
            && |LengthOctets(c.n)| <= c.at - at
            && (b[at..c.at] == LengthOctets(c.n) <==> IsShortest(b[at..c.at]))
            && (|LengthOctets(c.n)| == c.at - at <==> IsShortest(b[at..c.at]))
  {
    hide FromBe, ToBe, Pow256, LengthOctets, IsShortest;
    var c := ReadLength(b, at).value;
    var octets := b[at..c.at];
    if b[at] < 128 {
      assert octets == [b[at]];
      ShortForm(b[at]);
    } else {
      var s := b[at + 1..c.at];
      assert octets == [b[at]] + s;
      BeBound(s);
      BeLeads(s);
      BeUnique(s);
      LongForm(b[at], s);
    }
  }

  lemma {:induction false} Pow256Grows(a: nat, b: nat)
    requires a <= b
    ensures Pow256(a) <= Pow256(b)
  {
    if a < b {
      Pow256Grows(a, b - 1);
    }
  }

  lemma ShortForm(n: byte)
    requires n < 128
    ensures LengthOctets(n) == [n] && IsShortest([n])
  {
    hide ToBe;
  }

  lemma LongForm(first: byte, s: seq<byte>)
    requires 0x81 <= first <= 0x84 && |s| == first % 16
    requires FromBe(s) < Pow256(|s|) && ToBe(FromBe(s), |s|) == s && (FromBe(s) < Pow256(|s| - 1) <==> s[0] == 0)
    ensures FromBe(s) < U32_LIMIT && |LengthOctets(FromBe(s))| <= 1 + |s|
    ensures [first] + s == LengthOctets(FromBe(s)) <==> IsShortest([first] + s)
    ensures |LengthOctets(FromBe(s))| == 1 + |s| <==> IsShortest([first] + s)
  {
    var n := FromBe(s);
    LongValue(s);
    Pow256Grows(|s|, 4);
    Pow256Values();
    hide FromBe, ToBe, Pow256;
    if n < 128 {
      if |s| > 1 {
        Pow256Grows(1, |s| - 1);
      }
      assert LengthOctets(n) == [n];
    } else {
      LongFormWidth(first, s, n);
    }
  }

  lemma LongValue(s: seq<byte>)
    ensures |s| == 1 ==> FromBe(s) == s[0]
  {
    if |s| == 1 {
      assert s[..0] == [];
    }
  }

  lemma LongFormWidth(first: byte, s: seq<byte>, n: nat)
    requires 0x81 <= first <= 0x84 && |s| == first % 16 && 128 <= n < U32_LIMIT
    requires n < Pow256(|s|) && ToBe(n, |s|) == s && (n < Pow256(|s| - 1) <==> s[0] == 0) && (|s| == 1 ==> n == s[0])
    ensures |LengthOctets(n)| <= 1 + |s|
    ensures [first] + s == LengthOctets(n) <==> IsShortest([first] + s)
    ensures |LengthOctets(n)| == 1 + |s| <==> IsShortest([first] + s)
  {
    hide FromBe, ToBe, Pow256, LengthOctets;
    var width := LongLength(n);
    if width > |s| {
      Pow256Grows(|s|, width - 1);
    } else if width < |s| {
      Pow256Grows(width, |s| - 1);
    } else {
      assert [first] + s == [0x80 + width] + ToBe(n, width);
    }
  }

  /**
   * Every record the parser accepts, from any input, encodes again to at most as many octets, parses
   * back to the same tag and value, and reproduces the input exactly when its length octets were the
   * shortest form.
   */
  lemma ParsedRecordEncodes(b: seq<byte>)
    requires Parse(b).Ok?
    ensures var t := Parse(b).value;
            var r := Record(t.tag, t.value);
            && Encodable(r)
            && |Encode(r)| <= t.size
            && Parse(Encode(r)) == Ok(Tlv(t.tag, t.value, |Encode(r)|))
            && (Encode(r) == b[..t.size] <==> IsShortest(LengthPart(b)))
  {
    var t := Parse(b).value;
    var r := Record(t.tag, t.value);
    var start := ReadTag(b).value.at;
    var c := ReadLength(b, start).value;
    LengthOctetsAreShortest(b, start);
    hide ReadLength, LengthOctets, IsShortest;
    assert TagOctets(t.tag) == b[..start];
    assert |t.value| == c.n;
    EncodedRecordParses(r, []);
    assert Encode(r) + [] == Encode(r);
    SplitInput(b, start, c.at, t.size);
    if IsShortest(LengthPart(b)) {
      assert Encode(r) == b[..t.size];
    } else {
      assert |Encode(r)| < t.size;
    }
  }

  lemma SplitInput(b: seq<byte>, i: nat, j: nat, k: nat)
    requires i <= j <= k <= |b|
    ensures b[..k] == b[..i] + b[i..j] + b[j..k]
  {
  }

  // ---- The wire format (ITU-T X.690 sections 8.1.2 and 8.1.3) ----

  /** The octets a length takes after the first, in the shortest form. */
  function LengthWidth(n: nat): nat {
    if n < 128 then 0 else if n < 0x100 then 1 else if n < 0x1_0000 then 2 else if n < 0x100_0000 then 3 else 4
  }

  /**
   * Length octets: below 128 the number itself, else 0x80 plus a count and that many big-endian
   * octets, no more than needed.
   */
  lemma LengthIsX690(n: nat)
    requires n < U32_LIMIT
    ensures var l, width := LengthOctets(n), LengthWidth(n);
            && |l| == 1 + width && l[0] == (if width == 0 then n else 0x80 + width)
            && forall i :: 1 <= i <= width ==> l[i] == Digit(n, width - i)
  {
    if n >= 128 {
      var width := LengthWidth(n);
      LongFormOctets(n);
      hide Digit, ToBe, LengthOctets, LengthWidth;
      forall i | 1 <= i <= width ensures LengthOctets(n)[i] == Digit(n, width - i) {
        BeDigits(n, width, i - 1);
      }
    }
  }

  lemma LongFormOctets(n: nat)
    requires 128 <= n < U32_LIMIT
    ensures LengthOctets(n) == [0x80 + LengthWidth(n)] + ToBe(n, LengthWidth(n))
  {
    if n < 256 {
      assert n / 256 == 0 && n % 256 == n;
    }
  }

  /** Tag octets: one that does not end in five ones, or one that does and one below 0x80; no other tag has any. */
  lemma TagIsX690(t: Tag)
    ensures WellFormed(t) <==> if t < 0x100 then t % 32 != 31 else t / 0x100 % 32 == 31 && t % 0x100 < 0x80
    ensures WellFormed(t) ==> TagOctets(t) == if t < 0x100 then [t] else [t / 0x100, t % 0x100]
  {
  }

  /** A length in any long form of one to four octets is read, needed or not. */
  lemma AnyLengthParses(tag: Tag, value: seq<byte>, width: nat, suffix: seq<byte>)
    requires WellFormed(tag) && 1 <= width <= 4 && |value| < Pow256(width)
    ensures var head := TagOctets(tag) + ([0x80 + width] + ToBe(|value|, width));
            Parse(head + value + suffix) == Ok(Tlv(tag, value, |head| + |value|))
  {
    hide ReadTag, ReadLength, TagOctets, ToBe, Pow256;
    var t, l := TagOctets(tag), [0x80 + width] + ToBe(|value|, width);
    Regroup(t, l, value, suffix);
    TagReads(tag, l + value + suffix);
    LongLengthReads(t, |value|, width, value + suffix);
    TagIsOctets(tag);
  }

  /** Why a record is refused, told from its octets. */
  lemma RefusalsAreX690(b: seq<byte>)
    ensures Parse(b) == Err(Empty) <==> b == []
    ensures Parse(b) == Err(UnsupportedTagForm) <==> |b| >= 2 && b[0] % 32 == 31 && b[1] >= 0x80
    ensures Parse(b) == Err(UnsupportedLengthForm) <==>
              || (|b| >= 2 && b[0] % 32 != 31 && (b[1] == 0x80 || b[1] > 0x84))
              || (|b| >= 3 && b[0] % 32 == 31 && b[1] < 0x80 && (b[2] == 0x80 || b[2] > 0x84))
  {
  }

  /** A record cut anywhere inside is reported truncated. */
  lemma CutRecordIsTruncated(b: seq<byte>, k: nat)
    requires Parse(b).Ok? && 0 < k < Parse(b).value.size
    ensures Parse(b[..k]) == Err(Truncated)
  {
    hide ReadTag, ReadLength;
    assert b[..k] + b[k..] == b;
    RefusalsAreX690(b[..k]);
    if Parse(b[..k]) != Err(Truncated) {
      SuffixDoesNotMatter(b[..k], b[k..]);
      assert false;
    }
  }
}
