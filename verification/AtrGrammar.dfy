/**
 * The grammar of ISO 7816-3 section 8 in plain numbers, and the parser against it: which byte strings
 * are accepted, as what, and what each refusal says.
 */
module AtrGrammar {
  import opened Wrappers
  import opened Atr
  import opened AtrProofs

  // ---- The grammar ----

  function Weight(b: Option<bv8>, weight: bv8): bv8 {
    if b.Some? then weight else 0
  }

  /** The nibble that announces a group: TA counts 1, TB 2, TC 4 and TD 8. */
  function Presence(g: Group): bv8 {
    Weight(g.ta, 1) + Weight(g.tb, 2) + Weight(g.tc, 4) + Weight(g.td, 8)
  }

  function Count(b: Option<bv8>): nat {
    if b.Some? then 1 else 0
  }

  function Size(g: Group): nat {
    Count(g.ta) + Count(g.tb) + Count(g.tc) + Count(g.td)
  }

  predicate Holds(bytes: seq<bv8>, at: nat, b: Option<bv8>) {
    b.Some? ==> at < |bytes| && bytes[at] == b.value
  }

  /** The group stands at `at`, its bytes in the order TA, TB, TC, TD. */
  predicate Spells(bytes: seq<bv8>, at: nat, g: Group) {
    && Holds(bytes, at, g.ta)
    && Holds(bytes, at + Count(g.ta), g.tb)
    && Holds(bytes, at + Count(g.ta) + Count(g.tb), g.tc)
    && Holds(bytes, at + Count(g.ta) + Count(g.tb) + Count(g.tc), g.td)
  }

  function ChainSize(groups: seq<Group>): nat {
    if groups == [] then 0 else Size(groups[0]) + ChainSize(groups[1..])
  }

  /** The groups stand from `at` on; a nibble announces the first and each TD's high nibble the next. */
  predicate SpellsChain(bytes: seq<bv8>, at: nat, groups: seq<Group>, nibble: bv8)
    decreases |groups|
  {
    if groups == [] then nibble == 0
    else
      && nibble != 0 && Presence(groups[0]) == nibble && Spells(bytes, at, groups[0])
      && SpellsChain(bytes, at + Size(groups[0]), groups[1..],
                     if groups[0].td.Some? then groups[0].td.value / 16 else 0)
  }

  predicate NamesAnotherProtocol(groups: seq<Group>) {
    exists i :: 0 <= i < |groups| && groups[i].td.Some? && groups[i].td.value % 16 != 0
  }

  function Mask(k: nat): bv8 {
    match k
    case 0 => 1
    case 1 => 2
    case 2 => 4
    case 3 => 8
    case 4 => 16
    case 5 => 32
    case 6 => 64
    case _ => 128
  }

  predicate Bit(b: bv8, k: nat) {
    b & Mask(k) != 0
  }

  function BitCount(s: seq<bv8>, k: nat): nat {
    if s == [] then 0 else BitCount(s[..|s| - 1], k) + if Bit(s[|s| - 1], k) then 1 else 0
  }

  /** Every bit is set in an even number of the bytes. */
  predicate EvenBits(s: seq<bv8>) {
    forall k :: 0 <= k < 8 ==> BitCount(s, k) % 2 == 0
  }

  /** The bytes spell this Answer to Reset. */
  predicate IsAtr(bytes: seq<bv8>, a: Atr) {
    var end := 2 + ChainSize(a.groups);
    && 2 <= |bytes| <= 33
    && bytes[0] == (match a.convention case Direct => 0x3B case Inverse => 0x3F)
    && a.t0 == T0(bytes[1] / 16, bytes[1] % 16)
    && SpellsChain(bytes, 2, a.groups, bytes[1] / 16)
    && |a.historical| == (bytes[1] % 16) as nat
    && end + |a.historical| <= |bytes| && bytes[end..end + |a.historical|] == a.historical
    && if NamesAnotherProtocol(a.groups)
       then |bytes| == end + |a.historical| + 1 && a.tck == Some(bytes[|bytes| - 1]) && EvenBits(bytes[1..])
       else |bytes| == end + |a.historical| && a.tck == None
  }

  // ---- Masks and shifts are that arithmetic ----

  lemma NibblesAreDigits(b: bv8)
    ensures b >> 4 == b / 16 && b & 0x0F == b % 16 && b / 16 < 16 && b % 16 < 16
  {
  }

  lemma PresenceIsMasks(g: Group, y: bv8)
    requires y < 16
    ensures Presence(g) == y <==> Announced(g, y)
  {
  }

  lemma OneByteHolds(bytes: seq<bv8>, at: nat, b: Option<bv8>)
    requires at <= |bytes|
    ensures At(bytes, at, OneByte(b)) <==> Holds(bytes, at, b)
    ensures |OneByte(b)| == Count(b)
  {
    if b.Some? && at < |bytes| {
      assert bytes[at..at + 1] == [bytes[at]];
    }
  }

  lemma GroupSpelled(bytes: seq<bv8>, at: nat, g: Group)
    requires at <= |bytes|
    ensures At(bytes, at, GroupBytes(g)) <==> Spells(bytes, at, g)
    ensures |GroupBytes(g)| == Size(g)
    ensures Spells(bytes, at, g) ==> at + Size(g) <= |bytes|
  {
    hide At, OneByte, Count, Holds;
    var a, b, c, d := OneByte(g.ta), OneByte(g.tb), OneByte(g.tc), OneByte(g.td);
    AtSplits(bytes, at, a + b + c, d);
    AtSplits(bytes, at, a + b, c);
    AtSplits(bytes, at, a, b);
    BytesSpelled(bytes, at, g.ta);
    if at + |a| <= |bytes| {
      BytesSpelled(bytes, at + |a|, g.tb);
      if at + |a| + |b| <= |bytes| {
        BytesSpelled(bytes, at + |a| + |b|, g.tc);
        if at + |a| + |b| + |c| <= |bytes| {
          BytesSpelled(bytes, at + |a| + |b| + |c|, g.td);
        }
      }
    }
    SizesAgree(g);
  }

  lemma SizesAgree(g: Group)
    ensures |OneByte(g.ta)| == Count(g.ta) && |OneByte(g.tb)| == Count(g.tb)
    ensures |OneByte(g.tc)| == Count(g.tc) && |OneByte(g.td)| == Count(g.td)
  {
  }

  /** A byte that is there fits. */
  lemma BytesSpelled(bytes: seq<bv8>, at: nat, b: Option<bv8>)
    requires at <= |bytes|
    ensures At(bytes, at, OneByte(b)) <==> Holds(bytes, at, b)
    ensures |OneByte(b)| == Count(b)
    ensures Holds(bytes, at, b) ==> at + Count(b) <= |bytes|
  {
    OneByteHolds(bytes, at, b);
  }

  lemma {:induction false} ChainSpelled(bytes: seq<bv8>, at: nat, groups: seq<Group>, y: bv8)
    requires at <= |bytes| && y < 16
    ensures SpellsChain(bytes, at, groups, y) <==> Linked(groups, y) && At(bytes, at, GroupsBytes(groups))
    ensures |GroupsBytes(groups)| == ChainSize(groups)
    decreases |groups|
  {
    hide Spells, Announced, Presence, Size, GroupBytes, At;
    if groups == [] {
      assert At(bytes, at, []) by {
        NothingIsAnywhere(bytes, at);
      }
    } else {
      var g, rest := groups[0], groups[1..];
      var next: bv8 := if g.td.Some? then g.td.value / 16 else 0;
      PresenceIsMasks(g, y);
      GroupSpelled(bytes, at, g);
      AtSplits(bytes, at, GroupBytes(g), GroupsBytes(rest));
      if g.td.Some? {
        NibblesAreDigits(g.td.value);
      }
      if at + Size(g) <= |bytes| {
        ChainSpelled(bytes, at + Size(g), rest, next);
      } else {
        ChainSpelled(bytes, at, rest, next);
        assert !At(bytes, at, GroupBytes(g)) by {
          hide *;
        }
      }
    }
  }

  lemma NothingIsAnywhere(bytes: seq<bv8>, at: nat)
    requires at <= |bytes|
    ensures At(bytes, at, [])
  {
  }

  // ---- The check character is a parity ----

  lemma MaskFlips(x: bv8, b: bv8, mask: bv8)
    requires mask & (mask - 1) == 0
    ensures (x ^ b) & mask != 0 <==> (x & mask != 0) != (b & mask != 0)
  {
    assert (x ^ b) & mask == (x & mask) ^ (b & mask);
    assert x & mask == 0 || x & mask == mask;
    assert b & mask == 0 || b & mask == mask;
  }

  lemma BitFlips(x: bv8, b: bv8, k: nat)
    ensures Bit(x ^ b, k) <==> Bit(x, k) != Bit(b, k)
  {
    OneBit(k);
    hide Mask;
    MaskFlips(x, b, Mask(k));
  }

  lemma OneBit(k: nat)
    ensures Mask(k) & (Mask(k) - 1) == 0
  {
  }

  lemma {:induction false} XorIsParity(s: seq<bv8>, k: nat)
    ensures Bit(Xor(s), k) <==> BitCount(s, k) % 2 == 1
  {
    hide Bit;
    if s == [] {
      NothingIsSet(k);
    } else {
      XorIsParity(s[..|s| - 1], k);
      BitFlips(Xor(s[..|s| - 1]), s[|s| - 1], k);
    }
  }

  lemma NothingIsSet(k: nat)
    ensures !Bit(0, k)
  {
    hide Mask;
  }

  lemma NoBitsIsZero(x: bv8)
    ensures x == 0 <==> forall k :: 0 <= k < 8 ==> !Bit(x, k)
  {
    if x != 0 {
      assert Bit(x, 0) || Bit(x, 1) || Bit(x, 2) || Bit(x, 3) || Bit(x, 4) || Bit(x, 5) || Bit(x, 6) || Bit(x, 7);
    }
  }

  /** The exclusive or of bytes is nothing exactly when every bit is set an even number of times. */
  lemma NoResidueIsEven(s: seq<bv8>)
    ensures Xor(s) == 0 <==> EvenBits(s)
  {
    hide Xor, BitCount, Bit;
    NoBitsIsZero(Xor(s));
    forall k | 0 <= k < 8 ensures Bit(Xor(s), k) <==> BitCount(s, k) % 2 == 1 {
      XorIsParity(s, k);
    }
  }

  // ---- The parser against the grammar ----

  lemma ProtocolsAgree(groups: seq<Group>)
    ensures NamesAnotherProtocol(groups) <==> SupportsNonT0(groups)
  {
    forall i | 0 <= i < |groups| && groups[i].td.Some?
      ensures Protocol(groups[i].td.value) == groups[i].td.value % 16
    {
      NibblesAreDigits(groups[i].td.value);
    }
  }

  lemma SpelledIsPrinted(bytes: seq<bv8>, a: Atr)
    requires IsAtr(bytes, a)
    ensures Wire(a) == bytes && WellFormed(a)
  {
    hide SpellsChain, NamesAnotherProtocol, SupportsNonT0, GroupsBytes, ChainSize, EvenBits, Xor, Linked;
    var end, h := 2 + ChainSize(a.groups), |a.historical|;
    NibblesAreDigits(bytes[1]);
    ChainSpelled(bytes, 2, a.groups, bytes[1] / 16);
    ProtocolsAgree(a.groups);
    NoResidueIsEven(bytes[1..]);
    NibblesRejoin(bytes[1]);
    assert Wire(a) == bytes by {
      hide IsAtr, T0Byte, T0Of;
      JoinSpans(bytes, 0, 2, end);
      JoinSpans(bytes, 0, end, end + h);
      JoinSpans(bytes, 0, end + h, |bytes|);
      assert bytes[0..2] == [bytes[0], bytes[1]] && bytes[0..|bytes|] == bytes;
      assert bytes[end + h..|bytes|] == OneByte(a.tck);
    }
  }

  lemma PrintedIsSpelled(a: Atr)
    requires WellFormed(a)
    ensures IsAtr(Wire(a), a)
  {
    hide SpellsChain, NamesAnotherProtocol, SupportsNonT0, GroupsBytes, ChainSize, EvenBits, Xor, Linked, Wire;
    var bytes := Wire(a);
    PrintedParts(a);
    NibblesAreDigits(bytes[1]);
    ChainSpelled(bytes, 2, a.groups, bytes[1] / 16);
    ProtocolsAgree(a.groups);
    NoResidueIsEven(bytes[1..]);
    if a.tck.Some? {
      assert bytes[|bytes| - 1..][0] == bytes[|bytes| - 1];
    }
  }

  /** The parser accepts a byte string as a value exactly when the grammar says the bytes spell that value. */
  lemma AcceptsTheGrammar(bytes: seq<bv8>, a: Atr)
    ensures Parse(bytes) == Ok(a) <==> IsAtr(bytes, a)
  {
    hide Parse, Wire, WellFormed, IsAtr;
    if Parse(bytes) == Ok(a) {
      ParsedAtrPrintsBack(bytes);
      ParsedIsWellFormed(bytes);
      PrintedIsSpelled(a);
    }
    if IsAtr(bytes, a) {
      SpelledIsPrinted(bytes, a);
      WellFormedParses(a);
    }
  }

  // ---- What each refusal says ----

  /** The length and the first byte of an Answer to Reset. */
  predicate Opens(bytes: seq<bv8>) {
    2 <= |bytes| <= 33 && (bytes[0] == 0x3B || bytes[0] == 0x3F)
  }

  /** A string that does not open an Answer to Reset is refused for its length, else for its first byte. */
  lemma OpeningIsChecked(bytes: seq<bv8>)
    ensures !Opens(bytes) ==>
              Parse(bytes) == Err(if |bytes| < 2 then TooShort(|bytes|)
                                  else if |bytes| > 33 then TooLong(|bytes|)
                                  else InvalidConvention(bytes[0]))
    ensures Opens(bytes) && Parse(bytes).Err? ==>
              var e := Parse(bytes).error; !e.TooShort? && !e.TooLong? && !e.InvalidConvention?
  {
  }

  /** What the parser must say of a string whose interface bytes are these groups. */
  predicate Verdict(bytes: seq<bv8>, groups: seq<Group>, historical: nat, r: Result<Atr, AtrError>)
    requires 2 <= |bytes|
  {
    var end := 2 + ChainSize(groups) + historical;
    if end > |bytes| then r == Err(TruncatedAtHistoricalBytes)
    else if !NamesAnotherProtocol(groups) then
      if end < |bytes| then r == Err(TrailingBytes(end, |bytes|)) else r.Ok?
    else if end == |bytes| then r == Err(MissingTck)
    else if !EvenBits(bytes[1..end + 1]) then
      && r.Err? && r.error.TckMismatch? && r.error.actual == bytes[end]
      && EvenBits(bytes[1..end] + [r.error.expected])
    else if end + 1 < |bytes| then r == Err(TrailingBytes(end + 1, |bytes|)) else r.Ok?
  }

  lemma XorCancels(r: bv8, last: bv8)
    ensures r ^ last ^ Corrected(r, last) == 0
  {
  }

  /** The check reports a mismatch exactly on odd bits, and the byte it expects makes them even. */
  lemma ExpectedCharacter(bytes: seq<bv8>, end: nat)
    requires 1 <= end < |bytes|
    ensures var r := Xor(bytes[1..end + 1]);
            (r == 0 <==> EvenBits(bytes[1..end + 1])) && EvenBits(bytes[1..end] + [Corrected(r, bytes[end])])
  {
    hide Xor, EvenBits, Corrected;
    var s := bytes[1..end + 1];
    var v := Corrected(Xor(s), bytes[end]);
    NoResidueIsEven(s);
    XorSplit(s, end - 1, v);
    XorCancels(Xor(s), bytes[end]);
    assert s[end - 1 := v] == bytes[1..end] + [v];
    NoResidueIsEven(s[end - 1 := v]);
  }

  lemma VerdictOfFinish(bytes: seq<bv8>, c: Convention, t0: T0, groups: seq<Group>, count: nat)
    requires 2 <= |bytes| && 2 + ChainSize(groups) <= |bytes| && count == t0.historicalCount as nat
    ensures Verdict(bytes, groups, count,
                    Finish(bytes, c, t0, Chain(groups, 2 + ChainSize(groups), NamesAnotherProtocol(groups))))
  {
    hide NamesAnotherProtocol, ChainSize, EvenBits, Xor, Corrected;
    var end := 2 + ChainSize(groups) + count;
    if end < |bytes| {
      ExpectedCharacter(bytes, end);
    }
  }

  /** Where the interface bytes spell groups, the verdict is the one the grammar gives. */
  lemma RefusalsNameTheFault(bytes: seq<bv8>, groups: seq<Group>)
    requires Opens(bytes) && SpellsChain(bytes, 2, groups, bytes[1] / 16)
    ensures Verdict(bytes, groups, (bytes[1] % 16) as nat, Parse(bytes))
  {
    hide SpellsChain, NamesAnotherProtocol, SupportsNonT0, GroupsBytes, ChainSize, Linked, ReadChain, Verdict, Finish;
    var y := bytes[1] / 16;
    NibblesAreDigits(bytes[1]);
    ChainSpelled(bytes, 2, groups, y);
    ChainReads(bytes, 2, groups, y);
    ProtocolsAgree(groups);
    var convention, t0 := ConventionOf(bytes[0]).value, T0Of(bytes[1]);
    VerdictOfFinish(bytes, convention, t0, groups, (bytes[1] % 16) as nat);
  }

  /** Interface bytes are reported as running out exactly when no groups at all are spelled. */
  lemma InterfaceBytesAreFound(bytes: seq<bv8>) returns (groups: seq<Group>)
    requires Opens(bytes) && Parse(bytes) != Err(TruncatedAtInterfaceBytes)
    ensures SpellsChain(bytes, 2, groups, bytes[1] / 16)
  {
    hide SpellsChain, GroupsBytes, ChainSize, Linked, ReadChain;
    var y := bytes[1] / 16;
    NibblesAreDigits(bytes[1]);
    var chain := ReadChain(bytes, 2, y).value;
    groups := chain.groups;
    ChainSpan(bytes, 2, y);
    ChainIsLinked(bytes, 2, y);
    ChainSpelled(bytes, 2, groups, y);
  }
}
