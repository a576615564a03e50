/**
 * The ATR parser accepts exactly the well-formed ATRs, loses nothing, and its check character
 * catches single-byte errors.
 */
module AtrProofs {
  import opened Wrappers
  import opened Atr

  // ---- Round trip ----

  lemma {:induction false} ChainSpan(bytes: seq<bv8>, at: nat, y: bv8)
    requires at <= |bytes| && ReadChain(bytes, at, y).Some?
    ensures var chain := ReadChain(bytes, at, y).value;
            && bytes[at..chain.next] == GroupsBytes(chain.groups)
            && (chain.nonT0 <==> SupportsNonT0(chain.groups))
    decreases |bytes| - at
  {
    hide ReadGroup, GroupBytes, Protocol, NextY;
    if y == 0 {
      assert !SupportsNonT0([]);
    } else {
      GroupSpan(bytes, at, y);
      var read := ReadGroup(bytes, at, y).value;
      if read.group.td.None? {
        assert [read.group][1..] == [];
        assert GroupsBytes([read.group]) == GroupBytes(read.group);
      } else {
        var rest := ReadChain(bytes, read.next, NextY(read.group.td.value)).value;
        ChainSpan(bytes, read.next, NextY(read.group.td.value));
        assert ([read.group] + rest.groups)[1..] == rest.groups;
        assert bytes[at..rest.next] == bytes[at..read.next] + bytes[read.next..rest.next];
        OneMoreGroup(read.group, rest.groups);
      }
    }
  }

  lemma OneMoreGroup(group: Group, rest: seq<Group>)
    requires group.td.Some?
    ensures SupportsNonT0([group] + rest) <==> Protocol(group.td.value) != 0 || SupportsNonT0(rest)
  {
    hide Protocol;
    var all := [group] + rest;
    if SupportsNonT0(rest) {
      var i :| 0 <= i < |rest| && rest[i].td.Some? && Protocol(rest[i].td.value) != 0;
      assert all[i + 1] == rest[i];
    }
    if Protocol(group.td.value) != 0 {
      assert all[0] == group;
    }
  }

  lemma NibblesRejoin(b: bv8)
    ensures T0Byte(T0Of(b)) == b
  {
  }

  /**
   * For every byte string the parser accepts, printing gives back exactly those bytes and parsing
   * those gives the same value; a check character is present exactly when some TD names a protocol
   * other than T=0.
   */
  lemma ParsedAtrPrintsBack(bytes: seq<bv8>)
    requires Parse(bytes).Ok?
    ensures var a := Parse(bytes).value;
            && Wire(a) == bytes && Parse(Wire(a)) == Ok(a)
            && (a.tck.Some? <==> SupportsNonT0(a.groups))
  {
    hide ReadChain, Xor, T0Of, T0Byte, GroupsBytes, SupportsNonT0;
    var t0 := T0Of(bytes[1]);
    NibblesRejoin(bytes[1]);
    ChainSpan(bytes, 2, t0.y1);
    var chain := ReadChain(bytes, 2, t0.y1).value;
    var end := chain.next + t0.historicalCount as nat;
    JoinSpans(bytes, 0, 2, chain.next);
    JoinSpans(bytes, 0, chain.next, end);
    JoinSpans(bytes, 0, end, |bytes|);
    assert bytes[0..2] == [bytes[0], bytes[1]] && bytes[0..|bytes|] == bytes;
    if chain.nonT0 {
      assert bytes[end..] == [bytes[end]];
    }
  }

  // ---- Every well-formed ATR is accepted ----

  /** The presence bits announce exactly the bytes of the group. */
  predicate Announced(g: Group, y: bv8) {
    (g.ta.Some? <==> HasTa(y)) && (g.tb.Some? <==> HasTb(y)) && (g.tc.Some? <==> HasTc(y)) && (g.td.Some? <==> HasTd(y))
  }

  /** Each group is announced by T0 or by the TD before it, and the last announces nothing. */
  predicate Linked(groups: seq<Group>, y: bv8) {
    if y == 0 then groups == []
    else
      && groups != [] && Announced(groups[0], y)
      && if groups[0].td.None? then |groups| == 1 else Linked(groups[1..], NextY(groups[0].td.value))
  }

  predicate At(bytes: seq<bv8>, at: nat, part: seq<bv8>) {
    at + |part| <= |bytes| && bytes[at..at + |part|] == part
  }

  lemma AtSplits(bytes: seq<bv8>, at: nat, a: seq<bv8>, b: seq<bv8>)
    ensures At(bytes, at, a + b) <==> At(bytes, at, a) && At(bytes, at + |a|, b)
  {
    if At(bytes, at, a + b) {
      assert (a + b)[..|a|] == a && (a + b)[|a|..] == b;
      assert bytes[at..at + |a + b|][..|a|] == bytes[at..at + |a|];
      assert bytes[at..at + |a + b|][|a|..] == bytes[at + |a|..at + |a| + |b|];
    }
    if At(bytes, at, a) && At(bytes, at + |a|, b) {
      JoinSpans(bytes, at, at + |a|, at + |a| + |b|);
    }
  }

  lemma TakeReads(bytes: seq<bv8>, at: nat, byte: Option<bv8>)
    requires At(bytes, at, OneByte(byte))
    ensures Take(bytes, at, byte.Some?) == Some(Slot(byte, at + |OneByte(byte)|))
  {
    if byte.Some? {
      assert bytes[at..at + 1][0] == bytes[at];
    }
  }

  lemma GroupReads(bytes: seq<bv8>, at: nat, g: Group, y: bv8)
    requires Announced(g, y) && At(bytes, at, GroupBytes(g))
    ensures ReadGroup(bytes, at, y) == Some(GroupRead(g, at + |GroupBytes(g)|))
  {
    hide HasTa, HasTb, HasTc, HasTd, Take, OneByte, At;
    var a, b, c, d := OneByte(g.ta), OneByte(g.tb), OneByte(g.tc), OneByte(g.td);
    AtSplits(bytes, at, a + b + c, d);
    AtSplits(bytes, at, a + b, c);
    AtSplits(bytes, at, a, b);
    TakeReads(bytes, at, g.ta);
    TakeReads(bytes, at + |a|, g.tb);
    TakeReads(bytes, at + |a + b|, g.tc);
    TakeReads(bytes, at + |a + b + c|, g.td);
  }

  lemma {:induction false} ChainReads(bytes: seq<bv8>, at: nat, groups: seq<Group>, y: bv8)
    requires Linked(groups, y) && At(bytes, at, GroupsBytes(groups))
    ensures ReadChain(bytes, at, y) == Some(Chain(groups, at + |GroupsBytes(groups)|, SupportsNonT0(groups)))
    decreases |groups|
  {
    hide ReadGroup, GroupBytes, Announced, NextY, Protocol;
    if y == 0 {
      assert !SupportsNonT0([]);
    } else {
      var rest := groups[1..];
      AtSplits(bytes, at, GroupBytes(groups[0]), GroupsBytes(rest));
      GroupReads(bytes, at, groups[0], y);
      GroupSpan(bytes, at, y);
      assert groups == [groups[0]] + rest;
      if groups[0].td.Some? {
        ChainReads(bytes, at + |GroupBytes(groups[0])|, rest, NextY(groups[0].td.value));
        OneMoreGroup(groups[0], rest);
      } else {
        assert rest == [] && groups == [groups[0]];
        assert !SupportsNonT0(groups);
      }
    }
  }

  lemma {:induction false} ChainIsLinked(bytes: seq<bv8>, at: nat, y: bv8)
    requires at <= |bytes| && ReadChain(bytes, at, y).Some?
    ensures Linked(ReadChain(bytes, at, y).value.groups, y)
    decreases |bytes| - at
  {
    hide ReadGroup, NextY, Protocol, Announced;
    if y != 0 {
      GroupSpan(bytes, at, y);
      GroupIsAnnounced(bytes, at, y);
      var read := ReadGroup(bytes, at, y).value;
      if read.group.td.Some? {
        ChainIsLinked(bytes, read.next, NextY(read.group.td.value));
        var rest := ReadChain(bytes, read.next, NextY(read.group.td.value)).value.groups;
        assert ([read.group] + rest)[1..] == rest;
      }
    }
  }

  lemma GroupIsAnnounced(bytes: seq<bv8>, at: nat, y: bv8)
    requires at <= |bytes| && ReadGroup(bytes, at, y).Some?
    ensures Announced(ReadGroup(bytes, at, y).value.group, y)
  {
    hide HasTa, HasTb, HasTc, HasTd;
  }

  /** ISO 7816-3 section 8: linked groups, as many historical bytes as T0 says, a check character when due. */
  predicate WellFormed(a: Atr) {
    && a.t0 == T0Of(T0Byte(a.t0))
    && Linked(a.groups, a.t0.y1)
    && |a.historical| == a.t0.historicalCount as nat
    && (a.tck.Some? <==> SupportsNonT0(a.groups))
    && (a.tck.Some? ==> Xor(Wire(a)[1..]) == 0)
    && |Wire(a)| <= MAX_LENGTH
  }

  lemma PrintedParts(a: Atr)
    ensures var bytes, g, h := Wire(a), GroupsBytes(a.groups), a.historical;
            && |bytes| == 2 + |g| + |h| + |OneByte(a.tck)|
            && bytes[0] == TsOf(a.convention) && bytes[1] == T0Byte(a.t0)
            && At(bytes, 2, g) && At(bytes, 2 + |g|, h)
            && bytes[2 + |g| + |h|..] == OneByte(a.tck)
  {
    hide GroupsBytes, T0Byte, TsOf, OneByte;
    var bytes, head := Wire(a), [TsOf(a.convention), T0Byte(a.t0)];
    var g, h, t := GroupsBytes(a.groups), a.historical, OneByte(a.tck);
    assert bytes == head + g + h + t;
    assert bytes[0..2] == head;
  }

  lemma WellFormedParses(a: Atr)
    requires WellFormed(a)
    ensures Parse(Wire(a)) == Ok(a)
  {
    hide ReadChain, Xor, T0Of, T0Byte, GroupsBytes, SupportsNonT0, Linked, Wire;
    var bytes := Wire(a);
    PrintedParts(a);
    ChainReads(bytes, 2, a.groups, a.t0.y1);
    assert bytes[1..|bytes|] == bytes[1..];
    if a.tck.Some? {
      assert bytes[|bytes| - 1..][0] == bytes[|bytes| - 1];
    }
  }

  lemma ParsedIsWellFormed(bytes: seq<bv8>)
    requires Parse(bytes).Ok?
    ensures WellFormed(Parse(bytes).value)
  {
    hide ReadChain, Xor, T0Of, T0Byte, GroupsBytes, SupportsNonT0, Linked, Wire;
    ParsedAtrPrintsBack(bytes);
    NibblesRejoin(bytes[1]);
    ChainIsLinked(bytes, 2, T0Of(bytes[1]).y1);
    assert bytes[1..|bytes|] == bytes[1..];
  }

  /** The parser gives back a printed ATR exactly when it is well formed. */
  lemma WellFormedAtrsParse(a: Atr)
    ensures Parse(Wire(a)) == Ok(a) <==> WellFormed(a)
  {
    hide Parse, WellFormed;
    if WellFormed(a) {
      WellFormedParses(a);
    }
    if Parse(Wire(a)) == Ok(a) {
      ParsedIsWellFormed(Wire(a));
    }
  }

  // ---- The check character ----

  /** The positions of the TD bytes, which steer the chain. */
  function TdIndices(bytes: seq<bv8>, at: nat, y: bv8): set<nat>
    requires at <= |bytes|
    decreases |bytes| - at
  {
    GroupSpan(bytes, at, y);
    var read := ReadGroup(bytes, at, y);
    if y == 0 || read.None? || read.value.group.td.None? then {}
    else {read.value.next - 1} + TdIndices(bytes, read.value.next, NextY(read.value.group.td.value))
  }

  lemma GroupSurvives(bytes: seq<bv8>, at: nat, y: bv8, p: nat, v: bv8)
    requires at <= |bytes| && p < |bytes| && ReadGroup(bytes, at, y).Some?
    requires ReadGroup(bytes, at, y).value.group.td.Some? ==> p != ReadGroup(bytes, at, y).value.next - 1
    ensures var read, read' := ReadGroup(bytes, at, y).value, ReadGroup(bytes[p := v], at, y);
            read'.Some? && read'.value.next == read.next && read'.value.group.td == read.group.td
  {
    hide HasTa, HasTb, HasTc, HasTd;
  }

  lemma {:induction false} ChainSurvives(bytes: seq<bv8>, at: nat, y: bv8, p: nat, v: bv8)
    requires at <= |bytes| && p < |bytes| && ReadChain(bytes, at, y).Some? && p !in TdIndices(bytes, at, y)
    ensures var chain, chain' := ReadChain(bytes, at, y).value, ReadChain(bytes[p := v], at, y);
            chain'.Some? && chain'.value.next == chain.next && chain'.value.nonT0 == chain.nonT0
    decreases |bytes| - at
  {
    hide ReadGroup, Protocol, NextY;
    if y != 0 {
      GroupSpan(bytes, at, y);
      GroupSurvives(bytes, at, y, p, v);
      var read := ReadGroup(bytes, at, y).value;
      if read.group.td.Some? {
        ChainSurvives(bytes, read.next, NextY(read.group.td.value), p, v);
      }
    }
  }

  lemma {:induction false} XorSplit(s: seq<bv8>, p: nat, v: bv8)
    requires p < |s|
    ensures Xor(s[p := v]) == Xor(s) ^ s[p] ^ v
  {
    var n := |s| - 1;
    if p == n {
      assert s[p := v][..n] == s[..n];
      XorSwap(Xor(s[..n]), s[p], v);
    } else {
      XorSplit(s[..n], p, v);
      assert s[p := v][..n] == s[..n][p := v];
      XorCarry(Xor(s[..n]), s[p], v, s[n]);
    }
  }

  lemma XorSwap(x: bv8, a: bv8, b: bv8)
    ensures x ^ b == x ^ a ^ a ^ b
  {
  }

  lemma XorCarry(x: bv8, a: bv8, b: bv8, last: bv8)
    ensures x ^ a ^ b ^ last == x ^ last ^ a ^ b
  {
  }

  lemma XorDetects(x: bv8, a: bv8, b: bv8)
    requires a != b
    ensures x == 0 ==> x ^ a ^ b != 0
  {
  }

  /**
   * Change one byte of an accepted ATR that carries a check character: any TA, TB, TC, historical or
   * check byte, to any other value. The parser always rejects the result as a check mismatch.
   */
  lemma SingleByteErrorsAreCaught(bytes: seq<bv8>, p: nat, v: bv8)
    requires Parse(bytes).Ok? && Parse(bytes).value.tck.Some?
    requires 2 <= p < |bytes| && v != bytes[p] && p !in TdIndices(bytes, 2, T0Of(bytes[1]).y1)
    ensures Parse(bytes[p := v]).Err? && Parse(bytes[p := v]).error.TckMismatch?
  {
    hide ReadChain, Xor, T0Of, TdIndices;
    var t0 := T0Of(bytes[1]);
    ChainSurvives(bytes, 2, t0.y1, p, v);
    var chain := ReadChain(bytes, 2, t0.y1).value;
    var end := chain.next + t0.historicalCount as nat;
    var s := bytes[1..end + 1];
    assert bytes[p := v][1..end + 1] == s[p - 1 := v];
    XorSplit(s, p - 1, v);
    XorDetects(Xor(s), s[p - 1], v);
  }
}
