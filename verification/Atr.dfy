/** The Answer to Reset of a smart card (ISO 7816-3 section 8): parser and printer. */
module Atr {
  import opened Wrappers

  const MIN_LENGTH := 2
  const MAX_LENGTH := 33
  const TS_DIRECT: bv8 := 0x3B
  const TS_INVERSE: bv8 := 0x3F

  datatype Convention = Direct | Inverse

  /** The format character: which interface bytes open the chain, and how many historical bytes end it. */
  datatype T0 = T0(y1: bv8, historicalCount: bv8)

  datatype Group = Group(ta: Option<bv8>, tb: Option<bv8>, tc: Option<bv8>, td: Option<bv8>)

  datatype Atr = Atr(convention: Convention, t0: T0, groups: seq<Group>, historical: seq<bv8>, tck: Option<bv8>)

  datatype AtrError =
    | TooShort(got: nat)
    | TooLong(got: nat)
    | InvalidConvention(ts: bv8)
    | TruncatedAtInterfaceBytes
    | TruncatedAtHistoricalBytes
    | MissingTck
    | TckMismatch(expected: bv8, actual: bv8)
    | TrailingBytes(expectedEnd: nat, length: nat)

  // ---- Bytes of the format ----

  function ConventionOf(ts: bv8): Option<Convention> {
    if ts == TS_DIRECT then Some(Direct) else if ts == TS_INVERSE then Some(Inverse) else None
  }

  function TsOf(c: Convention): bv8 {
    if c.Direct? then TS_DIRECT else TS_INVERSE
  }

  function T0Of(b: bv8): T0 {
    T0(b >> 4, b & 0x0F)
  }

  function T0Byte(t: T0): bv8 {
    (t.y1 << 4) | (t.historicalCount & 0x0F)
  }

  predicate HasTa(y: bv8) { y & 1 != 0 }
  predicate HasTb(y: bv8) { y & 2 != 0 }
  predicate HasTc(y: bv8) { y & 4 != 0 }
  predicate HasTd(y: bv8) { y & 8 != 0 }

  function NextY(td: bv8): bv8 {
    td >> 4
  }

  function Protocol(td: bv8): bv8 {
    td & 0x0F
  }

  function Xor(s: seq<bv8>): bv8 {
    if s == [] then 0 else Xor(s[..|s| - 1]) ^ s[|s| - 1]
  }

  /** The check character that would have left no residue. */
  function Corrected(residue: bv8, actual: bv8): bv8 {
    residue ^ actual
  }

  // ---- The interface chain ----

  datatype Slot = Slot(value: Option<bv8>, next: nat)

  function Take(bytes: seq<bv8>, at: nat, present: bool): Option<Slot> {
    if !present then Some(Slot(None, at))
    else if at < |bytes| then Some(Slot(Some(bytes[at]), at + 1))
    else None
  }

  datatype GroupRead = GroupRead(group: Group, next: nat)

  function ReadGroup(bytes: seq<bv8>, at: nat, y: bv8): Option<GroupRead> {
    match Take(bytes, at, HasTa(y))
    case None => None
    case Some(Slot(ta, at)) =>
      match Take(bytes, at, HasTb(y))
      case None => None
      case Some(Slot(tb, at)) =>
        match Take(bytes, at, HasTc(y))
        case None => None
        case Some(Slot(tc, at)) =>
          match Take(bytes, at, HasTd(y))
          case None => None
          case Some(Slot(td, at)) => Some(GroupRead(Group(ta, tb, tc, td), at))
  }

  /** The groups from `at` on, where the chain ends, and whether a TD names a protocol other than T=0. */
  datatype Chain = Chain(groups: seq<Group>, next: nat, nonT0: bool)

  function ReadChain(bytes: seq<bv8>, at: nat, y: bv8): (r: Option<Chain>)
    requires at <= |bytes|
    ensures r.Some? ==> at <= r.value.next <= |bytes|
    decreases |bytes| - at
  {
    if y == 0 then Some(Chain([], at, false))
    else match ReadGroup(bytes, at, y)
      case None => None
      case Some(GroupRead(group, next)) =>
        if group.td.None? then Some(Chain([group], next, false))
        else match ReadChain(bytes, next, NextY(group.td.value))
          case None => None
          case Some(rest) =>
            Some(Chain([group] + rest.groups, rest.next, rest.nonT0 || Protocol(group.td.value) != 0))
  }

  // ---- The whole ATR ----

  function Parse(bytes: seq<bv8>): Result<Atr, AtrError> {
    if |bytes| < MIN_LENGTH then Err(TooShort(|bytes|))
    else if |bytes| > MAX_LENGTH then Err(TooLong(|bytes|))
    else if ConventionOf(bytes[0]).None? then Err(InvalidConvention(bytes[0]))
    else match ReadChain(bytes, 2, T0Of(bytes[1]).y1)
      case None => Err(TruncatedAtInterfaceBytes)
      case Some(chain) => Finish(bytes, ConventionOf(bytes[0]).value, T0Of(bytes[1]), chain)
  }

  function Finish(bytes: seq<bv8>, convention: Convention, t0: T0, chain: Chain): Result<Atr, AtrError>
    requires 2 <= |bytes| && chain.next <= |bytes|
  {
    var end := chain.next + t0.historicalCount as nat;
    if end > |bytes| then Err(TruncatedAtHistoricalBytes)
    else
      var historical := bytes[chain.next..end];
      if chain.nonT0 then
        if end == |bytes| then Err(MissingTck)
        else
          var residue := Xor(bytes[1..end + 1]);
          if residue != 0 then Err(TckMismatch(Corrected(residue, bytes[end]), bytes[end]))
          else if end + 1 != |bytes| then Err(TrailingBytes(end + 1, |bytes|))
          else Ok(Atr(convention, t0, chain.groups, historical, Some(bytes[end])))
      else if end != |bytes| then Err(TrailingBytes(end, |bytes|))
      else Ok(Atr(convention, t0, chain.groups, historical, None))
  }

  /** The chain loop of the source, moving the index and the presence nibble and pushing groups. */
  method ParseAtr(bytes: seq<bv8>) returns (r: Result<Atr, AtrError>)
    ensures r == Parse(bytes)
  {
    if |bytes| < MIN_LENGTH {
      return Err(TooShort(|bytes|));
    }
    if |bytes| > MAX_LENGTH {
      return Err(TooLong(|bytes|));
    }
    var convention := ConventionOf(bytes[0]);
    if convention.None? {
      return Err(InvalidConvention(bytes[0]));
    }
    var t0 := T0Of(bytes[1]);
    var chain := WalkChain(bytes, t0.y1);
    if chain.None? {
      return Err(TruncatedAtInterfaceBytes);
    }
    return Finish(bytes, convention.value, t0, chain.value);
  }

  function Prepend(groups: seq<Group>, nonT0: bool, rest: Option<Chain>): Option<Chain> {
    if rest.None? then None else Some(Chain(groups + rest.value.groups, rest.value.next, nonT0 || rest.value.nonT0))
  }

  method WalkChain(bytes: seq<bv8>, y1: bv8) returns (r: Option<Chain>)
    requires MIN_LENGTH <= |bytes|
    ensures r == ReadChain(bytes, 2, y1)
  {
    hide ReadGroup, NextY, Protocol;
    var idx, y, groups, nonT0 := 2, y1, [], false;
    StartOfWalk(ReadChain(bytes, 2, y1));
    while y != 0
      invariant 2 <= idx <= |bytes|
      invariant ReadChain(bytes, 2, y1) == Prepend(groups, nonT0, ReadChain(bytes, idx, y))
      decreases |bytes| - idx, y
    {
      var read := ReadGroup(bytes, idx, y);
      GroupSpan(bytes, idx, y);
      if read.None? {
        return None;
      }
      var group := read.value.group;
      if group.td.Some? {
        if Protocol(group.td.value) != 0 {
          nonT0 := true;
        }
        MoveGroup(groups, group, ReadChain(bytes, read.value.next, NextY(group.td.value)));
        groups := groups + [group];
        y := NextY(group.td.value);
        idx := read.value.next;
      } else {
        groups := groups + [group];
        idx := read.value.next;
        return Some(Chain(groups, idx, nonT0));
      }
    }
    assert groups + [] == groups;
    return Some(Chain(groups, idx, nonT0));
  }

  lemma StartOfWalk(rest: Option<Chain>)
    ensures Prepend([], false, rest) == rest
  {
    if rest.Some? {
      assert [] + rest.value.groups == rest.value.groups;
    }
  }

  lemma MoveGroup(groups: seq<Group>, group: Group, rest: Option<Chain>)
    ensures rest.Some? ==> groups + ([group] + rest.value.groups) == groups + [group] + rest.value.groups
  {
  }

  /** The bytes of a group, in wire order. */
  function GroupBytes(g: Group): seq<bv8> {
    OneByte(g.ta) + OneByte(g.tb) + OneByte(g.tc) + OneByte(g.td)
  }

  function OneByte(b: Option<bv8>): seq<bv8> {
    if b.Some? then [b.value] else []
  }

  /** An optional byte is taken exactly when its presence bit is set. */
  lemma TakeSpan(bytes: seq<bv8>, at: nat, present: bool)
    requires at <= |bytes| && Take(bytes, at, present).Some?
    ensures var slot := Take(bytes, at, present).value;
            && at <= slot.next <= |bytes|
            && bytes[at..slot.next] == OneByte(slot.value)
            && (slot.value.Some? <==> present)
            && (slot.value.Some? ==> slot.next == at + 1 && slot.value.value == bytes[at])
  {
  }

  lemma JoinSpans(bytes: seq<bv8>, i: nat, j: nat, k: nat)
    requires i <= j <= k <= |bytes|
    ensures bytes[i..j] + bytes[j..k] == bytes[i..k]
  {
  }

  lemma GroupSpan(bytes: seq<bv8>, at: nat, y: bv8)
    requires at <= |bytes|
    ensures var read := ReadGroup(bytes, at, y);
            read.Some? ==>
              && at <= read.value.next <= |bytes|
              && bytes[at..read.value.next] == GroupBytes(read.value.group)
              && (read.value.group.td.Some? <==> HasTd(y))
              && (read.value.group.td.Some? ==>
                    at < read.value.next && read.value.group.td.value == bytes[read.value.next - 1])
  {
    hide Take, OneByte, HasTa, HasTb, HasTc, HasTd;
    if ReadGroup(bytes, at, y).Some? {
      TakeSpan(bytes, at, HasTa(y));
      var a := Take(bytes, at, HasTa(y)).value.next;
      TakeSpan(bytes, a, HasTb(y));
      var b := Take(bytes, a, HasTb(y)).value.next;
      TakeSpan(bytes, b, HasTc(y));
      var c := Take(bytes, b, HasTc(y)).value.next;
      TakeSpan(bytes, c, HasTd(y));
      var d := Take(bytes, c, HasTd(y)).value.next;
      JoinSpans(bytes, at, a, b);
      JoinSpans(bytes, at, b, c);
      JoinSpans(bytes, at, c, d);
    }
  }

  function GroupsBytes(gs: seq<Group>): seq<bv8> {
    if gs == [] then [] else GroupBytes(gs[0]) + GroupsBytes(gs[1..])
  }

  function Wire(a: Atr): seq<bv8> {
    [TsOf(a.convention), T0Byte(a.t0)] + GroupsBytes(a.groups) + a.historical + OneByte(a.tck)
  }

  method PushGroup(wire: seq<bv8>, g: Group) returns (out: seq<bv8>)
    ensures out == wire + GroupBytes(g)
  {
    out := wire;
    if g.ta.Some? {
      out := out + [g.ta.value];
    }
    if g.tb.Some? {
      out := out + [g.tb.value];
    }
    if g.tc.Some? {
      out := out + [g.tc.value];
    }
    if g.td.Some? {
      out := out + [g.td.value];
    }
  }

  /** The printer as written, pushing present bytes group by group. */
  method ToWireBytes(a: Atr) returns (out: seq<bv8>)
    ensures out == Wire(a)
  {
    hide GroupBytes, T0Byte, TsOf;
    out := [TsOf(a.convention), T0Byte(a.t0)];
    ghost var head := out;
    for k := 0 to |a.groups|
      invariant out + GroupsBytes(a.groups[k..]) == head + GroupsBytes(a.groups)
    {
      ghost var rest := GroupsBytes(a.groups[k + 1..]);
      assert a.groups[k..][1..] == a.groups[k + 1..];
      assert out + (GroupBytes(a.groups[k]) + rest) == out + GroupBytes(a.groups[k]) + rest;
      out := PushGroup(out, a.groups[k]);
    }
    assert out == head + GroupsBytes(a.groups);
    out := out + a.historical;
    if a.tck.Some? {
      out := out + [a.tck.value];
    }
  }

  predicate SupportsNonT0(groups: seq<Group>) {
    exists i :: 0 <= i < |groups| && groups[i].td.Some? && Protocol(groups[i].td.value) != 0
  }
}
