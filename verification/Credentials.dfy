/**
 The credentials of a FINEID card: the reference byte a command names one by,
 and the layout of the digits a command carries.
 */
module Credentials {
  import opened Wrappers
  import opened Bytes

  datatype Role = Pin1 | Pin2 | Puk

  /** The two PINs a slot can name. */
  type PinSlot = r: Role | r != Puk witness Pin1

  datatype Numbering = Citizen | Organizational

  function Reference(numbering: Numbering, role: Role): byte {
    match (numbering, role)
    case (Citizen, Pin1) => 0x11
    case (Citizen, Pin2) => 0x82
    case (Citizen, Puk) => 0x83
    case (Organizational, Pin1) => 0x03
    case (Organizational, Pin2) => 0x04
    case (Organizational, Puk) => 0x12
  }

  /** The credential a card numbered so keeps under `reference`. */
  function RoleAt(numbering: Numbering, reference: byte): Option<Role> {
    if numbering.Citizen? then
      if reference == 0x11 then Some(Pin1)
      else if reference == 0x82 then Some(Pin2)
      else if reference == 0x83 then Some(Puk)
      else None
    else
      if reference == 0x03 then Some(Pin1)
      else if reference == 0x04 then Some(Pin2)
      else if reference == 0x12 then Some(Puk)
      else None
  }

  /** A card knows its own references and none of the other numbering's. */
  lemma ReferencesAreDistinct(card: Numbering, host: Numbering, role: Role)
    ensures RoleAt(card, Reference(host, role)) == if card == host then Some(role) else None
  {
    match role { case Pin1 => case Pin2 => case Puk => }
  }

  const STORED_LENGTH := 12
  const PAD: byte := 0x00
  const BODY_MAX := 24

  /** One digit group as the card compares it: padded, or at its typed length. */
  function Block(numbering: Numbering, digits: seq<byte>): (block: seq<byte>)
    ensures |block| <= STORED_LENGTH
    ensures numbering.Citizen? ==> |block| == STORED_LENGTH
  {
    var kept := if |digits| > STORED_LENGTH then digits[..STORED_LENGTH] else digits;
    if numbering.Citizen? then kept + seq(STORED_LENGTH - |kept|, _ => PAD) else kept
  }

  /** A citizen card's block is twelve octets, zero behind the digits; an organizational card's is the digits. */
  lemma BlockOctets(digits: seq<byte>, i: nat)
    requires i < 12
    ensures var padded, bare := Block(Citizen, digits), Block(Organizational, digits);
            && |padded| == 12 && padded[i] == (if i < |digits| then digits[i] else 0)
            && |bare| == (if |digits| < 12 then |digits| else 12) && bare <= digits
  {
  }

  /** The body a command carries for its digit groups. */
  function Blocks(numbering: Numbering, groups: seq<seq<byte>>): (body: seq<byte>)
    ensures |body| <= STORED_LENGTH * |groups|
  {
    if groups == [] then [] else Blocks(numbering, groups[..|groups| - 1]) + Block(numbering, groups[|groups| - 1])
  }

  /** Writes one block into padding at `at`. */
  method CopyBlock(numbering: Numbering, group: seq<byte>, out: array<byte>, at: nat) returns (width: nat)
    requires at + STORED_LENGTH <= out.Length
    requires forall k :: at <= k < out.Length ==> out[k] == PAD
    modifies out
    ensures out[..at] == old(out[..at])
    ensures width <= STORED_LENGTH && out[at..at + width] == Block(numbering, group)
    ensures forall k :: at + width <= k < out.Length ==> out[k] == PAD
  {
    var copied := if |group| < STORED_LENGTH then |group| else STORED_LENGTH;
    forall k | 0 <= k < copied {
      out[at + k] := group[k];
    }
    width := if numbering.Citizen? then STORED_LENGTH else copied;
  }

  method WriteCredentialBlocks(numbering: Numbering, groups: seq<seq<byte>>, out: array<byte>) returns (total: nat)
    requires out.Length == BODY_MAX && |groups| <= 2
    requires forall k :: 0 <= k < out.Length ==> out[k] == PAD
    modifies out
    ensures total <= BODY_MAX && out[..total] == Blocks(numbering, groups)
    ensures forall k :: total <= k < out.Length ==> out[k] == PAD
  {
    hide Block;
    total := 0;
    for i := 0 to |groups|
      invariant total <= STORED_LENGTH * i
      invariant out[..total] == Blocks(numbering, groups[..i])
      invariant forall k :: total <= k < out.Length ==> out[k] == PAD
    {
      var width := CopyBlock(numbering, groups[i], out, total);
      assert groups[..i + 1][..i] == groups[..i];
      assert out[..total + width] == out[..total] + out[total..total + width];
      total := total + width;
    }
    assert groups[..|groups|] == groups;
  }

  lemma TwoBlocks(numbering: Numbering, first: seq<byte>, second: seq<byte>)
    ensures Blocks(numbering, [first, second]) == Block(numbering, first) + Block(numbering, second)
  {
    hide Block;
    assert [first, second][..1] == [first] && [first][..0] == [];
  }

  predicate Typed(digits: seq<byte>) {
    |digits| <= STORED_LENGTH && PAD !in digits
  }

  lemma LongerEntryDiffers(a: seq<byte>, b: seq<byte>)
    requires Typed(a) && Typed(b) && |a| < |b|
    ensures Block(Citizen, a) != Block(Citizen, b)
  {
    assert Block(Citizen, a)[|a|] == PAD;
    assert Block(Citizen, b)[|a|] == b[|a|] && b[|a|] in b;
  }

  lemma PaddingIsInjective(a: seq<byte>, b: seq<byte>)
    requires Typed(a) && Typed(b)
    ensures Block(Citizen, a) == Block(Citizen, b) <==> a == b
  {
    if |a| < |b| {
      LongerEntryDiffers(a, b);
    } else if |b| < |a| {
      LongerEntryDiffers(b, a);
    } else {
      assert Block(Citizen, a)[..|a|] == a && Block(Citizen, b)[..|a|] == b;
    }
  }

  /** Two padded entries travel in one body and are told apart again. */
  lemma PaddedBodyKeepsBothEntries(a: seq<byte>, b: seq<byte>, c: seq<byte>, d: seq<byte>)
    requires Typed(a) && Typed(b) && Typed(c) && Typed(d)
    ensures Blocks(Citizen, [a, b]) == Blocks(Citizen, [c, d]) <==> a == c && b == d
  {
    TwoBlocks(Citizen, a, b);
    TwoBlocks(Citizen, c, d);
    var left, right := Blocks(Citizen, [a, b]), Blocks(Citizen, [c, d]);
    assert left[..STORED_LENGTH] == Block(Citizen, a) && left[STORED_LENGTH..] == Block(Citizen, b);
    assert right[..STORED_LENGTH] == Block(Citizen, c) && right[STORED_LENGTH..] == Block(Citizen, d);
    PaddingIsInjective(a, c);
    PaddingIsInjective(b, d);
  }

  /** Two bare entries run together: only their concatenation travels. */
  lemma BareBodyKeepsTheConcatenation(a: seq<byte>, b: seq<byte>, c: seq<byte>, d: seq<byte>)
    requires Typed(a) && Typed(b) && Typed(c) && Typed(d)
    ensures Blocks(Organizational, [a, b]) == Blocks(Organizational, [c, d]) <==> a + b == c + d
  {
    TwoBlocks(Organizational, a, b);
    TwoBlocks(Organizational, c, d);
  }
}
