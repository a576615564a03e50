/** The CCID functional descriptor (USB-IF Smart Card CCID Rev 1.1 section 5.1). */
module Descriptor {
  import opened Wrappers
  import opened Bytes
  import opened CcidErrors
  import opened Codec

  const FUNCTIONAL_DESCRIPTOR_LENGTH := 54
  const FUNCTIONAL_DESCRIPTOR_TYPE: byte := 0x21
  const INTERFACE_DESCRIPTOR_TYPE: byte := 0x04
  const INTERFACE_DESCRIPTOR_LENGTH := 9
  const CCID_INTERFACE_CLASS: byte := 0x0B

  const MAXIMUM_T0_TPDU_LENGTH := 260
  const MAXIMUM_SHORT_APDU_LENGTH := 261
  const MAXIMUM_COMMAND_PAYLOAD := 65_544
  const MAXIMUM_MESSAGE_LENGTH := HEADER_SIZE + MAXIMUM_COMMAND_PAYLOAD

  datatype ExchangeLevel = Character | Tpdu | ShortApdu | ShortAndExtendedApdu

  datatype FunctionalDescriptor = FunctionalDescriptor(
    level: ExchangeLevel,
    maximumMessageLength: nat,
    maxSlotIndex: byte,
    features: nat,
    protocols: nat,
    pinSupport: byte)

  function MaximumPayloadLength(d: FunctionalDescriptor): nat {
    if d.maximumMessageLength < HEADER_SIZE then 0 else d.maximumMessageLength - HEADER_SIZE
  }

  function Min(a: nat, b: nat): nat {
    if a <= b then a else b
  }

  function MaximumTransferBlockLength(d: FunctionalDescriptor): nat {
    var payload := MaximumPayloadLength(d);
    match d.level
    case Character => Min(payload, MAXIMUM_T0_TPDU_LENGTH)
    case Tpdu => Min(payload, MAXIMUM_T0_TPDU_LENGTH)
    case ShortApdu => Min(payload, MAXIMUM_SHORT_APDU_LENGTH)
    case ShortAndExtendedApdu => payload
  }

  function MinimumMessageLength(level: ExchangeLevel): nat {
    match level
    case Character => HEADER_SIZE + 1
    case Tpdu => HEADER_SIZE + MAXIMUM_T0_TPDU_LENGTH
    case ShortApdu => HEADER_SIZE + MAXIMUM_SHORT_APDU_LENGTH
    case ShortAndExtendedApdu => HEADER_SIZE + MAXIMUM_SHORT_APDU_LENGTH
  }

  /** Bits 16 to 18 of `dwFeatures`. */
  function ExchangeLevelOf(features: nat): Option<ExchangeLevel> {
    match features / 0x1_0000 % 8
    case 0 => Some(Character)
    case 1 => Some(Tpdu)
    case 2 => Some(ShortApdu)
    case 4 => Some(ShortAndExtendedApdu)
    case _ => None
  }

  function ParseFunctionalDescriptor(bytes: seq<byte>): Result<FunctionalDescriptor, CcidError> {
    if |bytes| < FUNCTIONAL_DESCRIPTOR_LENGTH then Err(CcidDescriptorTooShort)
    else if bytes[1] != FUNCTIONAL_DESCRIPTOR_TYPE then Err(InvalidFunctionalDescriptorType(bytes[1]))
    else
      var protocols := FromLe4(bytes, 6);
      var features := FromLe4(bytes, 40);
      var declared := FromLe4(bytes, 44);
      if protocols % 4 == 0 then Err(UnsupportedProtocol)
      else if ExchangeLevelOf(features).None? then Err(InvalidExchangeLevel)
      else if features / 64 % 2 == 1 && features / 128 % 2 == 1 then Err(InvalidApduConfiguration)
      else if declared > MAXIMUM_MESSAGE_LENGTH then Err(MessageLengthOutOfRange)
      else if declared < MinimumMessageLength(ExchangeLevelOf(features).value) then Err(TransferMessageBoundTooSmall)
      else Ok(FunctionalDescriptor(ExchangeLevelOf(features).value, declared, bytes[4], features, protocols, bytes[52]))
  }

  /**
   * The bounds every descriptor the parser accepts obeys: a transfer block is never empty, fits the
   * reader's message after its header, and at the extended level carries at least a short APDU.
   */
  predicate Accepted(d: FunctionalDescriptor) {
    && HEADER_SIZE < d.maximumMessageLength <= MAXIMUM_MESSAGE_LENGTH
    && 0 < MaximumTransferBlockLength(d) <= d.maximumMessageLength - HEADER_SIZE
    && (d.level.ShortAndExtendedApdu? ==> MaximumTransferBlockLength(d) >= MAXIMUM_SHORT_APDU_LENGTH)
  }

  // ---- Finding the descriptor among a configuration's descriptors ----

  /** One USB descriptor: its first octet is its length. */
  predicate WellFramed(d: seq<byte>) {
    |d| >= 2 && d[0] == |d| && (d[1] == 0x04 ==> |d| >= 9)
  }

  predicate AllFramed(ds: seq<seq<byte>>) {
    forall i :: 0 <= i < |ds| ==> WellFramed(ds[i])
  }

  predicate IsTargetInterface(d: seq<byte>, number: byte, alternate: byte)
    requires WellFramed(d) && d[1] == INTERFACE_DESCRIPTOR_TYPE
  {
    d[2] == number && d[3] == alternate && d[5] == CCID_INTERFACE_CLASS
  }

  /** Whether the last interface descriptor before `ds[i]` is the target; `inTarget` stands in when there is none. */
  predicate Governed(ds: seq<seq<byte>>, i: nat, number: byte, alternate: byte, inTarget: bool)
    requires i <= |ds| && AllFramed(ds)
  {
    if i == 0 then inTarget
    else if ds[i - 1][1] == 0x04 then ds[i - 1][2] == number && ds[i - 1][3] == alternate && ds[i - 1][5] == 0x0B
    else Governed(ds, i - 1, number, alternate, inTarget)
  }

  predicate IsMatch(ds: seq<seq<byte>>, i: nat, number: byte, alternate: byte, inTarget: bool)
    requires i < |ds| && AllFramed(ds)
  {
    ds[i][1] == 0x21 && Governed(ds, i, number, alternate, inTarget)
  }

  /** The byte walk from one descriptor boundary on. */
  function Walk(rest: seq<byte>, number: byte, alternate: byte, inTarget: bool)
    : Result<FunctionalDescriptor, CcidError>
  {
    if rest == [] then Err(MissingCcidDescriptor)
    else if |rest| < 2 then Err(TruncatedDescriptorHeader)
    else if rest[0] < 2 then Err(InvalidDescriptorLength)
    else if rest[0] > |rest| then Err(TruncatedDescriptor)
    else if rest[1] == INTERFACE_DESCRIPTOR_TYPE then
      if rest[0] < INTERFACE_DESCRIPTOR_LENGTH then Err(InvalidInterfaceDescriptor)
      else Walk(rest[rest[0]..], number, alternate, IsTargetInterface(rest[..rest[0]], number, alternate))
    else if rest[1] == FUNCTIONAL_DESCRIPTOR_TYPE && inTarget then ParseFunctionalDescriptor(rest[..rest[0]])
    else Walk(rest[rest[0]..], number, alternate, inTarget)
  }

  /** The loop of the source, moving `offset` and `is_target_interface`. */
  method ParseFromUsbDescriptors(raw: seq<byte>, number: byte, alternate: byte)
    returns (r: Result<FunctionalDescriptor, CcidError>)
    ensures r == Walk(raw, number, alternate, false)
    ensures r.Ok? ==> Accepted(r.value)
  {
    var offset := 0;
    var inTarget := false;
    while offset < |raw|
      invariant 0 <= offset <= |raw|
      invariant Walk(raw, number, alternate, false) == Walk(raw[offset..], number, alternate, inTarget)
    {
      var remaining := raw[offset..];
      if |remaining| < 2 {
        return Err(TruncatedDescriptorHeader);
      }
      var length: int := remaining[0];
      if length < 2 {
        return Err(InvalidDescriptorLength);
      }
      if length > |remaining| {
        return Err(TruncatedDescriptor);
      }
      if remaining[1] == INTERFACE_DESCRIPTOR_TYPE {
        if length < INTERFACE_DESCRIPTOR_LENGTH {
          return Err(InvalidInterfaceDescriptor);
        }
        inTarget := remaining[2] == number && remaining[3] == alternate && remaining[5] == CCID_INTERFACE_CLASS;
      } else if remaining[1] == FUNCTIONAL_DESCRIPTOR_TYPE && inTarget {
        AcceptedDescriptor(remaining[..length]);
        return ParseFunctionalDescriptor(remaining[..length]);
      }
      assert remaining[length..] == raw[offset + length..];
      offset := offset + length;
    }
    r := Err(MissingCcidDescriptor);
  }

  lemma AcceptedDescriptor(bytes: seq<byte>)
    ensures ParseFunctionalDescriptor(bytes).Ok? ==> Accepted(ParseFunctionalDescriptor(bytes).value)
  {
  }

  lemma {:induction false} GovernedShift(ds: seq<seq<byte>>, i: nat, number: byte, alternate: byte, inTarget: bool)
    requires 0 < i <= |ds| && AllFramed(ds)
    ensures Governed(ds, i, number, alternate, inTarget) ==
            Governed(ds[1..], i - 1, number, alternate, Governed(ds, 1, number, alternate, inTarget))
  {
    if i > 1 {
      GovernedShift(ds, i - 1, number, alternate, inTarget);
    }
  }

  /** Descriptors with no match among them are passed over. */
  lemma {:induction false} WalkPassesOver(ds: seq<seq<byte>>, tail: seq<byte>, number: byte, alternate: byte,
                                          inTarget: bool)
    requires AllFramed(ds)
    requires forall i: nat :: i < |ds| ==> !IsMatch(ds, i, number, alternate, inTarget)
    ensures Walk(Concat(ds) + tail, number, alternate, inTarget) ==
            Walk(tail, number, alternate, Governed(ds, |ds|, number, alternate, inTarget))
  {
    if ds == [] {
      assert Concat(ds) + tail == tail;
    } else {
      var d, raw := ds[0], Concat(ds) + tail;
      assert raw[..raw[0]] == d && raw[raw[0]..] == Concat(ds[1..]) + tail;
      var next := Governed(ds, 1, number, alternate, inTarget);
      assert Governed(ds, 0, number, alternate, inTarget) == inTarget;
      assert !IsMatch(ds, 0, number, alternate, inTarget);
      GovernedShift(ds, |ds|, number, alternate, inTarget);
      forall i: nat | i < |ds[1..]| ensures !IsMatch(ds[1..], i, number, alternate, next) {
        assert !IsMatch(ds, i + 1, number, alternate, inTarget);
        GovernedShift(ds, i + 1, number, alternate, inTarget);
      }
      WalkPassesOver(ds[1..], tail, number, alternate, next);
    }
  }

  lemma {:induction false} GovernedBefore(ds: seq<seq<byte>>, k: nat, i: nat, number: byte, alternate: byte,
                                          inTarget: bool)
    requires i <= k <= |ds| && AllFramed(ds)
    ensures Governed(ds[..k], i, number, alternate, inTarget) == Governed(ds, i, number, alternate, inTarget)
  {
    if i > 0 {
      GovernedBefore(ds, k, i - 1, number, alternate, inTarget);
    }
  }

  lemma WalkTakesAMatch(d: seq<byte>, rest: seq<byte>, number: byte, alternate: byte)
    requires WellFramed(d) && d[1] == 0x21
    ensures Walk(d + rest, number, alternate, true) == ParseFunctionalDescriptor(d)
  {
    hide ParseFunctionalDescriptor;
    assert (d + rest)[..d[0]] == d;
  }

  lemma WalkStopsAt(ds: seq<seq<byte>>, i: nat, number: byte, alternate: byte, inTarget: bool)
    requires AllFramed(ds) && i < |ds| && IsMatch(ds, i, number, alternate, inTarget)
    requires forall j: nat :: j < i ==> !IsMatch(ds, j, number, alternate, inTarget)
    ensures Walk(Concat(ds), number, alternate, inTarget) == ParseFunctionalDescriptor(ds[i])
  {
    hide Walk, WellFramed, ParseFunctionalDescriptor, Governed;
    forall j: nat | j < i ensures !IsMatch(ds[..i], j, number, alternate, inTarget) {
      assert !IsMatch(ds, j, number, alternate, inTarget);
      GovernedBefore(ds, i, j, number, alternate, inTarget);
    }
    GovernedBefore(ds, i, i, number, alternate, inTarget);
    ConcatSplit(ds, i);
    WalkPassesOver(ds[..i], Concat(ds[i..]), number, alternate, inTarget);
    WalkTakesAMatch(ds[i], Concat(ds[i..][1..]), number, alternate);
  }

  /**
   * Over any list of well-framed descriptors, the walk parses the first functional descriptor the
   * target interface governs, and reports it missing exactly when there is none.
   */
  lemma WalkFindsFirstMatch(ds: seq<seq<byte>>, number: byte, alternate: byte, inTarget: bool)
    requires AllFramed(ds)
    ensures (forall i: nat :: i < |ds| ==> !IsMatch(ds, i, number, alternate, inTarget)) ==>
              Walk(Concat(ds), number, alternate, inTarget) == Err(MissingCcidDescriptor)
    ensures forall i: nat | i < |ds| && IsMatch(ds, i, number, alternate, inTarget)
              && (forall j: nat :: j < i ==> !IsMatch(ds, j, number, alternate, inTarget)) ::
              Walk(Concat(ds), number, alternate, inTarget) == ParseFunctionalDescriptor(ds[i])
  {
    hide Concat, AllFramed, IsMatch, ParseFunctionalDescriptor;
    if forall i: nat :: i < |ds| ==> !IsMatch(ds, i, number, alternate, inTarget) {
      WalkPassesOver(ds, [], number, alternate, inTarget);
      assert Concat(ds) + [] == Concat(ds);
    }
    forall i: nat | i < |ds| && IsMatch(ds, i, number, alternate, inTarget)
                    && (forall j: nat :: j < i ==> !IsMatch(ds, j, number, alternate, inTarget))
      ensures Walk(Concat(ds), number, alternate, inTarget) == ParseFunctionalDescriptor(ds[i])
    {
      WalkStopsAt(ds, i, number, alternate, inTarget);
    }
  }

  // ---- What a refusal says ----

  /** A functional descriptor is refused for the first of these that it fails. */
  lemma FirstFaultIsNamed(bytes: seq<byte>)
    ensures var r := ParseFunctionalDescriptor(bytes);
            if |bytes| < 54 then r == Err(CcidDescriptorTooShort)
            else if bytes[1] != 0x21 then r == Err(InvalidFunctionalDescriptorType(bytes[1]))
            else if bytes[6] % 4 == 0 then r == Err(UnsupportedProtocol)
            else if bytes[42] % 8 != 0 && bytes[42] % 8 != 1 && bytes[42] % 8 != 2 && bytes[42] % 8 != 4
            then r == Err(InvalidExchangeLevel)
            else if bytes[40] >= 192 then r == Err(InvalidApduConfiguration)
            else if FromLe4(bytes, 44) > 65_554 then r == Err(MessageLengthOutOfRange)
            else if FromLe4(bytes, 44) < (if bytes[42] % 8 == 0 then 11 else if bytes[42] % 8 == 1 then 270 else 271)
            then r == Err(TransferMessageBoundTooSmall)
            else r.Ok?
  {
    if |bytes| >= 54 {
      LowOctet(bytes, 6);
      LowOctet(bytes, 40);
      ThirdOctet(bytes, 40);
    }
    hide FromLe4;
  }

  lemma LowBits(b: nat, rest: nat)
    requires b < 256
    ensures var n := b + 256 * rest;
            n % 4 == b % 4 && n / 64 == b / 64 + 4 * rest && n / 128 == b / 128 + 2 * rest
  {
    QuotientIs(b + 256 * rest, 4, b / 4 + 64 * rest);
    QuotientIs(b + 256 * rest, 64, b / 64 + 4 * rest);
    QuotientIs(b + 256 * rest, 128, b / 128 + 2 * rest);
  }

  lemma LowOctet(bytes: seq<byte>, at: nat)
    requires at + 4 <= |bytes|
    ensures FromLe4(bytes, at) % 4 == bytes[at] % 4
    ensures FromLe4(bytes, at) / 64 % 2 == 1 && FromLe4(bytes, at) / 128 % 2 == 1 <==> bytes[at] >= 192
  {
    var b1: int, b2: int, b3: int := bytes[at + 1], bytes[at + 2], bytes[at + 3];
    var rest := b1 + 256 * b2 + 65_536 * b3;
    assert FromLe4(bytes, at) == bytes[at] + 256 * rest;
    hide FromLe4;
    LowBits(bytes[at], rest);
  }

  lemma ThirdOctet(bytes: seq<byte>, at: nat)
    requires at + 4 <= |bytes|
    ensures FromLe4(bytes, at) / 65_536 % 8 == bytes[at + 2] % 8
  {
    var b0: int, b1: int, b2: int, b3: int := bytes[at], bytes[at + 1], bytes[at + 2], bytes[at + 3];
    var low := b0 + 256 * b1;
    assert FromLe4(bytes, at) == low + 65_536 * (b2 + 256 * b3);
    assert low < 65_536;
  }

  /** Octets that are no whole descriptor, after descriptors none of which matches, are refused for what they lack. */
  lemma BrokenTailIsNamed(ds: seq<seq<byte>>, tail: seq<byte>, number: byte, alternate: byte)
    requires AllFramed(ds) && tail != []
    requires forall i: nat :: i < |ds| ==> !IsMatch(ds, i, number, alternate, false)
    requires !(|tail| >= 2 && 2 <= tail[0] <= |tail| && (tail[1] == 0x04 ==> tail[0] >= 9))
    ensures Walk(Concat(ds) + tail, number, alternate, false) ==
            Err(if |tail| < 2 then TruncatedDescriptorHeader
                else if tail[0] < 2 then InvalidDescriptorLength
                else if tail[0] > |tail| then TruncatedDescriptor
                else InvalidInterfaceDescriptor)
  {
    hide Concat, AllFramed, IsMatch;
    WalkPassesOver(ds, tail, number, alternate, false);
  }
}
