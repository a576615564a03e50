/**
 * CCID bulk and interrupt messages (USB-IF Smart Card CCID Rev 1.1 sections 6.1 to 6.3):
 * the host-side encoders and the decoders of reader replies and interrupt packets.
 */
module Codec {
  import opened Wrappers
  import opened Bytes
  import opened CcidErrors

  const HEADER_SIZE := 10
  const MAX_RESPONSE_PAYLOAD := 65_538

  const PC_TO_RDR_SET_PARAMETERS: byte := 0x61
  const PC_TO_RDR_ICC_POWER_ON: byte := 0x62
  const PC_TO_RDR_ICC_POWER_OFF: byte := 0x63
  const PC_TO_RDR_GET_SLOT_STATUS: byte := 0x65
  const PC_TO_RDR_SECURE: byte := 0x69
  const PC_TO_RDR_GET_PARAMETERS: byte := 0x6C
  const PC_TO_RDR_XFR_BLOCK: byte := 0x6F
  const PC_TO_RDR_ABORT: byte := 0x72
  const CONTROL_REQUEST_TYPE: byte := 0x21
  const CONTROL_REQUEST_ABORT: byte := 0x01

  const RDR_TO_PC_DATA_BLOCK: byte := 0x80
  const RDR_TO_PC_SLOT_STATUS: byte := 0x81
  const RDR_TO_PC_PARAMETERS: byte := 0x82
  const RDR_TO_PC_NOTIFY_SLOT_CHANGE: byte := 0x50
  const RDR_TO_PC_HARDWARE_ERROR: byte := 0x51

  const CHAIN_COMMAND_CONTINUATION_EXPECTED: byte := 0x10
  const T0_PARAMETER_LENGTH := 5

  type u16 = n: int | 0 <= n < 0x1_0000

  datatype CardStatus = Active | Inactive | NotPresent

  datatype ClockStatus = Running | StoppedLow | StoppedHigh | StoppedUnknown

  datatype ChainParameter = ChainComplete | ChainBegin | ChainEnd | ChainContinue | CommandContinuationExpected

  datatype Response =
    | DataBlock(card: CardStatus, chain: ChainParameter, payload: seq<byte>)
    | SlotStatus(card: CardStatus, clock: ClockStatus)
    | Parameters(card: CardStatus, protocol: byte, payload: seq<byte>)
    | CommandFailure(card: CardStatus, errorCode: int)
    | TimeExtension(card: CardStatus, multiplier: byte)

  // ---- Encoders ----

  function EncodeIccPowerOn(slot: byte, sequence: byte, voltage: byte): seq<byte> {
    [PC_TO_RDR_ICC_POWER_ON, 0, 0, 0, 0, slot, sequence, voltage, 0, 0]
  }

  function EncodeIccPowerOff(slot: byte, sequence: byte): seq<byte> {
    [PC_TO_RDR_ICC_POWER_OFF, 0, 0, 0, 0, slot, sequence, 0, 0, 0]
  }

  function EncodeGetSlotStatus(slot: byte, sequence: byte): seq<byte> {
    [PC_TO_RDR_GET_SLOT_STATUS, 0, 0, 0, 0, slot, sequence, 0, 0, 0]
  }

  function EncodeGetParameters(slot: byte, sequence: byte): seq<byte> {
    [PC_TO_RDR_GET_PARAMETERS, 0, 0, 0, 0, slot, sequence, 0, 0, 0]
  }

  function EncodeSetParametersT0(slot: byte, sequence: byte, fiDi: byte, guardTime: byte,
                                 waitingInteger: byte, clockStop: byte, inverse: bool): seq<byte>
  {
    [PC_TO_RDR_SET_PARAMETERS, 5, 0, 0, 0, slot, sequence, 0, 0, 0,
     fiDi, if inverse then 2 else 0, guardTime, waitingInteger, clockStop]
  }

  function EncodeAbort(slot: byte, sequence: byte): seq<byte> {
    [PC_TO_RDR_ABORT, 0, 0, 0, 0, slot, sequence, 0, 0, 0]
  }

  /** The length field saturates where a block outgrows 32 bits. */
  function LengthField(block: seq<byte>): seq<byte> {
    Le4(if |block| < U32_LIMIT then |block| else U32_LIMIT - 1)
  }

  function EncodeBlock(kind: byte, slot: byte, sequence: byte, bwi: byte, level: u16,
                       block: seq<byte>): (frame: seq<byte>)
    ensures |frame| == HEADER_SIZE + |block|
    ensures frame[0] == kind && frame[5] == slot && frame[6] == sequence && frame[7] == bwi
    ensures FromLe4(frame, 1) == if |block| < U32_LIMIT then |block| else U32_LIMIT - 1
    ensures FrameLevel(frame) == level && frame[HEADER_SIZE..] == block
  {
    Le4RoundTrip(if |block| < U32_LIMIT then |block| else U32_LIMIT - 1);
    [kind] + LengthField(block) + [slot, sequence, bwi, level % 256, level / 256] + block
  }

  function EncodeXfrBlock(slot: byte, sequence: byte, bwi: byte, level: u16, block: seq<byte>): seq<byte> {
    EncodeBlock(PC_TO_RDR_XFR_BLOCK, slot, sequence, bwi, level, block)
  }

  function EncodeSecure(slot: byte, sequence: byte, bwi: byte, level: u16, data: seq<byte>): seq<byte> {
    EncodeBlock(PC_TO_RDR_SECURE, slot, sequence, bwi, level, data)
  }

  /** The `wLevelParameter` a Bulk-OUT frame carries at offsets 8 and 9. */
  function FrameLevel(frame: seq<byte>): int
    requires HEADER_SIZE <= |frame|
  {
    var low: int, high: int := frame[8], frame[9];
    low + 256 * high
  }

  // ---- Decoder of Bulk-IN replies ----

  function CardStatusOf(status: byte): Option<CardStatus> {
    if status % 4 == 0 then Some(Active)
    else if status % 4 == 1 then Some(Inactive)
    else if status % 4 == 2 then Some(NotPresent)
    else None
  }

  function SignedByte(b: byte): int {
    if b < 128 then b else b - 256
  }

  function DecodeResponse(frame: seq<byte>, expectedType: byte, slot: byte, sequence: byte): Result<Response, CcidError>
  {
    if |frame| < HEADER_SIZE then Err(TruncatedHeader) else
    var declared := FromLe4(frame, 1);
    if declared > MAX_RESPONSE_PAYLOAD then Err(ResponseLengthOutOfRange)
    else if |frame| != HEADER_SIZE + declared then Err(LengthMismatch)
    else if frame[0] != expectedType then Err(UnexpectedMessageType(expectedType, frame[0]))
    else if frame[5] != slot then Err(UnexpectedSlot(slot, frame[5]))
    else if frame[6] != sequence then Err(UnexpectedSequence(sequence, frame[6]))
    else if expectedType == RDR_TO_PC_SLOT_STATUS && declared != 0 then Err(UnexpectedPayload)
    else if frame[7] / 4 % 16 != 0 then Err(ReservedStatusBits)
    else if CardStatusOf(frame[7]).None? then Err(ReservedCardStatus)
    else
      var card := CardStatusOf(frame[7]).value;
      if frame[7] / 64 == 0 then DecodeSucceeded(frame, expectedType, card)
      else if frame[7] / 64 == 1 then Ok(CommandFailure(card, SignedByte(frame[8])))
      else if frame[7] / 64 == 2 then Ok(TimeExtension(card, frame[8]))
      else Err(ReservedCommandStatus)
  }

  function DecodeSucceeded(frame: seq<byte>, expectedType: byte, card: CardStatus): Result<Response, CcidError>
    requires HEADER_SIZE <= |frame|
  {
    var parameter := frame[9];
    var payload := frame[HEADER_SIZE..];
    if expectedType == RDR_TO_PC_SLOT_STATUS then
      if parameter == 0 then Ok(SlotStatus(card, Running))
      else if parameter == 1 then Ok(SlotStatus(card, StoppedLow))
      else if parameter == 2 then Ok(SlotStatus(card, StoppedHigh))
      else if parameter == 3 then Ok(SlotStatus(card, StoppedUnknown))
      else Err(InvalidClockStatus)
    else if expectedType == RDR_TO_PC_DATA_BLOCK then
      if parameter == 0 then Ok(DataBlock(card, ChainComplete, payload))
      else if parameter == 1 then Ok(DataBlock(card, ChainBegin, payload))
      else if parameter == 2 then Ok(DataBlock(card, ChainEnd, payload))
      else if parameter == 3 then Ok(DataBlock(card, ChainContinue, payload))
      else if parameter == CHAIN_COMMAND_CONTINUATION_EXPECTED then
        Ok(DataBlock(card, CommandContinuationExpected, payload))
      else Err(InvalidChainParameter)
    else if expectedType == RDR_TO_PC_PARAMETERS then
      if (parameter == 0 && |payload| == 5) || (parameter == 1 && |payload| == 7)
      then Ok(Parameters(card, parameter, payload))
      else Err(ProtocolDesync(InvalidParametersLength(parameter, |payload|)))
    else Err(UnexpectedMessageType(expectedType, frame[0]))
  }

  // ---- The reader's side of the same messages ----

  function StatusByte(card: CardStatus, command: nat): byte
    requires command < 4
  {
    64 * command + (match card case Active => 0 case Inactive => 1 case NotPresent => 2)
  }

  function ChainByte(chain: ChainParameter): byte {
    match chain
    case ChainComplete => 0
    case ChainBegin => 1
    case ChainEnd => 2
    case ChainContinue => 3
    case CommandContinuationExpected => CHAIN_COMMAND_CONTINUATION_EXPECTED
  }

  function ClockByte(clock: ClockStatus): byte {
    match clock
    case Running => 0
    case StoppedLow => 1
    case StoppedHigh => 2
    case StoppedUnknown => 3
  }

  /** Responses a conforming reader can express in the reply type `kind`. */
  predicate Expressible(r: Response, kind: byte) {
    match r
    case DataBlock(_, _, payload) => kind == RDR_TO_PC_DATA_BLOCK && |payload| <= MAX_RESPONSE_PAYLOAD
    case SlotStatus(_, _) => kind == RDR_TO_PC_SLOT_STATUS
    case Parameters(_, protocol, payload) =>
      kind == RDR_TO_PC_PARAMETERS && ((protocol == 0 && |payload| == 5) || (protocol == 1 && |payload| == 7))
    case CommandFailure(_, code) => -128 <= code < 128
    case TimeExtension(_, _) => true
  }

  /** The reader's frame for a response. */
  function ReaderFrame(r: Response, kind: byte, slot: byte, sequence: byte): (frame: seq<byte>)
    requires Expressible(r, kind)
  {
    var payload := if r.DataBlock? || r.Parameters? then r.payload else [];
    var command := if r.CommandFailure? then 1 else if r.TimeExtension? then 2 else 0;
    var error: byte := match r
      case CommandFailure(_, code) => if code < 0 then code + 256 else code
      case TimeExtension(_, multiplier) => multiplier
      case _ => 0;
    var parameter: byte := match r
      case DataBlock(_, chain, _) => ChainByte(chain)
      case SlotStatus(_, clock) => ClockByte(clock)
      case Parameters(_, protocol, _) => protocol
      case _ => 0;
    [kind] + Le4(|payload|) + [slot, sequence, StatusByte(r.card, command), error, parameter] + payload
  }

  /** The decoder reads every frame a conforming reader sends back to the response it was built from. */
  lemma ReaderFrameDecodes(r: Response, kind: byte, slot: byte, sequence: byte)
    requires Expressible(r, kind)
    ensures DecodeResponse(ReaderFrame(r, kind, slot, sequence), kind, slot, sequence) == Ok(r)
  {
    var frame := ReaderFrame(r, kind, slot, sequence);
    var payload := if r.DataBlock? || r.Parameters? then r.payload else [];
    assert frame[1..5] == Le4(|payload|);
    Le4RoundTrip(|payload|);
    assert FromLe4(frame, 1) == FromLe4(frame[1..5], 0);
    assert frame[HEADER_SIZE..] == payload;
    assert CardStatusOf(frame[7]) == Some(r.card);
  }

  /**
   * What an accepted reply proves about its frame: it was addressed to the slot and sequence the
   * host waits on, and its response can be expressed in the reply type the host waits for.
   */
  lemma AcceptedReply(frame: seq<byte>, kind: byte, slot: byte, sequence: byte)
    requires DecodeResponse(frame, kind, slot, sequence).Ok?
    ensures HEADER_SIZE <= |frame| <= HEADER_SIZE + MAX_RESPONSE_PAYLOAD
    ensures frame[0] == kind && frame[5] == slot && frame[6] == sequence
    ensures Expressible(DecodeResponse(frame, kind, slot, sequence).value, kind)
  {
  }

  function ParameterOf(r: Response): byte
    requires r.DataBlock? || r.SlotStatus? || r.Parameters?
  {
    match r
    case DataBlock(_, chain, _) => ChainByte(chain)
    case SlotStatus(_, clock) => ClockByte(clock)
    case Parameters(_, protocol, _) => protocol
  }

  lemma AcceptedOctets(frame: seq<byte>, kind: byte, slot: byte, sequence: byte)
    requires DecodeResponse(frame, kind, slot, sequence).Ok?
    requires var r := DecodeResponse(frame, kind, slot, sequence).value; r.DataBlock? || r.SlotStatus? || r.Parameters?
    ensures var r := DecodeResponse(frame, kind, slot, sequence).value;
            var payload := if r.SlotStatus? then [] else r.payload;
            && HEADER_SIZE <= |frame| && FromLe4(frame, 1) == |payload| && frame[HEADER_SIZE..] == payload
            && frame[7] == StatusByte(r.card, 0) && frame[9] == ParameterOf(r)
  {
    hide FromLe4;
  }

  /** A successful reply is the conforming reader's frame apart from the error octet, which carries nothing. */
  lemma AcceptedFrame(frame: seq<byte>, kind: byte, slot: byte, sequence: byte)
    requires DecodeResponse(frame, kind, slot, sequence).Ok?
    requires var r := DecodeResponse(frame, kind, slot, sequence).value; r.DataBlock? || r.SlotStatus? || r.Parameters?
    ensures Expressible(DecodeResponse(frame, kind, slot, sequence).value, kind)
    ensures frame == ReaderFrame(DecodeResponse(frame, kind, slot, sequence).value, kind, slot, sequence)[8 := frame[8]]
  {
    AcceptedReply(frame, kind, slot, sequence);
    AcceptedOctets(frame, kind, slot, sequence);
    hide DecodeResponse, StatusByte, Le4, FromLe4;
    var r := DecodeResponse(frame, kind, slot, sequence).value;
    var payload := if r.SlotStatus? then [] else r.payload;
    Le4Unique(frame, 1);
    SplitHeader(frame);
    assert frame ==
        ([kind] + Le4(|payload|) + [slot, sequence, StatusByte(r.card, 0), 0, ParameterOf(r)] + payload)[8 := frame[8]];
  }

  /** A reply is refused for the first of these that it fails, told from its octets. */
  lemma RefusedReplyIsNamed(frame: seq<byte>, kind: byte, slot: byte, sequence: byte)
    ensures var r := DecodeResponse(frame, kind, slot, sequence);
            if |frame| < 10 then r == Err(TruncatedHeader)
            else if FromLe4(frame, 1) > 65_538 then r == Err(ResponseLengthOutOfRange)
            else if |frame| != 10 + FromLe4(frame, 1) then r == Err(LengthMismatch)
            else if frame[0] != kind then r == Err(UnexpectedMessageType(kind, frame[0]))
            else if frame[5] != slot then r == Err(UnexpectedSlot(slot, frame[5]))
            else if frame[6] != sequence then r == Err(UnexpectedSequence(sequence, frame[6]))
            else if kind == 0x81 && |frame| > 10 then r == Err(UnexpectedPayload)
            else if frame[7] % 64 >= 4 then r == Err(ReservedStatusBits)
            else if frame[7] % 4 == 3 then r == Err(ReservedCardStatus)
            else if frame[7] >= 192 then r == Err(ReservedCommandStatus)
            else if frame[7] >= 64 then r.Ok?
            else if kind == 0x81 then if frame[9] <= 3 then r.Ok? else r == Err(InvalidClockStatus)
            else if kind == 0x80 then
              if frame[9] <= 3 || frame[9] == 0x10 then r.Ok? else r == Err(InvalidChainParameter)
            else if kind == 0x82 then
              if (frame[9] == 0 && |frame| == 15) || (frame[9] == 1 && |frame| == 17) then r.Ok?
              else r == Err(ProtocolDesync(InvalidParametersLength(frame[9], |frame| - 10)))
            else r == Err(UnexpectedMessageType(kind, kind))
  {
    hide FromLe4;
  }

  lemma SplitHeader(frame: seq<byte>)
    requires HEADER_SIZE <= |frame|
    ensures frame ==
            [frame[0]] + frame[1..5] + [frame[5], frame[6], frame[7], frame[8], frame[9]] + frame[HEADER_SIZE..]
  {
  }

  // ---- Interrupt packets ----

  datatype SlotChange = SlotChange(presence: seq<bool>, changed: seq<bool>)

  predicate CardPresentIn(n: SlotChange, slot: byte) {
    slot < |n.presence| && n.presence[slot]
  }

  predicate ChangedIn(n: SlotChange, slot: byte) {
    slot < |n.changed| && n.changed[slot]
  }

  function Shifted(b: byte, bits: nat): int
    requires bits < 8
  {
    match bits
    case 0 => b
    case 1 => b / 2
    case 2 => b / 4
    case 3 => b / 8
    case 4 => b / 16
    case 5 => b / 32
    case 6 => b / 64
    case _ => b / 128
  }

  /** Bit `2 * (slot % 4) + change` of the packet's octet for `slot`. */
  predicate SlotBit(frame: seq<byte>, slot: nat, change: nat)
    requires 1 + slot / 4 < |frame| && change < 2
  {
    Shifted(frame[1 + slot / 4], slot % 4 * 2 + change) % 2 != 0
  }

  function SlotChangeError(frame: seq<byte>, maxSlotIndex: byte): Option<CcidError> {
    if frame == [] then Some(TruncatedHeader)
    else if frame[0] != RDR_TO_PC_NOTIFY_SLOT_CHANGE then
      Some(UnexpectedMessageType(RDR_TO_PC_NOTIFY_SLOT_CHANGE, frame[0]))
    else if |frame| < 1 + (maxSlotIndex + 4) / 4 then Some(LengthMismatch)
    else None
  }

  function DecodeSlotChange(frame: seq<byte>, maxSlotIndex: byte): Result<SlotChange, CcidError> {
    if SlotChangeError(frame, maxSlotIndex).Some? then Err(SlotChangeError(frame, maxSlotIndex).value)
    else
      Ok(SlotChange(seq(maxSlotIndex + 1, i requires 0 <= i <= maxSlotIndex => SlotBit(frame, i, 0)),
                    seq(maxSlotIndex + 1, i requires 0 <= i <= maxSlotIndex => SlotBit(frame, i, 1))))
  }

  /** The decoding loop of the source: one presence bit and one change bit pushed per slot. */
  method ReadSlotChange(frame: seq<byte>, maxSlotIndex: byte) returns (r: Result<SlotChange, CcidError>)
    ensures r == DecodeSlotChange(frame, maxSlotIndex)
  {
    if frame == [] {
      return Err(TruncatedHeader);
    }
    if frame[0] != RDR_TO_PC_NOTIFY_SLOT_CHANGE {
      return Err(UnexpectedMessageType(RDR_TO_PC_NOTIFY_SLOT_CHANGE, frame[0]));
    }
    var slotCount := maxSlotIndex + 1;
    if |frame| < 1 + (slotCount + 3) / 4 {
      return Err(LengthMismatch);
    }
    var presence, changed := [], [];
    for slot := 0 to slotCount
      invariant |presence| == |changed| == slot
      invariant forall i :: 0 <= i < slot ==> presence[i] == SlotBit(frame, i, 0) && changed[i] == SlotBit(frame, i, 1)
    {
      presence := presence + [SlotBit(frame, slot, 0)];
      changed := changed + [SlotBit(frame, slot, 1)];
    }
    var n := SlotChange(presence, changed);
    assert n == DecodeSlotChange(frame, maxSlotIndex).value;
    return Ok(n);
  }

  datatype HardwareError = HardwareError(slot: byte, sequence: byte, code: byte)

  function DecodeHardwareError(frame: seq<byte>): Result<HardwareError, CcidError> {
    if frame == [] then Err(TruncatedHeader)
    else if frame[0] != RDR_TO_PC_HARDWARE_ERROR then
      Err(UnexpectedMessageType(RDR_TO_PC_HARDWARE_ERROR, frame[0]))
    else if |frame| < 4 then Err(LengthMismatch)
    else Ok(HardwareError(frame[1], frame[2], frame[3]))
  }
}
