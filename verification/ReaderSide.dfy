/**
 * The other end of the Bulk-OUT pipe: a conforming reader's view of a command frame (USB-IF Smart
 * Card CCID Rev 1.1 section 6.1), and the proof that it sees the operation the host started.
 */
module ReaderSide {
  import opened Wrappers
  import opened Bytes
  import opened Codec
  import opened Descriptor
  import opened EngineModel

  datatype Seen = Seen(slot: byte, sequence: byte, op: Operation)

  predicate IsBare(frame: seq<byte>)
    requires HEADER_SIZE <= |frame|
  {
    |frame| == HEADER_SIZE && frame[8] == 0 && frame[9] == 0
  }

  /** The command in a frame whose declared length is right and whose unused octets are zero. */
  function ReadOperation(frame: seq<byte>): Option<Operation>
    requires HEADER_SIZE <= |frame|
  {
    var kind, payload := frame[0], frame[HEADER_SIZE..];
    if kind == 0x6F then Some(TransferBlock(frame[7], FrameLevel(frame), payload))
    else if kind == 0x69 then Some(Secure(frame[7], FrameLevel(frame), payload))
    else if kind == 0x61 then
      if |payload| == 5 && frame[7] == frame[8] == frame[9] == 0 && (payload[1] == 0 || payload[1] == 2)
      then Some(SetParametersT0(payload[0], payload[2], payload[3], payload[4], payload[1] == 2)) else None
    else if !IsBare(frame) then None
    else if kind == 0x62 then Some(PowerOn(frame[7]))
    else if frame[7] != 0 then None
    else if kind == 0x63 then Some(PowerOff)
    else if kind == 0x65 then Some(GetSlotStatus)
    else if kind == 0x6C then Some(GetParameters)
    else if kind == 0x72 then Some(Abort)
    else None
  }

  function ReadCommand(frame: seq<byte>): Option<Seen> {
    if |frame| < HEADER_SIZE || FromLe4(frame, 1) != |frame| - HEADER_SIZE then None
    else match ReadOperation(frame)
      case None => None
      case Some(op) => Some(Seen(frame[5], frame[6], op))
  }

  lemma BlockReads(kind: byte, slot: byte, sequence: byte, bwi: byte, level: u16, block: seq<byte>)
    requires kind == 0x6F || kind == 0x69
    requires |block| < U32_LIMIT
    ensures ReadCommand(EncodeBlock(kind, slot, sequence, bwi, level, block)) ==
            Some(Seen(slot, sequence,
                      if kind == 0x6F then TransferBlock(bwi, level, block) else Secure(bwi, level, block)))
  {
    var frame := EncodeBlock(kind, slot, sequence, bwi, level, block);
    Le4RoundTrip(|block|);
    assert frame[1..5] == Le4(|block|);
  }

  /** What the reader is asked first: the operation itself, or the opening block of a split command. */
  function Asked(c: Config, op: Operation): Operation {
    if IsSplit(c, op) then TransferBlock(op.bwi, LEVEL_BEGIN, op.data[..c.maxPayloadLength]) else op
  }

  lemma FirstFrameReads(c: Config, op: Operation, sequence: byte)
    requires !op.Abort? && ((op.TransferBlock? || op.Secure?) ==> |op.data| < U32_LIMIT)
    ensures ReadCommand(FirstFrame(c, op, sequence)) == Some(Seen(c.slot, sequence, Asked(c, op)))
  {
    hide Le4, EncodeBlock;
    if op.TransferBlock? {
      var asked := Asked(c, op);
      BlockReads(0x6F, c.slot, sequence, asked.bwi, asked.level, asked.data);
    } else if op.Secure? {
      BlockReads(0x69, c.slot, sequence, op.bwi, op.level, op.data);
    }
  }

  lemma AbortReads(slot: byte, sequence: byte)
    ensures ReadCommand(EncodeAbort(slot, sequence)) == Some(Seen(slot, sequence, Abort))
  {
  }

  /**
   * Whatever the engine accepts, the reader is asked for: the one action of an accepted Start is the
   * abort request for an Abort, and otherwise a frame the reader reads back as the operation
   * started, for the engine's slot and under the sequence number the engine reports.
   */
  lemma AcceptedStartIsWhatTheReaderSees(c: Config, calls: seq<Call>, now: Instant, id: nat, op: Operation)
    requires c.maxPayloadLength < U32_LIMIT
    ensures var s := Exec(c, calls);
            var actions := Apply(c, s, StepCall(now, Start(id, op))).t.actions;
            |actions| == 1 &&
            if Refusal(c, s, op).Some? then actions[0] == Complete(id, Err(Refusal(c, s, op).value))
            else if op.Abort? then
              actions[0] == SubmitControl(0x21, 0x01, 256 * s.nextSeq + c.slot, c.interfaceNumber, [])
            else
              && actions[0].SubmitBulkOut? && actions[0].sequence == s.nextSeq
              && ReadCommand(actions[0].frame) == Some(Seen(c.slot, s.nextSeq, Asked(c, op)))
  {
    hide Exec, ReadCommand, FirstFrame, NewFlight;
    var s := Exec(c, calls);
    if Refusal(c, s, op).None? && !op.Abort? {
      FirstFrameReads(c, op, s.nextSeq);
    }
  }

  // ---- Slot change packets (section 6.3.1) ----

  function Pair(n: SlotChange, slot: nat): (p: int)
    ensures 0 <= p < 4
  {
    (if slot < |n.presence| && n.presence[slot] then 1 else 0)
    + (if slot < |n.changed| && n.changed[slot] then 2 else 0)
  }

  /** Two bits for each of four slots, the lowest slot in the lowest bits. */
  function NoticeOctet(n: SlotChange, k: nat): byte {
    Pair(n, 4 * k) + 4 * Pair(n, 4 * k + 1) + 16 * Pair(n, 4 * k + 2) + 64 * Pair(n, 4 * k + 3)
  }

  function NoticePacket(n: SlotChange): seq<byte> {
    [RDR_TO_PC_NOTIFY_SLOT_CHANGE] + seq((|n.presence| + 3) / 4, k requires k >= 0 => NoticeOctet(n, k))
  }

  lemma LowPair(x: int, pair: int, rest: int)
    requires x == pair + 4 * rest && 0 <= pair < 4 && 0 <= rest
    ensures x / 4 == rest && x % 2 == pair % 2 && x / 2 % 2 == pair / 2
  {
    assert x / 2 == pair / 2 + 2 * rest;
  }

  lemma QuarterShifts(x: byte)
    ensures Shifted(x, 2) == x / 4 && Shifted(x, 3) == x / 4 / 2
    ensures Shifted(x, 4) == x / 4 / 4 && Shifted(x, 5) == x / 4 / 4 / 2
    ensures Shifted(x, 6) == x / 4 / 4 / 4 && Shifted(x, 7) == x / 4 / 4 / 4 / 2
  {
  }

  lemma OctetBits(n: SlotChange, k: nat, i: nat)
    requires i < 4
    ensures Shifted(NoticeOctet(n, k), 2 * i) % 2 == Pair(n, 4 * k + i) % 2
    ensures Shifted(NoticeOctet(n, k), 2 * i + 1) % 2 == Pair(n, 4 * k + i) / 2
  {
    hide Pair;
    var a, b, c, d := Pair(n, 4 * k), Pair(n, 4 * k + 1), Pair(n, 4 * k + 2), Pair(n, 4 * k + 3);
    var x := NoticeOctet(n, k);
    assert Shifted(x, 0) == x && Shifted(x, 1) == x / 2;
    QuarterShifts(x);
    assert x == a + 4 * (b + 4 * c + 16 * d);
    hide Shifted, NoticeOctet;
    LowPair(x, a, b + 4 * c + 16 * d);
    LowPair(b + 4 * c + 16 * d, b, c + 4 * d);
    LowPair(c + 4 * d, c, d);
    LowPair(d, d, 0);
  }

  /** Every slot change notice a reader can send is read back bit for bit, whatever follows it in the packet. */
  lemma NoticeReadsBack(n: SlotChange, maxSlotIndex: byte, suffix: seq<byte>)
    requires |n.presence| == |n.changed| == maxSlotIndex + 1
    ensures DecodeSlotChange(NoticePacket(n) + suffix, maxSlotIndex) == Ok(n)
  {
    var frame := NoticePacket(n) + suffix;
    forall slot | 0 <= slot <= maxSlotIndex
      ensures SlotBit(frame, slot, 0) == n.presence[slot] && SlotBit(frame, slot, 1) == n.changed[slot]
    {
      hide NoticeOctet, Shifted;
      OctetBits(n, slot / 4, slot % 4);
      assert frame[1 + slot / 4] == NoticeOctet(n, slot / 4) && 4 * (slot / 4) + slot % 4 == slot;
    }
    assert DecodeSlotChange(frame, maxSlotIndex).value == n;
  }

  // ---- The functional descriptor (section 5.1) ----

  /** A reader's functional descriptor, with `gaps` for the fields the host does not read. */
  function DescriptorBytes(d: FunctionalDescriptor, gaps: seq<byte>): seq<byte>
    requires d.protocols < U32_LIMIT && d.features < U32_LIMIT && d.maximumMessageLength < U32_LIMIT && |gaps| == 38
  {
    [54, FUNCTIONAL_DESCRIPTOR_TYPE] + gaps[..2] + [d.maxSlotIndex] + gaps[2..3] + Le4(d.protocols) + gaps[3..33]
    + Le4(d.features) + Le4(d.maximumMessageLength) + gaps[33..37] + [d.pinSupport] + gaps[37..]
  }

  /** What the host asks of a reader: T=0 or T=1, one exchange level, one way to negotiate, a message long enough. */
  predicate Conforming(d: FunctionalDescriptor) {
    && d.protocols % 4 != 0
    && d.features / 65_536 % 8 == (match d.level
                                   case Character => 0
                                   case Tpdu => 1
                                   case ShortApdu => 2
                                   case ShortAndExtendedApdu => 4)
    && !(d.features / 64 % 2 == 1 && d.features / 128 % 2 == 1)
    && (match d.level case Character => 11 case Tpdu => 270 case _ => 271) <= d.maximumMessageLength <= 65_554
  }

  lemma LevelsAreBits(features: nat, level: ExchangeLevel)
    ensures ExchangeLevelOf(features) == Some(level) <==>
              features / 65_536 % 8 == (match level
                                        case Character => 0
                                        case Tpdu => 1
                                        case ShortApdu => 2
                                        case ShortAndExtendedApdu => 4)
    ensures MinimumMessageLength(level) == (match level case Character => 11 case Tpdu => 270 case _ => 271)
  {
  }

  /** A transfer block is as long as the message after its header allows, up to 260 octets, or 261 for an APDU. */
  lemma BlockFillsTheMessage(d: FunctionalDescriptor)
    requires Conforming(d)
    ensures var block := MaximumTransferBlockLength(d);
            && 1 <= block <= d.maximumMessageLength - 10
            && (d.level.Character? || d.level.Tpdu? ==> block <= 260)
            && (d.level.ShortApdu? ==> block == 261)
            && (d.level.ShortAndExtendedApdu? || block < 260 ==> block == d.maximumMessageLength - 10)
  {
  }

  /** A descriptor is read back exactly as the reader means it, if and only if it conforms. */
  lemma DescriptorReadsBack(d: FunctionalDescriptor, gaps: seq<byte>)
    requires d.protocols < U32_LIMIT && d.features < U32_LIMIT && d.maximumMessageLength < U32_LIMIT && |gaps| == 38
    ensures ParseFunctionalDescriptor(DescriptorBytes(d, gaps)) == Ok(d) <==> Conforming(d)
  {
    var bytes := DescriptorBytes(d, gaps);
    FieldReads(bytes, 6, d.protocols);
    FieldReads(bytes, 40, d.features);
    FieldReads(bytes, 44, d.maximumMessageLength);
    LevelsAreBits(d.features, d.level);
    hide Le4, FromLe4, ExchangeLevelOf, MinimumMessageLength;
  }

  lemma FieldReads(bytes: seq<byte>, at: nat, n: nat)
    requires at + 4 <= |bytes| && n < U32_LIMIT && bytes[at..at + 4] == Le4(n)
    ensures FromLe4(bytes, at) == n
  {
    Le4RoundTrip(n);
    assert forall k :: 0 <= k < 4 ==> bytes[at + k] == Le4(n)[k];
  }

  /** A reader that exchanges single characters and takes messages of eleven octets. */
  const SMALL_READER := FunctionalDescriptor(Character, 11, 0, 0, 1, 0)

  /** The host accepts that reader and then sends it a SetParameters frame of fifteen octets. */
  lemma SmallReaderGetsALongFrame(gaps: seq<byte>, fiDi: byte, guardTime: byte, waitingInteger: byte, clockStop: byte)
    requires |gaps| == 38
    ensures ParseFunctionalDescriptor(DescriptorBytes(SMALL_READER, gaps)) == Ok(SMALL_READER)
    ensures var c := ConfigOf(0, 0, SMALL_READER);
            var start := StepCall(0, Start(7, SetParametersT0(fiDi, guardTime, waitingInteger, clockStop, false)));
            var actions := Output(c, [start], 0).actions;
            && |actions| == 1 && actions[0].SubmitBulkOut?
            && |actions[0].frame| == 15 && c.maxMessageLength == 11
  {
    SmallReaderConforms();
    DescriptorReadsBack(SMALL_READER, gaps);
    hide DescriptorBytes, ParseFunctionalDescriptor, Apply, Exec, Output;
    var op := SetParametersT0(fiDi, guardTime, waitingInteger, clockStop, false);
    AcceptedAtFirst(ConfigOf(0, 0, SMALL_READER), op);
  }

  lemma SmallReaderConforms()
    ensures Conforming(SMALL_READER)
  {
  }

  lemma AcceptedAtFirst(c: Config, op: Operation)
    requires op.SetParametersT0?
    ensures Output(c, [StepCall(0, Start(7, op))], 0).actions == [SubmitBulkOut(0, FirstFrame(c, op, 0))]
  {
    hide FirstFrame, OnBulkIn, OnInterrupt;
    assert [StepCall(0, Start(7, op))][..0] == [];
  }
}
