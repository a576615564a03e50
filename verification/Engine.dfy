/**
 * The CCID slot engine as the source has it: one object whose fields `step` updates in place.
 * Every method is proved to do to those fields what the step function says.
 */
module Engine {
  import opened Wrappers
  import opened Bytes
  import opened CcidErrors
  import opened Codec
  import opened Descriptor
  import opened EngineModel
  import opened EngineRuns

  class CcidEngine {
    const interfaceNumber: byte
    const bSlot: byte
    const connectionGen: nat
    const exchangeLevel: ExchangeLevel
    const maxMessageLength: nat
    const maxPayloadLength: nat
    const maxSlotIndex: byte

    var cardGen: nat
    var nextSeq: byte
    var cardPresent: bool
    var activated: bool
    var connected: bool
    var needsRecovery: bool
    var pendingOp: Option<Pending>
    var expectedResponseType: byte
    var expectedSeq: byte
    var expectedBulkOutLen: nat
    var activeDeadlineId: nat
    var currentDeadline: Option<Deadline>
    var chainBuffer: seq<byte>
    var outgoingChain: seq<seq<byte>>
    var pendingBwi: byte
    var wtxCount: nat
    var opStartedAt: nat
    var abortDrainCount: nat
    var waitingUnitMs: nat

    /** The calls made on this engine since it was built. */
    ghost var history: seq<Call>

    /** The engine is where its history puts it, so what is proved of every run holds of every engine. */
    ghost predicate Valid()
      reads this
    {
      View() == Exec(Cfg(), history)
    }

    function Cfg(): Config {
      Config(interfaceNumber, bSlot, exchangeLevel, maxMessageLength, maxPayloadLength, maxSlotIndex)
    }

    /** The fields, gathered. */
    function View(): State
      reads this
    {
      State(Card(cardGen, cardPresent, activated), pendingOp, currentDeadline,
            Flight(expectedResponseType, expectedSeq, expectedBulkOutLen, chainBuffer, outgoingChain, pendingBwi,
                   wtxCount, opStartedAt, abortDrainCount),
            nextSeq, activeDeadlineId, connected, needsRecovery, waitingUnitMs)
    }

    constructor (interfaceNumber: byte, bSlot: byte, connectionGen: nat, descriptor: FunctionalDescriptor)
      ensures Cfg() == ConfigOf(interfaceNumber, bSlot, descriptor) && this.connectionGen == connectionGen
      ensures Valid() && history == [] && View() == Initial
    {
      this.interfaceNumber, this.bSlot, this.connectionGen := interfaceNumber, bSlot, connectionGen;
      exchangeLevel, maxMessageLength := descriptor.level, descriptor.maximumMessageLength;
      maxPayloadLength, maxSlotIndex := MaximumTransferBlockLength(descriptor), descriptor.maxSlotIndex;
      cardGen, nextSeq := 1, 0;
      cardPresent, activated, connected, needsRecovery := false, false, true, false;
      pendingOp, currentDeadline := None, None;
      expectedResponseType, expectedSeq, expectedBulkOutLen, activeDeadlineId := 0, 0, 0, 0;
      chainBuffer, outgoingChain, pendingBwi := [], [], 0;
      wtxCount, opStartedAt, abortDrainCount, waitingUnitMs := 0, 0, 0, 1000;
      history := [];
    }

    method SetActivatedTo(active: bool)
      requires Valid()
      modifies this
      ensures Valid() && history == old(history) + [SetActivated(active)]
    {
      hide Exec;
      ExecExtends(Cfg(), history, SetActivated(active));
      activated := active;
      if active {
        cardPresent := true;
      }
      history := history + [SetActivated(active)];
    }

    method Deactivate()
      requires Valid()
      modifies this
      ensures Valid() && history == old(history) + [MarkDeactivated]
    {
      hide Exec;
      ExecExtends(Cfg(), history, MarkDeactivated);
      activated := false;
      history := history + [MarkDeactivated];
    }

    method SetWaitingUnitMs(ms: nat)
      requires Valid()
      modifies this
      ensures Valid() && history == old(history) + [SetWaitingUnit(ms)]
    {
      hide Exec;
      ExecExtends(Cfg(), history, SetWaitingUnit(ms));
      waitingUnitMs := if ms < 1 then 1 else ms;
      history := history + [SetWaitingUnit(ms)];
    }

    /** The tail of `step`: hand out the armed deadline while an operation is pending. */
    function Hand(actions: seq<Action>): Transition
      reads this
    {
      Transition(actions, if pendingOp.Some? then currentDeadline else None)
    }

    method TakeSeq() returns (sequence: byte)
      modifies this
      ensures View() == AllocateSeq(old(View())) && sequence == old(nextSeq) == expectedSeq
    {
      sequence := nextSeq;
      nextSeq := Succ8(nextSeq);
      expectedSeq := sequence;
    }

    method ArmDeadline(expiresAt: nat)
      modifies this
      ensures View() == Arm(old(View()), expiresAt)
    {
      activeDeadlineId := Succ64(activeDeadlineId);
      currentDeadline := Some(Deadline(activeDeadlineId, expiresAt));
    }

    // ---- Start ----

    /** The chunking loop: everything after the first block queued in blocks of the payload length. */
    method QueueChunks(data: seq<byte>)
      requires 0 < maxPayloadLength < |data|
      modifies this`outgoingChain
      ensures outgoingChain == Chunks(data[maxPayloadLength..], maxPayloadLength)
    {
      var n := maxPayloadLength;
      outgoingChain := [];
      var offset := n;
      while offset < |data|
        invariant n <= offset <= |data|
        invariant outgoingChain + Chunks(data[offset..], n) == Chunks(data[n..], n)
      {
        var end := if offset + n < |data| then offset + n else |data|;
        var rest := data[offset..];
        assert data[offset..end] == if |rest| <= n then rest else rest[..n];
        assert data[end..] == if |rest| <= n then [] else rest[n..];
        assert Chunks(rest, n) == [data[offset..end]] + Chunks(data[end..], n);
        outgoingChain := outgoingChain + [data[offset..end]];
        offset := end;
      }
    }

    /** Build the first frame of an accepted operation, queueing the rest of a split command. */
    method Encode(op: Operation, sequence: byte) returns (frame: seq<byte>)
      requires !op.Abort? && outgoingChain == []
      modifies this`outgoingChain, this`pendingBwi
      ensures frame == FirstFrame(Cfg(), op, sequence)
      ensures outgoingChain == if IsSplit(Cfg(), op) then Chunks(op.data[maxPayloadLength..], maxPayloadLength) else []
      ensures pendingBwi == if IsSplit(Cfg(), op) then op.bwi else old(pendingBwi)
    {
      match op
      case PowerOn(voltage) => frame := EncodeIccPowerOn(bSlot, sequence, voltage);
      case PowerOff => frame := EncodeIccPowerOff(bSlot, sequence);
      case GetSlotStatus => frame := EncodeGetSlotStatus(bSlot, sequence);
      case GetParameters => frame := EncodeGetParameters(bSlot, sequence);
      case SetParametersT0(fiDi, guardTime, waitingInteger, clockStop, inverse) =>
        frame := EncodeSetParametersT0(bSlot, sequence, fiDi, guardTime, waitingInteger, clockStop, inverse);
      case TransferBlock(bwi, level, data) =>
        if exchangeLevel == ShortAndExtendedApdu && maxPayloadLength > 0 && |data| > maxPayloadLength {
          pendingBwi := bwi;
          QueueChunks(data);
          frame := EncodeXfrBlock(bSlot, sequence, bwi, LEVEL_BEGIN, data[..maxPayloadLength]);
        } else {
          frame := EncodeXfrBlock(bSlot, sequence, bwi, level, data);
        }
      case Secure(bwi, level, data) => frame := EncodeSecure(bSlot, sequence, bwi, level, data);
    }

    method HandleStart(now: Instant, id: nat, op: Operation) returns (t: Transition)
      modifies this
      ensures Outcome(View(), t) == OnStart(Cfg(), old(View()), now, id, op)
    {
      hide FirstFrame;
      if !connected {
        return Transition([Complete(id, Err(Io(IoConnectionLost)))], None);
      }
      if needsRecovery && !op.Abort? {
        return Transition([Complete(id, Err(ProtocolDesync(SlotRecoveryRequired)))], None);
      }
      if pendingOp.Some? {
        return Transition([Complete(id, Err(ProtocolDesync(OperationAlreadyPending)))], None);
      }
      if op.TransferBlock? {
        var bound := if exchangeLevel == ShortAndExtendedApdu then MAXIMUM_COMMAND_PAYLOAD else maxPayloadLength;
        if |op.data| > bound {
          return Transition([Complete(id, Err(ApduTooLong))], None);
        }
      }
      if op.Secure? && |op.data| > maxPayloadLength {
        return Transition([Complete(id, Err(ApduTooLong))], None);
      }
      t := Launch(now, id, op);
    }

    /** Reset the fields the previous operation left behind. */
    method ClearFlight(now: Instant)
      modifies this
      ensures var flight := old(View()).flight;
        View() == old(View()).(flight := flight.(wtxCount := 0, startedAt := now, chainBuffer := [], outgoing := []))
    {
      wtxCount := 0;
      opStartedAt := now;
      chainBuffer := [];
      outgoingChain := [];
    }

    method Await(id: nat, op: Operation)
      modifies this
      ensures View() == old(View()).(pending := Some(Pending(id, KindOf(op))),
                                     flight := old(View()).flight.(expectedType := ReplyType(op)))
    {
      hide KindOf, ReplyType;
      pendingOp := Some(Pending(id, KindOf(op)));
      expectedResponseType := ReplyType(op);
    }

    method Prepare(now: Instant, id: nat, op: Operation) returns (sequence: byte)
      modifies this
      ensures sequence == old(nextSeq)
      ensures View() == Prepared(old(View()), now, id, op)
    {
      hide KindOf, ReplyType;
      ClearFlight(now);
      sequence := TakeSeq();
      Await(id, op);
    }

    static function Prepared(s: State, now: Instant, id: nat, op: Operation): State {
      s.(pending := Some(Pending(id, KindOf(op))),
         nextSeq := Succ8(s.nextSeq),
         flight := Flight(ReplyType(op), s.nextSeq, s.flight.expectedBulkOutLen, [], [], s.flight.pendingBwi, 0, now,
                          s.flight.drainCount))
    }

    method Launch(now: Instant, id: nat, op: Operation) returns (t: Transition)
      modifies this
      ensures Outcome(View(), t) == Begun(Cfg(), old(View()), now, id, op)
    {
      if op.Abort? {
        t := LaunchAbort(now, id, op);
      } else {
        t := LaunchCommand(now, id, op);
      }
    }

    method LaunchAbort(now: Instant, id: nat, op: Operation) returns (t: Transition)
      requires op.Abort?
      modifies this
      ensures Outcome(View(), t) == Begun(Cfg(), old(View()), now, id, op)
    {
      var sequence := Prepare(now, id, op);
      abortDrainCount := 0;
      ArmDeadline(now + DEFAULT_TIMEOUT_MS);
      var value := 256 * sequence + bSlot;
      t := Hand([SubmitControl(CONTROL_REQUEST_TYPE, CONTROL_REQUEST_ABORT, value, interfaceNumber, [])]);
    }

    method LaunchCommand(now: Instant, id: nat, op: Operation) returns (t: Transition)
      requires !op.Abort?
      modifies this
      ensures Outcome(View(), t) == Begun(Cfg(), old(View()), now, id, op)
    {
      hide FirstFrame, IsSplit;
      var sequence := Prepare(now, id, op);
      var frame := Encode(op, sequence);
      expectedBulkOutLen := |frame|;
      ArmDeadline(now + DEFAULT_TIMEOUT_MS);
      t := Hand([SubmitBulkOut(sequence, frame)]);
    }

    // ---- Ending an operation ----

    method LoseCard()
      modifies this
      ensures View() == CardGone(old(View()))
    {
      cardPresent := false;
      activated := false;
      cardGen := Succ64(cardGen);
    }

    method EndOperation()
      modifies this
      ensures View() == Idle(old(View()))
    {
      pendingOp := None;
      currentDeadline := None;
    }

    method SucceedWith(id: nat, result: OperationResult) returns (t: Transition)
      modifies this
      ensures Outcome(View(), t) == Settle(Idle(old(View())), [Complete(id, Ok(result))])
    {
      EndOperation();
      t := Hand([Complete(id, Ok(result))]);
    }

    method FailWith(id: nat, error: CcidError) returns (t: Transition)
      modifies this
      ensures Outcome(View(), t) == Fail(old(View()), id, error)
    {
      EndOperation();
      t := Hand([Complete(id, Err(error))]);
    }

    method CancelAndFailWith(id: nat, error: CcidError) returns (t: Transition)
      modifies this
      ensures Outcome(View(), t) == CancelAndFail(old(View()), id, error)
    {
      EndOperation();
      t := Hand([CancelTransfers, Complete(id, Err(error))]);
    }

    method ReadAgain() returns (t: Transition)
      ensures Outcome(View(), t) == ReadMore(Cfg(), View())
    {
      t := Hand([SubmitBulkIn(if maxMessageLength < HEADER_SIZE then HEADER_SIZE else maxMessageLength)]);
    }

    method Send(bwi: byte, level: u16, block: seq<byte>) returns (t: Transition)
      modifies this
      ensures Outcome(View(), t) == SendBlock(Cfg(), old(View()), bwi, level, block)
    {
      hide EncodeXfrBlock;
      var sequence := TakeSeq();
      var frame := EncodeXfrBlock(bSlot, sequence, bwi, level, block);
      expectedBulkOutLen := |frame|;
      t := Hand([SubmitBulkOut(sequence, frame)]);
    }

    // ---- Bulk-IN replies ----

    method HandleTimeExtension(now: Instant, p: Pending, multiplier: byte) returns (t: Transition)
      modifies this
      ensures Outcome(View(), t) == OnTimeExtension(Cfg(), old(View()), now, p, multiplier)
    {
      wtxCount := wtxCount + 1;
      var until := SaturatingAdd(now, multiplier * waitingUnitMs);
      var waited := until - opStartedAt;
      if wtxCount > MAX_TIME_EXTENSIONS || waited > MAX_TIME_EXTENSION_WALL_MS {
        needsRecovery := true;
        t := CancelAndFailWith(p.id, Timeout);
      } else {
        ArmDeadline(until);
        t := ReadAgain();
      }
    }

    method Grow(p: Pending, payload: seq<byte>) returns (t: Transition)
      modifies this
      ensures Outcome(View(), t) == GrowChain(Cfg(), old(View()), p, payload)
    {
      if |chainBuffer| + |payload| > MAX_RESPONSE_PAYLOAD {
        chainBuffer := [];
        t := FailWith(p.id, ResponseLengthOutOfRange);
      } else {
        chainBuffer := chainBuffer + payload;
        t := Send(0, CHAIN_COMMAND_CONTINUATION_EXPECTED, []);
      }
    }

    method DeliverPayload(p: Pending, payload: seq<byte>) returns (t: Transition)
      modifies this
      ensures Outcome(View(), t) == Deliver(old(View()), p, payload)
    {
      var result := PoweredOn(payload);
      match p.kind {
        case PoweringOn =>
          activated := true;
          cardPresent := true;
        case Transferring => result := Transferred(payload);
        case Securing => result := Secured(payload);
        case _ =>
      }
      t := SucceedWith(p.id, result);
    }

    method HandleChainedBlock(p: Pending, chain: ChainParameter, payload: seq<byte>) returns (t: Transition)
      requires !chain.CommandContinuationExpected?
      modifies this
      ensures Outcome(View(), t) == OnChainedBlock(Cfg(), old(View()), p, chain, payload)
    {
      hide SendBlock, Delivered;
      match chain {
        case ChainBegin =>
          if chainBuffer != [] {
            chainBuffer := [];
            needsRecovery := true;
            t := FailWith(p.id, ProtocolDesync(ChainBeginAlreadyOpen));
            return;
          }
          t := Grow(p, payload);
        case ChainContinue =>
          if chainBuffer == [] {
            needsRecovery := true;
            t := FailWith(p.id, ProtocolDesync(ChainContinueWithoutBegin));
            return;
          }
          t := Grow(p, payload);
        case ChainEnd =>
          if chainBuffer == [] {
            needsRecovery := true;
            t := FailWith(p.id, ProtocolDesync(ChainEndWithoutBegin));
            return;
          }
          if |chainBuffer| + |payload| > MAX_RESPONSE_PAYLOAD {
            chainBuffer := [];
            t := FailWith(p.id, ResponseLengthOutOfRange);
            return;
          }
          var combined := chainBuffer + payload;
          chainBuffer := [];
          t := DeliverPayload(p, combined);
        case ChainComplete =>
          if chainBuffer != [] {
            chainBuffer := [];
            needsRecovery := true;
            t := FailWith(p.id, ProtocolDesync(ChainCompleteWhileOpen));
            return;
          }
          if |payload| > MAX_RESPONSE_PAYLOAD {
            t := FailWith(p.id, ResponseLengthOutOfRange);
            return;
          }
          t := DeliverPayload(p, payload);
      }
    }

    method HandleContinuation(now: Instant, p: Pending) returns (t: Transition)
      modifies this
      ensures Outcome(View(), t) == OnContinuation(Cfg(), old(View()), now, p)
    {
      hide EncodeXfrBlock;
      if outgoingChain != [] {
        var chunk := outgoingChain[0];
        outgoingChain := outgoingChain[1..];
        var level := if outgoingChain == [] then LEVEL_END else LEVEL_CONTINUE;
        ArmDeadline(now + DEFAULT_TIMEOUT_MS);
        t := Send(pendingBwi, level, chunk);
      } else {
        t := FailWith(p.id, ProtocolDesync(UnexpectedCommandContinuation));
      }
    }

    method HandleDataBlock(now: Instant, p: Pending, card: CardStatus, chain: ChainParameter, payload: seq<byte>)
      returns (t: Transition)
      modifies this
      ensures Outcome(View(), t) == OnDataBlock(Cfg(), old(View()), now, p, card, chain, payload)
    {
      hide OnChainedBlock, OnContinuation;
      if card == NotPresent {
        LoseCard();
        t := FailWith(p.id, CardRemoved);
      } else if chain == CommandContinuationExpected {
        t := HandleContinuation(now, p);
      } else {
        t := HandleChainedBlock(p, chain, payload);
      }
    }

    method NoteSlotStatus(present: bool)
      modifies this
      ensures var s := old(View());
              var removed := !present && s.card.present;
              View() == s.(card := Card(if removed then Succ64(s.card.gen) else s.card.gen, present,
                                        s.card.activated && !removed))
    {
      if !present && cardPresent {
        activated := false;
        cardGen := Succ64(cardGen);
      }
      cardPresent := present;
    }

    method HandleSlotStatus(p: Pending, card: CardStatus) returns (t: Transition)
      modifies this
      ensures Outcome(View(), t) == OnSlotStatus(old(View()), p, card)
    {
      var present := card == Active || card == Inactive;
      NoteSlotStatus(present);
      var result;
      match p.kind {
        case PoweringOff =>
          activated := false;
          result := PoweredOff;
        case Aborting =>
          needsRecovery := false;
          result := Aborted;
        case _ => result := SlotStatusRead(present);
      }
      t := SucceedWith(p.id, result);
    }

    method HandleParameters(p: Pending, card: CardStatus, payload: seq<byte>) returns (t: Transition)
      modifies this
      ensures Outcome(View(), t) == OnParameters(old(View()), p, card, payload)
    {
      if card == NotPresent {
        LoseCard();
      }
      t := SucceedWith(p.id, if p.kind == SettingParameters then ParametersSet else ParametersRead(payload));
    }

    method HandleUndecodable(p: Pending, error: CcidError) returns (t: Transition)
      modifies this
      ensures Outcome(View(), t) == OnUndecodable(Cfg(), old(View()), p, error)
    {
      if p.kind == Aborting && abortDrainCount < MAX_ABORT_DRAIN_ATTEMPTS {
        abortDrainCount := abortDrainCount + 1;
        t := ReadAgain();
      } else {
        needsRecovery := true;
        t := FailWith(p.id, error);
      }
    }

    method HandleBulkIn(now: Instant, frame: seq<byte>) returns (t: Transition)
      modifies this
      ensures Outcome(View(), t) == OnBulkIn(Cfg(), old(View()), now, frame)
    {
      hide DecodeResponse, OnTimeExtension, OnDataBlock, OnSlotStatus, OnParameters, OnUndecodable;
      if pendingOp.None? {
        return Hand([]);
      }
      var p := pendingOp.value;
      match DecodeResponse(frame, expectedResponseType, bSlot, expectedSeq) {
        case Ok(TimeExtension(_, multiplier)) => t := HandleTimeExtension(now, p, multiplier);
        case Ok(DataBlock(card, chain, payload)) => t := HandleDataBlock(now, p, card, chain, payload);
        case Ok(SlotStatus(card, _)) => t := HandleSlotStatus(p, card);
        case Ok(Parameters(card, _, payload)) => t := HandleParameters(p, card, payload);
        case Ok(CommandFailure(card, code)) =>
          if card == NotPresent {
            LoseCard();
          }
          t := FailWith(p.id, CommandFailed(code));
        case Err(error) => t := HandleUndecodable(p, error);
      }
    }

    // ---- Other completions, interrupts, timers ----

    method HandleBulkOut(transferred: nat) returns (t: Transition)
      modifies this
      ensures Outcome(View(), t) == OnBulkOut(Cfg(), old(View()), transferred)
    {
      if transferred != expectedBulkOutLen {
        if pendingOp.None? {
          return Hand([]);
        }
        needsRecovery := true;
        t := CancelAndFailWith(pendingOp.value.id, Io(ShortWrite(expectedBulkOutLen, transferred)));
      } else {
        t := ReadAgain();
      }
    }

    method HandleControl() returns (t: Transition)
      modifies this
      ensures Outcome(View(), t) == OnControl(Cfg(), old(View()))
    {
      if pendingOp.Some? && pendingOp.value.kind == Aborting {
        var frame := EncodeAbort(bSlot, expectedSeq);
        expectedBulkOutLen := |frame|;
        t := Hand([SubmitBulkOut(expectedSeq, frame)]);
      } else {
        t := Hand([]);
      }
    }

    method HandleFailure(error: CcidError) returns (t: Transition)
      modifies this
      ensures Outcome(View(), t) == OnFailure(old(View()), error)
    {
      outgoingChain := [];
      if pendingOp.None? {
        return Hand([]);
      }
      if error == CardRemoved {
        LoseCard();
      }
      if error.Timeout? || error.Io? {
        needsRecovery := true;
      }
      t := CancelAndFailWith(pendingOp.value.id, error);
    }

    method HandleHardwareError() returns (t: Transition)
      modifies this
      ensures Outcome(View(), t) == OnHardwareError(old(View()))
    {
      needsRecovery := true;
      LoseCard();
      if pendingOp.None? {
        currentDeadline := None;
        return Hand([]);
      }
      t := CancelAndFailWith(pendingOp.value.id, Io(IoConnectionLost));
    }

    method HandleSlotChange(present: bool, changed: bool) returns (t: Transition)
      modifies this
      ensures Outcome(View(), t) == OnSlotChange(Cfg(), old(View()), present, changed)
    {
      if !changed && present == cardPresent {
        return Hand([]);
      }
      cardPresent := present;
      cardGen := Succ64(cardGen);
      var actions := [];
      if changed || !present {
        activated := false;
        if pendingOp.Some? {
          actions := [CancelTransfers, Complete(pendingOp.value.id, Err(CardRemoved))];
          EndOperation();
        }
      }
      t := Hand(actions + [PublishSlotChange(bSlot, present, cardGen)]);
    }

    method HandleInterrupt(raw: seq<byte>) returns (t: Transition)
      modifies this
      ensures Outcome(View(), t) == OnInterrupt(Cfg(), old(View()), raw)
    {
      hide DecodeSlotChange, OnSlotChange, OnHardwareError;
      if raw != [] && raw[0] == RDR_TO_PC_HARDWARE_ERROR {
        var e := DecodeHardwareError(raw);
        if e.Ok? && e.value.slot == bSlot {
          t := HandleHardwareError();
        } else {
          t := Hand([]);
        }
      } else {
        var n := ReadSlotChange(raw, maxSlotIndex);
        if n.Ok? {
          t := HandleSlotChange(CardPresentIn(n.value, bSlot), ChangedIn(n.value, bSlot));
        } else {
          t := Hand([]);
        }
      }
    }

    method HandleDeadline(now: Instant, deadline: nat) returns (t: Transition)
      modifies this
      ensures Outcome(View(), t) == OnDeadline(old(View()), now, deadline)
    {
      if currentDeadline.Some? && currentDeadline.value.id == deadline && now >= currentDeadline.value.expiresAt
         && pendingOp.Some?
      {
        outgoingChain := [];
        needsRecovery := true;
        t := CancelAndFailWith(pendingOp.value.id, Timeout);
      } else {
        t := Hand([]);
      }
    }

    method HandleCancel(id: nat) returns (t: Transition)
      modifies this
      ensures Outcome(View(), t) == OnCancel(old(View()), id)
    {
      if pendingOp.Some? && pendingOp.value.id == id {
        outgoingChain := [];
        needsRecovery := true;
        t := CancelAndFailWith(id, Cancelled);
      } else {
        t := Hand([]);
      }
    }

    method Disconnect()
      modifies this
      ensures View() == WithOutgoing(old(View()), []).(connected := false, card := Card(old(cardGen), false, false))
    {
      outgoingChain := [];
      connected := false;
      cardPresent := false;
      activated := false;
    }

    method HandleConnectionLost() returns (t: Transition)
      modifies this
      ensures Outcome(View(), t) == OnConnectionLost(old(View()))
    {
      Disconnect();
      if pendingOp.None? {
        currentDeadline := None;
        return Hand([]);
      }
      t := FailWith(pendingOp.value.id, Io(DeviceDisconnected));
    }

    method Dispatch(now: Instant, event: InputEvent) returns (t: Transition)
      modifies this
      ensures Outcome(View(), t) == Step(Cfg(), old(View()), now, event)
    {
      hide OnStart, OnBulkIn, OnBulkOut, OnControl, OnFailure, OnInterrupt, OnDeadline, OnCancel, OnConnectionLost;
      match event {
        case Start(id, op) => t := HandleStart(now, id, op);
        case IoCompleted(BulkIn(frame)) => t := HandleBulkIn(now, frame);
        case IoCompleted(BulkOut(transferred)) => t := HandleBulkOut(transferred);
        case IoCompleted(Control) => t := HandleControl();
        case IoCompleted(Failure(error)) => t := HandleFailure(error);
        case InterruptReceived(raw) => t := HandleInterrupt(raw);
        case DeadlineExpired(deadline) => t := HandleDeadline(now, deadline);
        case Cancel(id) => t := HandleCancel(id);
        case ConnectionLost => t := HandleConnectionLost();
      }
    }

    /** The primary transition driver: one more call of the run, with the output the run has there. */
    method Drive(now: Instant, event: InputEvent) returns (t: Transition)
      requires Valid()
      modifies this
      ensures Valid() && history == old(history) + [StepCall(now, event)]
      ensures t == Output(Cfg(), history, |old(history)|)
    {
      hide Exec, Step;
      ghost var before, call := history, StepCall(now, event);
      ExecExtends(Cfg(), history, call);
      t := Dispatch(now, event);
      history := before + [call];
    }
  }
}
