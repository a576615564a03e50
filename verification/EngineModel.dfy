/**
 * The CCID slot engine as a step function: what one call does to the engine's state and which
 * actions it hands the platform executor. `Engine.CcidEngine` is the object that carries it out.
 */
module EngineModel {
  import opened Wrappers
  import opened Bytes
  import opened CcidErrors
  import opened Codec
  import opened Descriptor

  const DEFAULT_TIMEOUT_MS := 5000
  const LEVEL_BEGIN: u16 := 1
  const LEVEL_END: u16 := 2
  const LEVEL_CONTINUE: u16 := 3
  const MAX_ABORT_DRAIN_ATTEMPTS := 5
  const MAX_TIME_EXTENSIONS := 60
  const MAX_TIME_EXTENSION_WALL_MS := 10_000

  /** A monotonic time in milliseconds that leaves room to add the default timeout in 64 bits. */
  type Instant = t: int | 0 <= t < U64_LIMIT - DEFAULT_TIMEOUT_MS

  datatype Deadline = Deadline(id: nat, expiresAt: nat)

  datatype Operation =
    | PowerOn(voltage: byte)
    | PowerOff
    | GetSlotStatus
    | GetParameters
    | SetParametersT0(fiDi: byte, guardTime: byte, waitingInteger: byte, clockStop: byte, inverse: bool)
    | TransferBlock(bwi: byte, level: u16, data: seq<byte>)
    | Secure(bwi: byte, level: u16, data: seq<byte>)
    | Abort

  /** The non-secret descriptor of an operation in flight. */
  datatype Kind =
    | PoweringOn
    | PoweringOff
    | ReadingSlotStatus
    | ReadingParameters
    | SettingParameters
    | Transferring
    | Securing
    | Aborting

  datatype Pending = Pending(id: nat, kind: Kind)

  datatype OperationResult =
    | PoweredOn(atr: seq<byte>)
    | PoweredOff
    | SlotStatusRead(present: bool)
    | ParametersRead(parameters: seq<byte>)
    | ParametersSet
    | Transferred(response: seq<byte>)
    | Secured(response: seq<byte>)
    | Aborted

  datatype IoCompletion =
    | BulkIn(frame: seq<byte>)
    | BulkOut(transferred: nat)
    | Control
    | Failure(error: CcidError)

  datatype InputEvent =
    | Start(id: nat, op: Operation)
    | IoCompleted(io: IoCompletion)
    | InterruptReceived(raw: seq<byte>)
    | DeadlineExpired(deadline: nat)
    | Cancel(id: nat)
    | ConnectionLost

  datatype Action =
    | SubmitBulkOut(sequence: byte, frame: seq<byte>)
    | SubmitBulkIn(bufferSize: nat)
    | SubmitControl(requestType: byte, request: byte, value: u16, index: u16, data: seq<byte>)
    | Complete(id: nat, result: Result<OperationResult, CcidError>)
    | PublishSlotChange(slot: byte, present: bool, cardGen: nat)
    | CancelTransfers

  datatype Transition = Transition(actions: seq<Action>, nextDeadline: Option<Deadline>)

  /** What `CcidEngine::new` fixes for the engine's life. */
  datatype Config = Config(
    interfaceNumber: byte,
    slot: byte,
    level: ExchangeLevel,
    maxMessageLength: nat,
    maxPayloadLength: nat,
    maxSlotIndex: byte)

  /** What the engine believes about the card in its slot. */
  datatype Card = Card(gen: nat, present: bool, activated: bool)

  /** The bookkeeping of the operation in flight; it keeps its last values when the operation ends. */
  datatype Flight = Flight(
    expectedType: byte,
    expectedSeq: byte,
    expectedBulkOutLen: nat,
    chainBuffer: seq<byte>,
    outgoing: seq<seq<byte>>,
    pendingBwi: byte,
    wtxCount: nat,
    startedAt: nat,
    drainCount: nat)

  datatype State = State(
    card: Card,
    pending: Option<Pending>,
    deadline: Option<Deadline>,
    flight: Flight,
    nextSeq: byte,
    activeDeadlineId: nat,
    connected: bool,
    needsRecovery: bool,
    waitingUnitMs: nat)

  datatype Outcome = Outcome(s: State, t: Transition)

  function ConfigOf(interfaceNumber: byte, slot: byte, d: FunctionalDescriptor): Config {
    Config(interfaceNumber, slot, d.level, d.maximumMessageLength, MaximumTransferBlockLength(d), d.maxSlotIndex)
  }

  const Initial :=
    State(Card(1, false, false), None, None, Flight(0, 0, 0, [], [], 0, 0, 0, 0), 0, 0, true, false, 1000)

  // ---- Operations and what answers them ----

  function KindOf(op: Operation): Kind {
    match op
    case PowerOn(_) => PoweringOn
    case PowerOff => PoweringOff
    case GetSlotStatus => ReadingSlotStatus
    case GetParameters => ReadingParameters
    case SetParametersT0(_, _, _, _, _) => SettingParameters
    case TransferBlock(_, _, _) => Transferring
    case Secure(_, _, _) => Securing
    case Abort => Aborting
  }

  /** The reply type that answers an operation of `kind`. */
  function TypeOf(kind: Kind): byte {
    match kind
    case PoweringOn => RDR_TO_PC_DATA_BLOCK
    case Transferring => RDR_TO_PC_DATA_BLOCK
    case Securing => RDR_TO_PC_DATA_BLOCK
    case ReadingParameters => RDR_TO_PC_PARAMETERS
    case SettingParameters => RDR_TO_PC_PARAMETERS
    case _ => RDR_TO_PC_SLOT_STATUS
  }

  function ReplyType(op: Operation): byte {
    TypeOf(KindOf(op))
  }

  /** Consecutive blocks of `n` octets, the last one possibly shorter. */
  function Chunks(data: seq<byte>, n: nat): (cs: seq<seq<byte>>)
    requires n > 0
  {
    if data == [] then []
    else if |data| <= n then [data]
    else [data[..n]] + Chunks(data[n..], n)
  }

  predicate IsSplit(c: Config, op: Operation) {
    op.TransferBlock? && c.level.ShortAndExtendedApdu? && 0 < c.maxPayloadLength < |op.data|
  }

  /** The first Bulk-OUT frame of an operation other than Abort. */
  function FirstFrame(c: Config, op: Operation, sequence: byte): seq<byte>
    requires !op.Abort?
  {
    match op
    case PowerOn(voltage) => EncodeIccPowerOn(c.slot, sequence, voltage)
    case PowerOff => EncodeIccPowerOff(c.slot, sequence)
    case GetSlotStatus => EncodeGetSlotStatus(c.slot, sequence)
    case GetParameters => EncodeGetParameters(c.slot, sequence)
    case SetParametersT0(fiDi, guardTime, waitingInteger, clockStop, inverse) =>
      EncodeSetParametersT0(c.slot, sequence, fiDi, guardTime, waitingInteger, clockStop, inverse)
    case TransferBlock(bwi, level, data) =>
      if IsSplit(c, op) then EncodeXfrBlock(c.slot, sequence, bwi, LEVEL_BEGIN, data[..c.maxPayloadLength])
      else EncodeXfrBlock(c.slot, sequence, bwi, level, data)
    case Secure(bwi, level, data) => EncodeSecure(c.slot, sequence, bwi, level, data)
  }

  // ---- Shared state changes ----

  function Succ64(n: nat): nat {
    (n + 1) % U64_LIMIT
  }

  function Succ8(b: byte): byte {
    (b + 1) % 256
  }

  function CardGone(s: State): State {
    s.(card := Card(Succ64(s.card.gen), false, false))
  }

  function Idle(s: State): State {
    s.(pending := None, deadline := None)
  }

  function AllocateSeq(s: State): State {
    s.(flight := s.flight.(expectedSeq := s.nextSeq), nextSeq := Succ8(s.nextSeq))
  }

  function Arm(s: State, expiresAt: nat): State {
    var id := Succ64(s.activeDeadlineId);
    s.(activeDeadlineId := id, deadline := Some(Deadline(id, expiresAt)))
  }

  /** The transition every call but a rejected Start returns: the armed deadline while an operation is pending. */
  function Settle(s: State, actions: seq<Action>): Outcome {
    Outcome(s, Transition(actions, if s.pending.Some? then s.deadline else None))
  }

  function Fail(s: State, id: nat, error: CcidError): Outcome {
    Settle(Idle(s), [Complete(id, Err(error))])
  }

  function FailAndRecover(s: State, id: nat, error: CcidError): Outcome {
    Fail(s.(needsRecovery := true), id, error)
  }

  function CancelAndFail(s: State, id: nat, error: CcidError): Outcome {
    Settle(Idle(s), [CancelTransfers, Complete(id, Err(error))])
  }

  function ReadMore(c: Config, s: State): Outcome {
    Settle(s, [SubmitBulkIn(if c.maxMessageLength < HEADER_SIZE then HEADER_SIZE else c.maxMessageLength)])
  }

  function Expecting(s: State, bulkOutLen: nat): State {
    s.(flight := s.flight.(expectedBulkOutLen := bulkOutLen))
  }

  function WithBuffer(s: State, buffer: seq<byte>): State {
    s.(flight := s.flight.(chainBuffer := buffer))
  }

  function WithOutgoing(s: State, outgoing: seq<seq<byte>>): State {
    s.(flight := s.flight.(outgoing := outgoing))
  }

  /** Send one more block of the pending operation under a fresh sequence number. */
  function SendBlock(c: Config, s: State, bwi: byte, level: u16, block: seq<byte>): Outcome {
    var frame := EncodeXfrBlock(c.slot, s.nextSeq, bwi, level, block);
    Settle(Expecting(AllocateSeq(s), |frame|), [SubmitBulkOut(s.nextSeq, frame)])
  }

  // ---- Start ----

  function Refusal(c: Config, s: State, op: Operation): Option<CcidError> {
    if !s.connected then Some(Io(IoConnectionLost))
    else if s.needsRecovery && !op.Abort? then Some(ProtocolDesync(SlotRecoveryRequired))
    else if s.pending.Some? then Some(ProtocolDesync(OperationAlreadyPending))
    else if op.TransferBlock? &&
            |op.data| > (if c.level.ShortAndExtendedApdu? then MAXIMUM_COMMAND_PAYLOAD else c.maxPayloadLength)
    then Some(ApduTooLong)
    else if op.Secure? && |op.data| > c.maxPayloadLength then Some(ApduTooLong)
    else None
  }

  function OnStart(c: Config, s: State, now: Instant, id: nat, op: Operation): Outcome {
    match Refusal(c, s, op)
    case Some(error) => Outcome(s, Transition([Complete(id, Err(error))], None))
    case None => Begun(c, s, now, id, op)
  }

  /** The bookkeeping of a new operation. The abort drain count is reset by an Abort only. */
  function NewFlight(c: Config, s: State, now: Instant, op: Operation): Flight {
    var split := IsSplit(c, op);
    Flight(
      ReplyType(op),
      s.nextSeq,
      if op.Abort? then s.flight.expectedBulkOutLen else |FirstFrame(c, op, s.nextSeq)|,
      [],
      if split then Chunks(op.data[c.maxPayloadLength..], c.maxPayloadLength) else [],
      if split then op.bwi else s.flight.pendingBwi,
      0,
      now,
      if op.Abort? then 0 else s.flight.drainCount)
  }

  function FirstAction(c: Config, op: Operation, sequence: byte): Action {
    if op.Abort? then
      SubmitControl(CONTROL_REQUEST_TYPE, CONTROL_REQUEST_ABORT, 256 * sequence + c.slot, c.interfaceNumber, [])
    else SubmitBulkOut(sequence, FirstFrame(c, op, sequence))
  }

  function Begun(c: Config, s: State, now: Instant, id: nat, op: Operation): Outcome {
    var s1 := s.(pending := Some(Pending(id, KindOf(op))), flight := NewFlight(c, s, now, op),
                 nextSeq := Succ8(s.nextSeq));
    Settle(Arm(s1, now + DEFAULT_TIMEOUT_MS), [FirstAction(c, op, s.nextSeq)])
  }

  // ---- Bulk-IN replies ----

  function SaturatingAdd(a: nat, b: nat): nat {
    if a + b < U64_LIMIT then a + b else U64_LIMIT - 1
  }

  function OnTimeExtension(c: Config, s: State, now: Instant, p: Pending, multiplier: byte): Outcome {
    var s1 := s.(flight := s.flight.(wtxCount := s.flight.wtxCount + 1));
    var until := SaturatingAdd(now, multiplier * s.waitingUnitMs);
    if s1.flight.wtxCount > MAX_TIME_EXTENSIONS || until - s.flight.startedAt > MAX_TIME_EXTENSION_WALL_MS
    then CancelAndFail(s1.(needsRecovery := true), p.id, Timeout)
    else ReadMore(c, Arm(s1, until))
  }

  /** An unbroken response chain grows by one block and the reader is asked for the next. */
  function GrowChain(c: Config, s: State, p: Pending, payload: seq<byte>): Outcome {
    if |s.flight.chainBuffer| + |payload| > MAX_RESPONSE_PAYLOAD
    then Fail(WithBuffer(s, []), p.id, ResponseLengthOutOfRange)
    else SendBlock(c, WithBuffer(s, s.flight.chainBuffer + payload), 0, CHAIN_COMMAND_CONTINUATION_EXPECTED, [])
  }

  function Delivered(kind: Kind, payload: seq<byte>): OperationResult {
    match kind
    case Transferring => Transferred(payload)
    case Securing => Secured(payload)
    case _ => PoweredOn(payload)
  }

  function Deliver(s: State, p: Pending, payload: seq<byte>): Outcome {
    var card := if p.kind.PoweringOn? then s.card.(present := true, activated := true) else s.card;
    Settle(Idle(s.(card := card)), [Complete(p.id, Ok(Delivered(p.kind, payload)))])
  }

  function OnDataBlock(c: Config, s: State, now: Instant, p: Pending, card: CardStatus, chain: ChainParameter,
                       payload: seq<byte>): Outcome
  {
    if card.NotPresent? then Fail(CardGone(s), p.id, CardRemoved)
    else if chain.CommandContinuationExpected? then OnContinuation(c, s, now, p)
    else OnChainedBlock(c, s, p, chain, payload)
  }

  function OnChainedBlock(c: Config, s: State, p: Pending, chain: ChainParameter, payload: seq<byte>): Outcome
    requires !chain.CommandContinuationExpected?
  {
    var buffer := s.flight.chainBuffer;
    match chain
    case ChainBegin =>
      if buffer != [] then FailAndRecover(WithBuffer(s, []), p.id, ProtocolDesync(ChainBeginAlreadyOpen))
      else GrowChain(c, s, p, payload)
    case ChainContinue =>
      if buffer == [] then FailAndRecover(s, p.id, ProtocolDesync(ChainContinueWithoutBegin))
      else GrowChain(c, s, p, payload)
    case ChainEnd =>
      if buffer == [] then FailAndRecover(s, p.id, ProtocolDesync(ChainEndWithoutBegin))
      else if |buffer| + |payload| > MAX_RESPONSE_PAYLOAD then Fail(WithBuffer(s, []), p.id, ResponseLengthOutOfRange)
      else Deliver(WithBuffer(s, []), p, buffer + payload)
    case ChainComplete =>
      if buffer != [] then FailAndRecover(WithBuffer(s, []), p.id, ProtocolDesync(ChainCompleteWhileOpen))
      else if |payload| > MAX_RESPONSE_PAYLOAD then Fail(s, p.id, ResponseLengthOutOfRange)
      else Deliver(s, p, payload)
  }

  /** The reader asks for the rest of a split command: the next queued chunk, under a fresh deadline. */
  function OnContinuation(c: Config, s: State, now: Instant, p: Pending): Outcome {
    var chunks := s.flight.outgoing;
    if chunks == [] then Fail(s, p.id, ProtocolDesync(UnexpectedCommandContinuation))
    else SendBlock(c, Arm(WithOutgoing(s, chunks[1..]), now + DEFAULT_TIMEOUT_MS), s.flight.pendingBwi,
                   if |chunks| == 1 then LEVEL_END else LEVEL_CONTINUE, chunks[0])
  }

  function OnSlotStatus(s: State, p: Pending, card: CardStatus): Outcome {
    var present := !card.NotPresent?;
    var removed := !present && s.card.present;
    var gen := if removed then Succ64(s.card.gen) else s.card.gen;
    var activated := s.card.activated && !removed && !p.kind.PoweringOff?;
    var result := match p.kind
      case PoweringOff => PoweredOff
      case Aborting => Aborted
      case _ => SlotStatusRead(present);
    Settle(Idle(s.(card := Card(gen, present, activated), needsRecovery := s.needsRecovery && !p.kind.Aborting?)),
           [Complete(p.id, Ok(result))])
  }

  function OnParameters(s: State, p: Pending, card: CardStatus, payload: seq<byte>): Outcome {
    var result := if p.kind.SettingParameters? then ParametersSet else ParametersRead(payload);
    Settle(Idle(if card.NotPresent? then CardGone(s) else s), [Complete(p.id, Ok(result))])
  }

  function OnUndecodable(c: Config, s: State, p: Pending, error: CcidError): Outcome {
    if p.kind.Aborting? && s.flight.drainCount < MAX_ABORT_DRAIN_ATTEMPTS
    then ReadMore(c, s.(flight := s.flight.(drainCount := s.flight.drainCount + 1)))
    else FailAndRecover(s, p.id, error)
  }

  function OnReply(c: Config, s: State, now: Instant, p: Pending, reply: Result<Response, CcidError>): Outcome {
    match reply
    case Ok(TimeExtension(_, multiplier)) => OnTimeExtension(c, s, now, p, multiplier)
    case Ok(DataBlock(card, chain, payload)) => OnDataBlock(c, s, now, p, card, chain, payload)
    case Ok(SlotStatus(card, _)) => OnSlotStatus(s, p, card)
    case Ok(Parameters(card, _, payload)) => OnParameters(s, p, card, payload)
    case Ok(CommandFailure(card, code)) =>
      Fail(if card.NotPresent? then CardGone(s) else s, p.id, CommandFailed(code))
    case Err(error) => OnUndecodable(c, s, p, error)
  }

  function OnBulkIn(c: Config, s: State, now: Instant, frame: seq<byte>): Outcome {
    match s.pending
    case None => Settle(s, [])
    case Some(p) => OnReply(c, s, now, p, DecodeResponse(frame, s.flight.expectedType, c.slot, s.flight.expectedSeq))
  }

  // ---- Other completions, interrupts, timers ----

  function OnBulkOut(c: Config, s: State, transferred: nat): Outcome {
    var expected := s.flight.expectedBulkOutLen;
    if transferred == expected then ReadMore(c, s)
    else match s.pending
      case None => Settle(s, [])
      case Some(p) => CancelAndFail(s.(needsRecovery := true), p.id, Io(ShortWrite(expected, transferred)))
  }

  function OnControl(c: Config, s: State): Outcome {
    match s.pending
    case Some(Pending(_, Aborting)) =>
      var frame := EncodeAbort(c.slot, s.flight.expectedSeq);
      Settle(Expecting(s, |frame|), [SubmitBulkOut(s.flight.expectedSeq, frame)])
    case _ => Settle(s, [])
  }

  function OnFailure(s: State, error: CcidError): Outcome {
    var s1 := WithOutgoing(s, []);
    match s.pending
    case None => Settle(s1, [])
    case Some(p) =>
      var s2 := if error.CardRemoved? then CardGone(s1) else s1;
      CancelAndFail(s2.(needsRecovery := s.needsRecovery || error.Timeout? || error.Io?), p.id, error)
  }

  function OnHardwareError(s: State): Outcome {
    var s1 := CardGone(s).(needsRecovery := true);
    match s.pending
    case None => Settle(Idle(s1), [])
    case Some(p) => CancelAndFail(s1, p.id, Io(IoConnectionLost))
  }

  function OnSlotChange(c: Config, s: State, present: bool, changed: bool): Outcome {
    if !changed && present == s.card.present then Settle(s, [])
    else
      var gen := Succ64(s.card.gen);
      var publish := PublishSlotChange(c.slot, present, gen);
      if !changed && present then Settle(s.(card := Card(gen, present, s.card.activated)), [publish])
      else
        var s1 := s.(card := Card(gen, present, false));
        match s.pending
        case None => Settle(s1, [publish])
        case Some(p) => Settle(Idle(s1), [CancelTransfers, Complete(p.id, Err(CardRemoved)), publish])
  }

  function OnInterrupt(c: Config, s: State, raw: seq<byte>): Outcome {
    if raw != [] && raw[0] == RDR_TO_PC_HARDWARE_ERROR then
      match DecodeHardwareError(raw)
      case Ok(e) => if e.slot == c.slot then OnHardwareError(s) else Settle(s, [])
      case Err(_) => Settle(s, [])
    else
      match DecodeSlotChange(raw, c.maxSlotIndex)
      case Ok(n) => OnSlotChange(c, s, CardPresentIn(n, c.slot), ChangedIn(n, c.slot))
      case Err(_) => Settle(s, [])
  }

  function OnDeadline(s: State, now: Instant, deadline: nat): Outcome {
    if s.deadline.Some? && s.deadline.value.id == deadline && s.deadline.value.expiresAt <= now && s.pending.Some?
    then CancelAndFail(WithOutgoing(s, []).(needsRecovery := true), s.pending.value.id, Timeout)
    else Settle(s, [])
  }

  function OnCancel(s: State, id: nat): Outcome {
    if s.pending.Some? && s.pending.value.id == id
    then CancelAndFail(WithOutgoing(s, []).(needsRecovery := true), id, Cancelled)
    else Settle(s, [])
  }

  function OnConnectionLost(s: State): Outcome {
    var s1 := WithOutgoing(s, []).(connected := false, card := Card(s.card.gen, false, false));
    match s.pending
    case None => Settle(Idle(s1), [])
    case Some(p) => Fail(s1, p.id, Io(DeviceDisconnected))
  }

  function Step(c: Config, s: State, now: Instant, event: InputEvent): Outcome {
    match event
    case Start(id, op) => OnStart(c, s, now, id, op)
    case IoCompleted(BulkIn(frame)) => OnBulkIn(c, s, now, frame)
    case IoCompleted(BulkOut(transferred)) => OnBulkOut(c, s, transferred)
    case IoCompleted(Control) => OnControl(c, s)
    case IoCompleted(Failure(error)) => OnFailure(s, error)
    case InterruptReceived(raw) => OnInterrupt(c, s, raw)
    case DeadlineExpired(deadline) => OnDeadline(s, now, deadline)
    case Cancel(id) => OnCancel(s, id)
    case ConnectionLost => OnConnectionLost(s)
  }

  // ---- Whole runs ----

  /** The engine's public mutators. */
  datatype Call =
    | StepCall(now: Instant, event: InputEvent)
    | SetActivated(activated: bool)
    | MarkDeactivated
    | SetWaitingUnit(ms: nat)

  const NoTransition := Transition([], None)

  function Apply(c: Config, s: State, call: Call): Outcome {
    match call
    case StepCall(now, event) => Step(c, s, now, event)
    case SetActivated(activated) =>
      Outcome(s.(card := Card(s.card.gen, s.card.present || activated, activated)), NoTransition)
    case MarkDeactivated => Outcome(s.(card := s.card.(activated := false)), NoTransition)
    case SetWaitingUnit(ms) => Outcome(s.(waitingUnitMs := if ms < 1 then 1 else ms), NoTransition)
  }

  /** The state after a run of calls on a new engine. */
  function Exec(c: Config, calls: seq<Call>): State {
    if calls == [] then Initial
    else Apply(c, Exec(c, calls[..|calls| - 1]), calls[|calls| - 1]).s
  }

  /** What the `i`-th call of a run returned. */
  function Output(c: Config, calls: seq<Call>, i: nat): Transition
    requires i < |calls|
  {
    Apply(c, Exec(c, calls[..i]), calls[i]).t
  }
}
