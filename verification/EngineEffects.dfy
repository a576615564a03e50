/**
 * The ten things one call can do to the slot engine, and the proof that every call does one of
 * them. The run theorems reason about these instead of the engine's branches.
 */
module EngineEffects {
  import opened Wrappers
  import opened Bytes
  import opened CcidErrors
  import opened Codec
  import opened EngineModel

  datatype Effect =
    | Rejects                          // a Start answered with an error, nothing else changed
    | Begins                           // a Start accepted
    | Fails                            // the pending operation answered with an error
    | Succeeds(result: OperationResult) // the pending operation answered with Ok
    | Grows(payload: seq<byte>)        // a response block buffered, the next one asked for
    | Continues                        // the next chunk of a split command sent
    | Extends(until: nat)              // a time extension granted
    | Drains                           // a stale reply skipped while aborting
    | SendsAbort                       // the Bulk-OUT half of the abort handshake sent
    | Quiet                            // the pending operation, or its absence, left alone

  // ---- The state invariant ----

  predicate ChunksFit(c: Config, chunks: seq<seq<byte>>) {
    forall i :: 0 <= i < |chunks| ==> 0 < |chunks[i]| <= c.maxPayloadLength
  }

  /** What holds of the bookkeeping while `kind` is in flight. */
  predicate FlightOk(c: Config, kind: Kind, f: Flight) {
    && f.expectedType == TypeOf(kind)
    && f.wtxCount <= MAX_TIME_EXTENSIONS
    && (f.outgoing != [] ==> kind.Transferring? && c.level.ShortAndExtendedApdu?)
    && ChunksFit(c, f.outgoing)
  }

  predicate Inv(c: Config, s: State) {
    && (s.pending.Some? <==> s.deadline.Some?)
    && (s.deadline.Some? ==> s.deadline.value.id == s.activeDeadlineId)
    && (s.needsRecovery ==> s.pending.None? || s.pending.value.kind.Aborting?)
    && (s.card.activated ==> s.card.present)
    && |s.flight.chainBuffer| <= MAX_RESPONSE_PAYLOAD
    && s.flight.drainCount <= MAX_ABORT_DRAIN_ATTEMPTS
    && s.card.gen < U64_LIMIT && s.activeDeadlineId < U64_LIMIT
    && (s.pending.Some? ==> FlightOk(c, s.pending.value.kind, s.flight))
    && (s.pending.Some? ==> s.nextSeq == Succ8(s.flight.expectedSeq))
  }

  // ---- What each effect means ----

  predicate IsEvent(call: Call) {
    call.StepCall? && !call.event.Start?
  }

  predicate IsBulkIn(call: Call) {
    call.StepCall? && call.event.IoCompleted? && call.event.io.BulkIn?
  }

  /** The reply a Bulk-IN frame decodes to for the pending operation. */
  function ReplyIn(c: Config, s: State, call: Call): Result<Response, CcidError>
    requires IsBulkIn(call)
  {
    DecodeResponse(call.event.io.frame, s.flight.expectedType, c.slot, s.flight.expectedSeq)
  }

  /** The payload a response block adds to the answer. */
  predicate Carries(reply: Result<Response, CcidError>, payload: seq<byte>) {
    && reply.Ok? && reply.value.DataBlock?
    && !reply.value.chain.CommandContinuationExpected? && reply.value.payload == payload
  }

  /** Whether `result` is the answer to an operation of `kind` once `r` ends a chain that gathered `buffer`. */
  predicate Answers(kind: Kind, buffer: seq<byte>, r: Response, result: OperationResult) {
    match kind
    case PoweringOn => r.DataBlock? && result == PoweredOn(buffer + r.payload)
    case Transferring => r.DataBlock? && result == Transferred(buffer + r.payload)
    case Securing => r.DataBlock? && result == Secured(buffer + r.payload)
    case PoweringOff => r.SlotStatus? && result == PoweredOff
    case ReadingSlotStatus => r.SlotStatus? && result == SlotStatusRead(!r.card.NotPresent?)
    case Aborting => r.SlotStatus? && result == Aborted
    case ReadingParameters => r.Parameters? && result == ParametersRead(r.payload)
    case SettingParameters => r.Parameters? && result == ParametersSet
  }

  predicate IsError(a: Action, id: nat) {
    a.Complete? && a.id == id && a.result.Err?
  }

  predicate ErrorAnswer(actions: seq<Action>, id: nat) {
    || (|actions| == 1 && IsError(actions[0], id))
    || (|actions| == 2 && actions[0].CancelTransfers? && IsError(actions[1], id))
    || (|actions| == 3 && actions[0].CancelTransfers? && IsError(actions[1], id) && actions[2].PublishSlotChange?)
  }

  /** Sequence and deadline allocation, and the sequence awaited, did not move. */
  predicate SameAllocations(s: State, s': State) {
    && s'.nextSeq == s.nextSeq && s'.activeDeadlineId == s.activeDeadlineId
    && s'.flight.expectedSeq == s.flight.expectedSeq
  }

  /** A card leaves only with a new generation, unless the reader itself is lost. */
  predicate CardMoves(k: Card, k': Card, lost: bool) {
    && (k'.gen == k.gen || k'.gen == Succ64(k.gen))
    && (k.present && !k'.present && !lost ==> k'.gen == Succ64(k.gen))
    && (k'.activated ==> k'.present)
  }

  predicate IsConnectionLost(call: Call) {
    call.StepCall? && call.event.ConnectionLost?
  }

  predicate EndsOperation(s: State, call: Call, o: Outcome) {
    && s.pending.Some? && o.s.pending.None? && o.s.deadline.None? && o.t.nextDeadline.None?
    && SameAllocations(s, o.s)
    && o.s.flight.drainCount == s.flight.drainCount && o.s.flight.expectedBulkOutLen == s.flight.expectedBulkOutLen
    && |o.s.flight.chainBuffer| <= |s.flight.chainBuffer|
    && CardMoves(s.card, o.s.card, IsConnectionLost(call))
    && (o.s.connected ==> s.connected)
  }

  predicate DoesFail(s: State, call: Call, o: Outcome) {
    && IsEvent(call) && EndsOperation(s, call, o)
    && (s.needsRecovery ==> o.s.needsRecovery)
    && ErrorAnswer(o.t.actions, s.pending.value.id)
  }

  predicate DoesSucceed(c: Config, s: State, call: Call, o: Outcome, result: OperationResult) {
    && IsBulkIn(call) && EndsOperation(s, call, o)
    && ReplyIn(c, s, call).Ok?
    && Answers(s.pending.value.kind, s.flight.chainBuffer, ReplyIn(c, s, call).value, result)
    && (ReplyIn(c, s, call).value.DataBlock? ==>
          && Carries(ReplyIn(c, s, call), ReplyIn(c, s, call).value.payload)
          && !ReplyIn(c, s, call).value.card.NotPresent?
          && ReplyIn(c, s, call).value.chain == (if s.flight.chainBuffer == [] then ChainComplete else ChainEnd))
    && o.s.needsRecovery == (s.needsRecovery && !s.pending.value.kind.Aborting?)
    && o.t.actions == [Complete(s.pending.value.id, Ok(result))]
  }

  predicate DoesGrow(c: Config, s: State, call: Call, o: Outcome, payload: seq<byte>) {
    && IsBulkIn(call) && s.pending.Some?
    && Carries(ReplyIn(c, s, call), payload)
    && !ReplyIn(c, s, call).value.card.NotPresent?
    && (if s.flight.chainBuffer == [] then ReplyIn(c, s, call).value.chain.ChainBegin?
        else ReplyIn(c, s, call).value.chain.ChainContinue?)
    && |s.flight.chainBuffer + payload| <= MAX_RESPONSE_PAYLOAD
    && o == SendBlock(c, WithBuffer(s, s.flight.chainBuffer + payload), 0, CHAIN_COMMAND_CONTINUATION_EXPECTED, [])
  }

  predicate DoesContinue(c: Config, s: State, call: Call, o: Outcome) {
    && IsBulkIn(call) && s.pending.Some? && s.flight.outgoing != []
    && ReplyIn(c, s, call).Ok? && ReplyIn(c, s, call).value.DataBlock?
    && ReplyIn(c, s, call).value.chain.CommandContinuationExpected?
    && o == OnContinuation(c, s, call.now, s.pending.value)
  }

  predicate DoesExtend(c: Config, s: State, call: Call, o: Outcome, until: nat) {
    && IsBulkIn(call) && s.pending.Some?
    && ReplyIn(c, s, call).Ok? && ReplyIn(c, s, call).value.TimeExtension?
    && s.flight.wtxCount < MAX_TIME_EXTENSIONS && until <= s.flight.startedAt + MAX_TIME_EXTENSION_WALL_MS
    && o == ReadMore(c, Arm(s.(flight := s.flight.(wtxCount := s.flight.wtxCount + 1)), until))
  }

  predicate DoesDrain(c: Config, s: State, call: Call, o: Outcome) {
    && IsBulkIn(call) && s.pending.Some? && s.pending.value.kind.Aborting?
    && ReplyIn(c, s, call).Err? && s.flight.drainCount < MAX_ABORT_DRAIN_ATTEMPTS
    && o == ReadMore(c, s.(flight := s.flight.(drainCount := s.flight.drainCount + 1)))
  }

  predicate DoesSendAbort(c: Config, s: State, call: Call, o: Outcome) {
    && IsEvent(call) && !IsBulkIn(call) && s.pending.Some? && s.pending.value.kind.Aborting?
    && o == Settle(Expecting(s, HEADER_SIZE),
                   [SubmitBulkOut(s.flight.expectedSeq, EncodeAbort(c.slot, s.flight.expectedSeq))])
  }

  predicate StaysQuiet(s: State, call: Call, o: Outcome) {
    && !(call.StepCall? && call.event.Start?)
    && (IsBulkIn(call) ==> s.pending.None?)
    && o.s.pending == s.pending && o.s.deadline == s.deadline
    && o.s.nextSeq == s.nextSeq && o.s.activeDeadlineId == s.activeDeadlineId
    && (o.s.flight == s.flight || (s.pending.None? && o.s.flight == s.flight.(outgoing := [])))
    && CardMoves(s.card, o.s.card, IsConnectionLost(call))
    && (o.s.connected ==> s.connected)
    && (s.needsRecovery ==> o.s.needsRecovery) && (o.s.needsRecovery && !s.needsRecovery ==> s.pending.None?)
    && o.t.nextDeadline == (if call.StepCall? then s.deadline else None)
    && (|o.t.actions| == 0
        || (|o.t.actions| == 1 && (o.t.actions[0].SubmitBulkIn? || o.t.actions[0].PublishSlotChange?)))
  }

  predicate DoesReject(c: Config, s: State, call: Call, o: Outcome) {
    && call.StepCall? && call.event.Start? && Refusal(c, s, call.event.op).Some?
    && o == Outcome(s, Transition([Complete(call.event.id, Err(Refusal(c, s, call.event.op).value))], None))
  }

  predicate DoesBegin(c: Config, s: State, call: Call, o: Outcome) {
    && call.StepCall? && call.event.Start? && Refusal(c, s, call.event.op).None?
    && o == Begun(c, s, call.now, call.event.id, call.event.op)
  }

  predicate Has(c: Config, s: State, call: Call, o: Outcome, e: Effect) {
    match e
    case Rejects => DoesReject(c, s, call, o)
    case Begins => DoesBegin(c, s, call, o)
    case Fails => DoesFail(s, call, o)
    case Succeeds(result) => DoesSucceed(c, s, call, o, result)
    case Grows(payload) => DoesGrow(c, s, call, o, payload)
    case Continues => DoesContinue(c, s, call, o)
    case Extends(until) => DoesExtend(c, s, call, o, until)
    case Drains => DoesDrain(c, s, call, o)
    case SendsAbort => DoesSendAbort(c, s, call, o)
    case Quiet => StaysQuiet(s, call, o)
  }

  /** The effects that keep an operation pending and act for it. */
  predicate Sends(e: Effect) {
    e.Grows? || e.Continues? || e.Extends? || e.Drains? || e.SendsAbort?
  }

  // ---- Every call has an effect ----

  lemma FailEnds(s: State, s': State, call: Call, error: CcidError)
    requires IsEvent(call) && s.pending.Some? && SameAllocations(s, s')
    requires s'.flight.drainCount == s.flight.drainCount && s'.flight.expectedBulkOutLen == s.flight.expectedBulkOutLen
    requires |s'.flight.chainBuffer| <= |s.flight.chainBuffer|
    requires CardMoves(s.card, s'.card, IsConnectionLost(call))
    requires (s'.connected ==> s.connected) && (s.needsRecovery ==> s'.needsRecovery)
    ensures DoesFail(s, call, Fail(s', s.pending.value.id, error))
    ensures DoesFail(s, call, CancelAndFail(s', s.pending.value.id, error))
  {
  }

  lemma ChainedBlockEffect(c: Config, s: State, call: Call, p: Pending, chain: ChainParameter, payload: seq<byte>)
    returns (e: Effect)
    requires Inv(c, s) && IsBulkIn(call) && s.pending == Some(p)
    requires ReplyIn(c, s, call).Ok? && ReplyIn(c, s, call).value.DataBlock?
    requires ReplyIn(c, s, call).value.chain == chain && ReplyIn(c, s, call).value.payload == payload
    requires !chain.CommandContinuationExpected? && !ReplyIn(c, s, call).value.card.NotPresent?
    ensures Has(c, s, call, OnChainedBlock(c, s, p, chain, payload), e)
  {
    hide DecodeResponse, EncodeXfrBlock;
    AcceptedReply(call.event.io.frame, s.flight.expectedType, c.slot, s.flight.expectedSeq);
    var buffer := s.flight.chainBuffer;
    e := Fails;
    match chain {
      case ChainBegin =>
        if buffer != [] {
          FailEnds(s, WithBuffer(s, []).(needsRecovery := true), call, ProtocolDesync(ChainBeginAlreadyOpen));
        } else if |buffer + payload| > MAX_RESPONSE_PAYLOAD {
          FailEnds(s, WithBuffer(s, []), call, ResponseLengthOutOfRange);
        } else {
          e := Grows(payload);
        }
      case ChainContinue =>
        if buffer == [] {
          FailEnds(s, s.(needsRecovery := true), call, ProtocolDesync(ChainContinueWithoutBegin));
        } else if |buffer + payload| > MAX_RESPONSE_PAYLOAD {
          FailEnds(s, WithBuffer(s, []), call, ResponseLengthOutOfRange);
        } else {
          e := Grows(payload);
        }
      case ChainEnd =>
        if buffer == [] {
          FailEnds(s, s.(needsRecovery := true), call, ProtocolDesync(ChainEndWithoutBegin));
        } else if |buffer + payload| > MAX_RESPONSE_PAYLOAD {
          FailEnds(s, WithBuffer(s, []), call, ResponseLengthOutOfRange);
        } else {
          e := Succeeds(Delivered(p.kind, buffer + payload));
        }
      case ChainComplete =>
        if buffer != [] {
          FailEnds(s, WithBuffer(s, []).(needsRecovery := true), call, ProtocolDesync(ChainCompleteWhileOpen));
        } else if |payload| > MAX_RESPONSE_PAYLOAD {
          FailEnds(s, s, call, ResponseLengthOutOfRange);
        } else {
          assert buffer + payload == payload;
          e := Succeeds(Delivered(p.kind, buffer + payload));
        }
    }
  }

  lemma DataBlockEffect(c: Config, s: State, call: Call, p: Pending) returns (e: Effect)
    requires Inv(c, s) && IsBulkIn(call) && s.pending == Some(p)
    requires ReplyIn(c, s, call).Ok? && ReplyIn(c, s, call).value.DataBlock?
    ensures Has(c, s, call, OnReply(c, s, call.now, p, ReplyIn(c, s, call)), e)
  {
    hide DecodeResponse, OnChainedBlock, EncodeXfrBlock;
    var r := ReplyIn(c, s, call).value;
    e := Fails;
    if r.card.NotPresent? {
      FailEnds(s, CardGone(s), call, CardRemoved);
    } else if !r.chain.CommandContinuationExpected? {
      e := ChainedBlockEffect(c, s, call, p, r.chain, r.payload);
    } else if s.flight.outgoing == [] {
      FailEnds(s, s, call, ProtocolDesync(UnexpectedCommandContinuation));
    } else {
      e := Continues;
    }
  }

  lemma OtherReplyEffect(c: Config, s: State, call: Call, p: Pending) returns (e: Effect)
    requires Inv(c, s) && IsBulkIn(call) && s.pending == Some(p)
    requires !(ReplyIn(c, s, call).Ok? && ReplyIn(c, s, call).value.DataBlock?)
    ensures Has(c, s, call, OnReply(c, s, call.now, p, ReplyIn(c, s, call)), e)
  {
    hide DecodeResponse, OnDataBlock;
    var reply := ReplyIn(c, s, call);
    e := Fails;
    match reply {
      case Ok(r) =>
        AcceptedReply(call.event.io.frame, s.flight.expectedType, c.slot, s.flight.expectedSeq);
        match r {
          case TimeExtension(_, multiplier) =>
            var until := SaturatingAdd(call.now, multiplier * s.waitingUnitMs);
            var s1 := s.(flight := s.flight.(wtxCount := s.flight.wtxCount + 1));
            if s1.flight.wtxCount > MAX_TIME_EXTENSIONS || until - s.flight.startedAt > MAX_TIME_EXTENSION_WALL_MS {
              FailEnds(s, s1.(needsRecovery := true), call, Timeout);
            } else {
              e := Extends(until);
            }
          case SlotStatus(card, _) =>
            e := Succeeds(if p.kind.PoweringOff? then PoweredOff
                          else if p.kind.Aborting? then Aborted
                          else SlotStatusRead(!card.NotPresent?));
          case Parameters(_, _, payload) =>
            e := Succeeds(if p.kind.SettingParameters? then ParametersSet else ParametersRead(payload));
          case CommandFailure(card, code) =>
            FailEnds(s, if card.NotPresent? then CardGone(s) else s, call, CommandFailed(code));
        }
      case Err(error) =>
        if p.kind.Aborting? && s.flight.drainCount < MAX_ABORT_DRAIN_ATTEMPTS {
          e := Drains;
        } else {
          FailEnds(s, s.(needsRecovery := true), call, error);
        }
    }
  }

  lemma InterruptEffect(c: Config, s: State, now: Instant, raw: seq<byte>) returns (e: Effect)
    requires Inv(c, s)
    ensures Has(c, s, StepCall(now, InterruptReceived(raw)), OnInterrupt(c, s, raw), e)
  {
    hide DecodeSlotChange, CardPresentIn, ChangedIn;
    var call := StepCall(now, InterruptReceived(raw));
    e := if OnInterrupt(c, s, raw).s.pending == s.pending then Quiet else Fails;
    if raw != [] && raw[0] == RDR_TO_PC_HARDWARE_ERROR && s.pending.Some? {
      FailEnds(s, CardGone(s).(needsRecovery := true), call, Io(IoConnectionLost));
    }
  }

  lemma CompletionEffect(c: Config, s: State, now: Instant, io: IoCompletion) returns (e: Effect)
    requires Inv(c, s) && !io.BulkIn?
    ensures Has(c, s, StepCall(now, IoCompleted(io)), Step(c, s, now, IoCompleted(io)), e)
  {
    hide OnBulkIn, OnInterrupt, OnStart;
    var call := StepCall(now, IoCompleted(io));
    e := if s.pending.None? then Quiet else Fails;
    match io {
      case BulkOut(transferred) =>
        if transferred == s.flight.expectedBulkOutLen {
          e := Quiet;
        } else if s.pending.Some? {
          FailEnds(s, s.(needsRecovery := true), call, Io(ShortWrite(s.flight.expectedBulkOutLen, transferred)));
        }
      case Control =>
        e := if s.pending.Some? && s.pending.value.kind.Aborting? then SendsAbort else Quiet;
      case Failure(error) =>
        if s.pending.Some? {
          var s1 := if error.CardRemoved? then CardGone(WithOutgoing(s, [])) else WithOutgoing(s, []);
          FailEnds(s, s1.(needsRecovery := s.needsRecovery || error.Timeout? || error.Io?), call, error);
        }
    }
  }

  lemma TimerEffect(c: Config, s: State, now: Instant, event: InputEvent) returns (e: Effect)
    requires Inv(c, s) && (event.DeadlineExpired? || event.Cancel? || event.ConnectionLost?)
    ensures Has(c, s, StepCall(now, event), Step(c, s, now, event), e)
  {
    hide OnBulkIn, OnInterrupt, OnStart;
    var call := StepCall(now, event);
    var o := Step(c, s, now, event);
    e := if o.s.pending == s.pending then Quiet else Fails;
    if s.pending.Some? {
      FailEnds(s, WithOutgoing(s, []).(needsRecovery := true), call, Timeout);
      FailEnds(s, WithOutgoing(s, []).(needsRecovery := true), call, Cancelled);
      if event.ConnectionLost? {
        FailEnds(s, WithOutgoing(s, []).(connected := false, card := Card(s.card.gen, false, false)), call,
                 Io(DeviceDisconnected));
      }
    }
  }

  /** Every call on a state that keeps the invariant has one of the ten effects. */
  lemma EffectOf(c: Config, s: State, call: Call) returns (e: Effect)
    requires Inv(c, s)
    ensures Has(c, s, call, Apply(c, s, call), e)
  {
    hide OnReply, OnInterrupt, DecodeResponse, Begun, FirstFrame, OnBulkOut, OnControl, OnFailure, OnDeadline,
         OnCancel, OnConnectionLost;
    e := Quiet;
    match call {
      case StepCall(now, event) =>
        match event {
          case Start(id, op) => e := if Refusal(c, s, op).Some? then Rejects else Begins;
          case IoCompleted(io) =>
            if !io.BulkIn? {
              e := CompletionEffect(c, s, now, io);
            } else if s.pending.Some? {
              if ReplyIn(c, s, call).Ok? && ReplyIn(c, s, call).value.DataBlock? {
                e := DataBlockEffect(c, s, call, s.pending.value);
              } else {
                e := OtherReplyEffect(c, s, call, s.pending.value);
              }
            }
          case InterruptReceived(raw) => e := InterruptEffect(c, s, now, raw);
          case _ => e := TimerEffect(c, s, now, event);
        }
      case _ =>
    }
  }
}
