/** Why the CCID slot engine fails an operation, and what each failure leaves behind. */
module EngineErrors {
  import opened Wrappers
  import opened Bytes
  import opened CcidErrors
  import opened Codec
  import opened Descriptor
  import opened EngineModel
  import opened EngineEffects
  import opened EngineRuns
  import opened EngineWatch
  import opened EngineAnswers

  /** The error a reply stands for, given the response octets read before it. */
  function ReplyCause(received: seq<byte>, reply: Result<Response, CcidError>): Option<CcidError> {
    match reply
    case Err(error) => Some(error)
    case Ok(TimeExtension(_, _)) => Some(Timeout)
    case Ok(CommandFailure(_, code)) => Some(CommandFailed(code))
    case Ok(DataBlock(card, chain, _)) =>
      if card.NotPresent? then Some(CardRemoved)
      else if chain.CommandContinuationExpected? then Some(ProtocolDesync(UnexpectedCommandContinuation))
      else if OutOfOrder(received, chain) then
        Some(ProtocolDesync(match chain
                            case ChainBegin => ChainBeginAlreadyOpen
                            case ChainContinue => ChainContinueWithoutBegin
                            case ChainEnd => ChainEndWithoutBegin
                            case _ => ChainCompleteWhileOpen))
      else Some(ResponseLengthOutOfRange)
    case _ => None
  }

  /** A block that opens or closes a response chain at the wrong time. */
  predicate OutOfOrder(received: seq<byte>, chain: ChainParameter) {
    match chain
    case ChainBegin | ChainComplete => received != []
    case ChainContinue | ChainEnd => received == []
    case CommandContinuationExpected => false
  }

  predicate IsHardwareError(c: Config, call: Call) {
    && call.StepCall? && call.event.InterruptReceived?
    && call.event.raw != [] && call.event.raw[0] == RDR_TO_PC_HARDWARE_ERROR
    && DecodeHardwareError(call.event.raw).Ok? && DecodeHardwareError(call.event.raw).value.slot == c.slot
  }

  /** The one error `call` can answer the operation in flight with. */
  function Cause(c: Config, w: Watch, call: Call): Option<CcidError>
    requires w.current.Some?
  {
    if !call.StepCall? then None
    else match call.event
      case Start(_, _) => None
      case Cancel(_) => Some(Cancelled)
      case DeadlineExpired(_) => Some(Timeout)
      case ConnectionLost => Some(Io(DeviceDisconnected))
      case InterruptReceived(_) => Some(if IsHardwareError(c, call) then Io(IoConnectionLost) else CardRemoved)
      case IoCompleted(Failure(error)) => Some(error)
      case IoCompleted(BulkOut(n)) => Some(Io(ShortWrite(|w.lastFrame|, n)))
      case IoCompleted(Control) => None
      case IoCompleted(BulkIn(frame)) => ReplyCause(w.current.value.received, ReplySeen(c, w, frame))
  }

  /** Whether a failure by `call` leaves the exchange with the reader in doubt. */
  predicate InDoubt(c: Config, w: Watch, call: Call)
    requires w.current.Some?
  {
    call.StepCall? &&
    match call.event
    case Cancel(_) | DeadlineExpired(_) => true
    case InterruptReceived(_) => IsHardwareError(c, call)
    case IoCompleted(Failure(error)) => error.Timeout? || error.Io?
    case IoCompleted(BulkOut(_)) => true
    case IoCompleted(BulkIn(frame)) =>
      var reply := ReplySeen(c, w, frame);
      || reply.Err? || reply.value.TimeExtension?
      || (reply.value.DataBlock? && !reply.value.card.NotPresent?
          && OutOfOrder(w.current.value.received, reply.value.chain))
    case _ => false
  }

  /** Whether transfers may still be outstanding when `call` fails the operation. */
  predicate Cancels(c: Config, w: Watch, call: Call)
    requires w.current.Some?
  {
    call.StepCall? &&
    match call.event
    case ConnectionLost => false
    case IoCompleted(BulkIn(frame)) => ReplySeen(c, w, frame).Ok? && ReplySeen(c, w, frame).value.TimeExtension?
    case _ => true
  }

  /** How a failure by `call` looks. */
  predicate FailsAs(c: Config, s: State, w: Watch, call: Call, o: Outcome)
    requires w.current.Some?
  {
    && Cause(c, w, call).Some?
    && var answer := Complete(w.current.value.id, Err(Cause(c, w, call).value));
       && (if Cancels(c, w, call) then [CancelTransfers, answer] else [answer]) <= o.t.actions
       && (o.s.needsRecovery <==> s.needsRecovery || InDoubt(c, w, call))
  }

  lemma BlockFails(c: Config, s: State, w: Watch, call: Call)
    requires Agrees(c, s, w) && s.pending.Some? && IsBulkIn(call)
    requires ReplyIn(c, s, call).Ok? && ReplyIn(c, s, call).value.DataBlock?
    requires DoesFail(s, call, Apply(c, s, call))
    ensures FailsAs(c, s, w, call, Apply(c, s, call))
  {
    hide DecodeResponse, FramesAgree, Numbered, Counting, EncodeXfrBlock, OnInterrupt, OnStart, CardMoves;
    assert ReplyIn(c, s, call) == ReplySeen(c, w, call.event.io.frame);
  }

  lemma OtherReplyFails(c: Config, s: State, w: Watch, call: Call)
    requires Agrees(c, s, w) && s.pending.Some? && IsBulkIn(call)
    requires ReplyIn(c, s, call).Ok? ==> !ReplyIn(c, s, call).value.DataBlock?
    requires DoesFail(s, call, Apply(c, s, call))
    ensures FailsAs(c, s, w, call, Apply(c, s, call))
  {
    hide DecodeResponse, FramesAgree, Numbered, Counting, OnDataBlock, OnInterrupt, OnStart, CardMoves;
    assert ReplyIn(c, s, call) == ReplySeen(c, w, call.event.io.frame);
  }

  lemma OtherEventFails(c: Config, s: State, w: Watch, call: Call)
    requires Agrees(c, s, w) && s.pending.Some? && IsEvent(call) && !IsBulkIn(call)
    requires DoesFail(s, call, Apply(c, s, call))
    ensures FailsAs(c, s, w, call, Apply(c, s, call))
  {
    hide DecodeResponse, FramesAgree, Numbered, Counting, EncodeXfrBlock, OnBulkIn, OnStart, CardMoves;
  }

  lemma FailureShows(c: Config, s: State, w: Watch, call: Call)
    requires Agrees(c, s, w) && DoesFail(s, call, Apply(c, s, call))
    ensures w.current.Some? && FailsAs(c, s, w, call, Apply(c, s, call))
  {
    hide Apply, FramesAgree, Numbered, Counting, FailsAs, ReplyIn, EndsOperation;
    assert s.pending.Some? by { PendingBefore(s, call, Apply(c, s, call)); }
    if !IsBulkIn(call) {
      OtherEventFails(c, s, w, call);
    } else if ReplyIn(c, s, call).Ok? && ReplyIn(c, s, call).value.DataBlock? {
      BlockFails(c, s, w, call);
    } else {
      OtherReplyFails(c, s, w, call);
    }
  }

  lemma PendingBefore(s: State, call: Call, o: Outcome)
    requires DoesFail(s, call, o)
    ensures s.pending.Some?
  {
  }

  lemma ErrorIsFailureOrRefusal(c: Config, s: State, call: Call, o: Outcome, e: Effect, k: nat)
    requires Has(c, s, call, o, e) && k < |o.t.actions| && o.t.actions[k].Complete? && o.t.actions[k].result.Err?
    ensures e.Fails? || (e.Rejects? && call.StepCall? && call.event.Start? && call.event.id == o.t.actions[k].id)
    ensures e.Fails? ==> DoesFail(s, call, o)
  {
    if Sends(e) {
      hide Has;
      assert HasAnswer(o.t);
      SendShows(c, s, call, o, e);
      assert false;
    } else if e.Begins? {
      hide Has;
      assert HasAnswer(o.t);
      BeginShows(c, s, call, o);
      assert false;
    } else {
      EndingIsError(c, s, call, o, e, k);
    }
  }

  lemma EndingIsError(c: Config, s: State, call: Call, o: Outcome, e: Effect, k: nat)
    requires Has(c, s, call, o, e) && !Sends(e) && !e.Begins?
    requires k < |o.t.actions| && o.t.actions[k].Complete? && o.t.actions[k].result.Err?
    ensures e.Fails? || (e.Rejects? && call.StepCall? && call.event.Start? && call.event.id == o.t.actions[k].id)
    ensures e.Fails? ==> DoesFail(s, call, o)
  {
    hide ReplyIn, Answers, Refusal, CardMoves;
  }

  lemma FailureAnswersOnce(s: State, call: Call, o: Outcome, j: nat, k: nat)
    requires DoesFail(s, call, o) && j < |o.t.actions| && k < |o.t.actions|
    requires o.t.actions[j].Complete? && o.t.actions[k].Complete?
    ensures j == k
  {
    hide EndsOperation;
  }

  /**
   * Every error answer of a run either refuses the Start it comes back from or goes to the operation
   * in flight, and then it is the one error the call stands for, told from what crossed the wire;
   * outstanding transfers are cancelled with it unless a reply or the loss of the reader ended them,
   * and the slot needs recovery from then on exactly when it did before or the exchange is in doubt.
   */
  lemma ErrorsNameTheirCause(c: Config, calls: seq<Call>, i: nat, k: nat)
    requires i < |calls| && k < |Output(c, calls, i).actions|
    requires Output(c, calls, i).actions[k].Complete? && Output(c, calls, i).actions[k].result.Err?
    ensures var s, w, call := Exec(c, calls[..i]), Observe(c, calls[..i]), calls[i];
            var a := Output(c, calls, i).actions[k];
            || (call.StepCall? && call.event.Start? && call.event.id == a.id)
            || (w.current.Some? && a.id == w.current.value.id && Some(a.result.error) == Cause(c, w, call)
                && FailsAs(c, s, w, call, Apply(c, s, call)))
  {
    hide Apply, Exec, Observe, Has, Agrees, DoesFail, Cause, Cancels, InDoubt;
    RunAgrees(c, calls[..i]);
    var s, w, call := Exec(c, calls[..i]), Observe(c, calls[..i]), calls[i];
    var o := Apply(c, s, call);
    InvOf(c, s, w);
    var e := EffectOf(c, s, call);
    ErrorIsFailureOrRefusal(c, s, call, o, e, k);
    if e.Fails? {
      FailureShows(c, s, w, call);
      var j := if Cancels(c, w, call) then 1 else 0;
      assert o.t.actions[j] == Complete(w.current.value.id, Err(Cause(c, w, call).value));
      FailureAnswersOnce(s, call, o, j, k);
    }
  }

  lemma InvOf(c: Config, s: State, w: Watch)
    requires Agrees(c, s, w)
    ensures Inv(c, s)
  {
  }

  lemma HardwareErrorCloses(c: Config, s: State, call: Call)
    requires IsHardwareError(c, call)
    ensures Apply(c, s, call).s.needsRecovery && Apply(c, s, call).s.pending.None?
  {
    hide OnStart, OnBulkIn, OnSlotChange;
  }

  lemma IdleGate(c: Config, s: State, call: Call)
    requires s.pending.None? && !s.needsRecovery && !IsHardwareError(c, call)
    ensures !Apply(c, s, call).s.needsRecovery
  {
    hide OnReply, DecodeResponse, NewFlight, FirstAction;
  }

  lemma UnfailedGate(c: Config, s: State, w: Watch, call: Call, o: Outcome, e: Effect)
    requires Agrees(c, s, w) && Has(c, s, call, o, e) && s.pending.Some? && !s.needsRecovery && !e.Fails?
    ensures !o.s.needsRecovery
    ensures w.current.Some? && o.s.pending.None? ==> !InDoubt(c, w, call)
  {
    if Sends(e) {
      hide Has, FramesAgree, Numbered, Counting, InDoubt;
      SendMoves(c, s, call, o, e);
    } else if e.Succeeds? {
      hide DecodeResponse, FramesAgree, Numbered, Counting, CardMoves;
      assert ReplyIn(c, s, call) == ReplySeen(c, w, call.event.io.frame);
    } else {
      hide ReplyIn, Answers, Refusal, CardMoves, FramesAgree, Numbered, Counting, NewFlight, FirstAction, InDoubt;
    }
  }

  /**
   * The recovery gate closes exactly on a hardware error report for the slot, or when a call ends
   * the operation in flight and leaves its exchange in doubt.
   */
  lemma GateCloses(c: Config, calls: seq<Call>, call: Call)
    requires !Exec(c, calls).needsRecovery
    ensures var w := Observe(c, calls);
            var s' := Apply(c, Exec(c, calls), call).s;
            s'.needsRecovery <==>
              IsHardwareError(c, call) || (w.current.Some? && s'.pending.None? && InDoubt(c, w, call))
  {
    hide Apply, Exec, Observe, Has, Agrees, DoesFail, Cause, Cancels, InDoubt, IsHardwareError;
    RunAgrees(c, calls);
    var s, w := Exec(c, calls), Observe(c, calls);
    InvOf(c, s, w);
    CurrentIsPending(c, s, w);
    if IsHardwareError(c, call) {
      HardwareErrorCloses(c, s, call);
    } else if s.pending.None? {
      IdleGate(c, s, call);
    } else {
      var e := EffectOf(c, s, call);
      if e.Fails? {
        FailsMeans(c, s, call, Apply(c, s, call));
        FailureShows(c, s, w, call);
      } else {
        UnfailedGate(c, s, w, call, Apply(c, s, call), e);
      }
    }
  }

  lemma CurrentIsPending(c: Config, s: State, w: Watch)
    requires Agrees(c, s, w)
    ensures w.current.Some? <==> s.pending.Some?
  {
    hide Inv, FramesAgree, Numbered, Counting;
  }

  lemma FailsMeans(c: Config, s: State, call: Call, o: Outcome)
    requires Has(c, s, call, o, Fails)
    ensures DoesFail(s, call, o) && o.s.pending.None?
  {
  }

  // ---- Refused starts ----

  lemma OnlyLossDisconnects(c: Config, s: State, call: Call)
    requires !IsBulkIn(call)
    ensures Apply(c, s, call).s.connected <==> s.connected && !IsConnectionLost(call)
  {
    hide OnBulkIn, DecodeSlotChange, DecodeHardwareError, NewFlight, FirstAction, Refusal, EncodeAbort;
  }

  predicate Lost(calls: seq<Call>) {
    exists i :: 0 <= i < |calls| && IsConnectionLost(calls[i])
  }

  lemma {:induction false} LossIsForGood(c: Config, calls: seq<Call>)
    ensures Exec(c, calls).connected <==> !Lost(calls)
  {
    hide Apply;
    if calls != [] {
      var n := |calls| - 1;
      LossIsForGood(c, calls[..n]);
      if IsBulkIn(calls[n]) {
        ReplyKeepsSettings(c, Exec(c, calls[..n]), calls[n]);
      } else {
        OnlyLossDisconnects(c, Exec(c, calls[..n]), calls[n]);
      }
      LostGrows(calls);
    }
  }

  lemma LostGrows(calls: seq<Call>)
    requires calls != []
    ensures var n := |calls| - 1; Lost(calls) <==> Lost(calls[..n]) || IsConnectionLost(calls[n])
  {
    var n := |calls| - 1;
    if Lost(calls[..n]) {
      var i :| 0 <= i < n && IsConnectionLost(calls[..n][i]);
      assert IsConnectionLost(calls[i]);
    }
    if Lost(calls) && !IsConnectionLost(calls[n]) {
      var i :| 0 <= i < |calls| && IsConnectionLost(calls[i]);
      assert calls[..n][i] == calls[i];
    }
  }

  /** The longest data an operation may carry. */
  function DataLimit(c: Config, op: Operation): nat {
    if op.TransferBlock? && c.level.ShortAndExtendedApdu? then MAXIMUM_COMMAND_PAYLOAD else c.maxPayloadLength
  }

  /** A refused Start comes back with an error and no deadline, and changes nothing. */
  predicate IsRefused(s: State, id: nat, error: CcidError, o: Outcome) {
    o == Outcome(s, Transition([Complete(id, Err(error))], None))
  }

  /** An accepted Start is the operation in flight, due five seconds from now. */
  predicate IsAccepted(now: Instant, id: nat, op: Operation, o: Outcome) {
    && o.s.pending == Some(Pending(id, KindOf(op))) && !HasAnswer(o.t)
    && o.t.nextDeadline.Some? && o.t.nextDeadline.value.expiresAt == now + 5000
  }

  /**
   * A Start is refused, and changes nothing, exactly when the connection was ever lost, the slot needs
   * recovery and the operation is no Abort, an operation is in flight, or its data is too long; the first
   * of these that holds is the error.
   */
  lemma StartsAreRefusedExactly(c: Config, calls: seq<Call>, now: Instant, id: nat, op: Operation)
    ensures var s := Exec(c, calls);
            var o := Apply(c, s, StepCall(now, Start(id, op)));
            if Lost(calls) then IsRefused(s, id, Io(IoConnectionLost), o)
            else if s.needsRecovery && !op.Abort? then IsRefused(s, id, ProtocolDesync(SlotRecoveryRequired), o)
            else if Observe(c, calls).current.Some? then
              IsRefused(s, id, ProtocolDesync(OperationAlreadyPending), o)
            else if (op.TransferBlock? || op.Secure?) && |op.data| > DataLimit(c, op) then
              IsRefused(s, id, ApduTooLong, o)
            else IsAccepted(now, id, op, o)
  {
    hide Exec, Observe, Agrees, Lost, NewFlight, FirstFrame;
    RunAgrees(c, calls);
    LossIsForGood(c, calls);
    CurrentIsPending(c, Exec(c, calls), Observe(c, calls));
  }
}
