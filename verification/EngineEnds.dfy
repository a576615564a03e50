/**
 * When a call ends the operation in flight, and what it makes the engine believe of the card: both
 * are functions of what crossed the engine's boundary.
 */
module EngineEnds {
  import opened Wrappers
  import opened Bytes
  import opened CcidErrors
  import opened Codec
  import opened EngineModel
  import opened EngineEffects
  import opened EngineRuns
  import opened EngineWatch
  import opened EngineAnswers
  import opened EngineTimers

  // ---- Cancel, failed transfers, a lost reader, interrupts ----

  /** The one operation is answered with `error` and nothing is pending. */
  predicate Ended(o: Outcome, actions: seq<Action>) {
    o.s.pending.None? && o.s.deadline.None? && o.t.nextDeadline.None? && o.t.actions == actions
  }

  predicate Untouched(s: State, o: Outcome) {
    o.s == s && o.t.actions == []
  }

  /** A Cancel ends exactly the operation it names, which then needs recovery; any other changes nothing. */
  lemma CancelEndsWhatItNames(c: Config, calls: seq<Call>, now: Instant, id: nat)
    ensures var s, r := Exec(c, calls), Observe(c, calls).current;
            var o := Apply(c, s, StepCall(now, Cancel(id)));
            if r.Some? && r.value.id == id then
              Ended(o, [CancelTransfers, Complete(id, Err(Cancelled))]) && o.s.needsRecovery && o.s.card == s.card
            else Untouched(s, o)
  {
    hide Exec, Observe, Agrees, OnStart, OnBulkIn, OnInterrupt;
    RunAgrees(c, calls);
    CurrentAsPending(c, Exec(c, calls), Observe(c, calls));
  }

  lemma CurrentAsPending(c: Config, s: State, w: Watch)
    requires Agrees(c, s, w)
    ensures w.current.Some? <==> s.pending.Some?
    ensures w.current.Some? ==> s.pending.value == Pending(w.current.value.id, KindOf(w.current.value.op))
  {
    hide Inv, FramesAgree, Numbered, Counting;
  }

  /** A failed transfer ends the operation in flight with its own error; with none in flight nothing is answered. */
  lemma FailureEndsTheOperation(c: Config, calls: seq<Call>, now: Instant, error: CcidError)
    ensures var s, r := Exec(c, calls), Observe(c, calls).current;
            var o := Apply(c, s, StepCall(now, IoCompleted(Failure(error))));
            if r.Some? then
              && Ended(o, [CancelTransfers, Complete(r.value.id, Err(error))])
              && (o.s.needsRecovery <==> s.needsRecovery || error.Timeout? || error.Io?)
              && o.s.card == if error.CardRemoved? then Card(Succ64(s.card.gen), false, false) else s.card
            else o == Outcome(s.(flight := s.flight.(outgoing := [])), NoTransition)
  {
    hide Exec, Observe, Agrees, OnStart, OnBulkIn, OnInterrupt;
    RunAgrees(c, calls);
    CurrentAsPending(c, Exec(c, calls), Observe(c, calls));
  }

  /** The loss of the reader ends the operation in flight, if any, and cancels nothing, as nothing is left to cancel. */
  lemma LossEndsTheOperation(c: Config, calls: seq<Call>, now: Instant)
    ensures var s, r := Exec(c, calls), Observe(c, calls).current;
            var o := Apply(c, s, StepCall(now, ConnectionLost));
            && Ended(o, if r.Some? then [Complete(r.value.id, Err(Io(DeviceDisconnected)))] else [])
            && !o.s.connected && o.s.needsRecovery == s.needsRecovery && o.s.card == Card(s.card.gen, false, false)
  {
    hide Exec, Observe, Agrees, OnStart, OnBulkIn, OnInterrupt;
    RunAgrees(c, calls);
    CurrentAsPending(c, Exec(c, calls), Observe(c, calls));
  }

  /** The completion of a control request matters to an abort only: it sends the abort's frame. */
  lemma ControlIsForAborts(c: Config, calls: seq<Call>, now: Instant)
    ensures var s, r := Exec(c, calls), Observe(c, calls).current;
            var o := Apply(c, s, StepCall(now, IoCompleted(Control)));
            if r.Some? && r.value.op.Abort? then
              && o.s.pending == s.pending && o.s.card == s.card
              && o.t.actions == [SubmitBulkOut(LastSequence(Observe(c, calls)),
                                               EncodeAbort(c.slot, LastSequence(Observe(c, calls))))]
            else Untouched(s, o)
  {
    hide Exec, Observe, OnStart, OnBulkIn, OnInterrupt, FramesAgree, Numbered, Counting;
    RunAgrees(c, calls);
  }

  /** A reply nobody waits for is dropped. */
  lemma StrayReplyIsDropped(c: Config, calls: seq<Call>, now: Instant, frame: seq<byte>)
    requires Observe(c, calls).current.None?
    ensures Untouched(Exec(c, calls), Apply(c, Exec(c, calls), StepCall(now, IoCompleted(BulkIn(frame)))))
  {
    hide Exec, Observe, Agrees, OnStart, OnReply, OnInterrupt;
    RunAgrees(c, calls);
    CurrentAsPending(c, Exec(c, calls), Observe(c, calls));
  }

  /** The bits of an interrupt packet for the engine's slot. */
  predicate Shows(c: Config, raw: seq<byte>, present: bool, changed: bool) {
    && DecodeSlotChange(raw, c.maxSlotIndex).Ok?
    && CardPresentIn(DecodeSlotChange(raw, c.maxSlotIndex).value, c.slot) == present
    && ChangedIn(DecodeSlotChange(raw, c.maxSlotIndex).value, c.slot) == changed
  }

  lemma SlotChangeOutcome(c: Config, s: State, now: Instant, raw: seq<byte>, present: bool, changed: bool)
    requires Shows(c, raw, present, changed)
    ensures var o := Apply(c, s, StepCall(now, InterruptReceived(raw)));
            o == OnSlotChange(c, s, present, changed)
  {
    hide OnStart, OnBulkIn, OnHardwareError, OnSlotChange, CardPresentIn, ChangedIn;
  }

  /**
   * A packet that shows the slot empty or flags a change ends the operation in flight with the card
   * removed, after cancelling its transfers and before publishing; a packet that only shows a card
   * where none was believed publishes and lets the operation go on; one that shows nothing new is
   * dropped.
   */
  lemma SlotChangeEndsTheOperation(c: Config, calls: seq<Call>, now: Instant, raw: seq<byte>, present: bool,
                                   changed: bool)
    requires Shows(c, raw, present, changed)
    ensures var s, r := Exec(c, calls), Observe(c, calls).current;
            var o := Apply(c, s, StepCall(now, InterruptReceived(raw)));
            var gen := Succ64(s.card.gen);
            var publish := PublishSlotChange(c.slot, present, gen);
            if !changed && present == s.card.present then Untouched(s, o)
            else if changed || !present then
              && o.s.card == Card(gen, present, false) && o.s.needsRecovery == s.needsRecovery
              && if r.Some? then Ended(o, [CancelTransfers, Complete(r.value.id, Err(CardRemoved)), publish])
                 else o.s.pending.None? && o.t.actions == [publish]
            else
              && o.s.card == Card(gen, true, s.card.activated) && o.s.needsRecovery == s.needsRecovery
              && o.s.pending == s.pending && o.s.deadline == s.deadline && o.t.actions == [publish]
  {
    hide Exec, Observe, Agrees, Apply;
    RunAgrees(c, calls);
    CurrentAsPending(c, Exec(c, calls), Observe(c, calls));
    SlotChangeOutcome(c, Exec(c, calls), now, raw, present, changed);
  }

  /** A hardware error packet names its slot in octet 1; for the engine's slot it ends the operation and the card. */
  lemma HardwareErrorEndsTheOperation(c: Config, calls: seq<Call>, now: Instant, raw: seq<byte>)
    requires 4 <= |raw| && raw[0] == 0x51
    ensures var s, r := Exec(c, calls), Observe(c, calls).current;
            var o := Apply(c, s, StepCall(now, InterruptReceived(raw)));
            if raw[1] == c.slot then
              && o.s.card == Card(Succ64(s.card.gen), false, false) && o.s.needsRecovery
              && Ended(o, if r.Some? then [CancelTransfers, Complete(r.value.id, Err(Io(IoConnectionLost)))] else [])
            else Untouched(s, o)
  {
    hide Exec, Observe, Agrees, OnStart, OnBulkIn, OnSlotChange;
    RunAgrees(c, calls);
    CurrentAsPending(c, Exec(c, calls), Observe(c, calls));
  }

  /** An interrupt packet that is neither changes nothing. */
  lemma StrayInterruptIsDropped(c: Config, calls: seq<Call>, now: Instant, raw: seq<byte>)
    requires DecodeSlotChange(raw, c.maxSlotIndex).Err? && !(4 <= |raw| && raw[0] == 0x51)
    ensures Untouched(Exec(c, calls), Apply(c, Exec(c, calls), StepCall(now, InterruptReceived(raw))))
  {
    hide Exec, OnStart, OnBulkIn, OnSlotChange, OnHardwareError, DecodeSlotChange;
    Reachable(c, calls);
  }

  // ---- Replies ----

  /** The reader still has to be sent part of the command. */
  predicate Unsent(c: Config, r: InFlight) {
    IsSplit(c, r.op) && |r.frames| < |Chunks(r.op.data, c.maxPayloadLength)|
  }

  predicate TooMuch(r: InFlight, payload: seq<byte>) {
    |r.received| + |payload| > 65_538
  }

  /** Whether a data block ends the operation `r`. */
  predicate BlockEnds(c: Config, r: InFlight, card: CardStatus, chain: ChainParameter, payload: seq<byte>) {
    card.NotPresent? ||
    match chain
    case CommandContinuationExpected => !Unsent(c, r)
    case ChainBegin => r.received != [] || TooMuch(r, payload)
    case ChainContinue => r.received == [] || TooMuch(r, payload)
    case ChainEnd | ChainComplete => true
  }

  /** Whether a reply read at `now`, with `unit` milliseconds to the waiting time unit, ends the operation `r`. */
  predicate ReplyEnds(c: Config, r: InFlight, now: Instant, unit: nat, reply: Result<Response, CcidError>) {
    match reply
    case Err(_) => !r.op.Abort? || r.drained >= 5
    case Ok(TimeExtension(_, multiplier)) =>
      r.extensions >= 60 || Until(now, multiplier, unit) > r.since + 10_000
    case Ok(DataBlock(card, chain, payload)) => BlockEnds(c, r, card, chain, payload)
    case Ok(_) => true
  }

  /** Whether a reply is the one that answers the operation `r` with Ok. */
  predicate ReplySucceeds(r: InFlight, reply: Result<Response, CcidError>) {
    match reply
    case Err(_) => false
    case Ok(SlotStatus(_, _)) => true
    case Ok(Parameters(_, _, _)) => true
    case Ok(DataBlock(card, chain, payload)) =>
      && !card.NotPresent? && !TooMuch(r, payload)
      && chain == if r.received == [] then ChainComplete else ChainEnd
    case Ok(_) => false
  }

  /** What a reply to `r` makes of the card believed in the slot. */
  function CardAfterReply(r: InFlight, card: Card, reply: Result<Response, CcidError>): Card {
    if reply.Err? || reply.value.TimeExtension? then card
    else if reply.value.SlotStatus? then
      var present := !reply.value.card.NotPresent?;
      var removed := card.present && !present;
      Card(if removed then Succ64(card.gen) else card.gen, present,
           card.activated && !removed && !r.op.PowerOff?)
    else if reply.value.card.NotPresent? then Card(Succ64(card.gen), false, false)
    else if r.op.PowerOn? && ReplySucceeds(r, reply) then Card(card.gen, true, true)
    else card
  }

  predicate HasOk(t: Transition) {
    exists i :: 0 <= i < |t.actions| && t.actions[i].Complete? && t.actions[i].result.Ok?
  }

  /** What a reply does, told from the trace. */
  predicate RepliedAs(c: Config, s: State, r: InFlight, now: Instant, unit: nat, reply: Result<Response, CcidError>,
                      o: Outcome)
  {
    && (o.s.pending.None? <==> ReplyEnds(c, r, now, unit, reply))
    && (o.s.pending.Some? ==> o.s.pending == s.pending && !HasAnswer(o.t))
    && (HasOk(o.t) <==> ReplySucceeds(r, reply))
    && o.s.card == CardAfterReply(r, s.card, reply)
  }

  /** The engine's bookkeeping of `r`, as far as data blocks go. */
  predicate Tracks(c: Config, s: State, r: InFlight) {
    && s.pending == Some(Pending(r.id, KindOf(r.op)))
    && s.flight.chainBuffer == r.received
    && (s.flight.outgoing != [] <==> Unsent(c, r))
  }

  lemma NoOk(t: Transition)
    requires |t.actions| == 1 && (t.actions[0].Complete? ==> t.actions[0].result.Err?)
    ensures !HasOk(t) && (!t.actions[0].Complete? ==> !HasAnswer(t))
  {
  }

  lemma AnOk(t: Transition)
    requires |t.actions| == 1 && t.actions[0].Complete? && t.actions[0].result.Ok?
    ensures HasOk(t)
  {
  }

  lemma ContinuationRepliedAs(c: Config, s: State, r: InFlight, now: Instant, unit: nat, card: CardStatus,
                              payload: seq<byte>)
    requires Tracks(c, s, r)
    ensures var reply := Ok(DataBlock(card, CommandContinuationExpected, payload));
            RepliedAs(c, s, r, now, unit, reply, OnReply(c, s, now, s.pending.value, reply))
  {
    hide EncodeXfrBlock, Unsent, HasOk, HasAnswer;
    var reply := Ok(DataBlock(card, CommandContinuationExpected, payload));
    NoOk(OnReply(c, s, now, s.pending.value, reply).t);
  }

  lemma ChainedRepliedAs(c: Config, s: State, r: InFlight, now: Instant, unit: nat, card: CardStatus,
                         chain: ChainParameter, payload: seq<byte>)
    requires Tracks(c, s, r) && !chain.CommandContinuationExpected?
    ensures var reply := Ok(DataBlock(card, chain, payload));
            RepliedAs(c, s, r, now, unit, reply, OnReply(c, s, now, s.pending.value, reply))
  {
    hide EncodeXfrBlock, Unsent, HasOk, HasAnswer;
    var reply := Ok(DataBlock(card, chain, payload));
    var t := OnReply(c, s, now, s.pending.value, reply).t;
    if ReplySucceeds(r, reply) {
      AnOk(t);
    } else {
      NoOk(t);
    }
  }

  lemma BlockRepliedAs(c: Config, s: State, w: Watch, call: Call)
    requires Agrees(c, s, w) && s.pending.Some? && IsBulkIn(call)
    requires ReplyIn(c, s, call).Ok? && ReplyIn(c, s, call).value.DataBlock?
    ensures RepliedAs(c, s, w.current.value, call.now, s.waitingUnitMs, ReplyIn(c, s, call), Apply(c, s, call))
  {
    hide DecodeResponse, FramesAgree, Numbered, Counting, OnReply, RepliedAs, Apply, Unsent;
    UnsentIsQueued(c, s, w);
    var reply := ReplyIn(c, s, call).value;
    ReplyIsHandled(c, s, call);
    if reply.chain.CommandContinuationExpected? {
      ContinuationRepliedAs(c, s, w.current.value, call.now, s.waitingUnitMs, reply.card, reply.payload);
    } else {
      ChainedRepliedAs(c, s, w.current.value, call.now, s.waitingUnitMs, reply.card, reply.chain, reply.payload);
    }
  }

  lemma ReplyIsHandled(c: Config, s: State, call: Call)
    requires IsBulkIn(call) && s.pending.Some?
    ensures Apply(c, s, call) == OnReply(c, s, call.now, s.pending.value, ReplyIn(c, s, call))
  {
    hide OnReply, OnInterrupt, OnStart, DecodeResponse;
  }

  lemma UnsentIsQueued(c: Config, s: State, w: Watch)
    requires Agrees(c, s, w) && w.current.Some?
    ensures s.flight.outgoing != [] <==> Unsent(c, w.current.value)
  {
    hide Inv, Numbered, Counting, FirstFrame;
  }

  lemma OtherRepliedAs(c: Config, s: State, w: Watch, call: Call)
    requires Agrees(c, s, w) && s.pending.Some? && IsBulkIn(call)
    requires ReplyIn(c, s, call).Ok? ==> !ReplyIn(c, s, call).value.DataBlock?
    ensures RepliedAs(c, s, w.current.value, call.now, s.waitingUnitMs, ReplyIn(c, s, call), Apply(c, s, call))
  {
    hide DecodeResponse, FramesAgree, Numbered, Counting, OnDataBlock, OnInterrupt, OnStart;
    if ReplyIn(c, s, call).Ok? {
      AcceptedReply(call.event.io.frame, s.flight.expectedType, c.slot, s.flight.expectedSeq);
    }
    var actions := Apply(c, s, call).t.actions;
    if |actions| > 0 && actions[0].Complete? {
      assert actions[0].result.Ok? ==> HasOk(Apply(c, s, call).t);
    }
  }

  /**
   * A reply to the operation in flight ends it, answers it with Ok, and changes what the engine
   * believes of the card, exactly as the trace says: an undecodable one ends all but an abort, which
   * skips five; a time extension ends it when it is the sixty-first or too long; a block ends it when
   * the card is gone, when the reader asks for more than there is, when it is out of order or too
   * much, and when it is the last.
   */
  lemma RepliesEndExactly(c: Config, calls: seq<Call>, now: Instant, frame: seq<byte>)
    requires Observe(c, calls).current.Some?
    ensures var s, w := Exec(c, calls), Observe(c, calls);
            RepliedAs(c, s, w.current.value, now, UnitOf(calls), ReplySeen(c, w, frame),
                      Apply(c, s, StepCall(now, IoCompleted(BulkIn(frame)))))
  {
    hide Apply, Exec, Observe, DecodeResponse, RepliedAs;
    var s, w, call := Exec(c, calls), Observe(c, calls), StepCall(now, IoCompleted(BulkIn(frame)));
    RunAgrees(c, calls);
    CurrentAsPending(c, s, w);
    UnitIsTheCallers(c, calls);
    ReplyInIsSeen(c, s, w, call);
    if ReplyIn(c, s, call).Ok? && ReplyIn(c, s, call).value.DataBlock? {
      BlockRepliedAs(c, s, w, call);
    } else {
      OtherRepliedAs(c, s, w, call);
    }
  }

  lemma ReplyInIsSeen(c: Config, s: State, w: Watch, call: Call)
    requires Agrees(c, s, w) && w.current.Some? && IsBulkIn(call)
    ensures ReplyIn(c, s, call) == ReplySeen(c, w, call.event.io.frame)
  {
    hide DecodeResponse, FramesAgree, Numbered, Counting;
  }

  // ---- Calls that say nothing of the card, and the caller's own word ----

  lemma StartLeavesTheCard(c: Config, s: State, now: Instant, id: nat, op: Operation)
    ensures Apply(c, s, StepCall(now, Start(id, op))).s.card == s.card
  {
    hide OnBulkIn, OnInterrupt, Refusal, NewFlight, FirstAction;
  }

  /** The caller's word on activation is taken as it is, and a card that is activated is there. */
  lemma CallersWordIsTaken(c: Config, s: State, activated: bool)
    ensures var o := Apply(c, s, SetActivated(activated));
            o == Outcome(s.(card := Card(s.card.gen, s.card.present || activated, activated)), NoTransition)
    ensures var o := Apply(c, s, MarkDeactivated);
            o == Outcome(s.(card := Card(s.card.gen, s.card.present, false)), NoTransition)
  {
    hide Step;
  }
}
