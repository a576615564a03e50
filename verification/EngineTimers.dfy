/** Deadlines, sequence numbers and transfer lengths of the slot engine, over every run. */
module EngineTimers {
  import opened Wrappers
  import opened Bytes
  import opened CcidErrors
  import opened Codec
  import opened EngineModel
  import opened EngineEffects
  import opened EngineRuns
  import opened EngineWatch
  import opened EngineAnswers

  // ---- Deadlines ----

  predicate IsRejectedStart(call: Call, t: Transition) {
    call.StepCall? && call.event.Start? && HasAnswer(t)
  }

  lemma EndReturnsDeadline(c: Config, s: State, call: Call, o: Outcome, e: Effect)
    requires Inv(c, s) && Has(c, s, call, o, e) && call.StepCall? && !Sends(e) && !e.Begins?
    ensures o.t.nextDeadline == if IsRejectedStart(call, o.t) then None else o.s.deadline
  {
    hide ReplyIn, Answers, Refusal, CardMoves, ErrorAnswer, FlightOk;
    EndShows(c, s, call, o, e);
  }

  lemma BeginReturnsDeadline(c: Config, s: State, call: Call, o: Outcome)
    requires Has(c, s, call, o, Begins)
    ensures o.t.nextDeadline == o.s.deadline
  {
    hide NewFlight, FirstAction, Refusal;
  }

  lemma StepReturnsDeadline(c: Config, s: State, call: Call)
    requires Inv(c, s) && call.StepCall?
    ensures var o := Apply(c, s, call);
            o.t.nextDeadline == if IsRejectedStart(call, o.t) then None else o.s.deadline
  {
    hide Apply, Has, Inv;
    var e := EffectOf(c, s, call);
    var o := Apply(c, s, call);
    if e.Begins? {
      BeginShows(c, s, call, o);
      BeginReturnsDeadline(c, s, call, o);
    } else if Sends(e) {
      SendShows(c, s, call, o, e);
      SendMoves(c, s, call, o, e);
    } else {
      EndReturnsDeadline(c, s, call, o, e);
    }
  }

  /**
   * In every run an operation is in flight exactly when a deadline is armed, that deadline is the
   * newest one handed out, and every step returns it; the one exception is a rejected Start, which
   * returns none.
   */
  lemma StepsReturnTheNewestDeadline(c: Config, calls: seq<Call>, i: nat)
    requires i < |calls| && calls[i].StepCall?
    ensures var s := Exec(c, calls[..i + 1]);
            var w := Observe(c, calls[..i + 1]);
            var t := Output(c, calls, i);
            && (s.pending.Some? <==> s.deadline.Some?)
            && (s.deadline.Some? ==> w.timers != [] && s.deadline.value == w.timers[|w.timers| - 1])
            && t.nextDeadline == if IsRejectedStart(calls[i], t) then None else s.deadline
  {
    RunAgrees(c, calls[..i + 1]);
    Reachable(c, calls[..i]);
    assert calls[..i + 1][..i] == calls[..i];
    hide Apply, WatchStep, Inv;
    StepReturnsDeadline(c, Exec(c, calls[..i]), calls[i]);
    Reachable(c, calls[..i + 1]);
    PendingIffArmed(c, Exec(c, calls[..i + 1]));
  }

  lemma PendingIffArmed(c: Config, s: State)
    requires Inv(c, s)
    ensures s.pending.Some? <==> s.deadline.Some?
  {
  }

  /**
   * An expiry report ends the operation in flight exactly when it names the newest deadline handed
   * out and that deadline has passed; a report of any of the older ones changes nothing.
   */
  lemma OnlyTheNewestDeadlineFires(c: Config, calls: seq<Call>, k: nat, now: Instant)
    requires k < |Observe(c, calls).timers| <= U64_LIMIT
    ensures var s := Exec(c, calls);
            var timers := Observe(c, calls).timers;
            var o := Apply(c, s, StepCall(now, DeadlineExpired(timers[k].id)));
            if s.pending.Some? && k == |timers| - 1 && timers[k].expiresAt <= now
            then
              && o.s.pending.None? && o.s.needsRecovery && o.s.card == s.card
              && o.t.actions == [CancelTransfers, Complete(s.pending.value.id, Err(Timeout))]
            else o.s == s && o.t.actions == []
  {
    RunAgrees(c, calls);
    hide Exec, Observe, CurrentAgrees, SequencesAgree, FlightOk;
    var timers := Observe(c, calls).timers;
    assert timers[k].id == (k + 1) % U64_LIMIT;
    assert timers[|timers| - 1].id == |timers| % U64_LIMIT;
  }

  // ---- How late an operation can be due ----

  /** The continuations a split command has been granted. */
  function Continuations(r: InFlight): nat {
    if r.frames == [] then 0 else |r.frames| - 1
  }

  /** The driver hands over no Bulk-IN reply after the deadline it was given. */
  predicate Timely(c: Config, calls: seq<Call>) {
    forall i: nat :: i < |calls| && IsBulkIn(calls[i]) && Exec(c, calls[..i]).deadline.Some? ==>
      calls[i].now <= Exec(c, calls[..i]).deadline.value.expiresAt
  }

  predicate DueInTime(s: State, w: Watch, timely: bool) {
    s.pending.Some? && s.deadline.Some? && w.current.Some? && (timely || Continuations(w.current.value) == 0) ==>
      s.deadline.value.expiresAt <=
        w.current.value.since + MAX_TIME_EXTENSION_WALL_MS + DEFAULT_TIMEOUT_MS * Continuations(w.current.value)
  }

  lemma DueBegin(c: Config, s: State, w: Watch, call: Call, o: Outcome)
    requires Has(c, s, call, o, Begins)
    ensures DueInTime(o.s, WatchStep(c, w, call, o.t), false) && DueInTime(o.s, WatchStep(c, w, call, o.t), true)
  {
    hide NewFlight, FirstFrame, Refusal, SequencesIn, DecodeResponse;
    BeginShows(c, s, call, o);
  }

  lemma DueEnd(c: Config, s: State, w: Watch, call: Call, o: Outcome, e: Effect, timely: bool)
    requires CurrentAgrees(c, s, w) && DueInTime(s, w, timely) && Has(c, s, call, o, e) && !Sends(e) && !e.Begins?
    ensures DueInTime(o.s, WatchStep(c, w, call, o.t), timely)
  {
    hide SequencesIn, ReplyIn, Answers, Refusal, CardMoves, ErrorAnswer, FramesAgree, DecodeResponse;
    EndShows(c, s, call, o, e);
    if e.Quiet? && w.current.Some? {
      assert w.current.value.frames + DataFramesIn(o.t) == w.current.value.frames;
    }
  }

  lemma DueSend(c: Config, s: State, w: Watch, call: Call, o: Outcome, e: Effect, timely: bool)
    requires Agrees(c, s, w) && DueInTime(s, w, timely) && Has(c, s, call, o, e) && Sends(e)
    requires timely && IsBulkIn(call) ==> call.now <= s.deadline.value.expiresAt
    ensures DueInTime(o.s, WatchStep(c, w, call, o.t), timely)
  {
    hide SequencesIn, FramesAgree, Counting, Numbered, OctetsIn, Has, DataFramesIn, FlightOk;
    SendMoves(c, s, call, o, e);
    SendShows(c, s, call, o, e);
    SentFrames(c, s, call, o, e);
    SendBound(c, s, call, o, e);
    if e.Continues? {
      SplitHasFrames(c, s, w);
    }
    var r := w.current.value;
    assert |r.frames + DataFramesIn(o.t)| == |r.frames| + (if e.Continues? then 1 else 0);
  }

  lemma SendBound(c: Config, s: State, call: Call, o: Outcome, e: Effect)
    requires Has(c, s, call, o, e) && Sends(e)
    ensures e.Extends? ==> e.until <= s.flight.startedAt + MAX_TIME_EXTENSION_WALL_MS
    ensures e.Continues? ==> IsBulkIn(call)
  {
    hide ReplyIn, SendBlock, OnContinuation;
  }

  lemma SplitHasFrames(c: Config, s: State, w: Watch)
    requires CurrentAgrees(c, s, w) && w.current.Some? && s.flight.outgoing != []
    ensures w.current.value.frames != []
  {
  }

  lemma {:induction false} DueInRun(c: Config, calls: seq<Call>, timely: bool)
    requires timely ==> Timely(c, calls)
    ensures DueInTime(Exec(c, calls), Observe(c, calls), timely)
  {
    hide Apply, WatchStep, Has, DueInTime, Agrees;
    if calls == [] {
      DueInitially(timely);
    } else {
      var n := |calls| - 1;
      assert forall i: nat :: i < n ==> calls[..n][..i] == calls[..i] && calls[..n][i] == calls[i];
      DueInRun(c, calls[..n], timely);
      RunAgrees(c, calls[..n]);
      DueStep(c, Exec(c, calls[..n]), Observe(c, calls[..n]), calls[n], timely);
    }
  }

  lemma DueInitially(timely: bool)
    ensures DueInTime(Initial, Watch([], [], [], None, None), timely)
  {
  }

  lemma DueStep(c: Config, s: State, w: Watch, call: Call, timely: bool)
    requires Agrees(c, s, w) && DueInTime(s, w, timely)
    requires timely && IsBulkIn(call) && s.deadline.Some? ==> call.now <= s.deadline.value.expiresAt
    ensures DueInTime(Apply(c, s, call).s, WatchStep(c, w, call, Apply(c, s, call).t), timely)
  {
    hide Apply, WatchStep, Has, DueInTime, SequencesAgree, TimersAgree, LengthAgrees, ControlAgrees, FramesAgree,
         FlightOk;
    var e := EffectOf(c, s, call);
    var o := Apply(c, s, call);
    if e.Begins? {
      DueBegin(c, s, w, call, o);
    } else if Sends(e) {
      SendMoves(c, s, call, o, e);
      DueSend(c, s, w, call, o, e, timely);
    } else {
      DueEnd(c, s, w, call, o, e, timely);
    }
  }

  /**
   * An operation that was granted no continuation is due within 10 000 ms of its Start, whatever the
   * driver does. With a timely driver a split command is due within 10 000 ms plus 5 000 ms for each
   * continuation, of which there are fewer than its data has chunks.
   */
  lemma OperationsAreDueInTime(c: Config, calls: seq<Call>)
    requires Exec(c, calls).pending.Some?
    ensures var s := Exec(c, calls);
            && Observe(c, calls).current.Some? && s.deadline.Some?
            && var r := Observe(c, calls).current.value;
               && (Continuations(r) == 0 ==> s.deadline.value.expiresAt <= r.since + MAX_TIME_EXTENSION_WALL_MS)
               && (Timely(c, calls) ==>
                     s.deadline.value.expiresAt <=
                       r.since + MAX_TIME_EXTENSION_WALL_MS + DEFAULT_TIMEOUT_MS * Continuations(r))
               && (if IsSplit(c, r.op) then Continuations(r) < |Chunks(r.op.data, c.maxPayloadLength)|
                   else Continuations(r) == 0)
  {
    RunAgrees(c, calls);
    DueInRun(c, calls, false);
    if Timely(c, calls) {
      DueInRun(c, calls, true);
    }
    hide Exec, Observe, Timely, FirstFrame;
  }

  // ---- Sequence numbers ----

  /** The frame carries the number of one of the 255 allocations before the last. */
  predicate IsStale(w: Watch, k: nat, frame: seq<byte>) {
    k + 1 < |w.sequences| <= k + 256 && 6 < |frame| && frame[6] == w.sequences[k]
  }

  /**
   * A Bulk-IN frame that carries the sequence number of any of the 255 allocations before the last
   * neither answers the operation in flight with Ok nor changes what the engine believes of the card.
   */
  lemma StaleReplyIsHarmless(c: Config, calls: seq<Call>, k: nat, frame: seq<byte>, now: Instant)
    requires IsStale(Observe(c, calls), k, frame)
    ensures var o := Apply(c, Exec(c, calls), StepCall(now, IoCompleted(BulkIn(frame))));
            && o.s.card == Exec(c, calls).card
            && forall a :: a in o.t.actions && a.Complete? ==> a.result.Err?
  {
    RunAgrees(c, calls);
    hide Exec, Observe, CurrentAgrees, TimersAgree, FlightOk, OnDataBlock, OnSlotStatus, OnParameters,
         OnTimeExtension, OnInterrupt, OnStart;
    var s, w := Exec(c, calls), Observe(c, calls);
    assert w.sequences[k] == k % 256 && w.sequences[|w.sequences| - 1] == (|w.sequences| - 1) % 256;
    if s.pending.Some? {
      assert DecodeResponse(frame, s.flight.expectedType, c.slot, s.flight.expectedSeq).Err?;
    }
  }

  // ---- Bulk-OUT completions ----

  /**
   * A completed write counts as short exactly when it differs in length from the last Bulk-OUT frame
   * submitted; a full write only asks for the reply.
   */
  lemma WritesAreMeasuredAgainstTheLastFrame(c: Config, calls: seq<Call>, transferred: nat, now: Instant)
    ensures var s := Exec(c, calls);
            var sent := |Observe(c, calls).lastFrame|;
            var o := Apply(c, s, StepCall(now, IoCompleted(BulkOut(transferred))));
            if transferred == sent then o.s == s && |o.t.actions| == 1 && o.t.actions[0].SubmitBulkIn?
            else if s.pending.None? then o.s == s && o.t.actions == []
            else
              && o.s.pending.None? && o.s.needsRecovery && o.s.card == s.card
              && o.t.actions == [CancelTransfers, Complete(s.pending.value.id, Err(Io(ShortWrite(sent, transferred))))]
  {
    RunAgrees(c, calls);
    hide Exec, Observe, CurrentAgrees, TimersAgree, SequencesAgree, FlightOk, OnBulkIn, OnInterrupt, OnStart;
  }

  // ---- Time extensions (section 6.2.6) ----

  /** The waiting unit the caller last set, one second until then. */
  function UnitOf(calls: seq<Call>): nat {
    if calls == [] then 1000
    else if calls[|calls| - 1].SetWaitingUnit? then Max(calls[|calls| - 1].ms, 1)
    else UnitOf(calls[..|calls| - 1])
  }

  function Max(a: nat, b: nat): nat {
    if a < b then b else a
  }

  lemma OtherCallSetsUnit(c: Config, s: State, call: Call)
    requires !IsBulkIn(call)
    ensures Apply(c, s, call).s.waitingUnitMs == if call.SetWaitingUnit? then Max(call.ms, 1) else s.waitingUnitMs
  {
    hide DecodeSlotChange, DecodeHardwareError, NewFlight, FirstAction, Refusal, OnBulkIn, EncodeAbort;
  }

  lemma {:induction false} UnitIsTheCallers(c: Config, calls: seq<Call>)
    ensures Exec(c, calls).waitingUnitMs == UnitOf(calls)
  {
    hide Apply;
    if calls != [] {
      var n := |calls| - 1;
      UnitIsTheCallers(c, calls[..n]);
      if IsBulkIn(calls[n]) {
        ReplyKeepsSettings(c, Exec(c, calls[..n]), calls[n]);
      } else {
        OtherCallSetsUnit(c, Exec(c, calls[..n]), calls[n]);
      }
    }
  }

  /** What becomes of an operation, `granted` extensions old, whose reader asks for time until `until`. */
  predicate Extended(s: State, o: Outcome, id: nat, granted: nat, since: nat, until: nat) {
    if granted < MAX_TIME_EXTENSIONS && until <= since + MAX_TIME_EXTENSION_WALL_MS
    then
      && o.s.pending == s.pending && o.s.deadline.Some? && o.s.deadline.value.expiresAt == until
      && |o.t.actions| == 1 && o.t.actions[0].SubmitBulkIn?
    else o.s.pending.None? && o.t.actions == [CancelTransfers, Complete(id, Err(Timeout))]
  }

  function Until(now: Instant, multiplier: byte, unit: nat): nat {
    var until := now + multiplier * unit;
    if until <= 0xFFFF_FFFF_FFFF_FFFF then until else 0xFFFF_FFFF_FFFF_FFFF
  }

  lemma ExtensionStep(c: Config, s: State, call: Call)
    requires IsBulkIn(call) && s.pending.Some? && ReplyIn(c, s, call).Ok? && ReplyIn(c, s, call).value.TimeExtension?
    ensures Extended(s, Apply(c, s, call), s.pending.value.id, s.flight.wtxCount, s.flight.startedAt,
                     Until(call.now, ReplyIn(c, s, call).value.multiplier, s.waitingUnitMs))
  {
    hide DecodeResponse, OnInterrupt, OnStart;
  }

  /**
   * A time extension the reader asks for is its multiplier times the waiting unit the caller last set,
   * from now; it is granted, and the reply asked for again, exactly when it is among the first sixty
   * and ends within 10 000 ms of the operation's Start. Otherwise the operation times out.
   */
  lemma ExtensionIsWhatWasAsked(c: Config, calls: seq<Call>, now: Instant, frame: seq<byte>)
    requires Observe(c, calls).current.Some?
    requires var reply := ReplySeen(c, Observe(c, calls), frame); reply.Ok? && reply.value.TimeExtension?
    ensures var s, w := Exec(c, calls), Observe(c, calls);
            var r := w.current.value;
            Extended(s, Apply(c, s, StepCall(now, IoCompleted(BulkIn(frame)))), r.id, r.extensions, r.since,
                     Until(now, ReplySeen(c, w, frame).value.multiplier, UnitOf(calls)))
  {
    hide Apply, Exec, Observe, DecodeResponse, FramesAgree, Numbered, Counting, Extended, Until;
    RunAgrees(c, calls);
    UnitIsTheCallers(c, calls);
    var s, w := Exec(c, calls), Observe(c, calls);
    ExtensionStep(c, s, StepCall(now, IoCompleted(BulkIn(frame))));
  }
}
