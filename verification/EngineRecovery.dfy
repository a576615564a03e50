/** The gate a desynchronised CCID slot engine closes until the reader acknowledges an abort. */
module EngineRecovery {
  import opened Wrappers
  import opened Codec
  import opened EngineModel
  import opened EngineEffects
  import opened EngineRuns
  import opened EngineWatch
  import opened EngineFrames
  import opened EngineAnswers

  // ---- Recovery after a desynchronised exchange (section 5.3.1) ----

  /** The reader's acknowledgement of an abort in flight. */
  predicate Acknowledges(c: Config, w: Watch, call: Call) {
    && w.current.Some? && w.current.value.op.Abort? && IsBulkIn(call)
    && ReplySeen(c, w, call.event.io.frame).Ok? && ReplySeen(c, w, call.event.io.frame).value.SlotStatus?
  }

  /** What the gate lets through: the frame of the abort whose control request went out last, and no start but Abort. */
  predicate Gated(c: Config, w: Watch, call: Call, t: Transition) {
    && (forall a :: a in t.actions && a.SubmitBulkOut? ==>
          && w.lastControl.Some?
          && a.sequence == w.lastControl.value / 256
          && a.frame == EncodeAbort(c.slot, a.sequence))
    && (call.StepCall? && call.event.Start? && !call.event.op.Abort? ==>
          |t.actions| == 1 && IsError(t.actions[0], call.event.id))
  }

  lemma GateHolds(c: Config, s: State, w: Watch, call: Call)
    requires Agrees(c, s, w) && s.needsRecovery
    ensures Gated(c, w, call, Apply(c, s, call).t)
  {
    hide Apply, Has, EncodeAbort, WatchStep, FramesAgree, Numbered, Counting;
    var o := Apply(c, s, call);
    var e := EffectOf(c, s, call);
    if call.StepCall? && call.event.Start? && !call.event.op.Abort? {
      RecoveryRefusesStart(c, s, call);
    }
    forall a | a in o.t.actions && a.SubmitBulkOut?
      ensures w.lastControl.Some? && a.sequence == w.lastControl.value / 256
      ensures a.frame == EncodeAbort(c.slot, a.sequence)
    {
      var k :| 0 <= k < |o.t.actions| && o.t.actions[k] == a;
      SubmissionsComeAlone(c, s, call, k);
      assert FrameOf(o.t) == Some(a.frame);
      RecoveryFrame(c, s, call, o, e);
    }
  }

  lemma RecoveryRefusesStart(c: Config, s: State, call: Call)
    requires s.needsRecovery && call.StepCall? && call.event.Start? && !call.event.op.Abort?
    ensures var actions := Apply(c, s, call).t.actions; |actions| == 1 && IsError(actions[0], call.event.id)
  {
    hide Begun, OnInterrupt, OnBulkIn;
    assert Apply(c, s, call).t.actions == [Complete(call.event.id, Err(Refusal(c, s, call.event.op).value))];
  }

  lemma RecoveryFrame(c: Config, s: State, call: Call, o: Outcome, e: Effect)
    requires Inv(c, s) && s.needsRecovery && Has(c, s, call, o, e) && FrameOf(o.t).Some?
    ensures s.pending.Some? && s.pending.value.kind.Aborting?
    ensures o.t.actions == [SubmitBulkOut(s.flight.expectedSeq, EncodeAbort(c.slot, s.flight.expectedSeq))]
  {
    hide Has, EncodeAbort;
    if e.Begins? {
      BeginShows(c, s, call, o);
      BeginIsAccepted(c, s, call, o);
      assert false;
    } else if Sends(e) {
      SendMoves(c, s, call, o, e);
      SendShows(c, s, call, o, e);
      AbortTakesNoBlocks(c, s, call, o, e);
      AbortFrameActions(c, s, call, o);
    } else {
      EndShows(c, s, call, o, e);
      assert false;
    }
  }

  lemma AbortFrameActions(c: Config, s: State, call: Call, o: Outcome)
    requires Has(c, s, call, o, SendsAbort)
    ensures o.t.actions == [SubmitBulkOut(s.flight.expectedSeq, EncodeAbort(c.slot, s.flight.expectedSeq))]
  {
    hide EncodeAbort;
  }

  /** Only an acknowledged abort lifts the gate, and it does. */
  lemma GateLifts(c: Config, s: State, w: Watch, call: Call)
    requires Agrees(c, s, w) && s.needsRecovery
    ensures Apply(c, s, call).s.needsRecovery <==> !Acknowledges(c, w, call)
  {
    hide Apply, Has, FramesAgree, Numbered, Counting, ReplySeen;
    var o := Apply(c, s, call);
    var e := EffectOf(c, s, call);
    if e.Begins? {
      BeginKeepsGate(c, s, call, o);
    } else if Sends(e) {
      SendMoves(c, s, call, o, e);
      SendIsNoAcknowledgement(c, s, w, call, o, e);
    } else {
      EndLifts(c, s, w, call, o, e);
    }
    if Acknowledges(c, w, call) {
      AcknowledgementLifts(c, s, w, call);
    }
  }

  lemma BeginKeepsGate(c: Config, s: State, call: Call, o: Outcome)
    requires Has(c, s, call, o, Begins) && s.needsRecovery
    ensures o.s.needsRecovery && !IsBulkIn(call)
  {
    hide NewFlight, FirstAction, Refusal;
  }

  lemma SendIsNoAcknowledgement(c: Config, s: State, w: Watch, call: Call, o: Outcome, e: Effect)
    requires Agrees(c, s, w) && Has(c, s, call, o, e) && Sends(e)
    ensures !Acknowledges(c, w, call)
  {
    hide DecodeResponse, FramesAgree, Numbered, Counting, SendBlock, OnContinuation;
  }

  lemma EndLifts(c: Config, s: State, w: Watch, call: Call, o: Outcome, e: Effect)
    requires Agrees(c, s, w) && s.needsRecovery && Has(c, s, call, o, e) && !Sends(e) && !e.Begins?
    ensures o.s.needsRecovery || Acknowledges(c, w, call)
  {
    hide DecodeResponse, FramesAgree, Numbered, Counting, CardMoves, Refusal;
  }

  lemma AcknowledgementLifts(c: Config, s: State, w: Watch, call: Call)
    requires Agrees(c, s, w) && Acknowledges(c, w, call)
    ensures !Apply(c, s, call).s.needsRecovery
  {
    hide DecodeResponse, FramesAgree, Numbered, Counting, OnDataBlock, OnInterrupt, OnStart, OnParameters,
         OnTimeExtension;
    assert ReplyIn(c, s, call) == ReplySeen(c, w, call.event.io.frame);
  }

  /** From `calls` on, no call of `more` acknowledges an abort. */
  predicate Unacknowledged(c: Config, calls: seq<Call>, more: seq<Call>) {
    forall k: nat :: k < |more| ==> !Acknowledges(c, Observe(c, calls + more[..k]), more[k])
  }

  /**
   * The recovery gate: once a run needs recovery, and until the reader acknowledges an abort, it
   * keeps needing it, every Bulk-OUT frame is the Abort frame whose sequence is that of the control
   * request before it, and every Start other than Abort is answered with an error.
   */
  lemma {:induction false} RecoveryGate(c: Config, calls: seq<Call>, more: seq<Call>)
    requires Exec(c, calls).needsRecovery && Unacknowledged(c, calls, more)
    ensures Exec(c, calls + more).needsRecovery
    ensures forall k: nat :: k < |more| ==>
              && Exec(c, calls + more[..k]).needsRecovery
              && Gated(c, Observe(c, calls + more[..k]), more[k], Apply(c, Exec(c, calls + more[..k]), more[k]).t)
  {
    hide Apply, Exec, Observe, Gated, Acknowledges, Agrees;
    if more == [] {
      assert calls + more == calls;
    } else {
      var n := |more| - 1;
      assert forall k: nat :: k <= n ==> more[..n][..k] == more[..k];
      assert more[..n][..n] == more[..n];
      RecoveryGate(c, calls, more[..n]);
      var mid := calls + more[..n];
      RunAgrees(c, mid);
      GateHolds(c, Exec(c, mid), Observe(c, mid), more[n]);
      GateLifts(c, Exec(c, mid), Observe(c, mid), more[n]);
      assert calls + more == mid + [more[n]];
      ExecExtends(c, mid, more[n]);
      forall k: nat | k < |more|
        ensures Exec(c, calls + more[..k]).needsRecovery
        ensures Gated(c, Observe(c, calls + more[..k]), more[k], Apply(c, Exec(c, calls + more[..k]), more[k]).t)
      {
        if k < n {
          assert more[..n][k] == more[k];
        }
      }
    }
  }
}
