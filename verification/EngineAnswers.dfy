/** Every answer the CCID slot engine gives, and when it must come. */
module EngineAnswers {
  import opened Wrappers
  import opened Bytes
  import opened CcidErrors
  import opened Codec
  import opened EngineModel
  import opened EngineEffects
  import opened EngineRuns
  import opened EngineWatch
  import opened EngineFrames

  // ---- Answers (sections 6.2.1 to 6.2.3) ----

  /** The reply the observer decodes from a Bulk-IN frame, for the operation it saw start. */
  function ReplySeen(c: Config, w: Watch, frame: seq<byte>): Result<Response, CcidError>
    requires w.current.Some?
  {
    DecodeResponse(frame, ReplyType(w.current.value.op), c.slot, LastSequence(w))
  }

  /**
   * The Ok answer an operation is due: of its own kind, and for the operations that return card
   * data, all of `octets` and nothing else.
   */
  predicate RightAnswer(op: Operation, reply: Response, octets: seq<byte>, result: OperationResult) {
    match op
    case PowerOn(_) => result == PoweredOn(octets)
    case TransferBlock(_, _, _) => result == Transferred(octets)
    case Secure(_, _, _) => result == Secured(octets)
    case PowerOff => result == PoweredOff && reply.SlotStatus?
    case GetSlotStatus => reply.SlotStatus? && result == SlotStatusRead(!reply.card.NotPresent?)
    case GetParameters => reply.Parameters? && result == ParametersRead(reply.payload)
    case SetParametersT0(_, _, _, _, _) => result == ParametersSet && reply.Parameters?
    case Abort => result == Aborted && reply.SlotStatus?
  }

  lemma SuccessIsOnly(c: Config, s: State, call: Call, o: Outcome, e: Effect, k: nat)
    requires Has(c, s, call, o, e) && k < |o.t.actions| && o.t.actions[k].Complete? && o.t.actions[k].result.Ok?
    ensures e == Succeeds(o.t.actions[k].result.value)
  {
    if Sends(e) {
      hide Has;
      assert HasAnswer(o.t);
      SendShows(c, s, call, o, e);
      assert false;
    } else if e.Begins? {
      hide Has;
      assert HasAnswer(o.t);
      BeginShows(c, s, call, o);
      assert false;
    } else {
      EndingIsSuccess(c, s, call, o, e, k);
    }
  }

  lemma EndingIsSuccess(c: Config, s: State, call: Call, o: Outcome, e: Effect, k: nat)
    requires Has(c, s, call, o, e) && !Sends(e) && !e.Begins?
    requires k < |o.t.actions| && o.t.actions[k].Complete? && o.t.actions[k].result.Ok?
    ensures e == Succeeds(o.t.actions[k].result.value)
  {
    hide ReplyIn, Answers, Refusal, CardMoves;
  }

  /**
   * Every Ok answer of a run goes to the operation in flight, comes with a Bulk-IN reply addressed
   * to it, has that operation's kind, and carries exactly the response octets read for it since its
   * Start, in order, those of this reply last.
   */
  lemma OkAnswerIsWhatWasRead(c: Config, calls: seq<Call>, i: nat, k: nat)
    requires i < |calls| && k < |Output(c, calls, i).actions|
    requires Output(c, calls, i).actions[k].Complete? && Output(c, calls, i).actions[k].result.Ok?
    ensures var a := Output(c, calls, i).actions[k];
            var w := Observe(c, calls[..i]);
            && w.current.Some? && a.id == w.current.value.id && IsBulkIn(calls[i])
            && ReplySeen(c, w, calls[i].event.io.frame).Ok?
            && var reply := ReplySeen(c, w, calls[i].event.io.frame);
               RightAnswer(w.current.value.op, reply.value, w.current.value.received + ResponseOctets(reply),
                           a.result.value)
  {
    hide Apply, Exec, Observe, DecodeResponse, SequencesIn, FrameOf, WatchCurrent, Has, FramesAgree, Numbered, Counting;
    RunAgrees(c, calls[..i]);
    var s, w, call := Exec(c, calls[..i]), Observe(c, calls[..i]), calls[i];
    var o := Apply(c, s, call);
    var e := EffectOf(c, s, call);
    SuccessIsOnly(c, s, call, o, e, k);
    SuccessIsRight(c, s, w, call, o, e.result);
  }

  lemma SuccessIsRight(c: Config, s: State, w: Watch, call: Call, o: Outcome, result: OperationResult)
    requires Agrees(c, s, w) && Has(c, s, call, o, Succeeds(result))
    ensures w.current.Some? && IsBulkIn(call)
    ensures o.t.actions == [Complete(w.current.value.id, Ok(result))]
    ensures var reply := ReplySeen(c, w, call.event.io.frame);
            && reply.Ok?
            && RightAnswer(w.current.value.op, reply.value, w.current.value.received + ResponseOctets(reply), result)
  {
    hide DecodeResponse, FramesAgree, Numbered, Counting, CardMoves;
  }

  // ---- Replies run out (sections 6.2.1 and 6.2.6) ----

  /** What an operation in flight can still absorb before it must be answered. */
  function Measure(s: State): int {
    (MAX_TIME_EXTENSIONS - s.flight.wtxCount) + (MAX_ABORT_DRAIN_ATTEMPTS - s.flight.drainCount)
    + |s.flight.outgoing| + (MAX_RESPONSE_PAYLOAD - |s.flight.chainBuffer|)
  }

  /** A response block that opens or continues a chain without adding an octet to it. */
  predicate Stalls(c: Config, w: Watch, call: Call) {
    && IsBulkIn(call) && w.current.Some?
    && var reply := ReplySeen(c, w, call.event.io.frame);
       && reply.Ok? && reply.value.DataBlock? && !reply.value.card.NotPresent? && reply.value.payload == []
       && if w.current.value.received == [] then reply.value.chain.ChainBegin? else reply.value.chain.ChainContinue?
  }

  lemma StallGrows(c: Config, s: State, w: Watch, call: Call)
    requires Agrees(c, s, w) && Stalls(c, w, call)
    ensures Apply(c, s, call).s.pending.Some? && Measure(Apply(c, s, call).s) == Measure(s)
  {
    hide DecodeResponse, FramesAgree, Numbered, Counting, EncodeXfrBlock, OnInterrupt, OnStart;
    assert ReplyIn(c, s, call) == ReplySeen(c, w, call.event.io.frame);
    assert s.flight.chainBuffer + [] == s.flight.chainBuffer;
  }

  lemma GrowthWithoutOctetsStalls(c: Config, s: State, w: Watch, call: Call, o: Outcome)
    requires Agrees(c, s, w) && Has(c, s, call, o, Grows([]))
    ensures Stalls(c, w, call)
  {
    hide DecodeResponse, FramesAgree, Numbered, Counting, EncodeXfrBlock, SendBlock;
  }

  /** No call raises the measure of an operation it leaves in flight. */
  lemma MeasureFalls(c: Config, s: State, call: Call, o: Outcome, e: Effect)
    requires Inv(c, s) && Has(c, s, call, o, e) && s.pending.Some? && o.s.pending.Some?
    ensures Measure(o.s) <= Measure(s)
    ensures IsBulkIn(call) && e != Grows([]) ==> Measure(o.s) < Measure(s)
  {
    hide Has, FlightOk;
    if Sends(e) {
      SendMoves(c, s, call, o, e);
      if e.SendsAbort? {
        NotBulkIn(c, s, call, o);
      }
    } else if e.Begins? {
      BeginIsAccepted(c, s, call, o);
      assert false;
    } else {
      PendingUnmoved(c, s, call, o, e);
    }
  }

  lemma NotBulkIn(c: Config, s: State, call: Call, o: Outcome)
    requires Has(c, s, call, o, SendsAbort)
    ensures !IsBulkIn(call)
  {
  }

  lemma PendingUnmoved(c: Config, s: State, call: Call, o: Outcome, e: Effect)
    requires Has(c, s, call, o, e) && s.pending.Some? && o.s.pending.Some? && !Sends(e) && !e.Begins?
    ensures o.s.flight == s.flight && !IsBulkIn(call)
  {
    hide ReplyIn, Answers, Refusal, CardMoves;
  }

  /**
   * In every reachable state with an operation in flight, a Bulk-IN reply answers the operation or
   * strictly lowers the measure, except exactly when it is an empty block of a response chain.
   */
  lemma ReplyMakesProgress(c: Config, calls: seq<Call>, call: Call)
    requires Exec(c, calls).pending.Some? && IsBulkIn(call)
    ensures var s' := Apply(c, Exec(c, calls), call).s;
            (s'.pending.None? || Measure(s') < Measure(Exec(c, calls))) <==> !Stalls(c, Observe(c, calls), call)
  {
    hide Apply, Exec, Observe, Has, Stalls, FramesAgree, Numbered, Counting;
    RunAgrees(c, calls);
    var s, w := Exec(c, calls), Observe(c, calls);
    var o := Apply(c, s, call);
    var e := EffectOf(c, s, call);
    if o.s.pending.Some? {
      MeasureFalls(c, s, call, o, e);
      if e == Grows([]) {
        GrowthWithoutOctetsStalls(c, s, w, call, o);
      }
    }
    if Stalls(c, w, call) {
      StallGrows(c, s, w, call);
    }
  }

  /** The Bulk-IN replies of `more`, after the run `calls`, that are not empty chain blocks. */
  function UsefulReplies(c: Config, calls: seq<Call>, more: seq<Call>): nat {
    if more == [] then 0
    else
      var n := |more| - 1;
      UsefulReplies(c, calls, more[..n])
      + (if IsBulkIn(more[n]) && !Stalls(c, Observe(c, calls + more[..n]), more[n]) then 1 else 0)
  }

  predicate StaysInFlight(c: Config, calls: seq<Call>, more: seq<Call>) {
    forall k: nat :: k <= |more| ==> Exec(c, calls + more[..k]).pending.Some?
  }

  /**
   * An operation is answered after a bounded number of replies: while it stays in flight, however
   * the other calls interleave, each useful reply uses up one unit of what it can absorb.
   */
  lemma {:induction false} RepliesRunOut(c: Config, calls: seq<Call>, more: seq<Call>)
    requires StaysInFlight(c, calls, more)
    ensures UsefulReplies(c, calls, more) + Measure(Exec(c, calls + more)) <= Measure(Exec(c, calls))
    ensures UsefulReplies(c, calls, more) <=
            MAX_TIME_EXTENSIONS + MAX_ABORT_DRAIN_ATTEMPTS + MAX_RESPONSE_PAYLOAD + |Exec(c, calls).flight.outgoing|
  {
    hide Apply, Exec, Observe, Has, Stalls;
    Reachable(c, calls);
    assert calls + more[..0] == calls;
    assert calls + more[..|more|] == calls + more;
    if more == [] {
      assert calls + more == calls;
    } else {
      var n := |more| - 1;
      assert forall k: nat :: k <= n ==> more[..n][..k] == more[..k];
      RepliesRunOut(c, calls, more[..n]);
      var mid := calls + more[..n];
      assert calls + more == mid + [more[n]];
      ExecExtends(c, mid, more[n]);
      Reachable(c, mid);
      var e := EffectOf(c, Exec(c, mid), more[n]);
      MeasureFalls(c, Exec(c, mid), more[n], Apply(c, Exec(c, mid), more[n]), e);
      if IsBulkIn(more[n]) {
        ReplyMakesProgress(c, mid, more[n]);
      }
    }
    Reachable(c, calls + more);
  }

  // ---- Empty blocks hold an operation open for as long as the reader sends them ----

  function EmptyBegin(c: Config, sequence: byte): Call {
    var frame := ReaderFrame(DataBlock(Active, ChainBegin, []), RDR_TO_PC_DATA_BLOCK, c.slot, sequence);
    StepCall(0, IoCompleted(BulkIn(frame)))
  }

  function StallRun(c: Config, n: nat): seq<Call> {
    if n == 0 then [StepCall(0, Start(7, PowerOn(0)))] else StallRun(c, n - 1) + [EmptyBegin(c, (n - 1) % 256)]
  }

  predicate Stalled(s: State, n: nat) {
    && s.pending == Some(Pending(7, PoweringOn)) && s.deadline == Some(Deadline(1, DEFAULT_TIMEOUT_MS))
    && s.flight.chainBuffer == [] && s.flight.expectedType == RDR_TO_PC_DATA_BLOCK
    && s.flight.expectedSeq == n % 256 && s.nextSeq == (n + 1) % 256
  }

  lemma StallOnce(c: Config, s: State, n: nat)
    requires Stalled(s, n)
    ensures Stalled(Apply(c, s, EmptyBegin(c, n % 256)).s, n + 1)
  {
    hide DecodeResponse, EncodeXfrBlock, ReaderFrame;
    ReaderFrameDecodes(DataBlock(Active, ChainBegin, []), RDR_TO_PC_DATA_BLOCK, c.slot, n % 256);
  }

  /**
   * The exception is real: for every `n` there is a run in which `n` valid replies leave a PowerOn
   * unanswered. Only its deadline, which those replies do not move, can still end it.
   */
  lemma {:induction false} EmptyBlocksNeverAnswer(c: Config, n: nat)
    ensures |StallRun(c, n)| == n + 1
    ensures forall i: nat :: 1 <= i <= n ==> IsBulkIn(StallRun(c, n)[i])
    ensures Exec(c, StallRun(c, n)).pending == Some(Pending(7, PoweringOn))
    ensures Exec(c, StallRun(c, n)).deadline == Some(Deadline(1, DEFAULT_TIMEOUT_MS))
    ensures Stalled(Exec(c, StallRun(c, n)), n)
  {
    hide Apply, EmptyBegin;
    if n == 0 {
      StallStarts(c);
    } else {
      EmptyBlocksNeverAnswer(c, n - 1);
      var before := StallRun(c, n - 1);
      assert StallRun(c, n)[..n] == before && StallRun(c, n)[n] == EmptyBegin(c, (n - 1) % 256);
      StallOnce(c, Exec(c, before), n - 1);
      IsEmptyBegin(c, (n - 1) % 256);
    }
  }

  lemma StallStarts(c: Config)
    ensures Stalled(Exec(c, StallRun(c, 0)), 0)
  {
    hide FirstFrame;
    var calls := StallRun(c, 0);
    assert calls[..0] == [] && Exec(c, []) == Initial;
  }

  lemma IsEmptyBegin(c: Config, sequence: byte)
    ensures IsBulkIn(EmptyBegin(c, sequence))
  {
    hide ReaderFrame;
  }
}
