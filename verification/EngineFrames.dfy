/** Every frame the CCID slot engine sends, over every run of calls on a new engine. */
module EngineFrames {
  import opened Wrappers
  import opened Bytes
  import opened Codec
  import opened Descriptor
  import opened EngineModel
  import opened EngineEffects
  import opened EngineRuns
  import opened EngineWatch

  // ---- Command chaining (section 6.1.4) ----

  function Payloads(frames: seq<seq<byte>>): seq<byte>
    requires forall i :: 0 <= i < |frames| ==> HEADER_SIZE <= |frames[i]|
  {
    if frames == [] then [] else Payloads(frames[..|frames| - 1]) + frames[|frames| - 1][HEADER_SIZE..]
  }

  lemma {:induction false} ChunksConcat(data: seq<byte>, n: nat)
    requires n > 0
    ensures Concat(Chunks(data, n)) == data
  {
    hide Concat;
    if data == [] {
      ConcatNothing();
    } else if |data| <= n {
      ConcatNothing();
      ConcatCons(data, []);
      assert [data] + [] == [data];
    } else {
      ChunksConcat(data[n..], n);
      ConcatCons(data[..n], Chunks(data[n..], n));
    }
  }

  lemma ConcatNothing()
    ensures Concat([]) == []
  {
  }

  lemma {:induction false} PayloadsOfChunks(c: Config, op: Operation, frames: seq<seq<byte>>, chunks: seq<seq<byte>>)
    requires op.TransferBlock? && |frames| <= |chunks|
    requires forall i: nat :: i < |frames| ==> IsDataFrame(c, frames[i], op, chunks, i)
    ensures forall i :: 0 <= i < |frames| ==> HEADER_SIZE <= |frames[i]|
    ensures Payloads(frames) == Concat(chunks[..|frames|])
  {
    var k := |frames|;
    if k > 0 {
      PayloadsOfChunks(c, op, frames[..k - 1], chunks);
      assert IsDataFrame(c, frames[k - 1], op, chunks, k - 1);
      ConcatSplit(chunks[..k], k - 1);
      assert chunks[..k][..k - 1] == chunks[..k - 1] && chunks[..k][k - 1..] == [chunks[k - 1]];
      assert Concat([chunks[k - 1]]) == chunks[k - 1];
    }
  }

  /**
   * While a split command is in flight, the payloads of the frames sent for it followed by the
   * queued chunks are exactly the caller's data; the frames carry the caller's `bBWI` and the levels
   * BEGIN CONTINUE* END, with END on the frame that empties the queue and on no other.
   */
  lemma SplitCommandIsTheData(c: Config, calls: seq<Call>)
    requires Observe(c, calls).current.Some? && IsSplit(c, Observe(c, calls).current.value.op)
    ensures var r := Observe(c, calls).current.value;
            var queue := Exec(c, calls).flight.outgoing;
            && |r.frames| >= 1
            && (forall i :: 0 <= i < |r.frames| ==> HEADER_SIZE <= |r.frames[i]|)
            && Payloads(r.frames) + Concat(queue) == r.op.data
            && (forall i :: 0 <= i < |r.frames| ==>
                  && r.frames[i][7] == r.op.bwi
                  && FrameLevel(r.frames[i]) == (if i == 0 then LEVEL_BEGIN
                                                 else if i == |r.frames| - 1 && queue == [] then LEVEL_END
                                                 else LEVEL_CONTINUE))
  {
    RunAgrees(c, calls);
    hide Exec, Observe;
    var r := Observe(c, calls).current.value;
    var chunks := Chunks(r.op.data, c.maxPayloadLength);
    assert SplitAgrees(c, r.op, r.frames, Exec(c, calls).flight);
    PayloadsOfChunks(c, r.op, r.frames, chunks);
    ConcatSplit(chunks, |r.frames|);
    ChunksConcat(r.op.data, c.maxPayloadLength);
    assert |chunks| >= 2;
    forall i | 0 <= i < |r.frames|
      ensures IsDataFrame(c, r.frames[i], r.op, chunks, i)
    {
    }
  }

  lemma ChunksLeft(chunks: seq<seq<byte>>)
    requires forall i :: 0 <= i < |chunks| ==> 0 < |chunks[i]|
    ensures Concat(chunks) == [] <==> chunks == []
  {
    if chunks != [] {
      assert |chunks[0]| > 0;
    }
  }

  /**
   * The whole of a split command was sent exactly when as many frames went out as it has chunks;
   * nothing makes an answer wait for that.
   */
  lemma WholeCommandSent(c: Config, calls: seq<Call>)
    requires Observe(c, calls).current.Some? && IsSplit(c, Observe(c, calls).current.value.op)
    ensures var r := Observe(c, calls).current.value;
            && (forall i :: 0 <= i < |r.frames| ==> HEADER_SIZE <= |r.frames[i]|)
            && (Payloads(r.frames) == r.op.data <==> |r.frames| == |Chunks(r.op.data, c.maxPayloadLength)|)
            && (Payloads(r.frames) == r.op.data <==> Exec(c, calls).flight.outgoing == [])
  {
    SplitCommandIsTheData(c, calls);
    RunAgrees(c, calls);
    hide Exec, Observe, Payloads, Concat, Chunks;
    var r, queue := Observe(c, calls).current.value, Exec(c, calls).flight.outgoing;
    assert SplitAgrees(c, r.op, r.frames, Exec(c, calls).flight);
    ChunksAreSmall(r.op.data, c.maxPayloadLength);
    ChunksLeft(queue);
    assert |Payloads(r.frames)| + |Concat(queue)| == |r.op.data|;
  }

  // ---- Every Bulk-OUT frame fits the reader's message ----

  /** Nothing accompanies a Bulk-OUT frame or a control request, so the observer misses none. */
  lemma SubmissionsComeAlone(c: Config, s: State, call: Call, i: nat)
    requires Inv(c, s) && i < |Apply(c, s, call).t.actions|
    ensures var t := Apply(c, s, call).t;
            t.actions[i].SubmitBulkOut? || t.actions[i].SubmitControl? ==> t.actions == [t.actions[i]]
  {
    hide Apply, NewFlight, FirstFrame, ReplyIn, Answers, EncodeXfrBlock, Inv, CardMoves, Refusal, FirstAction;
    var e := EffectOf(c, s, call);
    if Sends(e) {
      SendIsSingle(c, s, call, Apply(c, s, call), e);
    }
  }

  lemma SendIsSingle(c: Config, s: State, call: Call, o: Outcome, e: Effect)
    requires Has(c, s, call, o, e) && Sends(e)
    ensures |o.t.actions| == 1
  {
    hide ReplyIn, EncodeXfrBlock;
  }

  predicate Fits(c: Config, frame: seq<byte>) {
    |frame| <= c.maxMessageLength
  }

  lemma FirstFrameFits(c: Config, s: State, op: Operation, sequence: byte)
    requires !op.Abort? && Refusal(c, s, op).None?
    requires 0 < c.maxPayloadLength <= c.maxMessageLength - HEADER_SIZE
    ensures var f := FirstFrame(c, op, sequence);
            && |f| >= HEADER_SIZE
            && (Fits(c, f) <==>
                f[0] != PC_TO_RDR_SET_PARAMETERS || HEADER_SIZE + T0_PARAMETER_LENGTH <= c.maxMessageLength)
  {
  }

  /**
   * Under any descriptor the parser accepts, every Bulk-OUT frame fits the reader's message length,
   * with one exception: the 15-octet SetParameters frame fits exactly when that length is at least 15.
   */
  lemma EveryFrameFits(bytes: seq<byte>, interfaceNumber: byte, slot: byte, calls: seq<Call>, i: nat)
    requires ParseFunctionalDescriptor(bytes).Ok? && i < |calls|
    ensures var c := ConfigOf(interfaceNumber, slot, ParseFunctionalDescriptor(bytes).value);
            forall a :: a in Output(c, calls, i).actions && a.SubmitBulkOut? ==>
              && |a.frame| >= HEADER_SIZE
              && (Fits(c, a.frame) <==>
                    a.frame[0] != PC_TO_RDR_SET_PARAMETERS || HEADER_SIZE + T0_PARAMETER_LENGTH <= c.maxMessageLength)
  {
    hide Apply, ParseFunctionalDescriptor, Exec, Inv, FirstFrame, EncodeXfrBlock, EncodeAbort, Refusal;
    AcceptedDescriptor(bytes);
    var c := ConfigOf(interfaceNumber, slot, ParseFunctionalDescriptor(bytes).value);
    var s, call := Exec(c, calls[..i]), calls[i];
    var t := Output(c, calls, i);
    Reachable(c, calls[..i]);
    forall a | a in t.actions && a.SubmitBulkOut?
      ensures |a.frame| >= HEADER_SIZE
      ensures Fits(c, a.frame) <==>
              a.frame[0] != PC_TO_RDR_SET_PARAMETERS || HEADER_SIZE + T0_PARAMETER_LENGTH <= c.maxMessageLength
    {
      var k :| 0 <= k < |t.actions| && t.actions[k] == a;
      SubmissionsComeAlone(c, s, call, k);
      assert FrameOf(t) == Some(a.frame);
      SubmittedFrameFits(c, s, call);
    }
  }

  lemma SubmittedFrameFits(c: Config, s: State, call: Call)
    requires Inv(c, s) && FrameOf(Apply(c, s, call).t).Some?
    requires 0 < c.maxPayloadLength <= c.maxMessageLength - HEADER_SIZE
    ensures var f := FrameOf(Apply(c, s, call).t).value;
            && |f| >= HEADER_SIZE
            && (Fits(c, f) <==>
                f[0] != PC_TO_RDR_SET_PARAMETERS || HEADER_SIZE + T0_PARAMETER_LENGTH <= c.maxMessageLength)
  {
    hide Apply, Has, FirstFrame;
    var o := Apply(c, s, call);
    var e := EffectOf(c, s, call);
    if e.Begins? {
      BeginShows(c, s, call, o);
      BeginIsAccepted(c, s, call, o);
      FirstFrameFits(c, s, call.event.op, s.nextSeq);
    } else if Sends(e) {
      SendShows(c, s, call, o, e);
      SendMoves(c, s, call, o, e);
    } else {
      EndShows(c, s, call, o, e);
    }
  }

  lemma BeginIsAccepted(c: Config, s: State, call: Call, o: Outcome)
    requires Has(c, s, call, o, Begins)
    ensures call.StepCall? && call.event.Start? && Refusal(c, s, call.event.op).None?
  {
    hide Begun, Refusal;
  }

  // ---- Reads ----

  predicate WholeMessage(c: Config, a: Action) {
    a.SubmitBulkIn? ==> a.bufferSize >= HEADER_SIZE && a.bufferSize >= c.maxMessageLength
                        && (a.bufferSize == HEADER_SIZE || a.bufferSize == c.maxMessageLength)
  }

  lemma ReplyReadsWhole(c: Config, s: State, call: Call)
    requires IsBulkIn(call)
    ensures forall a :: a in Apply(c, s, call).t.actions ==> WholeMessage(c, a)
  {
    hide DecodeResponse, EncodeXfrBlock, OnInterrupt, OnStart;
  }

  /**
   * Every read the engine asks for has room for a header and for the longest message of the reader,
   * and for no more.
   */
  lemma ReadsAskForAWholeMessage(c: Config, s: State, call: Call)
    ensures forall a :: a in Apply(c, s, call).t.actions ==> WholeMessage(c, a)
  {
    if IsBulkIn(call) {
      hide Apply;
      ReplyReadsWhole(c, s, call);
    } else {
      hide OnBulkIn, DecodeSlotChange, DecodeHardwareError, FirstFrame, NewFlight, Refusal, EncodeAbort;
    }
  }
}
