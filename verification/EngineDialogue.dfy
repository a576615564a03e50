/**
 * The slot engine talking to a conforming reader: every operation the engine accepts is answered
 * with Ok, with all the reader sent, once the reader has been told everything and has replied.
 */
module EngineDialogue {
  import opened Wrappers
  import opened Bytes
  import opened Codec
  import opened EngineModel
  import opened EngineEffects
  import opened EngineRuns
  import opened EngineWatch
  import opened EngineFrames
  import opened EngineAnswers

  // ---- One exchange ----

  predicate Framed(frame: seq<byte>) {
    HEADER_SIZE <= |frame|
  }

  /** The completion of the last write, in full. */
  function Written(c: Config, calls: seq<Call>, at: Instant): Call {
    StepCall(at, IoCompleted(BulkOut(|Observe(c, calls).lastFrame|)))
  }

  /** The reader's reply to a command frame: it echoes the slot and the sequence number it read there. */
  function Replied(frame: seq<byte>, at: Instant, r: Response, kind: byte): Call
    requires Framed(frame) && Expressible(r, kind)
  {
    StepCall(at, IoCompleted(BulkIn(ReaderFrame(r, kind, frame[5], frame[6]))))
  }

  /** The last frame is written and the reader replies to it. */
  function Exchange(c: Config, calls: seq<Call>, at: Instant, r: Response, kind: byte): seq<Call>
    requires Expressible(r, kind)
  {
    if !Framed(Observe(c, calls).lastFrame) then calls
    else calls + [Written(c, calls, at)] + [Replied(Observe(c, calls).lastFrame, at, r, kind)]
  }

  /** `op` is in flight under `id` and its last frame carries the sequence number the engine waits on. */
  predicate Listening(c: Config, calls: seq<Call>, id: nat, op: Operation) {
    var s, w := Exec(c, calls), Observe(c, calls);
    && s.pending == Some(Pending(id, KindOf(op)))
    && w.current.Some? && w.current.value.id == id && w.current.value.op == op
    && Framed(w.lastFrame) && w.lastFrame[5] == c.slot && w.lastFrame[6] == s.flight.expectedSeq
  }

  lemma ObserveExtends(c: Config, calls: seq<Call>, call: Call)
    ensures Observe(c, calls + [call]) ==
            WatchStep(c, Observe(c, calls), call, Apply(c, Exec(c, calls), call).t)
  {
    hide WatchStep, Exec, Apply;
    ExecExtends(c, calls, call);
    assert (calls + [call])[..|calls|] == calls;
  }

  /** A full write changes nothing but asks for the reply. */
  lemma WriteIsQuiet(c: Config, calls: seq<Call>, at: Instant)
    requires Observe(c, calls).current.Some?
    ensures Exec(c, calls + [Written(c, calls, at)]) == Exec(c, calls)
    ensures var w, w' := Observe(c, calls), Observe(c, calls + [Written(c, calls, at)]);
            w'.lastFrame == w.lastFrame && w'.current == w.current
  {
    hide Exec, Observe, Apply, FramesAgree, Numbered, Counting;
    RunAgrees(c, calls);
    var s, w, call := Exec(c, calls), Observe(c, calls), Written(c, calls, at);
    ExecExtends(c, calls, call);
    ObserveExtends(c, calls, call);
    FullWrite(c, s, call);
    var r := w.current.value;
    assert r.frames + [] == r.frames && r.received + [] == r.received;
  }

  lemma FullWrite(c: Config, s: State, call: Call)
    requires call.StepCall? && call.event.IoCompleted? && call.event.io.BulkOut?
    requires call.event.io.transferred == s.flight.expectedBulkOutLen
    ensures var o := Apply(c, s, call);
            o.s == s && !HasAnswer(o.t) && FrameOf(o.t).None? && ControlOf(o.t).None?
  {
    hide OnBulkIn, OnInterrupt, OnStart;
  }

  /** An exchange hands the engine exactly the reader's response. */
  lemma ExchangeReplies(c: Config, calls: seq<Call>, id: nat, op: Operation, at: Instant, r: Response)
    requires Listening(c, calls, id, op) && Expressible(r, ReplyType(op))
    ensures var s, after := Exec(c, calls), Exchange(c, calls, at, r, ReplyType(op));
            var o := OnReply(c, s, at, Pending(id, KindOf(op)), Ok(r));
            && |after| == |calls| + 2 && calls <= after
            && Exec(c, after) == o.s && Output(c, after, |after| - 1) == o.t
            && (!HasAnswer(o.t) ==>
                  var w := Observe(c, after);
                  && w.current.Some? && w.current.value.id == id && w.current.value.op == op
                  && w.lastFrame == if FrameOf(o.t).Some? then FrameOf(o.t).value else Observe(c, calls).lastFrame)
  {
    hide Exec, Observe, Apply, OnReply, FramesAgree, Numbered, Counting, ReaderFrame, DecodeResponse;
    var s, kind := Exec(c, calls), ReplyType(op);
    var frame := Observe(c, calls).lastFrame;
    var mid := calls + [Written(c, calls, at)];
    var reply := Replied(frame, at, r, kind);
    WriteIsQuiet(c, calls, at);
    RunAgrees(c, calls);
    ReaderFrameDecodes(r, kind, frame[5], frame[6]);
    ReplyApplies(c, s, reply, r);
    ExecExtends(c, mid, reply);
    ObserveExtends(c, mid, reply);
  }

  lemma ReplyApplies(c: Config, s: State, call: Call, r: Response)
    requires IsBulkIn(call) && s.pending.Some? && ReplyIn(c, s, call) == Ok(r)
    ensures Apply(c, s, call) == OnReply(c, s, call.now, s.pending.value, Ok(r))
  {
    hide OnReply, OnInterrupt, OnStart, DecodeResponse;
  }

  // ---- What the engine does with a conforming block ----

  /** Listening, with these chunks still to send and these octets read. */
  predicate Ready(c: Config, calls: seq<Call>, id: nat, op: Operation, queue: seq<seq<byte>>, buffer: seq<byte>) {
    && Listening(c, calls, id, op)
    && Exec(c, calls).flight.outgoing == queue && Exec(c, calls).flight.chainBuffer == buffer
  }

  predicate IsData(op: Operation) {
    op.PowerOn? || op.TransferBlock? || op.Secure?
  }

  /** The operation stays in flight and one more frame goes out, under a fresh sequence number. */
  predicate SendsOn(c: Config, s: State, o: Outcome, queue: seq<seq<byte>>, buffer: seq<byte>) {
    && o.s.pending == s.pending && o.s.flight.outgoing == queue && o.s.flight.chainBuffer == buffer
    && !HasAnswer(o.t) && FrameOf(o.t).Some?
    && var frame := FrameOf(o.t).value;
       Framed(frame) && frame[5] == c.slot && frame[6] == o.s.flight.expectedSeq
  }

  lemma ContinuationSendsOn(c: Config, s: State, at: Instant, card: CardStatus)
    requires s.pending.Some? && s.flight.outgoing != [] && !card.NotPresent?
    ensures SendsOn(c, s, OnReply(c, s, at, s.pending.value, Ok(DataBlock(card, CommandContinuationExpected, []))),
                    s.flight.outgoing[1..], s.flight.chainBuffer)
  {
    hide LengthField;
  }

  lemma BlockSendsOn(c: Config, s: State, at: Instant, card: CardStatus, payload: seq<byte>)
    requires s.pending.Some? && !card.NotPresent? && |s.flight.chainBuffer| + |payload| <= MAX_RESPONSE_PAYLOAD
    ensures var chain := if s.flight.chainBuffer == [] then ChainBegin else ChainContinue;
            SendsOn(c, s, OnReply(c, s, at, s.pending.value, Ok(DataBlock(card, chain, payload))),
                    s.flight.outgoing, s.flight.chainBuffer + payload)
  {
    hide LengthField;
  }

  lemma LastBlockDelivers(c: Config, s: State, at: Instant, card: CardStatus, payload: seq<byte>)
    requires s.pending.Some? && !card.NotPresent? && |s.flight.chainBuffer| + |payload| <= MAX_RESPONSE_PAYLOAD
    ensures var chain := if s.flight.chainBuffer == [] then ChainComplete else ChainEnd;
            var p := s.pending.value;
            OnReply(c, s, at, p, Ok(DataBlock(card, chain, payload))).t.actions ==
              [Complete(p.id, Ok(Delivered(p.kind, s.flight.chainBuffer + payload)))]
  {
    assert [] + payload == payload;
  }

  lemma ExchangeSendsOn(c: Config, calls: seq<Call>, id: nat, op: Operation, at: Instant, r: Response,
                        queue: seq<seq<byte>>, buffer: seq<byte>)
    requires Listening(c, calls, id, op) && Expressible(r, ReplyType(op))
    requires SendsOn(c, Exec(c, calls), OnReply(c, Exec(c, calls), at, Pending(id, KindOf(op)), Ok(r)), queue, buffer)
    ensures Ready(c, Exchange(c, calls, at, r, ReplyType(op)), id, op, queue, buffer)
  {
    hide Exec, Observe, OnReply, Exchange;
    ExchangeReplies(c, calls, id, op, at, r);
  }

  // ---- The rest of a split command ----

  /** The reader asks for one more block of the command at each of these moments. */
  function Prompted(c: Config, calls: seq<Call>, ats: seq<Instant>, card: CardStatus): seq<Call> {
    if ats == [] then calls
    else
      var n := |ats| - 1;
      Exchange(c, Prompted(c, calls, ats[..n], card), ats[n], DataBlock(card, CommandContinuationExpected, []),
               RDR_TO_PC_DATA_BLOCK)
  }

  lemma {:induction false} PromptsDrain(c: Config, calls: seq<Call>, ats: seq<Instant>, card: CardStatus, id: nat,
                                        op: Operation, queue: seq<seq<byte>>, buffer: seq<byte>)
    requires IsData(op) && Ready(c, calls, id, op, queue, buffer) && |ats| <= |queue| && !card.NotPresent?
    ensures Ready(c, Prompted(c, calls, ats, card), id, op, queue[|ats|..], buffer)
  {
    hide Exec, Observe, OnReply, Exchange, Listening;
    if ats != [] {
      var n := |ats| - 1;
      PromptsDrain(c, calls, ats[..n], card, id, op, queue, buffer);
      var before := Prompted(c, calls, ats[..n], card);
      PendingWhileListening(c, before, id, op);
      ContinuationSendsOn(c, Exec(c, before), ats[n], card);
      assert queue[n..][1..] == queue[n + 1..];
      ExchangeSendsOn(c, before, id, op, ats[n], DataBlock(card, CommandContinuationExpected, []),
                      queue[n + 1..], buffer);
    }
  }

  lemma PendingWhileListening(c: Config, calls: seq<Call>, id: nat, op: Operation)
    requires Listening(c, calls, id, op)
    ensures Exec(c, calls).pending == Some(Pending(id, KindOf(op)))
  {
    hide Exec, Observe;
  }

  // ---- The response ----

  /** Blocks a conforming reader can answer with: the first opens the chain, so it carries something. */
  predicate Conforming(blocks: seq<seq<byte>>) {
    blocks != [] && (|blocks| > 1 ==> blocks[0] != []) && |Concat(blocks)| <= MAX_RESPONSE_PAYLOAD
  }

  function ChainAt(blocks: seq<seq<byte>>, k: nat): ChainParameter {
    if |blocks| == 1 then ChainComplete
    else if k == 0 then ChainBegin
    else if k == |blocks| - 1 then ChainEnd
    else ChainContinue
  }

  lemma {:induction false} BlockIsSmall(blocks: seq<seq<byte>>, k: nat)
    requires k < |blocks|
    ensures |Concat(blocks[..k])| + |blocks[k]| <= |Concat(blocks)|
    ensures Concat(blocks[..k]) + blocks[k] == Concat(blocks[..k + 1])
    ensures k > 0 ==> |blocks[0]| <= |Concat(blocks[..k])|
  {
    ConcatSplit(blocks, k + 1);
    ConcatSplit(blocks[..k + 1], k);
    assert blocks[..k + 1][..k] == blocks[..k] && blocks[..k + 1][k..] == [blocks[k]];
    assert Concat([blocks[k]]) == blocks[k];
  }

  /** The reader sends the first `k` blocks of its response, one at each moment. */
  function Responded(c: Config, calls: seq<Call>, ats: seq<Instant>, card: CardStatus, blocks: seq<seq<byte>>,
                     k: nat): seq<Call>
    requires Conforming(blocks) && k <= |blocks| == |ats|
  {
    if k == 0 then calls
    else
      BlockIsSmall(blocks, k - 1);
      Exchange(c, Responded(c, calls, ats, card, blocks, k - 1), ats[k - 1],
               DataBlock(card, ChainAt(blocks, k - 1), blocks[k - 1]), RDR_TO_PC_DATA_BLOCK)
  }

  lemma {:induction false} ResponseGathers(c: Config, calls: seq<Call>, ats: seq<Instant>, card: CardStatus,
                                           blocks: seq<seq<byte>>, k: nat, id: nat, op: Operation)
    requires IsData(op) && Ready(c, calls, id, op, [], []) && !card.NotPresent?
    requires Conforming(blocks) && k < |blocks| == |ats|
    ensures Ready(c, Responded(c, calls, ats, card, blocks, k), id, op, [], Concat(blocks[..k]))
  {
    hide Exec, Observe, OnReply, Exchange, Listening, Concat;
    if k == 0 {
      ConcatNothing();
      assert blocks[..0] == [];
    } else {
      ResponseGathers(c, calls, ats, card, blocks, k - 1, id, op);
      var before := Responded(c, calls, ats, card, blocks, k - 1);
      PendingWhileListening(c, before, id, op);
      BlockIsSmall(blocks, k - 1);
      BlockSendsOn(c, Exec(c, before), ats[k - 1], card, blocks[k - 1]);
      ConcatNothing();
      assert k - 1 == 0 ==> blocks[..k - 1] == [];
      ExchangeSendsOn(c, before, id, op, ats[k - 1], DataBlock(card, ChainAt(blocks, k - 1), blocks[k - 1]),
                      [], Concat(blocks[..k]));
    }
  }

  lemma ResponseDelivers(c: Config, calls: seq<Call>, ats: seq<Instant>, card: CardStatus, blocks: seq<seq<byte>>,
                         id: nat, op: Operation)
    requires IsData(op) && Ready(c, calls, id, op, [], []) && !card.NotPresent?
    requires Conforming(blocks) && |blocks| == |ats|
    ensures var end := Responded(c, calls, ats, card, blocks, |blocks|);
            && |end| > 0
            && Output(c, end, |end| - 1).actions == [Complete(id, Ok(Delivered(KindOf(op), Concat(blocks))))]
  {
    hide Exec, Observe, OnReply, Exchange, Listening, Concat, Output;
    var k := |blocks| - 1;
    ResponseGathers(c, calls, ats, card, blocks, k, id, op);
    var before := Responded(c, calls, ats, card, blocks, k);
    PendingWhileListening(c, before, id, op);
    BlockIsSmall(blocks, k);
    ConcatNothing();
    assert blocks[..|blocks|] == blocks && (k == 0 ==> blocks[..k] == []);
    LastBlockDelivers(c, Exec(c, before), ats[k], card, blocks[k]);
    ExchangeReplies(c, before, id, op, ats[k], DataBlock(card, ChainAt(blocks, k), blocks[k]));
  }

  // ---- From Start to answer ----

  function Begin(calls: seq<Call>, at: Instant, id: nat, op: Operation): seq<Call> {
    calls + [StepCall(at, Start(id, op))]
  }

  lemma AcceptedStartListens(c: Config, calls: seq<Call>, at: Instant, id: nat, op: Operation)
    requires !op.Abort? && Refusal(c, Exec(c, calls), op).None?
    ensures Ready(c, Begin(calls, at, id, op), id, op, NewFlight(c, Exec(c, calls), at, op).outgoing, [])
  {
    hide Exec, Observe, Refusal, FirstFrame;
    var call := StepCall(at, Start(id, op));
    ExecExtends(c, calls, call);
    ObserveExtends(c, calls, call);
    FirstFrameShape(c, op, Exec(c, calls).nextSeq);
  }

  /** How often the reader must ask before a command is sent in full. */
  function Prompts(c: Config, op: Operation): nat {
    if IsSplit(c, op) then |Chunks(op.data[c.maxPayloadLength..], c.maxPayloadLength)| else 0
  }

  /**
   * Start a PowerOn, TransferBlock or Secure in any state that does not refuse it, and let a
   * conforming reader ask for each further block of the command and then reply with any blocks that
   * open with something and hold at most 65 538 octets, at any times. When the last request is
   * served the reader has all the caller's data, and the last block makes the engine answer the
   * operation with Ok and the concatenation of the blocks.
   */
  lemma ConversationDelivers(c: Config, calls: seq<Call>, at: Instant, id: nat, op: Operation, prompts: seq<Instant>,
                             ats: seq<Instant>, card: CardStatus, blocks: seq<seq<byte>>)
    requires IsData(op) && Refusal(c, Exec(c, calls), op).None? && !card.NotPresent?
    requires Conforming(blocks) && |blocks| == |ats| && |prompts| == Prompts(c, op)
    ensures var told := Prompted(c, Begin(calls, at, id, op), prompts, card);
            var end := Responded(c, told, ats, card, blocks, |blocks|);
            && Observe(c, told).current.Some? && Observe(c, told).current.value.op == op
            && Exec(c, told).flight.outgoing == []
            && (forall i :: 0 <= i < |Observe(c, told).current.value.frames| ==>
                  HEADER_SIZE <= |Observe(c, told).current.value.frames[i]|)
            && (!op.PowerOn? ==> Payloads(Observe(c, told).current.value.frames) == op.data)
            && |end| > 0
            && Output(c, end, |end| - 1).actions == [Complete(id, Ok(Delivered(KindOf(op), Concat(blocks))))]
  {
    hide Exec, Observe, Refusal, Exchange, Output, Concat;
    var begun := Begin(calls, at, id, op);
    AcceptedStartListens(c, calls, at, id, op);
    var queue := NewFlight(c, Exec(c, calls), at, op).outgoing;
    PromptsDrain(c, begun, prompts, card, id, op, queue, []);
    var told := Prompted(c, begun, prompts, card);
    assert queue[|prompts|..] == [];
    ResponseDelivers(c, told, ats, card, blocks, id, op);
    ToldFrames(c, told, op);
  }

  lemma ToldFrames(c: Config, calls: seq<Call>, op: Operation)
    requires IsData(op) && Observe(c, calls).current.Some? && Observe(c, calls).current.value.op == op
    requires Exec(c, calls).flight.outgoing == []
    ensures var frames := Observe(c, calls).current.value.frames;
            && (forall i :: 0 <= i < |frames| ==> HEADER_SIZE <= |frames[i]|)
            && (!op.PowerOn? ==> Payloads(frames) == op.data)
  {
    hide Exec, Observe, FirstFrame;
    if IsSplit(c, op) {
      WholeCommandSent(c, calls);
    } else {
      RunAgrees(c, calls);
      UnsplitFrames(c, op, Observe(c, calls).current.value.frames, Exec(c, calls).flight);
    }
  }

  lemma UnsplitFrames(c: Config, op: Operation, frames: seq<seq<byte>>, f: Flight)
    requires FramesAgree(c, op, frames, f) && !IsSplit(c, op) && IsData(op)
    ensures forall i :: 0 <= i < |frames| ==> HEADER_SIZE <= |frames[i]|
    ensures !op.PowerOn? ==> Payloads(frames) == op.data
  {
    var sequence :| frames == [FirstFrame(c, op, sequence)];
    hide LengthField;
    FirstFrameShape(c, op, sequence);
    assert frames[..0] == [] && Payloads(frames[..0]) == [];
    assert !op.PowerOn? ==> frames[0][HEADER_SIZE..] == op.data;
  }

  /**
   * Nothing makes the answer wait for the command: a reader that replies to the first block of a
   * split command with a complete response gets it answered with Ok, although chunks are queued and
   * the reader does not have the caller's data.
   */
  lemma AnswerBeforeTheCommand(c: Config, calls: seq<Call>, at: Instant, id: nat, op: Operation, at': Instant,
                               card: CardStatus, payload: seq<byte>)
    requires IsSplit(c, op) && Refusal(c, Exec(c, calls), op).None? && !card.NotPresent?
    requires |payload| <= MAX_RESPONSE_PAYLOAD
    ensures var begun := Begin(calls, at, id, op);
            var end := Exchange(c, begun, at', DataBlock(card, ChainComplete, payload), RDR_TO_PC_DATA_BLOCK);
            && Observe(c, begun).current.Some?
            && var frames := Observe(c, begun).current.value.frames;
               && (forall i :: 0 <= i < |frames| ==> HEADER_SIZE <= |frames[i]|)
               && Payloads(frames) != op.data
               && |end| > 0
               && Output(c, end, |end| - 1).actions == [Complete(id, Ok(Transferred(payload)))]
  {
    hide Exec, Observe, Refusal, Exchange, Output, Concat;
    var begun := Begin(calls, at, id, op);
    AcceptedStartListens(c, calls, at, id, op);
    WholeCommandSent(c, begun);
    LastBlockDelivers(c, Exec(c, begun), at', card, payload);
    assert [] + payload == payload;
    ExchangeReplies(c, begun, id, op, at', DataBlock(card, ChainComplete, payload));
  }

  // ---- Operations one reply answers ----

  /** The call the platform makes before the reader can see `op`: an abort begins with a control request. */
  function Opening(calls: seq<Call>, at: Instant, id: nat, op: Operation): seq<Call> {
    if op.Abort? then Begin(calls, at, id, op) + [StepCall(at, IoCompleted(Control))] else Begin(calls, at, id, op)
  }

  lemma AbortStarts(c: Config, s: State, at: Instant, id: nat)
    requires Refusal(c, s, Abort).None?
    ensures var o := Apply(c, s, StepCall(at, Start(id, Abort)));
            && o.s.pending == Some(Pending(id, Aborting)) && !HasAnswer(o.t)
  {
    hide Refusal, OnBulkIn, OnInterrupt;
  }

  lemma AbortIsFramed(c: Config, s: State, at: Instant)
    requires s.pending.Some? && s.pending.value.kind.Aborting?
    ensures var o := Apply(c, s, StepCall(at, IoCompleted(Control)));
            && o.s.pending == s.pending && o.s.flight.expectedSeq == s.flight.expectedSeq && !HasAnswer(o.t)
            && FrameOf(o.t) == Some(EncodeAbort(c.slot, s.flight.expectedSeq))
  {
    hide OnStart, OnBulkIn, OnInterrupt;
  }

  lemma AcceptedAbortListens(c: Config, calls: seq<Call>, at: Instant, id: nat)
    requires Refusal(c, Exec(c, calls), Abort).None?
    ensures Listening(c, Opening(calls, at, id, Abort), id, Abort)
  {
    hide Exec, Observe, Refusal, Apply;
    var start, control := StepCall(at, Start(id, Abort)), StepCall(at, IoCompleted(Control));
    var begun := calls + [start];
    AbortStarts(c, Exec(c, calls), at, id);
    ExecExtends(c, calls, start);
    ObserveExtends(c, calls, start);
    AbortIsFramed(c, Exec(c, begun), at);
    ExecExtends(c, begun, control);
    ObserveExtends(c, begun, control);
  }

  lemma StatusAnswers(c: Config, s: State, at: Instant, op: Operation, r: Response)
    requires s.pending.Some? && s.pending.value.kind == KindOf(op) && !IsData(op)
    requires (r.SlotStatus? || r.Parameters?) && Expressible(r, ReplyType(op))
    ensures var o := OnReply(c, s, at, s.pending.value, Ok(r));
            && |o.t.actions| == 1 && o.t.actions[0].Complete? && o.t.actions[0].id == s.pending.value.id
            && o.t.actions[0].result.Ok? && RightAnswer(op, r, [], o.t.actions[0].result.value)
  {
  }

  /**
   * Every other operation a state does not refuse is answered by the reader's one conforming reply,
   * with the answer due to it; an abort that is answered so ends the need for recovery.
   */
  lemma OneReplyAnswers(c: Config, calls: seq<Call>, at: Instant, id: nat, op: Operation, at': Instant, r: Response)
    requires !IsData(op) && Refusal(c, Exec(c, calls), op).None?
    requires (r.SlotStatus? || r.Parameters?) && Expressible(r, ReplyType(op))
    ensures var end := Exchange(c, Opening(calls, at, id, op), at', r, ReplyType(op));
            && (op.Abort? ==> !Exec(c, end).needsRecovery)
            && |end| > 0
            && var actions := Output(c, end, |end| - 1).actions;
               && |actions| == 1 && actions[0].Complete? && actions[0].id == id
               && actions[0].result.Ok? && RightAnswer(op, r, [], actions[0].result.value)
  {
    hide Exec, Observe, Refusal, Exchange, Output, Listening, RightAnswer;
    var ready := Opening(calls, at, id, op);
    if op.Abort? {
      AcceptedAbortListens(c, calls, at, id);
    } else {
      AcceptedStartListens(c, calls, at, id, op);
    }
    PendingWhileListening(c, ready, id, op);
    var s := Exec(c, ready);
    StatusAnswers(c, s, at', op, r);
    ExchangeReplies(c, ready, id, op, at', r);
    if op.Abort? {
      AbortReplyClears(c, s, at', r);
    }
  }

  lemma AbortReplyClears(c: Config, s: State, at: Instant, r: Response)
    requires s.pending.Some? && r.SlotStatus? && s.pending.value.kind.Aborting?
    ensures !OnReply(c, s, at, s.pending.value, Ok(r)).s.needsRecovery
  {
  }
}
