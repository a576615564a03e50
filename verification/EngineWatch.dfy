/**
 * An observer of the slot engine's surface. It sees only the calls made and the transitions
 * returned, never the engine's state, and keeps what the run theorems speak about: the sequence
 * numbers put on the wire, the deadlines handed out, the last Bulk-OUT frame and control request, and
 * for the operation in flight its data frames, the response octets read for it, the time extensions
 * granted to it and, while it is an abort, the stale replies skipped.
 */
module EngineWatch {
  import opened Wrappers
  import opened Bytes
  import opened CcidErrors
  import opened Codec
  import opened EngineModel
  import opened EngineEffects
  import opened EngineRuns

  datatype InFlight = InFlight(
    id: nat,
    op: Operation,
    since: nat,
    frames: seq<seq<byte>>,
    received: seq<byte>,
    extensions: nat,
    drained: nat)

  datatype Watch = Watch(
    sequences: seq<byte>,
    timers: seq<Deadline>,
    lastFrame: seq<byte>,
    lastControl: Option<u16>,
    current: Option<InFlight>)

  // ---- What a transition shows ----

  predicate HasAnswer(t: Transition) {
    exists i :: 0 <= i < |t.actions| && t.actions[i].Complete?
  }

  /** The Bulk-OUT frame a transition submits; a transition that submits one does nothing else. */
  function FrameOf(t: Transition): Option<seq<byte>> {
    if |t.actions| == 1 && t.actions[0].SubmitBulkOut? then Some(t.actions[0].frame) else None
  }

  function ControlOf(t: Transition): Option<u16> {
    if |t.actions| == 1 && t.actions[0].SubmitControl? then Some(t.actions[0].value) else None
  }

  /** The sequence number a transition allocates: the abort handshake allocates with its control request. */
  function SequencesIn(t: Transition): seq<byte> {
    if ControlOf(t).Some? then [ControlOf(t).value / 256]
    else if FrameOf(t).Some? && HEADER_SIZE <= |FrameOf(t).value| && FrameOf(t).value[0] != PC_TO_RDR_ABORT
    then [FrameOf(t).value[6]]
    else []
  }

  function DataFramesIn(t: Transition): seq<seq<byte>> {
    if FrameOf(t).Some? && |FrameOf(t).value| > HEADER_SIZE then [FrameOf(t).value] else []
  }

  function ResponseOctets(reply: Result<Response, CcidError>): seq<byte> {
    if reply.Ok? && reply.value.DataBlock? && !reply.value.chain.CommandContinuationExpected?
    then reply.value.payload
    else []
  }

  predicate IsExtension(reply: Result<Response, CcidError>) {
    reply.Ok? && reply.value.TimeExtension?
  }

  function LastSequence(w: Watch): byte {
    if w.sequences == [] then 0 else w.sequences[|w.sequences| - 1]
  }

  // ---- The observer ----

  function OctetsIn(c: Config, w: Watch, r: InFlight, call: Call): seq<byte> {
    if IsBulkIn(call)
    then ResponseOctets(DecodeResponse(call.event.io.frame, ReplyType(r.op), c.slot, LastSequence(w)))
    else []
  }

  function ExtensionsIn(c: Config, w: Watch, r: InFlight, call: Call): nat {
    if IsBulkIn(call) && IsExtension(DecodeResponse(call.event.io.frame, ReplyType(r.op), c.slot, LastSequence(w)))
    then 1
    else 0
  }

  function DrainsIn(c: Config, w: Watch, r: InFlight, call: Call): nat {
    if IsBulkIn(call) && DecodeResponse(call.event.io.frame, ReplyType(r.op), c.slot, LastSequence(w)).Err?
    then 1
    else 0
  }

  function WatchCurrent(c: Config, w: Watch, call: Call, t: Transition): Option<InFlight> {
    if call.StepCall? && call.event.Start? then
      if HasAnswer(t) then w.current
      else
        var frames := if FrameOf(t).Some? then [FrameOf(t).value] else [];
        Some(InFlight(call.event.id, call.event.op, call.now, frames, [], 0, 0))
    else if HasAnswer(t) || w.current.None? then None
    else
      var r := w.current.value;
      Some(r.(frames := r.frames + DataFramesIn(t), received := r.received + OctetsIn(c, w, r, call),
              extensions := r.extensions + ExtensionsIn(c, w, r, call),
              drained := r.drained + DrainsIn(c, w, r, call)))
  }

  function WatchStep(c: Config, w: Watch, call: Call, t: Transition): Watch {
    Watch(
      w.sequences + SequencesIn(t),
      if t.nextDeadline.Some? && (w.timers == [] || w.timers[|w.timers| - 1] != t.nextDeadline.value)
      then w.timers + [t.nextDeadline.value]
      else w.timers,
      if FrameOf(t).Some? then FrameOf(t).value else w.lastFrame,
      if ControlOf(t).Some? then ControlOf(t) else w.lastControl,
      WatchCurrent(c, w, call, t))
  }

  function Observe(c: Config, calls: seq<Call>): Watch {
    if calls == [] then Watch([], [], [], None, None)
    else WatchStep(c, Observe(c, calls[..|calls| - 1]), calls[|calls| - 1], Output(c, calls, |calls| - 1))
  }

  // ---- Agreement of the engine's state with the observer ----

  predicate IsDataFrame(c: Config, frame: seq<byte>, op: Operation, chunks: seq<seq<byte>>, i: nat)
    requires op.TransferBlock? && i < |chunks|
  {
    && HEADER_SIZE <= |frame|
    && frame[0] == PC_TO_RDR_XFR_BLOCK && frame[5] == c.slot && frame[7] == op.bwi
    && FrameLevel(frame) == (if i == 0 then LEVEL_BEGIN else if i == |chunks| - 1 then LEVEL_END else LEVEL_CONTINUE)
    && frame[HEADER_SIZE..] == chunks[i]
  }

  /** A split command: its frames are the first chunks of the data, and the queue is the rest. */
  predicate SplitAgrees(c: Config, op: Operation, frames: seq<seq<byte>>, f: Flight)
    requires IsSplit(c, op)
  {
    var chunks := Chunks(op.data, c.maxPayloadLength);
    && 1 <= |frames| <= |chunks|
    && f.outgoing == chunks[|frames|..]
    && f.pendingBwi == op.bwi
    && forall i: nat :: i < |frames| ==> IsDataFrame(c, frames[i], op, chunks, i)
  }

  predicate FramesAgree(c: Config, op: Operation, frames: seq<seq<byte>>, f: Flight) {
    if IsSplit(c, op) then SplitAgrees(c, op, frames, f)
    else
      && f.outgoing == []
      && (op.Abort? ==> frames == [])
      && (!op.Abort? ==> exists sequence: byte :: frames == [FirstFrame(c, op, sequence)])
  }

  predicate CurrentAgrees(c: Config, s: State, w: Watch) {
    match (s.pending, w.current)
    case (None, None) => true
    case (Some(p), Some(r)) =>
      && p == Pending(r.id, KindOf(r.op))
      && s.flight.startedAt == r.since
      && s.flight.chainBuffer == r.received
      && s.flight.wtxCount == r.extensions
      && (r.op.Abort? ==> s.flight.drainCount == r.drained)
      && FramesAgree(c, r.op, r.frames, s.flight)
    case _ => false
  }

  predicate Counting(sequences: seq<byte>) {
    forall i: nat :: i < |sequences| ==> sequences[i] == i % 256
  }

  predicate SequencesAgree(s: State, w: Watch) {
    && Counting(w.sequences)
    && s.nextSeq == |w.sequences| % 256
    && (s.pending.Some? ==> w.sequences != [] && s.flight.expectedSeq == LastSequence(w))
  }

  predicate Numbered(timers: seq<Deadline>) {
    forall i: nat :: i < |timers| ==> timers[i].id == (i + 1) % U64_LIMIT
  }

  predicate TimersAgree(s: State, w: Watch) {
    && Numbered(w.timers)
    && s.activeDeadlineId == |w.timers| % U64_LIMIT
    && (s.pending.Some? ==> w.timers != [] && s.deadline == Some(w.timers[|w.timers| - 1]))
  }

  predicate LengthAgrees(s: State, w: Watch) {
    s.flight.expectedBulkOutLen == |w.lastFrame|
  }

  /** The abort handshake of section 5.3.1 keeps one sequence number for its control request and its frame. */
  predicate ControlAgrees(c: Config, s: State, w: Watch) {
    s.pending.Some? && s.pending.value.kind.Aborting? ==> w.lastControl == Some(256 * s.flight.expectedSeq + c.slot)
  }

  // ---- What the observer sees of each effect ----

  /** The frame an effect submits. */
  ghost predicate Shows(o: Outcome, answer: bool, frame: Option<seq<byte>>, control: Option<u16>) {
    HasAnswer(o.t) == answer && FrameOf(o.t) == frame && ControlOf(o.t) == control
  }

  lemma EndShows(c: Config, s: State, call: Call, o: Outcome, e: Effect)
    requires Has(c, s, call, o, e) && !Sends(e) && !e.Begins?
    ensures Shows(o, !e.Quiet?, None, None)
  {
    hide ReplyIn, Answers, Refusal, CardMoves;
    if e.Fails? && |o.t.actions| > 1 {
      assert o.t.actions[1].Complete?;
    } else if !e.Quiet? {
      assert o.t.actions[0].Complete?;
    }
  }

  lemma SendShows(c: Config, s: State, call: Call, o: Outcome, e: Effect)
    requires Has(c, s, call, o, e) && Sends(e)
    ensures e.Extends? || e.Drains? ==> Shows(o, false, None, None)
    ensures e.SendsAbort? ==> Shows(o, false, Some(EncodeAbort(c.slot, s.flight.expectedSeq)), None)
    ensures e.Grows? ==>
              Shows(o, false, Some(EncodeXfrBlock(c.slot, s.nextSeq, 0, CHAIN_COMMAND_CONTINUATION_EXPECTED, [])), None)
    ensures e.Continues? ==>
              Shows(o, false, Some(EncodeXfrBlock(c.slot, s.nextSeq, s.flight.pendingBwi,
                                                  if |s.flight.outgoing| == 1 then LEVEL_END else LEVEL_CONTINUE,
                                                  s.flight.outgoing[0])), None)
  {
    hide ReplyIn, EncodeXfrBlock, EncodeAbort;
  }

  /** Which fields an effect that keeps the operation pending moves, and how. */
  lemma SendMoves(c: Config, s: State, call: Call, o: Outcome, e: Effect)
    requires Has(c, s, call, o, e) && Sends(e)
    ensures IsEvent(call) && s.pending.Some? && o.s.pending == s.pending
    ensures o.s.card == s.card && o.s.connected == s.connected && o.s.needsRecovery == s.needsRecovery
    ensures o.t.nextDeadline == o.s.deadline
    ensures var sent := e.Grows? || e.Continues?;
            && o.s.nextSeq == (if sent then Succ8(s.nextSeq) else s.nextSeq)
            && o.s.flight.expectedSeq == (if sent then s.nextSeq else s.flight.expectedSeq)
    ensures var armed := e.Extends? || e.Continues?;
            && o.s.activeDeadlineId == (if armed then Succ64(s.activeDeadlineId) else s.activeDeadlineId)
            && o.s.deadline == (if e.Extends? then Some(Deadline(o.s.activeDeadlineId, e.until))
                                else if e.Continues?
                                then Some(Deadline(o.s.activeDeadlineId, call.now + DEFAULT_TIMEOUT_MS))
                                else s.deadline)
    ensures o.s.flight.startedAt == s.flight.startedAt && o.s.flight.pendingBwi == s.flight.pendingBwi
    ensures o.s.flight.chainBuffer == (if e.Grows? then s.flight.chainBuffer + e.payload else s.flight.chainBuffer)
    ensures e.Continues? ==> s.flight.outgoing != []
    ensures o.s.flight.outgoing == (if e.Continues? then s.flight.outgoing[1..] else s.flight.outgoing)
    ensures o.s.flight.wtxCount == (if e.Extends? then s.flight.wtxCount + 1 else s.flight.wtxCount)
    ensures o.s.flight.drainCount == (if e.Drains? then s.flight.drainCount + 1 else s.flight.drainCount)
    ensures o.s.flight.expectedBulkOutLen ==
            (if FrameOf(o.t).Some? then |FrameOf(o.t).value| else s.flight.expectedBulkOutLen)
  {
    hide ReplyIn, EncodeXfrBlock;
  }

  lemma FirstFrameShape(c: Config, op: Operation, sequence: byte)
    requires !op.Abort?
    ensures var f := FirstFrame(c, op, sequence);
            HEADER_SIZE <= |f| && f[0] != PC_TO_RDR_ABORT && f[5] == c.slot && f[6] == sequence
  {
  }

  lemma BeginShows(c: Config, s: State, call: Call, o: Outcome)
    requires Has(c, s, call, o, Begins)
    ensures var op := call.event.op;
            if op.Abort? then Shows(o, false, None, Some(256 * s.nextSeq + c.slot))
            else Shows(o, false, Some(FirstFrame(c, op, s.nextSeq)), None)
  {
    hide FirstFrame, NewFlight, Refusal;
  }

  // ---- Sequence numbers ----

  lemma CountingGrows(sequences: seq<byte>)
    requires Counting(sequences)
    ensures Counting(sequences + [|sequences| % 256])
    ensures |sequences + [|sequences| % 256]| % 256 == Succ8(|sequences| % 256)
  {
  }

  /** How an effect moves the sequence counter: the observer sees the number it hands out. */
  lemma SequencesStep(c: Config, s: State, w: Watch, call: Call, o: Outcome, e: Effect)
    requires SequencesAgree(s, w) && Has(c, s, call, o, e)
    ensures SequencesAgree(o.s, WatchStep(c, w, call, o.t))
  {
    hide WatchCurrent, Has, Counting;
    CountingGrows(w.sequences);
    if e.Begins? {
      SequencesBegin(c, s, w, call, o);
    } else if Sends(e) {
      SequencesSend(c, s, w, call, o, e);
    } else {
      SequencesEnd(c, s, w, call, o, e);
    }
  }

  lemma SequencesBegin(c: Config, s: State, w: Watch, call: Call, o: Outcome)
    requires SequencesAgree(s, w) && Has(c, s, call, o, Begins)
    ensures SequencesAgree(o.s, WatchStep(c, w, call, o.t))
  {
    hide WatchCurrent, FirstFrame, Refusal, DecodeResponse, Counting;
    BeginShows(c, s, call, o);
    if !call.event.op.Abort? {
      FirstFrameShape(c, call.event.op, s.nextSeq);
    }
    CountingGrows(w.sequences);
    assert SequencesIn(o.t) == [s.nextSeq];
  }

  lemma SentSequences(c: Config, s: State, call: Call, o: Outcome, e: Effect)
    requires Has(c, s, call, o, e) && Sends(e)
    ensures SequencesIn(o.t) == if e.Grows? || e.Continues? then [s.nextSeq] else []
  {
    hide Has;
    SendShows(c, s, call, o, e);
  }

  lemma SequencesSend(c: Config, s: State, w: Watch, call: Call, o: Outcome, e: Effect)
    requires SequencesAgree(s, w) && Has(c, s, call, o, e) && Sends(e)
    ensures SequencesAgree(o.s, WatchStep(c, w, call, o.t))
  {
    hide WatchCurrent, Has, SequencesIn, Counting;
    SentSequences(c, s, call, o, e);
    SendMoves(c, s, call, o, e);
    CountingGrows(w.sequences);
    assert w.sequences + [] == w.sequences;
  }

  lemma SequencesEnd(c: Config, s: State, w: Watch, call: Call, o: Outcome, e: Effect)
    requires SequencesAgree(s, w) && Has(c, s, call, o, e) && !Sends(e) && !e.Begins?
    ensures SequencesAgree(o.s, WatchStep(c, w, call, o.t))
  {
    hide WatchCurrent, ReplyIn, Answers, Refusal, CardMoves, Counting;
    EndShows(c, s, call, o, e);
    assert w.sequences + SequencesIn(o.t) == w.sequences;
  }

  // ---- Deadlines ----

  lemma NumberedGrows(timers: seq<Deadline>, d: Deadline)
    requires Numbered(timers) && d.id == Succ64(|timers| % U64_LIMIT)
    ensures Numbered(timers + [d]) && |timers + [d]| % U64_LIMIT == d.id
    ensures timers != [] ==> timers[|timers| - 1] != d
  {
    if timers != [] {
      assert timers[|timers| - 1].id == |timers| % U64_LIMIT;
    }
  }

  lemma TimersStep(c: Config, s: State, w: Watch, call: Call, o: Outcome, e: Effect)
    requires Inv(c, s) && TimersAgree(s, w) && Has(c, s, call, o, e)
    ensures TimersAgree(o.s, WatchStep(c, w, call, o.t))
  {
    hide WatchCurrent, SequencesIn, FrameOf, Has, Numbered, Inv;
    if e.Begins? {
      TimersBegin(c, s, w, call, o);
    } else if Sends(e) {
      TimersSend(c, s, w, call, o, e);
    } else {
      TimersEnd(c, s, w, call, o, e);
    }
  }

  lemma TimersBegin(c: Config, s: State, w: Watch, call: Call, o: Outcome)
    requires TimersAgree(s, w) && Has(c, s, call, o, Begins)
    ensures TimersAgree(o.s, WatchStep(c, w, call, o.t))
  {
    hide WatchCurrent, SequencesIn, FrameOf, FirstAction, NewFlight, Refusal, Numbered;
    NumberedGrows(w.timers, o.s.deadline.value);
  }

  lemma TimersSend(c: Config, s: State, w: Watch, call: Call, o: Outcome, e: Effect)
    requires Inv(c, s) && TimersAgree(s, w) && Has(c, s, call, o, e) && Sends(e)
    ensures TimersAgree(o.s, WatchStep(c, w, call, o.t))
  {
    hide WatchCurrent, SequencesIn, FrameOf, Has, Numbered, FlightOk;
    SendMoves(c, s, call, o, e);
    if e.Extends? || e.Continues? {
      NumberedGrows(w.timers, o.s.deadline.value);
    }
  }

  lemma TimersEnd(c: Config, s: State, w: Watch, call: Call, o: Outcome, e: Effect)
    requires Inv(c, s) && TimersAgree(s, w) && Has(c, s, call, o, e) && !Sends(e) && !e.Begins?
    ensures TimersAgree(o.s, WatchStep(c, w, call, o.t))
  {
    hide WatchCurrent, SequencesIn, FrameOf, ReplyIn, Answers, Refusal, CardMoves, ErrorAnswer, Numbered, FlightOk;
  }

  // ---- The length a Bulk-OUT completion is compared with ----

  lemma LengthStep(c: Config, s: State, w: Watch, call: Call, o: Outcome, e: Effect)
    requires LengthAgrees(s, w) && Has(c, s, call, o, e)
    ensures LengthAgrees(o.s, WatchStep(c, w, call, o.t))
  {
    hide WatchCurrent, SequencesIn, Has;
    if e.Begins? {
      LengthBegin(c, s, w, call, o);
    } else if Sends(e) {
      SendMoves(c, s, call, o, e);
    } else {
      LengthEnd(c, s, w, call, o, e);
    }
  }

  lemma LengthBegin(c: Config, s: State, w: Watch, call: Call, o: Outcome)
    requires LengthAgrees(s, w) && Has(c, s, call, o, Begins)
    ensures LengthAgrees(o.s, WatchStep(c, w, call, o.t))
  {
    hide WatchCurrent, SequencesIn, FirstFrame, Refusal;
    BeginShows(c, s, call, o);
  }

  lemma LengthEnd(c: Config, s: State, w: Watch, call: Call, o: Outcome, e: Effect)
    requires LengthAgrees(s, w) && Has(c, s, call, o, e) && !Sends(e) && !e.Begins?
    ensures LengthAgrees(o.s, WatchStep(c, w, call, o.t))
  {
    hide WatchCurrent, SequencesIn, ReplyIn, Answers, Refusal, CardMoves, ErrorAnswer;
    EndShows(c, s, call, o, e);
  }

  // ---- The abort handshake ----

  lemma AbortTakesNoBlocks(c: Config, s: State, call: Call, o: Outcome, e: Effect)
    requires Inv(c, s) && Has(c, s, call, o, e) && s.pending.Some? && s.pending.value.kind.Aborting?
    ensures !e.Grows? && !e.Continues?
  {
    hide DecodeResponse, SendBlock, OnContinuation;
    if e.Grows? || e.Continues? {
      AcceptedReply(call.event.io.frame, s.flight.expectedType, c.slot, s.flight.expectedSeq);
      assert false;
    }
  }

  lemma ControlStep(c: Config, s: State, w: Watch, call: Call, o: Outcome, e: Effect)
    requires Inv(c, s) && ControlAgrees(c, s, w) && Has(c, s, call, o, e)
    ensures ControlAgrees(c, o.s, WatchStep(c, w, call, o.t))
  {
    hide WatchCurrent, SequencesIn, Has, Inv;
    if e.Begins? {
      ControlBegin(c, s, w, call, o);
    } else if Sends(e) {
      SendMoves(c, s, call, o, e);
      SendShows(c, s, call, o, e);
      if s.pending.value.kind.Aborting? {
        AbortTakesNoBlocks(c, s, call, o, e);
      }
    } else {
      ControlEnd(c, s, w, call, o, e);
    }
  }

  lemma ControlBegin(c: Config, s: State, w: Watch, call: Call, o: Outcome)
    requires Has(c, s, call, o, Begins)
    ensures ControlAgrees(c, o.s, WatchStep(c, w, call, o.t))
  {
    hide WatchCurrent, SequencesIn, FirstFrame, Refusal;
    BeginShows(c, s, call, o);
  }

  lemma ControlEnd(c: Config, s: State, w: Watch, call: Call, o: Outcome, e: Effect)
    requires ControlAgrees(c, s, w) && Has(c, s, call, o, e) && !Sends(e) && !e.Begins?
    ensures ControlAgrees(c, o.s, WatchStep(c, w, call, o.t))
  {
    hide WatchCurrent, SequencesIn, ReplyIn, Answers, Refusal, CardMoves, ErrorAnswer;
    EndShows(c, s, call, o, e);
  }

  // ---- The operation in flight ----

  lemma BeginFrames(c: Config, s: State, now: Instant, op: Operation, sequence: byte)
    requires !op.Abort?
    ensures FramesAgree(c, op, [FirstFrame(c, op, sequence)], NewFlight(c, s, now, op))
  {
    if IsSplit(c, op) {
      var n := c.maxPayloadLength;
      var chunks := Chunks(op.data, n);
      assert chunks == [op.data[..n]] + Chunks(op.data[n..], n);
      assert IsDataFrame(c, FirstFrame(c, op, sequence), op, chunks, 0);
    }
  }

  lemma CurrentBegin(c: Config, s: State, w: Watch, call: Call, o: Outcome)
    requires Has(c, s, call, o, Begins)
    ensures CurrentAgrees(c, o.s, WatchStep(c, w, call, o.t))
  {
    hide SequencesIn, Refusal, FirstFrame, FramesAgree, DecodeResponse;
    BeginShows(c, s, call, o);
    if call.event.op.Abort? {
      AbortFrames(c, s, call.now);
    } else {
      BeginFrames(c, s, call.now, call.event.op, s.nextSeq);
    }
  }

  lemma AbortFrames(c: Config, s: State, now: Instant)
    ensures FramesAgree(c, Abort, [], NewFlight(c, s, now, Abort))
  {
  }

  lemma CurrentEnd(c: Config, s: State, w: Watch, call: Call, o: Outcome, e: Effect)
    requires CurrentAgrees(c, s, w) && Has(c, s, call, o, e) && !Sends(e) && !e.Begins?
    ensures CurrentAgrees(c, o.s, WatchStep(c, w, call, o.t))
  {
    hide SequencesIn, ReplyIn, Answers, Refusal, CardMoves, ErrorAnswer, FramesAgree, DecodeResponse;
    EndShows(c, s, call, o, e);
    if e.Quiet? && w.current.Some? {
      var r := w.current.value;
      assert r.frames + DataFramesIn(o.t) == r.frames && r.received + OctetsIn(c, w, r, call) == r.received;
      assert ExtensionsIn(c, w, r, call) == 0 && DrainsIn(c, w, r, call) == 0;
    }
  }

  lemma SentOctets(c: Config, s: State, w: Watch, call: Call, o: Outcome, e: Effect)
    requires Inv(c, s) && CurrentAgrees(c, s, w) && SequencesAgree(s, w) && Has(c, s, call, o, e) && Sends(e)
    ensures w.current.Some?
    ensures OctetsIn(c, w, w.current.value, call) == if e.Grows? then e.payload else []
    ensures ExtensionsIn(c, w, w.current.value, call) == if e.Extends? then 1 else 0
    ensures DrainsIn(c, w, w.current.value, call) == if e.Drains? then 1 else 0
  {
    hide DecodeResponse, FramesAgree, Counting, SendBlock, OnContinuation;
  }

  lemma ContinuedFrames(c: Config, r: InFlight, s: State, frame: seq<byte>, f: Flight)
    requires FramesAgree(c, r.op, r.frames, s.flight) && s.flight.outgoing != []
    requires frame == EncodeXfrBlock(c.slot, s.nextSeq, s.flight.pendingBwi,
                                     if |s.flight.outgoing| == 1 then LEVEL_END else LEVEL_CONTINUE,
                                     s.flight.outgoing[0])
    requires f.outgoing == s.flight.outgoing[1..] && f.pendingBwi == s.flight.pendingBwi
    ensures FramesAgree(c, r.op, r.frames + [frame], f)
  {
    var chunks := Chunks(r.op.data, c.maxPayloadLength);
    assert IsDataFrame(c, frame, r.op, chunks, |r.frames|);
  }

  lemma SentFrames(c: Config, s: State, call: Call, o: Outcome, e: Effect)
    requires Inv(c, s) && Has(c, s, call, o, e) && Sends(e)
    ensures e.Continues? ==> FrameOf(o.t).Some?
    ensures DataFramesIn(o.t) == if e.Continues? then [FrameOf(o.t).value] else []
  {
    hide Has;
    SendShows(c, s, call, o, e);
    SendMoves(c, s, call, o, e);
    if e.Continues? {
      assert |s.flight.outgoing[0]| > 0;
    }
  }

  lemma SentFramesAgree(c: Config, s: State, w: Watch, call: Call, o: Outcome, e: Effect)
    requires Inv(c, s) && CurrentAgrees(c, s, w) && w.current.Some? && Has(c, s, call, o, e) && Sends(e)
    ensures var r := w.current.value; FramesAgree(c, r.op, r.frames + DataFramesIn(o.t), o.s.flight)
  {
    hide DecodeResponse, FramesAgree, Has, EncodeXfrBlock, DataFramesIn, Inv;
    SentFrames(c, s, call, o, e);
    SendShows(c, s, call, o, e);
    SendMoves(c, s, call, o, e);
    var r := w.current.value;
    if e.Continues? {
      ContinuedFrames(c, r, s, FrameOf(o.t).value, o.s.flight);
    } else {
      assert r.frames + DataFramesIn(o.t) == r.frames;
      SameFrames(c, r, s.flight, o.s.flight);
    }
  }

  lemma CurrentSend(c: Config, s: State, w: Watch, call: Call, o: Outcome, e: Effect)
    requires Inv(c, s) && CurrentAgrees(c, s, w) && SequencesAgree(s, w) && Has(c, s, call, o, e) && Sends(e)
    ensures CurrentAgrees(c, o.s, WatchStep(c, w, call, o.t))
  {
    hide SequencesIn, DecodeResponse, FramesAgree, Counting, OctetsIn, ExtensionsIn, DrainsIn, Has, EncodeXfrBlock,
         DataFramesIn, FrameOf, ControlOf, Inv, SequencesAgree;
    SentOctets(c, s, w, call, o, e);
    SentFramesAgree(c, s, w, call, o, e);
    SendShows(c, s, call, o, e);
    SendMoves(c, s, call, o, e);
    var r := w.current.value;
    assert r.received + [] == r.received;
  }

  lemma SameFrames(c: Config, r: InFlight, f: Flight, f': Flight)
    requires FramesAgree(c, r.op, r.frames, f) && f'.outgoing == f.outgoing && f'.pendingBwi == f.pendingBwi
    ensures FramesAgree(c, r.op, r.frames, f')
  {
  }

  // ---- The observer and the engine agree in every run ----

  predicate Agrees(c: Config, s: State, w: Watch) {
    && Inv(c, s)
    && SequencesAgree(s, w)
    && TimersAgree(s, w)
    && LengthAgrees(s, w)
    && ControlAgrees(c, s, w)
    && CurrentAgrees(c, s, w)
  }

  lemma CallKeepsAgreement(c: Config, s: State, w: Watch, call: Call)
    requires Agrees(c, s, w)
    ensures Agrees(c, Apply(c, s, call).s, WatchStep(c, w, call, Apply(c, s, call).t))
  {
    hide Apply, Inv, Has, SequencesAgree, TimersAgree, LengthAgrees, ControlAgrees, CurrentAgrees, WatchStep;
    var e := EffectOf(c, s, call);
    var o := Apply(c, s, call);
    CallKeepsInv(c, s, call);
    SequencesStep(c, s, w, call, o, e);
    TimersStep(c, s, w, call, o, e);
    LengthStep(c, s, w, call, o, e);
    ControlStep(c, s, w, call, o, e);
    if e.Begins? {
      CurrentBegin(c, s, w, call, o);
    } else if Sends(e) {
      CurrentSend(c, s, w, call, o, e);
    } else {
      CurrentEnd(c, s, w, call, o, e);
    }
  }

  lemma {:induction false} RunAgrees(c: Config, calls: seq<Call>)
    ensures Agrees(c, Exec(c, calls), Observe(c, calls))
  {
    hide Apply, WatchStep;
    if calls != [] {
      var n := |calls| - 1;
      RunAgrees(c, calls[..n]);
      hide Agrees;
      CallKeepsAgreement(c, Exec(c, calls[..n]), Observe(c, calls[..n]), calls[n]);
    }
  }
}
