/** The slot event poller: interrupt packets and status snapshots turned into slot events. */
module Poller {
  import opened Wrappers
  import opened Bytes
  import opened CcidErrors
  import opened Codec

  datatype SlotEvent =
    | CardInserted(slot: byte)
    | CardTaken(slot: byte)
    | StatusChanged(slot: byte, card: CardStatus, clock: ClockStatus)
    | HardwareFault(slot: byte, code: byte)

  datatype SlotState = SlotState(present: bool, card: CardStatus, clock: ClockStatus)

  const Absent := SlotState(false, NotPresent, Running)

  // ---- One slot ----

  /** What a slot-change packet makes of one slot; the clock is not part of the packet. */
  function Notified(s: SlotState, present: bool, changed: bool): SlotState {
    if changed || s.present != present then SlotState(present, if present then Inactive else NotPresent, s.clock) else s
  }

  function NotifiedEvents(slot: byte, s: SlotState, present: bool, changed: bool): seq<SlotEvent> {
    if !changed && s.present == present then []
    else if present && !s.present then [CardInserted(slot)]
    else if !present && s.present then [CardTaken(slot)]
    else [StatusChanged(slot, Notified(s, present, changed).card, s.clock)]
  }

  function SnapshotEvents(slot: byte, s: SlotState, card: CardStatus, clock: ClockStatus): seq<SlotEvent> {
    var present := !card.NotPresent?;
    if present && !s.present then [CardInserted(slot)]
    else if !present && s.present then [CardTaken(slot)]
    else if s.card != card || s.clock != clock then [StatusChanged(slot, card, clock)]
    else []
  }

  // ---- All slots ----

  /** What the first `k` slots report of a slot-change packet, in slot order. */
  function Swept(states: seq<SlotState>, n: SlotChange, k: nat): seq<SlotEvent>
    requires k <= |states| <= 256
  {
    if k == 0 then []
    else Swept(states, n, k - 1)
         + NotifiedEvents(k - 1, states[k - 1], CardPresentIn(n, k - 1), ChangedIn(n, k - 1))
  }

  function AllNotified(states: seq<SlotState>, n: SlotChange): seq<SlotState>
    requires |states| <= 256
  {
    seq(|states|, i requires 0 <= i < |states| => Notified(states[i], CardPresentIn(n, i), ChangedIn(n, i)))
  }

  datatype Reaction = Reaction(states: seq<SlotState>, events: Result<seq<SlotEvent>, CcidError>)

  function Interrupted(states: seq<SlotState>, frame: seq<byte>): Reaction
    requires 0 < |states| <= 256
  {
    if frame == [] then Reaction(states, Err(TruncatedHeader))
    else if frame[0] == RDR_TO_PC_HARDWARE_ERROR then
      match DecodeHardwareError(frame)
      case Ok(e) => Reaction(states, Ok([HardwareFault(e.slot, e.code)]))
      case Err(error) => Reaction(states, Err(error))
    else if frame[0] == RDR_TO_PC_NOTIFY_SLOT_CHANGE then
      match DecodeSlotChange(frame, |states| - 1)
      case Ok(n) => Reaction(AllNotified(states, n), Ok(Swept(states, n, |states|)))
      case Err(error) => Reaction(states, Err(error))
    else Reaction(states, Err(UnexpectedMessageType(RDR_TO_PC_NOTIFY_SLOT_CHANGE, frame[0])))
  }

  function Snapshotted(states: seq<SlotState>, slot: byte, card: CardStatus, clock: ClockStatus): Reaction
    requires 0 < |states| <= 256
  {
    if slot >= |states| then Reaction(states, Ok([]))
    else Reaction(states[slot := SlotState(!card.NotPresent?, card, clock)],
                  Ok(SnapshotEvents(slot, states[slot], card, clock)))
  }

  class CcidEventPoller {
    const maxSlotIndex: byte
    const slotStates: array<SlotState>

    ghost predicate Valid()
      reads this
    {
      slotStates.Length == maxSlotIndex + 1
    }

    constructor (maxSlotIndex: byte)
      ensures Valid() && this.maxSlotIndex == maxSlotIndex && fresh(slotStates)
      ensures slotStates[..] == seq(maxSlotIndex + 1, _ => Absent)
    {
      this.maxSlotIndex := maxSlotIndex;
      slotStates := new SlotState[maxSlotIndex + 1](_ => Absent);
    }

    method ProcessInterrupt(frame: seq<byte>) returns (r: Result<seq<SlotEvent>, CcidError>)
      requires Valid()
      modifies slotStates
      ensures Reaction(slotStates[..], r) == Interrupted(old(slotStates[..]), frame)
    {
      if frame == [] {
        return Err(TruncatedHeader);
      }
      if frame[0] == RDR_TO_PC_HARDWARE_ERROR {
        var e := DecodeHardwareError(frame);
        return if e.Ok? then Ok([HardwareFault(e.value.slot, e.value.code)]) else Err(e.error);
      }
      if frame[0] != RDR_TO_PC_NOTIFY_SLOT_CHANGE {
        return Err(UnexpectedMessageType(RDR_TO_PC_NOTIFY_SLOT_CHANGE, frame[0]));
      }
      var decoded := ReadSlotChange(frame, maxSlotIndex);
      if decoded.Err? {
        return Err(decoded.error);
      }
      var events := Sweep(decoded.value);
      return Ok(events);
    }

    /** The loop over the slots, updating each in place and pushing its event. */
    method Sweep(n: SlotChange) returns (events: seq<SlotEvent>)
      requires Valid()
      modifies slotStates
      ensures slotStates[..] == AllNotified(old(slotStates[..]), n)
      ensures events == Swept(old(slotStates[..]), n, |old(slotStates[..])|)
    {
      ghost var before := slotStates[..];
      events := [];
      for slot := 0 to maxSlotIndex + 1
        invariant events == Swept(before, n, slot)
        invariant forall i :: 0 <= i < slot ==> slotStates[i] == AllNotified(before, n)[i]
        invariant forall i :: slot <= i < slotStates.Length ==> slotStates[i] == before[i]
      {
        var present, changed := CardPresentIn(n, slot), ChangedIn(n, slot);
        var s := slotStates[slot];
        if changed || s.present != present {
          slotStates[slot] := SlotState(present, if present then Inactive else NotPresent, s.clock);
          if present && !s.present {
            events := events + [CardInserted(slot)];
          } else if !present && s.present {
            events := events + [CardTaken(slot)];
          } else {
            events := events + [StatusChanged(slot, slotStates[slot].card, slotStates[slot].clock)];
          }
        }
      }
    }

    method ProcessSlotStatus(slot: byte, card: CardStatus, clock: ClockStatus) returns (event: Option<SlotEvent>)
      requires Valid()
      modifies slotStates
      ensures Reaction(slotStates[..], Ok(if event.Some? then [event.value] else [])) ==
              Snapshotted(old(slotStates[..]), slot, card, clock)
    {
      if slot > maxSlotIndex {
        return None;
      }
      var s := slotStates[slot];
      var present := card == Active || card == Inactive;
      slotStates[slot] := SlotState(present, card, clock);
      if present && !s.present {
        event := Some(CardInserted(slot));
      } else if !present && s.present {
        event := Some(CardTaken(slot));
      } else if s.card != card || s.clock != clock {
        event := Some(StatusChanged(slot, card, clock));
      } else {
        event := None;
      }
    }
  }

  // ---- Runs ----

  datatype Input = Packet(frame: seq<byte>) | Snapshot(slot: byte, card: CardStatus, clock: ClockStatus)

  function React(states: seq<SlotState>, input: Input): Reaction
    requires 0 < |states| <= 256
  {
    match input
    case Packet(frame) => Interrupted(states, frame)
    case Snapshot(slot, card, clock) => Snapshotted(states, slot, card, clock)
  }

  /** The slot states after a run on a new poller for slots 0 to `top`. */
  function States(top: byte, inputs: seq<Input>): (states: seq<SlotState>)
    ensures |states| == top + 1
  {
    if inputs == [] then seq(top + 1, _ => Absent)
    else React(States(top, inputs[..|inputs| - 1]), inputs[|inputs| - 1]).states
  }

  /** Every event of a run, in order. */
  function Log(top: byte, inputs: seq<Input>): seq<SlotEvent> {
    if inputs == [] then []
    else
      var n := |inputs| - 1;
      var events := React(States(top, inputs[..n]), inputs[n]).events;
      Log(top, inputs[..n]) + (if events.Ok? then events.value else [])
  }

  /** The insertions and removals of one slot in a log: true for an insertion. */
  function Edges(slot: byte, log: seq<SlotEvent>): seq<bool> {
    if log == [] then []
    else
      var e := log[|log| - 1];
      Edges(slot, log[..|log| - 1])
      + (if e == CardInserted(slot) then [true] else if e == CardTaken(slot) then [false] else [])
  }

  /** Insertions and removals take turns, an insertion first. */
  predicate Alternates(edges: seq<bool>) {
    forall i :: 0 <= i < |edges| ==> edges[i] == (i % 2 == 0)
  }

  lemma {:induction false} EdgesConcat(slot: byte, a: seq<SlotEvent>, b: seq<SlotEvent>)
    ensures Edges(slot, a + b) == Edges(slot, a) + Edges(slot, b)
  {
    if b == [] {
      assert a + b == a;
    } else {
      EdgesConcat(slot, a, b[..|b| - 1]);
      assert (a + b)[..|a + b| - 1] == a + b[..|b| - 1];
    }
  }

  /** A slot's part in the events of one input: an edge exactly when its presence flips. */
  function Flip(before: SlotState, after: SlotState): seq<bool> {
    if before.present == after.present then [] else [after.present]
  }

  lemma {:induction false} SweptEdges(slot: byte, states: seq<SlotState>, n: SlotChange, k: nat)
    requires k <= |states| <= 256
    ensures Edges(slot, Swept(states, n, k)) ==
            if slot < k then Flip(states[slot], AllNotified(states, n)[slot]) else []
  {
    hide Edges, NotifiedEvents, Notified, Flip, CardPresentIn, ChangedIn;
    if k == 0 {
      SingleEdge(slot, []);
    } else {
      SweptEdges(slot, states, n, k - 1);
      var present, changed := CardPresentIn(n, k - 1), ChangedIn(n, k - 1);
      EdgesConcat(slot, Swept(states, n, k - 1), NotifiedEvents(k - 1, states[k - 1], present, changed));
      NotifiedEdge(slot, k - 1, states[k - 1], present, changed);
    }
  }

  lemma NotifiedEdge(slot: byte, at: byte, s: SlotState, present: bool, changed: bool)
    ensures Edges(slot, NotifiedEvents(at, s, present, changed)) ==
            if slot == at then Flip(s, Notified(s, present, changed)) else []
  {
    SingleEdge(slot, NotifiedEvents(at, s, present, changed));
  }

  lemma SingleEdge(slot: byte, events: seq<SlotEvent>)
    requires |events| <= 1
    ensures Edges(slot, events) ==
            if events == [CardInserted(slot)] then [true] else if events == [CardTaken(slot)] then [false] else []
  {
    if |events| == 1 {
      assert events == [events[0]] && events[..0] == [];
    }
  }

  lemma ReactionEdges(slot: byte, states: seq<SlotState>, input: Input)
    requires slot < |states| <= 256
    ensures var r := React(states, input);
            && |r.states| == |states|
            && Edges(slot, if r.events.Ok? then r.events.value else []) == Flip(states[slot], r.states[slot])
  {
    match input {
      case Packet(frame) =>
        if frame != [] && frame[0] == RDR_TO_PC_NOTIFY_SLOT_CHANGE && DecodeSlotChange(frame, |states| - 1).Ok? {
          SweptEdges(slot, states, DecodeSlotChange(frame, |states| - 1).value, |states|);
        } else if DecodeHardwareError(frame).Ok? {
          var e := DecodeHardwareError(frame).value;
          SingleEdge(slot, [HardwareFault(e.slot, e.code)]);
        }
      case Snapshot(at, card, clock) =>
        if at < |states| {
          SingleEdge(slot, SnapshotEvents(at, states[at], card, clock));
        }
    }
  }

  /**
   * Over any mix of packets and snapshots, each slot's insertions and removals alternate starting
   * with an insertion, the slot is tracked as present exactly when the last of them is an insertion,
   * and presence agrees with the card status.
   */
  lemma {:induction false} EventsTellThePresence(top: byte, inputs: seq<Input>, slot: byte)
    requires slot <= top
    ensures Alternates(Edges(slot, Log(top, inputs)))
    ensures var edges := Edges(slot, Log(top, inputs));
            States(top, inputs)[slot].present <==> edges != [] && edges[|edges| - 1]
    ensures States(top, inputs)[slot].present <==> !States(top, inputs)[slot].card.NotPresent?
  {
    hide Edges, React, Alternates;
    if inputs == [] {
      SingleEdge(slot, []);
      NothingAlternates();
      assert Log(top, inputs) == [];
    } else {
      var n := |inputs| - 1;
      var before := States(top, inputs[..n]);
      EventsTellThePresence(top, inputs[..n], slot);
      ReactionEdges(slot, before, inputs[n]);
      ReactionAgrees(slot, before, inputs[n]);
      var r := React(before, inputs[n]);
      EdgesConcat(slot, Log(top, inputs[..n]), if r.events.Ok? then r.events.value else []);
      AlternatesOn(Edges(slot, Log(top, inputs[..n])), before[slot], r.states[slot]);
    }
  }

  lemma NothingAlternates()
    ensures Alternates([])
  {
  }

  lemma AlternatesOn(edges: seq<bool>, before: SlotState, after: SlotState)
    requires Alternates(edges) && (before.present <==> edges != [] && edges[|edges| - 1])
    ensures Alternates(edges + Flip(before, after))
  {
  }

  lemma ReactionAgrees(slot: byte, states: seq<SlotState>, input: Input)
    requires slot < |states| <= 256 && (states[slot].present <==> !states[slot].card.NotPresent?)
    ensures var after := React(states, input).states;
            |after| == |states| && (after[slot].present <==> !after[slot].card.NotPresent?)
  {
    hide Swept, SnapshotEvents, DecodeSlotChange, CardPresentIn, ChangedIn;
  }

  /** An input the poller reports as an error, and a hardware error report, leave every slot as it was. */
  lemma MalformedPacketsChangeNothing(top: byte, inputs: seq<Input>, input: Input)
    ensures var r := React(States(top, inputs), input);
            r.events.Err? || (input.Packet? && input.frame != [] && input.frame[0] == RDR_TO_PC_HARDWARE_ERROR) ==>
              r.states == States(top, inputs)
  {
  }

  predicate Accurate(events: seq<SlotEvent>, after: seq<SlotState>) {
    forall i :: 0 <= i < |events| && events[i].StatusChanged? ==>
      && events[i].slot < |after|
      && events[i].card == after[events[i].slot].card && events[i].clock == after[events[i].slot].clock
  }

  predicate Mentions(events: seq<SlotEvent>, slot: byte) {
    exists i :: 0 <= i < |events| && !events[i].HardwareFault? && events[i].slot == slot
  }

  lemma {:induction false} SweptReports(states: seq<SlotState>, n: SlotChange, k: nat)
    requires k <= |states| <= 256
    ensures Accurate(Swept(states, n, k), AllNotified(states, n))
    ensures forall slot: byte :: slot < k && AllNotified(states, n)[slot] != states[slot] ==>
              Mentions(Swept(states, n, k), slot)
  {
    hide CardPresentIn, ChangedIn;
    if k > 0 {
      SweptReports(states, n, k - 1);
      var earlier := Swept(states, n, k - 1);
      var own := NotifiedEvents(k - 1, states[k - 1], CardPresentIn(n, k - 1), ChangedIn(n, k - 1));
      assert Swept(states, n, k) == earlier + own;
      forall slot: byte | slot < k && AllNotified(states, n)[slot] != states[slot]
        ensures Mentions(Swept(states, n, k), slot)
      {
        if slot < k - 1 {
          var i :| 0 <= i < |earlier| && !earlier[i].HardwareFault? && earlier[i].slot == slot;
          assert (earlier + own)[i] == earlier[i];
        } else {
          assert (earlier + own)[|earlier|] == own[0];
        }
      }
    }
  }

  /**
   * No slot changes silently, and every status event reports the slot's state after the input; a
   * packet alone never makes a card active and never moves the clock.
   */
  lemma EveryChangeIsReported(states: seq<SlotState>, input: Input, slot: byte)
    requires slot < |states| <= 256
    ensures var r := React(states, input);
            var events := if r.events.Ok? then r.events.value else [];
            && |r.states| == |states|
            && Accurate(events, r.states)
            && (r.states[slot] != states[slot] ==> Mentions(events, slot))
            && (input.Packet? && r.states[slot] != states[slot] ==>
                  !r.states[slot].card.Active? && r.states[slot].clock == states[slot].clock)
  {
    hide DecodeSlotChange, CardPresentIn, ChangedIn, Swept;
    if input.Packet? && input.frame != [] && DecodeSlotChange(input.frame, |states| - 1).Ok? {
      SweptReports(states, DecodeSlotChange(input.frame, |states| - 1).value, |states|);
    }
    if input.Snapshot? && input.slot < |states| {
      var events := SnapshotEvents(input.slot, states[input.slot], input.card, input.clock);
      if events != [] {
        assert events[0].slot == input.slot;
      }
    }
  }

  // ---- What an input makes of the slots ----

  /** The event due when a slot goes from one state to another. */
  function Due(slot: byte, before: SlotState, after: SlotState): Option<SlotEvent> {
    if after == before then None
    else if after.present && !before.present then Some(CardInserted(slot))
    else if !after.present && before.present then Some(CardTaken(slot))
    else Some(StatusChanged(slot, after.card, after.clock))
  }

  /**
   * A snapshot of a tracked slot is recorded as it is, with the card there exactly when it is active
   * or inactive, leaves the other slots alone and gives the event due to the difference; a snapshot
   * of any other slot changes nothing.
   */
  lemma SnapshotIsTaken(top: byte, inputs: seq<Input>, slot: byte, card: CardStatus, clock: ClockStatus)
    ensures var before, r := States(top, inputs), React(States(top, inputs), Snapshot(slot, card, clock));
            if slot <= top then
              && r.states[slot] == SlotState(card == Active || card == Inactive, card, clock)
              && (forall i :: 0 <= i <= top && i != slot ==> r.states[i] == before[i])
              && var due := Due(slot, before[slot], r.states[slot]);
                 r.events == Ok(if due.Some? then [due.value] else [])
            else r == Reaction(before, Ok([]))
  {
    hide Interrupted;
    if slot <= top {
      EventsTellThePresence(top, inputs, slot);
    }
  }

  /**
   * A packet of slot changes gives every tracked slot the presence its bit shows; a slot that is
   * flagged or whose presence differs is inactive or absent from then on, the others are as they
   * were, and no clock moves.
   */
  lemma PacketIsTaken(top: byte, inputs: seq<Input>, frame: seq<byte>, slot: byte)
    requires slot <= top && DecodeSlotChange(frame, top).Ok?
    ensures var before, r := States(top, inputs), React(States(top, inputs), Packet(frame));
            var n := DecodeSlotChange(frame, top).value;
            && r.events.Ok?
            && r.states[slot].present == n.presence[slot] && r.states[slot].clock == before[slot].clock
            && (if n.changed[slot] || n.presence[slot] != before[slot].present
                then r.states[slot].card == if n.presence[slot] then Inactive else NotPresent
                else r.states[slot] == before[slot])
  {
    hide Swept, SlotBit;
  }

  /** The events a packet gives for one slot: the one due to its difference, or its status when only flagged. */
  function PacketEvents(slot: byte, before: SlotState, after: SlotState, flagged: bool): seq<SlotEvent> {
    var due := Due(slot, before, after);
    if due.Some? then [due.value] else if flagged then [StatusChanged(slot, after.card, after.clock)] else []
  }

  /** What the first `k` slots have to report, in slot order. */
  function PacketReport(before: seq<SlotState>, after: seq<SlotState>, n: SlotChange, k: nat): seq<SlotEvent>
    requires k <= |before| == |after| <= 256
  {
    if k == 0 then []
    else PacketReport(before, after, n, k - 1) + PacketEvents(k - 1, before[k - 1], after[k - 1], ChangedIn(n, k - 1))
  }

  lemma {:induction false} SweptIsDue(states: seq<SlotState>, n: SlotChange, k: nat)
    requires k <= |states| <= 256
    requires forall i :: 0 <= i < |states| ==> (states[i].present <==> !states[i].card.NotPresent?)
    ensures Swept(states, n, k) == PacketReport(states, AllNotified(states, n), n, k)
  {
    hide CardPresentIn, ChangedIn;
    if k > 0 {
      SweptIsDue(states, n, k - 1);
      assert states[k - 1].present <==> !states[k - 1].card.NotPresent?;
    }
  }

  /** A packet's events are exactly those due to its slots, in slot order. */
  lemma PacketIsReported(top: byte, inputs: seq<Input>, frame: seq<byte>)
    requires DecodeSlotChange(frame, top).Ok?
    ensures var before, r := States(top, inputs), React(States(top, inputs), Packet(frame));
            var n := DecodeSlotChange(frame, top).value;
            |r.states| == |before| == top + 1 && r.events == Ok(PacketReport(before, r.states, n, top + 1))
  {
    hide Swept, SlotBit, PacketReport, States;
    var before := States(top, inputs);
    forall i | 0 <= i < |before| ensures before[i].present <==> !before[i].card.NotPresent? {
      EventsTellThePresence(top, inputs, i);
    }
    SweptIsDue(before, DecodeSlotChange(frame, top).value, top + 1);
  }

  /** A hardware error packet is reported for the slot in octet 1 with the code in octet 3, and moves no slot. */
  lemma HardwareErrorIsReported(states: seq<SlotState>, frame: seq<byte>)
    requires 0 < |states| <= 256 && 4 <= |frame| && frame[0] == 0x51
    ensures React(states, Packet(frame)) == Reaction(states, Ok([HardwareFault(frame[1], frame[3])]))
  {
  }

  /** Every other packet is refused, and why. */
  lemma OtherPacketsAreRefused(states: seq<SlotState>, frame: seq<byte>)
    requires 0 < |states| <= 256
    ensures var r := React(states, Packet(frame));
            && (frame == [] ==> r == Reaction(states, Err(TruncatedHeader)))
            && (frame != [] && frame[0] != 0x50 && frame[0] != 0x51 ==>
                  r == Reaction(states, Err(UnexpectedMessageType(0x50, frame[0]))))
            && (frame != [] && frame[0] == 0x51 && |frame| < 4 ==> r == Reaction(states, Err(LengthMismatch)))
            && (frame != [] && frame[0] == 0x50 && 4 * (|frame| - 1) < |states| ==>
                  r == Reaction(states, Err(LengthMismatch)))
            && (frame != [] && frame[0] == 0x50 && 4 * (|frame| - 1) >= |states| ==> r.events.Ok?)
  {
    hide Swept, SlotBit;
  }
}
