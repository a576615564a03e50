/** Unblocking and activating a card's PINs, as functions from one world to the next. */
module Manage {
  import opened Wrappers
  import opened Bytes
  import opened Credentials
  import opened Containers
  import opened PinCard
  import opened RetryFloor

  datatype AuthError = Transport | Floor(refusal: FloorRefusal) | PinLength

  datatype Done<+T> = Done(world: World, result: Result<T, AuthError>)

  datatype ActivationScheme = ActivationCodeIsPuk | PresetActivationPin

  function Ask(w: World, command: Command): (asked: Done<Reply>)
    ensures asked.result.Err? ==> asked.result.error == Transport
  {
    var sent := Send(w, command);
    Done(sent.world, if sent.reply.Some? then Ok(sent.reply.value) else Err(Transport))
  }

  function Classified(asked: Done<Reply>): Done<ManageOutcome> {
    Done(asked.world,
         if asked.result.Ok? then Ok(ClassifyManage(asked.result.value.word)) else Err(asked.result.error))
  }

  function ChangePin(w: World, numbering: Numbering, slot: PinSlot, current: seq<byte>,
                     chosen: seq<byte>): Done<ManageOutcome>
  {
    Classified(Ask(w, Change(Reference(numbering, slot), Blocks(numbering, [current, chosen]))))
  }

  function VerifyPuk(w: World, numbering: Numbering, puk: seq<byte>): Done<ManageOutcome> {
    Classified(Ask(w, Verify(Reference(numbering, Puk), Blocks(numbering, [puk]))))
  }

  function ResetPinOnly(w: World, numbering: Numbering, slot: PinSlot, chosen: seq<byte>): Done<ManageOutcome> {
    Classified(Ask(w, ResetNewOnly(Reference(numbering, slot), Blocks(numbering, [chosen]))))
  }

  function ResetWithPuk(w: World, numbering: Numbering, slot: PinSlot, puk: seq<byte>,
                        chosen: seq<byte>): Done<ManageOutcome>
  {
    Classified(Ask(w, ResetWithCode(Reference(numbering, slot), Blocks(numbering, [puk, chosen]))))
  }

  function PinStatusOf(w: World, numbering: Numbering, role: Role): Done<PinStatus> {
    var asked := Ask(w, Probe(Reference(numbering, role)));
    Done(asked.world,
         if asked.result.Ok? then Ok(ClassifyPinStatus(asked.result.value.word)) else Err(asked.result.error))
  }

  datatype Resolved = Resolved(numbering: Numbering, status: PinStatus)

  /** The numbering the card answers PIN 1 under, the citizen one when neither is recognised. */
  function Pin1StatusAndNumbering(w: World): Done<Resolved> {
    var citizen := Ask(w, Probe(Reference(Citizen, Pin1)));
    if citizen.result.Err? then Done(citizen.world, Err(citizen.result.error))
    else if citizen.result.value.word != ReferenceDataNotFound then
      Done(citizen.world, Ok(Resolved(Citizen, ClassifyPinStatus(citizen.result.value.word))))
    else
      var other := PinStatusOf(citizen.world, Organizational, Pin1);
      Done(other.world,
           if other.result.Err? then Err(other.result.error)
           else if other.result.value.OtherStatus? then Ok(Resolved(Citizen, OtherStatus(ReferenceDataNotFound)))
           else Ok(Resolved(Organizational, other.result.value)))
  }

  function ContainerStatus(reply: Reply): PinStatus {
    if reply.word.Success? then
      var read := CounterFrom(reply.body, 0);
      if read.Some? then Remaining(read.value) else NoInfo
    else if IsBlocked(reply.word) then Locked
    else OtherStatus(reply.word)
  }

  function PukStatusFromContainer(w: World): Done<PinStatus> {
    var asked := Ask(w, GetData(Reference(Citizen, Puk)));
    Done(asked.world, if asked.result.Ok? then Ok(ContainerStatus(asked.result.value)) else Err(asked.result.error))
  }

  function PukStatus(w: World, numbering: Numbering): Done<PinStatus> {
    var probed := PinStatusOf(w, numbering, Puk);
    if probed.result.Ok? && numbering.Citizen? && !probed.result.value.Remaining? && !probed.result.value.Locked?
    then PukStatusFromContainer(probed.world)
    else probed
  }

  function Unblock(w: World, numbering: Numbering, slot: PinSlot, puk: seq<byte>,
                   chosen: seq<byte>): Done<ManageOutcome>
  {
    var counter := PukStatus(w, numbering);
    if counter.result.Err? then Done(counter.world, Err(counter.result.error))
    else
      var refusal := CheckRetryFloor(Puk, counter.result.value);
      if refusal.Some? then Done(counter.world, Err(Floor(refusal.value)))
      else if numbering.Citizen? then ResetWithPuk(counter.world, numbering, slot, puk, chosen)
      else
        var verified := VerifyPuk(counter.world, numbering, puk);
        if verified.result != Ok(Updated) then verified else ResetPinOnly(verified.world, numbering, slot, chosen)
  }

  predicate AwaitsActivation(scheme: ActivationScheme, record: ChangeRecord, status: PinStatus) {
    match record
    case Unchanged => true
    case Changed => false
    case Unreadable => scheme.ActivationCodeIsPuk? && (status.Locked? || status == Remaining(0))
  }

  datatype SlotReading = SlotReading(awaits: bool, status: PinStatus)

  datatype Reading = Reading(pin1: SlotReading, pin2: SlotReading)

  /** The record is asked for under the citizen numbering whatever the card's. */
  function ReadRecordOf(w: World, slot: PinSlot): Done<ChangeRecord> {
    var asked := Ask(w, GetData(Reference(Citizen, slot)));
    Done(asked.world,
         if asked.result.Err? then Err(asked.result.error)
         else if asked.result.value.word.Success? then Ok(RecordFrom(asked.result.value.body, 0))
         else Ok(Unreadable))
  }

  function ReadSlot(w: World, scheme: ActivationScheme, numbering: Numbering, slot: PinSlot): Done<SlotReading> {
    var record := ReadRecordOf(w, slot);
    if record.result.Err? then Done(record.world, Err(record.result.error))
    else
      var status := PinStatusOf(record.world, numbering, slot);
      Done(status.world,
           if status.result.Err? then Err(status.result.error)
           else Ok(SlotReading(AwaitsActivation(scheme, record.result.value, status.result.value),
                               status.result.value)))
  }

  function ReadActivation(w: World, scheme: ActivationScheme, numbering: Numbering): Done<Reading> {
    var one := ReadSlot(w, scheme, numbering, Pin1);
    if one.result.Err? then Done(one.world, Err(one.result.error))
    else
      var two := ReadSlot(one.world, scheme, numbering, Pin2);
      Done(two.world,
           if two.result.Err? then Err(two.result.error)
           else Ok(Reading(one.result.value, two.result.value)))
  }

  datatype Report = Report(pin1: Option<ManageOutcome>, pin2: Option<ManageOutcome>)

  /** The activation code shown as the PIN it activates, or as the PUK. */
  function SetPin(w: World, scheme: ActivationScheme, numbering: Numbering, slot: PinSlot,
                  code: seq<byte>, chosen: seq<byte>): Done<ManageOutcome>
  {
    if scheme.PresetActivationPin? then ChangePin(w, numbering, slot, code, chosen)
    else Unblock(w, numbering, slot, code, chosen)
  }

  /** The floor over every PIN about to be changed, before the first change. */
  function PresetRefusal(scheme: ActivationScheme, first: bool, second: bool, reading: Reading): Option<FloorRefusal> {
    if scheme.ActivationCodeIsPuk? then None
    else if first && CheckLastTries(Pin1, reading.pin1.status).Some? then CheckLastTries(Pin1, reading.pin1.status)
    else if second then CheckLastTries(Pin2, reading.pin2.status)
    else None
  }

  function ActivateSecond(w: World, scheme: ActivationScheme, numbering: Numbering, code: seq<byte>,
                          pin1: Option<ManageOutcome>, second: bool, new2: seq<byte>): Done<Report> {
    if !second then Done(w, Ok(Report(pin1, None)))
    else
      var two := SetPin(w, scheme, numbering, Pin2, code, new2);
      Done(two.world, if two.result.Err? then Err(two.result.error) else Ok(Report(pin1, Some(two.result.value))))
  }

  function ActivateBoth(w: World, scheme: ActivationScheme, numbering: Numbering, code: seq<byte>,
                        first: bool, new1: seq<byte>, second: bool, new2: seq<byte>): Done<Report> {
    if !first then ActivateSecond(w, scheme, numbering, code, None, second, new2)
    else
      var one := SetPin(w, scheme, numbering, Pin1, code, new1);
      if one.result.Err? then Done(one.world, Err(one.result.error))
      else if one.result.value != Updated then Done(one.world, Ok(Report(Some(one.result.value), None)))
      else ActivateSecond(one.world, scheme, numbering, code, Some(one.result.value), second, new2)
  }

  function Digits(entry: Option<seq<byte>>): seq<byte> {
    if entry.Some? then entry.value else []
  }

  function Activate(w: World, scheme: ActivationScheme, numbering: Numbering, code: seq<byte>,
                    new1: Option<seq<byte>>, new2: Option<seq<byte>>): Done<Report> {
    var read := ReadActivation(w, scheme, numbering);
    if read.result.Err? then Done(read.world, Err(read.result.error))
    else
      var reading := read.result.value;
      var first, second := reading.pin1.awaits && new1.Some?, reading.pin2.awaits && new2.Some?;
      var refusal := PresetRefusal(scheme, first, second, reading);
      if refusal.Some? then Done(read.world, Err(Floor(refusal.value)))
      else ActivateBoth(read.world, scheme, numbering, code, first, Digits(new1), second, Digits(new2))
  }

  /** A call a user interface can make; `fits` is the verdict of the card's length table. */
  datatype Call =
    | UnblockCall(fits: bool, numbering: Numbering, slot: PinSlot, puk: seq<byte>, chosen: seq<byte>)
    | ActivateCall(fits: bool, scheme: ActivationScheme, numbering: Numbering, code: seq<byte>,
                   new1: Option<seq<byte>>, new2: Option<seq<byte>>)

  function Perform(w: World, call: Call): World {
    if !call.fits then w
    else match call
      case UnblockCall(_, numbering, slot, puk, chosen) => Unblock(w, numbering, slot, puk, chosen).world
      case ActivateCall(_, scheme, numbering, code, new1, new2) =>
        Activate(w, scheme, numbering, code, new1, new2).world
  }

  function Run(w: World, calls: seq<Call>): World {
    if calls == [] then w else Perform(Run(w, calls[..|calls| - 1]), calls[|calls| - 1])
  }
}
