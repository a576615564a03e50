/** The credential operations as they run on a transport, each proved to be its function in Manage or PaceChannel. */
module CardOps {
  import opened Wrappers
  import opened Bytes
  import opened Credentials
  import opened Containers
  import opened PinCard
  import opened RetryFloor
  import Manage
  import PaceChannel

  datatype Instruction = VerifyIns | ChangeIns | ResetCodeIns | ResetOnlyIns

  function Assembled(instruction: Instruction, reference: byte, body: seq<byte>): Command {
    match instruction
    case VerifyIns => Verify(reference, body)
    case ChangeIns => Change(reference, body)
    case ResetCodeIns => ResetWithCode(reference, body)
    case ResetOnlyIns => ResetNewOnly(reference, body)
  }

  class CardTransport {
    var card: Card
    var whims: seq<Whim>
    ghost var log: seq<Exchange>

    constructor (card: Card, whims: seq<Whim>)
      ensures View() == World(card, whims, [])
    {
      this.card, this.whims, this.log := card, whims, [];
    }

    ghost function View(): World
      reads this
    {
      World(card, whims, log)
    }

    /** Sends one command; nothing comes back when the wire fails. */
    method Transmit(command: Command) returns (r: Result<Reply, Manage.AuthError>)
      modifies this
      ensures View() == Manage.Ask(old(View()), command).world
      ensures r == Manage.Ask(old(View()), command).result
    {
      hide After, Answer;
      var whim := if whims == [] then PLAIN else whims[0];
      var before := card;
      card := if whim.fate.LostBefore? then card else After(card, command, whim);
      whims := if whims == [] then [] else whims[1..];
      log := log + [Exchange(before, command, card)];
      r := if whim.fate.Delivered? then Ok(Answer(before, command, whim)) else Err(Manage.Transport);
    }

    /** Lays the digit groups out, sends them in one command and classifies the answer. */
    method CredentialExchange(numbering: Numbering, instruction: Instruction, reference: byte, groups: seq<seq<byte>>)
      returns (r: Result<ManageOutcome, Manage.AuthError>)
      requires |groups| <= 2
      modifies this
      ensures var command := Assembled(instruction, reference, Blocks(numbering, groups));
        var done := Manage.Classified(Manage.Ask(old(View()), command));
        View() == done.world && r == done.result
    {
      hide Manage.Ask, Blocks;
      var body := new byte[BODY_MAX](_ => PAD);
      var total := WriteCredentialBlocks(numbering, groups, body);
      var reply := Transmit(Assembled(instruction, reference, body[..total]));
      r := if reply.Ok? then Ok(ClassifyManage(reply.value.word)) else Err(reply.error);
    }

    method ChangePin(numbering: Numbering, slot: PinSlot, current: seq<byte>, chosen: seq<byte>)
      returns (r: Result<ManageOutcome, Manage.AuthError>)
      modifies this
      ensures var done := Manage.ChangePin(old(View()), numbering, slot, current, chosen);
        View() == done.world && r == done.result
    {
      hide Manage.Ask, Blocks;
      r := CredentialExchange(numbering, ChangeIns, Reference(numbering, slot), [current, chosen]);
    }

    method VerifyPuk(numbering: Numbering, puk: seq<byte>) returns (r: Result<ManageOutcome, Manage.AuthError>)
      modifies this
      ensures var done := Manage.VerifyPuk(old(View()), numbering, puk);
        View() == done.world && r == done.result
    {
      hide Manage.Ask, Blocks;
      r := CredentialExchange(numbering, VerifyIns, Reference(numbering, Puk), [puk]);
    }

    method ResetPinOnly(numbering: Numbering, slot: PinSlot, chosen: seq<byte>)
      returns (r: Result<ManageOutcome, Manage.AuthError>)
      modifies this
      ensures var done := Manage.ResetPinOnly(old(View()), numbering, slot, chosen);
        View() == done.world && r == done.result
    {
      hide Manage.Ask, Blocks;
      r := CredentialExchange(numbering, ResetOnlyIns, Reference(numbering, slot), [chosen]);
    }

    method PinStatusOf(numbering: Numbering, role: Role) returns (r: Result<PinStatus, Manage.AuthError>)
      modifies this
      ensures var done := Manage.PinStatusOf(old(View()), numbering, role);
        View() == done.world && r == done.result
    {
      hide Manage.Ask;
      var reply := Transmit(Probe(Reference(numbering, role)));
      r := if reply.Ok? then Ok(ClassifyPinStatus(reply.value.word)) else Err(reply.error);
    }

    method Pin1StatusAndNumbering() returns (r: Result<Manage.Resolved, Manage.AuthError>)
      modifies this
      ensures var done := Manage.Pin1StatusAndNumbering(old(View()));
        View() == done.world && r == done.result
    {
      hide Manage.Ask, Manage.PinStatusOf;
      var citizen := Transmit(Probe(Reference(Citizen, Pin1)));
      if citizen.Err? {
        return Err(citizen.error);
      }
      if citizen.value.word != ReferenceDataNotFound {
        return Ok(Manage.Resolved(Citizen, ClassifyPinStatus(citizen.value.word)));
      }
      var organizational := PinStatusOf(Organizational, Pin1);
      if organizational.Err? {
        return Err(organizational.error);
      }
      if organizational.value.OtherStatus? {
        return Ok(Manage.Resolved(Citizen, ClassifyPinStatus(citizen.value.word)));
      }
      return Ok(Manage.Resolved(Organizational, organizational.value));
    }

    method PukStatusFromContainer() returns (r: Result<PinStatus, Manage.AuthError>)
      modifies this
      ensures var done := Manage.PukStatusFromContainer(old(View()));
        View() == done.world && r == done.result
    {
      hide Manage.Ask, CounterFrom;
      var reply := Transmit(GetData(Reference(Citizen, Puk)));
      if reply.Err? {
        return Err(reply.error);
      }
      if reply.value.word.Success? {
        var tries := ReadCounter(reply.value.body);
        return Ok(if tries.Some? then Remaining(tries.value) else NoInfo);
      }
      return Ok(if IsBlocked(reply.value.word) then Locked else OtherStatus(reply.value.word));
    }

    method PukStatus(numbering: Numbering) returns (r: Result<PinStatus, Manage.AuthError>)
      modifies this
      ensures var done := Manage.PukStatus(old(View()), numbering);
        View() == done.world && r == done.result
    {
      hide Manage.PinStatusOf, Manage.PukStatusFromContainer;
      r := PinStatusOf(numbering, Puk);
      if r.Ok? && numbering.Citizen? && !r.value.Remaining? && !r.value.Locked? {
        r := PukStatusFromContainer();
      }
    }

    method Unblock(numbering: Numbering, slot: PinSlot, puk: seq<byte>, chosen: seq<byte>)
      returns (r: Result<ManageOutcome, Manage.AuthError>)
      modifies this
      ensures var done := Manage.Unblock(old(View()), numbering, slot, puk, chosen);
        View() == done.world && r == done.result
    {
      hide Manage.PukStatus, Manage.VerifyPuk, Manage.ResetPinOnly, Manage.Ask, Blocks, CheckRetryFloor;
      var counter := PukStatus(numbering);
      if counter.Err? {
        return Err(counter.error);
      }
      var refusal := CheckRetryFloor(Puk, counter.value);
      if refusal.Some? {
        return Err(Manage.Floor(refusal.value));
      }
      if numbering.Citizen? {
        r := CredentialExchange(numbering, ResetCodeIns, Reference(numbering, slot), [puk, chosen]);
      } else {
        r := VerifyPuk(numbering, puk);
        if r == Ok(Updated) {
          r := ResetPinOnly(numbering, slot, chosen);
        }
      }
    }

    method ReadSlot(scheme: Manage.ActivationScheme, numbering: Numbering, slot: PinSlot)
      returns (r: Result<Manage.SlotReading, Manage.AuthError>)
      modifies this
      ensures var done := Manage.ReadSlot(old(View()), scheme, numbering, slot);
        View() == done.world && r == done.result
    {
      hide Manage.Ask, Manage.PinStatusOf, RecordFrom;
      var reply := Transmit(GetData(Reference(Citizen, slot)));
      if reply.Err? {
        return Err(reply.error);
      }
      var record := Unreadable;
      if reply.value.word.Success? {
        record := ReadRecord(reply.value.body);
      }
      var status := PinStatusOf(numbering, slot);
      if status.Err? {
        return Err(status.error);
      }
      return Ok(Manage.SlotReading(Manage.AwaitsActivation(scheme, record, status.value), status.value));
    }

    method ReadActivation(scheme: Manage.ActivationScheme, numbering: Numbering)
      returns (r: Result<Manage.Reading, Manage.AuthError>)
      modifies this
      ensures var done := Manage.ReadActivation(old(View()), scheme, numbering);
        View() == done.world && r == done.result
    {
      hide Manage.ReadSlot;
      var one := ReadSlot(scheme, numbering, Pin1);
      if one.Err? {
        return Err(one.error);
      }
      var two := ReadSlot(scheme, numbering, Pin2);
      if two.Err? {
        return Err(two.error);
      }
      return Ok(Manage.Reading(one.value, two.value));
    }

    method SetPin(scheme: Manage.ActivationScheme, numbering: Numbering, slot: PinSlot, code: seq<byte>,
                  chosen: seq<byte>)
      returns (r: Result<ManageOutcome, Manage.AuthError>)
      modifies this
      ensures var done := Manage.SetPin(old(View()), scheme, numbering, slot, code, chosen);
        View() == done.world && r == done.result
    {
      hide Manage.ChangePin, Manage.Unblock;
      if scheme.PresetActivationPin? {
        r := ChangePin(numbering, slot, code, chosen);
      } else {
        r := Unblock(numbering, slot, code, chosen);
      }
    }

    method Activate(scheme: Manage.ActivationScheme, numbering: Numbering, code: seq<byte>,
                    new1: Option<seq<byte>>, new2: Option<seq<byte>>)
      returns (r: Result<Manage.Report, Manage.AuthError>)
      modifies this
      ensures var done := Manage.Activate(old(View()), scheme, numbering, code, new1, new2);
        View() == done.world && r == done.result
    {
      hide Manage.ReadActivation, Manage.SetPin, CheckLastTries;
      var read := ReadActivation(scheme, numbering);
      if read.Err? {
        return Err(read.error);
      }
      var first, second := read.value.pin1.awaits && new1.Some?, read.value.pin2.awaits && new2.Some?;
      if scheme.PresetActivationPin? {
        if first && CheckLastTries(Pin1, read.value.pin1.status).Some? {
          return Err(Manage.Floor(CheckLastTries(Pin1, read.value.pin1.status).value));
        }
        if second && CheckLastTries(Pin2, read.value.pin2.status).Some? {
          return Err(Manage.Floor(CheckLastTries(Pin2, read.value.pin2.status).value));
        }
      }
      var report := Manage.Report(None, None);
      if first {
        var one := SetPin(scheme, numbering, Pin1, code, new1.value);
        if one.Err? {
          return Err(one.error);
        }
        report := report.(pin1 := Some(one.value));
        if one.value != Updated {
          return Ok(report);
        }
      }
      if second {
        var two := SetPin(scheme, numbering, Pin2, code, new2.value);
        if two.Err? {
          return Err(two.error);
        }
        report := report.(pin2 := Some(two.value));
      }
      return Ok(report);
    }
  }

  /** A transport behind a PACE channel, with the record of the counter of the password that opened it. */
  class PaceTransport {
    const inner: CardTransport
    var record: PinStatus

    constructor (inner: CardTransport, record: PinStatus)
      ensures this.inner == inner && View() == PaceChannel.Channel(inner.View(), record)
    {
      this.inner, this.record := inner, record;
    }

    ghost function View(): PaceChannel.Channel
      reads this, inner
    {
      PaceChannel.Channel(inner.View(), record)
    }

    method ResetAfterPukPace(slot: PinSlot, chosen: seq<byte>, proof: PaceChannel.ChannelProof)
      returns (r: Result<ManageOutcome, Manage.AuthError>)
      modifies this, inner
      ensures var done := PaceChannel.ResetAfterPukPace(old(View()), slot, chosen, proof);
        View() == done.channel && r == done.result
    {
      hide Manage.VerifyPuk, Manage.ResetPinOnly, CheckRetryFloor, PaceChannel.Lowered;
      if proof.PresentAgain? {
        var refusal := CheckRetryFloor(Puk, record);
        if refusal.Some? {
          return Err(Manage.Floor(refusal.value));
        }
        r := inner.VerifyPuk(Organizational, proof.digits);
        if r.Ok? {
          record := PaceChannel.Lowered(record, r.value);
        }
        if r != Ok(Updated) {
          return;
        }
      }
      r := inner.ResetPinOnly(Organizational, slot, chosen);
    }

    method ChangePin1AfterPin1Pace(chosen: seq<byte>, proof: PaceChannel.ChannelProof)
      returns (r: Result<ManageOutcome, Manage.AuthError>)
      modifies this, inner
      ensures var done := PaceChannel.ChangePin1AfterPin1Pace(old(View()), chosen, proof);
        View() == done.channel && r == done.result
    {
      hide Manage.ChangePin, Manage.ResetPinOnly, CheckRetryFloor, PaceChannel.Lowered;
      if proof.PaceHandshake? {
        r := inner.ResetPinOnly(Organizational, Pin1, chosen);
        return;
      }
      var refusal := CheckRetryFloor(Pin1, record);
      if refusal.Some? {
        return Err(Manage.Floor(refusal.value));
      }
      r := inner.ChangePin(Organizational, Pin1, proof.digits, chosen);
      if r.Ok? {
        record := PaceChannel.Lowered(record, r.value);
      }
    }
  }
}
