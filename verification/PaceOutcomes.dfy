/** What a call on a PACE channel does on a card whose answers all arrive, whatever they say. */
module PaceOutcomes {
  import opened Wrappers
  import opened Bytes
  import opened Credentials
  import opened Containers
  import opened PinCard
  import opened RetryFloor
  import opened Manage
  import opened ManageOutcomes
  import opened PaceChannel

  /** The smaller of the record and a count the card named, which stays readable while a try is left. */
  function Capped(record: PinStatus, left: Tries): PinStatus {
    match record
    case Remaining(n) => if n < left then record else if left == 0 then Locked else Remaining(left)
    case Verified => if left == 0 then Locked else Remaining(left)
    case _ => record
  }

  /** The record after a credential was shown and refused with `left` tries left. */
  function RecordAfter(record: PinStatus, left: Tries, whim: Whim): PinStatus {
    if record.Locked? || record.NoInfo? || record.OtherStatus? then record
    else if whim.vague.Some? then NoInfo
    else if left == 0 && whim.blockedAs.Some? then Locked
    else Capped(record, left)
  }

  lemma NamedCountKeepsTheRecord(record: PinStatus, left: Tries, whim: Whim)
    ensures Lowered(record, RefusedAs(left, whim)) == RecordAfter(record, left, whim)
    ensures record.Remaining? && whim.vague.None? && left > 0 ==>
              RecordAfter(record, left, whim) == Remaining(if record.tries < left then record.tries else left)
  {
  }

  /** What a reset without a code does: the channel's password, or a verified PUK, allows it or not. */
  lemma PlainReset(c: Channel, slot: PinSlot, chosen: seq<byte>)
    requires Answered(c.world) && c.world.card.numbering.Organizational?
    ensures var done := ResetPlainly(c, slot, chosen);
      var card := c.world.card;
      var allowed := || card.puk.verified || card.channel == Some(Puk)
                     || (card.channel == Some(Pin1) && slot == Pin1);
      && done.channel.record == c.record
      && done.result == Ok(if allowed then Updated else OtherOutcome(SecurityStatusNotSatisfied))
      && done.channel.world.card ==
           if allowed then ResetCard(card, slot, Block(Organizational, chosen)) else card
  {
    hide Ask, Blocks, Block;
    OneBlock(Organizational, chosen);
    ReferencesAreDistinct(Organizational, Organizational, slot);
    AnsweredAsk(c.world, ResetNewOnly(Reference(Organizational, slot), Blocks(Organizational, [chosen])));
  }

  /** The readings after which the PUK is shown again. */
  predicate PukMayBeShown(record: PinStatus) {
    record.Locked? || (record.Remaining? && (record.tries == 0 || 3 <= record.tries <= 5))
  }

  function Verifying(card: Card): Card {
    card.With(Puk, card.puk.(tries := card.puk.limit, verified := true))
  }

  /**
   On a channel opened with the PUK, a call that shows the PUK again is refused, with nothing changed, when the
   record is not one of none or three to five tries; sets the PIN it names to the digits given when the PUK
   is right; and otherwise costs the PUK a try, which the caller and the record are told of.
   */
  lemma PukChannelOutcome(c: Channel, slot: PinSlot, chosen: seq<byte>, digits: seq<byte>)
    requires Answered(c.world) && c.world.card.numbering.Organizational?
    ensures var done := ResetAfterPukPace(c, slot, chosen, PresentAgain(digits));
      var card, after := c.world.card, done.channel.world.card;
      var left := Spent(card.puk).tries;
      if !PukMayBeShown(c.record) then
        && done.channel == c && done.result.Err? && done.result.error.Floor?
      else if card.puk.tries > 0 && RightPuk(card, digits) then
        && done.result == Ok(Updated) && done.channel.record == c.record
        && after == ResetCard(Verifying(card), slot, Block(Organizational, chosen))
      else
        && done.result == Ok(RefusedAs(left, WhimAt(c.world, 0)))
        && done.channel.record == RecordAfter(c.record, left, WhimAt(c.world, 0))
        && after == card.With(Puk, Spent(card.puk))
  {
    hide VerifyPuk, ResetPlainly, CheckRetryFloor, CommandsLater, Answered, Block, ResetCard, RefusedAs, RecordAfter,
         WhimAt;
    FloorServesExactly(Puk, c.record);
    OrganizationalVerify(c.world, digits);
    var verified := VerifyPuk(c.world, Organizational, digits);
    LaterAnswers(c.world, verified.world, 1);
    var left := Spent(c.world.card.puk).tries;
    RefusedIsNotUpdated(left, WhimAt(c.world, 0));
    NamedCountKeepsTheRecord(c.record, left, WhimAt(c.world, 0));
    if verified.result == Ok(Updated) {
      PlainReset(Noted(c, verified), slot, chosen);
    }
  }

  /**
   On a channel opened with PIN 1, a change of PIN 1 is refused, with nothing changed, when the record names
   other than three to five tries or no count; else it is the change a bare card makes, and a refused one
   lowers the record.
   */
  lemma Pin1ChannelOutcome(c: Channel, chosen: seq<byte>, digits: seq<byte>)
    requires Answered(c.world) && c.world.card.numbering.Organizational? && Typed(digits) && Typed(chosen)
    ensures var done := ChangePin1AfterPin1Pace(c, chosen, PresentAgain(digits));
      var pin, card := c.world.card.pin1, c.world.card;
      if !c.record.Verified? && !(c.record.Remaining? && 3 <= c.record.tries <= 5) then
        && done.channel == c && done.result.Err? && done.result.error.Floor?
      else if pin.tries > 0 && pin.secret <= digits + chosen then
        && done.result == Ok(Updated) && done.channel.record == c.record
        && done.channel.world.card == card.(pin1 := Renewed(pin, (digits + chosen)[|pin.secret|..]))
      else
        && done.result == Ok(RefusedAs(Spent(pin).tries, WhimAt(c.world, 0)))
        && done.channel.record == RecordAfter(c.record, Spent(pin).tries, WhimAt(c.world, 0))
        && done.channel.world.card == card.(pin1 := Spent(pin))
  {
    hide ChangePin, CheckRetryFloor, CommandsLater, Answered, Block, RefusedAs, RecordAfter, WhimAt;
    FloorServesExactly(Pin1, c.record);
    ChangeOutcome(c.world, Pin1, digits, chosen);
    var left := Spent(c.world.card.pin1).tries;
    RefusedIsNotUpdated(left, WhimAt(c.world, 0));
    NamedCountKeepsTheRecord(c.record, left, WhimAt(c.world, 0));
  }

  /** A handshake is proof enough: the call is the plain reset of the PIN it names, PIN 1 on PIN 1's own channel. */
  lemma HandshakeOutcome(c: Channel, slot: PinSlot, chosen: seq<byte>)
    requires Answered(c.world) && c.world.card.numbering.Organizational?
    requires c.world.card.channel == Some(Puk) || (c.world.card.channel == Some(Pin1) && slot == Pin1)
    ensures var done := if c.world.card.channel == Some(Puk) then ResetAfterPukPace(c, slot, chosen, PaceHandshake)
                        else ChangePin1AfterPin1Pace(c, chosen, PaceHandshake);
      && done.result == Ok(Updated) && done.channel.record == c.record
      && done.channel.world.card == ResetCard(c.world.card, slot, Block(Organizational, chosen))
  {
    hide ResetPlainly, ResetCard, Block, Answered;
    PlainReset(c, slot, chosen);
  }
}
