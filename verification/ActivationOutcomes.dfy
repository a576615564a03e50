/** What an activation does on a card whose answers all arrive, whatever they say. */
module ActivationOutcomes {
  import opened Wrappers
  import opened Bytes
  import opened Credentials
  import opened Containers
  import opened PinCard
  import opened RetryFloor
  import opened Manage
  import opened ManageProofs
  import opened ManageOutcomes

  // ---- Which PINs an activation touches ----

  lemma ChangeTouchesItsPin(w: World, numbering: Numbering, slot: PinSlot, current: seq<byte>, chosen: seq<byte>,
                            role: Role)
    requires role != slot
    ensures ChangePin(w, numbering, slot, current, chosen).world.card.Of(role) == w.card.Of(role)
  {
    hide Blocks, Accepts;
    ReferencesAreDistinct(w.card.numbering, numbering, slot);
  }

  lemma AskTouchesItsPin(w: World, command: Command, numbering: Numbering, slot: Role, role: PinSlot)
    requires command.reference == Reference(numbering, slot) && role != slot && !command.Change?
    ensures Ask(w, command).world.card.Of(role) == w.card.Of(role)
  {
    hide Accepts, Blocks;
    ReferencesAreDistinct(w.card.numbering, numbering, slot);
  }

  lemma UnblockTouchesItsPin(w: World, numbering: Numbering, slot: PinSlot, puk: seq<byte>, chosen: seq<byte>,
                             role: PinSlot)
    requires role != slot
    ensures Unblock(w, numbering, slot, puk, chosen).world.card.Of(role) == w.card.Of(role)
  {
    hide PukStatus, Ask, Blocks, CheckRetryFloor;
    PukStatusTells(w, numbering);
    var v := PukStatus(w, numbering).world;
    AskTouchesItsPin(v, ResetWithCode(Reference(numbering, slot), Blocks(numbering, [puk, chosen])), numbering, slot,
                     role);
    var verify := Verify(Reference(numbering, Puk), Blocks(numbering, [puk]));
    AskTouchesItsPin(v, verify, numbering, Puk, role);
    var reset := ResetNewOnly(Reference(numbering, slot), Blocks(numbering, [chosen]));
    AskTouchesItsPin(Ask(v, verify).world, reset, numbering, slot, role);
  }

  lemma SetPinTouchesItsPin(w: World, scheme: ActivationScheme, numbering: Numbering, slot: PinSlot,
                            code: seq<byte>, chosen: seq<byte>, role: PinSlot)
    requires role != slot
    ensures SetPin(w, scheme, numbering, slot, code, chosen).world.card.Of(role) == w.card.Of(role)
  {
    hide ChangePin, Unblock;
    if scheme.PresetActivationPin? {
      ChangeTouchesItsPin(w, numbering, slot, code, chosen, role);
    } else {
      UnblockTouchesItsPin(w, numbering, slot, code, chosen, role);
    }
  }

  /** Whatever the card answers, an activation leaves a PIN that does not await it, or got no new value, as it was. */
  lemma ActivationTouchesAwaitingPins(w: World, scheme: ActivationScheme, numbering: Numbering, code: seq<byte>,
                                      new1: Option<seq<byte>>, new2: Option<seq<byte>>)
    ensures var read := ReadActivation(w, scheme, numbering);
      var after := Activate(w, scheme, numbering, code, new1, new2).world.card;
      && (read.result.Err? || !read.result.value.pin1.awaits || new1.None? ==> after.pin1 == w.card.pin1)
      && (read.result.Err? || !read.result.value.pin2.awaits || new2.None? ==> after.pin2 == w.card.pin2)
  {
    hide ReadActivation, SetPin, PresetRefusal;
    ActivationTells(w, scheme, numbering);
    var v := ReadActivation(w, scheme, numbering).world;
    var one := SetPin(v, scheme, numbering, Pin1, code, Digits(new1)).world;
    SetPinTouchesItsPin(v, scheme, numbering, Pin1, code, Digits(new1), Pin2);
    SetPinTouchesItsPin(v, scheme, numbering, Pin2, code, Digits(new2), Pin1);
    SetPinTouchesItsPin(one, scheme, numbering, Pin2, code, Digits(new2), Pin1);
  }

  // ---- Which PINs await activation ----

  /** What the container shows of a PIN: nothing on an organizational card, or when its answer is not a success. */
  function ShownRecord(card: Card, slot: PinSlot, whim: Whim): ChangeRecord {
    if card.numbering.Citizen? && whim.vague.None? && !(card.Of(slot).tries == 0 && whim.blockedAs.Some?)
    then RecordFrom(whim.container, 0)
    else Unreadable
  }

  /**
   A PIN awaits activation when the container shows it unchanged, or shows nothing, the code is the PUK and
   the probe says that no try is left.
   */
  predicate Awaits(card: Card, scheme: ActivationScheme, slot: PinSlot, container: Whim, probe: Whim) {
    var record := ShownRecord(card, slot, container);
    || record == Unchanged
    || (record == Unreadable && scheme.ActivationCodeIsPuk? && card.Of(slot).tries == 0 && probe.vague.None?)
  }

  /** A PIN is found awaiting activation exactly when it does. */
  lemma AwaitingIsTheFactoryState(w: World, scheme: ActivationScheme, slot: PinSlot)
    requires Sound(w.card) && Answered(w)
    ensures var read := ReadSlot(w, scheme, w.card.numbering, slot);
      && CommandsLater(w, read.world, 2) && read.world.card == w.card && read.result.Ok?
      && Says(read.result.value.status, if !w.card.Of(slot).verified && WhimAt(w, 1).vague.None?
                                        then Some(w.card.Of(slot).tries) else None)
      && (read.result.value.status.Verified? <==> w.card.Of(slot).verified)
      && (read.result.value.awaits <==> Awaits(w.card, scheme, slot, WhimAt(w, 0), WhimAt(w, 1)))
  {
    hide Ask, RecordFrom, CounterFrom, Accepts, PinStatusOf, CommandsLater, Answered;
    assert CredentialSound(w.card.Of(slot));
    ReferencesAreDistinct(w.card.numbering, Citizen, slot);
    AnsweredAsk(w, GetData(Reference(Citizen, slot)));
    var v := Ask(w, GetData(Reference(Citizen, slot))).world;
    LaterAnswers(w, v, 1);
    ProbeSays(v, slot);
    assert WhimAt(v, 0) == WhimAt(w, 1 + 0);
    LaterStill(w, 1, v, 1, PinStatusOf(v, w.card.numbering, slot).world);
  }

  /** PIN 1 is read by the first two commands, PIN 2 by the next two. */
  predicate FirstAwaits(w: World, scheme: ActivationScheme) {
    Awaits(w.card, scheme, Pin1, WhimAt(w, 0), WhimAt(w, 1))
  }

  predicate SecondAwaits(w: World, scheme: ActivationScheme) {
    Awaits(w.card, scheme, Pin2, WhimAt(w, 2), WhimAt(w, 3))
  }

  lemma AnsweredReading(w: World, scheme: ActivationScheme)
    requires Sound(w.card) && Answered(w)
    ensures var read := ReadActivation(w, scheme, w.card.numbering);
      && CommandsLater(w, read.world, 4) && read.world.card == w.card && read.result.Ok?
      && read.result.value.pin1 == ReadSlot(w, scheme, w.card.numbering, Pin1).result.value
      && read.result.value.pin2 ==
           ReadSlot(ReadSlot(w, scheme, w.card.numbering, Pin1).world, scheme, w.card.numbering, Pin2).result.value
      && (read.result.value.pin1.awaits <==> FirstAwaits(w, scheme))
      && (read.result.value.pin2.awaits <==> SecondAwaits(w, scheme))
  {
    hide ReadSlot, CommandsLater, Answered, Awaits;
    AwaitingIsTheFactoryState(w, scheme, Pin1);
    var v := ReadSlot(w, scheme, w.card.numbering, Pin1).world;
    LaterAnswers(w, v, 2);
    AwaitingIsTheFactoryState(v, scheme, Pin2);
    assert WhimAt(v, 0) == WhimAt(w, 2 + 0) && WhimAt(v, 1) == WhimAt(w, 2 + 1);
    LaterStill(w, 2, v, 2, ReadSlot(v, scheme, w.card.numbering, Pin2).world);
  }

  // ---- The activation code as the PUK ----

  /**
   One activation with the code as the PUK, whichever PINs await it and whichever new values are given. PIN 1
   is tried when it awaits and a value is given, and PIN 2 when it does and PIN 1 was set or not tried. Each
   try is an unblock at that point. The caller gets the first refusal, and else a report of exactly the PINs
   tried and how each ended.
   */
  lemma PukActivation(w: World, code: seq<byte>, new1: Option<seq<byte>>, new2: Option<seq<byte>>)
    requires Sound(w.card) && Answered(w) && Stored(w.card)
    ensures var n := w.card.numbering;
      var v := ReadActivation(w, ActivationCodeIsPuk, n).world;
      var u := if FirstAwaits(w, ActivationCodeIsPuk) && new1.Some? then Unblock(v, n, Pin1, code, new1.value).world
               else v;
      var done := Activate(w, ActivationCodeIsPuk, n, code, new1, new2);
      var one, two := UnblockVerdict(v, code), UnblockVerdict(u, code);
      var first := FirstAwaits(w, ActivationCodeIsPuk) && new1.Some?;
      var second := SecondAwaits(w, ActivationCodeIsPuk) && new2.Some? && (first ==> one == Ok(Updated));
      && v.card == w.card && CommandsLater(w, v, 4)
      && u.card == (if first then UnblockedCard(v, Pin1, code, new1.value) else w.card)
      && done.world.card == (if second then UnblockedCard(u, Pin2, code, new2.value) else u.card)
      && done.result ==
           (if first && one.Err? then Err(one.error)
            else if second && two.Err? then Err(two.error)
            else Ok(Report(if first then Some(one.value) else None, if second then Some(two.value) else None)))
  {
    hide ReadActivation, Unblock, Block, Answered, NamesCounts, CommandsLater, UnblockVerdict, UnblockedCard,
         FirstAwaits, SecondAwaits;
    var n := w.card.numbering;
    AnsweredReading(w, ActivationCodeIsPuk);
    var v := ReadActivation(w, ActivationCodeIsPuk, n).world;
    LaterAnswers(w, v, 4);
    if FirstAwaits(w, ActivationCodeIsPuk) && new1.Some? {
      UnblockOutcome(v, Pin1, code, new1.value);
      var u := Unblock(v, n, Pin1, code, new1.value).world;
      UnblockLeaves(v, n, Pin1, code, new1.value);
      UnblockedIsSound(v, Pin1, code, new1.value);
      if new2.Some? {
        UnblockOutcome(u, Pin2, code, new2.value);
      }
    } else if new2.Some? {
      UnblockOutcome(v, Pin2, code, new2.value);
    }
  }

  lemma UnblockedIsSound(w: World, slot: PinSlot, code: seq<byte>, chosen: seq<byte>)
    requires Sound(w.card) && Stored(w.card)
    ensures var card := UnblockedCard(w, slot, code, chosen);
      Sound(card) && Stored(card) && card.numbering == w.card.numbering
  {
    hide Block, Countable, RightPuk;
    assert CredentialSound(w.card.Of(Pin1)) && CredentialSound(w.card.Of(Pin2)) && CredentialSound(w.card.Of(Puk));
  }

  /**
   One activation of both PINs with the code as the PUK sets PIN 1 exactly when the code is right and the
   PUK's counter can be read as three to five, and then PIN 2 exactly when the counter can be read so again.
   Where it cannot, PIN 1 is set, PIN 2 is as it was, and the caller gets a counter-unreadable refusal. On a
   card that names its counts and does not start with the PUK verified, that is whenever the PUK's limit is
   above five, or the card is organizational and keeps the PUK verified.
   */
  lemma PukActivationOfBoth(w: World, code: seq<byte>, one: seq<byte>, two: seq<byte>)
    requires Sound(w.card) && Answered(w) && Stored(w.card)
    requires FirstAwaits(w, ActivationCodeIsPuk) && SecondAwaits(w, ActivationCodeIsPuk)
    ensures var n := w.card.numbering;
      var v := ReadActivation(w, ActivationCodeIsPuk, n).world;
      var u := Unblock(v, n, Pin1, code, one).world;
      var done := Activate(w, ActivationCodeIsPuk, n, code, Some(one), Some(two));
      var first := Countable(v) && RightPuk(w.card, code);
      var second := first && Countable(u);
      && (done.result == Ok(Report(Some(Updated), Some(Updated))) <==> second)
      && done.world.card.pin1 == (if first then Renewed(w.card.pin1, Block(n, one)) else w.card.pin1)
      && done.world.card.pin2 == (if second then Renewed(w.card.pin2, Block(n, two)) else w.card.pin2)
      && (first && !second ==> done.result == Err(Floor(CounterUnreadable(Puk))))
      && (first && NamesCounts(w) && !w.card.puk.verified ==>
            (second <==> w.card.puk.limit <= 5 && (n.Citizen? || w.card.resetEndsPuk)))
  {
    hide ReadActivation, Unblock, Activate, Block, Answered, NamesCounts, CommandsLater, FirstAwaits, SecondAwaits,
         CountReads, WhimAt;
    assert CredentialSound(w.card.Of(Puk));
    PukActivation(w, code, Some(one), Some(two));
    var n := w.card.numbering;
    var v := ReadActivation(w, ActivationCodeIsPuk, n).world;
    var u := Unblock(v, n, Pin1, code, one).world;
    LaterAnswers(w, v, 4);
    CountIsTheCards(u);
    RefusedIsNotUpdated(Spent(v.card.puk).tries, WhimAt(v, CountReads(v)));
    RefusedIsNotUpdated(Spent(u.card.puk).tries, WhimAt(u, CountReads(u)));
    if NamesCounts(w) {
      UnblockLeaves(v, n, Pin1, code, one);
      NamedCount(u);
    }
  }

  lemma NamedCount(w: World)
    requires NamesCounts(w)
    ensures !w.card.puk.verified ==> PukCount(w) == Some(w.card.puk.tries)
    ensures w.card.puk.verified && w.card.numbering.Organizational? ==> PukCount(w) == None
  {
  }

  /** A factory organizational card that keeps the PUK verified: PIN 1 is set, PIN 2 is refused and stays blocked. */
  lemma SecondPinIsRefused()
    ensures
      var code: seq<byte> := [0x31, 0x32, 0x33, 0x34, 0x35, 0x36, 0x37, 0x38];
      var one: seq<byte>, two: seq<byte> := [0x35, 0x36, 0x37, 0x38], [0x35, 0x36, 0x37, 0x38, 0x39, 0x30];
      var pin := Credential([], 0, 5, false);
      var card := Card(Organizational, pin, pin, Credential(code, 5, 5, false), None, false);
      var done := Activate(World(card, [], []), ActivationCodeIsPuk, Organizational, code, Some(one), Some(two));
      && done.result == Err(Floor(CounterUnreadable(Puk)))
      && done.world.card.pin1 == Credential(one, 5, 5, false) && done.world.card.pin2 == pin
  {
    hide Activate, ReadSlot, Unblock;
    var code: seq<byte> := [0x31, 0x32, 0x33, 0x34, 0x35, 0x36, 0x37, 0x38];
    var one: seq<byte>, two: seq<byte> := [0x35, 0x36, 0x37, 0x38], [0x35, 0x36, 0x37, 0x38, 0x39, 0x30];
    var pin := Credential([], 0, 5, false);
    var card := Card(Organizational, pin, pin, Credential(code, 5, 5, false), None, false);
    var w := World(card, [], []);
    AnsweredReading(w, ActivationCodeIsPuk);
    AwaitingIsTheFactoryState(w, ActivationCodeIsPuk, Pin1);
    var v := ReadSlot(w, ActivationCodeIsPuk, Organizational, Pin1).world;
    AwaitingIsTheFactoryState(v, ActivationCodeIsPuk, Pin2);
    PukActivationOfBoth(w, code, one, two);
  }

  // ---- The preset activation PIN ----

  /** The reading `whim` gives of this credential stops an activation with the preset PIN. */
  predicate Unservable(c: Credential, whim: Whim) {
    !c.verified && (whim.vague.Some? || AtLastTries(c) || c.tries > 5)
  }

  predicate Opens(c: Credential, code: seq<byte>) {
    c.tries > 0 && c.secret == Block(Citizen, code)
  }

  /** The refusal such a reading is met with. */
  function Unserved(slot: PinSlot, c: Credential, whim: Whim): FloorRefusal {
    if whim.vague.None? && AtLastTries(c) then TriesBelowFloor(slot, c.tries) else CounterUnreadable(slot)
  }

  lemma SaidIsServed(slot: PinSlot, status: PinStatus, c: Credential, whim: Whim)
    requires Says(status, if !c.verified && whim.vague.None? then Some(c.tries) else None)
    requires status.Verified? <==> c.verified
    ensures CheckLastTries(slot, status) == if Unservable(c, whim) then Some(Unserved(slot, c, whim)) else None
  {
  }

  lemma PresetReading(w: World)
    requires Sound(w.card) && Answered(w)
    ensures var read := ReadActivation(w, PresetActivationPin, w.card.numbering);
      var one, two := WhimAt(w, 1), WhimAt(w, 3);
      && read.result.Ok?
      && CheckLastTries(Pin1, read.result.value.pin1.status) ==
           (if Unservable(w.card.pin1, one) then Some(Unserved(Pin1, w.card.pin1, one)) else None)
      && CheckLastTries(Pin2, read.result.value.pin2.status) ==
           (if Unservable(w.card.pin2, two) then Some(Unserved(Pin2, w.card.pin2, two)) else None)
  {
    hide ReadActivation, ReadSlot, CheckLastTries, Unservable, Unserved, Says, CommandsLater, Answered, ShownRecord,
         Awaits;
    AnsweredReading(w, PresetActivationPin);
    AwaitingIsTheFactoryState(w, PresetActivationPin, Pin1);
    var v := ReadSlot(w, PresetActivationPin, w.card.numbering, Pin1).world;
    LaterAnswers(w, v, 2);
    AwaitingIsTheFactoryState(v, PresetActivationPin, Pin2);
    assert WhimAt(v, 1) == WhimAt(w, 2 + 1);
    var reading := ReadActivation(w, PresetActivationPin, w.card.numbering).result.value;
    SaidIsServed(Pin1, reading.pin1.status, w.card.pin1, WhimAt(w, 1));
    SaidIsServed(Pin2, reading.pin2.status, w.card.pin2, WhimAt(w, 3));
  }

  /** The PIN after the code was shown as it, and what the caller is told. */
  function Shown(c: Credential, code: seq<byte>, chosen: seq<byte>): Credential {
    if Opens(c, code) then Renewed(c, Block(Citizen, chosen)) else Spent(c)
  }

  function ShownAs(c: Credential, code: seq<byte>, whim: Whim): ManageOutcome {
    if Opens(c, code) then Updated else RefusedAs(Spent(c).tries, whim)
  }

  lemma ShowingAPin(w: World, slot: PinSlot, code: seq<byte>, chosen: seq<byte>)
    requires Answered(w) && Typed(code) && Typed(chosen)
    requires w.card.numbering.Citizen? && |w.card.Of(slot).secret| == STORED_LENGTH
    ensures var done := ChangePin(w, Citizen, slot, code, chosen);
      && CommandsLater(w, done.world, 1)
      && done.result == Ok(ShownAs(w.card.Of(slot), code, WhimAt(w, 0)))
      && done.world.card == w.card.With(slot, Shown(w.card.Of(slot), code, chosen))
  {
    hide ChangePin, Block, WhimAt, CommandsLater, Answered;
    ChangeOutcome(w, slot, code, chosen);
    RefusedIsNotUpdated(Spent(w.card.Of(slot)).tries, WhimAt(w, 0));
  }

  /** An organizational card shows no change record, so the preset scheme finds nothing to activate on it. */
  lemma OnlyCitizenCardsArePreset(w: World)
    ensures w.card.numbering.Organizational? ==>
              !FirstAwaits(w, PresetActivationPin) && !SecondAwaits(w, PresetActivationPin)
  {
  }

  /**
   One activation with the preset activation PIN, whichever PINs await it and whichever new values are
   given. It is refused, with the card untouched, exactly when the count of a PIN it would try cannot be read
   or served. Otherwise PIN 1 is tried when it awaits and a value is given, PIN 2 when it does and PIN 1 was
   set or not tried; a PIN the code opens takes its new value, another loses a try, and the report names
   exactly the PINs tried and how each ended.
   */
  lemma PresetActivation(w: World, code: seq<byte>, new1: Option<seq<byte>>, new2: Option<seq<byte>>)
    requires Sound(w.card) && Answered(w)
    requires w.card.numbering.Citizen? ==> |w.card.pin1.secret| == |w.card.pin2.secret| == STORED_LENGTH
    requires Typed(code) && (new1.Some? ==> Typed(new1.value)) && (new2.Some? ==> Typed(new2.value))
    ensures var done := Activate(w, PresetActivationPin, w.card.numbering, code, new1, new2);
      var first := FirstAwaits(w, PresetActivationPin) && new1.Some?;
      var second := SecondAwaits(w, PresetActivationPin) && new2.Some?;
      var p1, p2 := w.card.pin1, w.card.pin2;
      if first && Unservable(p1, WhimAt(w, 1)) then
        done.result == Err(Floor(Unserved(Pin1, p1, WhimAt(w, 1)))) && done.world.card == w.card
      else if second && Unservable(p2, WhimAt(w, 3)) then
        done.result == Err(Floor(Unserved(Pin2, p2, WhimAt(w, 3)))) && done.world.card == w.card
      else
        var tried2 := second && (first ==> Opens(p1, code));
        && done.result == Ok(Report(
             if first then Some(ShownAs(p1, code, WhimAt(w, 4))) else None,
             if tried2 then Some(ShownAs(p2, code, WhimAt(w, if first then 5 else 4))) else None))
        && done.world.card == w.card
             .With(Pin1, if first then Shown(p1, code, new1.value) else p1)
             .With(Pin2, if tried2 then Shown(p2, code, new2.value) else p2)
  {
    hide ReadActivation, ChangePin, Shown, Opens, Answered, CheckLastTries, CommandsLater, Unservable, Unserved,
         WhimAt, FirstAwaits, SecondAwaits, RefusedAs;
    var n := w.card.numbering;
    OnlyCitizenCardsArePreset(w);
    AnsweredReading(w, PresetActivationPin);
    PresetReading(w);
    var v := ReadActivation(w, PresetActivationPin, n).world;
    LaterAnswers(w, v, 4);
    assert WhimAt(v, 0) == WhimAt(w, 4 + 0) && WhimAt(v, 1) == WhimAt(w, 4 + 1);
    if FirstAwaits(w, PresetActivationPin) && new1.Some? {
      ShowingAPin(v, Pin1, code, new1.value);
      RefusedIsNotUpdated(Spent(w.card.pin1).tries, WhimAt(v, 0));
      var u := ChangePin(v, Citizen, Pin1, code, new1.value).world;
      LaterAnswers(v, u, 1);
      assert WhimAt(u, 0) == WhimAt(v, 1 + 0);
      if SecondAwaits(w, PresetActivationPin) && new2.Some? {
        ShowingAPin(u, Pin2, code, new2.value);
      }
    } else if SecondAwaits(w, PresetActivationPin) && new2.Some? {
      ShowingAPin(v, Pin2, code, new2.value);
    }
  }
}
