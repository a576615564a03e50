/** What an unblock or a change does on a card whose answers all arrive, whatever they say. */
module ManageOutcomes {
  import opened Wrappers
  import opened Bytes
  import opened Credentials
  import opened Containers
  import opened PinCard
  import opened RetryFloor
  import opened Manage

  /** Every answer to come arrives. */
  predicate Answered(w: World) {
    forall k :: 0 <= k < |w.whims| ==> w.whims[k].fate.Delivered?
  }

  /** Every answer to come that could name a counter names it. */
  predicate NamesCounts(w: World) {
    forall k :: 0 <= k < |w.whims| ==> w.whims[k].vague.None?
  }

  /** The choices behind the answer to the `k`-th command from here. */
  function WhimAt(w: World, k: nat): Whim {
    if k < |w.whims| then w.whims[k] else PLAIN
  }

  /** `v` comes `n` commands after `w`. */
  predicate CommandsLater(w: World, v: World, n: nat) {
    v.whims == if n <= |w.whims| then w.whims[n..] else []
  }

  /** A citizen card stores its secrets as padded blocks. */
  predicate Stored(card: Card) {
    card.numbering.Citizen? ==> |card.puk.secret| == STORED_LENGTH
  }

  lemma AnsweredAsk(w: World, command: Command)
    requires Answered(w)
    ensures var asked := Ask(w, command);
      && NextWhim(w) == WhimAt(w, 0)
      && CommandsLater(w, asked.world, 1)
      && asked.result == Ok(Answer(w.card, command, NextWhim(w)))
      && asked.world.card == After(w.card, command, NextWhim(w))
  {
    hide Answer, After;
  }

  lemma LaterAnswers(w: World, v: World, n: nat)
    requires CommandsLater(w, v, n)
    ensures Answered(w) ==> Answered(v)
    ensures NamesCounts(w) ==> NamesCounts(v)
    ensures forall k: nat :: WhimAt(v, k) == WhimAt(w, n + k)
  {
  }

  lemma LaterStill(u: World, m: nat, v: World, n: nat, w: World)
    requires CommandsLater(u, v, m) && CommandsLater(v, w, n)
    ensures CommandsLater(u, w, m + n)
  {
  }

  // ---- Reading the PUK's counter ----

  /** The counter a container answer gives, which is never another than the card's. */
  function ContainerCount(c: Credential, whim: Whim): Option<Tries> {
    if whim.vague.Some? then None
    else if c.tries == 0 && whim.blockedAs.Some? then Some(0)
    else if CounterFrom(whim.container, 0) == Some(c.tries) then Some(c.tries)
    else None
  }

  /** The PUK's counter as far as it can be read: by the probe, or from a citizen card's container. */
  function PukCount(w: World): Option<Tries> {
    if !w.card.puk.verified && WhimAt(w, 0).vague.None? then Some(w.card.puk.tries)
    else if w.card.numbering.Citizen? then ContainerCount(w.card.puk, WhimAt(w, 1))
    else None
  }

  /** How many commands reading the counter takes. */
  function CountReads(w: World): nat {
    if w.card.numbering.Citizen? && (w.card.puk.verified || WhimAt(w, 0).vague.Some?) then 2 else 1
  }

  predicate Countable(w: World) {
    PukCount(w).Some? && 3 <= PukCount(w).value <= 5
  }

  /** Whether `status` says `count`. */
  predicate Says(status: PinStatus, count: Option<Tries>) {
    match count
    case Some(tries) => status == Remaining(tries) || (tries == 0 && status == Locked)
    case None => status.Verified? || status.NoInfo? || status.OtherStatus?
  }

  /** The status a probe of this credential gives. */
  function StatusSaid(c: Credential, whim: Whim): PinStatus {
    if c.verified then Verified
    else if whim.vague == Some(AuthenticationFailed) then NoInfo
    else if whim.vague.Some? then OtherStatus(whim.vague.value)
    else if c.tries == 0 && whim.blockedAs.Some? then Locked
    else Remaining(c.tries)
  }

  lemma ProbeSays(w: World, role: Role)
    requires Answered(w)
    ensures var probed := PinStatusOf(w, w.card.numbering, role);
      var c := w.card.Of(role);
      && CommandsLater(w, probed.world, 1) && probed.world.card == w.card && probed.result.Ok?
      && probed.result.value == StatusSaid(c, WhimAt(w, 0))
      && Says(probed.result.value, if !c.verified && WhimAt(w, 0).vague.None? then Some(c.tries) else None)
      && (c.verified ==> probed.result.value == Verified)
      && (!c.verified ==> probed.result.value != Verified)
  {
    hide Ask, Accepts, CounterFrom;
    ReferencesAreDistinct(w.card.numbering, w.card.numbering, role);
    AnsweredAsk(w, Probe(Reference(w.card.numbering, role)));
  }

  /**
   The numbering is found with the status the card gives of PIN 1. An organizational card whose answer under
   its own reference names no status is taken for a citizen card that does not know the reference.
   */
  lemma NumberingOutcome(w: World)
    requires Answered(w)
    ensures var done := Pin1StatusAndNumbering(w);
      var second := StatusSaid(w.card.pin1, WhimAt(w, 1));
      && done.world.card == w.card
      && done.result == Ok(
           if w.card.numbering.Citizen? then Resolved(Citizen, StatusSaid(w.card.pin1, WhimAt(w, 0)))
           else if second.OtherStatus? then Resolved(Citizen, OtherStatus(ReferenceDataNotFound))
           else Resolved(Organizational, second))
  {
    hide PinStatusOf, Ask, Accepts, CounterFrom, CommandsLater, Answered;
    var probe := Probe(Reference(Citizen, Pin1));
    ReferencesAreDistinct(w.card.numbering, Citizen, Pin1);
    AnsweredAsk(w, probe);
    var v := Ask(w, probe).world;
    LaterAnswers(w, v, 1);
    assert WhimAt(v, 0) == WhimAt(w, 1 + 0);
    if w.card.numbering.Organizational? {
      ProbeSays(v, Pin1);
    } else {
      ForeignProbe(v);
    }
  }

  lemma ForeignProbe(w: World)
    requires Answered(w) && w.card.numbering.Citizen?
    ensures var probed := PinStatusOf(w, Organizational, Pin1);
      probed.world.card == w.card && probed.result == Ok(OtherStatus(ReferenceDataNotFound))
  {
    hide Ask, Accepts, CounterFrom;
    ReferencesAreDistinct(Citizen, Organizational, Pin1);
    AnsweredAsk(w, Probe(Reference(Organizational, Pin1)));
  }

  lemma ContainerSays(w: World)
    requires Answered(w) && w.card.numbering.Citizen?
    ensures var read := PukStatusFromContainer(w);
      && CommandsLater(w, read.world, 1) && read.world.card == w.card && read.result.Ok?
      && Says(read.result.value, ContainerCount(w.card.puk, WhimAt(w, 0)))
  {
    hide Ask, Accepts;
    EmptyContainer();
    ReferencesAreDistinct(Citizen, Citizen, Puk);
    AnsweredAsk(w, GetData(Reference(Citizen, Puk)));
  }

  lemma EmptyContainer()
    ensures CounterFrom([], 0) == None
  {
  }

  lemma PukStatusSays(w: World)
    requires Answered(w)
    ensures var read := PukStatus(w, w.card.numbering);
      && read.world.card == w.card && read.result.Ok? && Says(read.result.value, PukCount(w))
      && CommandsLater(w, read.world, CountReads(w))
  {
    hide PinStatusOf, PukStatusFromContainer, CommandsLater, Answered;
    ProbeSays(w, Puk);
    var probed := PinStatusOf(w, w.card.numbering, Puk).world;
    LaterAnswers(w, probed, 1);
    if w.card.numbering.Citizen? {
      ContainerSays(probed);
      LaterStill(w, 1, probed, 1, PukStatusFromContainer(probed).world);
      assert WhimAt(probed, 0) == WhimAt(w, 1 + 0);
    }
  }

  // ---- Showing the PUK ----

  /** The code the card compares with its PUK. */
  predicate RightPuk(card: Card, puk: seq<byte>) {
    card.puk.secret == Block(card.numbering, puk)
  }

  /** What a caller is told of a credential shown and refused, of which `left` tries are left. */
  function RefusedAs(left: Tries, whim: Whim): ManageOutcome {
    if whim.vague.Some? then OtherOutcome(whim.vague.value)
    else if left == 0 && whim.blockedAs.Some? then LockedOut
    else WrongCredential(left)
  }

  lemma CitizenReset(w: World, slot: PinSlot, puk: seq<byte>, chosen: seq<byte>)
    requires Answered(w) && Stored(w.card) && w.card.numbering.Citizen?
    ensures var done := ResetWithPuk(w, Citizen, slot, puk, chosen);
      && CommandsLater(w, done.world, 1)
      && (if w.card.puk.tries > 0 && RightPuk(w.card, puk) then
            && done.result == Ok(Updated)
            && done.world.card == w.card.With(Puk, w.card.puk.(tries := w.card.puk.limit))
                                  .With(slot, Renewed(w.card.Of(slot), Block(Citizen, chosen)))
          else
            && done.result == Ok(RefusedAs(Spent(w.card.puk).tries, WhimAt(w, 0)))
            && done.world.card == w.card.With(Puk, Spent(w.card.puk)))
  {
    hide Ask, Block;
    var body := Blocks(Citizen, [puk, chosen]);
    TwoBlocks(Citizen, puk, chosen);
    assert body[..STORED_LENGTH] == Block(Citizen, puk) && body[STORED_LENGTH..] == Block(Citizen, chosen);
    ReferencesAreDistinct(Citizen, Citizen, slot);
    AnsweredAsk(w, ResetWithCode(Reference(Citizen, slot), body));
  }

  lemma OneBlock(numbering: Numbering, digits: seq<byte>)
    ensures Blocks(numbering, [digits]) == Block(numbering, digits)
  {
    hide Block;
    assert [digits][..0] == [];
  }

  lemma OrganizationalVerify(w: World, puk: seq<byte>)
    requires Answered(w) && w.card.numbering.Organizational?
    ensures var done := VerifyPuk(w, Organizational, puk);
      && CommandsLater(w, done.world, 1)
      && (if w.card.puk.tries > 0 && RightPuk(w.card, puk) then
            && done.result == Ok(Updated)
            && done.world.card == w.card.With(Puk, w.card.puk.(tries := w.card.puk.limit, verified := true))
          else
            && done.result == Ok(RefusedAs(Spent(w.card.puk).tries, WhimAt(w, 0)))
            && done.world.card == w.card.With(Puk, Spent(w.card.puk)))
  {
    hide Ask, Blocks, Block;
    OneBlock(Organizational, puk);
    ReferencesAreDistinct(Organizational, Organizational, Puk);
    AnsweredAsk(w, Verify(Reference(Organizational, Puk), Blocks(Organizational, [puk])));
  }

  /** The card after a reset the PUK's verified state allowed, which the reset may end. */
  function ResetCard(card: Card, slot: PinSlot, secret: seq<byte>): Card {
    card.(puk := if card.resetEndsPuk then card.puk.(verified := false) else card.puk)
        .With(slot, Renewed(card.Of(slot), secret))
  }

  lemma OrganizationalReset(w: World, slot: PinSlot, chosen: seq<byte>)
    requires Answered(w) && w.card.numbering.Organizational? && w.card.puk.verified
    ensures var done := ResetPinOnly(w, Organizational, slot, chosen);
      && CommandsLater(w, done.world, 1)
      && done.result == Ok(Updated)
      && done.world.card == ResetCard(w.card, slot, Block(Organizational, chosen))
  {
    hide Ask, Blocks, Block;
    OneBlock(Organizational, chosen);
    ReferencesAreDistinct(Organizational, Organizational, slot);
    AnsweredAsk(w, ResetNewOnly(Reference(Organizational, slot), Blocks(Organizational, [chosen])));
  }

  /** The PUK after it set a PIN: a reset with the code leaves its verified state, a verification sets it. */
  function UsedPuk(card: Card): Credential {
    var verified := if card.numbering.Citizen? then card.puk.verified else !card.resetEndsPuk;
    card.puk.(tries := card.puk.limit, verified := verified)
  }

  /** The answers still to come after `w` are among those to come at `w`. */
  predicate AnswersLeft(w: World, v: World) {
    (Answered(w) ==> Answered(v)) && (NamesCounts(w) ==> NamesCounts(v))
  }

  lemma UnblockLeaves(w: World, numbering: Numbering, slot: PinSlot, puk: seq<byte>, chosen: seq<byte>)
    requires Answered(w) && w.card.numbering == numbering && Stored(w.card)
    ensures AnswersLeft(w, Unblock(w, numbering, slot, puk, chosen).world)
  {
    hide Ask, Block, Blocks, PukStatus, ResetWithPuk, VerifyPuk, ResetPinOnly, CheckRetryFloor, CommandsLater, Answered;
    PukStatusSays(w);
    var v := PukStatus(w, numbering).world;
    LaterAnswers(w, v, CountReads(w));
    if numbering.Citizen? {
      CitizenReset(v, slot, puk, chosen);
      LaterAnswers(v, ResetWithPuk(v, Citizen, slot, puk, chosen).world, 1);
    } else {
      OrganizationalVerify(v, puk);
      var verified := VerifyPuk(v, Organizational, puk);
      LaterAnswers(v, verified.world, 1);
      if verified.result == Ok(Updated) {
        OrganizationalReset(verified.world, slot, chosen);
        LaterAnswers(verified.world, ResetPinOnly(verified.world, Organizational, slot, chosen).world, 1);
      }
    }
  }

  /** What an unblock tells its caller. */
  function UnblockVerdict(w: World, puk: seq<byte>): Result<ManageOutcome, AuthError> {
    var count := PukCount(w);
    if count == Some(1) || count == Some(2) then Err(Floor(TriesBelowFloor(Puk, count.value)))
    else if count != Some(0) && !Countable(w) then Err(Floor(CounterUnreadable(Puk)))
    else if Countable(w) && RightPuk(w.card, puk) then Ok(Updated)
    else Ok(RefusedAs(Spent(w.card.puk).tries, WhimAt(w, CountReads(w))))
  }

  /** The card an unblock leaves. */
  function UnblockedCard(w: World, slot: PinSlot, puk: seq<byte>, chosen: seq<byte>): Card {
    if !Countable(w) then w.card
    else if RightPuk(w.card, puk) then
      w.card.With(slot, Renewed(w.card.Of(slot), Block(w.card.numbering, chosen))).With(Puk, UsedPuk(w.card))
    else w.card.With(Puk, Spent(w.card.puk))
  }

  /**
   An unblock sets the PIN exactly when the PUK is right and its counter can be
   read as three to five; with no reading, or one of one, two or more than
   five, it is refused and nothing changes. Otherwise both PINs are untouched,
   only a PUK that was shown and refused lost a try, and the caller is told how
   many are left, as far as the card says.
   */
  lemma UnblockOutcome(w: World, slot: PinSlot, puk: seq<byte>, chosen: seq<byte>)
    requires Sound(w.card) && Answered(w) && Stored(w.card)
    ensures var done := Unblock(w, w.card.numbering, slot, puk, chosen);
      done.result == UnblockVerdict(w, puk) && done.world.card == UnblockedCard(w, slot, puk, chosen)
  {
    hide Ask, Block, Blocks, PukStatus, ResetWithPuk, VerifyPuk, ResetPinOnly, CommandsLater, Answered,
         ContainerCount, WhimAt, CountReads, RefusedAs;
    assert CredentialSound(w.card.Of(Puk));
    PukStatusSays(w);
    CountIsTheCards(w);
    var v := PukStatus(w, w.card.numbering).world;
    LaterAnswers(w, v, CountReads(w));
    assert WhimAt(v, 0) == WhimAt(w, CountReads(w) + 0);
    RefusedIsNotUpdated(Spent(w.card.puk).tries, WhimAt(v, 0));
    if w.card.numbering.Citizen? {
      CitizenReset(v, slot, puk, chosen);
    } else {
      OrganizationalVerify(v, puk);
      var verified := VerifyPuk(v, Organizational, puk);
      LaterAnswers(v, verified.world, 1);
      if verified.result == Ok(Updated) {
        OrganizationalReset(verified.world, slot, chosen);
      }
    }
  }

  lemma RefusedIsNotUpdated(left: Tries, whim: Whim)
    ensures RefusedAs(left, whim) != Updated
  {
  }

  lemma CountIsTheCards(w: World)
    ensures PukCount(w).Some? ==> PukCount(w).value == w.card.puk.tries
  {
  }

  /**
   The container serves where the probe does not: a citizen card that answers the probe with success, or
   with a word that names no count, has its PIN set with the right PUK when its container shows three to five.
   */
  lemma ContainerServes(w: World, slot: PinSlot, puk: seq<byte>, chosen: seq<byte>)
    requires Sound(w.card) && Answered(w) && Stored(w.card) && w.card.numbering.Citizen? && RightPuk(w.card, puk)
    requires w.card.puk.verified || WhimAt(w, 0).vague.Some?
    requires WhimAt(w, 1).vague.None?
    requires CounterFrom(WhimAt(w, 1).container, 0) == Some(w.card.puk.tries) && 3 <= w.card.puk.tries <= 5
    ensures Unblock(w, Citizen, slot, puk, chosen).result == Ok(Updated)
  {
    hide Unblock, CounterFrom;
    UnblockOutcome(w, slot, puk, chosen);
  }

  // ---- Changing a PIN ----

  lemma ChangeBody(numbering: Numbering, current: seq<byte>, chosen: seq<byte>)
    requires Typed(current) && Typed(chosen)
    ensures var body := Blocks(numbering, [current, chosen]);
      if numbering.Citizen? then
        && |body| == 2 * STORED_LENGTH
        && body[..STORED_LENGTH] == Block(Citizen, current) && body[STORED_LENGTH..] == Block(Citizen, chosen)
      else body == current + chosen
  {
    TwoBlocks(numbering, current, chosen);
    hide Blocks;
  }

  /**
   A change is accepted exactly when a try is left and the entries show the stored PIN first: the padded
   card compares the current entry, the bare card only finds its own PIN at the front of both entries run
   together.
   */
  lemma ChangeOutcome(w: World, slot: PinSlot, current: seq<byte>, chosen: seq<byte>)
    requires Answered(w) && Typed(current) && Typed(chosen)
    requires w.card.numbering.Citizen? ==> |w.card.Of(slot).secret| == STORED_LENGTH
    ensures var done := ChangePin(w, w.card.numbering, slot, current, chosen);
      var c := w.card.Of(slot);
      && CommandsLater(w, done.world, 1)
      && (done.result == Ok(Updated) || done.result == Ok(RefusedAs(Spent(c).tries, WhimAt(w, 0))))
      && (done.result == Ok(Updated) <==>
            && c.tries > 0
            && if w.card.numbering.Citizen? then c.secret == Block(Citizen, current) else c.secret <= current + chosen)
      && done.world.card == w.card.With(slot,
           if done.result != Ok(Updated) then Spent(c)
           else if w.card.numbering.Citizen? then Renewed(c, Block(Citizen, chosen))
           else Renewed(c, (current + chosen)[|c.secret|..]))
  {
    hide Ask, Block, Blocks, Answered, CommandsLater, WhimAt;
    var numbering := w.card.numbering;
    ChangeBody(numbering, current, chosen);
    ReferencesAreDistinct(numbering, numbering, slot);
    AnsweredAsk(w, Change(Reference(numbering, slot), Blocks(numbering, [current, chosen])));
  }

  /** On a bare card an accepted change sets the chosen PIN exactly when the current one was typed right. */
  lemma BareChangeSetsTheChosenPin(w: World, slot: PinSlot, current: seq<byte>, chosen: seq<byte>)
    requires Answered(w) && w.card.numbering.Organizational? && w.card.Of(slot).tries > 0
    requires Typed(current) && Typed(chosen)
    ensures var done := ChangePin(w, Organizational, slot, current, chosen);
      done.result == Ok(Updated) && done.world.card.Of(slot).secret == chosen <==> current == w.card.Of(slot).secret
  {
    hide ChangePin;
    ChangeOutcome(w, slot, current, chosen);
    var secret := w.card.Of(slot).secret;
    if secret <= current + chosen && (current + chosen)[|secret|..] == chosen {
      assert secret == (current + chosen)[..|secret|] == current;
    }
    if current == secret {
      assert (current + chosen)[|secret|..] == chosen;
    }
  }

  /** A PIN as a PIN entry accepts it: four to twelve ASCII digits. */
  predicate Entered(digits: seq<byte>) {
    4 <= |digits| <= STORED_LENGTH && forall i :: 0 <= i < |digits| ==> 0x30 <= digits[i] <= 0x39
  }

  /**
   On a bare card a current PIN typed short is made up by the digits the chosen PIN begins with: the change
   is accepted and what is left of the chosen PIN is set.
   */
  lemma ShortEntryIsMadeUp(w: World, slot: PinSlot, current: seq<byte>, missing: seq<byte>, rest: seq<byte>)
    requires Answered(w) && w.card.numbering.Organizational? && w.card.Of(slot).tries > 0
    requires Entered(current) && missing != [] && Entered(missing + rest) && Entered(rest)
    requires w.card.Of(slot).secret == current + missing && Entered(current + missing)
    ensures var done := ChangePin(w, Organizational, slot, current, missing + rest);
      done.result == Ok(Updated) && done.world.card.Of(slot).secret == rest && rest != missing + rest
  {
    hide ChangePin;
    EnteredIsTyped(current);
    EnteredIsTyped(missing + rest);
    ChangeOutcome(w, slot, current, missing + rest);
    assert current + (missing + rest) == current + missing + rest;
    assert |rest| < |missing + rest|;
  }

  lemma EnteredIsTyped(digits: seq<byte>)
    requires Entered(digits)
    ensures Typed(digits)
  {
  }

  /** PIN 1 is 12345, the holder types 1234 and then 56789, and the card takes 6789. */
  lemma ShortEntryExample(w: World)
    requires Answered(w) && w.card.numbering.Organizational? && w.card.pin1.tries > 0
    requires w.card.pin1.secret == [0x31, 0x32, 0x33, 0x34, 0x35]
    ensures var done := ChangePin(w, Organizational, Pin1, [0x31, 0x32, 0x33, 0x34], [0x35, 0x36, 0x37, 0x38, 0x39]);
      done.result == Ok(Updated) && done.world.card.pin1.secret == [0x36, 0x37, 0x38, 0x39]
  {
    hide ChangePin;
    var current, missing, rest := [0x31, 0x32, 0x33, 0x34], [0x35], [0x36, 0x37, 0x38, 0x39];
    assert current + missing == [0x31, 0x32, 0x33, 0x34, 0x35];
    assert missing + rest == [0x35, 0x36, 0x37, 0x38, 0x39];
    ShortEntryIsMadeUp(w, Pin1, current, missing, rest);
  }
}
