/**
 PIN management on a channel PACE opened with the PUK or with PIN 1. The
 counter cannot be probed there, so the floor is applied to the channel's own
 record of it, which answers lower and nothing raises.
 */
module PaceChannel {
  import opened Wrappers
  import opened Bytes
  import opened Credentials
  import opened PinCard
  import opened RetryFloor
  import opened Manage
  import opened ManageProofs

  function Lowered(record: PinStatus, answer: ManageOutcome): PinStatus {
    if answer.Updated? || record.Locked? || record.NoInfo? || record.OtherStatus? then record
    else match answer
      case LockedOut => Locked
      case WrongCredential(left) =>
        if record.Remaining? && record.tries < left then record
        else if left == 0 then Locked
        else Remaining(left)
      case _ => NoInfo
  }

  /** The record the handshake starts with: a success stands for the five tries of a fresh credential. */
  function OpeningRecord(word: StatusWord): Option<PinStatus> {
    match word
    case Success => Some(Remaining(5))
    case PinIncorrect(left) => Some(if left == 0 then Locked else Remaining(left))
    case _ => None
  }

  datatype ChannelProof = PaceHandshake | PresentAgain(digits: seq<byte>)

  datatype Channel = Channel(world: World, record: PinStatus)

  datatype ChannelDone = ChannelDone(channel: Channel, result: Result<ManageOutcome, AuthError>)

  function ResetPlainly(c: Channel, slot: PinSlot, chosen: seq<byte>): ChannelDone {
    var reset := ResetPinOnly(c.world, Organizational, slot, chosen);
    ChannelDone(Channel(reset.world, c.record), reset.result)
  }

  /** The record once a presentation has been answered, or not. */
  function Noted(c: Channel, done: Done<ManageOutcome>): Channel {
    Channel(done.world, if done.result.Ok? then Lowered(c.record, done.result.value) else c.record)
  }

  function ResetAfterPukPace(c: Channel, slot: PinSlot, chosen: seq<byte>, proof: ChannelProof): ChannelDone {
    if proof.PaceHandshake? then ResetPlainly(c, slot, chosen)
    else
      var refusal := CheckRetryFloor(Puk, c.record);
      if refusal.Some? then ChannelDone(c, Err(Floor(refusal.value)))
      else
        var verified := VerifyPuk(c.world, Organizational, proof.digits);
        if verified.result != Ok(Updated) then ChannelDone(Noted(c, verified), verified.result)
        else ResetPlainly(Noted(c, verified), slot, chosen)
  }

  function ChangePin1AfterPin1Pace(c: Channel, chosen: seq<byte>, proof: ChannelProof): ChannelDone {
    if proof.PaceHandshake? then ResetPlainly(c, Pin1, chosen)
    else
      var refusal := CheckRetryFloor(Pin1, c.record);
      if refusal.Some? then ChannelDone(c, Err(Floor(refusal.value)))
      else
        var changed := ChangePin(c.world, Organizational, Pin1, proof.digits, chosen);
        ChannelDone(Noted(c, changed), changed.result)
  }

  /** A call on the channel of `owner`: only a PUK channel resets PIN 2. */
  datatype ChannelCall = ChannelCall(fits: bool, slot: PinSlot, chosen: seq<byte>, proof: ChannelProof)

  function Perform(owner: Role, c: Channel, call: ChannelCall): Channel {
    if !call.fits then c
    else if owner == Puk then ResetAfterPukPace(c, call.slot, call.chosen, call.proof).channel
    else ChangePin1AfterPin1Pace(c, call.chosen, call.proof).channel
  }

  function Run(owner: Role, c: Channel, calls: seq<ChannelCall>): Channel {
    if calls == [] then c else Perform(owner, Run(owner, c, calls[..|calls| - 1]), calls[|calls| - 1])
  }

  type Owner = r: Role | r != Pin2 witness Puk

  /** The record is no more than the card's own count. */
  predicate Holds(owner: Owner, record: PinStatus, c: Credential) {
    match record
    case Remaining(n) => 0 < n <= c.tries
    case Locked => owner == Puk ==> c.tries == 0
    case Verified => false
    case _ => true
  }

  predicate Good(origin: Card, owner: Owner, c: Channel) {
    && Guarded(origin, c.world)
    && c.world.card.numbering.Organizational?
    && Holds(owner, c.record, c.world.card.Of(owner))
  }

  /** The command that shows the owner's credential once more. */
  function Showing(owner: Owner, call: ChannelCall): Command
    requires call.proof.PresentAgain?
  {
    if owner == Puk then Verify(Reference(Organizational, Puk), Blocks(Organizational, [call.proof.digits]))
    else Change(Reference(Organizational, Pin1), Blocks(Organizational, [call.proof.digits, call.chosen]))
  }

  /** The call shows the credential to the card. */
  predicate Shows(owner: Owner, c: Channel, call: ChannelCall) {
    call.fits && call.proof.PresentAgain? && CheckRetryFloor(owner, c.record).None?
  }

  /** A wrong presentation reaches the card, its answer does not come back, and the record was exact. */
  predicate LosesCount(owner: Owner, c: Channel, call: ChannelCall) {
    && Shows(owner, c, call)
    && NextWhim(c.world).fate.LostAfter?
    && !Accepts(c.world.card, Showing(owner, call))
    && c.record == Remaining(c.world.card.Of(owner).tries)
  }

  /** A channel starts no higher than the count, provided a plain success is only answered at five tries. */
  lemma OpeningRecordHolds(owner: Owner, word: StatusWord, c: Credential)
    requires word.Success? || word == PinIncorrect(c.tries)
    ensures Holds(owner, OpeningRecord(word).value, c) <==> (word.Success? ==> c.tries >= 5)
  {
  }

  lemma GoodShowSpares(origin: Card, owner: Owner, c: Channel, call: ChannelCall)
    requires Good(origin, owner, c) && Shows(owner, c, call)
    ensures Spares(c.world.card, Showing(owner, call))
    ensures Presented(c.world.card, Showing(owner, call)) == Some(owner)
  {
    hide Blocks, Guarded;
    FloorServesExactly(owner, c.record);
    ReferencesAreDistinct(Organizational, Organizational, owner);
  }

  /** What the answer to a presentation says of the credential it left behind. */
  lemma ShownAnswer(w: World, command: Command, role: Role)
    requires Presented(w.card, command) == Some(role) && Sound(w.card)
    ensures var done := Classified(Ask(w, command));
      var after := done.world.card.Of(role);
      && (match done.result
          case Ok(Updated) => Accepts(w.card, command)
          case Ok(WrongCredential(left)) => left == after.tries
          case Ok(LockedOut) => after.tries == 0
          case Ok(_) => true
          case Err(_) => !NextWhim(w).fate.Delivered?)
      && (done.result.Ok? ==> NextWhim(w).fate.Delivered?)
      && (after.tries < w.card.Of(role).tries <==>
            !NextWhim(w).fate.LostBefore? && !Accepts(w.card, command) && w.card.Of(role).tries > 0)
      && w.card.Of(role).tries <= after.tries + 1
      && (w.card.Of(role).tries == 0 ==> after.tries == 0)
  {
    hide RoleAt, Reference;
    OnlyAWrongPresentationSpends(w.card, command, NextWhim(w), role);
  }

  /** One presentation keeps the record no higher than the count, unless it loses the count. */
  lemma ShowKeepsHold(owner: Owner, record: PinStatus, w: World, command: Command)
    requires Sound(w.card) && Presented(w.card, command) == Some(owner)
    requires Holds(owner, record, w.card.Of(owner)) && CheckRetryFloor(owner, record).None?
    ensures var c := Noted(Channel(w, record), Classified(Ask(w, command)));
      Holds(owner, c.record, c.world.card.Of(owner)) <==>
        !(NextWhim(w).fate.LostAfter? && !Accepts(w.card, command) && record == Remaining(w.card.Of(owner).tries))
  {
    hide Ask, Accepts, Presented;
    FloorServesExactly(owner, record);
    ShownAnswer(w, command, owner);
  }

  lemma ResetKeepsGood(origin: Card, owner: Owner, c: Channel, slot: PinSlot, chosen: seq<byte>)
    requires Good(origin, owner, c)
    ensures Good(origin, owner, ResetPlainly(c, slot, chosen).channel)
  {
    hide Guarded, Blocks;
    ResetOnlyKeepsGuard(origin, c.world, Organizational, slot, chosen);
    GuardedIsSound(origin, c.world);
    assert CredentialSound(c.world.card.Of(owner));
  }

  /** A call keeps the record good exactly when it does not lose the count; it spares the last tries either way. */
  lemma CallKeepsGood(origin: Card, owner: Owner, c: Channel, call: ChannelCall)
    requires Good(origin, owner, c)
    ensures Guarded(origin, Perform(owner, c, call).world)
    ensures Good(origin, owner, Perform(owner, c, call)) <==> !LosesCount(owner, c, call)
  {
    hide Guarded, Ask, Blocks, Holds, CheckRetryFloor, Accepts, Presented, Spares, ResetPlainly;
    if call.fits && call.proof.PaceHandshake? {
      ResetKeepsGood(origin, owner, c, if owner == Puk then call.slot else Pin1, call.chosen);
    } else if Shows(owner, c, call) {
      var command := Showing(owner, call);
      GoodShowSpares(origin, owner, c, call);
      GuardedIsSound(origin, c.world);
      AskKeepsGuard(origin, c.world, command);
      ShowKeepsHold(owner, c.record, c.world, command);
      var noted := Noted(c, Classified(Ask(c.world, command)));
      if owner == Puk && Classified(Ask(c.world, command)).result == Ok(Updated) {
        ShownAnswer(c.world, command, Puk);
        ResetKeepsGood(origin, owner, noted, call.slot, call.chosen);
      }
    }
  }

  /** No call of the run loses the count. */
  predicate KeepsCount(owner: Owner, c: Channel, calls: seq<ChannelCall>) {
    calls != [] ==>
      && KeepsCount(owner, c, calls[..|calls| - 1])
      && !LosesCount(owner, Run(owner, c, calls[..|calls| - 1]), calls[|calls| - 1])
  }

  /**
   On a channel whose record starts no higher than the card's count, a run in
   which no call loses the count keeps it so, and no exchange of the run
   spends one of a credential's last two tries.
   */
  lemma {:induction false} ChannelSparesLastTries(origin: Card, owner: Owner, c: Channel, calls: seq<ChannelCall>)
    requires Good(origin, owner, c) && KeepsCount(owner, c, calls)
    ensures Good(origin, owner, Run(owner, c, calls))
  {
    hide Good, LosesCount, Perform;
    if calls != [] {
      ChannelSparesLastTries(origin, owner, c, calls[..|calls| - 1]);
      CallKeepsGood(origin, owner, Run(owner, c, calls[..|calls| - 1]), calls[|calls| - 1]);
    }
  }

  /** `b` is at most `a`, and a record that ended presentations stays as it is. */
  predicate NoHigher(a: PinStatus, b: PinStatus) {
    match a
    case Remaining(n) => (b.Remaining? && b.tries <= n) || b == Locked || b == NoInfo
    case Verified => true
    case _ => b == a
  }

  /** Whatever happens on a channel, its record never rises. */
  lemma {:induction false} RecordNeverRises(owner: Owner, c: Channel, calls: seq<ChannelCall>)
    ensures NoHigher(c.record, Run(owner, c, calls).record)
  {
    hide VerifyPuk, ChangePin, ResetPinOnly, CheckRetryFloor;
    if calls != [] {
      RecordNeverRises(owner, c, calls[..|calls| - 1]);
    }
  }

  predicate Ended(owner: Owner, record: PinStatus) {
    record.NoInfo? || record.OtherStatus? || (record.Locked? && owner == Pin1)
  }

  /** Once the record is unknown, or PIN 1 blocked, nothing on the channel shows the credential again. */
  lemma {:induction false} EndedChannelShowsNothing(owner: Owner, c: Channel, calls: seq<ChannelCall>)
    requires Ended(owner, c.record)
    ensures var v := Run(owner, c, calls);
      && v.record == c.record
      && c.world.log <= v.world.log
      && forall k :: |c.world.log| <= k < |v.world.log| ==> v.world.log[k].command.ResetNewOnly?
  {
    hide After, Answer, Blocks;
    if calls != [] {
      EndedChannelShowsNothing(owner, c, calls[..|calls| - 1]);
    }
  }

  /** A wrong PUK that reaches the card costs one try whether or not its answer comes back. */
  lemma WrongPukSpends(c: Channel, call: ChannelCall)
    requires c.world.card.numbering.Organizational? && Shows(Puk, c, call) && !NextWhim(c.world).fate.LostBefore?
    requires !Accepts(c.world.card, Showing(Puk, call))
    ensures var v := Perform(Puk, c, call);
      && v.world.card == c.world.card.With(Puk, Spent(c.world.card.puk))
      && v.world.log == c.world.log + [Exchange(c.world.card, Showing(Puk, call), v.world.card)]
      && (NextWhim(c.world).fate.LostAfter? ==> v.record == c.record)
  {
    hide Blocks, CheckRetryFloor, Accepts, Lowered;
    ReferencesAreDistinct(Organizational, Organizational, Puk);
  }

  /**
   The family the record fails on: it stands at three like the card's count,
   the answer to a wrong PUK is lost, and the next wrong PUK takes the count
   from two to one.
   */
  lemma LostAnswerSpendsALastTry(origin: Card, c: Channel, call: ChannelCall)
    requires Good(origin, Puk, c) && LosesCount(Puk, c, call) && c.record == Remaining(3)
    ensures var once := Perform(Puk, c, call);
      && !Good(origin, Puk, once)
      && (!NextWhim(once.world).fate.LostBefore? ==>
            var twice := Perform(Puk, once, call);
            && twice.world.card.puk.tries == 1
            && !SparesLastTries(twice.world.log[|twice.world.log| - 1]))
  {
    hide Blocks, Perform, Guarded;
    CallKeepsGood(origin, Puk, c, call);
    WrongPukSpends(c, call);
    var once := Perform(Puk, c, call);
    if !NextWhim(once.world).fate.LostBefore? {
      WrongPukSpends(once, call);
      assert AtLastTries(once.world.card.Of(Puk));
    }
  }

  const LOST := PLAIN.(fate := LostAfter)

  /** A member of that family: PUK 1 2 3 4 5 6 7 8 at three tries, and 8 7 6 5 4 3 2 1 typed. */
  lemma LostAnswerExample(pin: Credential, chosen: seq<byte>)
    requires CredentialSound(pin)
    ensures
      var puk := Credential([0x31, 0x32, 0x33, 0x34, 0x35, 0x36, 0x37, 0x38], 3, 5, false);
      var card := Card(Organizational, pin, pin, puk, Some(Puk), false);
      var c := Channel(World(card, [LOST], []), Remaining(3));
      var call := ChannelCall(true, Pin1, chosen, PresentAgain([0x38, 0x37, 0x36, 0x35, 0x34, 0x33, 0x32, 0x31]));
      Good(card, Puk, c) && LosesCount(Puk, c, call)
  {
    var puk := Credential([0x31, 0x32, 0x33, 0x34, 0x35, 0x36, 0x37, 0x38], 3, 5, false);
    var card := Card(Organizational, pin, pin, puk, Some(Puk), false);
    var digits: seq<byte> := [0x38, 0x37, 0x36, 0x35, 0x34, 0x33, 0x32, 0x31];
    assert Blocks(Organizational, [digits]) == digits;
    assert digits[0] != puk.secret[0];
    forall role: Role ensures CredentialSound(card.Of(role)) { }
  }
}
