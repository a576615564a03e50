/** No run of unblocks and activations spends one of a credential's last two tries. */
module ManageProofs {
  import opened Wrappers
  import opened Bytes
  import opened Credentials
  import opened Containers
  import opened PinCard
  import opened RetryFloor
  import opened Manage

  /** The exchange took at most one try of each credential, and none of its last two. */
  predicate SparesLastTries(e: Exchange) {
    forall role: Role ::
      && e.before.Of(role).tries <= e.after.Of(role).tries + 1
      && (AtLastTries(e.before.Of(role)) ==> e.before.Of(role).tries <= e.after.Of(role).tries)
  }

  /** The card after the first `k` exchanges. */
  function CardAt(origin: Card, log: seq<Exchange>, k: nat): Card
    requires k <= |log|
  {
    if k == 0 then origin else log[k - 1].after
  }

  /** The `k`-th exchange took up where the one before it ended, and spared the last tries. */
  predicate Follows(origin: Card, log: seq<Exchange>, k: nat)
    requires k < |log|
  {
    log[k].before == CardAt(origin, log, k) && SparesLastTries(log[k])
  }

  /** Every exchange so far, on a card that started as `origin`, spared the last tries. */
  predicate Guarded(origin: Card, w: World) {
    && Sound(w.card)
    && w.card == CardAt(origin, w.log, |w.log|)
    && forall k :: 0 <= k < |w.log| ==> Follows(origin, w.log, k)
  }

  /** `v` is `w` after commands that only read. */
  predicate OnlyRead(w: World, v: World) {
    && v.card == w.card
    && w.log <= v.log
    && forall k :: |w.log| <= k < |v.log| ==> IsRead(v.log[k].command) && v.log[k].before == v.log[k].after == w.card
  }

  lemma QuietExchangeSpares(e: Exchange)
    requires e.before == e.after
    ensures SparesLastTries(e)
  {
  }

  lemma OnlyReadKeepsGuard(origin: Card, w: World, v: World)
    requires Guarded(origin, w) && OnlyRead(w, v)
    ensures Guarded(origin, v)
  {
    hide SparesLastTries, Sound;
    forall k | 0 <= k < |v.log| ensures Follows(origin, v.log, k) {
      if k < |w.log| {
        assert Follows(origin, w.log, k);
        assert v.log[k] == w.log[k] && CardAt(origin, v.log, k) == CardAt(origin, w.log, k);
      } else {
        QuietExchangeSpares(v.log[k]);
        assert CardAt(origin, v.log, k) == w.card;
      }
    }
  }

  lemma OnlyReadIsTransitive(u: World, v: World, w: World)
    requires OnlyRead(u, v) && OnlyRead(v, w)
    ensures OnlyRead(u, w)
  {
    forall k | |u.log| <= k < |w.log| ensures IsRead(w.log[k].command) && w.log[k].before == w.log[k].after == u.card {
      if k < |v.log| {
        assert w.log[k] == v.log[k];
      }
    }
  }

  lemma ReadOnlyReads(w: World, command: Command)
    requires IsRead(command)
    ensures OnlyRead(w, Ask(w, command).world)
  {
  }

  lemma GuardGrows(origin: Card, w: World, v: World, last: Exchange)
    requires Guarded(origin, w) && Sound(v.card) && v.log == w.log + [last]
    requires last.before == w.card && last.after == v.card && SparesLastTries(last)
    ensures Guarded(origin, v)
  {
    hide SparesLastTries, Sound;
    forall k | 0 <= k < |v.log| ensures Follows(origin, v.log, k) {
      if k < |w.log| {
        assert Follows(origin, w.log, k);
        assert v.log[k] == w.log[k] && CardAt(origin, v.log, k) == CardAt(origin, w.log, k);
      } else {
        assert CardAt(origin, v.log, k) == w.card;
      }
    }
  }

  predicate Spares(card: Card, command: Command) {
    match Presented(card, command)
    case None => true
    case Some(role) => !AtLastTries(card.Of(role))
  }

  /** A command that shows no credential at its last tries keeps the guard. */
  lemma AskKeepsGuard(origin: Card, w: World, command: Command)
    requires Guarded(origin, w) && Spares(w.card, command)
    ensures Guarded(origin, Ask(w, command).world)
    ensures Ask(w, command).world.card.numbering == w.card.numbering
  {
    hide After, Presented, Accepts;
    var whim, v := NextWhim(w), Ask(w, command).world;
    AfterKeepsSound(w.card, command, whim);
    var last := Exchange(w.card, command, v.card);
    assert SparesLastTries(last) by {
      forall role: Role { OnlyAWrongPresentationSpends(w.card, command, whim, role); }
    }
    GuardGrows(origin, w, v, last);
  }

  /** What a probe or the container says of a credential is true, or it says nothing. */
  lemma PinStatusTells(w: World, numbering: Numbering, role: Role)
    ensures var probed := PinStatusOf(w, numbering, role);
      && OnlyRead(w, probed.world)
      && (probed.result.Ok? ==>
            if w.card.numbering == numbering then Told(probed.result.value, w.card.Of(role))
            else probed.result.value == OtherStatus(ReferenceDataNotFound))
  {
    hide After, Accepts, Presented, CounterFrom;
    ReferencesAreDistinct(w.card.numbering, numbering, role);
    ReadOnlyReads(w, Probe(Reference(numbering, role)));
  }

  /**
   Resolving the numbering reads only; it finds the card's own numbering and a
   true status of PIN 1, except on an organizational card whose answer under
   its own reference is a word no status is known for.
   */
  lemma NumberingIsResolved(w: World)
    ensures var done := Pin1StatusAndNumbering(w);
      && OnlyRead(w, done.world)
      && (done.result.Ok? ==>
            && (done.result.value.numbering == w.card.numbering <==>
                  w.card.numbering.Citizen? || !done.result.value.status.OtherStatus?)
            && Told(done.result.value.status, w.card.pin1))
  {
    hide PinStatusOf, After, Accepts, Presented, CounterFrom;
    var probe := Probe(Reference(Citizen, Pin1));
    ReferencesAreDistinct(w.card.numbering, Citizen, Pin1);
    ReadOnlyReads(w, probe);
    var v := Ask(w, probe).world;
    PinStatusTells(v, Organizational, Pin1);
    OnlyReadIsTransitive(w, v, PinStatusOf(v, Organizational, Pin1).world);
  }

  lemma ContainerTells(w: World)
    ensures var read := PukStatusFromContainer(w);
      && OnlyRead(w, read.world)
      && (read.result.Ok? ==>
            if w.card.numbering == Citizen then Told(read.result.value, w.card.puk)
            else read.result.value == OtherStatus(ReferenceDataNotFound))
  {
    hide After, Accepts, Presented;
    ReferencesAreDistinct(w.card.numbering, Citizen, Puk);
    ReadOnlyReads(w, GetData(Reference(Citizen, Puk)));
  }

  lemma PukStatusTells(w: World, numbering: Numbering)
    ensures var read := PukStatus(w, numbering);
      && OnlyRead(w, read.world)
      && (read.result.Ok? ==>
            if w.card.numbering == numbering then Told(read.result.value, w.card.puk)
            else read.result.value == OtherStatus(ReferenceDataNotFound))
  {
    hide PinStatusOf, PukStatusFromContainer;
    PinStatusTells(w, numbering, Puk);
    var probed := PinStatusOf(w, numbering, Puk).world;
    ContainerTells(probed);
    OnlyReadIsTransitive(w, probed, PukStatusFromContainer(probed).world);
  }

  /** Whether showing `role` under `numbering` can spend no last try of this card. */
  predicate MayShow(card: Card, numbering: Numbering, role: Role) {
    card.numbering == numbering ==> !AtLastTries(card.Of(role))
  }

  lemma ShownUnder(card: Card, command: Command, numbering: Numbering, role: Role, shown: Role)
    requires command.reference == Reference(numbering, role)
    requires match command
      case Verify(_, _) | Change(_, _) => shown == role
      case ResetWithCode(_, _) => shown == Puk
      case _ => true
    requires MayShow(card, numbering, shown)
    ensures Spares(card, command)
  {
    ReferencesAreDistinct(card.numbering, numbering, role);
  }

  lemma UnblockKeepsGuard(origin: Card, w: World, numbering: Numbering, slot: PinSlot, puk: seq<byte>,
                          chosen: seq<byte>)
    requires Guarded(origin, w)
    ensures Guarded(origin, Unblock(w, numbering, slot, puk, chosen).world)
    ensures Unblock(w, numbering, slot, puk, chosen).result.Err? &&
            Unblock(w, numbering, slot, puk, chosen).result.error.Floor? ==>
              OnlyRead(w, Unblock(w, numbering, slot, puk, chosen).world)
  {
    hide PukStatus, Ask, Blocks, Presented, Accepts, CheckRetryFloor;
    PukStatusTells(w, numbering);
    var counter := PukStatus(w, numbering);
    var v := counter.world;
    OnlyReadKeepsGuard(origin, w, v);
    if counter.result.Ok? && CheckRetryFloor(Puk, counter.result.value).None? {
      ServedPukMayBeShown(v.card, numbering, counter.result.value);
      if numbering.Citizen? {
        var command := ResetWithCode(Reference(numbering, slot), Blocks(numbering, [puk, chosen]));
        ShownUnder(v.card, command, numbering, slot, Puk);
        AskKeepsGuard(origin, v, command);
      } else {
        var command := Verify(Reference(numbering, Puk), Blocks(numbering, [puk]));
        ShownUnder(v.card, command, numbering, Puk, Puk);
        AskKeepsGuard(origin, v, command);
        ResetOnlyKeepsGuard(origin, Ask(v, command).world, numbering, slot, chosen);
      }
    }
  }

  lemma ServedPukMayBeShown(card: Card, numbering: Numbering, status: PinStatus)
    requires Sound(card) && CheckRetryFloor(Puk, status).None?
    requires card.numbering == numbering ==> Told(status, card.puk)
    requires card.numbering != numbering ==> status == OtherStatus(ReferenceDataNotFound)
    ensures MayShow(card, numbering, Puk)
  {
    if card.numbering == numbering {
      assert CredentialSound(card.Of(Puk));
      FloorKeepsLastTries(Puk, status, card.puk);
    }
  }

  lemma ResetOnlyKeepsGuard(origin: Card, w: World, numbering: Numbering, slot: PinSlot, chosen: seq<byte>)
    requires Guarded(origin, w)
    ensures Guarded(origin, ResetPinOnly(w, numbering, slot, chosen).world)
  {
    hide Ask, Blocks;
    AskKeepsGuard(origin, w, ResetNewOnly(Reference(numbering, slot), Blocks(numbering, [chosen])));
  }

  lemma ChangeKeepsGuard(origin: Card, w: World, numbering: Numbering, slot: PinSlot, current: seq<byte>,
                         chosen: seq<byte>)
    requires Guarded(origin, w) && MayShow(w.card, numbering, slot)
    ensures Guarded(origin, ChangePin(w, numbering, slot, current, chosen).world)
    ensures forall role: Role :: role != slot && MayShow(w.card, numbering, role) ==>
              MayShow(ChangePin(w, numbering, slot, current, chosen).world.card, numbering, role)
  {
    hide Blocks, Guarded;
    var command := Change(Reference(numbering, slot), Blocks(numbering, [current, chosen]));
    ReferencesAreDistinct(w.card.numbering, numbering, slot);
    ShownUnder(w.card, command, numbering, slot, slot);
    AskKeepsGuard(origin, w, command);
  }

  lemma SlotTells(w: World, scheme: ActivationScheme, numbering: Numbering, slot: PinSlot)
    ensures var read := ReadSlot(w, scheme, numbering, slot);
      && OnlyRead(w, read.world)
      && (read.result.Ok? ==>
            if w.card.numbering == numbering then Told(read.result.value.status, w.card.Of(slot))
            else read.result.value.status == OtherStatus(ReferenceDataNotFound))
  {
    hide PinStatusOf, Ask, RecordFrom;
    var asked := Ask(w, GetData(Reference(Citizen, slot))).world;
    ReadOnlyReads(w, GetData(Reference(Citizen, slot)));
    PinStatusTells(asked, numbering, slot);
    OnlyReadIsTransitive(w, asked, PinStatusOf(asked, numbering, slot).world);
  }

  predicate Tells(reading: Reading, card: Card, numbering: Numbering) {
    if card.numbering == numbering then
      Told(reading.pin1.status, card.pin1) && Told(reading.pin2.status, card.pin2)
    else
      reading.pin1.status == reading.pin2.status == OtherStatus(ReferenceDataNotFound)
  }

  lemma ActivationTells(w: World, scheme: ActivationScheme, numbering: Numbering)
    ensures var read := ReadActivation(w, scheme, numbering);
      && OnlyRead(w, read.world)
      && (read.result.Ok? ==> Tells(read.result.value, w.card, numbering))
  {
    hide ReadSlot, OnlyRead;
    SlotTells(w, scheme, numbering, Pin1);
    var one := ReadSlot(w, scheme, numbering, Pin1).world;
    SlotTells(one, scheme, numbering, Pin2);
    OnlyReadIsTransitive(w, one, ReadSlot(one, scheme, numbering, Pin2).world);
    OnlyReadKeepsCard(w, one);
  }

  lemma OnlyReadKeepsCard(w: World, v: World)
    requires OnlyRead(w, v)
    ensures v.card == w.card
  {
  }

  lemma PassedPinsMayBeShown(scheme: ActivationScheme, first: bool, second: bool, reading: Reading,
                             card: Card, numbering: Numbering)
    requires Sound(card) && Tells(reading, card, numbering) && scheme.PresetActivationPin?
    requires PresetRefusal(scheme, first, second, reading).None?
    ensures first ==> MayShow(card, numbering, Pin1)
    ensures second ==> MayShow(card, numbering, Pin2)
  {
    hide CheckLastTries;
    if card.numbering == numbering {
      assert CredentialSound(card.Of(Pin1)) && CredentialSound(card.Of(Pin2));
      if first { FloorKeepsLastTries(Pin1, reading.pin1.status, card.pin1); }
      if second { FloorKeepsLastTries(Pin2, reading.pin2.status, card.pin2); }
    }
  }

  lemma SetPinKeepsGuard(origin: Card, w: World, scheme: ActivationScheme, numbering: Numbering, slot: PinSlot,
                         code: seq<byte>, chosen: seq<byte>)
    requires Guarded(origin, w) && (scheme.PresetActivationPin? ==> MayShow(w.card, numbering, slot))
    ensures Guarded(origin, SetPin(w, scheme, numbering, slot, code, chosen).world)
    ensures scheme.PresetActivationPin? && slot == Pin1 && MayShow(w.card, numbering, Pin2) ==>
              MayShow(SetPin(w, scheme, numbering, slot, code, chosen).world.card, numbering, Pin2)
  {
    hide ChangePin, Unblock, Guarded, MayShow;
    if scheme.PresetActivationPin? {
      ChangeKeepsGuard(origin, w, numbering, slot, code, chosen);
    } else {
      UnblockKeepsGuard(origin, w, numbering, slot, code, chosen);
    }
  }

  lemma ActivateKeepsGuard(origin: Card, w: World, scheme: ActivationScheme, numbering: Numbering, code: seq<byte>,
                           new1: Option<seq<byte>>, new2: Option<seq<byte>>)
    requires Guarded(origin, w)
    ensures Guarded(origin, Activate(w, scheme, numbering, code, new1, new2).world)
  {
    hide ReadActivation, SetPin, OnlyRead, Guarded, MayShow, Tells, PresetRefusal;
    ActivationTells(w, scheme, numbering);
    var read := ReadActivation(w, scheme, numbering);
    var v := read.world;
    OnlyReadKeepsGuard(origin, w, v);
    OnlyReadKeepsCard(w, v);
    if read.result.Ok? {
      var reading := read.result.value;
      var first, second := reading.pin1.awaits && new1.Some?, reading.pin2.awaits && new2.Some?;
      if PresetRefusal(scheme, first, second, reading).None? {
        GuardedIsSound(origin, v);
        if scheme.PresetActivationPin? {
          PassedPinsMayBeShown(scheme, first, second, reading, v.card, numbering);
        }
        if first {
          SetPinKeepsGuard(origin, v, scheme, numbering, Pin1, code, Digits(new1));
        }
        var u := if first then SetPin(v, scheme, numbering, Pin1, code, Digits(new1)).world else v;
        if second {
          SetPinKeepsGuard(origin, u, scheme, numbering, Pin2, code, Digits(new2));
        }
      }
    }
  }

  lemma GuardedIsSound(origin: Card, w: World)
    requires Guarded(origin, w)
    ensures Sound(w.card)
  {
  }

  lemma {:induction false} RunKeepsGuard(origin: Card, w: World, calls: seq<Call>)
    requires Guarded(origin, w)
    ensures Guarded(origin, Run(w, calls))
  {
    hide Guarded, Unblock, Activate;
    if calls != [] {
      RunKeepsGuard(origin, w, calls[..|calls| - 1]);
      var v, call := Run(w, calls[..|calls| - 1]), calls[|calls| - 1];
      match call
      case UnblockCall(_, numbering, slot, puk, chosen) => UnblockKeepsGuard(origin, v, numbering, slot, puk, chosen);
      case ActivateCall(_, scheme, numbering, code, new1, new2) =>
        ActivateKeepsGuard(origin, v, scheme, numbering, code, new1, new2);
    }
  }

  lemma {:induction false} GuardedCountersStayUp(origin: Card, w: World, k: nat, role: Role)
    requires Guarded(origin, w) && k <= |w.log|
    ensures var tries := CardAt(origin, w.log, k).Of(role).tries; origin.Of(role).tries <= tries || tries >= 2
  {
    hide Sound;
    if k > 0 {
      GuardedCountersStayUp(origin, w, k - 1, role);
      assert Follows(origin, w.log, k - 1);
    }
  }

  /**
   Over every run of unblocks and activations, with any codes, under either
   numbering and scheme, whatever the card and the wire choose, no exchange
   takes a counter from two to one or from one to none, and so no credential
   with a try left loses its last one.
   */
  lemma RunsSpareLastTries(card: Card, whims: seq<Whim>, calls: seq<Call>)
    requires Sound(card)
    ensures var end := Run(World(card, whims, []), calls);
      && Guarded(card, end)
      && forall role: Role :: card.Of(role).tries <= end.card.Of(role).tries || end.card.Of(role).tries >= 2
  {
    hide Run;
    var start := World(card, whims, []);
    RunKeepsGuard(card, start, calls);
    var end := Run(start, calls);
    forall role: Role ensures card.Of(role).tries <= end.card.Of(role).tries || end.card.Of(role).tries >= 2 {
      GuardedCountersStayUp(card, end, |end.log|, role);
    }
  }

  /** A refused preset activation changed no PIN and sent no CHANGE REFERENCE DATA: the card is as it was. */
  lemma RefusedPresetActivationOnlyReads(w: World, numbering: Numbering, code: seq<byte>,
                                         new1: Option<seq<byte>>, new2: Option<seq<byte>>)
    ensures var done := Activate(w, PresetActivationPin, numbering, code, new1, new2);
      done.result.Err? && done.result.error.Floor? ==> OnlyRead(w, done.world)
  {
    hide ReadActivation, Ask, OnlyRead, Tells, PresetRefusal;
    ActivationTells(w, PresetActivationPin, numbering);
  }
}
