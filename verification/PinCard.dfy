/**
 A FINEID card as its credential commands see it. A wrong presentation spends
 a try and clears the verified flag, a right one restores the counter to its
 limit, and a credential without tries is refused and loses nothing.

 How the card words an answer is its own choice, and an exchange can fail on
 the wire before or after the card acted; a `Whim` fixes those choices, so a
 statement over every sequence of whims is a statement about every such card
 and wire. Whatever the whim, the card never states a wrong count.
 */
module PinCard {
  import opened Wrappers
  import opened Bytes
  import opened Credentials
  import opened Containers

  datatype StatusWord =
    | Success
    | PinIncorrect(retries: Tries)
    | AuthenticationFailed
    | AuthenticationBlocked
    | ReferenceDataInvalidated
    | ReferenceDataNotFound
    | SecurityStatusNotSatisfied
    | OtherWord(code: nat)

  predicate IsBlocked(word: StatusWord) {
    word.AuthenticationBlocked? || word.ReferenceDataInvalidated?
  }

  /** The words that say nothing about a counter. */
  type VagueWord = w: StatusWord | !w.Success? && !w.PinIncorrect? && !IsBlocked(w) witness AuthenticationFailed

  type BlockedWord = w: StatusWord | IsBlocked(w) witness AuthenticationBlocked

  datatype Credential = Credential(secret: seq<byte>, tries: Tries, limit: Tries, verified: bool)

  predicate CredentialSound(c: Credential) {
    3 <= c.limit && c.tries <= c.limit && (c.verified ==> c.tries == c.limit)
  }

  /**
   `channel` is the password of the PACE channel the card is reached through;
   `resetEndsPuk` says whether setting a PIN ends the PUK's verified state.
   */
  datatype Card = Card(numbering: Numbering, pin1: Credential, pin2: Credential, puk: Credential,
                       channel: Option<Role>, resetEndsPuk: bool) {
    function Of(role: Role): Credential {
      match role case Pin1 => pin1 case Pin2 => pin2 case Puk => puk
    }

    function With(role: Role, c: Credential): Card {
      match role
      case Pin1 => this.(pin1 := c)
      case Pin2 => this.(pin2 := c)
      case Puk => this.(puk := c)
    }
  }

  predicate Sound(card: Card) {
    forall role: Role :: CredentialSound(card.Of(role))
  }

  datatype Command =
    | Probe(reference: byte)
    | GetData(reference: byte)
    | Verify(reference: byte, body: seq<byte>)
    | Change(reference: byte, body: seq<byte>)
    | ResetWithCode(reference: byte, body: seq<byte>)
    | ResetNewOnly(reference: byte, body: seq<byte>)

  predicate IsRead(command: Command) {
    command.Probe? || command.GetData?
  }

  datatype Fate = Delivered | LostBefore | LostAfter

  datatype Whim = Whim(fate: Fate, vague: Option<VagueWord>, blockedAs: Option<BlockedWord>,
                       container: seq<byte>)

  const PLAIN := Whim(Delivered, None, None, [])

  datatype Reply = Reply(word: StatusWord, body: seq<byte>)

  function Named(card: Card, command: Command): Option<Role> {
    RoleAt(card.numbering, command.reference)
  }

  /** The credential whose digits `command` shows the card. */
  function Presented(card: Card, command: Command): Option<Role> {
    match Named(card, command)
    case None => None
    case Some(role) =>
      match command
      case Verify(_, _) | Change(_, _) => Some(role)
      case ResetWithCode(_, _) => if card.numbering.Citizen? && role != Puk then Some(Puk) else None
      case _ => None
  }

  /** Whether the card compares the presented digits and finds them right. */
  predicate Accepts(card: Card, command: Command) {
    match Presented(card, command)
    case None => false
    case Some(role) =>
      var c := card.Of(role);
      c.tries > 0 && if command.Verify? then command.body == c.secret else c.secret <= command.body
  }

  /** Whether the card's security state lets `slot` be set without a code. */
  predicate MayReset(card: Card, slot: Role) {
    slot != Puk && (card.puk.verified || card.channel == Some(Puk) || (card.channel == Some(Pin1) && slot == Pin1))
  }

  function Spent(c: Credential): Credential {
    if c.tries == 0 then c else c.(tries := c.tries - 1, verified := false)
  }

  function Renewed(c: Credential, secret: seq<byte>): Credential {
    c.(secret := secret, tries := c.limit, verified := false)
  }

  /** The card after an accepted presentation. */
  function Served(card: Card, command: Command): Card
    requires Accepts(card, command)
  {
    var role := Presented(card, command).value;
    var c := card.Of(role);
    match command
    case Verify(_, _) => card.With(role, c.(tries := c.limit, verified := true))
    case Change(_, body) => card.With(role, Renewed(c, body[|c.secret|..]))
    case ResetWithCode(_, body) =>
      var slot := Named(card, command).value;
      card.With(Puk, c.(tries := c.limit)).With(slot, Renewed(card.Of(slot), body[|c.secret|..]))
  }

  function After(card: Card, command: Command, whim: Whim): Card {
    if Presented(card, command).Some? then
      if Accepts(card, command) then Served(card, command)
      else card.With(Presented(card, command).value, Spent(card.Of(Presented(card, command).value)))
    else
      match (command, Named(card, command))
      case (ResetNewOnly(_, body), Some(slot)) =>
        if MayReset(card, slot) then
          card.(puk := if card.resetEndsPuk then card.puk.(verified := false) else card.puk)
              .With(slot, Renewed(card.Of(slot), body))
        else card
      case _ => card
  }

  /** What the card says of a credential it did not accept or was only asked about. */
  function Refusal(c: Credential, whim: Whim): StatusWord {
    if whim.vague.Some? then whim.vague.value
    else if c.tries == 0 && whim.blockedAs.Some? then whim.blockedAs.value
    else PinIncorrect(c.tries)
  }

  /** The container the card hands out; what it says of the PUK's counter is true. */
  function Container(card: Card, role: Role, whim: Whim): seq<byte> {
    var read := CounterFrom(whim.container, 0);
    if role == Puk && read.Some? && read.value != card.puk.tries then [] else whim.container
  }

  function Answer(card: Card, command: Command, whim: Whim): Reply {
    match Named(card, command)
    case None => Reply(ReferenceDataNotFound, [])
    case Some(role) =>
      match command
      case Probe(_) => Reply(if card.Of(role).verified then Success else Refusal(card.Of(role), whim), [])
      case GetData(_) =>
        var word := if whim.vague.Some? then whim.vague.value
                    else if card.Of(role).tries == 0 && whim.blockedAs.Some? then whim.blockedAs.value
                    else Success;
        Reply(word, Container(card, role, whim))
      case ResetNewOnly(_, _) => Reply(if MayReset(card, role) then Success else SecurityStatusNotSatisfied, [])
      case _ =>
        match Presented(card, command)
        case None => Reply(OtherWord(0x6A81), [])
        case Some(shown) =>
          Reply(if Accepts(card, command) then Success else Refusal(After(card, command, whim).Of(shown), whim), [])
  }

  /** One command on the wire, with the card before and after it. */
  datatype Exchange = Exchange(before: Card, command: Command, after: Card)

  /** A card, the choices it and the wire will make, and what passed so far. */
  datatype World = World(card: Card, whims: seq<Whim>, log: seq<Exchange>)

  function NextWhim(w: World): Whim {
    if w.whims == [] then PLAIN else w.whims[0]
  }

  datatype Sent = Sent(world: World, reply: Option<Reply>)

  function Send(w: World, command: Command): Sent {
    var whim := NextWhim(w);
    var after := if whim.fate.LostBefore? then w.card else After(w.card, command, whim);
    Sent(World(after, if w.whims == [] then [] else w.whims[1..], w.log + [Exchange(w.card, command, after)]),
         if whim.fate.Delivered? then Some(Answer(w.card, command, whim)) else None)
  }

  lemma AfterKeepsSound(card: Card, command: Command, whim: Whim)
    requires Sound(card)
    ensures Sound(After(card, command, whim))
    ensures After(card, command, whim).numbering == card.numbering
    ensures After(card, command, whim).channel == card.channel
    ensures After(card, command, whim).resetEndsPuk == card.resetEndsPuk
  {
    forall role: Role ensures CredentialSound(After(card, command, whim).Of(role)) {
      assert CredentialSound(card.Of(Pin1)) && CredentialSound(card.Of(Pin2)) && CredentialSound(card.Of(Puk));
    }
  }

  /** A counter falls only by one, and only when its own credential was shown and refused. */
  lemma OnlyAWrongPresentationSpends(card: Card, command: Command, whim: Whim, role: Role)
    requires Sound(card)
    ensures var after := After(card, command, whim).Of(role).tries;
      && (after < card.Of(role).tries <==>
           Presented(card, command) == Some(role) && !Accepts(card, command) && card.Of(role).tries > 0)
      && card.Of(role).tries <= after + 1
  {
    assert CredentialSound(card.Of(Pin1)) && CredentialSound(card.Of(Pin2)) && CredentialSound(card.Of(Puk));
  }
}
