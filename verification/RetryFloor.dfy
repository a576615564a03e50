/** The retry floor: which counter readings let a credential be presented. */
module RetryFloor {
  import opened Wrappers
  import opened Credentials
  import opened Containers
  import opened PinCard

  datatype PinStatus = Verified | Remaining(tries: Tries) | NoInfo | Locked | OtherStatus(word: StatusWord)

  datatype ManageOutcome = Updated | WrongCredential(left: Tries) | LockedOut | OtherOutcome(word: StatusWord)

  datatype FloorRefusal =
    | TriesBelowFloor(credential: Role, left: Tries)
    | Blocked(credential: Role)
    | CounterUnreadable(credential: Role)

  datatype Risk =
    | NormalOperatingConditions
    | DisturbanceDetected
    | SecurityIncidentDeclared
    | CriticalThreatLevel
    | LockdownImminent
    | DefencesFallen

  function RiskOf(tries: Tries): Option<Risk> {
    match tries
    case 5 => Some(NormalOperatingConditions)
    case 4 => Some(DisturbanceDetected)
    case 3 => Some(SecurityIncidentDeclared)
    case 2 => Some(CriticalThreatLevel)
    case 1 => Some(LockdownImminent)
    case 0 => Some(DefencesFallen)
    case _ => None
  }

  predicate SpendsALastTry(risk: Risk) {
    risk.CriticalThreatLevel? || risk.LockdownImminent?
  }

  predicate IsAboveFloor(risk: Risk) {
    risk.NormalOperatingConditions? || risk.DisturbanceDetected? || risk.SecurityIncidentDeclared?
  }

  function ClassifyPinStatus(word: StatusWord): PinStatus {
    match word
    case Success => Verified
    case PinIncorrect(retries) => Remaining(retries)
    case AuthenticationFailed => NoInfo
    case AuthenticationBlocked | ReferenceDataInvalidated => Locked
    case _ => OtherStatus(word)
  }

  function ClassifyManage(word: StatusWord): ManageOutcome {
    match word
    case Success => Updated
    case PinIncorrect(retries) => WrongCredential(retries)
    case AuthenticationBlocked | ReferenceDataInvalidated => LockedOut
    case _ => OtherOutcome(word)
  }

  /** The refusal of a command that could spend one of the last two tries, if any. */
  function CheckLastTries(credential: Role, status: PinStatus): Option<FloorRefusal> {
    match status
    case Remaining(left) =>
      (match RiskOf(left)
       case Some(risk) => if SpendsALastTry(risk) then Some(TriesBelowFloor(credential, left)) else None
       case None => Some(CounterUnreadable(credential)))
    case Verified | Locked => None
    case NoInfo | OtherStatus(_) => Some(CounterUnreadable(credential))
  }

  function CheckRetryFloor(credential: Role, status: PinStatus): Option<FloorRefusal> {
    if credential.Puk? then
      if status.Verified? then Some(CounterUnreadable(credential)) else CheckLastTries(credential, status)
    else
      match status
      case Verified => None
      case Remaining(left) =>
        (match RiskOf(left)
         case Some(risk) => if IsAboveFloor(risk) then None else Some(TriesBelowFloor(credential, left))
         case None => Some(CounterUnreadable(credential)))
      case Locked => Some(Blocked(credential))
      case NoInfo | OtherStatus(_) => Some(CounterUnreadable(credential))
  }

  /** `status` is a true reading of `c`, possibly one that says nothing. */
  predicate Told(status: PinStatus, c: Credential) {
    match status
    case Verified => c.verified
    case Remaining(tries) => tries == c.tries
    case Locked => c.tries == 0
    case _ => true
  }

  predicate AtLastTries(c: Credential) {
    c.tries == 1 || c.tries == 2
  }

  /** A true reading either rule lets through is not one of a credential at its last tries. */
  lemma FloorKeepsLastTries(credential: Role, status: PinStatus, c: Credential)
    requires CredentialSound(c) && Told(status, c)
    requires CheckRetryFloor(credential, status).None? || CheckLastTries(credential, status).None?
    ensures !AtLastTries(c)
  {
    match status { case Verified => case Remaining(n) => case NoInfo => case Locked => case OtherStatus(_) => }
  }

  /** Exactly which readings are served, per credential. */
  lemma FloorServesExactly(credential: Role, status: PinStatus)
    ensures CheckRetryFloor(credential, status).None? <==>
      || (status.Remaining? && 3 <= status.tries <= 5)
      || (status.Verified? && credential != Puk)
      || ((status.Locked? || status == Remaining(0)) && credential == Puk)
    ensures CheckLastTries(credential, status).None? <==>
      || (status.Remaining? && (status.tries == 0 || 3 <= status.tries <= 5))
      || status.Verified? || status.Locked?
  {
    match status { case Verified => case Remaining(n) => case NoInfo => case Locked => case OtherStatus(_) => }
  }

  /** What a refused reading is met with: the count when it is the last ones, and else what could not be told. */
  lemma FloorNamesTheRefusal(credential: Role, status: PinStatus)
    ensures CheckRetryFloor(credential, status).Some? ==>
      CheckRetryFloor(credential, status).value ==
        if status.Remaining? && (status.tries == 1 || status.tries == 2 || status.tries == 0)
        then TriesBelowFloor(credential, status.tries)
        else if status.Locked? then Blocked(credential)
        else CounterUnreadable(credential)
    ensures CheckLastTries(credential, status).Some? ==>
      CheckLastTries(credential, status).value ==
        if status.Remaining? && (status.tries == 1 || status.tries == 2) then TriesBelowFloor(credential, status.tries)
        else CounterUnreadable(credential)
  {
    match status { case Verified => case Remaining(n) => case NoInfo => case Locked => case OtherStatus(_) => }
  }
}
