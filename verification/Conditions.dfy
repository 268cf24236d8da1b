/** Status conditions and the library functions that keep them
    (meta.SetStatusCondition, meta.FindStatusCondition). */
module Conditions {
  import opened Wrappers
  import Reason

  /** The phases of an RDSInstance; a new one has none. */
  datatype Phase =
    | NoPhase | PhasePending | PhaseCreating | PhaseUpdating | PhaseDeleting | PhaseDeleted
    | PhaseReady | PhaseError | PhaseFailed | PhaseUnknown

  /** Messages, symbolically: the operator's constants, an error's own text, one
      in front of another ("%s: %s"), or what ACK reported. */
  datatype Message =
    | Silent
    | Says(what: What)
    | OfError(error: Error)
    | Before(what: What, rest: Message)
    | OfPhase(phase: Phase)
    | Quote(text: string)
    | QuoteReason(reason: string, about: Option<string>)

  datatype What =
    | UpdatingInventory | DeletingInventory | InstallingController
    | InventoryUpdateFailed | GetInstancesFailed | AdoptFailed | UpdateInstanceFailed
    | GetFailed | DeleteFailed | CreateOrUpdateFailed | InstallFailed | VerifyInstallFailed | UninstallFailed
    | UpdatingInstance | CreatingInstance | DeletingInstance | InstanceWithError
    | InstanceUpdateFailed | DatabaseCreateOrUpdateFailed | GetDatabaseFailed | DeleteDatabaseFailed
    | InventoryNotFound | InventoryNotReady | GetInventoryFailed
    | UpdatingConnection | ConnectionUpdateFailed | SecretFailed | ConfigMapFailed
    | InstanceNotFound | InstanceNotReady | GetInstanceFailed
    | PasswordNotFound | PasswordInvalid | UsernameNotFound | EndpointNotFound | GetPasswordFailed

  datatype Condition = Condition(ctype: string, status: string, reason: string, message: Message, since: Option<int>)

  predicate UniqueTypes(cs: seq<Condition>) {
    forall i, j :: 0 <= i < j < |cs| ==> cs[i].ctype != cs[j].ctype
  }

  /** The position of the first condition of a type, or |cs|. */
  function IndexOf(cs: seq<Condition>, ctype: string): (i: nat)
    ensures i <= |cs|
    ensures i < |cs| ==> cs[i].ctype == ctype
    ensures forall j :: 0 <= j < i ==> cs[j].ctype != ctype
  {
    if cs == [] then 0
    else if cs[0].ctype == ctype then 0
    else 1 + IndexOf(cs[1..], ctype)
  }

  function FindStatusCondition(cs: seq<Condition>, ctype: string): Option<Condition> {
    var i := IndexOf(cs, ctype);
    if i < |cs| then Some(cs[i]) else None
  }

  function SetStatusCondition(cs: seq<Condition>, c: Condition, now: int): seq<Condition> {
    var i := IndexOf(cs, c.ctype);
    var since := if c.since.Some? then c.since else Some(now);
    if i == |cs| then cs + [c.(since := since)]
    else
      cs[i := c.(since := if cs[i].status != c.status then since else cs[i].since)]
  }

  /** One condition per type in, one condition per type out; the condition set
      is the one found, and every other type's condition is as before. */
  lemma SetKeepsTypesUnique(cs: seq<Condition>, c: Condition, now: int)
    requires UniqueTypes(cs)
    ensures UniqueTypes(SetStatusCondition(cs, c, now))
    ensures var found := FindStatusCondition(SetStatusCondition(cs, c, now), c.ctype);
            found.Some? && found.value == c.(since := found.value.since)
    ensures forall t :: t != c.ctype ==>
              FindStatusCondition(SetStatusCondition(cs, c, now), t) == FindStatusCondition(cs, t)
  {
    var cs' := SetStatusCondition(cs, c, now);
    var i := IndexOf(cs, c.ctype);
    forall t | t != c.ctype
      ensures FindStatusCondition(cs', t) == FindStatusCondition(cs, t)
    {
      var j, j' := IndexOf(cs, t), IndexOf(cs', t);
      if j < |cs| { assert cs'[j].ctype == t; }
      if j' < |cs'| { assert j' < |cs| && cs[j'].ctype == t; }
    }
    assert IndexOf(cs', c.ctype) == i by { assert cs'[i].ctype == c.ctype; }
  }

  /** Every condition afterwards is an old one or carries the new reason. */
  lemma SetAddsOne(cs: seq<Condition>, c: Condition, now: int)
    ensures forall d <- SetStatusCondition(cs, c, now) :: d in cs || d == c.(since := d.since)
  {
  }

  /** The transition time moves exactly when the status changes. */
  lemma TimeMovesWithStatus(cs: seq<Condition>, c: Condition, now: int)
    ensures var before, after := FindStatusCondition(cs, c.ctype),
            FindStatusCondition(SetStatusCondition(cs, c, now), c.ctype);
      && after.Some?
      && after.value.since == if before.Some? && before.value.status == c.status then before.value.since
                              else Some(c.since.GetOr(now))
  {
    var cs', i := SetStatusCondition(cs, c, now), IndexOf(cs, c.ctype);
    assert cs'[i].ctype == c.ctype;
    assert forall j :: 0 <= j < i ==> cs'[j].ctype != c.ctype;
    assert IndexOf(cs', c.ctype) == i;
  }

  /** Setting what is already there changes nothing. */
  lemma SetAgain(cs: seq<Condition>, c: Condition, now: int)
    requires var found := FindStatusCondition(cs, c.ctype);
             found.Some? && found.value == c.(since := found.value.since)
    ensures SetStatusCondition(cs, c, now) == cs
  {
  }

  /** The verdicts a condition's status can be. */
  datatype Verdict = Yes | No | Unsure

  function StatusText(v: Verdict): string {
    match v
    case Yes => "True"
    case No => "False"
    case Unsure => "Unknown"
  }

  /** The condition of this type is there and true. */
  predicate SaysTrue(cs: seq<Condition>, ctype: string) {
    var found := FindStatusCondition(cs, ctype);
    found.Some? && found.value.status == "True"
  }

  /** The reasons the operator gives. */
  datatype Why =
    | SyncOK | Ready | Updating | Creating | Deleting | Terminated
    | InputError | BackendError | Absent | Unreachable

  function ReasonText(y: Why): string {
    match y
    case SyncOK => "SyncOK"
    case Ready => "Ready"
    case Updating => "Updating"
    case Creating => "Creating"
    case Deleting => "Deleting"
    case Terminated => "Terminated"
    case InputError => "InputError"
    case BackendError => "BackendError"
    case Absent => "NotFound"
    case Unreachable => "Unreachable"
  }

  lemma ReasonsFit(y: Why)
    ensures Reason.Matches(ReasonText(y))
  {
    Reason.IdentifierFits(ReasonText(y));
    Reason.MatchesIffInPattern(ReasonText(y));
  }

  /** What the CRD demands of a condition the operator itself decides. */
  predicate WellFormed(status: string, reason: string) {
    && (exists v: Verdict :: status == StatusText(v))
    && Reason.Matches(reason)
  }

  /** Conditions as a status of the operator's own kinds may hold them: one per
      type, every reason in the pattern, the operator's own verdict complete. */
  predicate Committable(cs: seq<Condition>, ready: string) {
    && UniqueTypes(cs)
    && forall c <- cs :: Reason.Matches(c.reason) && (c.ctype == ready ==> WellFormed(c.status, c.reason))
  }

  lemma SetKeepsCommittable(cs: seq<Condition>, c: Condition, now: int, ready: string)
    requires Committable(cs, ready)
    requires Reason.Matches(c.reason)
    requires c.ctype == ready ==> WellFormed(c.status, c.reason)
    ensures Committable(SetStatusCondition(cs, c, now), ready)
  {
    SetKeepsTypesUnique(cs, c, now);
    SetAddsOne(cs, c, now);
  }
}
