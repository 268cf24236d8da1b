/** Mirroring ACK's conditions and state of a DBInstance into the status of its
    RDSInstance (the loop of syncDBInstanceStatus, setDBInstancePhase). */
module Mirror {
  import opened Wrappers
  import opened Conditions
  import opened World
  import Reason

  function MirroredReason(): string { "DBInstance" }

  function About(message: Option<string>): Message {
    match message
    case None => Silent
    case Some(text) => Quote(text)
  }

  /** An ACK condition with a reason the CRD accepts: its own if it fits the
      pattern, which then also stays out of the message. */
  function Sanitised(a: AckCondition): Condition {
    if a.reason.Some? && |a.reason.value| > 0 then
      if Reason.Matches(a.reason.value)
      then Condition(a.ctype, a.status, a.reason.value, About(a.message), a.since)
      else Condition(a.ctype, a.status, MirroredReason(), QuoteReason(a.reason.value, a.message), a.since)
    else Condition(a.ctype, a.status, MirroredReason(), About(a.message), a.since)
  }

  lemma MirroredReasonFits()
    ensures Reason.InPattern(MirroredReason())
  {
    Reason.IdentifierFits(MirroredReason());
  }

  lemma SanitisedFits(a: AckCondition)
    ensures Reason.InPattern(Sanitised(a).reason) && Reason.Matches(Sanitised(a).reason)
    ensures a.reason.Some? && Reason.InPattern(a.reason.value) ==> Sanitised(a).reason == a.reason.value
  {
    hide Reason.InPattern, Reason.Matches, MirroredReason;
    MirroredReasonFits();
    Reason.MatchesIffInPattern(Sanitised(a).reason);
    if a.reason.Some? {
      Reason.MatchesIffInPattern(a.reason.value);
      Reason.PatternIsNotEmpty(a.reason.value);
    }
  }

  /** c is what is to be shown of a: its own reason, or one that stands in for it and
      then says it, with the message, in the message. */
  ghost predicate Shows(c: Condition, a: AckCondition) {
    && c.ctype == a.ctype && c.status == a.status
    && (if a.reason.Some? && Reason.InPattern(a.reason.value) then c.reason == a.reason.value
        else c.reason == "DBInstance")
    && (if a.reason.Some? && a.reason.value != "" && !Reason.InPattern(a.reason.value)
        then c.message == QuoteReason(a.reason.value, a.message)
        else if a.message.Some? then c.message == Quote(a.message.value)
        else c.message == Silent)
  }

  lemma SanitisedShows(a: AckCondition, since: Option<int>)
    ensures Shows(Sanitised(a).(since := since), a) && Sanitised(a).since == a.since && Sanitised(a).ctype == a.ctype
  {
    hide Reason.InPattern, Reason.Matches;
    if a.reason.Some? {
      Reason.MatchesIffInPattern(a.reason.value);
      Reason.PatternIsNotEmpty(a.reason.value);
    }
  }

  /** The i-th of ACK's conditions is the last of its type. */
  predicate IsLast(acks: seq<AckCondition>, i: nat) {
    i < |acks| && forall j :: i < j < |acks| ==> acks[j].ctype != acks[i].ctype
  }

  /** What a condition of type t is to become while ACK reports these. */
  ghost predicate Stands(was: Option<Condition>, acks: seq<AckCondition>, found: Option<Condition>, t: string) {
    && ((forall a <- acks :: a.ctype != t) ==> found == was)
    && forall i: nat :: IsLast(acks, i) && acks[i].ctype == t ==> found.Some? && Shows(found.value, acks[i])
  }

  /** What has become of the condition of one type. */
  ghost predicate Mirrored(cs: seq<Condition>, acks: seq<AckCondition>, cs': seq<Condition>, t: string) {
    Stands(FindStatusCondition(cs, t), acks, FindStatusCondition(cs', t), t)
  }

  ghost predicate AllMirrored(cs: seq<Condition>, acks: seq<AckCondition>, cs': seq<Condition>) {
    forall t: string :: Mirrored(cs, acks, cs', t)
  }

  lemma StandsNew(was: Option<Condition>, acks: seq<AckCondition>, a: AckCondition, c: Condition)
    requires Shows(c, a)
    ensures Stands(was, acks + [a], Some(c), a.ctype)
  {
    hide Shows;
    var all := acks + [a];
    assert all[|acks|] == a;
    forall i: nat | IsLast(all, i) && all[i].ctype == a.ctype ensures all[i] == a {
      assert !(i < |acks| < |all|);
    }
  }

  lemma StandsOld(was: Option<Condition>, acks: seq<AckCondition>, a: AckCondition, found: Option<Condition>, t: string)
    requires a.ctype != t && Stands(was, acks, found, t)
    ensures Stands(was, acks + [a], found, t)
  {
    hide Shows, IsLast;
    var all := acks + [a];
    forall i: nat | i < |all| && IsLast(all, i) && all[i].ctype == t
      ensures i < |acks| && IsLast(acks, i) && all[i] == acks[i]
    {
      LastBefore(acks, a, i);
    }
    forall i: nat | IsLast(all, i) ensures i < |all| { LastIsThere(all, i); }
    assert forall b <- acks :: b in all;
  }

  lemma LastIsThere(acks: seq<AckCondition>, i: nat)
    ensures IsLast(acks, i) ==> i < |acks|
  {
  }

  lemma LastBefore(acks: seq<AckCondition>, a: AckCondition, i: nat)
    requires IsLast(acks + [a], i) && (acks + [a])[i].ctype != a.ctype
    ensures i < |acks| && IsLast(acks, i) && (acks + [a])[i] == acks[i]
  {
    assert forall j :: i < j < |acks| ==> (acks + [a])[j] == acks[j];
  }

  lemma CommittableIsUnique(cs: seq<Condition>)
    requires Committable(cs, InstanceReady())
    ensures UniqueTypes(cs)
  {
  }

  lemma MirrorOne(cs: seq<Condition>, acks: seq<AckCondition>, before: seq<Condition>, a: AckCondition, now: int,
                  t: string)
    requires Committable(before, InstanceReady()) && Mirrored(cs, acks, before, t)
    ensures Mirrored(cs, acks + [a], SetStatusCondition(before, Sanitised(a), now), t)
  {
    hide Shows, Stands, SetStatusCondition, FindStatusCondition, Committable, Sanitised;
    var found := FindStatusCondition(SetStatusCondition(before, Sanitised(a), now), t);
    CommittableIsUnique(before);
    SanitisedShows(a, None);
    SetKeepsTypesUnique(before, Sanitised(a), now);
    if a.ctype == t {
      SanitisedShows(a, found.value.since);
      StandsNew(FindStatusCondition(cs, t), acks, a, found.value);
    } else {
      StandsOld(FindStatusCondition(cs, t), acks, a, found, t);
    }
  }

  lemma MirrorStep(cs: seq<Condition>, acks: seq<AckCondition>, before: seq<Condition>, a: AckCondition, now: int)
    requires Committable(before, InstanceReady()) && AllMirrored(cs, acks, before)
    ensures AllMirrored(cs, acks + [a], SetStatusCondition(before, Sanitised(a), now))
    ensures Committable(SetStatusCondition(before, Sanitised(a), now), InstanceReady())
  {
    SanitisedFits(a);
    SetKeepsCommittable(before, Sanitised(a), now, InstanceReady());
    var after := SetStatusCondition(before, Sanitised(a), now);
    forall t: string ensures Mirrored(cs, acks + [a], after, t) {
      assert Mirrored(cs, acks, before, t);
      MirrorOne(cs, acks, before, a, now, t);
    }
  }

  /** The loop: for any conditions ACK reports, each type it reports ends as its
      last condition of that type, sanitised; the others stay as they were, types
      stay unique and every reason fits the pattern. */
  method MirrorConditions(cs: seq<Condition>, acks: seq<AckCondition>) returns (cs': seq<Condition>)
    requires Committable(cs, InstanceReady())
    ensures Committable(cs', InstanceReady())
    ensures AllMirrored(cs, acks, cs')
  {
    hide Committable;
    cs' := cs;
    for i := 0 to |acks|
      invariant Committable(cs', InstanceReady())
      invariant AllMirrored(cs, acks[..i], cs')
    {
      var now: int := *;
      MirrorStep(cs, acks[..i], cs', acks[i], now);
      assert acks[..i + 1] == acks[..i] + [acks[i]];
      cs' := SetStatusCondition(cs', Sanitised(acks[i]), now);
    }
    assert acks[..|acks|] == acks;
  }

  // ------------------------------------------------------------------ phases

  function UpdatingStates(): seq<string> {
    ["backing-up", "configuring-enhanced-monitoring", "configuring-iam-database-auth",
     "configuring-log-exports", "converting-to-vpc", "maintenance", "modifying", "moving-to-vpc",
     "rebooting", "resetting-master-credentials", "renaming", "starting", "stopping",
     "storage-optimization", "upgrading"]
  }

  function ErrorStates(): seq<string> {
    ["inaccessible-encryption-credentials-recoverable", "incompatible-parameters", "restore-error"]
  }

  /** setDBInstancePhase; a missing state counts as empty. */
  function PhaseOf(state: Option<string>): Phase {
    var s := state.GetOr("");
    if s == "available" then PhaseReady
    else if s == "creating" then PhaseCreating
    else if s == "deleting" then PhaseDeleting
    else if s == "failed" then PhaseFailed
    else if s in ErrorStates() then PhaseError
    else if s in UpdatingStates() then PhaseUpdating
    else PhaseUnknown
  }

  /** The phases the switch at the end of Reconcile has a case for. */
  predicate Handled(p: Phase) {
    p != NoPhase
  }

  /** AWS is changing the database. */
  predicate AtWork(s: string) {
    || s == "backing-up" || s == "configuring-enhanced-monitoring" || s == "configuring-iam-database-auth"
    || s == "configuring-log-exports" || s == "converting-to-vpc" || s == "maintenance" || s == "modifying"
    || s == "moving-to-vpc" || s == "rebooting" || s == "resetting-master-credentials" || s == "renaming"
    || s == "starting" || s == "stopping" || s == "storage-optimization" || s == "upgrading"
  }

  /** It does not work, and AWS is not going to change that by itself. */
  predicate Broken(s: string) {
    s == "inaccessible-encryption-credentials-recoverable" || s == "incompatible-parameters" || s == "restore-error"
  }

  lemma UpdatingStatesAre(s: string)
    ensures s in UpdatingStates() <==> AtWork(s)
  {
  }

  lemma ErrorStatesAre(s: string)
    ensures s in ErrorStates() <==> Broken(s)
  {
  }

  // No state is in two of the classes: these letters tell them apart.

  lemma AtWorkMark(s: string)
    requires AtWork(s)
    ensures 5 < |s| < 32 && s[0] in "bcmrsu" && s[1] in "aoetp" && !(s[0] == 'r' && s[2] == 's' && s[3] == 't')
    ensures s[0] == 'c' ==> s[1] == 'o'
  {
    if s[0] == 'r' { assert s[2] == 'b' || s[2] == 'n' || (s[2] == 's' && s[3] == 'e'); }
  }

  lemma BrokenMark(s: string)
    requires Broken(s)
    ensures |s| == 47 || (|s| > 5 && (s[0] == 'i' || (s[0] == 'r' && s[2] == 's' && s[3] == 't')))
  {
    assert |"inaccessible-encryption-credentials-recoverable"| == 47 && "incompatible-parameters"[0] == 'i';
    assert "restore-error"[0] == 'r' && "restore-error"[2] == 's' && "restore-error"[3] == 't';
  }

  lemma StatesApart(s: string)
    ensures Broken(s) ==> !AtWork(s) && s !in ["available", "creating", "deleting", "failed"]
    ensures AtWork(s) ==> s !in ["available", "creating", "deleting", "failed"]
  {
    hide AtWork, Broken;
    if Broken(s) { BrokenMark(s); }
    if AtWork(s) { AtWorkMark(s); }
    assert "available"[0] == 'a' && "creating"[0] == 'c' && "creating"[1] == 'r';
    assert "deleting"[0] == 'd' && "failed"[0] == 'f';
  }

  /** Every state has a phase the switch handles, and which one it is. */
  lemma PhaseIsHandled(state: Option<string>)
    ensures Handled(PhaseOf(state))
    ensures PhaseOf(state) == PhaseReady <==> state == Some("available")
    ensures PhaseOf(state) !in {NoPhase, PhasePending, PhaseDeleted}
    ensures PhaseOf(state) == PhaseCreating <==> state == Some("creating")
    ensures PhaseOf(state) == PhaseDeleting <==> state == Some("deleting")
    ensures PhaseOf(state) == PhaseFailed <==> state == Some("failed")
    ensures PhaseOf(state) == PhaseUpdating <==> state.Some? && AtWork(state.value)
    ensures PhaseOf(state) == PhaseError <==> state.Some? && Broken(state.value)
  {
    hide UpdatingStates, ErrorStates, AtWork, Broken;
    var s := state.GetOr("");
    UpdatingStatesAre(s);
    ErrorStatesAre(s);
    StatesApart(s);
    NotEmpty();
  }

  lemma NotEmpty()
    ensures !AtWork("") && !Broken("")
  {
  }
}
