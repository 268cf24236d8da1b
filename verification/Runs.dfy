/** Runs: any interleaving of allowed changes, and what every state of every
    run satisfies. A pass of a controller that stops at any point, because a
    call failed or the operator crashed, is just a run that has no more of its
    changes in it. */
module Runs {
  import opened Wrappers
  import opened Store
  import opened Conditions
  import opened Owner
  import opened Database
  import opened World
  import opened Protocol

  /** An initial state, followed by changes and who made them. */
  datatype Run = Start(w: World) | Then(before: Run, who: Actor, change: Change)

  /** The state a run has reached. */
  function Now(r: Run): World {
    match r
    case Start(w) => w
    case Then(before, _, c) => Apply(Now(before), c)
  }

  ghost predicate Legal(r: Run) {
    match r
    case Start(w) => Init(w)
    case Then(before, who, c) => Legal(before) && Allowed(Now(before), who, c)
  }

  /** r goes on where q stopped. */
  ghost predicate Extends(q: Run, r: Run) {
    q == r || (r.Then? && Extends(q, r.before))
  }

  lemma {:induction false} RunKeepsInv(r: Run)
    requires Legal(r)
    ensures Inv(Now(r))
  {
    match r
    case Start(w) => InitHasInv(w);
    case Then(before, who, c) =>
      RunKeepsInv(before);
      StepKeepsInv(Now(before), who, c);
  }

  /** A legal run has reached w. The quantifier over one value keeps the definition
      folded wherever a proof does not name that value. */
  ghost predicate Reaches(r: Run, w: World) {
    forall u: Unfolded :: ReachesNow(u, r, w)
  }

  datatype Unfolded = Unfolded

  ghost predicate ReachesNow(u: Unfolded, r: Run, w: World) {
    Legal(r) && Now(r) == w
  }

  lemma ReachesNext(r: Run, w: World, who: Actor, c: Change)
    requires Reaches(r, w) && Allowed(w, who, c)
    ensures Reaches(Then(r, who, c), Apply(w, c))
  {
    assert ReachesNow(Unfolded, r, w);
  }

  lemma ReachedHolds(r: Run, w: World, a: Aspect)
    requires Reaches(r, w)
    ensures Holds(a, w)
  {
    assert ReachesNow(Unfolded, r, w);
    RunKeepsInv(r);
  }

  // ------------------------------------------------- states along a run

  /** A state a run went through, with the run up to it. */
  datatype Moment = Moment(run: Run, w: World)

  /** The same of two runs, folded. */
  ghost predicate Follows(q: Run, r: Run) {
    forall u: Unfolded :: FollowsNow(u, q, r)
  }

  ghost predicate FollowsNow(u: Unfolded, q: Run, r: Run) {
    Extends(q, r)
  }

  /** r went through m at the end of q or later. */
  ghost predicate Past(q: Run, m: Moment, r: Run) {
    Follows(q, m.run) && Follows(m.run, r) && Reaches(m.run, m.w)
  }

  lemma {:induction false} ExtendsTransitive(p: Run, q: Run, r: Run)
    requires Extends(p, q) && Extends(q, r)
    ensures Extends(p, r)
  {
    if q != r { ExtendsTransitive(p, q, r.before); }
  }

  lemma FollowsSelf(r: Run)
    ensures Follows(r, r)
  {
  }

  lemma FollowsNext(r: Run, who: Actor, c: Change)
    ensures Follows(r, Then(r, who, c))
  {
    assert Extends(r, r) && Extends(r, Then(r, who, c));
  }

  lemma FollowsOn(p: Run, q: Run, r: Run)
    requires Follows(p, q) && Follows(q, r)
    ensures Follows(p, r)
  {
    assert FollowsNow(Unfolded, p, q) && FollowsNow(Unfolded, q, r);
    ExtendsTransitive(p, q, r);
  }

  /** A stretch of a run that went through m goes on. */
  lemma PastFollows(q: Run, m: Moment, r: Run)
    requires Past(q, m, r)
    ensures Follows(q, r)
  {
    FollowsOn(q, m.run, r);
  }

  /** A moment of the end of a stretch is one of all of it. */
  lemma PastFrom(p: Run, q: Run, m: Moment, r: Run)
    requires Follows(p, q) && Past(q, m, r)
    ensures Past(p, m, r) && Follows(p, r)
  {
    PastFollows(q, m, r);
    FollowsOn(p, q, m.run);
    FollowsOn(p, q, r);
  }

  /** And so is one of its beginning. */
  lemma PastUntil(q: Run, m: Moment, r: Run, s: Run)
    requires Past(q, m, r) && Follows(r, s)
    ensures Past(q, m, s) && Follows(q, s)
  {
    PastFollows(q, m, r);
    FollowsOn(m.run, r, s);
    FollowsOn(q, r, s);
  }

  /** One aspect of the invariant, in the state a run has reached. */
  lemma Reached(r: Run, a: Aspect)
    requires Legal(r)
    ensures Holds(a, Now(r))
  {
    RunKeepsInv(r);
  }

  // ------------------------------------------------------------ main results

  /** In every reachable state, the ACK controller being scaled up implies that
      both objects it reads exist and carry key, secret and region. */
  lemma {:induction false} AckNeverStarved(r: Run)
    requires Legal(r) && Now(r).deployment.Some? && Now(r).deployment.value.it.replicas != Some(0)
    ensures var w := Now(r);
      && w.ackSecret.Some? && w.ackConfig.Some?
      && (forall name <- ["AWS_ACCESS_KEY_ID", "AWS_SECRET_ACCESS_KEY"] ::
            name in w.ackSecret.value && |w.ackSecret.value[name]| > 0)
      && "AWS_REGION" in w.ackConfig.value && |w.ackConfig.value["AWS_REGION"]| > 0
  {
    Reached(r, Supply);
  }

  /** In every reachable state, a DBInstance annotated with an RDSInstance has
      that RDSInstance, finalizer included, and sits where it provisions. */
  lemma {:induction false} NoDatabaseOrphaned(r: Run, k: Key, x: Key)
    requires Legal(r)
    requires k in Now(r).dbs && ProvisionedBy(Now(r).dbs[k].it) == Some(x)
    ensures var w := Now(r);
      && x in w.instances && w.instances[x].it.finalizer
      && k == Key(w.instances[x].it.inventoryRef.ns, x.name)
  {
    Reached(r, Ownership);
  }

  /** The last change took the finalizer off inventory k. */
  ghost predicate TearsDown(r: Run, k: Key) {
    r.Then? && HasFinalizer(Now(r.before), k) && !HasFinalizer(Now(r), k)
  }

  /** After q and up to r, no inventory has taken the finalizer. */
  ghost predicate NoneFinalizedSince(q: Run, r: Run)
    requires Extends(q, r)
  {
    r == q || (!SomeFinalizer(Now(r)) && NoneFinalizedSince(q, r.before))
  }

  /** Nothing of what the operator installs for inventories exists. */
  ghost predicate NothingInstalled(w: World) {
    && (forall a <- w.adopted :: AdoptedBy(w.adopted[a]).None?)
    && (w.deployment.Some? ==> w.deployment.value.it.replicas == Some(0))
    && w.ackSecret.None? && w.ackConfig.None?
  }

  lemma {:induction false} NothingWithoutFinalizer(r: Run)
    requires Legal(r) && !SomeFinalizer(Now(r))
    ensures NothingInstalled(Now(r))
  {
    Reached(r, AdoptedHold);
    Reached(r, FootprintHold);
    assert forall k :: !HasFinalizer(Now(r), k);
  }

  /** When an inventory's finalizer goes, no AdoptedResource of any inventory is
      left, the ACK controller is scaled to zero and its secret and config map
      are gone; and all of it stays so until an inventory takes the finalizer. */
  lemma {:induction false} TeardownIsFinal(q: Run, r: Run, k: Key)
    requires Legal(q) && TearsDown(q, k)
    requires Legal(r) && Extends(q, r) && NoneFinalizedSince(q, r)
    ensures NothingInstalled(Now(r))
  {
    if q == r {
      Reached(q, Admission);
      ApplyTouches(Now(q.before), q.change);
      assert forall l <- Now(q).inventories :: l == k;
    }
    NothingWithoutFinalizer(r);
  }

  /** No change scales a running ACK controller to zero while any inventory
      still owns an AdoptedResource, other than the operator starting. */
  lemma {:induction false} NotStoppedWhileOwning(r: Run)
    requires Legal(r) && r.Then?
    requires Running(Now(r.before)) && !Running(Now(r))
    ensures r.who == Startup || forall a <- Now(r.before).adopted :: AdoptedBy(Now(r.before).adopted[a]).None?
  {
    hide Owner.OwnerOf;
    var w := Now(r.before);
    Reached(r.before, Admission);
    Reached(r.before, AdoptedHold);
    ApplyTouches(w, r.change);
    if r.who != Startup {
      assert r.change.ReplicasTo?;
      var k :| k in w.inventories && HasFinalizer(w, k) && w.inventories[k].it.deleting && !OwnsAdopted(w, k);
      forall a <- w.adopted ensures AdoptedBy(w.adopted[a]) in {None, Some(k)} {
      }
    }
  }

  /** Unless its secret lost a password, every ModifyDBInstance for one adopted
      DBInstance carries the same password, however often passes failed between
      writing the secret, telling AWS and recording the reference. */
  lemma {:induction false} OnePasswordPerInstance(r: Run, c: Call, d: Call)
    requires Legal(r) && c in Now(r).calls && d in Now(r).calls && c.db == d.db
    requires c.db !in Now(r).replaced
    ensures c.password == d.password
  {
    Reached(r, Passwords);
  }

  /** Once an adopted DBInstance refers to a password, the secret it refers to
      holds the password AWS was last given for it. */
  lemma {:induction false} ReferenceIsCurrent(r: Run, k: Key)
    requires Legal(r) && k !in Now(r).contested && k !in Now(r).replaced
    requires k in Now(r).dbs && Now(r).dbs[k].it.adopted && Now(r).dbs[k].it.spec.masterUserPassword.Some?
    ensures var w, secret := Now(r), Key(k.ns, k.name + "-credentials");
      && w.dbs[k].it.spec.masterUserPassword == Some(SecretRef(secret, "password"))
      && secret in w.secrets && "password" in w.secrets[secret].it.entries
      && w.dbs[k].it.spec.identifier in w.awsPasswords
      && w.awsPasswords[w.dbs[k].it.spec.identifier] == w.secrets[secret].it.entries["password"]
  {
    Reached(r, References);
  }

  /** P held in every state of the run. */
  ghost predicate Always(r: Run, p: World -> bool) {
    p(Now(r)) && (r.Then? ==> Always(r.before, p))
  }

  /** Since k was adopted, a step took the password from its secret. */
  ghost predicate LostIn(r: Run, k: Key) {
    r.Then? && (LostIn(r.before, k) || (k in Now(r.before).everAdopted && Lost(r, k)))
  }

  /** The last step took the password from the secret of k. */
  ghost predicate Lost(r: Run, k: Key)
    requires r.Then?
  {
    Loses(Now(r.before).secrets, Now(r).secrets, CredentialOf(k))
  }

  /** The records of the assumptions are no more than they say. */
  lemma {:induction false} AssumptionsRecorded(r: Run, k: Key)
    requires Legal(r)
    ensures k !in Now(r).contested <==> Always(r, (w: World) => !Contested(w, k))
    ensures k in Now(r).replaced <==> LostIn(r, k)
    ensures Now(r).distinctListing <==> Always(r, (w: World) => DistinctIds(w.listing))
  {
    if r.Then? {
      AssumptionsRecorded(r.before, k);
      ApplyTouches(Now(r.before), r.change);
    }
  }

  /** A DBInstance whose name no connection ever had, or in whose place no connection's
      secret ever sat, does not lose its password. */
  lemma {:induction false} NotLostWithoutConnection(r: Run, k: Key)
    requires Legal(r)
    requires k !in Now(r).everConnected || Always(r, (w: World) => !BoundAt(w.secrets, CredentialOf(k)))
    ensures k !in Now(r).replaced
  {
    if k !in Now(r).everConnected {
      Reached(r, History);
    } else if r.Then? {
      NotLostWithoutConnection(r.before, k);
      ApplyTouches(Now(r.before), r.change);
      Reached(r.before, History);
      if k in Now(r).replaced {
        assert k in Losing(Now(r.before).everAdopted, Now(r.before).secrets, Now(r).secrets);
        ReplacedByConnection(Now(r.before), r.who, r.change, Now(r), k);
      }
    }
  }

  /** So keeping the names of connections and adopted DBInstances apart is enough for
      one password and, unless others contest it, a reference to the one AWS has. */
  lemma {:induction false} NamesApartAgree(r: Run, k: Key)
    requires Legal(r) && k !in Now(r).everConnected
    ensures forall c <- Now(r).calls :: forall d <- Now(r).calls :: c.db == d.db == k ==> c.password == d.password
    ensures HandedOff(Now(r), k) && k !in Now(r).contested ==> ReferenceAgrees(Now(r), k)
  {
    NotLostWithoutConnection(r, k);
    Reached(r, Passwords);
    Reached(r, References);
  }

  /** While AWS lists distinct identifiers, no identifier is adopted twice in a
      namespace. */
  lemma {:induction false} AdoptedAtMostOnce(r: Run, j: Key, k: Key)
    requires Legal(r) && Always(r, (w: World) => DistinctIds(w.listing))
    requires j in Now(r).adopted && k in Now(r).adopted && SameAdoption(Now(r), j, k)
    ensures j == k
  {
    Reached(r, Adoption);
    AssumptionsRecorded(r, j);
  }

  /** Every status the operator ever commits has one condition per type, reasons
      the CRD accepts, and a complete verdict of its own. */
  lemma {:induction false} StatusesAreCommittable(r: Run)
    requires Legal(r)
    ensures forall k <- Now(r).instances :: Committable(Now(r).instances[k].it.status.conditions, InstanceReady())
    ensures forall k <- Now(r).inventories :: Committable(Now(r).inventories[k].it.conditions, InventoryReady())
    ensures forall k <- Now(r).connections :: Committable(Now(r).connections[k].it.status.conditions, ConnectionReady())
  {
    Reached(r, Verdicts);
  }
}
