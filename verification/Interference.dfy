/** What a controller in the middle of a pass may rely on while everyone else
    acts between two of its calls. */
module Interference {
  import opened Wrappers
  import opened Store
  import opened Conditions
  import opened Owner
  import opened Database
  import opened World
  import opened Protocol

  // ----------------------------------------------- what can stay as it was

  ghost predicate ClockRuns(w: World, w': World) {
    && w.clock <= w'.clock
    && w.everAdopted <= w'.everAdopted && w.everOwned <= w'.everOwned
    && w.everConnected <= w'.everConnected
    && w.contested <= w'.contested && w.replaced <= w'.replaced
    && (w'.distinctListing ==> w.distinctListing)
    && (w'.deployment.Some? <==> w.deployment.Some?)
  }

  /** What AWS was told is not forgotten. */
  ghost predicate CallsStay(w: World, w': World) {
    forall c <- w.calls :: c in w'.calls
  }

  ghost predicate NewerDeployment(w: World, w': World) {
    w'.deployment == w.deployment
    || (w.deployment.Some? && w'.deployment.Some? && w'.deployment.value.rv > w.clock)
  }

  function Replicas(w: World): Option<Option<nat>> {
    if w.deployment.Some? then Some(w.deployment.value.it.replicas) else None
  }

  function ReadyReplicas(w: World): Option<nat> {
    if w.deployment.Some? then Some(w.deployment.value.it.ready) else None
  }

  /** The ACK controller is as scaled and supplied as it was. */
  ghost predicate SameFootprint(w: World, w': World) {
    Replicas(w') == Replicas(w) && w'.ackSecret == w.ackSecret && w'.ackConfig == w.ackConfig
  }

  /** The two states differ in at most the ACK controller and what it reads. */
  ghost predicate OnlyFootprint(w: World, w': World) {
    && w'.inventories == w.inventories && w'.instances == w.instances && w'.connections == w.connections
    && w'.dbs == w.dbs && w'.adopted == w.adopted && w'.secrets == w.secrets && w'.configs == w.configs
    && w'.listing == w.listing && w'.awsPasswords == w.awsPasswords && w'.calls == w.calls
    && ReadyReplicas(w') == ReadyReplicas(w)
  }

  /** The inventory k is as finalized as before, keeps its status, and is not
      brought back once deleted. */
  ghost predicate SameHold(w: World, w': World, k: Key) {
    && (HasFinalizer(w, k) <==> HasFinalizer(w', k))
    && (HasFinalizer(w, k) ==>
          && w'.inventories[k].it.conditions == w.inventories[k].it.conditions
          && w'.inventories[k].it.instances == w.inventories[k].it.instances
          && (w.inventories[k].it.deleting ==> w'.inventories[k].it.deleting))
  }

  /** No adopted resource appears with an owner, changes hands, is revived or has
      its name reused. */
  ghost predicate OwnedShrink(w: World, w': World) {
    forall a <- w'.adopted :: AdoptedBy(w'.adopted[a]).Some? || a in w.everOwned ==>
      && a in w.adopted
      && (w'.adopted[a] == w.adopted[a] || w'.adopted[a] == w.adopted[a].(deleting := true))
  }

  /** Passwords where adopted instances keep them stay as they are, or it is recorded
      that they do not. */
  ghost predicate PasswordsStay(w: World, w': World) {
    forall k <- w.everAdopted :: HasPassword(w, CredentialOf(k)) && k !in w'.replaced ==>
      HasPassword(w', CredentialOf(k)) && PasswordAt(w', CredentialOf(k)) == PasswordAt(w, CredentialOf(k))
  }

  /** Nobody else makes an adopted instance refer to a password. */
  ghost predicate NoNewReferences(w: World, w': World) {
    forall k <- w'.dbs :: HandedOff(w', k) && k !in w'.contested ==> HandedOff(w, k) && IdOf(w', k) == IdOf(w, k)
  }

  /** The RDSInstance x is as finalized as before, keeps its inventory and its
      status, and is not brought back once deleted. */
  ghost predicate SameInstance(w: World, w': World, x: Key) {
    && (HoldsInstance(w, x) <==> HoldsInstance(w', x))
    && (HoldsInstance(w, x) ==>
          && w'.instances[x].it.inventoryRef == w.instances[x].it.inventoryRef
          && w'.instances[x].it.status == w.instances[x].it.status
          && (w.instances[x].it.deleting ==> w'.instances[x].it.deleting))
  }

  /** No DBInstance becomes annotated with x. */
  ghost predicate NoNewProvision(w: World, w': World, x: Key) {
    forall k <- w'.dbs :: ProvisionedBy(w'.dbs[k].it) == Some(x) ==>
      k in w.dbs && ProvisionedBy(w.dbs[k].it) == Some(x)
  }

  predicate InventoryClaims(w: World, k: Key) {
    k in w.inventories && SaysTrue(w.inventories[k].it.conditions, InventoryReady())
  }

  predicate InstanceClaims(w: World, x: Key) {
    x in w.instances && SaysTrue(w.instances[x].it.status.conditions, InstanceReady())
  }

  predicate ConnectionClaims(w: World, x: Key) {
    x in w.connections && SaysTrue(w.connections[x].it.status.conditions, ConnectionReady())
  }

  /** Nothing `me` reports on becomes ready. */
  ghost predicate NoNewClaims(me: Actor, w: World, w': World) {
    match me
    case InventoryWorker => forall k :: InventoryClaims(w', k) ==> InventoryClaims(w, k)
    case InstanceWorker(x) => InstanceClaims(w', x) ==> InstanceClaims(w, x)
    case ConnectionWorker(x) => ConnectionClaims(w', x) ==> ConnectionClaims(w, x)
    case _ => true
  }

  datatype Concern =
    | Clock | InventoryOrder | InstanceOrder | ConnectionOrder | DatabaseOrder | SecretOrder | ConfigOrder
    | DeploymentOrder | CallOrder | Footprint | Finalizers | Owned | Calls | KeptPasswords | AddedReferences
    | Instances | Provisions | Claims

  /** One concern is as `me` left it. Versions only go up, whoever acts. */
  ghost predicate Kept(a: Concern, me: Actor, w: World, w': World) {
    match a
    case Clock => ClockRuns(w, w')
    case InventoryOrder => Newer(w.inventories, w'.inventories, w.clock)
    case InstanceOrder => Newer(w.instances, w'.instances, w.clock)
    case ConnectionOrder => Newer(w.connections, w'.connections, w.clock)
    case DatabaseOrder => Newer(w.dbs, w'.dbs, w.clock)
    case SecretOrder => Newer(w.secrets, w'.secrets, w.clock)
    case ConfigOrder => Newer(w.configs, w'.configs, w.clock)
    case DeploymentOrder => NewerDeployment(w, w')
    case CallOrder => CallsStay(w, w')
    case Footprint => me == InventoryWorker ==> SameFootprint(w, w')
    case Finalizers => me == InventoryWorker ==> forall k :: SameHold(w, w', k)
    case Owned => me == InventoryWorker ==> OwnedShrink(w, w')
    case Calls => me == InventoryWorker ==> w'.awsPasswords == w.awsPasswords && w'.calls == w.calls
    case KeptPasswords => me == InventoryWorker ==> PasswordsStay(w, w')
    case AddedReferences => me == InventoryWorker ==> NoNewReferences(w, w')
    case Instances => me.InstanceWorker? ==> SameInstance(w, w', me.x)
    case Provisions => me.InstanceWorker? ==> NoNewProvision(w, w', me.x)
    case Claims => NoNewClaims(me, w, w')
  }

  /** Every concern outside `except` is as `me` left it. */
  ghost predicate Keeps(me: Actor, except: set<Concern>, w: World, w': World) {
    forall a: Concern :: a !in except ==> Kept(a, me, w, w')
  }

  /** What others leave alone while `me` waits. */
  ghost predicate Rely(me: Actor, w: World, w': World) {
    Keeps(me, {}, w, w')
  }

  /** What a change of one's own disturbs. */
  function Disturbs(c: Change): set<Concern> {
    match c
    case InventoryTo(_, _) => {Finalizers, Claims}
    case InstanceTo(_, _) => {Instances, Claims}
    case ConnectionTo(_, _) => {Claims}
    case DatabaseTo(_, _) => {AddedReferences, Provisions}
    case AdoptedTo(_, v) => if v.Some? && v.value.deleting then {} else {Owned}
    case AckSecretTo(_) => {Footprint}
    case AckConfigTo(_) => {Footprint}
    case ReplicasTo(_) => {Footprint}
    case PasswordTo(_) => {Calls}
    case _ => {}
  }

  lemma KeptReflexive(a: Concern, me: Actor, w: World)
    ensures Kept(a, me, w, w)
  {
  }

  lemma KeepsReflexive(me: Actor, w: World, except: set<Concern> := {})
    ensures Keeps(me, except, w, w)
  {
    forall a: Concern ensures Kept(a, me, w, w) { KeptReflexive(a, me, w); }
  }

  lemma OwnedTransitive(u: World, v: World, w: World)
    requires ClockRuns(u, v) && OwnedShrink(u, v) && OwnedShrink(v, w)
    ensures OwnedShrink(u, w)
  {
  }

  lemma PasswordsTransitive(u: World, v: World, w: World)
    requires ClockRuns(u, v) && ClockRuns(v, w) && PasswordsStay(u, v) && PasswordsStay(v, w)
    ensures PasswordsStay(u, w)
  {
  }

  lemma ReferencesTransitive(u: World, v: World, w: World)
    requires ClockRuns(v, w) && NoNewReferences(u, v) && NoNewReferences(v, w)
    ensures NoNewReferences(u, w)
  {
  }

  lemma NewerTransitive<T>(l: map<Key, Obj<T>>, m: map<Key, Obj<T>>, n: map<Key, Obj<T>>, t: nat, t': nat)
    requires Newer(l, m, t) && Newer(m, n, t') && t <= t'
    ensures Newer(l, n, t)
  {
  }

  lemma KeptTransitive(a: Concern, me: Actor, u: World, v: World, w: World)
    requires Kept(a, me, u, v) && Kept(a, me, v, w)
    requires Kept(Clock, me, u, v) && Kept(Clock, me, v, w)
    ensures Kept(a, me, u, w)
  {
    hide Newer, OwnedShrink, PasswordsStay, NoNewReferences, InventoryClaims, InstanceClaims, ConnectionClaims;
    match a
    case InventoryOrder => NewerTransitive(u.inventories, v.inventories, w.inventories, u.clock, v.clock);
    case InstanceOrder => NewerTransitive(u.instances, v.instances, w.instances, u.clock, v.clock);
    case ConnectionOrder => NewerTransitive(u.connections, v.connections, w.connections, u.clock, v.clock);
    case DatabaseOrder => NewerTransitive(u.dbs, v.dbs, w.dbs, u.clock, v.clock);
    case SecretOrder => NewerTransitive(u.secrets, v.secrets, w.secrets, u.clock, v.clock);
    case ConfigOrder => NewerTransitive(u.configs, v.configs, w.configs, u.clock, v.clock);
    case Finalizers =>
      if me == InventoryWorker {
        forall k ensures SameHold(u, w, k) {
          assert SameHold(u, v, k) && SameHold(v, w, k);
        }
      }
    case Owned => if me == InventoryWorker { OwnedTransitive(u, v, w); }
    case KeptPasswords => if me == InventoryWorker { PasswordsTransitive(u, v, w); }
    case AddedReferences => if me == InventoryWorker { ReferencesTransitive(u, v, w); }
    case _ =>
  }

  lemma KeepsTransitive(me: Actor, d: set<Concern>, e: set<Concern>, f: set<Concern>, u: World, v: World, w: World)
    requires Keeps(me, d, u, v) && Keeps(me, e, v, w)
    requires d <= f && e <= f && Clock !in f
    ensures Keeps(me, f, u, w)
  {
    assert Kept(Clock, me, u, v) && Kept(Clock, me, v, w);
    forall a: Concern | a !in f ensures Kept(a, me, u, w) {
      assert Kept(a, me, u, v) && Kept(a, me, v, w);
      KeptTransitive(a, me, u, v, w);
    }
  }

  // --------------------------------------------------- one change at a time

  lemma SetIsNewer<T>(m: map<Key, Obj<T>>, k: Key, v: Option<T>, clock: nat)
    ensures Newer(m, Set(m, k, v, clock), clock)
  {
  }

  predicate OrderOnly(a: Concern) {
    a.Clock? || a.InventoryOrder? || a.InstanceOrder? || a.ConnectionOrder? || a.DatabaseOrder? || a.SecretOrder?
    || a.ConfigOrder? || a.DeploymentOrder? || a.CallOrder?
  }

  lemma StepRunsClock(w: World, c: Change, w': World)
    requires Touches(w, c, w')
    ensures ClockRuns(w, w')
  {
  }

  lemma StepKeepsOrder(a: Concern, me: Actor, w: World, c: Change, w': World)
    requires Touches(w, c, w') && OrderOnly(a)
    ensures Kept(a, me, w, w')
  {
    hide ClockRuns;
    match a
    case Clock => StepRunsClock(w, c, w');
    case InventoryOrder => if c.InventoryTo? { SetIsNewer(w.inventories, c.k, c.inventory, w.clock); }
    case InstanceOrder => if c.InstanceTo? { SetIsNewer(w.instances, c.k, c.instance, w.clock); }
    case ConnectionOrder => if c.ConnectionTo? { SetIsNewer(w.connections, c.k, c.connection, w.clock); }
    case DatabaseOrder => if c.DatabaseTo? { SetIsNewer(w.dbs, c.k, c.db, w.clock); }
    case SecretOrder => if c.SecretTo? { SetIsNewer(w.secrets, c.k, c.data, w.clock); }
    case ConfigOrder => if c.ConfigTo? { SetIsNewer(w.configs, c.k, c.data, w.clock); }
    case DeploymentOrder =>
    case CallOrder =>
  }

  lemma OthersKeepHold(w: World, who: Actor, c: Change, w': World, k: Key)
    requires who != InventoryWorker
    requires c.InventoryTo? ==> InventoryMay(w, who, c.k, c.inventory)
    requires Touches(w, c, w')
    ensures SameHold(w, w', k)
  {
  }

  lemma OthersOnlyShrink(w: World, who: Actor, c: Change, w': World)
    requires who != InventoryWorker && Records(w)
    requires c.AdoptedTo? ==> AdoptedMay(w, who, c.k, c.resource)
    requires Touches(w, c, w')
    ensures OwnedShrink(w, w')
  {
  }

  lemma PasswordsKept(w: World, c: Change, w': World)
    requires Touches(w, c, w')
    ensures PasswordsStay(w, w')
  {
  }

  lemma OthersAddNoReferences(w: World, who: Actor, c: Change, w': World)
    requires who != InventoryWorker && Records(w)
    requires c.DatabaseTo? ==> DatabaseMay(w, who, c.k, c.db)
    requires Touches(w, c, w') && Recorded(w')
    ensures NoNewReferences(w, w')
  {
  }

  lemma OthersKeepInstance(w: World, who: Actor, c: Change, x: Key, w': World)
    requires who != InstanceWorker(x)
    requires c.InstanceTo? ==> InstanceMay(w, who, c.k, c.instance)
    requires Touches(w, c, w')
    ensures SameInstance(w, w', x)
  {
  }

  lemma OthersProvisionNothing(w: World, who: Actor, c: Change, x: Key, w': World)
    requires who != InstanceWorker(x)
    requires c.DatabaseTo? ==> DatabaseMay(w, who, c.k, c.db)
    requires Touches(w, c, w')
    ensures NoNewProvision(w, w', x)
  {
  }

  lemma OthersClaimNothing(me: Actor, w: World, who: Actor, c: Change, w': World)
    requires who != me
    requires c.InventoryTo? ==> InventoryMay(w, who, c.k, c.inventory)
    requires c.InstanceTo? ==> InstanceMay(w, who, c.k, c.instance)
    requires c.ConnectionTo? ==> ConnectionMay(w, who, c.k, c.connection)
    requires Touches(w, c, w')
    ensures NoNewClaims(me, w, w')
  {
    hide Committable, StatusText, InventoryReady, InstanceReady, ConnectionReady;
  }

  lemma OnlyTheWorkerMay(w: World, who: Actor, c: Change)
    requires Allowed(w, who, c) && who != InventoryWorker && who != Startup
    ensures !c.ReplicasTo? && !c.AckSecretTo? && !c.AckConfigTo? && !c.PasswordTo?
  {
  }

  lemma AllowedMeans(w: World, who: Actor, c: Change)
    requires Allowed(w, who, c)
    ensures c.InventoryTo? ==> InventoryMay(w, who, c.k, c.inventory)
    ensures c.InstanceTo? ==> InstanceMay(w, who, c.k, c.instance)
    ensures c.ConnectionTo? ==> ConnectionMay(w, who, c.k, c.connection)
    ensures c.DatabaseTo? ==> DatabaseMay(w, who, c.k, c.db)
    ensures c.AdoptedTo? ==> AdoptedMay(w, who, c.k, c.resource)
    ensures c.SecretTo? ==> SecretMay(w, who, c.k, c.data)
    ensures c.PasswordTo? ==> PasswordMay(w, who, c.call)
  {
    hide InventoryMay, InstanceMay, ConnectionMay, DatabaseMay, AdoptedMay, SecretMay, PasswordMay;
  }

  lemma TouchesTold(w: World, c: Change, w': World)
    requires Touches(w, c, w')
    ensures FootprintAfter(w, c, w') && AwsAfter(w, c, w')
  {
  }

  lemma OthersKeepCustody(a: Concern, w: World, who: Actor, c: Change, w': World)
    requires Allowed(w, who, c) && who != InventoryWorker && who != Startup && Touches(w, c, w')
    requires a.Footprint? || a.Finalizers? || a.Calls?
    ensures Kept(a, InventoryWorker, w, w')
  {
    hide SameHold, Allowed, InventoryMay, Touches, KindsAfter, PastAfter;
    AllowedMeans(w, who, c);
    OnlyTheWorkerMay(w, who, c);
    if a.Finalizers? {
      forall k ensures SameHold(w, w', k) { OthersKeepHold(w, who, c, w', k); }
    } else {
      TouchesTold(w, c, w');
    }
  }

  lemma OthersKeepAdoption(a: Concern, w: World, who: Actor, c: Change, w': World)
    requires Records(w) && Allowed(w, who, c) && who != InventoryWorker && who != Startup
    requires Touches(w, c, w') && Recorded(w')
    requires a.Owned? || a.KeptPasswords? || a.AddedReferences?
    ensures Kept(a, InventoryWorker, w, w')
  {
    hide OwnedShrink, PasswordsStay, NoNewReferences, Records, Allowed, Touches;
    hide AdoptedMay, SecretMay, DatabaseMay, ContestedIn;
    AllowedMeans(w, who, c);
    match a
    case Owned => OthersOnlyShrink(w, who, c, w');
    case KeptPasswords => PasswordsKept(w, c, w');
    case AddedReferences => OthersAddNoReferences(w, who, c, w');
  }

  lemma OthersKeep(a: Concern, me: Actor, w: World, who: Actor, c: Change, w': World)
    requires Records(w) && Allowed(w, who, c) && who != me && who != Startup && !OrderOnly(a)
    requires Touches(w, c, w') && Recorded(w')
    ensures Kept(a, me, w, w')
  {
    if a.Claims? {
      AllowedMeans(w, who, c);
      OthersClaimNothing(me, w, who, c, w');
    } else if a.Instances? {
      if me.InstanceWorker? { OthersKeepInstance(w, who, c, me.x, w'); }
    } else if a.Provisions? {
      if me.InstanceWorker? { OthersProvisionNothing(w, who, c, me.x, w'); }
    } else if me == InventoryWorker {
      if a.Footprint? || a.Finalizers? || a.Calls? {
        OthersKeepCustody(a, w, who, c, w');
      } else {
        OthersKeepAdoption(a, w, who, c, w');
      }
    }
  }

  /** Whatever anyone else does while `me` waits for a call, it may rely on.
      Startup happens between passes only. */
  lemma OthersMayRely(me: Actor, w: World, who: Actor, c: Change)
    requires Versions(w) && Records(w) && Allowed(w, who, c) && who != me && who != Startup
    ensures Rely(me, w, Apply(w, c))
  {
    ApplyTouches(w, c);
    forall a: Concern ensures Kept(a, me, w, Apply(w, c)) {
      if OrderOnly(a) {
        StepKeepsOrder(a, me, w, c, Apply(w, c));
      } else {
        OthersKeep(a, me, w, who, c, Apply(w, c));
      }
    }
  }

  lemma OwnKeeps(a: Concern, me: Actor, w: World, c: Change, w': World)
    requires Records(w) && a !in Disturbs(c) && !OrderOnly(a)
    requires c.SecretTo? ==> SecretMay(w, me, c.k, c.data)
    requires c.AdoptedTo? ==> AdoptedMay(w, me, c.k, c.resource)
    requires Touches(w, c, w') && Recorded(w')
    ensures Kept(a, me, w, w')
  {
    match a
    case Footprint =>
      if me == InventoryWorker { assert !c.ReadyTo? ==> w'.deployment == w.deployment; }
    case KeptPasswords => PasswordsKept(w, c, w');
    case Finalizers => assert w'.inventories == w.inventories;
    case Owned => assert !c.AdoptedTo? ==> w'.adopted == w.adopted;
    case Calls =>
    case AddedReferences => assert w'.dbs == w.dbs;
    case Instances => assert w'.instances == w.instances;
    case Provisions => assert w'.dbs == w.dbs;
    case Claims =>
      assert w'.inventories == w.inventories && w'.instances == w.instances && w'.connections == w.connections;
    case _ =>
  }

  /** A change of one's own disturbs only what it is about. */
  lemma OwnMayRely(me: Actor, w: World, c: Change)
    requires Versions(w) && Records(w) && Allowed(w, me, c)
    ensures Keeps(me, Disturbs(c), w, Apply(w, c))
  {
    ApplyTouches(w, c);
    forall a: Concern | a !in Disturbs(c) ensures Kept(a, me, w, Apply(w, c)) {
      if OrderOnly(a) {
        StepKeepsOrder(a, me, w, c, Apply(w, c));
      } else {
        OwnKeeps(a, me, w, c, Apply(w, c));
      }
    }
  }

  /** A write to the secret or config map of the ACK controller. */
  lemma AckWritten(w: World, c: Change, hit: World)
    requires (c.AckSecretTo? || c.AckConfigTo?) && After(w, c, hit)
    ensures OnlyFootprint(w, hit) && Replicas(hit) == Replicas(w)
    ensures hit.ackSecret == (if c.AckSecretTo? then c.entries else w.ackSecret)
    ensures hit.ackConfig == (if c.AckConfigTo? then c.entries else w.ackConfig)
  {
    assert PartAfter(TheSecrets, w, c, hit) && PartAfter(TheDatabases, w, c, hit) && PartAfter(TheKinds, w, c, hit);
    assert PartAfter(TheAdopted, w, c, hit) && PartAfter(TheAws, w, c, hit);
    assert PartAfter(TheFootprint, w, c, hit);
  }

  /** And what the worker finds of it later. */
  lemma AckAfter(w: World, c: Change, hit: World, w': World)
    requires c.AckSecretTo? || c.AckConfigTo?
    requires (After(w, c, hit) || hit == w) && Rely(InventoryWorker, hit, w')
    ensures Replicas(w') == Replicas(w)
    ensures w'.ackSecret == (if After(w, c, hit) && c.AckSecretTo? then c.entries else w.ackSecret)
    ensures w'.ackConfig == (if After(w, c, hit) && c.AckConfigTo? then c.entries else w.ackConfig)
    ensures OnlyFootprint(w, hit)
  {
    hide After;
    assert Kept(Footprint, InventoryWorker, hit, w');
    if After(w, c, hit) { AckWritten(w, c, hit); }
  }

  /** Scaling the ACK controller. */
  lemma ScaledAfter(w: World, n: nat, hit: World, w': World)
    requires w.deployment.Some?
    requires (After(w, ReplicasTo(n), hit) || hit == w) && Rely(InventoryWorker, hit, w')
    ensures w'.ackSecret == w.ackSecret && w'.ackConfig == w.ackConfig
    ensures Replicas(w') == if After(w, ReplicasTo(n), hit) then Some(Some(n)) else Replicas(w)
    ensures OnlyFootprint(w, hit)
  {
    var c := ReplicasTo(n);
    assert Kept(Footprint, InventoryWorker, hit, w');
    if After(w, c, hit) {
      assert PartAfter(TheSecrets, w, c, hit) && PartAfter(TheDatabases, w, c, hit) && PartAfter(TheKinds, w, c, hit);
      assert PartAfter(TheAdopted, w, c, hit) && PartAfter(TheAws, w, c, hit);
      assert PartAfter(TheFootprint, w, c, hit);
    }
  }
}
