/** That the collision comes about: from an operator that has just started, by a
    pass of the inventory controller and by what users and ACK do. */
module Scene {
  import opened Wrappers
  import opened Store
  import opened Conditions
  import opened Database
  import opened World
  import opened Protocol
  import opened Runs
  import opened Interference
  import opened Api
  import opened Secrets
  import opened Settlement
  import opened Collisions
  import Ack
  import Adoption
  import Binding
  import ConnectionController
  import InventoryController
  import Listing
  import Names
  import Status
  import Teardown

  /** A state in which the inventory is about to be served, with two databases that
      can be bound to k, and before k is the name of anything. */
  ghost predicate IsScene(w: World, key: Key, k: Key, a: Key, b: Key, id: string) {
    && key in w.inventories && InventoryController.Succeeds(w, key, w.inventories[key].it)
    && w.inventories[key].it.credentialsRef != CredentialOf(k)
    && k.ns == key.ns && k !in w.dbs && k !in w.connections
    && CredentialOf(k) in w.secrets && SecretFree(w, k) && Binding.ConfigFree(w, k)
    && Offered(w, key.ns, k, a) && Offered(w, key.ns, k, b)
    && PasswordOf(w, key.ns, k, a) != PasswordOf(w, key.ns, k, b)
    && forall j <- w.dbs :: !w.dbs[j].it.adopted && IdOf(w, j) != id
  }

  /** A DBInstance as ACK adopts it. */
  function Newcomer(id: string): DBInstance {
    DBInstance(true, map[], false, EMPTY.(identifier := id), Status.Leaves(map[], map[]), [])
  }

  /** The same state once a pass has served the inventory. */
  ghost predicate Presented(w: World, key: Key, k: Key, a: Key, b: Key, id: string) {
    && IsScene(w, key, k, a, b, id) && InventoryClaims(w, key) && Presents(w, key, a) && Presents(w, key, b)
  }

  lemma ServedScene(w: World, w': World, key: Key, k: Key, a: Key, b: Key, id: string)
    requires IsScene(w, key, k, a, b, id) && OnlyFills(w, w') && Settled(w', key) && InventoryClaims(w', key)
    ensures Presented(w', key, k, a, b, id)
  {
    hide Gains, DatabasesGain, SameSpecs, Settled, Offered, PasswordOf, SaysTrue, InventoryController.Succeeds;
    hide ConnectionController.NameOf;
    OfferedFilled(w, w', key.ns, k, a);
    OfferedFilled(w, w', key.ns, k, b);
    StillFree(w, w', k);
    ListedBoth(w', key, k, a, b);
    KeptBySecrets(w, w', k);
    NobodyJoined(w, w', id);
    SettledSucceeds(w', key);
    SameReference(w, w', key);
  }

  lemma ListedBoth(w: World, key: Key, k: Key, a: Key, b: Key)
    requires Settled(w, key) && Offered(w, key.ns, k, a) && Offered(w, key.ns, k, b)
    ensures Presents(w, key, a) && Presents(w, key, b)
  {
    hide Ack.Installed, Settlement.Handed, Offered, SaysReady, Listing.Describes;
    ListedName(w, key, k, a);
    ListedName(w, key, k, b);
    OfferedMeans(w, key.ns, k, a);
    OfferedMeans(w, key.ns, k, b);
  }

  lemma NobodyJoined(w: World, w': World, id: string)
    requires DatabasesGain(w, w') && forall j <- w.dbs :: !w.dbs[j].it.adopted && IdOf(w, j) != id
    ensures w'.dbs.Keys == w.dbs.Keys && forall j <- w'.dbs :: !w'.dbs[j].it.adopted && IdOf(w', j) != id
  {
    forall j <- w'.dbs ensures !w'.dbs[j].it.adopted
      && IdOf(w', j) != id { assert SameDatabase(w.dbs[j].it, w'.dbs[j].it); }
  }

  lemma SameReference(w: World, w': World, key: Key)
    requires SameSpecs(w, w') && key in w.inventories
    ensures key in w'.inventories && w'.inventories[key].it.credentialsRef == w.inventories[key].it.credentialsRef
  {
    assert w'.inventories[key].it == InventoryStatusOf(w.inventories[key].it, w'.inventories[key].it);
  }

  lemma SettledSucceeds(w: World, key: Key)
    requires Settled(w, key)
    ensures InventoryController.Succeeds(w, key, w.inventories[key].it)
  {
    hide SaysReady, Listing.Describes, Settlement.Handed;
    HandedIsCovered(w, key.ns);
    HandedIsComplete(w, key.ns);
  }

  lemma KeptBySecrets(w: World, w': World, k: Key)
    requires Gains(w.secrets, w'.secrets) && CredentialOf(k) in w.secrets
    ensures CredentialOf(k) in w'.secrets
  {
  }

  lemma MayCome(w: World, k: Key, id: string)
    requires k !in w.dbs
    ensures Allowed(w, Outside, DatabaseTo(k, Some(Newcomer(id))))
  {
  }

  lemma MayConnect(w: World, k: Key, o: Connection)
    requires k !in w.connections && o.status == ConnectionStatus([], None, None)
    ensures Allowed(w, Outside, ConnectionTo(k, Some(o)))
  {
  }

  /** The two states differ in k being an adopted DBInstance. */
  ghost predicate Joined(w: World, w': World, k: Key, id: string) {
    && w'.dbs.Keys == w.dbs.Keys + {k} && w'.dbs[k].it == Newcomer(id)
    && (forall j <- w.dbs :: j != k ==> w'.dbs[j] == w.dbs[j])
    && w'.inventories == w.inventories && w'.connections == w.connections && w'.secrets == w.secrets
    && w'.configs == w.configs && w'.adopted == w.adopted && w'.listing == w.listing && w'.deployment == w.deployment
  }

  lemma OfferedJoined(w: World, w': World, ns: string, k: Key, n: Key, id: string)
    requires Offered(w, ns, k, n) && Joined(w, w', k, id) && k !in w.dbs && IdOf(w, n) != id
    ensures Offered(w', ns, k, n) && PasswordOf(w', ns, k, n) == PasswordOf(w, ns, k, n) && IdOf(w', n) == IdOf(w, n)
  {
    assert forall j <- w.dbs :: IdOf(w', j) == IdOf(w, j);
  }

  lemma PendingJoined(w: World, w': World, key: Key, k: Key, a: Key, b: Key, id: string)
    requires IsScene(w, key, k, a, b, id) && Joined(w, w', k, id)
    ensures Pending(w', key, k)
  {
    assert w'.dbs[k].it.State().None?;
    assert DatabasesIn(w', key.ns, true) == {k};
    assert Adoption.AdoptedIds(w', key.ns) == Adoption.AdoptedIds(w, key.ns);
    forall j <- w.dbs ensures IdOf(w', j) == IdOf(w, j) { assert w'.dbs[j] == w.dbs[j]; }
    assert Adoption.DatabaseIds(w, key.ns) <= Adoption.DatabaseIds(w', key.ns);
  }

  /** A pass serves the inventory, ACK adopts k, and the user connects to a under
      the name of k. */
  method SetScene(c: Cluster, key: Key, k: Key, a: Key, ghost b: Key, id: string)
    requires c.Valid() && IsScene(c.w, key, k, a, b, id)
    modifies c
    ensures c.Valid() && c.outside >= old(c.outside) && c.faults >= old(c.faults)
    ensures c.faults == old(c.faults) && c.outside == old(c.outside) ==> Collides(c.w, key, k, a, b)
  {
    hide IsScene, Presented, Collides, Settled, OnlyFills, Joined, Tells, Apply, Allowed, OnlyInventory;
    hide SameUpToOrder, Teardown.TeardownPass, Teardown.Dying, InventoryController.Succeeds, Newcomer;
    ghost var begin := c.w;
    SceneMeans(begin, key, k, a, b, id);
    var requeue, err;
    ghost var judged, read;
    requeue, err, judged, read := InventoryController.Reconcile(c, key);
    ghost var served := c.w;
    if c.faults == old(c.faults) && c.outside == old(c.outside) { ServedScene(begin, served, key, k, a, b, id); }
    if k !in c.w.dbs && k !in c.w.connections && a in c.w.dbs {
      var o := Connection(key, c.w.dbs[a].it.spec.identifier, ConnectionStatus([], None, None));
      MayCome(served, k, id);
      c.Commit(Outside, DatabaseTo(k, Some(Newcomer(id))));
      ComesTo(served, k, id);
      ghost var joined := c.w;
      MayConnect(c.w, k, o);
      c.Commit(Outside, ConnectionTo(k, Some(o)));
      if c.faults == old(c.faults)
        && c.outside == old(c.outside) { PresentedCollides(served, joined, key, k, a, b, id, o); }
    } else if c.faults == old(c.faults) && c.outside == old(c.outside) {
      PresentedMeans(served, key, k, a, b, id);
    }
  }

  lemma SceneMeans(w: World, key: Key, k: Key, a: Key, b: Key, id: string)
    requires IsScene(w, key, k, a, b, id)
    ensures key in w.inventories && InventoryController.Succeeds(w, key, w.inventories[key].it)
  {
  }

  lemma PresentedMeans(w: World, key: Key, k: Key, a: Key, b: Key, id: string)
    requires Presented(w, key, k, a, b, id)
    ensures k !in w.dbs && k !in w.connections && a in w.dbs
  {
  }

  lemma ComesTo(w: World, k: Key, id: string)
    ensures Joined(w, Apply(w, DatabaseTo(k, Some(Newcomer(id)))), k, id)
  {
    ApplyTouches(w, DatabaseTo(k, Some(Newcomer(id))));
  }

  lemma PresentedCollides(w: World, w': World, key: Key, k: Key, a: Key, b: Key, id: string, o: Connection)
    requires Presented(w, key, k, a, b, id) && Joined(w, w', k, id)
    requires o == Connection(key, IdOf(w, a), ConnectionStatus([], None, None))
    ensures Collides(Apply(w', ConnectionTo(k, Some(o))), key, k, a, b)
  {
    hide IsScene, Joined, Bindings, Targets, Presents, Pending, PasswordOf, OnlyConnections, Apply;
    var w'' := Apply(w', ConnectionTo(k, Some(o)));
    PendingJoined(w, w', key, k, a, b, id);
    Connects(w', k, o);
    RenamedPending(w', w'', key, k);
    PresentedBinds(w, w', w'', key, k, a, b, id, o);
    PresentedTargets(w, w', w'', key, k, a, b, id, o);
  }

  lemma Connects(w: World, k: Key, o: Connection)
    ensures var w' := Apply(w, ConnectionTo(k, Some(o)));
      OnlyConnections(w, w') && w'.configs == w.configs && k in w'.connections && w'.connections[k].it == o
  {
    ApplyTouches(w, ConnectionTo(k, Some(o)));
  }

  lemma PresentedBinds(w: World, w': World, w'': World, key: Key, k: Key, a: Key, b: Key, id: string, o: Connection)
    requires Presented(w, key, k, a, b, id) && Joined(w, w', k, id)
    requires OnlyConnections(w', w'') && w''.configs == w'.configs && k in w''.connections && w''.connections[k].it == o
    requires o.inventoryRef == key
    ensures Bindings(w'', key, k, a, b) && PasswordOf(w'', key.ns, k, a) != PasswordOf(w'', key.ns, k, b)
  {
    hide Offered, PasswordOf, SaysTrue, InventoryController.Succeeds, ConnectionController.NameOf;
    OfferedMeans(w, key.ns, k, a);
    OfferedMeans(w, key.ns, k, b);
    OfferedJoined(w, w', key.ns, k, a, id);
    OfferedJoined(w, w', key.ns, k, b, id);
    OfferedSame(w', w'', key.ns, k, a);
    OfferedSame(w', w'', key.ns, k, b);
  }

  lemma PresentedTargets(w: World, w': World, w'': World, key: Key, k: Key, a: Key, b: Key, id: string, o: Connection)
    requires Presented(w, key, k, a, b, id) && Joined(w, w', k, id)
    requires OnlyConnections(w', w'') && k in w''.connections && w''.connections[k].it == o
             && o.instanceID == IdOf(w, a)
    ensures Targets(w'', key, k, a) && Presents(w'', key, b)
  {
    hide Offered, PasswordOf, SaysTrue, InventoryController.Succeeds, ConnectionController.NameOf;
  }

  lemma OfferedMeans(w: World, ns: string, k: Key, n: Key)
    requires Offered(w, ns, k, n)
    ensures n in w.dbs
  {
  }

  // --------------------------------------------------------- how it begins

  /** The names, identifiers and passwords of the scene. */
  datatype Cast = Cast(
    key: Key, k: Key, a: Key, b: Key, id: string, idA: string, idB: string,
    credentials: Key, secretA: Key, secretB: Key, passwordA: string, passwordB: string)

  predicate Fits(s: Cast) {
    && '/' !in s.key.ns && s.k.ns == s.a.ns == s.b.ns == s.key.ns
    && s.a != s.b && s.k !in {s.a, s.b} && s.idA != s.idB && s.id !in {s.idA, s.idB}
    && s.secretA != s.secretB && s.credentials !in {s.secretA, s.secretB}
    && CredentialOf(s.k) !in {s.secretA, s.secretB, s.credentials}
    && s.passwordA != "" && s.passwordB != "" && s.passwordA != s.passwordB
  }

  /** A database that can be bound, with its password in a secret of its own. */
  function Offer(id: string, secret: Key): DBInstance {
    DBInstance(false, map[], false,
      EMPTY.(identifier := id, masterUsername := Some("admin"),
             masterUserPassword := Some(SecretRef(secret, PasswordEntry()))),
      Status.Leaves(map[Names.DbInstanceStatus := Status.Str("available"),
                        Names.EndpointAddress := Status.Str("host"),
                        Names.EndpointPort := Status.Int(5432)], map[]), [])
  }

  function Keys(): map<string, string> {
    map[AccessKey() := "access", SecretKey() := "secret", Region() := "us-east-1"]
  }

  function Holding(entries: map<string, string>): Obj<Data> {
    Obj(0, Data(None, entries))
  }

  /** An inventory with complete credentials, two databases with passwords of their
      own, an empty secret, and the operator just started. */
  function Beginning(s: Cast): World {
    World(0,
      map[s.key := Obj(0, Inventory(false, false, s.credentials, [], []))], map[], map[],
      map[s.a := Obj(0, Offer(s.idA, s.secretA)), s.b := Obj(0, Offer(s.idB, s.secretB))], map[],
      map[s.credentials := Holding(Keys()), CredentialOf(s.k) := Holding(map[]),
          s.secretA := Holding(map[PasswordEntry() := s.passwordA]),
            s.secretB := Holding(map[PasswordEntry() := s.passwordB])],
      map[], None, None, Some(Obj(0, Deployment(Some(0), 0))), [], map[], [], {}, {}, {}, {}, {}, true)
  }

  lemma BeginningIsInit(s: Cast)
    requires Fits(s)
    ensures Init(Beginning(s))
  {
    hide Offer, Holding, BoundAt, Versions, ContestedIn, Keys;
    var w := Beginning(s);
    NobodyOwns(s);
    NobodyIsBound(s);
    AllIsNew(s);
    assert AdoptedNow(w.dbs) == {};
  }

  lemma NobodyOwns(s: Cast)
    requires Fits(s)
    ensures forall k <- Beginning(s).dbs ::
              ProvisionedBy(Beginning(s).dbs[k].it).None? && !Beginning(s).dbs[k].it.adopted
    ensures ContestedNow(Beginning(s).dbs, Beginning(s).instances) == {}
  {
    assert forall k <- Beginning(s).dbs ::
        Beginning(s).dbs[k].it.annotations == map[] && !Beginning(s).dbs[k].it.adopted;
  }

  lemma NobodyIsBound(s: Cast)
    ensures forall k <- Beginning(s).secrets :: !BoundAt(Beginning(s).secrets, k)
  {
    assert forall k <- Beginning(s).secrets :: Beginning(s).secrets[k].it.controller.None?;
  }

  lemma AllIsNew(s: Cast)
    ensures Versions(Beginning(s))
  {
    hide Offer, Keys;
  }

  lemma KeysComplete()
    ensures Ack.Complete(Keys())
  {
    assert |AccessKey()| == 17 && |SecretKey()| == 21 && |Region()| == 10;
  }

  lemma OfferIsBindable(id: string, secret: Key)
    ensures Binding.Bindable(Offer(id, secret))
    ensures Offer(id, secret).spec.masterUserPassword.value == SecretRef(secret, PasswordEntry())
    ensures Offer(id, secret).spec.identifier == id && !Offer(id, secret).adopted
  {
  }

  lemma BothOffered(s: Cast, w: World)
    requires Fits(s) && w.dbs == Beginning(s).dbs && w.secrets == Beginning(s).secrets
    ensures Offered(w, s.key.ns, s.k, s.a) && Offered(w, s.key.ns, s.k, s.b)
    ensures PasswordOf(w, s.key.ns, s.k, s.a) == s.passwordA && PasswordOf(w, s.key.ns, s.k, s.b) == s.passwordB
  {
    hide Binding.Bindable, Offer;
    OfferIsBindable(s.idA, s.secretA);
    OfferIsBindable(s.idB, s.secretB);
    assert w.dbs[s.a].it == Offer(s.idA, s.secretA) && w.dbs[s.b].it == Offer(s.idB, s.secretB);
  }

  // ------------------------------------------------- how the operator starts up

  /** The two states differ in the inventory key having its finalizer, and in the
      ACK controller. */
  ghost predicate Held(w: World, w': World, key: Key) {
    && key in w.inventories && w'.inventories.Keys == w.inventories.Keys
    && w'.inventories[key].it == w.inventories[key].it.(finalizer := true)
    && w'.dbs == w.dbs && w'.secrets == w.secrets && w'.configs == w.configs && w'.connections == w.connections
    && w'.adopted == w.adopted && w'.listing == w.listing && w'.deployment.Some?
  }

  lemma TakesFinalizer(w: World, key: Key) returns (c: Change)
    requires Init(w) && key in w.inventories && !w.inventories[key].it.deleting && w.deployment.Some?
    ensures Allowed(w, InventoryWorker, c) && Held(w, Apply(w, c), key)
  {
    hide Init, Allowed, Held;
    c := InventoryTo(key, Some(w.inventories[key].it.(finalizer := true)));
    MayTakeFinalizer(w, key);
    HeldAfter(w, key, Apply(w, c));
  }

  lemma MayTakeFinalizer(w: World, key: Key)
    requires Init(w) && key in w.inventories && !w.inventories[key].it.deleting
    ensures Allowed(w, InventoryWorker, InventoryTo(key, Some(w.inventories[key].it.(finalizer := true))))
  {
    hide Committable, Versions, Admitted, BindingsOwned, ContestedNow, DistinctIds;
    NoConditionsAreCommittable(InventoryReady());
  }

  lemma HeldAfter(w: World, key: Key, w': World)
    requires key in w.inventories && w.deployment.Some?
    requires w' == Apply(w, InventoryTo(key, Some(w.inventories[key].it.(finalizer := true))))
    ensures Held(w, w', key)
  {
    ApplyTouches(w, InventoryTo(key, Some(w.inventories[key].it.(finalizer := true))));
  }

  lemma HeldHolds(w: World, w': World, key: Key)
    requires Held(w, w', key)
    ensures SomeFinalizer(w')
  {
    assert HasFinalizer(w', key);
  }

  lemma GetsSecret(w: World, w': World, key: Key, data: map<string, string>)
    requires Held(w, w', key) && GoodSecret(data)
    ensures Allowed(w', InventoryWorker, AckSecretTo(Some(data)))
    ensures Held(w, Apply(w', AckSecretTo(Some(data))), key)
            && Apply(w', AckSecretTo(Some(data))).ackSecret == Some(data)
  {
    HeldHolds(w, w', key);
    ApplyTouches(w', AckSecretTo(Some(data)));
  }

  lemma GetsConfig(w: World, w': World, key: Key, data: map<string, string>)
    requires Held(w, w', key) && GoodConfig(data) && w'.ackSecret.Some? && GoodSecret(w'.ackSecret.value)
    ensures Allowed(w', InventoryWorker, AckConfigTo(Some(data)))
    ensures Held(w, Apply(w', AckConfigTo(Some(data))), key) && Supplied(Apply(w', AckConfigTo(Some(data))))
  {
    HeldHolds(w, w', key);
    ApplyTouches(w', AckConfigTo(Some(data)));
  }

  lemma GetsScaled(w: World, w': World, key: Key)
    requires Held(w, w', key) && Supplied(w')
    ensures Allowed(w', InventoryWorker, ReplicasTo(1)) && Held(w, Apply(w', ReplicasTo(1)), key)
  {
    HeldHolds(w, w', key);
    ApplyTouches(w', ReplicasTo(1));
  }

  lemma GetsReady(w: World, w': World, key: Key)
    requires Held(w, w', key)
    ensures Allowed(w', Outside, ReadyTo(1))
    ensures Held(w, Apply(w', ReadyTo(1)), key) && Ack.Ready(Apply(w', ReadyTo(1)))
  {
    ApplyTouches(w', ReadyTo(1));
  }

  lemma GoesOn(r: Run, who: Actor, c: Change)
    requires Legal(r) && Allowed(Now(r), who, c)
    ensures Legal(Then(r, who, c)) && Now(Then(r, who, c)) == Apply(Now(r), c)
  {
  }

  /** The finalizer, the secret, the config map, the replicas; and one gets ready. */
  lemma StartsUp(w: World, key: Key) returns (r: Run)
    requires Init(w) && key in w.inventories && !w.inventories[key].it.deleting && w.deployment.Some?
    requires w.inventories[key].it.credentialsRef in w.secrets
    requires Ack.Complete(w.secrets[w.inventories[key].it.credentialsRef].it.entries)
    ensures Legal(r) && Held(w, Now(r), key) && Ack.Ready(Now(r))
  {
    hide Allowed, Apply, Held, Supplied, Ack.Ready, Ack.AckSecretFor, Ack.AckConfigFor;
    var creds := w.secrets[w.inventories[key].it.credentialsRef].it.entries;
    var secret, config := Ack.AckSecretFor(creds), Ack.AckConfigFor(creds);
    var held := TakesFinalizer(w, key);
    r := Start(w);
    assert Legal(r) && Now(r) == w;
    hide *;
    GoesOn(r, InventoryWorker, held);
    r := Then(r, InventoryWorker, held);
    GetsSecret(w, Now(r), key, secret);
    GoesOn(r, InventoryWorker, AckSecretTo(Some(secret)));
    r := Then(r, InventoryWorker, AckSecretTo(Some(secret)));
    GetsConfig(w, Now(r), key, config);
    GoesOn(r, InventoryWorker, AckConfigTo(Some(config)));
    r := Then(r, InventoryWorker, AckConfigTo(Some(config)));
    GetsScaled(w, Now(r), key);
    GoesOn(r, InventoryWorker, ReplicasTo(1));
    r := Then(r, InventoryWorker, ReplicasTo(1));
    GetsReady(w, Now(r), key);
    GoesOn(r, Outside, ReadyTo(1));
    r := Then(r, Outside, ReadyTo(1));
  }

  /** A run reaches the scene, whatever the names: the collision does come about. */
  lemma SceneIsReached(s: Cast) returns (r: Run)
    requires Fits(s)
    ensures Legal(r) && IsScene(Now(r), s.key, s.k, s.a, s.b, s.id)
  {
    hide Ack.Complete, Init, Offered, PasswordOf, Legal;
    var w := Beginning(s);
    BeginningIsInit(s);
    KeysComplete();
    r := StartsUp(w, s.key);
    BothOffered(s, Now(r));
    BeginningIsScene(s, Now(r));
  }

  lemma BeginningIsScene(s: Cast, w: World)
    requires Fits(s) && Held(Beginning(s), w, s.key) && Ack.Ready(w)
    requires Offered(w, s.key.ns, s.k, s.a) && Offered(w, s.key.ns, s.k, s.b)
    requires PasswordOf(w, s.key.ns, s.k, s.a) != PasswordOf(w, s.key.ns, s.k, s.b)
    ensures IsScene(w, s.key, s.k, s.a, s.b, s.id)
  {
    hide Ack.Complete, Offered, PasswordOf, Offer;
    OfferIsBindable(s.idA, s.secretA);
    OfferIsBindable(s.idB, s.secretB);
    KeysComplete();
    NobodyAdopted(w, s.key.ns);
  }

  lemma NobodyAdopted(w: World, ns: string)
    requires forall j <- w.dbs :: !w.dbs[j].it.adopted
    ensures !SomeWaits(w, ns)
  {
    assert DatabasesIn(w, ns, true) == {};
  }
}
