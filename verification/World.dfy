/** The state the operator shares with everyone else: the objects in the
    cluster and what AWS knows, and the atomic changes each party makes to it. */
module World {
  import opened Wrappers
  import opened Store
  import opened Conditions
  import opened Owner
  import opened Database
  import Names
  import Status

  // ------------------------------------------------------------- the objects

  /** One entry of an inventory's status. */
  datatype Listed = Listed(instanceID: string, name: string, info: map<string, string>)

  datatype Inventory = Inventory(
    finalizer: bool,
    deleting: bool,
    credentialsRef: Key,
    conditions: seq<Condition>,
    instances: seq<Listed>)

  datatype InstanceStatus = InstanceStatus(
    conditions: seq<Condition>,
    phase: Phase,
    instanceID: string,
    info: map<string, string>)

  datatype Instance = Instance(
    finalizer: bool,
    deleting: bool,
    inventoryRef: Key,
    params: Params,
    region: string,
    status: InstanceStatus)

  datatype ConnectionStatus = ConnectionStatus(
    conditions: seq<Condition>,
    credentialsRef: Option<string>,
    infoRef: Option<string>)

  datatype Connection = Connection(inventoryRef: Key, instanceID: string, status: ConnectionStatus)

  /** ACK's condition types are its own; none is ProvisionReady. */
  type AckType = s: string | s != InstanceReady() witness ""

  /** A condition as ACK reports it. */
  datatype AckCondition = AckCondition(
    ctype: AckType, status: string, reason: Option<string>, message: Option<string>, since: Option<int>)

  /** `adopted` is the label rds.dbaas.redhat.com/adopted=true. */
  datatype DBInstance = DBInstance(
    adopted: bool,
    annotations: Annotations,
    deleting: bool,
    spec: Spec,
    observed: Status.Observed,
    ackConditions: seq<AckCondition>)
  {
    /** Status.DBInstanceStatus */
    function State(): Option<string> {
      Reported(Names.DbInstanceStatus)
    }

    /** A scalar of the observed status, printed. */
    function Reported(s: Names.Scalar): Option<string> {
      if s in observed.scalars then Some(Status.Print(observed.scalars[s])) else None
    }
  }

  datatype Adopted = Adopted(annotations: Annotations, nameOrID: string, deleting: bool)

  /** The controller reference of a secret or config map. */
  datatype Controller = ByDatabase(k: Key) | ByInstance(k: Key) | ByConnection(k: Key)

  datatype Data = Data(controller: Option<Controller>, entries: map<string, string>)

  /** `replicas` is nil until someone sets it, which the API server reads as one. */
  datatype Deployment = Deployment(replicas: Option<nat>, ready: nat)

  /** A DB instance as AWS lists it. */
  datatype AwsInstance = AwsInstance(
    identifier: string, state: Option<string>, masterUsername: Option<string>, dbName: Option<string>)

  /** One ModifyDBInstance request: on behalf of which DBInstance, for which
      AWS identifier, with which password. */
  datatype Call = Call(db: Key, identifier: string, password: string)

  /** `ackSecret`, `ackConfig` and `deployment` are the objects ack-user-secrets,
      ack-user-config and ack-rds-controller of the install namespace.
      The last fields are records of the past that only proofs read: which
      DBInstances ever carried the adopted label, which AdoptedResources ever had
      an owner, which connections there ever were, which adopted DBInstances were
      ever contested, which ever lost the password in their secret, and whether
      AWS listed distinct identifiers in every state so far. */
  datatype World = World(
    clock: nat,
    inventories: map<Key, Obj<Inventory>>,
    instances: map<Key, Obj<Instance>>,
    connections: map<Key, Obj<Connection>>,
    dbs: map<Key, Obj<DBInstance>>,
    adopted: map<Key, Adopted>,
    secrets: map<Key, Obj<Data>>,
    configs: map<Key, Obj<Data>>,
    ackSecret: Option<map<string, string>>,
    ackConfig: Option<map<string, string>>,
    deployment: Option<Obj<Deployment>>,
    listing: seq<AwsInstance>,
    awsPasswords: map<string, string>,
    calls: seq<Call>,
    everAdopted: set<Key>,
    everOwned: set<Key>,
    everConnected: set<Key>,
    contested: set<Key>,
    replaced: set<Key>,
    distinctListing: bool)

  // ---------------------------------------------------------- what they mean

  function InventoryReady(): string { "SpecSynced" }
  function InstanceReady(): string { "ProvisionReady" }
  function ConnectionReady(): string { "ReadyForBinding" }

  function AccessKey(): string { "AWS_ACCESS_KEY_ID" }
  function SecretKey(): string { "AWS_SECRET_ACCESS_KEY" }
  function Region(): string { "AWS_REGION" }

  predicate Given(data: map<string, string>, name: string) {
    name in data && data[name] != ""
  }

  /** The ACK controller runs, or will as soon as it is scheduled. */
  predicate Running(w: World) {
    w.deployment.Some? && (w.deployment.value.it.replicas.None? || w.deployment.value.it.replicas.value > 0)
  }

  predicate GoodSecret(data: map<string, string>) {
    Given(data, AccessKey()) && Given(data, SecretKey())
  }

  predicate GoodConfig(data: map<string, string>) {
    Given(data, Region())
  }

  /** Everything the ACK controller reads at startup is in place. */
  predicate Supplied(w: World) {
    w.ackSecret.Some? && GoodSecret(w.ackSecret.value) && w.ackConfig.Some? && GoodConfig(w.ackConfig.value)
  }

  predicate HasFinalizer(w: World, k: Key) {
    k in w.inventories && w.inventories[k].it.finalizer
  }

  predicate SomeFinalizer(w: World) {
    exists k <- w.inventories :: HasFinalizer(w, k)
  }

  /** The inventory an AdoptedResource is annotated with. */
  function AdoptedBy(a: Adopted): Option<Key> {
    OwnerOf(a.annotations, InventoryType())
  }

  /** The RDSInstance a DBInstance is annotated with. */
  function ProvisionedBy(d: DBInstance): Option<Key> {
    OwnerOf(d.annotations, InstanceType())
  }

  predicate OwnsAdopted(w: World, k: Key) {
    exists a <- w.adopted :: AdoptedBy(w.adopted[a]) == Some(k)
  }

  /** The DBInstance an RDSInstance provisions. */
  function DatabaseKey(x: Key, i: Instance): Key {
    Key(i.inventoryRef.ns, x.name)
  }

  predicate HoldsInstance(w: World, x: Key) {
    x in w.instances && w.instances[x].it.finalizer
  }

  function CredentialOf(k: Key): Key {
    CredentialKey(k.ns, k.name)
  }

  predicate HasPassword(w: World, k: Key) {
    k in w.secrets && PasswordEntry() in w.secrets[k].it.entries
  }

  function PasswordAt(w: World, k: Key): string
    requires HasPassword(w, k)
  {
    w.secrets[k].it.entries[PasswordEntry()]
  }

  predicate IsAdopted(w: World, k: Key) {
    k in w.dbs && w.dbs[k].it.adopted
  }

  /** The adopted DBInstance k already has a password reference. */
  predicate HandedOff(w: World, k: Key) {
    IsAdopted(w, k) && w.dbs[k].it.spec.masterUserPassword.Some?
  }

  function IdOf(w: World, k: Key): string
    requires k in w.dbs
  {
    w.dbs[k].it.spec.identifier
  }

  /** Somebody contests the adopted DBInstance k: another one has its identifier,
      or an RDSInstance provisions under its name. */
  predicate ContestedIn(dbs: map<Key, Obj<DBInstance>>, instances: map<Key, Obj<Instance>>, k: Key) {
    && k in dbs && dbs[k].it.adopted
    && ((exists j <- dbs :: j != k && dbs[j].it.adopted && dbs[j].it.spec.identifier == dbs[k].it.spec.identifier)
        || exists x <- instances :: DatabaseKey(x, instances[x].it) == k)
  }

  predicate Contested(w: World, k: Key) {
    ContestedIn(w.dbs, w.instances, k)
  }

  function ContestedNow(dbs: map<Key, Obj<DBInstance>>, instances: map<Key, Obj<Instance>>): set<Key> {
    set k | k in dbs && ContestedIn(dbs, instances, k)
  }

  /** The secret k loses the password it had: it holds another one, or none. */
  predicate Loses(secrets: map<Key, Obj<Data>>, secrets': map<Key, Obj<Data>>, k: Key) {
    && k in secrets && PasswordEntry() in secrets[k].it.entries
    && !(k in secrets' && PasswordEntry() in secrets'[k].it.entries
         && secrets'[k].it.entries[PasswordEntry()] == secrets[k].it.entries[PasswordEntry()])
  }

  /** Those whose secret loses its password. */
  function Losing(keys: set<Key>, secrets: map<Key, Obj<Data>>, secrets': map<Key, Obj<Data>>): set<Key> {
    set k | k in keys && Loses(secrets, secrets', CredentialOf(k))
  }

  predicate BoundAt(secrets: map<Key, Obj<Data>>, k: Key) {
    k in secrets && secrets[k].it.controller.Some? && secrets[k].it.controller.value.ByConnection?
  }

  predicate DistinctIds(listing: seq<AwsInstance>) {
    forall i | 0 <= i < |listing| :: forall j | i < j < |listing| :: listing[i].identifier != listing[j].identifier
  }

  // --------------------------------------------------------------- who acts

  /** Outside is everyone but the operator: users, Kubernetes, ACK and AWS. */
  datatype Actor = Outside | Startup | InventoryWorker | InstanceWorker(x: Key) | ConnectionWorker(x: Key)

  /** The atomic changes: one object takes a new value, or goes. */
  datatype Change =
    | InventoryTo(k: Key, inventory: Option<Inventory>)
    | InstanceTo(k: Key, instance: Option<Instance>)
    | ConnectionTo(k: Key, connection: Option<Connection>)
    | DatabaseTo(k: Key, db: Option<DBInstance>)
    | AdoptedTo(k: Key, resource: Option<Adopted>)
    | SecretTo(k: Key, data: Option<Data>)
    | ConfigTo(k: Key, data: Option<Data>)
    | AckSecretTo(entries: Option<map<string, string>>)
    | AckConfigTo(entries: Option<map<string, string>>)
    | ReplicasTo(replicas: nat)
    | ReadyTo(ready: nat)
    | ListingTo(listing: seq<AwsInstance>)
    | PasswordTo(call: Call)

  // -------------------------------------------------- when they may happen

  /** Users create inventories past the admission check, edit and delete them;
      Kubernetes removes a deleted one without finalizer. The worker adds its
      finalizer to a live inventory, removes it from a deleted one when nothing
      the inventory caused is left, and writes the status. */
  predicate InventoryMay(w: World, who: Actor, k: Key, v: Option<Inventory>) {
    match who
    case Outside =>
      (match v
       case None => k in w.inventories && w.inventories[k].it.deleting && !w.inventories[k].it.finalizer
       case Some(i) =>
         if k in w.inventories then
           var was := w.inventories[k].it;
           i == was.(credentialsRef := i.credentialsRef, deleting := i.deleting) && (was.deleting ==> i.deleting)
         else
           w.inventories == map[] && '/' !in k.ns && i == Inventory(false, false, i.credentialsRef, [], []))
    case InventoryWorker =>
      && v.Some? && k in w.inventories
      && var was, i := w.inventories[k].it, v.value;
      && i == was.(finalizer := i.finalizer, conditions := i.conditions, instances := i.instances)
      && Committable(i.conditions, InventoryReady())
      && (!was.finalizer && i.finalizer ==> !was.deleting)
      && (was.finalizer && !i.finalizer ==>
            was.deleting && !OwnsAdopted(w, k) && !Running(w) && w.ackSecret.None? && w.ackConfig.None?)
    case _ => false
  }

  /** The same for RDSInstances, whose inventoryRef is fixed once they have the
      finalizer: it goes when no DBInstance is annotated with the instance. */
  predicate InstanceMay(w: World, who: Actor, k: Key, v: Option<Instance>) {
    match who
    case Outside =>
      (match v
       case None => k in w.instances && w.instances[k].it.deleting && !w.instances[k].it.finalizer
       case Some(i) =>
         if k in w.instances then
           var was := w.instances[k].it;
           && i == was.(inventoryRef := i.inventoryRef, params := i.params, region := i.region, deleting := i.deleting)
           && (was.deleting ==> i.deleting) && (was.finalizer ==> i.inventoryRef == was.inventoryRef)
         else
           '/' !in k.ns && !i.finalizer && !i.deleting && i.status.conditions == [])
    case InstanceWorker(x) =>
      && x == k && v.Some? && k in w.instances
      && var was, i := w.instances[k].it, v.value;
      && i == was.(finalizer := i.finalizer, status := i.status)
      && Committable(i.status.conditions, InstanceReady())
      && (!was.finalizer && i.finalizer ==> !was.deleting)
      && (was.finalizer && !i.finalizer ==>
            was.deleting && forall d <- w.dbs :: ProvisionedBy(w.dbs[d].it) != Some(k))
    case _ => false
  }

  predicate ConnectionMay(w: World, who: Actor, k: Key, v: Option<Connection>) {
    match who
    case Outside =>
      v.Some? ==>
        v.value.status == if k in w.connections then w.connections[k].it.status else ConnectionStatus([], None, None)
    case ConnectionWorker(x) =>
      && x == k && v.Some? && k in w.connections
      && v.value == w.connections[k].it.(status := v.value.status)
      && Committable(v.value.status.conditions, ConnectionReady())
    case _ => false
  }

  /** ACK and users create, change and remove DBInstances but leave labels and
      RDSInstance annotations alone, and the identifier and password of adopted ones.
      The inventory worker fills in connection data, and refers to a password
      that AWS already accepts; the instance worker provisions what it owns. */
  predicate DatabaseMay(w: World, who: Actor, k: Key, v: Option<DBInstance>) {
    match who
    case Outside =>
      v.Some? ==>
        var d := v.value;
        if k in w.dbs then
          var was := w.dbs[k].it;
          && d.adopted == was.adopted && ProvisionedBy(d) == ProvisionedBy(was)
          && (d.adopted ==>
                && d.spec.identifier == was.spec.identifier
                && d.spec.masterUserPassword == was.spec.masterUserPassword)
        else
          ProvisionedBy(d).None? && (d.adopted ==> d.spec.masterUserPassword.None?)
    case InventoryWorker =>
      && v.Some? && k in w.dbs
      && var was, d := w.dbs[k].it, v.value;
      && d == was.(spec := was.spec.(masterUsername := d.spec.masterUsername, dbName := d.spec.dbName,
                                     masterUserPassword := d.spec.masterUserPassword))
      && (d.spec.masterUserPassword != was.spec.masterUserPassword ==>
            && was.adopted && d.spec.masterUserPassword == Some(SecretRef(CredentialOf(k), PasswordEntry()))
            && (k !in w.replaced ==>
                  && HasPassword(w, CredentialOf(k)) && IdOf(w, k) in w.awsPasswords
                  && w.awsPasswords[IdOf(w, k)] == PasswordAt(w, CredentialOf(k))))
    case InstanceWorker(x) =>
      && v.Some? && HoldsInstance(w, x) && k == DatabaseKey(x, w.instances[x].it)
      && var d := v.value;
      && if k in w.dbs && d == w.dbs[k].it.(deleting := true) then w.instances[x].it.deleting
         else ProvisionedBy(d) == Some(x) && d.adopted == (k in w.dbs && w.dbs[k].it.adopted)
    case _ => false
  }

  /** Nobody else touches a resource annotated with an inventory, except to mark
      or remove it, nor reuses its generated name. The worker adopts each
      identifier once while AWS lists distinct ones, and releases only what a
      deleted inventory owns. */
  predicate AdoptedMay(w: World, who: Actor, k: Key, v: Option<Adopted>) {
    match who
    case Outside =>
      v.Some? ==>
        if k in w.adopted && AdoptedBy(w.adopted[k]).Some? then v.value == w.adopted[k].(deleting := true)
        else AdoptedBy(v.value).None? && k !in w.everOwned
    case InventoryWorker =>
      && v.Some? && AdoptedBy(v.value).Some? && HasFinalizer(w, AdoptedBy(v.value).value)
      && if k in w.adopted
         then v.value == w.adopted[k].(deleting := true) && w.inventories[AdoptedBy(v.value).value].it.deleting
         else !v.value.deleting && k.ns == AdoptedBy(v.value).value.ns
              && (w.distinctListing ==>
                 forall j <- w.adopted :: j.ns == k.ns && AdoptedBy(w.adopted[j]).Some? ==>
                                            w.adopted[j].nameOrID != v.value.nameOrID)
    case _ => false
  }

  /** Somebody else than the connection x controls this. */
  predicate OwnedByAnother(x: Key, d: Data) {
    d.controller.Some? && d.controller.value != ByConnection(x)
  }

  /** The connection x may keep its secret where it wants to. */
  predicate SecretFree(w: World, x: Key) {
    CredentialOf(x) in w.secrets ==> !OwnedByAnother(x, w.secrets[CredentialOf(x)].it)
  }

  /** An adopted DBInstance keeps its password here, or did. */
  predicate KeptForAdopted(w: World, k: Key) {
    exists d <- w.everAdopted :: CredentialOf(d) == k
  }

  /** Users create, change and remove secrets but leave their controllers alone,
      and the passwords where adopted DBInstances keep theirs; Kubernetes collects
      a deleted connection's, wherever it is. The workers create a credential, or
      complete one that has no password, and never replace a password; a connection
      writes only what is its own or nobody's. */
  predicate SecretMay(w: World, who: Actor, k: Key, v: Option<Data>) {
    match who
    case Outside =>
      (match v
       case None => HasPassword(w, k) && KeptForAdopted(w, k) ==> BoundAt(w.secrets, k)
       case Some(s) =>
         && s.controller == (if k in w.secrets then w.secrets[k].it.controller else None)
         && (HasPassword(w, k) ==> !KeptForAdopted(w, k)))
    case ConnectionWorker(x) =>
      && x in w.everConnected && k == CredentialOf(x) && v.Some? && v.value.controller == Some(ByConnection(x))
      && SecretFree(w, x)
    case Startup => false
    case _ =>
      && v.Some? && PasswordEntry() in v.value.entries
      && if k in w.secrets
         then !HasPassword(w, k) && v.value.controller == w.secrets[k].it.controller
         else v.value.controller.Some? && !v.value.controller.value.ByConnection?
  }

  /** AWS takes a new master password for an identifier. */
  predicate PasswordMay(w: World, who: Actor, c: Call) {
    && who == InventoryWorker && c.db in w.everAdopted
    && (c.db !in w.replaced ==> HasPassword(w, CredentialOf(c.db)) && PasswordAt(w, CredentialOf(c.db)) == c.password)
    // no adopted instance relies on this identifier's password yet, this one included
    && (forall j <- w.dbs :: HandedOff(w, j) && j !in w.contested ==> j != c.db && IdOf(w, j) != c.identifier)
  }

  predicate Allowed(w: World, who: Actor, c: Change) {
    match c
    case InventoryTo(k, v) => InventoryMay(w, who, k, v)
    case InstanceTo(k, v) => InstanceMay(w, who, k, v)
    case ConnectionTo(k, v) => ConnectionMay(w, who, k, v)
    case DatabaseTo(k, v) => DatabaseMay(w, who, k, v)
    case AdoptedTo(k, v) => AdoptedMay(w, who, k, v)
    case SecretTo(k, v) => SecretMay(w, who, k, v)
    case ConfigTo(k, v) => who.Outside? || (who.ConnectionWorker? && k == ConfigKey(who.x) && v.Some?)
    case AckSecretTo(v) =>
      // written complete for an inventory that holds the finalizer, dropped when ACK is down
      who == InventoryWorker && if v.Some? then GoodSecret(v.value) && SomeFinalizer(w) else !Running(w)
    case AckConfigTo(v) =>
      && who == InventoryWorker
      && if v.Some? then GoodConfig(v.value) && SomeFinalizer(w) else !Running(w) && w.ackSecret.None?
    case ReplicasTo(n) =>
      // up once everything is supplied; down at start, or when a deleted inventory owns no adopted resource
      && w.deployment.Some?
      && if n > 0 then who == InventoryWorker && Supplied(w) && SomeFinalizer(w)
         else who == Startup
              || (who == InventoryWorker
                  && exists k <- w.inventories :: HasFinalizer(w, k) && w.inventories[k].it.deleting
                       && !OwnsAdopted(w, k))
    case ReadyTo(_) => who == Outside && w.deployment.Some?
    case ListingTo(_) => who == Outside
    case PasswordTo(call) => PasswordMay(w, who, call)
  }

  // ------------------------------------------------------- what they change

  function ConfigKey(x: Key): Key { Key(x.ns, x.name + "-configs") }

  /** The stored objects after one takes the value v. */
  function Set<T(==)>(m: map<Key, Obj<T>>, k: Key, v: Option<T>, clock: nat): map<Key, Obj<T>> {
    match v
    case None => m - {k}
    case Some(it) => Put(m, k, it, clock)
  }

  function Become(m: map<Key, Adopted>, k: Key, v: Option<Adopted>): map<Key, Adopted> {
    match v
    case None => m - {k}
    case Some(it) => m[k := it]
  }

  function AdoptedNow(dbs: map<Key, Obj<DBInstance>>): set<Key> {
    set k | k in dbs && dbs[k].it.adopted
  }

  function OwnedNow(adopted: map<Key, Adopted>): set<Key> {
    set k | k in adopted && AdoptedBy(adopted[k]).Some?
  }

  function Redeploy(w: World, c: Change): Option<Obj<Deployment>> {
    match w.deployment
    case None => None
    case Some(d) =>
      if c.ReplicasTo? then Some(Obj(w.clock + 1, d.it.(replicas := Some(c.replicas))))
      else if c.ReadyTo? then Some(Obj(w.clock + 1, d.it.(ready := c.ready)))
      else Some(d)
  }

  /** The change itself, field by field; the records of the assumptions come after. */
  function Effect(w: World, c: Change): World {
    var dbs := if c.DatabaseTo? then Set(w.dbs, c.k, c.db, w.clock) else w.dbs;
    var adopted := if c.AdoptedTo? then Become(w.adopted, c.k, c.resource) else w.adopted;
    var secrets := if c.SecretTo? then Set(w.secrets, c.k, c.data, w.clock) else w.secrets;
    w.(clock := w.clock + 1,
       inventories := if c.InventoryTo? then Set(w.inventories, c.k, c.inventory, w.clock) else w.inventories,
       instances := if c.InstanceTo? then Set(w.instances, c.k, c.instance, w.clock) else w.instances,
       connections := if c.ConnectionTo? then Set(w.connections, c.k, c.connection, w.clock) else w.connections,
       dbs := dbs,
       adopted := adopted,
       secrets := secrets,
       configs := if c.ConfigTo? then Set(w.configs, c.k, c.data, w.clock) else w.configs,
       ackSecret := if c.AckSecretTo? then c.entries else w.ackSecret,
       ackConfig := if c.AckConfigTo? then c.entries else w.ackConfig,
       deployment := Redeploy(w, c),
       listing := if c.ListingTo? then c.listing else w.listing,
       awsPasswords := if c.PasswordTo? then w.awsPasswords[c.call.identifier := c.call.password] else w.awsPasswords,
       calls := if c.PasswordTo? then w.calls + [c.call] else w.calls,
       everAdopted := if c.DatabaseTo? then w.everAdopted + AdoptedNow(dbs) else w.everAdopted,
       everOwned := if c.AdoptedTo? then w.everOwned + OwnedNow(adopted) else w.everOwned,
       everConnected := if c.ConnectionTo? && c.connection.Some? then w.everConnected + {c.k} else w.everConnected,
       replaced := w.replaced + Losing(w.everAdopted, w.secrets, secrets))
  }

  /** A step: the change, and what it means for the assumptions. */
  function Apply(w: World, c: Change): World {
    var e := Effect(w, c);
    e.(contested := w.contested + ContestedNow(e.dbs, e.instances),
       distinctListing := w.distinctListing && DistinctIds(e.listing))
  }

  // What a step leaves behind, part by part; of the assumptions only that they
  // are not regained.

  ghost predicate KindsAfter(w: World, c: Change, w': World) {
    && w'.inventories == (if c.InventoryTo? then Set(w.inventories, c.k, c.inventory, w.clock) else w.inventories)
    && w'.instances == (if c.InstanceTo? then Set(w.instances, c.k, c.instance, w.clock) else w.instances)
    && w'.connections == (if c.ConnectionTo? then Set(w.connections, c.k, c.connection, w.clock) else w.connections)
    && w'.configs == (if c.ConfigTo? then Set(w.configs, c.k, c.data, w.clock) else w.configs)
  }

  ghost predicate FootprintAfter(w: World, c: Change, w': World) {
    && w'.ackSecret == (if c.AckSecretTo? then c.entries else w.ackSecret)
    && w'.ackConfig == (if c.AckConfigTo? then c.entries else w.ackConfig)
    && w'.deployment == Redeploy(w, c)
  }

  ghost predicate AwsAfter(w: World, c: Change, w': World) {
    && w'.listing == (if c.ListingTo? then c.listing else w.listing)
    && w'.awsPasswords == (if c.PasswordTo? then w.awsPasswords[c.call.identifier := c.call.password]
         else w.awsPasswords)
    && w'.calls == (if c.PasswordTo? then w.calls + [c.call] else w.calls)
  }

  ghost predicate PastAfter(w: World, c: Change, w': World) {
    && w'.clock == w.clock + 1
    && w'.everAdopted == (if c.DatabaseTo? then w.everAdopted + AdoptedNow(w'.dbs) else w.everAdopted)
    && w'.everOwned == (if c.AdoptedTo? then w.everOwned + OwnedNow(w'.adopted) else w.everOwned)
    && w'.everConnected == (if c.ConnectionTo? && c.connection.Some? then w.everConnected + {c.k} else w.everConnected)
    && w.contested <= w'.contested && w'.replaced == w.replaced + Losing(w.everAdopted, w.secrets, w'.secrets)
    && (w'.distinctListing ==> w.distinctListing)
  }

  ghost predicate Touches(w: World, c: Change, w': World) {
    && KindsAfter(w, c, w')
    && w'.dbs == (if c.DatabaseTo? then Set(w.dbs, c.k, c.db, w.clock) else w.dbs)
    && w'.adopted == (if c.AdoptedTo? then Become(w.adopted, c.k, c.resource) else w.adopted)
    && w'.secrets == (if c.SecretTo? then Set(w.secrets, c.k, c.data, w.clock) else w.secrets)
    && FootprintAfter(w, c, w') && AwsAfter(w, c, w') && PastAfter(w, c, w')
  }

  datatype Part = TheKinds | TheDatabases | TheAdopted | TheSecrets | TheFootprint | TheAws | ThePast

  ghost predicate PartAfter(p: Part, w: World, c: Change, w': World) {
    match p
    case TheKinds => KindsAfter(w, c, w')
    case TheDatabases => w'.dbs == if c.DatabaseTo? then Set(w.dbs, c.k, c.db, w.clock) else w.dbs
    case TheAdopted => w'.adopted == if c.AdoptedTo? then Become(w.adopted, c.k, c.resource) else w.adopted
    case TheSecrets => w'.secrets == if c.SecretTo? then Set(w.secrets, c.k, c.data, w.clock) else w.secrets
    case TheFootprint => FootprintAfter(w, c, w')
    case TheAws => AwsAfter(w, c, w')
    case ThePast => PastAfter(w, c, w')
  }

  /** The same, folded: a proof names the part it is about. */
  ghost predicate After(w: World, c: Change, w': World) {
    forall p: Part :: PartAfter(p, w, c, w')
  }

  lemma TouchesIsAfter(w: World, c: Change, w': World)
    requires Touches(w, c, w')
    ensures After(w, c, w')
  {
  }

  lemma EffectTouches(w: World, c: Change)
    ensures Touches(w, c, Effect(w, c))
  {
  }

  lemma ApplyTouches(w: World, c: Change)
    ensures Touches(w, c, Apply(w, c))
    ensures Apply(w, c).contested == w.contested + ContestedNow(Apply(w, c).dbs, Apply(w, c).instances)
    ensures Apply(w, c).distinctListing <==> w.distinctListing && DistinctIds(Apply(w, c).listing)
  {
    EffectTouches(w, c);
  }
}
