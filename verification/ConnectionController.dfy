/** The RDSConnection controller: one call of Reconcile. */
module ConnectionController {
  import opened Wrappers
  import opened Store
  import opened Conditions
  import opened Database
  import opened World
  import opened Protocol
  import opened Runs
  import opened Interference
  import opened Outcomes
  import opened Api
  import opened Binding

  /** The i-th instance is the first with this identifier. */
  predicate IsFirst(instances: seq<Listed>, id: string, i: nat) {
    i < |instances| && instances[i].instanceID == id && forall j: nat :: j < i ==> instances[j].instanceID != id
  }

  /** The name of the first listed instance with this identifier. */
  function NameOf(instances: seq<Listed>, id: string): (name: Option<string>)
    ensures name.Some? ==> exists i: nat :: IsFirst(instances, id, i) && instances[i].name == name.value
    ensures name.None? ==> forall e <- instances :: e.instanceID != id
  {
    if instances == [] then None
    else if instances[0].instanceID == id then
      assert IsFirst(instances, id, 0);
      Some(instances[0].name)
    else
      var name := NameOf(instances[1..], id);
      assert forall i: nat :: IsFirst(instances[1..], id, i) ==> IsFirst(instances, id, i + 1);
      name
  }

  method FindName(instances: seq<Listed>, id: string) returns (name: Option<string>)
    ensures name == NameOf(instances, id)
  {
    for i := 0 to |instances|
      invariant NameOf(instances, id) == NameOf(instances[i..], id)
    {
      assert instances[i..][1..] == instances[i + 1..];
      if instances[i].instanceID == id {
        return Some(instances[i].name);
      }
    }
    name := None;
  }

  function InstanceError(id: string, what: string): Error {
    Invalid("instance " + id + what)
  }

  function Rejected(id: string, text: string, why: Why, what: What): (o: Outcome)
    ensures Unsuccessful(o) && o.err.Some?
  {
    ReturnError(InstanceError(id, text), why, Says(what))
  }

  lemma MayCommit(w: World, x: Key, o: Connection)
    requires x in w.connections && Committable(o.status.conditions, ConnectionReady())
    ensures Allowed(w, ConnectionWorker(x), ConnectionTo(x, Some(ConnectionStatusOf(w.connections[x].it, o))))
  {
  }

  /** The connection says it is ready only if it said so before or `cs` does. */
  ghost predicate NoClaimBut(w: World, w': World, x: Key, cs: seq<Condition>) {
    ConnectionClaims(w', x) ==> ConnectionClaims(w, x) || SaysTrue(cs, ConnectionReady())
  }

  lemma KeepsNoClaim(w: World, w': World, x: Key, cs: seq<Condition>)
    requires Rely(ConnectionWorker(x), w, w')
    ensures NoClaimBut(w, w', x, cs)
  {
    assert Kept(Claims, ConnectionWorker(x), w, w');
  }

  lemma StatusAfter(w: World, x: Key, o: Connection, hit: World)
    requires x in w.connections && After(w, ConnectionTo(x, Some(o)), hit)
             && o == ConnectionStatusOf(w.connections[x].it, o)
    ensures OnlyBinding(w, hit, x) && hit.secrets == w.secrets && hit.configs == w.configs
    ensures x in hit.connections && hit.connections[x].it == o
  {
    var c := ConnectionTo(x, Some(o));
    assert PartAfter(TheSecrets, w, c, hit) && PartAfter(TheKinds, w, c, hit) && PartAfter(TheDatabases, w, c, hit);
    assert PartAfter(TheAdopted, w, c, hit) && PartAfter(TheFootprint, w, c, hit) && PartAfter(TheAws, w, c, hit);
  }

  /** What a status write leaves, whether it took effect or not. */
  lemma StatusWritten(w: World, x: Key, o: Connection, hit: World, w': World)
    requires hit == w || (x in w.connections
             && After(w, ConnectionTo(x, Some(ConnectionStatusOf(w.connections[x].it, o))), hit))
    requires Rely(ConnectionWorker(x), hit, w')
    ensures OnlyBinding(w, hit, x) && hit.secrets == w.secrets && hit.configs == w.configs
    ensures NoClaimBut(w, w', x, o.status.conditions)
    ensures x in w.connections && After(w, ConnectionTo(x, Some(ConnectionStatusOf(w.connections[x].it, o))), hit) ==>
              x in hit.connections && hit.connections[x].it.status == o.status
  {
    hide After, SaysTrue, OnlyBinding;
    assert Kept(Claims, ConnectionWorker(x), hit, w');
    OnlyBindingSelf(w, x);
    if x in w.connections && After(w, ConnectionTo(x, Some(ConnectionStatusOf(w.connections[x].it, o))), hit) {
      StatusAfter(w, x, ConnectionStatusOf(w.connections[x].it, o), hit);
    }
  }

  // ------------------------------------------------- what a pass goes through

  /** The password the spec refers to, if the secret has it and it is not empty. */
  function MasterPassword(d: DBInstance, master: Data): Option<string>
    requires d.spec.masterUserPassword.Some?
  {
    var key := d.spec.masterUserPassword.value.key;
    if Given(master.entries, key) then Some(master.entries[key]) else None
  }

  predicate RefersToBinding(status: ConnectionStatus, x: Key) {
    status.credentialsRef == Some(x.name + "-credentials") && status.infoRef == Some(x.name + "-configs")
  }

  /** w holds the inventory o refers to, and it is ready. */
  predicate HasInventory(w: World, o: Connection, i: Inventory) {
    o.inventoryRef in w.inventories && w.inventories[o.inventoryRef].it == i && SaysTrue(i.conditions, InventoryReady())
  }

  /** w holds the DBInstance that i lists under the identifier o names, and it is available. */
  predicate HasDatabase(w: World, o: Connection, i: Inventory, d: DBInstance) {
    && NameOf(i.instances, o.instanceID).Some?
    && var k := Key(o.inventoryRef.ns, NameOf(i.instances, o.instanceID).value);
    && k in w.dbs && w.dbs[k].it == d && d.State() == Some("available")
  }

  /** w holds the secret with the password d refers to, and d has all a binding needs. */
  predicate HasMaster(w: World, d: DBInstance, m: Data) {
    && Bindable(d) && d.spec.masterUserPassword.value.secret in w.secrets
    && w.secrets[d.spec.masterUserPassword.value.secret].it == m && MasterPassword(d, m).Some?
  }

  /** What the binding of d with the password in m holds. */
  function SecretFor(d: DBInstance, m: Data): map<string, string>
    requires Bindable(d) && MasterPassword(d, m).Some?
  {
    SecretData(d, MasterPassword(d, m).value)
  }

  /** The secret holds the user name and the password that d refers to. */
  lemma SecretHolds(w: World, d: DBInstance, m: Data)
    requires HasMaster(w, d, m)
    ensures var ref := d.spec.masterUserPassword.value;
      && ref.secret in w.secrets && ref.key in w.secrets[ref.secret].it.entries
      && SecretFor(d, m).Keys == {"username", "password"}
      && SecretFor(d, m)["username"] == d.spec.masterUsername.value
      && SecretFor(d, m)["password"] == w.secrets[ref.secret].it.entries[ref.key] != ""
  {
    DataSays(d, MasterPassword(d, m).value);
  }

  /** What a pass saw, and the moments at which it saw it and left the binding. */
  datatype Trace = Trace(
    inventory: Inventory, inventoryAt: Moment,
    db: DBInstance, dbAt: Moment,
    master: Data, masterAt: Moment,
    secretAt: Moment, configAt: Moment, statusAt: Moment)

  /** What was looked up, one after the other, since the run q. */
  ghost predicate LookedUp(q: Run, r: Run, o: Connection, t: Trace) {
    && Past(q, t.inventoryAt, r) && HasInventory(t.inventoryAt.w, o, t.inventory)
    && Past(t.inventoryAt.run, t.dbAt, r) && HasDatabase(t.dbAt.w, o, t.inventory, t.db)
    && Past(t.dbAt.run, t.masterAt, r) && HasMaster(t.masterAt.w, t.db, t.master)
  }

  /** What was written, one after the other: secret, config map, references. */
  ghost predicate Written(q: Run, r: Run, x: Key, t: Trace) {
    && Bindable(t.db) && MasterPassword(t.db, t.master).Some?
    && Past(q, t.secretAt, r) && SecretIs(t.secretAt.w, x, SecretFor(t.db, t.master))
    && Past(t.secretAt.run, t.configAt, r) && ConfigIs(t.configAt.w, x, ConfigData(t.db))
    && Past(t.configAt.run, t.statusAt, r)
    && x in t.statusAt.w.connections && RefersToBinding(t.statusAt.w.connections[x].it.status, x)
  }

  /** The pass over connection x, read as o, bound it: all of this in one run. */
  ghost predicate Bound(q: Run, r: Run, x: Key, o: Connection, t: Trace) {
    LookedUp(q, r, o, t) && Written(t.masterAt.run, r, x, t)
  }

  /** All that was looked up was there at once. */
  ghost predicate SeenIn(w: World, t: Trace) {
    t.inventoryAt.w == t.dbAt.w == t.masterAt.w == w
  }

  lemma LookedUpOn(q: Run, r: Run, s: Run, o: Connection, t: Trace)
    requires LookedUp(q, r, o, t) && Follows(r, s)
    ensures LookedUp(q, s, o, t)
  {
    PastUntil(q, t.inventoryAt, r, s);
    PastUntil(t.inventoryAt.run, t.dbAt, r, s);
    PastUntil(t.dbAt.run, t.masterAt, r, s);
  }

  lemma WrittenOn(q: Run, r: Run, s: Run, x: Key, t: Trace)
    requires Written(q, r, x, t) && Follows(r, s)
    ensures Written(q, s, x, t)
  {
    PastUntil(q, t.secretAt, r, s);
    PastUntil(t.secretAt.run, t.configAt, r, s);
    PastUntil(t.configAt.run, t.statusAt, r, s);
  }

  lemma BindsTogether(q: Run, r: Run, s: Run, x: Key, o: Connection, t: Trace)
    requires LookedUp(q, r, o, t) && Written(r, s, x, t) && Follows(r, s)
    ensures Bound(q, s, x, o, t)
  {
    LookedUpOn(q, r, s, o, t);
    PastFrom(t.masterAt.run, r, t.secretAt, s);
  }

  lemma BoundMeans(q: Run, r: Run, x: Key, o: Connection, t: Trace)
    requires Bound(q, r, x, o, t)
    ensures Bindable(t.db) && t.db.spec.masterUserPassword.Some? && t.db.spec.masterUsername.Some? && HasEndpoint(t.db)
    ensures MasterPassword(t.db, t.master).Some?
  {
  }

  /** The stretch of the run that bound the connection may be longer on both sides. */
  lemma BoundStays(p: Run, q: Run, r: Run, s: Run, x: Key, o: Connection, t: Trace)
    requires Bound(q, r, x, o, t) && Follows(p, q) && Follows(r, s)
    ensures Bound(p, s, x, o, t)
  {
    LookedUpOn(q, r, s, o, t);
    WrittenOn(t.masterAt.run, r, s, x, t);
    PastFrom(p, q, t.inventoryAt, s);
  }

  /** The lookups lead to a DBInstance with all that a binding needs. */
  ghost predicate Resolvable(w: World, o: Connection) {
    exists i: Inventory, d: DBInstance, m: Data :: HasInventory(w, o, i) && HasDatabase(w, o, i, d)
      && HasMaster(w, d, m)
  }

  /** A quiet pass over x, without a failed call, binds it: the inventory is ready, it
      lists an available DBInstance, all data is there, and nobody else holds the objects. */
  ghost predicate CanBind(w: World, x: Key, o: Connection) {
    SecretFree(w, x) && ConfigFree(w, x) && Resolvable(w, o)
  }

  /** What a bound connection has in the store. */
  ghost predicate InPlace(w: World, x: Key, t: Trace) {
    && Bindable(t.db) && MasterPassword(t.db, t.master).Some?
    && SecretIs(w, x, SecretFor(t.db, t.master)) && ConfigIs(w, x, ConfigData(t.db))
  }

  lemma InPlaceSame(w: World, w': World, x: Key, t: Trace)
    requires InPlace(w, x, t) && w'.secrets == w.secrets && w'.configs == w.configs
    ensures InPlace(w', x, t)
  {
  }

  lemma OutcomeStays(u: World, v: World, w: World, x: Key, entries: map<string, string>, clean: bool, still: bool)
    requires SecretOutcome(u, v, x, entries, clean) && w.secrets == v.secrets && (still ==> clean)
    ensures SecretOutcome(u, w, x, entries, still)
  {
  }

  /** The lookups lead to the DBInstance d with its password in m. */
  ghost predicate Leads(w: World, o: Connection, d: DBInstance, m: Data) {
    HasMaster(w, d, m) && exists i: Inventory :: HasInventory(w, o, i) && HasDatabase(w, o, i, d)
  }

  /** The secret of x is now what the lookups of o in w lead to. */
  ghost predicate Rewritten(w: World, w': World, x: Key, o: Connection) {
    exists d: DBInstance, m: Data :: Leads(w, o, d, m) && SecretIs(w', x, SecretFor(d, m))
  }

  /** What a quiet pass over x, read as o, makes of the secrets: the one of x becomes what
      the lookups lead to, if they lead anywhere and nobody else controls it; nothing
      else changes. Where a call fails it may also stay. */
  ghost predicate SecretAfter(w: World, w': World, x: Key, o: Connection, clean: bool) {
    if SecretFree(w, x) && Resolvable(w, o) then Rewritten(w, w', x, o) || (!clean && w'.secrets == w.secrets)
    else w'.secrets == w.secrets
  }

  lemma NothingLooked(w: World, x: Key, o: Connection, clean: bool)
    requires clean ==> !Resolvable(w, o)
    ensures SecretAfter(w, w, x, o, clean)
  {
  }

  lemma AllLooked(w: World, w': World, x: Key, o: Connection, i: Inventory, d: DBInstance, m: Data, clean: bool)
    requires HasInventory(w, o, i) && HasDatabase(w, o, i, d) && HasMaster(w, d, m)
    requires SecretOutcome(w, w', x, SecretFor(d, m), clean)
    ensures SecretAfter(w, w', x, o, clean)
  {
    hide HasInventory, HasDatabase, SecretIs;
    assert Leads(w, o, d, m);
  }

  lemma SecretAfterSame(u: World, v: World, w: World, x: Key, o: Connection, clean: bool, still: bool)
    requires SecretAfter(u, v, x, o, clean) && w.secrets == v.secrets && (still ==> clean)
    ensures SecretAfter(u, w, x, o, still)
  {
    hide SecretFor;
    if Rewritten(u, v, x, o) {
      var d: DBInstance, m: Data :| Leads(u, o, d, m) && SecretIs(v, x, SecretFor(d, m));
      assert SecretIs(w, x, SecretFor(d, m));
    }
  }

  /** There is one inventory and one DBInstance to find. */
  lemma OneInventory(w: World, o: Connection, i: Inventory)
    requires HasInventory(w, o, i)
    ensures forall j: Inventory :: HasInventory(w, o, j) ==> j == i
  {
  }

  lemma OneDatabase(w: World, o: Connection, i: Inventory, d: DBInstance)
    requires HasDatabase(w, o, i, d)
    ensures forall e: DBInstance :: HasDatabase(w, o, i, e) ==> e == d
  {
  }

  lemma AvailableOf(w: World, o: Connection, i: Inventory, d: DBInstance)
    requires HasDatabase(w, o, i, d)
    ensures d.State() == Some("available")
  {
  }

  lemma MasterMeans(w: World, d: DBInstance, m: Data)
    requires HasMaster(w, d, m)
    ensures Bindable(d) && MasterPassword(d, m).Some?
  {
  }

  lemma SecretStays(w: World, w': World, x: Key, entries: map<string, string>)
    requires SecretIs(w, x, entries) && w'.secrets == w.secrets
    ensures SecretIs(w', x, entries)
  {
  }

  lemma CommittableIsUnique(cs: seq<Condition>)
    requires Committable(cs, ConnectionReady())
    ensures UniqueTypes(cs)
  {
  }

  lemma KnownOnRead(w: World, x: Key)
    requires Statuses(w) && Records(w) && x in w.connections
    ensures Committable(w.connections[x].it.status.conditions, ConnectionReady()) && x in w.everConnected
    ensures ConnectionClaims(w, x) <==> SaysTrue(w.connections[x].it.status.conditions, ConnectionReady())
  {
  }

  lemma NothingSaysTrue(ready: string)
    ensures !SaysTrue([], ready)
  {
  }

  // How a pass over a connection ends when no call fails and nobody interferes.

  ghost function Ending(w: World, x: Key, o: Connection): End {
    // another controller holds the secret or the config map
    if Resolvable(w, o) && !(SecretFree(w, x) && ConfigFree(w, x)) then End(false, true, No, BackendError)
    else LookedEnds(w, o)
  }

  ghost function LookedEnds(w: World, o: Connection): End {
    if o.inventoryRef !in w.inventories then End(false, true, No, Absent)
    else if !SaysTrue(w.inventories[o.inventoryRef].it.conditions, InventoryReady())
    then End(true, false, No, Unreachable)
    else DatabaseEnds(w, o, w.inventories[o.inventoryRef].it)
  }

  ghost function DatabaseEnds(w: World, o: Connection, i: Inventory): End {
    match NameOf(i.instances, o.instanceID)
    case None => End(false, true, No, Absent)
    case Some(name) =>
      var k := Key(o.inventoryRef.ns, name);
      if k !in w.dbs then End(false, true, No, BackendError)
      else if w.dbs[k].it.State() != Some("available") then End(false, true, No, Unreachable)
      else MasterEnds(w, w.dbs[k].it)
  }

  ghost function MasterEnds(w: World, d: DBInstance): End {
    match d.spec.masterUserPassword
    case None => End(false, true, No, InputError)
    case Some(ref) =>
      if ref.secret !in w.secrets then End(false, true, No, Absent)
      else
        var entries := w.secrets[ref.secret].it.entries;
        if ref.key !in entries || |entries[ref.key]| == 0 then End(false, true, No, InputError)
        else if d.spec.masterUsername.None? then End(false, true, No, InputError)
        else if !HasEndpoint(d) then End(false, true, No, Unreachable)
        else End(false, false, Yes, Why.Ready)
  }

  lemma InventoryGoesOn(w: World, o: Connection, i: Inventory)
    requires HasInventory(w, o, i)
    ensures LookedEnds(w, o) == DatabaseEnds(w, o, i)
  {
  }

  lemma DatabaseGoesOn(w: World, o: Connection, i: Inventory, d: DBInstance)
    requires HasDatabase(w, o, i, d)
    ensures DatabaseEnds(w, o, i) == MasterEnds(w, d)
  {
  }

  lemma MasterGoesOn(w: World, d: DBInstance, m: Data)
    requires HasMaster(w, d, m)
    ensures MasterEnds(w, d) == End(false, false, Yes, Why.Ready)
  {
  }

  class ConnectionPass {
    const c: Cluster
    const x: Key
    var connection: Obj<Connection>
    var out: Outcome
    // The inventory, the DBInstance and the secret with its password, as fetched.
    var inventory: Option<Inventory>
    var db: Option<DBInstance>
    var master: Option<Data>
    // When they were fetched, and where the pass left the binding.
    ghost var inventoryAt: Moment
    ghost var dbAt: Moment
    ghost var masterAt: Moment
    ghost var trace: Option<Trace>

    constructor (c: Cluster, x: Key, read: Obj<Connection>)
      ensures this.c == c && this.x == x && connection == read && out == UNDECIDED
      ensures inventory == None && db == None && master == None
    {
      this.c, this.x, connection, out := c, x, read, UNDECIDED;
      inventory, db, master, trace := None, None, None, None;
      inventoryAt, dbAt, masterAt := Moment(c.run, c.w), Moment(c.run, c.w), Moment(c.run, c.w);
    }

    method CheckInventory() returns (stop: bool)
      requires c.Valid()
      modifies this`out, this`inventory, this`inventoryAt, c
      ensures c.Valid() && c.Since(ConnectionWorker(x), old(c.w), old(c.outside)) && c.writes == old(c.writes)
      ensures c.faults >= old(c.faults) && Follows(old(c.run), c.run)
      ensures stop ==> Unsuccessful(out)
      ensures c.faults > old(c.faults) ==> Interrupted(out)
      ensures !stop ==>
                && out == old(out) && c.faults == old(c.faults) && inventory.Some?
                && inventoryAt.w == old(c.w) && Past(old(c.run), inventoryAt, c.run)
                && HasInventory(inventoryAt.w, connection.it, inventory.value)
      ensures c.faults == old(c.faults) ==>
                && (!stop <==> exists i: Inventory :: HasInventory(old(c.w), connection.it, i))
                && (stop ==> Ended(out, LookedEnds(old(c.w), connection.it)))
    {
      stop := true;
      var got := c.GetInventory(ConnectionWorker(x), connection.it.inventoryRef);
      if got.Err? {
        out := if got.error == NotFound then ReturnError(got.error, Absent, Says(InventoryNotFound))
               else ReturnError(got.error, BackendError, Says(GetInventoryFailed));
      } else if !SaysTrue(got.value.it.conditions, InventoryReady()) {
        out := ReturnRequeue(Unreachable, Says(InventoryNotReady));
      } else {
        inventory := Some(got.value.it);
        inventoryAt := c.Last();
        assert HasInventory(old(c.w), connection.it, got.value.it);
        stop := false;
      }
    }

    /** checkDBInstanceStatus. */
    method CheckDatabase() returns (stop: bool)
      requires c.Valid() && inventory.Some?
      modifies this`out, this`db, this`dbAt, c
      ensures c.Valid() && c.Since(ConnectionWorker(x), old(c.w), old(c.outside)) && c.writes == old(c.writes)
      ensures c.faults >= old(c.faults) && Follows(old(c.run), c.run)
      ensures stop ==> Unsuccessful(out)
      ensures c.faults > old(c.faults) ==> Interrupted(out)
      ensures !stop ==>
                && out == old(out) && c.faults == old(c.faults) && db.Some?
                && dbAt.w == old(c.w) && Past(old(c.run), dbAt, c.run)
                && HasDatabase(dbAt.w, connection.it, inventory.value, db.value)
      ensures c.faults == old(c.faults) ==>
                && (!stop <==> exists d: DBInstance :: HasDatabase(old(c.w), connection.it, inventory.value, d))
                && (stop ==> Ended(out, DatabaseEnds(old(c.w), connection.it, inventory.value)))
    {
      hide InstanceError;
      stop := true;
      var id := connection.it.instanceID;
      KeepsReflexive(ConnectionWorker(x), c.w);
      FollowsSelf(c.run);
      var name := FindName(inventory.value.instances, id);
      if name.None? {
        out := Rejected(id, " not found", Absent, InstanceNotFound);
        return;
      }
      var got := c.GetDatabase(ConnectionWorker(x), Key(connection.it.inventoryRef.ns, name.value));
      if got.Err? {
        out := ReturnError(got.error, BackendError, Says(GetInstanceFailed));
      } else if got.value.it.State() != Some("available") {
        out := Rejected(id, " not ready", Unreachable, InstanceNotReady);
      } else {
        db := Some(got.value.it);
        dbAt := c.Last();
        assert HasDatabase(old(c.w), connection.it, inventory.value, got.value.it);
        stop := false;
      }
    }

    /** checkDBConnectionStatus. */
    method CheckConnection() returns (stop: bool)
      requires c.Valid() && db.Some? && db.value.State() == Some("available")
      modifies this`out, this`master, this`masterAt, c
      ensures c.Valid() && c.Since(ConnectionWorker(x), old(c.w), old(c.outside)) && c.writes == old(c.writes)
      ensures c.faults >= old(c.faults) && Follows(old(c.run), c.run)
      ensures stop ==> Unsuccessful(out)
      ensures c.faults > old(c.faults) ==> Interrupted(out)
      ensures !stop ==>
                && out == old(out) && c.faults == old(c.faults) && master.Some?
                && masterAt.w == old(c.w) && Past(old(c.run), masterAt, c.run)
                && HasMaster(masterAt.w, db.value, master.value)
      ensures c.faults == old(c.faults) ==>
                && (!stop <==> exists m: Data :: HasMaster(old(c.w), db.value, m))
                && (stop ==> Ended(out, MasterEnds(old(c.w), db.value)))
    {
      hide InstanceError;
      stop := true;
      KeepsReflexive(ConnectionWorker(x), c.w);
      FollowsSelf(c.run);
      var id, d := connection.it.instanceID, db.value;
      if d.spec.masterUserPassword.None? {
        out := Rejected(id, " master password not set", InputError, PasswordNotFound);
        return;
      }
      var got := c.GetSecret(ConnectionWorker(x), d.spec.masterUserPassword.value.secret);
      if got.Err? {
        out := ReturnError(got.error, if got.error == NotFound then Absent else BackendError, Says(GetPasswordFailed));
      } else if !Given(got.value.it.entries, d.spec.masterUserPassword.value.key) {
        out := Rejected(id, " master password key not set", InputError, PasswordInvalid);
      } else if d.spec.masterUsername.None? {
        out := Rejected(id, " master username not set", InputError, UsernameNotFound);
      } else if !HasEndpoint(d) {
        out := Rejected(id, " endpoint not found", Unreachable, EndpointNotFound);
      } else {
        master := Some(got.value.it);
        masterAt := c.Last();
        assert HasMaster(old(c.w), d, got.value.it);
        stop := false;
      }
    }

    // -------------------------------------------------- syncConnectionStatus

    /** Status().Update of the copy, which then is what the server stored. */
    method WriteStatus() returns (e: Option<Error>, ghost at: Moment)
      requires c.Valid() && Committable(connection.it.status.conditions, ConnectionReady())
      modifies this`connection, c
      ensures c.Valid() && c.outside >= old(c.outside) && c.writes == old(c.writes)
      ensures if e.None? then c.faults == old(c.faults) else c.faults > old(c.faults)
      ensures Past(old(c.run), at, c.run) && Follows(old(c.run), c.run)
      ensures connection.it.status == old(connection).it.status
      ensures NoClaimBut(old(c.w), c.w, x, connection.it.status.conditions)
      ensures e.None? ==> x in at.w.connections && at.w.connections[x].it.status == connection.it.status
      ensures c.outside == old(c.outside) ==>
                c.w == at.w && OnlyBinding(old(c.w), c.w, x) && c.w.secrets == old(c.w).secrets
                  && c.w.configs == old(c.w).configs
    {
      hide OnlyBinding, NoClaimBut, Committable;
      ghost var before := c.w;
      if x in c.w.connections { MayCommit(c.w, x, connection.it); }
      var r := c.UpdateConnectionStatus(ConnectionWorker(x), x, connection);
      at := c.Last();
      StatusWritten(before, x, connection.it, at.w, c.w);
      if r.Err? {
        return Some(r.error), at;
      }
      connection := r.value;
      e := None;
    }

    /** Secret, then config map. */
    method PutObjects() returns (stop: bool, ghost secretAt: Moment, ghost configAt: Moment)
      requires c.Valid() && x in c.w.everConnected
      requires db.Some? && master.Some? && Bindable(db.value) && MasterPassword(db.value, master.value).Some?
      modifies this`out, c
      ensures c.Valid() && Rely(ConnectionWorker(x), old(c.w), c.w)
      ensures c.outside >= old(c.outside) && c.faults >= old(c.faults)
      ensures Follows(old(c.run), c.run)
      ensures stop ==> Unsuccessful(out)
      ensures c.faults > old(c.faults) ==> Interrupted(out)
      ensures !stop ==>
                && out == old(out) && c.faults == old(c.faults)
                && Past(old(c.run), secretAt, c.run) && SecretIs(secretAt.w, x, SecretFor(db.value, master.value))
                && Past(secretAt.run, configAt, c.run) && ConfigIs(configAt.w, x, ConfigData(db.value))
      ensures c.outside == old(c.outside) ==>
                && OnlyBinding(old(c.w), c.w, x)
                && (!stop ==>
                      SecretIs(c.w, x, SecretFor(db.value, master.value)) && ConfigIs(c.w, x, ConfigData(db.value)))
      ensures c.faults == old(c.faults) && c.outside == old(c.outside) ==>
                && (!stop <==> SecretFree(old(c.w), x) && ConfigFree(old(c.w), x))
                && (stop ==> Ended(out, End(false, true, No, BackendError)))
      ensures c.outside == old(c.outside) ==>
                SecretOutcome(old(c.w), c.w, x, SecretFor(db.value, master.value), c.faults == old(c.faults))
    {
      hide SecretData, ConfigData, SecretIs, ConfigIs, HasEndpoint, OnlyBinding, MasterPassword, OwnedByAnother;
      hide SecretOutcome;
      stop := true;
      ghost var begin, way := c.w, c.run;
      var e;
      configAt := Moment(way, begin);
      e, secretAt := PutSecret(c, x, SecretData(db.value, MasterPassword(db.value, master.value).value));
      ghost var put, on, clean := c.w, c.run, c.faults == old(c.faults);
      if e.Some? {
        out := ReturnError(e.value, BackendError, Says(SecretFailed));
        return;
      }
      e, configAt := PutConfigMap(c, x, ConfigData(db.value));
      KeepsTransitive(ConnectionWorker(x), {}, {}, {}, begin, put, c.w);
      FollowsOn(way, on, c.run);
      PastUntil(way, secretAt, on, c.run);
      PastFrom(secretAt.run, on, configAt, c.run);
      if c.outside == old(c.outside) {
        OnlyBindingOn(begin, put, c.w, x);
        OutcomeStays(begin, put, c.w, x, SecretFor(db.value, master.value), clean, c.faults == old(c.faults));
        if e.None? { SecretStays(secretAt.w, c.w, x, SecretFor(db.value, master.value)); }
      }
      if e.Some? {
        out := ReturnError(e.value, BackendError, Says(ConfigMapFailed));
        return;
      }
      stop := false;
    }

    /** Both objects, and then the references to them in the status. */
    method Sync() returns (stop: bool)
      requires c.Valid() && Committable(connection.it.status.conditions, ConnectionReady()) && x in c.w.everConnected
      requires inventory.Some? && db.Some? && master.Some? && Bindable(db.value)
               && MasterPassword(db.value, master.value).Some?
      modifies this`out, this`connection, this`trace, c
      ensures c.Valid() && Committable(connection.it.status.conditions, ConnectionReady())
      ensures c.outside >= old(c.outside) && c.faults >= old(c.faults) && Follows(old(c.run), c.run)
      ensures NoClaimBut(old(c.w), c.w, x, old(connection).it.status.conditions)
      ensures stop ==> Unsuccessful(out)
      ensures c.faults > old(c.faults) ==> Interrupted(out)
      ensures !stop ==>
                && out == old(out) && trace.Some? && Traced(trace.value) && Written(old(c.run), c.run, x, trace.value)
                && RefersToBinding(connection.it.status, x)
      ensures c.outside == old(c.outside) ==> OnlyBinding(old(c.w), c.w, x) && (!stop ==> InPlace(c.w, x, trace.value))
      ensures c.faults == old(c.faults) && c.outside == old(c.outside) ==>
                && (!stop <==> SecretFree(old(c.w), x) && ConfigFree(old(c.w), x))
                && (stop ==> Ended(out, End(false, true, No, BackendError)))
      ensures c.outside == old(c.outside) ==>
                SecretOutcome(old(c.w), c.w, x, SecretFor(db.value, master.value), c.faults == old(c.faults))
    {
      hide SecretData, ConfigData, SecretIs, ConfigIs, Committable, Bindable, MasterPassword, HasEndpoint;
      hide OnlyBinding, OwnedByAnother, SecretOutcome;
      hide SecretFree, ConfigFree, ConnectionClaims, SaysTrue, Follows, InPlace;
      ghost var begin, way := c.w, c.run;
      ghost var secretAt, configAt, statusAt;
      stop, secretAt, configAt := PutObjects();
      KeepsNoClaim(begin, c.w, x, connection.it.status.conditions);
      if stop { return; }
      ghost var both, on, clean := c.w, c.run, c.faults == old(c.faults);
      connection := Obj(connection.rv, connection.it.(
        status := connection.it.status.(credentialsRef := Some(CredentialOf(x).name),
          infoRef := Some(ConfigKey(x).name))));
      var e;
      e, statusAt := WriteStatus();
      ghost var t := Trace(inventory.value, inventoryAt, db.value, dbAt, master.value, masterAt, secretAt, configAt,
        statusAt);
      FollowsOn(way, on, c.run);
      if c.outside == old(c.outside) {
        OnlyBindingOn(begin, both, c.w, x);
        InPlaceSame(both, c.w, x, t);
        OutcomeStays(begin, both, c.w, x, SecretFor(db.value, master.value), clean, c.faults == old(c.faults));
      }
      if e == Some(Conflict) {
        stop, out := true, ReturnRequeue(Why.Updating, Says(UpdatingConnection));
      } else if e.Some? {
        stop, out := true, ReturnError(e.value, BackendError, Says(ConnectionUpdateFailed));
      } else {
        PastUntil(way, secretAt, on, c.run);
        PastUntil(secretAt.run, configAt, on, c.run);
        PastFrom(configAt.run, on, statusAt, c.run);
        trace := Some(t);
      }
    }

    /** The trace tells of what this pass fetched. */
    ghost predicate Traced(t: Trace)
      reads this
    {
      && inventory == Some(t.inventory) && inventoryAt == t.inventoryAt && db == Some(t.db) && dbAt == t.dbAt
      && master == Some(t.master) && masterAt == t.masterAt
      && Bindable(t.db) && MasterPassword(t.db, t.master).Some?
    }

    // --------------------------------------------------------- Reconcile

    /** The three lookups. */
    method LookUp() returns (stop: bool)
      requires c.Valid() && out == UNDECIDED
      modifies this`out, this`inventory, this`inventoryAt, this`db, this`dbAt, this`master, this`masterAt, c
      ensures c.Valid() && c.Since(ConnectionWorker(x), old(c.w), old(c.outside)) && c.writes == old(c.writes)
      ensures c.faults >= old(c.faults) && Follows(old(c.run), c.run)
      ensures stop ==> Unsuccessful(out)
      ensures c.faults > old(c.faults) ==> Interrupted(out)
      ensures !stop ==>
                && out == UNDECIDED && c.faults == old(c.faults) && inventory.Some? && db.Some? && master.Some?
                && Past(old(c.run), inventoryAt, c.run) && HasInventory(inventoryAt.w, connection.it, inventory.value)
                && Past(inventoryAt.run, dbAt, c.run) && HasDatabase(dbAt.w, connection.it, inventory.value, db.value)
                && Past(dbAt.run, masterAt, c.run) && HasMaster(masterAt.w, db.value, master.value)
                && (c.outside == old(c.outside) ==> inventoryAt.w == dbAt.w == masterAt.w == old(c.w))
      ensures c.faults == old(c.faults) && c.outside == old(c.outside) ==>
                && (!stop <==> Resolvable(old(c.w), connection.it))
                && if stop then Ended(out, LookedEnds(old(c.w), connection.it))
                   else LookedEnds(old(c.w), connection.it) == End(false, false, Yes, Why.Ready)
    {
      hide HasInventory, HasDatabase, HasMaster;
      ghost var begin, way := c.w, c.run;
      stop := CheckInventory();
      ghost var first, one := c.w, c.run;
      if stop { return; }
      PastFollows(way, inventoryAt, one);
      stop := CheckDatabase();
      ghost var second, two := c.w, c.run;
      KeepsTransitive(ConnectionWorker(x), {}, {}, {}, begin, first, second);
      FollowsOn(way, one, two);
      if c.outside == old(c.outside) {
        OneInventory(begin, connection.it, inventory.value);
        InventoryGoesOn(begin, connection.it, inventory.value);
      }
      if stop { return; }
      PastUntil(way, inventoryAt, one, two);
      PastFrom(inventoryAt.run, one, dbAt, two);
      AvailableOf(dbAt.w, connection.it, inventory.value, db.value);
      stop := CheckConnection();
      KeepsTransitive(ConnectionWorker(x), {}, {}, {}, begin, second, c.w);
      FollowsOn(way, two, c.run);
      if c.outside == old(c.outside) {
        OneDatabase(begin, connection.it, inventory.value, db.value);
        DatabaseGoesOn(begin, connection.it, inventory.value, db.value);
      }
      if stop { return; }
      PastUntil(way, inventoryAt, two, c.run);
      PastUntil(inventoryAt.run, dbAt, two, c.run);
      PastFrom(dbAt.run, two, masterAt, c.run);
      MasterGoesOn(masterAt.w, db.value, master.value);
    }

    /** Puts what was found in place, and decides. */
    method BindFound()
      requires c.Valid() && Committable(connection.it.status.conditions, ConnectionReady()) && x in c.w.everConnected
      requires inventory.Some? && db.Some? && master.Some? && Bindable(db.value)
               && MasterPassword(db.value, master.value).Some?
      requires out == UNDECIDED
      modifies this`out, this`connection, this`trace, c
      ensures c.Valid() && Committable(connection.it.status.conditions, ConnectionReady()) && out.judged.Some?
      ensures c.outside >= old(c.outside) && c.faults >= old(c.faults) && Follows(old(c.run), c.run)
      ensures NoClaimBut(old(c.w), c.w, x, old(connection).it.status.conditions)
      ensures Unsuccessful(out) || out == ReturnReady(UNDECIDED, Why.Ready)
      ensures c.faults > old(c.faults) ==> Interrupted(out)
      ensures out.judged.value.verdict == Yes ==>
                && trace.Some? && Traced(trace.value) && Written(old(c.run), c.run, x, trace.value)
                && RefersToBinding(connection.it.status, x)
      ensures c.outside == old(c.outside) ==>
                && OnlyBinding(old(c.w), c.w, x)
                && SecretOutcome(old(c.w), c.w, x, SecretFor(db.value, master.value), c.faults == old(c.faults))
                && (out.judged.value.verdict == Yes ==> InPlace(c.w, x, trace.value))
      ensures c.faults == old(c.faults) && c.outside == old(c.outside) ==>
                && (out.judged.value.verdict == Yes <==> SecretFree(old(c.w), x) && ConfigFree(old(c.w), x))
                && Ended(out, if SecretFree(old(c.w), x) && ConfigFree(old(c.w), x)
                              then End(false, false, Yes, Why.Ready) else End(false, true, No, BackendError))
    {
      hide InPlace, Committable, Bindable, MasterPassword, RefersToBinding, SecretFree, ConfigFree, SecretOutcome;
      hide OnlyBinding, NoClaimBut, Written, Follows;
      var stop := Sync();
      if !stop { out := ReturnReady(out, Why.Ready); }
    }

    /** What the pass decides, before the deferred write. */
    method Judge()
      requires c.Valid() && Committable(connection.it.status.conditions, ConnectionReady()) && x in c.w.everConnected
      requires out == UNDECIDED
      modifies this, c
      ensures c.Valid() && Committable(connection.it.status.conditions, ConnectionReady()) && out.judged.Some?
      ensures c.outside >= old(c.outside) && c.faults >= old(c.faults) && Follows(old(c.run), c.run)
      ensures NoClaimBut(old(c.w), c.w, x, old(connection).it.status.conditions)
      ensures c.faults > old(c.faults) ==> Interrupted(out)
      ensures Unsuccessful(out)
              || (out == ReturnReady(UNDECIDED, Why.Ready) && trace.Some?
                  && Bound(old(c.run), c.run, x, old(connection).it, trace.value)
                       && RefersToBinding(connection.it.status, x))
      ensures c.outside == old(c.outside) ==>
                && OnlyBinding(old(c.w), c.w, x)
                && (out.judged.value.verdict == Yes ==> InPlace(c.w, x, trace.value) && SeenIn(old(c.w), trace.value))
      ensures c.faults == old(c.faults) && c.outside == old(c.outside) ==>
                && (out.judged.value.verdict == Yes <==> CanBind(old(c.w), x, old(connection).it))
                && Ended(out, Ending(old(c.w), x, old(connection).it))
      ensures c.outside == old(c.outside) ==>
                SecretAfter(old(c.w), c.w, x, old(connection).it, c.faults == old(c.faults))
    {
      hide InPlace, Committable, Bindable, MasterPassword, RefersToBinding, HasInventory, HasDatabase, SecretFree;
      hide ConfigFree, SecretOutcome, SecretAfter;
      hide OnlyBinding, Resolvable, ConnectionClaims, SaysTrue, HasMaster, Written, Bound, Past, Follows, Keeps;
      hide HasEndpoint, SecretData, ConfigData, SecretIs, ConfigIs, OwnedByAnother;
      ghost var begin, way, o := c.w, c.run, connection.it;
      OnlyBindingSelf(begin, x);
      var stop := LookUp();
      ghost var seen, on := c.w, c.run;
      KeepsNoClaim(begin, seen, x, o.status.conditions);
      if stop {
        if c.outside == old(c.outside) { NothingLooked(begin, x, o, c.faults == old(c.faults)); }
        return;
      }
      StaysConnected(begin, seen, x);
      MasterMeans(masterAt.w, db.value, master.value);
      BindFound();
      FollowsOn(way, on, c.run);
      if c.outside == old(c.outside) {
        AllLooked(begin, c.w, x, o, inventory.value, db.value, master.value, c.faults == old(c.faults));
      }
      if out.judged.value.verdict == Yes { BindsTogether(way, on, c.run, x, o, trace.value); }
    }

    /** updateConnectionReadyCondition. */
    method Commit() returns (ghost committed: bool)
      requires c.Valid() && out.judged.Some? && Committable(connection.it.status.conditions, ConnectionReady())
      modifies this`connection, this`out, c
      ensures c.Valid() && c.outside >= old(c.outside) && c.faults >= old(c.faults) && Follows(old(c.run), c.run)
      ensures out.judged == old(out).judged && (committed ==> out == old(out))
      ensures !committed ==> out.requeue || out.err.Some?
      ensures committed <==> c.faults == old(c.faults)
      ensures ConnectionClaims(c.w, x) ==> ConnectionClaims(old(c.w), x) || out.judged.value.verdict == Yes
      ensures c.outside == old(c.outside) ==>
                OnlyBinding(old(c.w), c.w, x) && c.w.secrets == old(c.w).secrets && c.w.configs == old(c.w).configs
      ensures committed && c.outside == old(c.outside) ==>
                && x in c.w.connections && c.w.connections[x].it.status == connection.it.status
                && Reads(connection.it.status.conditions, ConnectionReady(), out.judged.value)
                && (ConnectionClaims(c.w, x) <==> out.judged.value.verdict == Yes)
                && (RefersToBinding(old(connection).it.status, x) ==> RefersToBinding(connection.it.status, x))
    {
      hide OnlyBinding, Committable, Reads;
      var now: int := *;
      CommitKeepsCommittable(connection.it.status.conditions, out, now, ConnectionReady());
      CommittableIsUnique(connection.it.status.conditions);
      CommitSays(connection.it.status.conditions, out, now, ConnectionReady());
      CommitReads(connection.it.status.conditions, out, now, ConnectionReady());
      connection := Obj(connection.rv, connection.it.(status := connection.it.status.(
        conditions := SetStatusCondition(connection.it.status.conditions, ConditionOf(ConnectionReady(), out), now))));
      var e;
      ghost var at;
      e, at := WriteStatus();
      committed := e.None?;
      out := AfterCommit(out, e);
    }

    /** The pass, once it has read the connection. */
    method Run() returns (ghost committed: bool)
      requires c.Valid() && Committable(connection.it.status.conditions, ConnectionReady()) && x in c.w.everConnected
      requires out == UNDECIDED
      modifies this, c
      ensures c.Valid() && c.outside >= old(c.outside) && c.faults >= old(c.faults) && Follows(old(c.run), c.run)
      ensures out.judged.Some?
      ensures out.judged.value.verdict == Yes ==>
                trace.Some? && Bound(old(c.run), c.run, x, old(connection).it, trace.value)
      ensures committed && out.judged.value.verdict == Yes ==> !out.requeue && out.err.None?
      ensures !committed || c.faults > old(c.faults) ==> out.requeue || out.err.Some?
      ensures ConnectionClaims(c.w, x) ==>
                || ConnectionClaims(old(c.w), x) || SaysTrue(old(connection).it.status.conditions, ConnectionReady())
                || out.judged.value.verdict == Yes
      ensures c.outside == old(c.outside) ==>
                && OnlyBinding(old(c.w), c.w, x)
                && SecretAfter(old(c.w), c.w, x, old(connection).it, c.faults == old(c.faults))
                && (out.judged.value.verdict == Yes ==> SeenIn(old(c.w), trace.value) && InPlace(c.w, x, trace.value))
      ensures c.faults == old(c.faults) && c.outside == old(c.outside) ==>
                && committed && x in c.w.connections
                && (out.judged.value.verdict == Yes <==> CanBind(old(c.w), x, old(connection).it))
                && Ended(out, Ending(old(c.w), x, old(connection).it))
                && (ConnectionClaims(c.w, x) <==> out.judged.value.verdict == Yes)
                && Reads(c.w.connections[x].it.status.conditions, ConnectionReady(), out.judged.value)
                && (out.judged.value.verdict == Yes ==> RefersToBinding(c.w.connections[x].it.status, x))
    {
      hide Bound, InPlace, Committable, SaysTrue, OnlyBinding, CanBind, ConnectionClaims, RefersToBinding;
      hide Follows, Past, SeenIn, SecretAfter, Reads, Ending;
      ghost var begin, way, o := c.w, c.run, connection.it;
      Judge();
      ghost var there, decided, clean := c.run, c.w, c.faults == old(c.faults);
      committed := Commit();
      FollowsOn(way, there, c.run);
      FollowsSelf(way);
      if out.judged.value.verdict == Yes {
        BoundStays(way, way, there, c.run, x, o, trace.value);
        BoundMeans(way, c.run, x, o, trace.value);
      }
      if c.outside == old(c.outside) {
        OnlyBindingOn(begin, decided, c.w, x);
        SecretAfterSame(begin, decided, c.w, x, o, clean, c.faults == old(c.faults));
        if out.judged.value.verdict == Yes { InPlaceSame(decided, c.w, x, trace.value); }
      }
    }
  }

  /** Reconcile. ReadyForBinding=True is decided only in a pass that looked up a ready
      inventory, the available DBInstance it lists and its password, and then wrote
      secret, config map and references; and it is in the store only after such a pass. */
  method Reconcile(c: Cluster, x: Key)
    returns (requeue: bool, err: Option<Error>, ghost judged: Option<Judgment>, ghost committed: bool,
      ghost trace: Option<Trace>)
    requires c.Valid()
    modifies c
    ensures c.Valid() && c.outside >= old(c.outside) && c.faults >= old(c.faults)
    // success is decided only when the connection, as read, was bound in this pass
    ensures judged.Some? && judged.value.verdict == Yes ==>
              && x in old(c.w).connections && trace.Some?
              && Bound(old(c.run), c.run, x, old(c.w).connections[x].it, trace.value)
    ensures committed ==> judged.Some?
    ensures committed && judged.value.verdict == Yes ==> !requeue && err.None?
    // whatever is committed, lost or made by others: ready appears in the store only with success
    ensures ConnectionClaims(c.w, x) ==> ConnectionClaims(old(c.w), x) || (judged.Some? && judged.value.verdict == Yes)
    // a pass in which a call failed is tried again, as is one that commits nothing
    ensures c.faults > old(c.faults) || (!committed && x in old(c.w).connections) ==> requeue || err.Some?
    // and there is nothing to do for a connection that is gone
    ensures c.faults == old(c.faults) && x !in old(c.w).connections ==> !requeue && err.None? && judged.None?
    // when nobody interfered, only the binding changed, and a bound one is in place
    ensures c.outside == old(c.outside) ==>
              && OnlyBinding(old(c.w), c.w, x)
              && (judged.Some? && judged.value.verdict == Yes ==>
                   SeenIn(old(c.w), trace.value) && InPlace(c.w, x, trace.value))
    // and without a failed call the store says ready exactly when the pass could bind it
    ensures c.faults == old(c.faults) && c.outside == old(c.outside) && x in old(c.w).connections ==>
              && judged.Some? && committed && x in c.w.connections
              && (judged.value.verdict == Yes <==> CanBind(old(c.w), x, old(c.w).connections[x].it))
              && EndsAs(requeue, err, judged, Ending(old(c.w), x, old(c.w).connections[x].it))
              && (ConnectionClaims(c.w, x) <==> judged.value.verdict == Yes)
              && Reads(c.w.connections[x].it.status.conditions, ConnectionReady(), judged.value)
              && (judged.value.verdict == Yes ==> RefersToBinding(c.w.connections[x].it.status, x))
    // bound or not, its secret is the one the lookups lead to, unless it is refused
    ensures c.outside == old(c.outside) ==>
              if x in old(c.w).connections
              then SecretAfter(old(c.w), c.w, x, old(c.w).connections[x].it, c.faults == old(c.faults))
              else c.w.secrets == old(c.w).secrets
  {
    hide Cluster.Valid;
    hide Bound, InPlace, Committable, SaysTrue, OnlyBinding, CanBind, ConnectionClaims, RefersToBinding, Statuses,
      Records;
    hide Keeps, Follows, Past, SeenIn, SecretAfter, Reads, Ending;
    requeue, err, judged, committed, trace := false, None, None, false, None;
    ghost var begin, way := c.w, c.run;
    c.Have(Verdicts);
    c.Have(History);
    OnlyBindingSelf(begin, x);
    var connection := c.GetConnection(ConnectionWorker(x), x);
    ghost var on := c.run;
    KeepsNoClaim(begin, c.w, x, []);
    NothingSaysTrue(ConnectionReady());
    if connection == Err(NotFound) { return; }
    if connection.Err? {
      err := Some(connection.error);
      if c.outside == old(c.outside)
        && x in begin.connections { NothingLooked(begin, x, begin.connections[x].it, false); }
      return;
    }
    KnownOnRead(begin, x);
    StaysConnected(begin, c.w, x);
    var p := new ConnectionPass(c, x, connection.value);
    committed := p.Run();
    requeue, err, judged, trace := p.out.requeue, p.out.err, p.out.judged, p.trace;
    FollowsSelf(c.run);
    if judged.value.verdict == Yes { BoundStays(way, on, c.run, c.run, x, connection.value.it, trace.value); }
  }
}
