/** What happens to an adopted DBInstance when a connection has its name, so that
    both keep their passwords in one secret: when a pass over the connection breaks
    the reference of the DBInstance, and how the controllers come to do it. */
module Collisions {
  import opened Wrappers
  import opened Store
  import opened Conditions
  import opened Database
  import opened World
  import opened Protocol
  import opened Runs
  import opened Interference
  import opened Outcomes
  import opened Api
  import opened Secrets
  import opened Settlement
  import Ack
  import Adoption
  import Binding
  import ConnectionController
  import HandOff
  import InventoryController
  import Listing

  // ------------------------------------------------ when a pass overwrites a password

  /** Before a pass over the connection x, read as o: x may keep its secret where the
      DBInstance x keeps its own, and the lookups lead to another password. */
  ghost predicate WouldOverwrite(w: World, x: Key, o: Connection)
    requires HasPassword(w, CredentialOf(x))
  {
    SecretFree(w, x) && exists d: DBInstance, m: Data :: LeadsElsewhere(w, x, o, d, m)
  }

  ghost predicate LeadsElsewhere(w: World, x: Key, o: Connection, d: DBInstance, m: Data)
    requires HasPassword(w, CredentialOf(x))
  {
    && ConnectionController.Leads(w, o, d, m)
    && ConnectionController.MasterPassword(d, m) != Some(PasswordAt(w, CredentialOf(x)))
  }

  /** The lookups lead to one place. */
  lemma LeadsToOne(w: World, o: Connection, d: DBInstance, m: Data, d': DBInstance, m': Data)
    requires ConnectionController.Leads(w, o, d, m) && ConnectionController.Leads(w, o, d', m')
    ensures d == d' && m == m'
  {
  }

  lemma RewrittenHolds(w: World, x: Key, d: DBInstance, m: Data)
    requires Binding.Bindable(d) && ConnectionController.MasterPassword(d, m).Some?
    requires Binding.SecretIs(w, x, ConnectionController.SecretFor(d, m))
    ensures HasPassword(w, CredentialOf(x))
            && Some(PasswordAt(w, CredentialOf(x))) == ConnectionController.MasterPassword(d, m)
  {
  }

  /** What such a pass makes of a reference that agrees. */
  lemma AgreesAfterPass(w: World, w': World, x: Key, o: Connection, clean: bool)
    requires HandedOff(w, x) && ReferenceAgrees(w, x)
    requires Binding.OnlyBinding(w, w', x) && ConnectionController.SecretAfter(w, w', x, o, clean)
    ensures x in w'.dbs
    ensures !WouldOverwrite(w, x, o) ==> ReferenceAgrees(w', x)
    ensures clean && WouldOverwrite(w, x, o) ==> !ReferenceAgrees(w', x)
  {
    hide ConnectionController.SecretFor;
    if ConnectionController.Rewritten(w, w', x, o) {
      var d: DBInstance, m: Data :|
        ConnectionController.Leads(w, o, d, m) && Binding.SecretIs(w', x, ConnectionController.SecretFor(d, m));
      LeadsMeans(w, o, d, m);
      RewrittenHolds(w', x, d, m);
      assert LeadsElsewhere(w, x, o, d, m) <==>
        ConnectionController.MasterPassword(d, m) != Some(PasswordAt(w, CredentialOf(x)));
      forall d': DBInstance, m': Data | LeadsElsewhere(w, x, o, d', m') ensures d' == d && m' == m {
        LeadsToOne(w, o, d, m, d', m');
      }
    } else if WouldOverwrite(w, x, o) {
      var d: DBInstance, m: Data :| LeadsElsewhere(w, x, o, d, m);
      LeadsResolve(w, o, d, m);
    }
  }

  lemma LeadsMeans(w: World, o: Connection, d: DBInstance, m: Data)
    requires ConnectionController.Leads(w, o, d, m)
    ensures Binding.Bindable(d) && ConnectionController.MasterPassword(d, m).Some?
  {
  }

  lemma LeadsResolve(w: World, o: Connection, d: DBInstance, m: Data)
    requires ConnectionController.Leads(w, o, d, m)
    ensures ConnectionController.Resolvable(w, o)
  {
  }

  /** A pass over the connection x without a failed call or interference leaves the
      reference of the DBInstance x with the password AWS has, if and only if it would
      not overwrite it; a call that fails does no harm to that. */
  method PassOver(c: Cluster, x: Key)
    requires c.Valid() && HandedOff(c.w, x) && ReferenceAgrees(c.w, x)
    modifies c
    ensures c.Valid() && c.outside >= old(c.outside) && c.faults >= old(c.faults)
    ensures c.outside == old(c.outside) ==> x in c.w.dbs
    ensures c.outside == old(c.outside) && c.faults == old(c.faults) && x in old(c.w).connections ==>
              (ReferenceAgrees(c.w, x) <==> !WouldOverwrite(old(c.w), x, old(c.w).connections[x].it))
    ensures c.outside == old(c.outside)
            && (x in old(c.w).connections ==> !WouldOverwrite(old(c.w), x, old(c.w).connections[x].it)) ==>
              ReferenceAgrees(c.w, x)
  {
    hide ReferenceAgrees, WouldOverwrite, Binding.OnlyBinding, ConnectionController.SecretAfter;
    ghost var begin := c.w;
    AgreeMeans(begin, x);
    var requeue, err;
    ghost var judged, committed, trace;
    requeue, err, judged, committed, trace := ConnectionController.Reconcile(c, x);
    if c.outside == old(c.outside) {
      if x in begin.connections {
        AgreesAfterPass(begin, c.w, x, begin.connections[x].it, c.faults == old(c.faults));
      } else {
        AgreesSame(begin, c.w, x);
      }
    }
  }

  lemma AgreeMeans(w: World, x: Key)
    requires x in w.dbs && ReferenceAgrees(w, x)
    ensures HasPassword(w, CredentialOf(x))
  {
  }

  lemma AgreesSame(w: World, w': World, x: Key)
    requires HandedOff(w, x) && ReferenceAgrees(w, x) && Binding.OnlyBinding(w, w', x) && w'.secrets == w.secrets
    ensures x in w'.dbs && ReferenceAgrees(w', x)
  {
  }

  // ------------------------------------------------------------ the situation

  /** n is a DBInstance of the namespace that can be bound: it has an identifier of its
      own, and its password is kept in a secret that is not the one of k. */
  ghost predicate Offered(w: World, ns: string, k: Key, n: Key) {
    && n.ns == ns && n in w.dbs && Binding.Bindable(w.dbs[n].it)
    && var d := w.dbs[n].it;
       var ref := d.spec.masterUserPassword.value.secret;
    && ref != CredentialOf(k) && ref in w.secrets
    && ConnectionController.MasterPassword(d, w.secrets[ref].it).Some?
    && forall j <- w.dbs :: j.ns == ns && IdOf(w, j) == IdOf(w, n) ==> j == n
  }

  ghost function PasswordOf(w: World, ns: string, k: Key, n: Key): string
    requires Offered(w, ns, k, n)
  {
    var d := w.dbs[n].it;
    ConnectionController.MasterPassword(d, w.secrets[d.spec.masterUserPassword.value.secret].it).value
  }

  /** The connection k of the ready inventory key may be bound to a or to b. */
  ghost predicate Bindings(w: World, key: Key, k: Key, a: Key, b: Key) {
    && key in w.inventories && SaysTrue(w.inventories[key].it.conditions, InventoryReady())
    && w.inventories[key].it.credentialsRef != CredentialOf(k)
    && k.ns == key.ns && k in w.connections && w.connections[k].it.inventoryRef == key
    && SecretFree(w, k) && Binding.ConfigFree(w, k)
    && Offered(w, key.ns, k, a) && Offered(w, key.ns, k, b)
  }

  /** The inventory lists n. */
  ghost predicate Presents(w: World, key: Key, n: Key) {
    && key in w.inventories && n in w.dbs
    && ConnectionController.NameOf(w.inventories[key].it.instances, IdOf(w, n)) == Some(n.name)
  }

  /** The inventory lists n, and the connection k names it. */
  ghost predicate Targets(w: World, key: Key, k: Key, n: Key) {
    Presents(w, key, n) && k in w.connections && w.connections[k].it.instanceID == IdOf(w, n)
  }

  /** The adopted DBInstance k is to be handed its password by the next pass. */
  ghost predicate Pending(w: World, key: Key, k: Key) {
    && key in w.inventories && InventoryController.Succeeds(w, key, w.inventories[key].it)
    && k.ns == key.ns && IsAdopted(w, k) && HandOff.Due(w.dbs[k].it) && HandOff.OwnIdsIn(w, key.ns)
  }

  /** An adopted DBInstance waits for its password, and a connection of its name can be
      bound to one database and then to another one, with another password. */
  ghost predicate Collides(w: World, key: Key, k: Key, a: Key, b: Key) {
    && Bindings(w, key, k, a, b) && Targets(w, key, k, a) && Presents(w, key, b) && Pending(w, key, k)
    && PasswordOf(w, key.ns, k, a) != PasswordOf(w, key.ns, k, b)
  }

  // --------------------------------------------------- what the passes make of it

  /** The connection can be bound to the one it names, and to that one's password. */
  lemma BindsTo(w: World, key: Key, k: Key, a: Key, b: Key, n: Key)
    requires Bindings(w, key, k, a, b) && n in {a, b} && Targets(w, key, k, n)
    ensures ConnectionController.CanBind(w, k, w.connections[k].it)
    ensures forall t: ConnectionController.Trace :: Looked(w, w.connections[k].it, t) ==>
              t.db == w.dbs[n].it && ConnectionController.MasterPassword(t.db, t.master) ==
                Some(PasswordOf(w, key.ns, k, n))
  {
    var o, i, d := w.connections[k].it, w.inventories[key].it, w.dbs[n].it;
    var m := w.secrets[d.spec.masterUserPassword.value.secret].it;
    assert ConnectionController.HasInventory(w, o, i);
    assert ConnectionController.HasDatabase(w, o, i, d);
    assert ConnectionController.HasMaster(w, d, m);
  }

  /** The trace looked all up in w. */
  ghost predicate Looked(w: World, o: Connection, t: ConnectionController.Trace) {
    && ConnectionController.HasInventory(w, o, t.inventory) && ConnectionController.HasDatabase(w, o, t.inventory, t.db)
    && ConnectionController.HasMaster(w, t.db, t.master)
  }

  lemma BoundLooked(q: Run, r: Run, x: Key, o: Connection, t: ConnectionController.Trace, w: World)
    requires ConnectionController.Bound(q, r, x, o, t) && ConnectionController.SeenIn(w, t)
    ensures Looked(w, o, t)
  {
  }

  /** The password of the binding of k is where k, as a DBInstance, keeps its own. */
  lemma SecretHolds(w: World, k: Key, d: DBInstance, m: Data)
    requires Binding.Bindable(d) && ConnectionController.MasterPassword(d, m).Some?
    requires Binding.SecretIs(w, k, ConnectionController.SecretFor(d, m))
    ensures HandOff.InSecret(w, k, ConnectionController.MasterPassword(d, m).value)
    ensures SecretFree(w, k)
  {
    Binding.DataSays(d, ConnectionController.MasterPassword(d, m).value);
  }

  lemma OfferedSame(w: World, w': World, ns: string, k: Key, n: Key)
    requires Offered(w, ns, k, n) && w'.dbs == w.dbs && w'.secrets - {CredentialOf(k)} == w.secrets - {CredentialOf(k)}
    ensures Offered(w', ns, k, n) && PasswordOf(w', ns, k, n) == PasswordOf(w, ns, k, n)
  {
    var ref := w.dbs[n].it.spec.masterUserPassword.value.secret;
    assert ref in (w.secrets - {CredentialOf(k)}) && ref in (w'.secrets - {CredentialOf(k)});
    assert (w'.secrets - {CredentialOf(k)})[ref] == w'.secrets[ref]
      && (w.secrets - {CredentialOf(k)})[ref] == w.secrets[ref];
    assert forall j <- w'.dbs :: IdOf(w', j) == IdOf(w, j);
  }

  /** Binding k leaves the rest as it was. */
  lemma StillPending(w: World, w': World, key: Key, k: Key)
    requires Pending(w, key, k) && Binding.OnlyBinding(w, w', k)
    requires w.inventories[key].it.credentialsRef != CredentialOf(k)
    ensures Pending(w', key, k)
  {
    var ref := w.inventories[key].it.credentialsRef;
    assert ref in (w.secrets - {CredentialOf(k)}) && ref in (w'.secrets - {CredentialOf(k)});
    assert (w'.secrets - {CredentialOf(k)})[ref] == w'.secrets[ref]
      && (w.secrets - {CredentialOf(k)})[ref] == w.secrets[ref];
    assert Adoption.DatabaseIds(w', key.ns) == Adoption.DatabaseIds(w, key.ns);
    assert Adoption.AdoptedIds(w', key.ns) == Adoption.AdoptedIds(w, key.ns);
    assert DatabasesIn(w', key.ns, true) == DatabasesIn(w, key.ns, true);
    forall i <- DatabasesIn(w', key.ns, true), j <- DatabasesIn(w', key.ns, true) | IdOf(w', i) == IdOf(w', j)
      ensures i == j
    {
      assert IdOf(w, i) == IdOf(w, j);
    }
  }

  lemma StillBindings(w: World, w': World, key: Key, k: Key, a: Key, b: Key)
    requires Bindings(w, key, k, a, b) && Binding.OnlyBinding(w, w', k) && SecretFree(w', k)
             && Binding.ConfigFree(w', k)
    ensures Bindings(w', key, k, a, b)
    ensures PasswordOf(w', key.ns, k, a) == PasswordOf(w, key.ns, k, a)
            && PasswordOf(w', key.ns, k, b) == PasswordOf(w, key.ns, k, b)
  {
    OfferedSame(w, w', key.ns, k, a);
    OfferedSame(w, w', key.ns, k, b);
  }

  lemma OfferedFilled(w: World, w': World, ns: string, k: Key, n: Key)
    requires Offered(w, ns, k, n) && DatabasesGain(w, w') && Gains(w.secrets, w'.secrets)
    ensures Offered(w', ns, k, n) && PasswordOf(w', ns, k, n) == PasswordOf(w, ns, k, n) && IdOf(w', n) == IdOf(w, n)
  {
    var d, d' := w.dbs[n].it, w'.dbs[n].it;
    var ref := d.spec.masterUserPassword.value.secret;
    assert SameDatabase(d, d') && SameSecret(w.secrets[ref].it, w'.secrets[ref].it);
    forall j <- w'.dbs | j.ns == ns && IdOf(w', j) == IdOf(w', n) ensures j == n {
      assert SameDatabase(w.dbs[j].it, w'.dbs[j].it);
    }
  }

  /** A successful pass over the inventory keeps what can be bound, and lists it. */
  lemma BindingsServed(w: World, w': World, key: Key, k: Key, a: Key, b: Key)
    requires Bindings(w, key, k, a, b) && OnlyFills(w, w') && Settled(w', key) && CredentialOf(k) in w.secrets
    ensures Bindings(w', key, k, a, b)
    ensures PasswordOf(w', key.ns, k, b) == PasswordOf(w, key.ns, k, b) && IdOf(w', b) == IdOf(w, b)
    ensures Presents(w', key, b)
  {
    hide Served, Listing.Describes, Gains, DatabasesGain, Offered, PasswordOf;
    OfferedFilled(w, w', key.ns, k, a);
    OfferedFilled(w, w', key.ns, k, b);
    StillFree(w, w', k);
    ListedName(w', key, k, b);
  }

  lemma StillFree(w: World, w': World, k: Key)
    requires Gains(w.secrets, w'.secrets) && CredentialOf(k) in w.secrets && SecretFree(w, k)
    ensures SecretFree(w', k)
  {
    assert SameSecret(w.secrets[CredentialOf(k)].it, w'.secrets[CredentialOf(k)].it);
  }

  lemma ListedName(w: World, key: Key, k: Key, n: Key)
    requires key in w.inventories && Listing.Describes(w.inventories[key].it.instances, w, key.ns)
             && Offered(w, key.ns, k, n)
    ensures ConnectionController.NameOf(w.inventories[key].it.instances, IdOf(w, n)) == Some(n.name)
  {
    var instances := w.inventories[key].it.instances;
    var e :| e in instances && e.name == n.name;
    assert Listing.Tells(w, key.ns, e);
    var name := ConnectionController.NameOf(instances, IdOf(w, n));
    var f :| f in instances && f.instanceID == IdOf(w, n) && f.name == name.value;
    assert Listing.Tells(w, key.ns, f);
  }

  /** The user lets the connection name b. */
  lemma Renamed(w: World, key: Key, k: Key, a: Key, b: Key, edit: Connection)
    requires Bindings(w, key, k, a, b) && edit == w.connections[k].it.(instanceID := IdOf(w, b))
    requires Presents(w, key, b)
    ensures Allowed(w, Outside, ConnectionTo(k, Some(edit)))
    ensures var w' := Apply(w, ConnectionTo(k, Some(edit)));
      && Bindings(w', key, k, a, b) && Targets(w', key, k, b)
      && PasswordOf(w', key.ns, k, b) == PasswordOf(w, key.ns, k, b)
      && OnlyConnections(w, w')
  {
    var w' := Apply(w, ConnectionTo(k, Some(edit)));
    ApplyTouches(w, ConnectionTo(k, Some(edit)));
    OfferedSame(w, w', key.ns, k, a);
    OfferedSame(w, w', key.ns, k, b);
  }

  // ------------------------------------------------------------- the passes

  // The passes are those of any cluster; what they do is said of quiet ones, without a
  // failed call, that begin in the situation above.

  ghost predicate MayBind(w: World, key: Key, k: Key, a: Key, b: Key, n: Key) {
    Bindings(w, key, k, a, b) && n in {a, b} && Targets(w, key, k, n)
  }

  /** A pass over the connection k, which names n, puts n's password where the
      DBInstance k keeps its own. */
  method Bind(c: Cluster, k: Key, ghost key: Key, ghost a: Key, ghost b: Key, ghost n: Key)
    requires c.Valid()
    modifies c
    ensures c.Valid() && c.outside >= old(c.outside) && c.faults >= old(c.faults)
    ensures MayBind(old(c.w), key, k, a, b, n) && c.faults == old(c.faults) && c.outside == old(c.outside) ==>
              && Binding.OnlyBinding(old(c.w), c.w, k) && Bindings(c.w, key, k, a, b)
              && PasswordOf(c.w, key.ns, k, a) == PasswordOf(old(c.w), key.ns, k, a)
              && PasswordOf(c.w, key.ns, k, b) == PasswordOf(old(c.w), key.ns, k, b)
              && HandOff.InSecret(c.w, k, PasswordOf(c.w, key.ns, k, n))
  {
    hide Bindings, Offered, PasswordOf, ConnectionController.Bound, ConnectionController.CanBind;
    hide Binding.OnlyBinding, HandOff.InSecret;
    ghost var begin, way := c.w, c.run;
    if MayBind(begin, key, k, a, b, n) { BindsTo(begin, key, k, a, b, n); }
    var requeue, err;
    ghost var judged, committed, trace;
    requeue, err, judged, committed, trace := ConnectionController.Reconcile(c, k);
    if MayBind(begin, key, k, a, b, n) && c.faults == old(c.faults) && c.outside == old(c.outside) {
      ghost var t := trace.value;
      BoundLooked(way, c.run, k, begin.connections[k].it, t, begin);
      ConnectionController.BoundMeans(way, c.run, k, begin.connections[k].it, t);
      SecretHolds(c.w, k, t.db, t.master);
      ConfigHolds(c.w, k, t.db);
      StillBindings(begin, c.w, key, k, a, b);
    }
  }

  lemma ConfigHolds(w: World, k: Key, d: DBInstance)
    requires Binding.HasEndpoint(d) && Binding.ConfigIs(w, k, Binding.ConfigData(d))
    ensures Binding.ConfigFree(w, k)
  {
  }

  /** The two states differ in connections only. */
  ghost predicate OnlyConnections(w: World, w': World) {
    && w'.inventories == w.inventories && w'.dbs == w.dbs && w'.adopted == w.adopted && w'.secrets == w.secrets
    && w'.deployment == w.deployment && w'.listing == w.listing
    && w'.awsPasswords == w.awsPasswords && w'.calls == w.calls
  }

  /** The user edits the connection k, if it is there, to name the identifier. */
  method Rename(c: Cluster, k: Key, id: string, ghost key: Key, ghost a: Key, ghost b: Key)
    requires c.Valid()
    modifies c
    ensures c.Valid() && c.outside == old(c.outside) && c.faults == old(c.faults)
    ensures Bindings(old(c.w), key, k, a, b) && id == IdOf(old(c.w), b)
            && Presents(old(c.w), key, b) ==>
              && MayBind(c.w, key, k, a, b, b) && PasswordOf(c.w, key.ns, k, b) == PasswordOf(old(c.w), key.ns, k, b)
              && OnlyConnections(old(c.w), c.w)
  {
    hide Offered, PasswordOf;
    if k in c.w.connections {
      var edit := c.w.connections[k].it.(instanceID := id);
      if Bindings(c.w, key, k, a, b) {
        BindingsMeans(c.w, key, k, a, b);
        if id == IdOf(c.w, b) && Presents(c.w, key, b) {
          Renamed(c.w, key, k, a, b, edit);
        }
      }
      c.Commit(Outside, ConnectionTo(k, Some(edit)));
    }
  }

  ghost predicate MayServe(w: World, key: Key, k: Key, a: Key, b: Key, password: string) {
    Bindings(w, key, k, a, b) && Pending(w, key, k) && HandOff.InSecret(w, k, password)
  }

  /** The DBInstance k was handed the password: it refers to it, and AWS has it. */
  ghost predicate WasHanded(w: World, k: Key, password: string) {
    HandOff.Refers(w, k) && HandOff.InSecret(w, k, password) && HandOff.Synced(w, k, IdOf(w, k))
  }

  /** A pass over the inventory hands k the password that is in the secret. */
  method Serve(c: Cluster, key: Key, ghost k: Key, ghost a: Key, ghost b: Key, ghost password: string)
    requires c.Valid()
    modifies c
    ensures c.Valid() && c.outside >= old(c.outside) && c.faults >= old(c.faults)
    ensures MayServe(old(c.w), key, k, a, b, password) && c.faults == old(c.faults) && c.outside == old(c.outside) ==>
              && Bindings(c.w, key, k, a, b) && PasswordOf(c.w, key.ns, k, b) == PasswordOf(old(c.w), key.ns, k, b)
              && IdOf(c.w, b) == IdOf(old(c.w), b) && WasHanded(c.w, k, password) && IdOf(c.w, k) == IdOf(old(c.w), k)
              && CallsStay(old(c.w), c.w)
              && Presents(c.w, key, b)
  {
    hide Bindings, Offered, PasswordOf, Settled, InventoryController.Succeeds, HandOff.Due, HandOff.OwnIdsIn,
      HandOff.Synced;
    ghost var begin := c.w;
    var requeue, err;
    ghost var judged, read;
    if Bindings(begin, key, k, a, b) { BindingsMeans(begin, key, k, a, b); }
    requeue, err, judged, read := InventoryController.Reconcile(c, key);
    if MayServe(begin, key, k, a, b, password) && c.faults == old(c.faults) && c.outside == old(c.outside) {
      SecretThere(begin, k, password);
      BindingsServed(begin, c.w, key, k, a, b);
      HandedTo(begin, c.w, key.ns, k, password);
    }
  }

  lemma SecretThere(w: World, k: Key, password: string)
    requires HandOff.InSecret(w, k, password)
    ensures CredentialOf(k) in w.secrets
  {
  }

  lemma BindingsMeans(w: World, key: Key, k: Key, a: Key, b: Key)
    requires Bindings(w, key, k, a, b)
    ensures key in w.inventories && k.ns == key.ns && a in w.dbs && b in w.dbs
    ensures w.inventories[key].it.credentialsRef != CredentialOf(k)
    ensures Offered(w, key.ns, k, a) && Offered(w, key.ns, k, b)
  {
  }

  lemma HandedTo(w: World, w': World, ns: string, k: Key, password: string)
    requires IsAdopted(w, k) && k.ns == ns && HandOff.Due(w.dbs[k].it) && HandOff.OwnIdsIn(w, ns)
    requires OnlyFills(w, w') && Tells(w, w', ns) && HandOff.InSecret(w, k, password)
    ensures HandOff.InSecret(w', k, password) && HandOff.Refers(w', k) && IsAdopted(w', k)
    ensures IdOf(w', k) == IdOf(w, k) && HandOff.Synced(w', k, IdOf(w', k))
  {
    assert k in DatabasesIn(w, ns, true);
    assert SameDatabase(w.dbs[k].it, w'.dbs[k].it);
    assert SameSecret(w.secrets[CredentialOf(k)].it, w'.secrets[CredentialOf(k)].it);
  }

  /** The adopted DBInstance k refers to a secret with another password than AWS has. */
  ghost predicate Stale(w: World, k: Key) {
    && HandOff.Refers(w, k) && HasPassword(w, CredentialOf(k)) && IdOf(w, k) in w.awsPasswords
    && w.awsPasswords[IdOf(w, k)] != PasswordAt(w, CredentialOf(k))
  }

  lemma BecomesStale(w: World, w': World, k: Key, password: string, other: string)
    requires WasHanded(w, k, password) && w'.dbs == w.dbs && w'.awsPasswords == w.awsPasswords
    requires HandOff.InSecret(w', k, other) && other != password
    ensures Stale(w', k)
  {
  }

  /** From every state in which they collide, passes of the two controllers without a
      failed call or interference, and one edit of the connection in between, leave the
      adopted DBInstance with a reference to a password that AWS does not have. */
  method ReferenceGoesStale(c: Cluster, key: Key, k: Key, b: Key, ghost a: Key)
    requires c.Valid() && Collides(c.w, key, k, a, b)
    modifies c
    ensures c.Valid() && c.outside >= old(c.outside) && c.faults >= old(c.faults)
    ensures c.faults == old(c.faults) && c.outside == old(c.outside) ==> Stale(c.w, k)
  {
    hide Bindings, Offered, PasswordOf, Pending, Stale, WasHanded, HandOff.InSecret, Targets, Presents;
    ghost var begin := c.w;
    BindingsMeans(begin, key, k, a, b);
    var id := c.w.dbs[b].it.spec.identifier;
    ghost var p, q := PasswordOf(begin, key.ns, k, a), PasswordOf(begin, key.ns, k, b);
    Bind(c, k, key, a, b, a);
    if c.faults == old(c.faults) && c.outside == old(c.outside) { StillPending(begin, c.w, key, k); }
    Serve(c, key, k, a, b, p);
    ghost var served := c.w;
    Rename(c, k, id, key, a, b);
    Bind(c, k, key, a, b, b);
    if c.faults == old(c.faults) && c.outside == old(c.outside) { BecomesStale(served, c.w, k, p, q); }
  }

  // ------------------------------------------------- two passwords for one DBInstance

  /** AWS was told the password on behalf of k. */
  ghost predicate WasTold(w: World, k: Key, password: string) {
    exists call <- w.calls :: call.db == k && call.password == password
  }

  /** A pass that hands k its password and then stops, because its update of the
      DBInstance does not come through: it has told AWS the password in the secret. */
  method TellOnly(c: Cluster, key: Key, k: Key, ghost a: Key, ghost b: Key, ghost password: string)
    requires c.Valid()
    modifies c
    ensures c.Valid() && c.outside >= old(c.outside) && c.faults >= old(c.faults)
    ensures MayServe(old(c.w), key, k, a, b, password) && c.faults == old(c.faults) && c.outside == old(c.outside) ==>
              && Bindings(c.w, key, k, a, b) && PasswordOf(c.w, key.ns, k, b) == PasswordOf(old(c.w), key.ns, k, b)
              && Pending(c.w, key, k) && c.w.dbs == old(c.w).dbs && c.w.inventories == old(c.w).inventories
              && WasTold(c.w, k, password)
  {
    hide Bindings, Offered, PasswordOf, Pending, WasTold, HandOff.InSecret, HandOff.InOrder, HandOff.Synced;
    hide HandOff.Working, FillsIn;
    ghost var begin := c.w;
    if k in c.w.dbs && c.w.dbs[k].it.adopted && c.w.dbs[k].it.spec.masterUserPassword.None? {
      c.Have(Versioning);
      c.Have(History);
      KeepsReflexive(InventoryWorker, begin);
      HandOff.WeakenListed(begin, begin);
      HandOff.RefsKnownOnRead(begin, begin);
      HandOff.ItemWorking(begin, {}, begin, k);
      var told := HandOff.Tell(c, k, c.w.dbs[k], begin, {});
      if MayServe(begin, key, k, a, b, password) && c.faults == old(c.faults) && c.outside == old(c.outside) {
        TellKeeps(begin, c.w, key, k, a, b, password);
        CalledWith(c.w, k, password);
      }
    } else if MayServe(begin, key, k, a, b, password) {
      PendingIsAdopted(begin, key, k);
    }
  }

  lemma PendingIsAdopted(w: World, key: Key, k: Key)
    requires Pending(w, key, k)
    ensures k in w.dbs && w.dbs[k].it.adopted && w.dbs[k].it.spec.masterUserPassword.None?
  {
  }

  lemma CalledWith(w: World, k: Key, password: string)
    requires k in w.dbs && HandOff.Synced(w, k, IdOf(w, k)) && HandOff.InSecret(w, k, password)
    ensures WasTold(w, k, password)
  {
    assert Call(k, IdOf(w, k), password) in w.calls;
  }

  lemma StillInSecret(w: World, w': World, k: Key, password: string)
    requires HandOff.InSecret(w, k, password) && Gains(w.secrets, w'.secrets)
    ensures HandOff.InSecret(w', k, password)
  {
    assert SameSecret(w.secrets[CredentialOf(k)].it, w'.secrets[CredentialOf(k)].it);
  }

  lemma StillServiceable(w: World, w': World, key: Key, k: Key)
    requires Pending(w, key, k) && FillsIn(w, w') && w'.dbs == w.dbs
    ensures Pending(w', key, k)
  {
    var ref := w.inventories[key].it.credentialsRef;
    SameInstallation(w.secrets[ref].it, w'.secrets[ref].it);
    assert Adoption.DatabaseIds(w', key.ns) == Adoption.DatabaseIds(w, key.ns);
    assert Adoption.AdoptedIds(w', key.ns) == Adoption.AdoptedIds(w, key.ns);
    assert DatabasesIn(w', key.ns, true) == DatabasesIn(w, key.ns, true);
    assert forall j <- DatabasesIn(w', key.ns, true) :: IdOf(w', j) == IdOf(w, j);
  }

  lemma TellKeeps(w: World, w': World, key: Key, k: Key, a: Key, b: Key, password: string)
    requires MayServe(w, key, k, a, b, password) && FillsIn(w, w') && w'.dbs == w.dbs
    ensures Bindings(w', key, k, a, b) && Pending(w', key, k) && w'.inventories == w.inventories
    ensures PasswordOf(w', key.ns, k, b) == PasswordOf(w, key.ns, k, b)
    ensures HandOff.InSecret(w', k, password)
  {
    hide Pending, Offered, PasswordOf, Gains;
    OfferedFilled(w, w', key.ns, k, a);
    OfferedFilled(w, w', key.ns, k, b);
    SecretThere(w, k, password);
    StillFree(w, w', k);
    StillInSecret(w, w', k, password);
    StillServiceable(w, w', key, k);
  }

  /** And one in which the first of them stops after it has told AWS: AWS is told two
      passwords for the one DBInstance. */
  method TwoPasswordsAreTold(c: Cluster, key: Key, k: Key, b: Key, ghost a: Key)
    requires c.Valid() && Collides(c.w, key, k, a, b)
    modifies c
    ensures c.Valid() && c.outside >= old(c.outside) && c.faults >= old(c.faults)
    ensures c.faults == old(c.faults) && c.outside == old(c.outside) ==>
              exists p, q :: p != q && WasTold(c.w, k, p) && WasTold(c.w, k, q)
  {
    hide Bindings, Offered, PasswordOf, Pending, WasHanded, WasTold, HandOff.InSecret, Targets, Presents,
      HandOff.OwnIdsIn;
    ghost var begin := c.w;
    BindingsMeans(begin, key, k, a, b);
    var id := c.w.dbs[b].it.spec.identifier;
    ghost var p, q := PasswordOf(begin, key.ns, k, a), PasswordOf(begin, key.ns, k, b);
    Bind(c, k, key, a, b, a);
    ghost var bound := c.w;
    if c.faults == old(c.faults) && c.outside == old(c.outside) { StillPending(begin, bound, key, k); }
    TellOnly(c, key, k, a, b, p);
    ghost var told := c.w;
    if c.faults == old(c.faults) && c.outside == old(c.outside) { StillLists(begin, told, key, b); }
    Rename(c, k, id, key, a, b);
    ghost var renamed := c.w;
    if c.faults == old(c.faults) && c.outside == old(c.outside) { RenamedPending(told, renamed, key, k); }
    Bind(c, k, key, a, b, b);
    ghost var again := c.w;
    if c.faults == old(c.faults) && c.outside == old(c.outside) {
      BindingsMeans(renamed, key, k, a, b);
      StillPending(renamed, again, key, k);
    }
    Serve(c, key, k, a, b, q);
    if c.faults == old(c.faults) && c.outside == old(c.outside) {
      ToldStays(told, c.w, k, p);
      WasHandedMeans(c.w, k, q);
    }
  }

  lemma ToldStays(w: World, w': World, k: Key, password: string)
    requires WasTold(w, k, password) && CallsStay(w, w')
    ensures WasTold(w', k, password)
  {
  }

  lemma WasHandedMeans(w: World, k: Key, password: string)
    requires WasHanded(w, k, password)
    ensures WasTold(w, k, password)
  {
    CalledWith(w, k, password);
  }

  lemma StillLists(w: World, w': World, key: Key, n: Key)
    requires Presents(w, key, n) && w'.inventories == w.inventories && w'.dbs == w.dbs
    ensures Presents(w', key, n)
  {
  }

  lemma RenamedPending(w: World, w': World, key: Key, k: Key)
    requires Pending(w, key, k) && OnlyConnections(w, w')
    ensures Pending(w', key, k)
  {
    assert Adoption.DatabaseIds(w', key.ns) == Adoption.DatabaseIds(w, key.ns);
    assert Adoption.AdoptedIds(w', key.ns) == Adoption.AdoptedIds(w, key.ns);
    assert DatabasesIn(w', key.ns, true) == DatabasesIn(w, key.ns, true);
    assert forall j <- DatabasesIn(w', key.ns, true) :: IdOf(w', j) == IdOf(w, j);
  }
}
