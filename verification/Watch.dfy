/** Which objects are reconciled when a DBInstance changes
    (getInstanceConnectionRequests, getInstanceInventoryRequests,
    getOwnerInstanceRequests), and that the mapping misses nobody. */
module Watch {
  import opened Wrappers
  import opened Store
  import opened Owner
  import opened World
  import ConnectionController
  import Listing

  /** The namespace in which a connection's inventory is taken to be. */
  function EffectiveNamespace(x: Key, c: Connection): string {
    if |c.inventoryRef.ns| > 0 then c.inventoryRef.ns else x.ns
  }

  /** The connection x is for the DBInstance k. */
  predicate IsFor(w: World, x: Key, k: Key)
    requires k in w.dbs
  {
    && x in w.connections && w.connections[x].it.instanceID == w.dbs[k].it.spec.identifier
    && EffectiveNamespace(x, w.connections[x].it) == k.ns
  }

  /** The connections indexed under an identifier. */
  function Indexed(w: World, id: string): set<Key> {
    set x | x in w.connections && w.connections[x].it.instanceID == id
  }

  /** The requests of an event on the DBInstance k: each connection that is for it,
      once; none when the list could not be read. */
  method ConnectionRequests(w: World, k: Key, failed: bool) returns (requests: seq<Key>)
    requires k in w.dbs
    ensures forall x :: x in requests <==> !failed && IsFor(w, x, k)
    ensures forall i, j :: 0 <= i < j < |requests| ==> requests[i] != requests[j]
  {
    requests := [];
    if failed { return; }
    var id := w.dbs[k].it.spec.identifier;
    var items := Enumerate(w.connections, Indexed(w, id));
    for i := 0 to |items|
      invariant forall x :: x in requests <==> exists j :: 0 <= j < i && items[j].0 == x && IsFor(w, x, k)
      invariant forall i, j :: 0 <= i < j < |requests| ==> requests[i] != requests[j]
    {
      var (x, c) := items[i];
      var matches := false;
      if |c.it.inventoryRef.ns| > 0 {
        if c.it.inventoryRef.ns == k.ns { matches := true; }
      } else {
        if x.ns == k.ns { matches := true; }
      }
      assert matches <==> IsFor(w, x, k);
      if matches {
        assert x !in requests;
        requests := requests + [x];
      }
    }
    forall x | IsFor(w, x, k) ensures x in requests {
      assert x in Indexed(w, id);
    }
  }

  /** What the connection controller looks up for connection x: through the list of
      its inventory to the DBInstance k. */
  ghost predicate Resolves(w: World, x: Key, k: Key) {
    && x in w.connections
    && var c := w.connections[x].it;
    && c.inventoryRef in w.inventories
    && var name := ConnectionController.NameOf(w.inventories[c.inventoryRef].it.instances, c.instanceID);
    && name.Some? && k == Key(c.inventoryRef.ns, name.value) && k in w.dbs
  }

  /** The inventory of connection x lists its DBInstances as they are. */
  ghost predicate InSync(w: World, x: Key) {
    && x in w.connections && w.connections[x].it.inventoryRef in w.inventories
    && var ref := w.connections[x].it.inventoryRef;
       Listing.Describes(w.inventories[ref].it.instances, w, ref.ns)
  }

  /** Whenever the forward lookup of a connection resolves to a DBInstance, through
      a list that is in sync, an event on that DBInstance is for the connection;
      the one thing needed is that the reference names its namespace (the API
      server keeps no object in a namespace without a name). */
  lemma EventsReachConnections(w: World, x: Key, k: Key)
    requires Resolves(w, x, k) && InSync(w, x)
    ensures IsFor(w, x, k) <==> (k.ns != "" || x.ns == "")
  {
    var c := w.connections[x].it;
    var instances := w.inventories[c.inventoryRef].it.instances;
    var name := ConnectionController.NameOf(instances, c.instanceID).value;
    var e :| e in instances && e.instanceID == c.instanceID && e.name == name;
    assert Listing.Tells(w, c.inventoryRef.ns, e);
  }

  /** Conversely, as long as no two DBInstances of the namespace share the
      identifier, only connections that resolve to the DBInstance get its events. */
  lemma EventsAreForConnections(w: World, x: Key, k: Key)
    requires InSync(w, x) && k in w.dbs && w.connections[x].it.inventoryRef.ns != ""
    requires forall j <- w.dbs :: j.ns == k.ns && w.dbs[j].it.spec.identifier == w.dbs[k].it.spec.identifier ==> j == k
    requires IsFor(w, x, k)
    ensures Resolves(w, x, k)
  {
    var c := w.connections[x].it;
    var instances := w.inventories[c.inventoryRef].it.instances;
    var d :| d in instances && d.name == k.name;
    assert Listing.Tells(w, k.ns, d);
    var name := ConnectionController.NameOf(instances, c.instanceID).value;
    var e :| e in instances && e.instanceID == c.instanceID && e.name == name;
    assert Listing.Tells(w, k.ns, e);
  }

  /** The requests of the same event for inventories: those of its namespace. */
  method InventoryRequests(w: World, k: Key, failed: bool) returns (requests: seq<Key>)
    ensures forall i :: i in requests <==> !failed && i in w.inventories && i.ns == k.ns
    ensures forall i, j :: 0 <= i < j < |requests| ==> requests[i] != requests[j]
  {
    requests := [];
    if failed { return; }
    var items := Enumerate(w.inventories, InNamespace(w.inventories, k.ns));
    for i := 0 to |items|
      invariant |requests| == i && forall j :: 0 <= j < i ==> requests[j] == items[j].0
    {
      requests := requests + [items[i].0];
    }
    forall i | i in w.inventories && i.ns == k.ns ensures i in requests {
      assert i in InNamespace(w.inventories, k.ns);
      var j :| 0 <= j < |items| && items[j].0 == i;
      assert requests[j] == i;
    }
  }

  /** And for RDSInstances: the one that provisions it. */
  lemma ProvisionerIsRequested(d: DBInstance, x: Key)
    requires '/' !in x.ns && d.annotations == SetOwner(d.annotations, InstanceType(), x)
    ensures OwnerInstanceRequests(d.annotations) == [x]
  {
    OwnerRoundTrip(d.annotations, InstanceType(), x);
  }
}
