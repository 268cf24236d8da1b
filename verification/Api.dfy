/** The cluster and AWS as the controllers call them. Every call may fail, may
    lose only its reply, and lets any number of other parties act before it
    returns. */
module Api {
  import opened Wrappers
  import opened Store
  import opened Conditions
  import opened Owner
  import opened Database
  import opened World
  import opened Protocol
  import opened Runs
  import opened Interference

  function InventoryStatusOf(stored: Inventory, o: Inventory): Inventory {
    stored.(conditions := o.conditions, instances := o.instances)
  }

  function InstanceStatusOf(stored: Instance, o: Instance): Instance {
    stored.(status := o.status)
  }

  function ConnectionStatusOf(stored: Connection, o: Connection): Connection {
    stored.(status := o.status)
  }

  function DatabasesIn(w: World, ns: string, labelled: bool): set<Key> {
    set k | k in w.dbs && k.ns == ns && (labelled ==> w.dbs[k].it.adopted)
  }

  function Concat(pages: seq<seq<AwsInstance>>): seq<AwsInstance> {
    if pages == [] then [] else Concat(pages[..|pages| - 1]) + pages[|pages| - 1]
  }

  lemma ConcatAppends(pages: seq<seq<AwsInstance>>, page: seq<AwsInstance>)
    ensures Concat(pages + [page]) == Concat(pages) + page
  {
    assert (pages + [page])[..|pages|] == pages;
  }

  class Cluster {
    var w: World
    // How w came about.
    ghost var run: Run
    // Calls that reported an error, other than reads that found nothing.
    ghost var faults: nat
    // Changes made by others.
    ghost var outside: nat
    // Writes the controllers asked for, other than to a status.
    ghost var writes: nat
    // The state right after the last request took effect or was turned down, and
    // the run up to it.
    ghost var hit: World
    ghost var moment: Run

    ghost predicate Valid()
      reads this
    {
      Reaches(run, w)
    }

    /** Every aspect of the invariant holds now. */
    lemma Have(a: Aspect)
      requires Valid()
      ensures Holds(a, w)
    {
      ReachedHolds(run, w, a);
    }

    /** The stretch of the run that begins now goes through the present state. */
    lemma Begins()
      requires Valid()
      ensures Follows(run, run) && Past(run, Moment(run, w), run)
    {
      FollowsSelf(run);
    }

    /** Since the state `at`, only others acted, and if the count of their
        changes is still n, nobody did. */
    ghost predicate Since(me: Actor, at: World, n: nat)
      reads this
    {
      Rely(me, at, w) && n <= outside && (n == outside ==> w == at)
    }

    /** The last request was answered in a state since the run q. */
    ghost predicate Went(q: Run)
      reads this
    {
      Past(q, Moment(moment, hit), run) && Follows(q, run)
    }

    /** The state the last request left. */
    ghost function Last(): Moment
      reads this
    {
      Moment(moment, hit)
    }

    /** One allowed change takes effect. */
    method Commit(me: Actor, c: Change)
      requires Valid() && Allowed(w, me, c)
      modifies this`w, this`run
      ensures Valid() && w == Apply(old(w), c) && Follows(old(run), run)
    {
      FollowsNext(run, me, c);
      ReachesNext(run, w, me, c);
      w := Apply(w, c);
      run := Then(run, me, c);
    }

    /** Someone else makes one change, if it is allowed. */
    method LetOtherAct(me: Actor, who: Actor, c: Change)
      requires Valid() && who != me && who != Startup
      modifies this`w, this`run, this`outside
      ensures Valid() && Rely(me, old(w), w) && Follows(old(run), run)
      ensures outside >= old(outside) && (outside == old(outside) ==> w == old(w))
    {
      KeepsReflexive(me, w);
      FollowsSelf(run);
      if Allowed(w, who, c) {
        Have(Versioning);
        Have(History);
        OthersMayRely(me, w, who, c);
        Commit(who, c);
        outside := outside + 1;
      }
    }

    /** Others act, any number of times, while `me` waits. */
    method Interfere(me: Actor)
      requires Valid()
      modifies this`w, this`run, this`outside
      ensures Valid() && Since(me, old(w), old(outside)) && Follows(old(run), run)
    {
      KeepsReflexive(me, w);
      FollowsSelf(run);
      var n: int := *;
      while n > 0
        invariant Valid() && Since(me, old(w), old(outside)) && Follows(old(run), run)
      {
        n := n - 1;
        var who: Actor := *;
        var c: Change := *;
        if who != me && who != Startup {
          ghost var before, way := w, run;
          LetOtherAct(me, who, c);
          KeepsTransitive(me, {}, {}, {}, old(w), before, w);
          FollowsOn(old(run), way, run);
        }
      }
    }

    /** A call that reads: it may fail, and others act before it returns. */
    method Read(me: Actor) returns (failed: bool)
      requires Valid()
      modifies this
      ensures Valid() && Went(old(run)) && Since(me, old(w), old(outside)) && writes == old(writes) && hit == old(w)
      ensures faults == old(faults) + (if failed then 1 else 0)
    {
      FollowsSelf(run);
      failed := *;
      if failed { faults := faults + 1; }
      hit, moment := w, run;
      Interfere(me);
    }

    /** A call that is turned down before it changes anything. */
    method Refuse(me: Actor)
      requires Valid()
      modifies this
      ensures Valid() && Went(old(run)) && Since(me, old(w), old(outside)) && writes == old(writes) && hit == old(w)
      ensures Refused(old(w), old(faults))
    {
      FollowsSelf(run);
      faults := faults + 1;
      hit, moment := w, run;
      Interfere(me);
    }

    /** A request that reached the server took effect and said so, or failed, in
        which case it may have taken effect all the same. */
    ghost predicate Wrote(before: World, f: nat, c: Change, failed: bool)
      reads this
    {
      && faults == f + (if failed then 1 else 0)
      && (After(before, c, hit) || (failed && hit == before))
    }

    /** A request that was turned down. */
    ghost predicate Refused(before: World, f: nat)
      reads this
    {
      faults == f + 1 && hit == before
    }

    /** The request itself: it takes effect, or fails, or only its reply is lost. */
    method Attempt(me: Actor, c: Change) returns (failed: bool)
      requires Valid() && Allowed(w, me, c)
      modifies this
      ensures Valid() && outside == old(outside) && writes == old(writes) + 1
      ensures Wrote(old(w), old(faults), c, failed) && w == hit && run == moment && Follows(old(run), run)
      ensures Keeps(me, Disturbs(c), old(w), w)
    {
      hide Allowed, Apply, Touches, After, Follows, Disturbs, Versions, Records, Keeps;
      ApplyTouches(w, c);
      TouchesIsAfter(w, c, Apply(w, c));
      Have(Versioning);
      Have(History);
      OwnMayRely(me, w, c);
      KeepsReflexive(me, w, Disturbs(c));
      FollowsSelf(run);
      failed := *;
      writes := writes + 1;
      var lost: bool := *;
      if failed { faults := faults + 1; }
      if !failed || lost { Commit(me, c); }
      hit, moment := w, run;
    }

    /** A call that writes, in full: others act before it returns. */
    method Write(me: Actor, c: Change) returns (failed: bool)
      requires Valid() && Allowed(w, me, c)
      modifies this
      ensures Valid() && Went(old(run)) && Since(me, hit, old(outside)) && writes == old(writes) + 1
      ensures Wrote(old(w), old(faults), c, failed)
      ensures Keeps(me, Disturbs(c), old(w), w) && Keeps(me, Disturbs(c), old(w), hit)
    {
      failed := Attempt(me, c);
      Interfere(me);
      FollowsOn(old(run), moment, run);
      KeepsTransitive(me, Disturbs(c), {}, Disturbs(c), old(w), hit, w);
    }

    // -------------------------------------------------- the operator's own kinds

    method GetInventory(me: Actor, k: Key) returns (r: Result<Obj<Inventory>>)
      requires Valid()
      modifies this
      ensures Valid() && Went(old(run)) && Since(me, old(w), old(outside)) && writes == old(writes) && hit == old(w)
      ensures match r
              case Ok(o) => faults == old(faults) && k in old(w).inventories && o == old(w).inventories[k]
              case Err(e) => if e == NotFound then faults == old(faults) && k !in old(w).inventories
                             else e == Failed && faults == old(faults) + 1
    {
      r := if k in w.inventories then Ok(w.inventories[k]) else Err(NotFound);
      var failed := Read(me);
      if failed { r := Err(Failed); }
    }

    method UpdateInventory(me: Actor, k: Key, o: Obj<Inventory>) returns (r: Result<Obj<Inventory>>)
      requires Valid()
      requires Current(w.inventories, k, o) ==> Allowed(w, me, InventoryTo(k, Some(o.it)))
      modifies this
      ensures Valid() && Went(old(run)) && Since(me, hit, old(outside)) && writes == old(writes) + 1
      ensures Keeps(me, {Finalizers, Claims}, old(w), w)
      ensures r.Err? && r.error != Failed ==>
                && r.error == (if k in old(w).inventories then Conflict else NotFound)
                && Refused(old(w), old(faults))
      ensures r.Ok? || r.error == Failed ==>
                && Current(old(w).inventories, k, o)
                && Wrote(old(w), old(faults), InventoryTo(k, Some(o.it)), r.Err?)
      ensures r.Ok? ==> r.value == Stored(old(w).inventories, k, o.it, old(w).clock)
    {
      if !Current(w.inventories, k, o) {
        r := Err(if k in w.inventories then Conflict else NotFound);
        writes := writes + 1;
        Refuse(me);
      } else {
        r := Ok(Stored(w.inventories, k, o.it, w.clock));
        var failed := Write(me, InventoryTo(k, Some(o.it)));
        if failed { r := Err(Failed); }
      }
    }

    /** Status().Update: only the status of `o` counts, and writing what is
        already there is no change. */
    method UpdateInventoryStatus(me: Actor, k: Key, o: Obj<Inventory>) returns (r: Result<Obj<Inventory>>)
      requires Valid()
      requires Current(w.inventories, k, o) ==>
               Allowed(w, me, InventoryTo(k, Some(InventoryStatusOf(w.inventories[k].it, o.it))))
      modifies this
      ensures Valid() && Went(old(run)) && Since(me, hit, old(outside)) && writes == old(writes)
      ensures Keeps(me, {Finalizers, Claims}, old(w), w)
      ensures r.Err? && r.error != Failed ==>
                && r.error == (if k in old(w).inventories then Conflict else NotFound)
                && Refused(old(w), old(faults))
      ensures r.Ok? || r.error == Failed ==> Current(old(w).inventories, k, o)
      ensures r.Ok? ==>
                var it := InventoryStatusOf(old(w).inventories[k].it, o.it);
                if it == old(w).inventories[k].it
                then faults == old(faults) && hit == old(w) && r.value == old(w).inventories[k]
                else Wrote(old(w), old(faults), InventoryTo(k, Some(it)), false)
                     && r.value == Stored(old(w).inventories, k, it, old(w).clock)
      ensures r.Err? && r.error == Failed ==>
                Wrote(old(w), old(faults), InventoryTo(k, Some(InventoryStatusOf(old(w).inventories[k].it, o.it))),
                  true)
    {
      if !Current(w.inventories, k, o) {
        r := Err(if k in w.inventories then Conflict else NotFound);
        Refuse(me);
      } else {
        var it := InventoryStatusOf(w.inventories[k].it, o.it);
        if it == w.inventories[k].it {
          r := Ok(w.inventories[k]);
          var failed := Read(me);
          if failed { r := Err(Failed); }
        } else {
          r := Ok(Stored(w.inventories, k, it, w.clock));
          var failed := Write(me, InventoryTo(k, Some(it)));
          if failed { r := Err(Failed); }
          writes := writes - 1;
        }
      }
    }

    method GetInstance(me: Actor, k: Key) returns (r: Result<Obj<Instance>>)
      requires Valid()
      modifies this
      ensures Valid() && Went(old(run)) && Since(me, old(w), old(outside)) && writes == old(writes) && hit == old(w)
      ensures match r
              case Ok(o) => faults == old(faults) && k in old(w).instances && o == old(w).instances[k]
              case Err(e) => if e == NotFound then faults == old(faults) && k !in old(w).instances
                             else e == Failed && faults == old(faults) + 1
    {
      r := if k in w.instances then Ok(w.instances[k]) else Err(NotFound);
      var failed := Read(me);
      if failed { r := Err(Failed); }
    }

    method UpdateInstance(me: Actor, k: Key, o: Obj<Instance>) returns (r: Result<Obj<Instance>>)
      requires Valid()
      requires Current(w.instances, k, o) ==> Allowed(w, me, InstanceTo(k, Some(o.it)))
      modifies this
      ensures Valid() && Went(old(run)) && Since(me, hit, old(outside)) && writes == old(writes) + 1
      ensures Keeps(me, {Instances, Claims}, old(w), w)
      ensures r.Err? && r.error != Failed ==>
                && r.error == (if k in old(w).instances then Conflict else NotFound)
                && Refused(old(w), old(faults))
      ensures r.Ok? || r.error == Failed ==>
                && Current(old(w).instances, k, o)
                && Wrote(old(w), old(faults), InstanceTo(k, Some(o.it)), r.Err?)
      ensures r.Ok? ==> r.value == Stored(old(w).instances, k, o.it, old(w).clock)
    {
      if !Current(w.instances, k, o) {
        r := Err(if k in w.instances then Conflict else NotFound);
        writes := writes + 1;
        Refuse(me);
      } else {
        r := Ok(Stored(w.instances, k, o.it, w.clock));
        var failed := Write(me, InstanceTo(k, Some(o.it)));
        if failed { r := Err(Failed); }
      }
    }

    /** Status().Update: only the status of `o` counts, and writing what is
        already there is no change. */
    method UpdateInstanceStatus(me: Actor, k: Key, o: Obj<Instance>) returns (r: Result<Obj<Instance>>)
      requires Valid()
      requires Current(w.instances, k, o) ==>
               Allowed(w, me, InstanceTo(k, Some(InstanceStatusOf(w.instances[k].it, o.it))))
      modifies this
      ensures Valid() && Went(old(run)) && Since(me, hit, old(outside)) && writes == old(writes)
      ensures Keeps(me, {Instances, Claims}, old(w), w)
      ensures r.Err? && r.error != Failed ==>
                && r.error == (if k in old(w).instances then Conflict else NotFound)
                && Refused(old(w), old(faults))
      ensures r.Ok? || r.error == Failed ==> Current(old(w).instances, k, o)
      ensures r.Ok? ==>
                var it := InstanceStatusOf(old(w).instances[k].it, o.it);
                if it == old(w).instances[k].it
                then faults == old(faults) && hit == old(w) && r.value == old(w).instances[k]
                else Wrote(old(w), old(faults), InstanceTo(k, Some(it)), false)
                     && r.value == Stored(old(w).instances, k, it, old(w).clock)
      ensures r.Err? && r.error == Failed ==>
                Wrote(old(w), old(faults), InstanceTo(k, Some(InstanceStatusOf(old(w).instances[k].it, o.it))), true)
    {
      if !Current(w.instances, k, o) {
        r := Err(if k in w.instances then Conflict else NotFound);
        Refuse(me);
      } else {
        var it := InstanceStatusOf(w.instances[k].it, o.it);
        if it == w.instances[k].it {
          r := Ok(w.instances[k]);
          var failed := Read(me);
          if failed { r := Err(Failed); }
        } else {
          r := Ok(Stored(w.instances, k, it, w.clock));
          var failed := Write(me, InstanceTo(k, Some(it)));
          if failed { r := Err(Failed); }
          writes := writes - 1;
        }
      }
    }

    method GetConnection(me: Actor, k: Key) returns (r: Result<Obj<Connection>>)
      requires Valid()
      modifies this
      ensures Valid() && Went(old(run)) && Since(me, old(w), old(outside)) && writes == old(writes) && hit == old(w)
      ensures match r
              case Ok(o) => faults == old(faults) && k in old(w).connections && o == old(w).connections[k]
              case Err(e) => if e == NotFound then faults == old(faults) && k !in old(w).connections
                             else e == Failed && faults == old(faults) + 1
    {
      r := if k in w.connections then Ok(w.connections[k]) else Err(NotFound);
      var failed := Read(me);
      if failed { r := Err(Failed); }
    }

    /** Status().Update: only the status of `o` counts, and writing what is
        already there is no change. */
    method UpdateConnectionStatus(me: Actor, k: Key, o: Obj<Connection>) returns (r: Result<Obj<Connection>>)
      requires Valid()
      requires Current(w.connections, k, o) ==>
               Allowed(w, me, ConnectionTo(k, Some(ConnectionStatusOf(w.connections[k].it, o.it))))
      modifies this
      ensures Valid() && Went(old(run)) && Since(me, hit, old(outside)) && writes == old(writes)
      ensures Keeps(me, {Claims}, old(w), w)
      ensures r.Err? && r.error != Failed ==>
                && r.error == (if k in old(w).connections then Conflict else NotFound)
                && Refused(old(w), old(faults))
      ensures r.Ok? || r.error == Failed ==> Current(old(w).connections, k, o)
      ensures r.Ok? ==>
                var it := ConnectionStatusOf(old(w).connections[k].it, o.it);
                if it == old(w).connections[k].it
                then faults == old(faults) && hit == old(w) && r.value == old(w).connections[k]
                else Wrote(old(w), old(faults), ConnectionTo(k, Some(it)), false)
                     && r.value == Stored(old(w).connections, k, it, old(w).clock)
      ensures r.Err? && r.error == Failed ==>
                Wrote(old(w), old(faults), ConnectionTo(k, Some(ConnectionStatusOf(old(w).connections[k].it, o.it))),
                  true)
    {
      if !Current(w.connections, k, o) {
        r := Err(if k in w.connections then Conflict else NotFound);
        Refuse(me);
      } else {
        var it := ConnectionStatusOf(w.connections[k].it, o.it);
        if it == w.connections[k].it {
          r := Ok(w.connections[k]);
          var failed := Read(me);
          if failed { r := Err(Failed); }
        } else {
          r := Ok(Stored(w.connections, k, it, w.clock));
          var failed := Write(me, ConnectionTo(k, Some(it)));
          if failed { r := Err(Failed); }
          writes := writes - 1;
        }
      }
    }

    // --------------------------------------------- DBInstances, secrets, config maps

    method GetDatabase(me: Actor, k: Key) returns (r: Result<Obj<DBInstance>>)
      requires Valid()
      modifies this
      ensures Valid() && Went(old(run)) && Since(me, old(w), old(outside)) && writes == old(writes) && hit == old(w)
      ensures match r
              case Ok(o) => faults == old(faults) && k in old(w).dbs && o == old(w).dbs[k]
              case Err(e) => if e == NotFound then faults == old(faults) && k !in old(w).dbs
                             else e == Failed && faults == old(faults) + 1
    {
      r := if k in w.dbs then Ok(w.dbs[k]) else Err(NotFound);
      var failed := Read(me);
      if failed { r := Err(Failed); }
    }

    method CreateDatabase(me: Actor, k: Key, it: DBInstance) returns (r: Result<Obj<DBInstance>>)
      requires Valid()
      requires k !in w.dbs ==> Allowed(w, me, DatabaseTo(k, Some(it)))
      modifies this
      ensures Valid() && Went(old(run)) && Since(me, hit, old(outside)) && writes == old(writes) + 1
      ensures Keeps(me, {AddedReferences, Provisions}, old(w), w)
      ensures r.Err? && r.error != Failed ==>
                r.error == AlreadyExists && k in old(w).dbs && Refused(old(w), old(faults))
      ensures r.Ok? || r.error == Failed ==>
                k !in old(w).dbs && Wrote(old(w), old(faults), DatabaseTo(k, Some(it)), r.Err?)
      ensures r.Ok? ==> r.value == Stored(old(w).dbs, k, it, old(w).clock)
    {
      if k in w.dbs {
        r := Err(AlreadyExists);
        writes := writes + 1;
        Refuse(me);
      } else {
        r := Ok(Stored(w.dbs, k, it, w.clock));
        var failed := Write(me, DatabaseTo(k, Some(it)));
        if failed { r := Err(Failed); }
      }
    }

    method UpdateDatabase(me: Actor, k: Key, o: Obj<DBInstance>) returns (r: Result<Obj<DBInstance>>)
      requires Valid()
      requires Current(w.dbs, k, o) ==> Allowed(w, me, DatabaseTo(k, Some(o.it)))
      modifies this
      ensures Valid() && Went(old(run)) && Since(me, hit, old(outside)) && writes == old(writes) + 1
      ensures Keeps(me, {AddedReferences, Provisions}, old(w), w)
      ensures r.Err? && r.error != Failed ==>
                && r.error == (if k in old(w).dbs then Conflict else NotFound)
                && Refused(old(w), old(faults))
      ensures r.Ok? || r.error == Failed ==>
                && Current(old(w).dbs, k, o)
                && Wrote(old(w), old(faults), DatabaseTo(k, Some(o.it)), r.Err?)
      ensures r.Ok? ==> r.value == Stored(old(w).dbs, k, o.it, old(w).clock)
    {
      if !Current(w.dbs, k, o) {
        r := Err(if k in w.dbs then Conflict else NotFound);
        writes := writes + 1;
        Refuse(me);
      } else {
        r := Ok(Stored(w.dbs, k, o.it, w.clock));
        var failed := Write(me, DatabaseTo(k, Some(o.it)));
        if failed { r := Err(Failed); }
      }
    }

    /** Delete: the object is marked, and goes when its other finalizers allow. */
    method DeleteDatabase(me: Actor, k: Key) returns (e: Option<Error>)
      requires Valid()
      requires k in w.dbs ==> Allowed(w, me, DatabaseTo(k, Some(w.dbs[k].it.(deleting := true))))
      modifies this
      ensures Valid() && Went(old(run)) && Since(me, hit, old(outside)) && writes == old(writes) + 1
      ensures Keeps(me, {AddedReferences, Provisions}, old(w), w)
      ensures if k in old(w).dbs
              then Wrote(old(w), old(faults), DatabaseTo(k, Some(old(w).dbs[k].it.(deleting := true))), e.Some?)
              else e == Some(NotFound) && Refused(old(w), old(faults))
    {
      if k in w.dbs {
        var failed := Write(me, DatabaseTo(k, Some(w.dbs[k].it.(deleting := true))));
        e := if failed then Some(Failed) else None;
      } else {
        e := Some(NotFound);
        writes := writes + 1;
        Refuse(me);
      }
    }

    /** The DBInstances of a namespace, or only those with the adopted label. */
    method ListDatabases(me: Actor, ns: string, labelled: bool) returns (r: Result<seq<(Key, Obj<DBInstance>)>>)
      requires Valid()
      modifies this
      ensures Valid() && Went(old(run)) && Since(me, old(w), old(outside)) && writes == old(writes) && hit == old(w)
      ensures match r
              case Ok(items) => faults == old(faults) && Lists(items, old(w).dbs, DatabasesIn(old(w), ns, labelled))
              case Err(e) => e == Failed && faults == old(faults) + 1
    {
      var items := Enumerate(w.dbs, DatabasesIn(w, ns, labelled));
      r := Ok(items);
      var failed := Read(me);
      if failed { r := Err(Failed); }
    }

    method GetSecret(me: Actor, k: Key) returns (r: Result<Obj<Data>>)
      requires Valid()
      modifies this
      ensures Valid() && Went(old(run)) && Since(me, old(w), old(outside)) && writes == old(writes) && hit == old(w)
      ensures match r
              case Ok(o) => faults == old(faults) && k in old(w).secrets && o == old(w).secrets[k]
              case Err(e) => if e == NotFound then faults == old(faults) && k !in old(w).secrets
                             else e == Failed && faults == old(faults) + 1
    {
      r := if k in w.secrets then Ok(w.secrets[k]) else Err(NotFound);
      var failed := Read(me);
      if failed { r := Err(Failed); }
    }

    method CreateSecret(me: Actor, k: Key, it: Data) returns (r: Result<Obj<Data>>)
      requires Valid()
      requires k !in w.secrets ==> Allowed(w, me, SecretTo(k, Some(it)))
      modifies this
      ensures Valid() && Went(old(run)) && Since(me, hit, old(outside)) && writes == old(writes) + 1
      ensures Rely(me, old(w), w) && Rely(me, old(w), hit)
      ensures r.Err? && r.error != Failed ==>
                r.error == AlreadyExists && k in old(w).secrets && Refused(old(w), old(faults))
      ensures r.Ok? || r.error == Failed ==>
                k !in old(w).secrets && Wrote(old(w), old(faults), SecretTo(k, Some(it)), r.Err?)
      ensures r.Ok? ==> r.value == Stored(old(w).secrets, k, it, old(w).clock)
    {
      if k in w.secrets {
        r := Err(AlreadyExists);
        writes := writes + 1;
        Refuse(me);
      } else {
        r := Ok(Stored(w.secrets, k, it, w.clock));
        var failed := Write(me, SecretTo(k, Some(it)));
        if failed { r := Err(Failed); }
      }
    }

    method UpdateSecret(me: Actor, k: Key, o: Obj<Data>) returns (r: Result<Obj<Data>>)
      requires Valid()
      requires Current(w.secrets, k, o) ==> Allowed(w, me, SecretTo(k, Some(o.it)))
      modifies this
      ensures Valid() && Went(old(run)) && Since(me, hit, old(outside)) && writes == old(writes) + 1
      ensures Rely(me, old(w), w) && Rely(me, old(w), hit)
      ensures r.Err? && r.error != Failed ==>
                && r.error == (if k in old(w).secrets then Conflict else NotFound)
                && Refused(old(w), old(faults))
      ensures r.Ok? || r.error == Failed ==>
                && Current(old(w).secrets, k, o)
                && Wrote(old(w), old(faults), SecretTo(k, Some(o.it)), r.Err?)
      ensures r.Ok? ==> r.value == Stored(old(w).secrets, k, o.it, old(w).clock)
    {
      hide Allowed, After, Keeps, Follows, Past;
      if !Current(w.secrets, k, o) {
        r := Err(if k in w.secrets then Conflict else NotFound);
        writes := writes + 1;
        KeepsReflexive(me, w);
        Refuse(me);
      } else {
        r := Ok(Stored(w.secrets, k, o.it, w.clock));
        var failed := Write(me, SecretTo(k, Some(o.it)));
        if failed { r := Err(Failed); }
      }
    }

    method GetConfig(me: Actor, k: Key) returns (r: Result<Obj<Data>>)
      requires Valid()
      modifies this
      ensures Valid() && Went(old(run)) && Since(me, old(w), old(outside)) && writes == old(writes) && hit == old(w)
      ensures match r
              case Ok(o) => faults == old(faults) && k in old(w).configs && o == old(w).configs[k]
              case Err(e) => if e == NotFound then faults == old(faults) && k !in old(w).configs
                             else e == Failed && faults == old(faults) + 1
    {
      r := if k in w.configs then Ok(w.configs[k]) else Err(NotFound);
      var failed := Read(me);
      if failed { r := Err(Failed); }
    }

    method CreateConfig(me: Actor, k: Key, it: Data) returns (r: Result<Obj<Data>>)
      requires Valid()
      requires k !in w.configs ==> Allowed(w, me, ConfigTo(k, Some(it)))
      modifies this
      ensures Valid() && Went(old(run)) && Since(me, hit, old(outside)) && writes == old(writes) + 1
      ensures Keeps(me, {}, old(w), w)
      ensures r.Err? && r.error != Failed ==>
                r.error == AlreadyExists && k in old(w).configs && Refused(old(w), old(faults))
      ensures r.Ok? || r.error == Failed ==>
                k !in old(w).configs && Wrote(old(w), old(faults), ConfigTo(k, Some(it)), r.Err?)
      ensures r.Ok? ==> r.value == Stored(old(w).configs, k, it, old(w).clock)
    {
      if k in w.configs {
        r := Err(AlreadyExists);
        writes := writes + 1;
        Refuse(me);
      } else {
        r := Ok(Stored(w.configs, k, it, w.clock));
        var failed := Write(me, ConfigTo(k, Some(it)));
        if failed { r := Err(Failed); }
      }
    }

    method UpdateConfig(me: Actor, k: Key, o: Obj<Data>) returns (r: Result<Obj<Data>>)
      requires Valid()
      requires Current(w.configs, k, o) ==> Allowed(w, me, ConfigTo(k, Some(o.it)))
      modifies this
      ensures Valid() && Went(old(run)) && Since(me, hit, old(outside)) && writes == old(writes) + 1
      ensures Keeps(me, {}, old(w), w)
      ensures r.Err? && r.error != Failed ==>
                && r.error == (if k in old(w).configs then Conflict else NotFound)
                && Refused(old(w), old(faults))
      ensures r.Ok? || r.error == Failed ==>
                && Current(old(w).configs, k, o)
                && Wrote(old(w), old(faults), ConfigTo(k, Some(o.it)), r.Err?)
      ensures r.Ok? ==> r.value == Stored(old(w).configs, k, o.it, old(w).clock)
    {
      if !Current(w.configs, k, o) {
        r := Err(if k in w.configs then Conflict else NotFound);
        writes := writes + 1;
        Refuse(me);
      } else {
        r := Ok(Stored(w.configs, k, o.it, w.clock));
        var failed := Write(me, ConfigTo(k, Some(o.it)));
        if failed { r := Err(Failed); }
      }
    }

    // ------------------------------------------------------- adopted resources

    method ListAdopted(ns: string) returns (r: Result<seq<(Key, Adopted)>>)
      requires Valid()
      modifies this
      ensures Valid() && Went(old(run)) && Since(InventoryWorker, old(w), old(outside)) && writes == old(writes)
              && hit == old(w)
      ensures match r
              case Ok(items) => faults == old(faults) && Lists(items, old(w).adopted, InNamespace(old(w).adopted, ns))
              case Err(e) => e == Failed && faults == old(faults) + 1
    {
      var items := Enumerate(w.adopted, InNamespace(w.adopted, ns));
      r := Ok(items);
      var failed := Read(InventoryWorker);
      if failed { r := Err(Failed); }
    }

    method CreateAdopted(k: Key, it: Adopted) returns (e: Option<Error>)
      requires Valid()
      requires k !in w.adopted ==> Allowed(w, InventoryWorker, AdoptedTo(k, Some(it)))
      modifies this
      ensures Valid() && Went(old(run)) && Since(InventoryWorker, hit, old(outside)) && writes == old(writes) + 1
      ensures Keeps(InventoryWorker, {Owned}, old(w), w)
      ensures if k in old(w).adopted
              then e == Some(AlreadyExists) && Refused(old(w), old(faults))
              else Wrote(old(w), old(faults), AdoptedTo(k, Some(it)), e.Some?)
    {
      if k in w.adopted {
        e := Some(AlreadyExists);
        writes := writes + 1;
        Refuse(InventoryWorker);
      } else {
        var failed := Write(InventoryWorker, AdoptedTo(k, Some(it)));
        e := if failed then Some(Failed) else None;
      }
    }

    method DeleteAdopted(k: Key) returns (e: Option<Error>)
      requires Valid()
      requires k in w.adopted ==> Allowed(w, InventoryWorker, AdoptedTo(k, Some(w.adopted[k].(deleting := true))))
      modifies this
      ensures Valid() && Went(old(run)) && Since(InventoryWorker, hit, old(outside)) && writes == old(writes) + 1
      ensures Keeps(InventoryWorker, {}, old(w), w)
      ensures if k in old(w).adopted
              then Wrote(old(w), old(faults), AdoptedTo(k, Some(old(w).adopted[k].(deleting := true))), e.Some?)
              else e == Some(NotFound) && Refused(old(w), old(faults))
    {
      if k in w.adopted {
        var failed := Write(InventoryWorker, AdoptedTo(k, Some(w.adopted[k].(deleting := true))));
        e := if failed then Some(Failed) else None;
      } else {
        e := Some(NotFound);
        writes := writes + 1;
        Refuse(InventoryWorker);
      }
    }

    // ------------------------------------------------ the ACK controller's objects

    method GetAckSecret() returns (r: Result<map<string, string>>)
      requires Valid()
      modifies this
      ensures Valid() && Went(old(run)) && Since(InventoryWorker, old(w), old(outside)) && writes == old(writes)
              && hit == old(w)
      ensures match r
              case Ok(entries) => faults == old(faults) && old(w).ackSecret == Some(entries)
              case Err(e) => if e == NotFound then faults == old(faults) && old(w).ackSecret.None?
                             else e == Failed && faults == old(faults) + 1
    {
      r := if w.ackSecret.Some? then Ok(w.ackSecret.value) else Err(NotFound);
      var failed := Read(InventoryWorker);
      if failed { r := Err(Failed); }
    }

    method GetAckConfig() returns (r: Result<map<string, string>>)
      requires Valid()
      modifies this
      ensures Valid() && Went(old(run)) && Since(InventoryWorker, old(w), old(outside)) && writes == old(writes)
              && hit == old(w)
      ensures match r
              case Ok(entries) => faults == old(faults) && old(w).ackConfig == Some(entries)
              case Err(e) => if e == NotFound then faults == old(faults) && old(w).ackConfig.None?
                             else e == Failed && faults == old(faults) + 1
    {
      r := if w.ackConfig.Some? then Ok(w.ackConfig.value) else Err(NotFound);
      var failed := Read(InventoryWorker);
      if failed { r := Err(Failed); }
    }

    /** Create, update or delete one of the objects only the operator touches. */
    method WriteAck(c: Change) returns (e: Option<Error>)
      requires Valid() && (c.AckSecretTo? || c.AckConfigTo?) && Allowed(w, InventoryWorker, c)
      modifies this
      ensures Valid() && Went(old(run)) && Since(InventoryWorker, hit, old(outside)) && writes == old(writes) + 1
      ensures Wrote(old(w), old(faults), c, e.Some?) && (e.Some? ==> e.value == Failed)
      ensures Keeps(InventoryWorker, {Footprint}, old(w), w)
      ensures outside == old(outside) ==> OnlyFootprint(old(w), w)
      ensures Replicas(w) == Replicas(old(w))
      ensures c.AckSecretTo? ==>
                w.ackConfig == old(w).ackConfig
                && (w.ackSecret == c.entries || (e.Some? && w.ackSecret == old(w).ackSecret))
      ensures c.AckConfigTo? ==>
                w.ackSecret == old(w).ackSecret
                && (w.ackConfig == c.entries || (e.Some? && w.ackConfig == old(w).ackConfig))
    {
      var failed := Write(InventoryWorker, c);
      AckAfter(old(w), c, hit, w);
      e := if failed then Some(Failed) else None;
    }

    method GetDeployment() returns (r: Result<Obj<Deployment>>)
      requires Valid()
      modifies this
      ensures Valid() && Went(old(run)) && Since(InventoryWorker, old(w), old(outside)) && writes == old(writes)
              && hit == old(w)
      ensures match r
              case Ok(d) => faults == old(faults) && old(w).deployment == Some(d)
              case Err(e) => if e == NotFound then faults == old(faults) && old(w).deployment.None?
                             else e == Failed && faults == old(faults) + 1
    {
      r := if w.deployment.Some? then Ok(w.deployment.value) else Err(NotFound);
      var failed := Read(InventoryWorker);
      if failed { r := Err(Failed); }
    }

    /** Update of the deployment's replicas, based on the version read. */
    method ScaleDeployment(rv: nat, replicas: nat) returns (e: Option<Error>)
      requires Valid() && w.deployment.Some?
      requires w.deployment.value.rv == rv ==> Allowed(w, InventoryWorker, ReplicasTo(replicas))
      modifies this
      ensures Valid() && Went(old(run)) && Since(InventoryWorker, hit, old(outside)) && writes == old(writes) + 1
      ensures if old(w).deployment.value.rv == rv
              then Wrote(old(w), old(faults), ReplicasTo(replicas), e.Some?)
              else e == Some(Conflict) && Refused(old(w), old(faults))
      ensures Keeps(InventoryWorker, {Footprint}, old(w), w)
      ensures outside == old(outside) ==> OnlyFootprint(old(w), w)
      ensures w.ackSecret == old(w).ackSecret && w.ackConfig == old(w).ackConfig
      ensures Replicas(w) == Some(Some(replicas)) || (e.Some? && Replicas(w) == Replicas(old(w)))
    {
      hide Allowed, OnlyFootprint, SameFootprint;
      if w.deployment.value.rv != rv {
        e := Some(Conflict);
        writes := writes + 1;
        Refuse(InventoryWorker);
      } else {
        var failed := Write(InventoryWorker, ReplicasTo(replicas));
        e := if failed then Some(Failed) else None;
      }
      ScaledAfter(old(w), replicas, hit, w);
    }

    // ------------------------------------------------------------------- AWS

    method ModifyDBInstance(call: Call) returns (e: Option<Error>)
      requires Valid() && Allowed(w, InventoryWorker, PasswordTo(call))
      modifies this
      ensures Valid() && Went(old(run)) && Since(InventoryWorker, hit, old(outside)) && writes == old(writes) + 1
      ensures Keeps(InventoryWorker, {Calls}, old(w), w)
      ensures Wrote(old(w), old(faults), PasswordTo(call), e.Some?)
    {
      var failed := Write(InventoryWorker, PasswordTo(call));
      e := if failed then Some(Failed) else None;
    }

    /** A paginator over what AWS lists now: at least one page, cut anywhere. */
    method DescribeDBInstances() returns (pages: seq<seq<AwsInstance>>)
      requires Valid()
      ensures pages != [] && Concat(pages) == w.listing
    {
      pages := [];
      var from: nat := 0;
      var more := true;
      while more
        invariant from <= |w.listing| && Concat(pages) == w.listing[..from]
        invariant !more ==> pages != [] && from == |w.listing|
        decreases if more then 1 else 0, |w.listing| - from
      {
        var cut: int := *;
        var to := if from < cut < |w.listing| then cut else |w.listing|;
        ConcatAppends(pages, w.listing[from..to]);
        assert w.listing[..to] == w.listing[..from] + w.listing[from..to];
        pages := pages + [w.listing[from..to]];
        from := to;
        more := from < |w.listing|;
      }
      assert w.listing[..from] == w.listing;
    }

    /** The next page of a listing; the request may fail. */
    method NextPage() returns (failed: bool)
      requires Valid()
      modifies this
      ensures Valid() && Went(old(run)) && Since(InventoryWorker, old(w), old(outside)) && writes == old(writes)
              && hit == old(w)
      ensures faults == old(faults) + if failed then 1 else 0
    {
      failed := Read(InventoryWorker);
    }
  }
}
