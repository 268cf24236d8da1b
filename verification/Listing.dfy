/** The inventory's list of instances (syncDBInstancesStatus). */
module Listing {
  import opened Wrappers
  import opened Store
  import opened World
  import opened Api
  import Status

  /** An entry tells a DBInstance of the namespace as it is. */
  ghost predicate Tells(w: World, ns: string, e: Listed) {
    && Key(ns, e.name) in w.dbs
    && e.instanceID == w.dbs[Key(ns, e.name)].it.spec.identifier
    && Status.Flattens(w.dbs[Key(ns, e.name)].it.observed, e.info)
  }

  predicate DistinctNames(instances: seq<Listed>) {
    forall i, j :: 0 <= i < j < |instances| ==> instances[i].name != instances[j].name
  }

  /** The list has one entry for each DBInstance of the namespace, in some order. */
  ghost predicate Describes(instances: seq<Listed>, w: World, ns: string) {
    && (forall e <- instances :: Tells(w, ns, e))
    && DistinctNames(instances)
    && (forall k <- w.dbs :: k.ns == ns ==> exists e <- instances :: e.name == k.name)
  }

  /** There is one such list, up to its order. */
  lemma DescribesUpToOrder(l: seq<Listed>, m: seq<Listed>, w: World, ns: string)
    requires Describes(l, w, ns) && Describes(m, w, ns)
    ensures multiset(l) == multiset(m)
  {
    DescribedOnce(l, w, ns);
    DescribedOnce(m, w, ns);
    forall e ensures multiset(l)[e] == multiset(m)[e] {
      if e in l { SameEntry(l, m, w, ns, e); }
      if e in m { SameEntry(m, l, w, ns, e); }
    }
  }

  lemma DescribedOnce(l: seq<Listed>, w: World, ns: string)
    requires Describes(l, w, ns)
    ensures forall e :: multiset(l)[e] <= 1 && (multiset(l)[e] == 1 <==> e in l)
  {
    forall e ensures multiset(l)[e] <= 1 { DistinctCount(l, e); }
  }

  lemma {:induction false} DistinctCount(l: seq<Listed>, e: Listed)
    requires DistinctNames(l)
    ensures multiset(l)[e] <= 1
  {
    if l != [] {
      assert l == [l[0]] + l[1..];
      DistinctCount(l[1..], e);
      if e == l[0] {
        assert forall d <- l[1..] :: d.name != e.name;
        assert e !in multiset(l[1..]);
      }
    }
  }

  lemma SameEntry(l: seq<Listed>, m: seq<Listed>, w: World, ns: string, e: Listed)
    requires Describes(l, w, ns) && Describes(m, w, ns) && e in l
    ensures e in m
  {
    assert Tells(w, ns, e);
    var k := Key(ns, e.name);
    assert k.ns == ns && k.name == e.name;
    var d :| d in m && d.name == k.name;
    assert Tells(w, ns, d);
    Status.FlatteningIsUnique(w.dbs[k].it.observed, d.info, e.info);
  }

  /** The list as the pass builds it from the DBInstances it was given. */
  method Build(ghost w: World, ns: string, items: seq<(Key, Obj<DBInstance>)>) returns (instances: seq<Listed>)
    requires Lists(items, w.dbs, DatabasesIn(w, ns, false))
    ensures Describes(instances, w, ns)
  {
    instances := [];
    for i := 0 to |items|
      invariant |instances| == i
      invariant forall j :: 0 <= j < i ==> instances[j].name == items[j].0.name && Tells(w, ns, instances[j])
    {
      var (k, o) := items[i];
      var info := Status.ParseDBInstanceStatus(o.it.observed);
      assert k in DatabasesIn(w, ns, false) && k == Key(ns, k.name);
      instances := instances + [Listed(o.it.spec.identifier, k.name, info)];
    }
    BuiltDescribes(w, ns, items, instances);
  }

  lemma BuiltDescribes(w: World, ns: string, items: seq<(Key, Obj<DBInstance>)>, instances: seq<Listed>)
    requires Lists(items, w.dbs, DatabasesIn(w, ns, false)) && |instances| == |items|
    requires forall j :: 0 <= j < |items| ==> instances[j].name == items[j].0.name && Tells(w, ns, instances[j])
    ensures Describes(instances, w, ns)
  {
    forall i, j | 0 <= i < j < |instances| ensures instances[i].name != instances[j].name {
      assert items[i].0 in DatabasesIn(w, ns, false) && items[j].0 in DatabasesIn(w, ns, false);
      assert items[i].0 != items[j].0;
    }
    forall k <- w.dbs | k.ns == ns ensures exists e <- instances :: e.name == k.name {
      assert k in DatabasesIn(w, ns, false);
      var j :| 0 <= j < |items| && items[j].0 == k;
      assert instances[j].name == k.name;
    }
  }
}
