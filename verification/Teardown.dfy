/** Releasing what a deleted inventory adopted, and the measure that every
    error-free teardown pass decreases (checkFinalizer). */
module Teardown {
  import opened Wrappers
  import opened Store
  import opened World
  import opened Protocol
  import opened Interference
  import opened Api

  /** The AdoptedResources annotated with inventory k, and those of them that are
      not being deleted yet. */
  function OwnedBy(w: World, k: Key): set<Key> {
    set a | a in w.adopted && AdoptedBy(w.adopted[a]) == Some(k)
  }

  function Unmarked(w: World, k: Key): set<Key> {
    set a | a in OwnedBy(w, k) && !w.adopted[a].deleting
  }

  lemma OwnsIffOwned(w: World, k: Key)
    ensures OwnsAdopted(w, k) <==> OwnedBy(w, k) != {}
  {
    if OwnsAdopted(w, k) {
      var a :| a in w.adopted && AdoptedBy(w.adopted[a]) == Some(k);
      assert a in OwnedBy(w, k);
    }
    if OwnedBy(w, k) != {} {
      var a :| a in OwnedBy(w, k);
    }
  }

  ghost predicate Dying(w: World, k: Key) {
    HasFinalizer(w, k) && w.inventories[k].it.deleting
  }

  lemma StaysDying(w: World, w': World, k: Key)
    requires Rely(InventoryWorker, w, w') && Dying(w, k)
    ensures Dying(w', k)
  {
    assert Kept(Finalizers, InventoryWorker, w, w');
    assert SameHold(w, w', k);
  }

  /** A resource that had an owner is still the same, is marked, or is gone. */
  lemma OwnedStays(w: World, w': World, a: Key)
    requires Records(w) && Rely(InventoryWorker, w, w')
    requires a in w.adopted && AdoptedBy(w.adopted[a]).Some?
    ensures a in w'.adopted ==> w'.adopted[a] == w.adopted[a] || w'.adopted[a] == w.adopted[a].(deleting := true)
  {
    assert Kept(Owned, InventoryWorker, w, w');
    assert a in OwnedNow(w.adopted);
  }

  ghost predicate Released(w: World, a: Key) {
    a in w.adopted ==> w.adopted[a].deleting
  }

  lemma StaysReleased(w: World, w': World, a: Key)
    requires Rely(InventoryWorker, w, w') && a in w.everOwned && Released(w, a)
    ensures Released(w', a) && a in w'.everOwned
  {
    assert Kept(Owned, InventoryWorker, w, w');
    assert Kept(Clock, InventoryWorker, w, w');
  }

  /** Marking a resource is allowed as long as its inventory is being deleted. */
  lemma MayMark(w: World, key: Key, a: Key)
    requires Dying(w, key) && a in w.adopted && AdoptedBy(w.adopted[a]) == Some(key)
    ensures Allowed(w, InventoryWorker, AdoptedTo(a, Some(w.adopted[a].(deleting := true))))
  {
  }

  lemma MarkedAfter(w: World, a: Key, hit: World, w': World)
    requires a in w.adopted && AdoptedBy(w.adopted[a]).Some?
    requires After(w, AdoptedTo(a, Some(w.adopted[a].(deleting := true))), hit) && Rely(InventoryWorker, hit, w')
    ensures Released(w', a)
  {
    var c := AdoptedTo(a, Some(w.adopted[a].(deleting := true)));
    assert PartAfter(TheAdopted, w, c, hit) && PartAfter(ThePast, w, c, hit);
    assert a in OwnedNow(hit.adopted);
    StaysReleased(hit, w', a);
  }

  /** Marks one listed resource. */
  method Release(c: Cluster, key: Key, a: Key, ghost from: World) returns (e: Option<Error>)
    requires c.Valid() && Records(from) && Rely(InventoryWorker, from, c.w) && Dying(c.w, key)
    requires a in from.adopted && AdoptedBy(from.adopted[a]) == Some(key)
    modifies c
    ensures c.Valid() && Rely(InventoryWorker, old(c.w), c.w) && c.outside >= old(c.outside)
    ensures e.None? ==> c.faults == old(c.faults) && Released(c.w, a)
    ensures e.Some? ==> c.faults > old(c.faults)
  {
    OwnedStays(from, c.w, a);
    if a in c.w.adopted { MayMark(c.w, key, a); }
    ghost var before := c.w;
    e := c.DeleteAdopted(a);
    if e.None? { MarkedAfter(before, a, c.hit, c.w); }
  }

  ghost predicate ListedOwned(items: seq<(Key, Adopted)>, j: nat, key: Key)
    requires j < |items|
  {
    AdoptedBy(items[j].1) == Some(key)
  }

  lemma AllReleased(from: World, w: World, items: seq<(Key, Adopted)>, key: Key)
    requires Records(from) && AdoptedHeld(from) && Rely(InventoryWorker, from, w)
    requires Lists(items, from.adopted, InNamespace(from.adopted, key.ns))
    requires forall j :: 0 <= j < |items| && ListedOwned(items, j, key) ==> Released(w, items[j].0)
    ensures Unmarked(w, key) == {}
    ensures OwnedBy(w, key) <= OwnedBy(from, key)
    ensures OwnedBy(from, key) == {} <==> forall j :: 0 <= j < |items| ==> !ListedOwned(items, j, key)
  {
    assert Kept(Owned, InventoryWorker, from, w);
    forall a <- OwnedBy(w, key) ensures a in OwnedBy(from, key) {
    }
    forall a <- OwnedBy(from, key)
      ensures exists j :: 0 <= j < |items| && items[j].0 == a && ListedOwned(items, j, key)
    {
      assert a in InNamespace(from.adopted, key.ns);
      var j :| 0 <= j < |items| && items[j].0 == a;
      assert ListedOwned(items, j, key);
    }
    forall j | 0 <= j < |items| && ListedOwned(items, j, key) ensures items[j].0 in OwnedBy(from, key) {
    }
    forall a <- OwnedBy(w, key) ensures w.adopted[a].deleting {
      var j :| 0 <= j < |items| && items[j].0 == a && ListedOwned(items, j, key);
      assert Released(w, a);
    }
  }

  /** The scan of checkFinalizer: marks every AdoptedResource the inventory owns
      and says whether there was one. */
  method ReleaseAdopted(c: Cluster, key: Key) returns (r: Result<bool>)
    requires c.Valid() && Dying(c.w, key)
    modifies c
    ensures c.Valid() && Rely(InventoryWorker, old(c.w), c.w) && c.outside >= old(c.outside)
    ensures r.Err? ==> c.faults > old(c.faults)
    ensures r.Ok? ==>
              && c.faults == old(c.faults)
              && (r.value <==> OwnedBy(old(c.w), key) != {})
              && Unmarked(c.w, key) == {} && OwnedBy(c.w, key) <= OwnedBy(old(c.w), key)
  {
    hide Lists, Records, AdoptedHeld, Dying, Unmarked, OwnedBy, Keeps;
    ghost var from := c.w;
    c.Have(History);
    c.Have(AdoptedHold);
    var list := c.ListAdopted(key.ns);
    if list.Err? {
      return Err(list.error);
    }
    var items := list.value;
    var deleting := false;
    StaysDying(from, c.w, key);
    for i := 0 to |items|
      invariant c.Valid() && Rely(InventoryWorker, from, c.w) && Dying(c.w, key)
      invariant c.faults == old(c.faults) && c.outside >= old(c.outside)
      invariant forall j :: 0 <= j < i && ListedOwned(items, j, key) ==> Released(c.w, items[j].0)
      invariant deleting <==> exists j :: 0 <= j < i && ListedOwned(items, j, key)
    {
      var (a, resource) := items[i];
      ghost var before := c.w;
      if AdoptedBy(resource) == Some(key) {
        assert ListedOwned(items, i, key);
        if !resource.deleting {
          var e := Release(c, key, a, from);
          if e.Some? {
            KeepsTransitive(InventoryWorker, {}, {}, {}, from, before, c.w);
            return Err(e.value);
          }
          AfterRelease(from, before, c.w, items, i, key);
        } else {
          OwnedStays(from, c.w, a);
        }
        deleting := true;
      }
    }
    AllReleased(from, c.w, items, key);
    r := Ok(deleting);
  }

  lemma AfterRelease(from: World, before: World, w: World, items: seq<(Key, Adopted)>, i: nat, key: Key)
    requires Records(from) && Rely(InventoryWorker, from, before) && Rely(InventoryWorker, before, w)
    requires Dying(before, key) && i < |items|
    requires Lists(items, from.adopted, InNamespace(from.adopted, key.ns))
    requires forall j :: 0 <= j < i && ListedOwned(items, j, key) ==> Released(before, items[j].0)
    ensures Rely(InventoryWorker, from, w) && Dying(w, key)
    ensures forall j :: 0 <= j < i && ListedOwned(items, j, key) ==> Released(w, items[j].0)
  {
    KeepsTransitive(InventoryWorker, {}, {}, {}, from, before, w);
    StaysDying(before, w, key);
    assert Kept(Clock, InventoryWorker, from, before);
    forall j | 0 <= j < i && ListedOwned(items, j, key) ensures Released(w, items[j].0) {
      assert items[j].0 in OwnedNow(from.adopted);
      StaysReleased(before, w, items[j].0);
    }
  }

  // ------------------------------------------------------------ the measure

  function Flag(b: bool): nat { if b then 1 else 0 }

  /** What is left to do for a deleted inventory, most significant first. */
  datatype Measure = Measure(unmarked: nat, owned: nat, running: nat, secret: nat, config: nat, finalizer: nat)

  function Left(w: World, k: Key): Measure {
    Measure(|Unmarked(w, k)|, |OwnedBy(w, k)|, Flag(Running(w)), Flag(w.ackSecret.Some?), Flag(w.ackConfig.Some?),
            Flag(HasFinalizer(w, k)))
  }

  /** The lexicographic order. */
  predicate Less(m: Measure, n: Measure) {
    m.unmarked < n.unmarked || (m.unmarked == n.unmarked &&
    (m.owned < n.owned || (m.owned == n.owned &&
    (m.running < n.running || (m.running == n.running &&
    (m.secret < n.secret || (m.secret == n.secret &&
    (m.config < n.config || (m.config == n.config &&
    m.finalizer < n.finalizer)))))))))
  }

  /** What an error-free pass over a deleted inventory does, whatever others do
      meanwhile: it marks what is owned, or else stops the ACK controller and
      removes the first of secret, config map and finalizer that is there. */
  ghost predicate TeardownPass(w: World, w': World, k: Key) {
    && Unmarked(w', k) == {} && OwnedBy(w', k) <= OwnedBy(w, k)
    && if OwnedBy(w, k) != {} then
         SameFootprint(w, w') && HasFinalizer(w', k)
       else
         && !Running(w')
         && (w'.ackSecret, w'.ackConfig, HasFinalizer(w', k)) ==
              if w.ackSecret.Some? then (None, w.ackConfig, true)
              else if w.ackConfig.Some? then (None, None, true)
              else (None, None, false)
  }

  lemma SubsetSize<T>(a: set<T>, b: set<T>)
    requires a <= b
    ensures |a| <= |b| && (|a| == |b| ==> a == b)
  {
    assert |b| == |b - a| + |a|;
    if |a| == |b| { assert b - a == {}; }
  }

  /** Every error-free teardown pass gets strictly closer to the end, unless all
      it can do is wait for marked resources to go. */
  lemma PassesDecrease(w: World, w': World, k: Key)
    requires Dying(w, k) && TeardownPass(w, w', k)
    ensures Less(Left(w', k), Left(w, k)) || (Left(w', k) == Left(w, k) && OwnedBy(w, k) != {} && Unmarked(w, k) == {})
  {
    SubsetSize(OwnedBy(w', k), OwnedBy(w, k));
    if Unmarked(w, k) != {} {
      assert |Unmarked(w, k)| > 0;
    }
  }

  lemma OwnedOnlyShrinks(w: World, w': World, k: Key)
    requires OwnedShrink(w, w')
    ensures OwnedBy(w', k) <= OwnedBy(w, k) && Unmarked(w', k) <= Unmarked(w, k)
  {
  }

  /** Between passes the measure does not grow: others add nothing to do. */
  lemma OthersDoNotIncrease(w: World, w': World, k: Key)
    requires Rely(InventoryWorker, w, w')
    ensures !Less(Left(w, k), Left(w', k))
    ensures OwnedBy(w', k) <= OwnedBy(w, k)
  {
    assert Kept(Owned, InventoryWorker, w, w');
    assert Kept(Footprint, InventoryWorker, w, w');
    assert Kept(Finalizers, InventoryWorker, w, w');
    assert SameHold(w, w', k);
    OwnedOnlyShrinks(w, w', k);
    hide OwnedBy, Unmarked;
    SubsetSize(OwnedBy(w', k), OwnedBy(w, k));
    SubsetSize(Unmarked(w', k), Unmarked(w, k));
  }

  /** Error-free passes over a deleted inventory, one after the other, with
      anything others do in between: each from its first to its second state. */
  ghost predicate Passes(s: seq<(World, World)>, k: Key) {
    && (forall i :: 0 <= i < |s| ==> Dying(s[i].0, k) && TeardownPass(s[i].0, s[i].1, k))
    && (forall i :: 0 <= i < |s| - 1 ==> Rely(InventoryWorker, s[i].1, s[i + 1].0))
  }

  function Rank(w: World, k: Key): nat {
    Flag(w.ackSecret.Some?) + Flag(w.ackConfig.Some?) + Flag(HasFinalizer(w, k))
  }

  lemma PassRanks(w: World, w': World, k: Key)
    requires Dying(w, k) && TeardownPass(w, w', k) && OwnedBy(w, k) == {}
    ensures OwnedBy(w', k) == {} && Rank(w', k) == Rank(w, k) - 1
    ensures !HasFinalizer(w', k) <==> Rank(w', k) == 0
  {
  }

  lemma OthersKeepRank(w: World, w': World, k: Key)
    requires Rely(InventoryWorker, w, w') && OwnedBy(w, k) == {}
    ensures OwnedBy(w', k) == {} && Rank(w', k) == Rank(w, k) && (HasFinalizer(w', k) <==> HasFinalizer(w, k))
  {
    OthersDoNotIncrease(w, w', k);
    assert Kept(Footprint, InventoryWorker, w, w');
    assert Kept(Finalizers, InventoryWorker, w, w');
    assert SameHold(w, w', k);
  }

  /** Once the owned resources have drained, each error-free pass removes exactly
      one of secret, config map and finalizer: there are at most three passes,
      and the finalizer goes with the last. */
  lemma {:induction false} ThreePassesFinish(s: seq<(World, World)>, k: Key)
    requires Passes(s, k) && s != [] && OwnedBy(s[0].0, k) == {}
    ensures Rank(s[|s| - 1].1, k) == Rank(s[0].0, k) - |s| && |s| <= 3
    ensures OwnedBy(s[|s| - 1].1, k) == {}
    ensures !HasFinalizer(s[|s| - 1].1, k) <==> |s| == Rank(s[0].0, k)
  {
    hide TeardownPass, OwnedBy;
    PassRanks(s[0].0, s[0].1, k);
    if |s| > 1 {
      OthersKeepRank(s[0].1, s[1].0, k);
      assert Passes(s[1..], k);
      ThreePassesFinish(s[1..], k);
    }
  }
}
