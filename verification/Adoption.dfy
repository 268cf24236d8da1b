/** Adopting what AWS lists and the cluster does not have yet: reading the pages,
    the difference with two lists of the cluster, and one AdoptedResource for each
    identifier in it (the first half of adoptDBInstances, createAdoptedResource). */
module Adoption {
  import opened Wrappers
  import opened Store
  import opened Conditions
  import opened World
  import opened Owner
  import opened Protocol
  import opened Interference
  import opened Api

  function DeletingState(): string { "deleting" }

  /** An entry that is to be adopted unless its identifier is known. */
  predicate Wanted(a: AwsInstance) {
    a.state != Some(DeletingState())
  }

  /** The entries whose identifiers are unknown, in the order listed. */
  function Missing(listing: seq<AwsInstance>, have: set<string>): seq<AwsInstance> {
    if listing == [] then []
    else
      var rest := Missing(listing[..|listing| - 1], have);
      var last := listing[|listing| - 1];
      if Wanted(last) && last.identifier !in have then rest + [last] else rest
  }

  function Ids(entries: seq<AwsInstance>): set<string> {
    set a | a in entries :: a.identifier
  }

  function DatabaseIds(w: World, ns: string): set<string> {
    set k | k in w.dbs && k.ns == ns :: w.dbs[k].it.spec.identifier
  }

  function AdoptedIds(w: World, ns: string): set<string> {
    set k | k in w.adopted && k.ns == ns :: w.adopted[k].nameOrID
  }

  /** Every entry that is not being deleted has a DBInstance or an AdoptedResource in
      the namespace. */
  ghost predicate Covered(w: World, ns: string, listing: seq<AwsInstance>) {
    forall a <- listing :: a.state != Some("deleting") ==> InCluster(w, ns, a.identifier)
  }

  ghost predicate InCluster(w: World, ns: string, identifier: string) {
    || (exists k <- w.dbs :: k.ns == ns && IdOf(w, k) == identifier)
    || (exists k <- w.adopted :: k.ns == ns && w.adopted[k].nameOrID == identifier)
  }

  /** The difference misses nothing, takes nothing that is known, deleted or not
      listed, and keeps distinct identifiers distinct. */
  lemma {:induction false} MissingIsTheDifference(listing: seq<AwsInstance>, have: set<string>)
    ensures forall a :: a in Missing(listing, have) <==>
                          a in listing && a.state != Some("deleting") && a.identifier !in have
    ensures DistinctIds(listing) ==> DistinctIds(Missing(listing, have))
  {
    if listing != [] {
      var init, last := listing[..|listing| - 1], listing[|listing| - 1];
      MissingIsTheDifference(init, have);
      assert listing == init + [last];
      if DistinctIds(listing) {
        assert forall a <- init :: a.identifier != last.identifier;
      }
    }
  }

  /** Two wanted entries share an identifier that is not known. */
  ghost predicate Repeats(listing: seq<AwsInstance>, have: set<string>) {
    exists i, j :: 0 <= i < j < |listing| && SameUnknown(listing[i], listing[j], have)
  }

  predicate SameUnknown(a: AwsInstance, b: AwsInstance, have: set<string>) {
    && a.state != Some("deleting") && b.state != Some("deleting")
    && a.identifier == b.identifier && a.identifier !in have
  }

  lemma RepeatsSplits(init: seq<AwsInstance>, last: AwsInstance, have: set<string>)
    ensures Repeats(init + [last], have) <==> Repeats(init, have) || exists a <- init :: SameUnknown(a, last, have)
  {
    var all := init + [last];
    if i, j :| 0 <= i < j < |all| && SameUnknown(all[i], all[j], have) {
      assert all[i] == init[i];
      if j < |init| { assert SameUnknown(init[i], init[j], have); }
    }
    if i, j :| 0 <= i < j < |init| && SameUnknown(init[i], init[j], have) {
      assert SameUnknown(all[i], all[j], have);
    }
    if a :| a in init && SameUnknown(a, last, have) {
      var i :| 0 <= i < |init| && init[i] == a;
      assert SameUnknown(all[i], all[|init|], have);
    }
  }

  lemma DistinctSplits(init: seq<AwsInstance>, last: AwsInstance)
    ensures DistinctIds(init + [last]) <==> DistinctIds(init) && forall a <- init :: a.identifier != last.identifier
  {
    var all := init + [last];
    if DistinctIds(all) {
      forall i | 0 <= i < |init| ensures init[i].identifier != last.identifier {
        assert all[i].identifier != all[|init|].identifier;
      }
      forall i, j | 0 <= i < j < |init| ensures init[i].identifier != init[j].identifier {
        assert all[i].identifier != all[j].identifier;
      }
    }
  }

  /** The loop never adds to the maps it looks into, so it adopts each identifier
      once exactly when no unknown identifier is listed twice. */
  lemma {:induction false} AdoptsOnceIffNoRepeats(listing: seq<AwsInstance>, have: set<string>)
    ensures DistinctIds(Missing(listing, have)) <==> !Repeats(listing, have)
  {
    if listing != [] {
      var init, last := listing[..|listing| - 1], listing[|listing| - 1];
      assert listing == init + [last];
      AdoptsOnceIffNoRepeats(init, have);
      MissingIsTheDifference(init, have);
      RepeatsSplits(init, last, have);
      DistinctSplits(Missing(init, have), last);
    }
  }

  /** A listing that repeats one does make the loop adopt it twice. */
  lemma RepeatedIsAdoptedTwice(a: AwsInstance)
    requires a.state != Some("deleting")
    ensures Missing([a, a], {}) == [a, a] && !DistinctIds(Missing([a, a], {}))
  {
    assert [a, a][..1] == [a] && [a][..0] == [];
    assert Missing([], {}) == [] && Missing([a], {}) == [a];
    var twice := Missing([a, a], {});
    assert twice == [a] + [a];
    assert twice[0].identifier == twice[1].identifier;
  }

  /** The adopted resources with an owner in this namespace are all known. */
  ghost predicate Known(w: World, ns: string, known: set<string>) {
    forall k <- w.adopted :: k.ns == ns && AdoptedBy(w.adopted[k]).Some? ==> w.adopted[k].nameOrID in known
  }

  lemma StaysKnown(w: World, w': World, ns: string, known: set<string>)
    requires Rely(InventoryWorker, w, w') && Known(w, ns, known)
    ensures Known(w', ns, known)
  {
    assert Kept(Owned, InventoryWorker, w, w');
  }

  lemma StaysFinalized(w: World, w': World, key: Key)
    requires Keeps(InventoryWorker, {Owned}, w, w') && HasFinalizer(w, key)
    ensures HasFinalizer(w', key)
    ensures w'.distinctListing ==> w.distinctListing
  {
    assert Kept(Finalizers, InventoryWorker, w, w') && Kept(Clock, InventoryWorker, w, w');
    assert SameHold(w, w', key);
  }

  function ResourceFor(key: Key, identifier: string): (a: Adopted) {
    Adopted(SetOwner(map[], InventoryType(), key), identifier, false)
  }

  lemma MayAdopt(w: World, key: Key, k: Key, identifier: string, known: set<string>)
    requires HasFinalizer(w, key) && '/' !in key.ns && k.ns == key.ns && k !in w.adopted
    requires Known(w, key.ns, known) && (w.distinctListing ==> identifier !in known)
    ensures Allowed(w, InventoryWorker, AdoptedTo(k, Some(ResourceFor(key, identifier))))
    ensures AdoptedBy(ResourceFor(key, identifier)) == Some(key)
  {
    OwnerRoundTrip(map[], InventoryType(), key);
  }

  lemma AdoptedAfter(w: World, k: Key, a: Adopted, hit: World, known: set<string>)
    requires k !in w.adopted && (After(w, AdoptedTo(k, Some(a)), hit) || hit == w) && Known(w, k.ns, known)
    ensures Known(hit, k.ns, known + {a.nameOrID})
    ensures After(w, AdoptedTo(k, Some(a)), hit) ==>
              && hit.dbs == w.dbs && AdoptedIds(hit, k.ns) == AdoptedIds(w, k.ns) + {a.nameOrID}
              && k in hit.adopted && hit.adopted[k] == a
  {
    if After(w, AdoptedTo(k, Some(a)), hit) {
      assert PartAfter(TheAdopted, w, AdoptedTo(k, Some(a)), hit);
      assert PartAfter(TheDatabases, w, AdoptedTo(k, Some(a)), hit);
      assert forall j <- w.adopted :: j in hit.adopted && hit.adopted[j] == w.adopted[j];
      assert k in hit.adopted;
    }
  }

  /** The resource k is new in w' and is the inventory's request for the identifier. */
  ghost predicate Requested(w: World, w': World, k: Key, key: Key, identifier: string) {
    && k !in w.adopted && k in w'.adopted && k.ns == key.ns && identifier + "-" <= k.name
    && AdoptedBy(w'.adopted[k]) == Some(key) && w'.adopted[k].nameOrID == identifier && !w'.adopted[k].deleting
  }

  /** Creates one AdoptedResource under a generated name; k is that name. */
  method Adopt(c: Cluster, key: Key, identifier: string, ghost known: set<string>)
    returns (e: Option<Error>, ghost k: Key)
    requires c.Valid() && HasFinalizer(c.w, key) && Known(c.w, key.ns, known)
    requires c.w.distinctListing ==> identifier !in known
    modifies c
    ensures c.Valid() && Keeps(InventoryWorker, {Owned}, old(c.w), c.w) && c.outside >= old(c.outside)
    ensures Known(c.w, key.ns, known + {identifier})
    ensures if e.None? then c.faults == old(c.faults) else c.faults > old(c.faults)
    ensures e.None? ==> c.Went(old(c.run)) && Requested(old(c.w), c.hit, k, key, identifier)
    ensures c.outside == old(c.outside) ==>
              && c.w.dbs == old(c.w).dbs
              && (AdoptedIds(c.w, key.ns) == AdoptedIds(old(c.w), key.ns) + {identifier}
                  || (e.Some? && c.w.adopted == old(c.w).adopted))
  {
    var suffix: string := *;
    var name := Key(key.ns, identifier + "-" + suffix);
    k := name;
    c.Have(Admission);
    if k !in c.w.adopted { MayAdopt(c.w, key, k, identifier, known); }
    ghost var before := c.w;
    e := c.CreateAdopted(name, ResourceFor(key, identifier));
    if k !in before.adopted {
      AdoptedAfter(before, k, ResourceFor(key, identifier), c.hit, known);
      assert identifier + "-" <= identifier + "-" + suffix;
    }
    StaysKnown(c.hit, c.w, key.ns, known + {identifier});
  }

  lemma MissingStep(listing: seq<AwsInstance>, i: nat, have: set<string>)
    requires i < |listing|
    ensures var next := if Wanted(listing[i]) && listing[i].identifier !in have then [listing[i]] else [];
            Missing(listing[..i + 1], have) == Missing(listing[..i], have) + next
  {
    assert listing[..i + 1][..i] == listing[..i];
  }

  lemma {:induction false} MissingGrows(listing: seq<AwsInstance>, i: nat, have: set<string>)
    requires i <= |listing|
    ensures Missing(listing[..i], have) <= Missing(listing, have)
    decreases |listing| - i
  {
    if i < |listing| {
      MissingStep(listing, i, have);
      MissingGrows(listing, i + 1, have);
    } else {
      assert listing[..i] == listing;
    }
  }

  /** awsDBInstanceMap: for each identifier the last entry that has it. */
  function ByIdentifier(listing: seq<AwsInstance>): map<string, AwsInstance> {
    if listing == [] then map[]
    else
      var last := listing[|listing| - 1];
      ByIdentifier(listing[..|listing| - 1])[last.identifier := last]
  }

  /** No later entry has the identifier of this one. */
  ghost predicate IsLast(listing: seq<AwsInstance>, i: nat) {
    i < |listing| && forall j | i < j < |listing| :: listing[j].identifier != listing[i].identifier
  }

  /** The map finds each listed identifier, and with it the last entry that has it. */
  ghost predicate Tabulates(aws: map<string, AwsInstance>, listing: seq<AwsInstance>) {
    && (forall id :: id in aws <==> exists a <- listing :: a.identifier == id)
    && (forall i: nat :: IsLast(listing, i) ==>
          listing[i].identifier in aws && aws[listing[i].identifier] == listing[i])
  }

  lemma {:induction false} ByIdentifierTabulates(listing: seq<AwsInstance>)
    ensures Tabulates(ByIdentifier(listing), listing)
  {
    if listing != [] {
      var init, last := listing[..|listing| - 1], listing[|listing| - 1];
      ByIdentifierTabulates(init);
      assert listing == init + [last];
      forall id ensures id in ByIdentifier(listing) <==> exists a <- listing :: a.identifier == id {
        if id in ByIdentifier(init) { var a :| a in init && a.identifier == id; }
      }
      forall i: nat | IsLast(listing, i) ensures listing[i].identifier in ByIdentifier(listing)
                                                 && ByIdentifier(listing)[listing[i].identifier] == listing[i] {
        if i < |init| {
          assert listing[|init|].identifier != listing[i].identifier;
          assert IsLast(init, i);
        }
      }
    }
  }

  /** Where AWS lists distinct identifiers, each entry is found as it is. */
  lemma TabulatesDistinct(aws: map<string, AwsInstance>, listing: seq<AwsInstance>)
    requires Tabulates(aws, listing) && DistinctIds(listing)
    ensures forall a <- listing :: a.identifier in aws && aws[a.identifier] == a
  {
    forall a <- listing ensures a.identifier in aws && aws[a.identifier] == a {
      var i :| 0 <= i < |listing| && listing[i] == a;
      assert IsLast(listing, i);
    }
  }

  /** Reads every page of the listing. */
  method ReadListing(c: Cluster) returns (r: Result<seq<AwsInstance>>)
    requires c.Valid()
    modifies c
    ensures c.Valid() && c.Since(InventoryWorker, old(c.w), old(c.outside)) && c.writes == old(c.writes)
    ensures match r
            case Ok(listing) => listing == old(c.w).listing && c.faults == old(c.faults)
            case Err(_) => c.faults > old(c.faults)
  {
    ghost var begin := c.w;
    KeepsReflexive(InventoryWorker, begin);
    var pages := c.DescribeDBInstances();
    var listing := [];
    for i := 0 to |pages|
      invariant c.Valid() && c.Since(InventoryWorker, begin, old(c.outside)) && c.writes == old(c.writes)
      invariant c.faults == old(c.faults) && listing == Concat(pages[..i])
    {
      ghost var before := c.w;
      var failed := c.NextPage();
      KeepsTransitive(InventoryWorker, {}, {}, {}, begin, before, c.w);
      if failed {
        return Err(Failed);
      }
      listing := listing + pages[i];
      ConcatAppends(pages[..i], pages[i]);
      assert pages[..i + 1] == pages[..i] + [pages[i]];
    }
    assert pages[..|pages|] == pages;
    r := Ok(listing);
  }

  lemma ListedDatabaseIds(w: World, ns: string, items: seq<(Key, Obj<DBInstance>)>, i: nat, ids: set<string>)
    requires Lists(items, w.dbs, DatabasesIn(w, ns, false)) && i == |items|
    requires ids == set j | 0 <= j < i :: items[j].1.it.spec.identifier
    ensures ids == DatabaseIds(w, ns)
  {
    forall id <- DatabaseIds(w, ns) ensures id in ids {
      var k :| k in w.dbs && k.ns == ns && w.dbs[k].it.spec.identifier == id;
      assert k in DatabasesIn(w, ns, false);
      var j :| 0 <= j < |items| && items[j].0 == k;
    }
  }

  lemma ListedAdoptedIds(w: World, ns: string, items: seq<(Key, Adopted)>, i: nat, ids: set<string>)
    requires Lists(items, w.adopted, InNamespace(w.adopted, ns)) && i == |items|
    requires ids == set j | 0 <= j < i :: items[j].1.nameOrID
    ensures ids == AdoptedIds(w, ns)
  {
    forall id <- AdoptedIds(w, ns) ensures id in ids {
      var k :| k in w.adopted && k.ns == ns && w.adopted[k].nameOrID == id;
      assert k in InNamespace(w.adopted, ns);
      var j :| 0 <= j < |items| && items[j].0 == k;
    }
  }

  /** The identifiers of the DBInstances in the namespace (dbInstanceMap). */
  method ReadDatabaseIds(c: Cluster, ns: string) returns (r: Result<set<string>>)
    requires c.Valid()
    modifies c
    ensures c.Valid() && c.Since(InventoryWorker, old(c.w), old(c.outside)) && c.writes == old(c.writes)
    ensures match r
            case Ok(ids) => ids == DatabaseIds(old(c.w), ns) && c.faults == old(c.faults)
            case Err(_) => c.faults > old(c.faults)
  {
    ghost var begin := c.w;
    var list := c.ListDatabases(InventoryWorker, ns, false);
    if list.Err? {
      return Err(list.error);
    }
    var items := list.value;
    var ids := {};
    for i := 0 to |items|
      invariant ids == set j | 0 <= j < i :: items[j].1.it.spec.identifier
    {
      ids := ids + {items[i].1.it.spec.identifier};
    }
    ListedDatabaseIds(begin, ns, items, |items|, ids);
    r := Ok(ids);
  }

  /** The identifiers of the AdoptedResources in the namespace (adoptedDBInstanceMap). */
  method ReadAdoptedIds(c: Cluster, ns: string) returns (r: Result<set<string>>)
    requires c.Valid()
    modifies c
    ensures c.Valid() && c.Since(InventoryWorker, old(c.w), old(c.outside)) && c.writes == old(c.writes)
    ensures match r
            case Ok(ids) => ids == AdoptedIds(old(c.w), ns) && c.faults == old(c.faults)
            case Err(_) => c.faults > old(c.faults)
  {
    ghost var begin := c.w;
    var list := c.ListAdopted(ns);
    if list.Err? {
      return Err(list.error);
    }
    var items := list.value;
    var ids := {};
    for i := 0 to |items|
      invariant ids == set j | 0 <= j < i :: items[j].1.nameOrID
    {
      ids := ids + {items[i].1.nameOrID};
    }
    ListedAdoptedIds(begin, ns, items, |items|, ids);
    r := Ok(ids);
  }

  lemma KnownOnRead(w: World, w': World, ns: string, known: set<string>)
    requires Rely(InventoryWorker, w, w') && AdoptedIds(w, ns) <= known
    ensures Known(w', ns, known)
  {
    StaysKnown(w, w', ns, AdoptedIds(w, ns));
  }

  /** One AdoptedResource was requested for each of `created`, and while nobody
      interfered those are there and the rest is as it was. */
  ghost predicate RequestedAll(w0: World, w: World, ns: string, created: seq<AwsInstance>) {
    w.dbs == w0.dbs && AdoptedIds(w, ns) == AdoptedIds(w0, ns) + Ids(created)
  }

  lemma CoveredAfter(w0: World, w: World, ns: string, listing: seq<AwsInstance>)
    requires RequestedAll(w0, w, ns, Missing(listing, DatabaseIds(w0, ns) + AdoptedIds(w0, ns)))
    ensures Covered(w, ns, listing)
  {
    var have := DatabaseIds(w0, ns) + AdoptedIds(w0, ns);
    MissingIsTheDifference(listing, have);
    assert DatabaseIds(w, ns) == DatabaseIds(w0, ns);
    forall a <- listing | Wanted(a) ensures a.identifier in DatabaseIds(w, ns) + AdoptedIds(w, ns) {
      if a.identifier !in have {
        assert a in Missing(listing, have);
        assert a.identifier in Ids(Missing(listing, have));
      }
    }
  }

  lemma NothingMissing(listing: seq<AwsInstance>, have: set<string>)
    ensures Missing(listing, have) == [] <==> forall a <- listing :: Wanted(a) ==> a.identifier in have
  {
    MissingIsTheDifference(listing, have);
    if Missing(listing, have) != [] {
      assert Missing(listing, have)[0] in Missing(listing, have);
    }
  }

  /** An entry the loop comes to is not among those it has adopted. */
  lemma NotYetCreated(listing: seq<AwsInstance>, i: nat, have: set<string>)
    requires i < |listing| && DistinctIds(listing)
    ensures listing[i].identifier !in Ids(Missing(listing[..i], have))
  {
    MissingIsTheDifference(listing[..i], have);
    forall a <- Missing(listing[..i], have) ensures a.identifier != listing[i].identifier {
      assert a in listing[..i];
    }
  }

  /** What the turn for the entry i adds to what is created. */
  lemma TurnOf(listing: seq<AwsInstance>, i: nat, have: set<string>)
    requires i < |listing|
    ensures Missing(listing[..i], have) <= Missing(listing, have)
    ensures Missing(listing[..i + 1], have) <= Missing(listing, have)
    ensures var created, a := Missing(listing[..i], have), listing[i];
            if Wanted(a) && a.identifier !in have
            then Missing(listing[..i + 1], have) == created + [a] == Missing(listing, have)[..|created| + 1]
                 && (DistinctIds(listing) ==> a.identifier !in have + Ids(created))
            else Missing(listing[..i + 1], have) == created
  {
    MissingStep(listing, i, have);
    MissingGrows(listing, i, have);
    MissingGrows(listing, i + 1, have);
    if DistinctIds(listing) { NotYetCreated(listing, i, have); }
  }

  lemma NothingRequested(c: Cluster, key: Key, have: set<string>)
    requires c.Valid() && HasFinalizer(c.w, key) && Known(c.w, key.ns, have)
    ensures Missing([], have) == [] && Adopting(c, c.w, c.outside, c.writes, key, have, [])
  {
    KeepsReflexive(InventoryWorker, c.w);
    assert have + Ids([]) == have;
  }

  /** What holds while the loop runs, `created` being requested so far. */
  ghost predicate Adopting(c: Cluster, begin: World, n: nat, m: nat, key: Key, have: set<string>,
                           created: seq<AwsInstance>)
    reads c
  {
    && c.Valid() && Keeps(InventoryWorker, {Owned}, begin, c.w) && c.outside >= n
    && HasFinalizer(c.w, key) && Known(c.w, key.ns, have + Ids(created))
    && (c.outside == n ==> RequestedAll(begin, c.w, key.ns, created))
    && (created == [] ==> c.w == begin && c.outside == n && c.writes == m)
  }

  method AdoptNext(c: Cluster, key: Key, a: AwsInstance, have: set<string>,
                   ghost begin: World, ghost n: nat, ghost m: nat, ghost created: seq<AwsInstance>)
    returns (e: Option<Error>)
    requires Adopting(c, begin, n, m, key, have, created)
    requires c.w.distinctListing ==> a.identifier !in have + Ids(created)
    modifies c
    ensures c.Valid() && Keeps(InventoryWorker, {Owned}, begin, c.w) && c.outside >= n
    ensures c.w.distinctListing ==> old(c.w).distinctListing
    ensures if e.None? then c.faults == old(c.faults) && Adopting(c, begin, n, m, key, have, created + [a])
            else c.faults > old(c.faults)
    ensures e.Some? && c.outside == n ==>
              RequestedAll(begin, c.w, key.ns, created) || RequestedAll(begin, c.w, key.ns, created + [a])
  {
    ghost var before, name := c.w, key;
    e, name := Adopt(c, key, a.identifier, have + Ids(created));
    KeepsTransitive(InventoryWorker, {Owned}, {Owned}, {Owned}, begin, before, c.w);
    StaysFinalized(before, c.w, key);
    assert Ids(created + [a]) == Ids(created) + {a.identifier};
    assert have + Ids(created + [a]) == have + Ids(created) + {a.identifier};
  }

  /** The loop over the listing: requests one AdoptedResource for each missing
      entry, in order, until one fails. */
  method AdoptAll(c: Cluster, key: Key, listing: seq<AwsInstance>, have: set<string>)
    returns (e: Option<Error>, adopting: bool, aws: map<string, AwsInstance>, ghost created: seq<AwsInstance>)
    requires c.Valid() && HasFinalizer(c.w, key) && Known(c.w, key.ns, have)
    requires c.w.distinctListing ==> DistinctIds(listing)
    modifies c
    ensures c.Valid() && Keeps(InventoryWorker, {Owned}, old(c.w), c.w) && c.outside >= old(c.outside)
    ensures created <= Missing(listing, have)
    ensures e.Some? ==> c.faults > old(c.faults) && created < Missing(listing, have)
    ensures e.Some? && c.outside == old(c.outside) ==>
              || RequestedAll(old(c.w), c.w, key.ns, created)
              || RequestedAll(old(c.w), c.w, key.ns, Missing(listing, have)[..|created| + 1])
    ensures e.None? ==>
              && c.faults == old(c.faults) && created == Missing(listing, have)
              && Adopting(c, old(c.w), old(c.outside), old(c.writes), key, have, created)
              && aws == ByIdentifier(listing) && Tabulates(aws, listing)
    ensures adopting <==> created != []
  {
    hide Known, RequestedAll, HasFinalizer, Keeps, Missing, DistinctIds, Tabulates;
    ghost var begin, n, m := c.w, c.outside, c.writes;
    NothingRequested(c, key, have);
    e, adopting, aws, created := None, false, map[], [];
    for i := 0 to |listing|
      invariant Adopting(c, begin, n, m, key, have, created) && c.faults == old(c.faults)
      invariant c.w.distinctListing ==> DistinctIds(listing)
      invariant e.None? && created == Missing(listing[..i], have) && (adopting <==> created != [])
      invariant aws == ByIdentifier(listing[..i])
    {
      var a := listing[i];
      aws := aws[a.identifier := a];
      assert listing[..i + 1][..i] == listing[..i];
      TurnOf(listing, i, have);
      if Wanted(a) && a.identifier !in have {
        e := AdoptNext(c, key, a, have, begin, n, m, created);
        if e.Some? { return; }
        created := created + [a];
        adopting := true;
      }
    }
    assert listing[..|listing|] == listing;
    ByIdentifierTabulates(listing);
  }

  /** The identifiers in either list; the second is read in the state `read`. */
  method ReadKnown(c: Cluster, key: Key) returns (r: Result<set<string>>, ghost read: World)
    requires c.Valid() && HasFinalizer(c.w, key)
    modifies c
    ensures c.Valid() && c.Since(InventoryWorker, old(c.w), old(c.outside)) && c.writes == old(c.writes)
    ensures Rely(InventoryWorker, old(c.w), read) && (c.outside == old(c.outside) ==> read == old(c.w))
    ensures HasFinalizer(c.w, key) && (c.w.distinctListing ==> old(c.w).distinctListing)
    ensures match r
            case Ok(have) =>
              && c.faults == old(c.faults) && Known(c.w, key.ns, have)
              && have == DatabaseIds(old(c.w), key.ns) + AdoptedIds(read, key.ns)
            case Err(_) => c.faults > old(c.faults)
  {
    hide Known, HasFinalizer;
    ghost var begin := c.w;
    read := begin;
    KeepsReflexive(InventoryWorker, begin);
    var dbs := ReadDatabaseIds(c, key.ns);
    StaysFinalized(begin, c.w, key);
    if dbs.Err? {
      r := Err(dbs.error);
      return;
    }
    read := c.w;
    var adopted := ReadAdoptedIds(c, key.ns);
    KeepsTransitive(InventoryWorker, {}, {}, {}, begin, read, c.w);
    StaysFinalized(begin, c.w, key);
    if adopted.Err? {
      r := Err(adopted.error);
      return;
    }
    KnownOnRead(read, c.w, key.ns, dbs.value + adopted.value);
    r := Ok(dbs.value + adopted.value);
  }

  /** Reads both lists and adopts what is missing in them; `what` says what failed. */
  method AdoptMissing(c: Cluster, key: Key, listing: seq<AwsInstance>)
    returns (r: Result<bool>, what: What, aws: map<string, AwsInstance>, ghost read: World,
      ghost created: seq<AwsInstance>)
    requires c.Valid() && HasFinalizer(c.w, key) && (c.w.distinctListing ==> DistinctIds(listing))
    modifies c
    ensures c.Valid() && Keeps(InventoryWorker, {Owned}, old(c.w), c.w) && c.outside >= old(c.outside)
    ensures Rely(InventoryWorker, old(c.w), read)
    ensures created <= Missing(listing, DatabaseIds(old(c.w), key.ns) + AdoptedIds(read, key.ns))
    ensures forall a <- created ::
              && a in listing && a.state != Some("deleting")
              && a.identifier !in DatabaseIds(old(c.w), key.ns) && a.identifier !in AdoptedIds(read, key.ns)
    ensures match r
            case Err(_) => c.faults > old(c.faults)
            case Ok(adopting) =>
              && c.faults == old(c.faults) && aws == ByIdentifier(listing) && Tabulates(aws, listing)
              && (adopting <==> created != [])
              && created == Missing(listing, DatabaseIds(old(c.w), key.ns) + AdoptedIds(read, key.ns))
              && (c.outside == old(c.outside) ==> Covered(c.w, key.ns, listing))
              && (!adopting ==> c.Since(InventoryWorker, old(c.w), old(c.outside)) && c.writes == old(c.writes))
    ensures Covered(old(c.w), key.ns, listing) && c.outside == old(c.outside) ==>
              c.w == old(c.w) && c.writes == old(c.writes) && (r.Ok? ==> r == Ok(false))
  {
    hide Covered, RequestedAll, Known, Missing, HasFinalizer, DistinctIds, DatabaseIds, AdoptedIds, Tabulates;
    ghost var begin := c.w;
    created, what, aws := [], GetInstancesFailed, map[];
    var known;
    known, read := ReadKnown(c, key);
    if known.Err? {
      Weaken(begin, c.w);
      r := Err(known.error);
      return;
    }
    var have := known.value;
    ghost var listed := c.w;
    if c.outside == old(c.outside) { CoveredIffNothingMissing(begin, key.ns, listing); }
    var e, adopting;
    what := AdoptFailed;
    e, adopting, aws, created := AdoptAll(c, key, listing, have);
    KeepsTransitive(InventoryWorker, {}, {Owned}, {Owned}, begin, listed, c.w);
    MissingIsTheDifference(listing, have);
    if e.Some? {
      r := Err(e.value);
      return;
    }
    if c.outside == old(c.outside) { CoveredAfter(begin, c.w, key.ns, listing); }
    r := Ok(adopting);
  }

  lemma Weaken(w: World, w': World)
    requires Rely(InventoryWorker, w, w')
    ensures Keeps(InventoryWorker, {Owned}, w, w')
  {
  }

  lemma CoveredIffNothingMissing(w: World, ns: string, listing: seq<AwsInstance>)
    ensures Covered(w, ns, listing) <==> Missing(listing, DatabaseIds(w, ns) + AdoptedIds(w, ns)) == []
  {
    NothingMissing(listing, DatabaseIds(w, ns) + AdoptedIds(w, ns));
  }
}
