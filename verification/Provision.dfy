/** Provisioning the DBInstance of an RDSInstance: its spec from the parameters,
    and the create or update that needs it (setDBInstanceSpec,
    createOrUpdateDBInstance). */
module Provision {
  import opened Wrappers
  import opened Store
  import opened Owner
  import opened Database
  import opened World
  import opened Protocol
  import opened Runs
  import opened Interference
  import opened Api
  import opened Secrets
  import Credential
  import Status
  import Text

  method SetNames(params: Params, current: Spec) returns (r: Result<Spec>)
    ensures r == FromNames(params, current)
  {
    hide Missing;
    var spec := current;
    if Engine !in params { return Err(Missing(Engine)); }
    spec := spec.(engine := params[Engine]);
    if EngineVersion in params { spec := spec.(engineVersion := Some(params[EngineVersion])); }
    if DBInstanceIdentifier !in params { return Err(Missing(DBInstanceIdentifier)); }
    spec := spec.(identifier := params[DBInstanceIdentifier]);
    if DBInstanceClass !in params { return Err(Missing(DBInstanceClass)); }
    spec := spec.(instanceClass := params[DBInstanceClass]);
    if StorageType in params { spec := spec.(storageType := Some(params[StorageType])); }
    r := Ok(spec);
  }

  method SetSizes(params: Params, current: Spec) returns (r: Result<Spec>)
    ensures r == FromSizes(params, current)
  {
    hide Missing, BadValue, Text.ParseInt, Text.Split, Text.ParseBool;
    var spec := current;
    if AllocatedStorage !in params { return Err(Missing(AllocatedStorage)); }
    var i := Text.ParseInt(params[AllocatedStorage]);
    if i.None? { return Err(BadValue(AllocatedStorage)); }
    spec := spec.(allocatedStorage := i);
    if IOPS in params {
      i := Text.ParseInt(params[IOPS]);
      if i.None? { return Err(BadValue(IOPS)); }
      spec := spec.(iops := i);
    }
    if MaxAllocatedStorage in params {
      i := Text.ParseInt(params[MaxAllocatedStorage]);
      if i.None? { return Err(BadValue(MaxAllocatedStorage)); }
      spec := spec.(maxAllocatedStorage := i);
    }
    if DBSubnetGroupName in params { spec := spec.(subnetGroup := Some(params[DBSubnetGroupName])); }
    if PubliclyAccessible in params {
      var b := Text.ParseBool(params[PubliclyAccessible]);
      if b.None? { return Err(BadValue(PubliclyAccessible)); }
      spec := spec.(publiclyAccessible := b);
    }
    if VPCSecurityGroupIDs in params { spec := spec.(securityGroups := Some(Text.Split(params[VPCSecurityGroupIDs],
      ','))); }
    if LicenseModel in params { spec := spec.(licenseModel := Some(params[LicenseModel])); }
    r := Ok(spec);
  }

  /** The parameters, field by field; nothing else has happened when one is
      missing or does not parse. */
  method SetParameters(params: Params, current: Spec) returns (r: Result<Spec>)
    ensures r == FromParams(params, current)
  {
    hide FromNames, FromSizes;
    r := SetNames(params, current);
    if r.Ok? { r := SetSizes(params, r.value); }
  }

  function SecretOf(x: Key): Key {
    CredentialKey(x.ns, x.name)
  }

  const NOTHING_OBSERVED: Status.Observed := Status.Leaves(map[], map[])
  const BLANK: DBInstance := DBInstance(false, map[], false, EMPTY, NOTHING_OBSERVED, [])

  /** The DBInstance as the RDSInstance x wants it, from what there is. */
  function Wanted(x: Key, o: Instance, d: DBInstance): Result<DBInstance> {
    match Build(o.params, o.region, SecretOf(x), d.spec)
    case Err(e) => Err(e)
    case Ok(spec) => Ok(d.(annotations := SetOwner(d.annotations, InstanceType(), x), spec := spec))
  }

  function CredentialsFailed(): Error {
    Invalid("failed to set credentials for DB instance")
  }

  lemma WantedIffAcceptable(x: Key, o: Instance, d: DBInstance)
    ensures Wanted(x, o, d).Ok? <==> Acceptable(o.params)
    ensures FromParams(o.params, d.spec).Ok? <==> Acceptable(o.params)
  {
    BuildIffAcceptable(o.params, o.region, SecretOf(x), d.spec);
  }

  /** Wanting it again changes nothing. */
  lemma WantedIsStable(x: Key, o: Instance, d: DBInstance)
    requires Wanted(x, o, d).Ok?
    ensures Wanted(x, o, Wanted(x, o, d).value) == Wanted(x, o, d)
  {
    BuildIdempotent(o.params, o.region, SecretOf(x), d.spec);
    var a := SetOwner(d.annotations, InstanceType(), x);
    assert TypeAnnotation() != NameAnnotation() by { assert |TypeAnnotation()| != |NameAnnotation()|; }
    assert SetOwner(a, InstanceType(), x) == a;
  }

  lemma WantedIsOwned(x: Key, o: Instance, d: DBInstance)
    requires Wanted(x, o, d).Ok? && '/' !in x.ns
    ensures ProvisionedBy(Wanted(x, o, d).value) == Some(x)
    ensures Wanted(x, o, d).value ==
            d.(annotations := Wanted(x, o, d).value.annotations, spec := Wanted(x, o, d).value.spec)
    // and its spec is what the parameters say, with the password of x
    ensures Acceptable(o.params)
            && Honours(o.params, o.region, Key(x.ns, x.name + "-credentials"), d.spec, Wanted(x, o, d).value.spec)
  {
    hide Honours, Acceptable;
    WantedIffAcceptable(x, o, d);
    BuildHonours(o.params, o.region, SecretOf(x), d.spec);
    OwnerRoundTrip(d.annotations, InstanceType(), x);
  }

  /** The mutation of createOrUpdateDBInstance. Everything is parsed before the
      credentials are touched: unacceptable parameters cause no call at all. */
  method SetDBInstanceSpec(c: Cluster, x: Key, o: Instance, d: DBInstance) returns (r: Result<DBInstance>)
    requires c.Valid()
    modifies c
    ensures c.Valid() && Rely(InstanceWorker(x), old(c.w), c.w) && c.outside >= old(c.outside)
            && c.faults >= old(c.faults)
    ensures Follows(old(c.run), c.run)
    ensures r.Ok? ==> c.faults == old(c.faults)
    ensures r.Ok? || !Acceptable(o.params) ==> r == Wanted(x, o, d)
    ensures r.Ok? && c.outside == old(c.outside) ==> HasPassword(c.w, SecretOf(x)) && c.w.dbs == old(c.w).dbs
    ensures !Acceptable(o.params) ==> r.Err? && c.w == old(c.w) && c.writes == old(c.writes)
    ensures Acceptable(o.params) && r.Err? ==> c.faults > old(c.faults)
    ensures HasPassword(old(c.w), SecretOf(x)) ==>
            c.writes == old(c.writes) && (c.outside == old(c.outside) ==> c.w == old(c.w))
  {
    hide FromParams, Acceptable, FillsIn, CredentialsFailed;
    KeepsReflexive(InstanceWorker(x), c.w);
    FollowsSelf(c.run);
    WantedIffAcceptable(x, o, d);
    var spec := SetParameters(o.params, d.spec);
    if spec.Err? {
      return Err(spec.error);
    }
    var password;
    ghost var at;
    password, at := SetCredentials(c, InstanceWorker(x), SecretOf(x), ByInstance(x));
    if password.Err? {
      return Err(CredentialsFailed());
    }
    var complete := WithCredentials(spec.value, SecretOf(x));
    complete := complete.(dbName := Credential.GenerateDBName(complete.engine), availabilityZone := Some(o.region));
    r := Ok(d.(annotations := SetOwner(d.annotations, InstanceType(), x), spec := complete));
  }

  datatype Operation = Created | Updated | Unchanged

  /** Where CreateOrUpdate failed: in the mutation or in a call of its own. */
  datatype Failure = Mutation(error: Error) | Calling(error: Error)

  /** x holds its finalizer and still provisions into the namespace of its copy. */
  ghost predicate Holding(w: World, x: Key, o: Instance) {
    HoldsInstance(w, x) && w.instances[x].it.inventoryRef == o.inventoryRef
  }

  lemma StaysHolding(w: World, w': World, x: Key, o: Instance, except: set<Concern>)
    requires Holding(w, x, o) && Keeps(InstanceWorker(x), except, w, w') && Instances !in except
    ensures Holding(w', x, o)
    ensures w.instances[x].it.deleting ==> w'.instances[x].it.deleting
  {
    assert Kept(Instances, InstanceWorker(x), w, w');
  }

  lemma MayProvision(w: World, x: Key, o: Instance, d: DBInstance)
    requires Holding(w, x, o) && ProvisionedBy(d) == Some(x)
    requires var k := DatabaseKey(x, o);
             if k in w.dbs then d.adopted == w.dbs[k].it.adopted && d.deleting == w.dbs[k].it.deleting
               && d != w.dbs[k].it
             else !d.adopted
    ensures Allowed(w, InstanceWorker(x), DatabaseTo(DatabaseKey(x, o), Some(d)))
  {
  }

  lemma DatabaseCopied(w: World, w': World, x: Key, k: Key)
    requires Versions(w) && k in w.dbs && Keeps(InstanceWorker(x), {}, w, w')
    ensures Faithful(w'.dbs, k, w.dbs[k], w'.clock)
  {
    assert Kept(DatabaseOrder, InstanceWorker(x), w, w') && Kept(Clock, InstanceWorker(x), w, w');
    StaysFaithful(w.dbs, w'.dbs, k, w.dbs[k], w.clock, w'.clock);
  }

  /** The DBInstance is as wanted and its password is in place. */
  ghost predicate Done(w: World, x: Key, o: Instance) {
    && DatabaseKey(x, o) in w.dbs && HasPassword(w, SecretOf(x))
    && Wanted(x, o, w.dbs[DatabaseKey(x, o)].it) == Ok(w.dbs[DatabaseKey(x, o)].it)
  }

  lemma DoneAfter(w: World, x: Key, o: Instance, d: DBInstance, d': DBInstance, hit: World)
    requires After(w, DatabaseTo(DatabaseKey(x, o), Some(d')), hit) && HasPassword(w, SecretOf(x))
             && Wanted(x, o, d) == Ok(d')
    ensures Done(hit, x, o)
  {
    var c := DatabaseTo(DatabaseKey(x, o), Some(d'));
    assert PartAfter(TheDatabases, w, c, hit) && PartAfter(TheSecrets, w, c, hit);
    WantedIsStable(x, o, d);
  }

  /** The DBInstance k is d. */
  ghost predicate Stores(w: World, k: Key, d: DBInstance) {
    k in w.dbs && w.dbs[k].it == d
  }

  /** The DBInstance is what x wants of d. */
  ghost predicate IsWanted(w: World, x: Key, o: Instance, d: DBInstance) {
    Wanted(x, o, d).Ok? && Stores(w, DatabaseKey(x, o), Wanted(x, o, d).value)
  }

  lemma StoresAfter(w: World, k: Key, d: DBInstance, hit: World)
    requires After(w, DatabaseTo(k, Some(d)), hit)
    ensures Stores(hit, k, d)
  {
    assert PartAfter(TheDatabases, w, DatabaseTo(k, Some(d)), hit);
  }

  lemma DoneMeans(w: World, x: Key, o: Instance)
    ensures Done(w, x, o) ==>
              && DatabaseKey(x, o) in w.dbs && HasPassword(w, SecretOf(x)) && Acceptable(o.params)
              && Wanted(x, o, w.dbs[DatabaseKey(x, o)].it) == Ok(w.dbs[DatabaseKey(x, o)].it)
  {
    if Done(w, x, o) { WantedIffAcceptable(x, o, w.dbs[DatabaseKey(x, o)].it); }
  }

  const PROVISION: set<Concern> := {AddedReferences, Provisions}

  lemma Weaken(x: Key, w: World, w': World)
    requires Rely(InstanceWorker(x), w, w')
    ensures Keeps(InstanceWorker(x), PROVISION, w, w')
  {
  }

  method Create(c: Cluster, x: Key, o: Instance) returns (failure: Option<Failure>)
    requires c.Valid() && Holding(c.w, x, o) && '/' !in x.ns
    modifies c
    ensures c.Valid() && Keeps(InstanceWorker(x), PROVISION, old(c.w), c.w) && Follows(old(c.run), c.run)
    ensures c.outside >= old(c.outside) && c.faults >= old(c.faults)
    ensures failure.None? ==> Acceptable(o.params) && c.faults == old(c.faults)
    ensures failure.Some? ==> c.faults > old(c.faults) || (!Acceptable(o.params) && failure.value.Mutation?)
    ensures !Acceptable(o.params) ==> c.writes == old(c.writes)
    ensures failure.None? && c.outside == old(c.outside) ==> Done(c.w, x, o)
  {
    hide Done, Wanted, Acceptable, Honours, Keeps, Follows, Holding, HasPassword;
    ghost var begin := c.w;
    var d := SetDBInstanceSpec(c, x, o, BLANK);
    ghost var specified, way := c.w, c.run;
    Weaken(x, begin, specified);
    if d.Err? {
      return Some(Mutation(d.error));
    }
    WantedIffAcceptable(x, o, BLANK);
    WantedIsOwned(x, o, BLANK);
    StaysHolding(begin, specified, x, o, {});
    var k := DatabaseKey(x, o);
    if k !in specified.dbs { MayProvision(specified, x, o, d.value); }
    var created := c.CreateDatabase(InstanceWorker(x), k, d.value);
    KeepsTransitive(InstanceWorker(x), PROVISION, PROVISION, PROVISION, begin, specified, c.w);
    FollowsOn(old(c.run), way, c.run);
    if created.Err? {
      return Some(Calling(created.error));
    }
    if c.outside == old(c.outside) { DoneAfter(specified, x, o, BLANK, d.value, c.hit); }
    failure := None;
  }

  /** Writes the DBInstance as wanted, over the copy that was read. */
  method WriteWanted(c: Cluster, x: Key, o: Instance, got: Obj<DBInstance>, d: DBInstance) returns (e: Option<Error>)
    requires c.Valid() && Holding(c.w, x, o) && '/' !in x.ns
    requires Faithful(c.w.dbs, DatabaseKey(x, o), got, c.w.clock)
    requires Wanted(x, o, got.it) == Ok(d) && d != got.it
    modifies c
    ensures c.Valid() && Keeps(InstanceWorker(x), PROVISION, old(c.w), c.w) && Follows(old(c.run), c.run)
    ensures c.outside >= old(c.outside) && if e.None? then c.faults == old(c.faults) else c.faults > old(c.faults)
    ensures e.None? && c.outside == old(c.outside) ==> Stores(c.w, DatabaseKey(x, o), d)
    ensures e.None? && c.outside == old(c.outside) && HasPassword(old(c.w), SecretOf(x)) ==> Done(c.w, x, o)
  {
    hide Wanted, Done;
    ghost var before := c.w;
    WantedIsOwned(x, o, got.it);
    if Current(c.w.dbs, DatabaseKey(x, o), got) { MayProvision(c.w, x, o, d); }
    var updated := c.UpdateDatabase(InstanceWorker(x), DatabaseKey(x, o), Obj(got.rv, d));
    if updated.Err? {
      return Some(updated.error);
    }
    StoresAfter(before, DatabaseKey(x, o), d, c.hit);
    if HasPassword(before, SecretOf(x)) { DoneAfter(before, x, o, got.it, d, c.hit); }
    e := None;
  }

  method UpdateIfChanged(c: Cluster, x: Key, o: Instance, got: Obj<DBInstance>)
    returns (r: Operation, failure: Option<Failure>)
    requires c.Valid() && Holding(c.w, x, o) && '/' !in x.ns
    requires Faithful(c.w.dbs, DatabaseKey(x, o), got, c.w.clock)
    modifies c
    ensures c.Valid() && Keeps(InstanceWorker(x), PROVISION, old(c.w), c.w) && Follows(old(c.run), c.run)
    ensures c.outside >= old(c.outside) && c.faults >= old(c.faults) && r != Created
    ensures failure.None? ==> Acceptable(o.params) && c.faults == old(c.faults)
    ensures failure.Some? ==> c.faults > old(c.faults) || (!Acceptable(o.params) && failure.value.Mutation?)
    ensures !Acceptable(o.params) ==> c.writes == old(c.writes)
    ensures failure.None? && c.outside == old(c.outside) ==>
              DatabaseKey(x, o) in old(c.w).dbs && old(c.w).dbs[DatabaseKey(x, o)] == got ==>
                Done(c.w, x, o) && IsWanted(c.w, x, o, got.it)
    ensures failure.None? ==> (r == Updated <==> Wanted(x, o, got.it) != Ok(got.it))
    ensures HasPassword(old(c.w), SecretOf(x)) && Wanted(x, o, got.it) == Ok(got.it) ==>
              && c.writes == old(c.writes) && r == Unchanged && (c.outside == old(c.outside) ==> c.w == old(c.w))
  {
    hide Wanted, Acceptable;
    r := Unchanged;
    ghost var begin := c.w;
    var d := SetDBInstanceSpec(c, x, o, got.it);
    ghost var specified, way := c.w, c.run;
    Weaken(x, begin, specified);
    if d.Err? {
      failure := Some(Mutation(d.error));
      return;
    }
    WantedIffAcceptable(x, o, got.it);
    if d.value == got.it {
      failure := None;
      return;
    }
    StaysHolding(begin, specified, x, o, {});
    StaysCopied(begin, specified, x, DatabaseKey(x, o), got);
    var e := WriteWanted(c, x, o, got, d.value);
    KeepsTransitive(InstanceWorker(x), PROVISION, PROVISION, PROVISION, begin, specified, c.w);
    FollowsOn(old(c.run), way, c.run);
    if e.Some? {
      failure := Some(Calling(e.value));
      return;
    }
    r, failure := Updated, None;
  }

  lemma StaysCopied(w: World, w': World, x: Key, k: Key, o: Obj<DBInstance>)
    requires Faithful(w.dbs, k, o, w.clock) && Rely(InstanceWorker(x), w, w')
    ensures Faithful(w'.dbs, k, o, w'.clock)
  {
    assert Kept(DatabaseOrder, InstanceWorker(x), w, w') && Kept(Clock, InstanceWorker(x), w, w');
    StaysFaithful(w.dbs, w'.dbs, k, o, w.clock, w'.clock);
  }

  /** createOrUpdateDBInstance's CreateOrUpdate: all or nothing in the parameters,
      and nothing at all the second time. */
  method CreateOrUpdate(c: Cluster, x: Key, o: Instance) returns (r: Operation, failure: Option<Failure>)
    requires c.Valid() && Holding(c.w, x, o) && '/' !in x.ns
    modifies c
    ensures c.Valid() && Keeps(InstanceWorker(x), PROVISION, old(c.w), c.w) && Follows(old(c.run), c.run)
    ensures c.outside >= old(c.outside) && c.faults >= old(c.faults)
    ensures failure.None? ==> Acceptable(o.params) && c.faults == old(c.faults)
    ensures failure.Some? ==> c.faults > old(c.faults) || (!Acceptable(o.params) && failure.value.Mutation?)
    ensures failure.None? ==> (r == Created <==> DatabaseKey(x, o) !in old(c.w).dbs)
    ensures failure.None? && DatabaseKey(x, o) in old(c.w).dbs ==>
              (r == Updated <==> var d := old(c.w).dbs[DatabaseKey(x, o)].it; Wanted(x, o, d) != Ok(d))
    ensures !Acceptable(o.params) ==> c.writes == old(c.writes)
    ensures failure.None? && c.outside == old(c.outside) ==> Done(c.w, x, o)
    ensures failure.None? && c.outside == old(c.outside) && DatabaseKey(x, o) in old(c.w).dbs ==>
              IsWanted(c.w, x, o, old(c.w).dbs[DatabaseKey(x, o)].it)
    ensures Done(old(c.w), x, o) ==> c.outside == old(c.outside) ==>
              c.writes == old(c.writes) && c.w == old(c.w) && (failure.None? ==> r == Unchanged)
  {
    hide Done, Wanted, Acceptable;
    ghost var begin := c.w;
    r := Unchanged;
    c.Have(Versioning);
    DoneMeans(begin, x, o);
    var k := DatabaseKey(x, o);
    var got := c.GetDatabase(InstanceWorker(x), k);
    ghost var read, looked := c.w, c.run;
    Weaken(x, begin, read);
    StaysHolding(begin, read, x, o, {});
    if got == Err(NotFound) {
      r := Created;
      failure := Create(c, x, o);
      KeepsTransitive(InstanceWorker(x), {}, PROVISION, PROVISION, begin, read, c.w);
      FollowsOn(old(c.run), looked, c.run);
    } else if got.Err? {
      failure := Some(Calling(got.error));
    } else {
      DatabaseCopied(begin, read, x, k);
      r, failure := UpdateIfChanged(c, x, o, got.value);
      KeepsTransitive(InstanceWorker(x), {}, PROVISION, PROVISION, begin, read, c.w);
      FollowsOn(old(c.run), looked, c.run);
    }
  }
}
