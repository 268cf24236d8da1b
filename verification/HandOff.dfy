/** Handing a generated master password to an adopted DBInstance: the secret
    first, then AWS, then the reference in its spec (the second half of
    adoptDBInstances). */
module HandOff {
  import opened Wrappers
  import opened Store
  import opened Conditions
  import opened Database
  import opened World
  import opened Protocol
  import opened Runs
  import opened Interference
  import opened Outcomes
  import opened Api
  import opened Secrets
  import Credential

  type AwsMap = map<string, AwsInstance>

  function AvailableState(): string { "available" }

  // ------------------------------------------------ what becomes of a DBInstance

  /** Connection data AWS knows and the spec lacks. */
  function Fill(d: DBInstance, aws: AwsMap): DBInstance {
    if d.spec.identifier !in aws then d
    else
      var a := aws[d.spec.identifier];
      d.(spec := d.spec.(
        masterUsername := if d.spec.masterUsername.None? then a.masterUsername else d.spec.masterUsername,
        dbName := if d.spec.dbName.None? then a.dbName else d.spec.dbName))
  }

  /** It has no password yet, and is in a state other than available. */
  predicate Waits(d: DBInstance) {
    d.spec.masterUserPassword.None? && d.State().Some? && d.State().value != AvailableState()
  }

  /** It is to be handed a password. */
  predicate Due(d: DBInstance) {
    d.spec.masterUserPassword.None? && !Waits(d)
  }

  function Refer(k: Key, d: DBInstance): DBInstance {
    d.(spec := WithCredentials(d.spec, CredentialOf(k)))
  }

  function AfterHandOff(k: Key, d: DBInstance, aws: AwsMap): DBInstance {
    if Due(d) then Refer(k, Fill(d, aws)) else Fill(d, aws)
  }

  /** Filling in only adds: what the spec has stays, what it lacks and AWS knows is
      taken from the entry with its identifier, and nothing else changes. */
  lemma FillOnlyAdds(d: DBInstance, aws: AwsMap)
    ensures d.spec.masterUsername.Some? ==> Fill(d, aws).spec.masterUsername == d.spec.masterUsername
    ensures d.spec.dbName.Some? ==> Fill(d, aws).spec.dbName == d.spec.dbName
    ensures d.spec.identifier in aws ==>
              && (d.spec.masterUsername.None? ==>
                   Fill(d, aws).spec.masterUsername == aws[d.spec.identifier].masterUsername)
              && (d.spec.dbName.None? ==> Fill(d, aws).spec.dbName == aws[d.spec.identifier].dbName)
    ensures SameDatabase(d, Fill(d, aws)) && (d.spec.identifier !in aws ==> Fill(d, aws) == d)
  {
  }

  lemma FillKeepsTheRest(d: DBInstance, aws: AwsMap)
    ensures Fill(d, aws).spec.masterUserPassword == d.spec.masterUserPassword && Fill(d, aws).State() == d.State()
    ensures Fill(d, aws).spec.identifier == d.spec.identifier
  {
  }

  /** Nobody is starved: a DBInstance leaves without a reference to a password
      exactly when it came without one and is not available. */
  lemma LeftWithoutIffWaits(k: Key, d: DBInstance, aws: AwsMap)
    ensures AfterHandOff(k, d, aws).spec.masterUserPassword.None? <==> Waits(d)
    ensures d.spec.masterUserPassword.Some? ==>
            AfterHandOff(k, d, aws).spec.masterUserPassword == d.spec.masterUserPassword
  {
  }

  /** Handing off again changes nothing more. */
  lemma HandOffIsIdempotent(k: Key, d: DBInstance, aws: AwsMap)
    ensures AfterHandOff(k, AfterHandOff(k, d, aws), aws) == AfterHandOff(k, d, aws)
  {
  }

  // --------------------------------------------------------- what may be relied on

  /** Every adopted instance that refers to a password was adopted, under the same
      identifier, when the pass listed them, and referred to one already unless the
      pass has been at it since. */
  ghost predicate RefsKnown(from: World, done: set<Key>, w: World) {
    forall j <- w.dbs :: HandedOff(w, j) && j !in w.contested ==>
      IsAdopted(from, j) && IdOf(from, j) == IdOf(w, j) && (j in done || HandedOff(from, j))
  }

  lemma RefsKnownMore(from: World, done: set<Key>, k: Key, w: World)
    requires RefsKnown(from, done, w)
    ensures RefsKnown(from, done + {k}, w)
  {
  }

  lemma StaysRefsKnown(from: World, done: set<Key>, w: World, w': World, except: set<Concern>)
    requires RefsKnown(from, done, w) && Keeps(InventoryWorker, except, w, w')
    requires Clock !in except && AddedReferences !in except
    ensures RefsKnown(from, done, w')
  {
    assert Kept(AddedReferences, InventoryWorker, w, w') && Kept(Clock, InventoryWorker, w, w');
  }

  /** The copy of an adopted instance that the pass works on. */
  ghost predicate Working(from: World, done: set<Key>, w: World, k: Key, o: Obj<DBInstance>) {
    && Faithful(w.dbs, k, o, w.clock) && RefsKnown(from, done, w)
    && IsAdopted(from, k) && o.it.adopted && o.it.spec.identifier == IdOf(from, k)
    && o.it.spec.masterUserPassword == from.dbs[k].it.spec.masterUserPassword && k !in done
    && k in w.everAdopted && Recorded(from) && from.contested <= w.contested
  }

  lemma StaysWorking(from: World, done: set<Key>, w: World, w': World, k: Key, o: Obj<DBInstance>, except: set<Concern>)
    requires Working(from, done, w, k, o) && Keeps(InventoryWorker, except, w, w')
    requires Clock !in except && DatabaseOrder !in except && AddedReferences !in except
    ensures Working(from, done, w', k, o)
  {
    StaysRefsKnown(from, done, w, w', except);
    assert Kept(Clock, InventoryWorker, w, w') && Kept(DatabaseOrder, InventoryWorker, w, w');
    StaysFaithful(w.dbs, w'.dbs, k, o, w.clock, w'.clock);
  }

  lemma WorkingKnows(from: World, done: set<Key>, w: World, k: Key, o: Obj<DBInstance>)
    requires Working(from, done, w, k, o)
    ensures RefsKnown(from, done, w) && k in w.everAdopted
  {
  }

  lemma ReferKeepsTheRest(k: Key, d: DBInstance)
    requires d.spec.masterUserPassword.None?
    ensures SameDatabase(d, Refer(k, d))
  {
  }

  lemma MayFill(from: World, done: set<Key>, w: World, k: Key, o: Obj<DBInstance>, aws: AwsMap)
    requires Working(from, done, w, k, o) && Current(w.dbs, k, o)
    ensures Allowed(w, InventoryWorker, DatabaseTo(k, Some(Fill(o.it, aws))))
  {
  }

  /** The secret holds this password and, when nobody interferes, keeps it. */
  ghost predicate Secured(w: World, k: Key, password: string) {
    k !in w.replaced ==> HasPassword(w, CredentialOf(k)) && PasswordAt(w, CredentialOf(k)) == password
  }

  lemma StaysSecured(w: World, w': World, k: Key, password: string, except: set<Concern>)
    requires Secured(w, k, password) && k in w.everAdopted && Keeps(InventoryWorker, except, w, w')
    requires Clock !in except && KeptPasswords !in except
    ensures Secured(w', k, password)
  {
    assert Kept(Clock, InventoryWorker, w, w') && Kept(KeptPasswords, InventoryWorker, w, w');
  }

  lemma SecuredSince(w: World, at: World, w': World, k: Key, password: string)
    requires Rely(InventoryWorker, w, at) && Rely(InventoryWorker, at, w') && k in w.everAdopted
    requires HasPassword(at, CredentialOf(k)) && PasswordAt(at, CredentialOf(k)) == password
    ensures Secured(w', k, password)
  {
    assert Kept(Clock, InventoryWorker, w, at);
    StaysSecured(at, w', k, password, {});
  }

  lemma MayTell(from: World, done: set<Key>, w: World, k: Key, o: Obj<DBInstance>, password: string)
    requires Working(from, done, w, k, o) && Secured(w, k, password) && o.it.spec.masterUserPassword.None?
    ensures Allowed(w, InventoryWorker, PasswordTo(Call(k, o.it.spec.identifier, password)))
  {
    forall j <- w.dbs | HandedOff(w, j) && j !in w.contested ensures j != k && IdOf(w, j) != o.it.spec.identifier {
      assert IsAdopted(from, j) && IdOf(from, j) == IdOf(w, j);
      assert j !in from.contested && !ContestedIn(from.dbs, from.instances, j);
    }
  }

  /** AWS has this password too. */
  ghost predicate Told(w: World, k: Key, identifier: string, password: string) {
    Secured(w, k, password) && identifier in w.awsPasswords && w.awsPasswords[identifier] == password
  }

  lemma ToldAfter(w: World, call: Call, hit: World, w': World)
    requires Secured(w, call.db, call.password) && call.db in w.everAdopted
    requires After(w, PasswordTo(call), hit) && Rely(InventoryWorker, hit, w')
    requires Keeps(InventoryWorker, {Calls}, w, w')
    ensures Told(w', call.db, call.identifier, call.password)
  {
    assert PartAfter(TheAws, w, PasswordTo(call), hit);
    assert Kept(Calls, InventoryWorker, hit, w');
    StaysSecured(w, w', call.db, call.password, {Calls});
  }

  lemma MayRefer(from: World, done: set<Key>, w: World, k: Key, o: Obj<DBInstance>, password: string)
    requires Working(from, done, w, k, o) && Current(w.dbs, k, o) && Told(w, k, o.it.spec.identifier, password)
    ensures Allowed(w, InventoryWorker, DatabaseTo(k, Some(Refer(k, o.it))))
  {
  }

  /** An update of an adopted instance that keeps its label and identifier. */
  lemma UpdatedAfter(from: World, done: set<Key>, w: World, k: Key, o: Obj<DBInstance>, d: DBInstance, hit: World,
                     w': World)
    requires Versions(w) && Working(from, done, w, k, o) && Current(w.dbs, k, o) && SameDatabase(o.it, d)
    requires After(w, DatabaseTo(k, Some(d)), hit) && Rely(InventoryWorker, hit, w')
    ensures RefsKnown(from, done + {k}, w')
    ensures d.spec.masterUserPassword == o.it.spec.masterUserPassword ==>
              Working(from, done, w', k, Stored(w.dbs, k, d, w.clock))
  {
    var c := DatabaseTo(k, Some(d));
    assert PartAfter(TheDatabases, w, c, hit) && PartAfter(ThePast, w, c, hit);
    var o' := Stored(w.dbs, k, d, w.clock);
    assert hit.dbs[k] == o' && hit.clock == w.clock + 1;
    forall j <- hit.dbs | HandedOff(hit, j) && j !in hit.contested
      ensures IsAdopted(from, j) && IdOf(from, j) == IdOf(hit, j) && (j == k || j in done || HandedOff(from, j))
    {
      if j != k { assert HandedOff(w, j); }
    }
    StaysRefsKnown(from, done + {k}, hit, w', {});
    if d.spec.masterUserPassword == o.it.spec.masterUserPassword { StaysWorking(from, done, hit, w', k, o', {}); }
  }

  lemma UpdateFills(w: World, k: Key, d: DBInstance, hit: World)
    requires k in w.dbs && SameDatabase(w.dbs[k].it, d) && After(w, DatabaseTo(k, Some(d)), hit)
    ensures FillsIn(w, hit) && hit.dbs == w.dbs[k := Stored(w.dbs, k, d, w.clock)]
    ensures SameAws(w, hit) && hit.secrets == w.secrets
  {
    FrameAfter(w, DatabaseTo(k, Some(d)), hit);
    assert PartAfter(TheDatabases, w, DatabaseTo(k, Some(d)), hit);
    assert PartAfter(TheSecrets, w, DatabaseTo(k, Some(d)), hit);
  }

  lemma UpdateFrame(w: World, k: Key, d: DBInstance, hit: World)
    requires After(w, DatabaseTo(k, Some(d)), hit)
    ensures SameAws(w, hit) && hit.secrets == w.secrets
  {
    FrameAfter(w, DatabaseTo(k, Some(d)), hit);
    assert PartAfter(TheSecrets, w, DatabaseTo(k, Some(d)), hit);
  }

  lemma TellFills(w: World, call: Call, hit: World)
    requires After(w, PasswordTo(call), hit)
    ensures FillsIn(w, hit) && hit.dbs == w.dbs && hit.secrets == w.secrets
  {
    FrameAfter(w, PasswordTo(call), hit);
    assert PartAfter(TheDatabases, w, PasswordTo(call), hit);
    assert PartAfter(TheSecrets, w, PasswordTo(call), hit);
  }

  // ------------------------------------------------------------ the protocol

  /** The secret of k has the password now. */
  ghost predicate InSecret(w: World, k: Key, password: string) {
    HasPassword(w, CredentialOf(k)) && PasswordAt(w, CredentialOf(k)) == password
  }

  /** AWS was told the password in the secret of k, for its identifier. */
  ghost predicate Synced(w: World, k: Key, id: string) {
    && HasPassword(w, CredentialOf(k))
    && id in w.awsPasswords && w.awsPasswords[id] == PasswordAt(w, CredentialOf(k))
    && Call(k, id, PasswordAt(w, CredentialOf(k))) in w.calls
  }

  /** AWS was told of no identifier but id. */
  ghost predicate TellsOnly(w: World, w': World, id: string) {
    && w.calls <= w'.calls
    && forall i <- w.awsPasswords :: i != id ==> i in w'.awsPasswords && w'.awsPasswords[i] == w.awsPasswords[i]
  }

  /** What a quiet hand-off of k leaves behind on every way out: it refers to a new
      password only after AWS was told, and AWS is told only what is in the secret. */
  ghost predicate InOrder(w: World, w': World, k: Key, id: string) {
    && TellsOnly(w, w', id)
    && (w'.calls != w.calls || w'.dbs != w.dbs ==> Synced(w', k, id))
  }

  lemma SyncedAfter(w: World, call: Call, hit: World)
    requires After(w, PasswordTo(call), hit) && InSecret(w, call.db, call.password)
    ensures Synced(hit, call.db, call.identifier) && InOrder(w, hit, call.db, call.identifier)
  {
    assert PartAfter(TheSecrets, w, PasswordTo(call), hit);
    assert PartAfter(TheAws, w, PasswordTo(call), hit);
    assert call in hit.calls;
  }

  /** What else happens to k while AWS is told nothing more. */
  lemma SyncedStays(u: World, v: World, w: World, k: Key, id: string)
    requires InOrder(u, v, k, id) && SameAws(v, w)
    requires Synced(v, k, id) ==> Synced(w, k, id)
    requires w.dbs != v.dbs ==> Synced(v, k, id)
    ensures InOrder(u, w, k, id)
  {
  }

  lemma SyncedSame(w: World, w': World, k: Key, id: string)
    requires SameAws(w, w') && w'.secrets == w.secrets
    ensures Synced(w, k, id) <==> Synced(w', k, id)
  {
  }

  lemma NothingTold(w: World, w': World, k: Key, id: string)
    requires SameAws(w, w') && w'.dbs == w.dbs
    ensures InOrder(w, w', k, id)
  {
  }

  lemma WorkingIsCopy(from: World, done: set<Key>, w: World, k: Key, o: Obj<DBInstance>)
    requires Working(from, done, w, k, o)
    ensures Faithful(w.dbs, k, o, w.clock)
  {
  }

  /** What an update refused or failed makes of the pass. */
  function Stopped(e: Error): (o: Outcome)
    ensures Interrupted(o)
  {
    if e == Conflict then ReturnUpdating(UpdatingInventory)
      else ReturnError(e, BackendError, Says(UpdateInstanceFailed))
  }

  method Update(c: Cluster, k: Key, o: Obj<DBInstance>, d: DBInstance, ghost from: World, ghost done: set<Key>)
    returns (r: Result<Obj<DBInstance>>)
    requires c.Valid() && Working(from, done, c.w, k, o) && SameDatabase(o.it, d)
    requires Current(c.w.dbs, k, o) ==> Allowed(c.w, InventoryWorker, DatabaseTo(k, Some(d)))
    modifies c
    ensures c.Valid() && Keeps(InventoryWorker, {AddedReferences, Provisions}, old(c.w), c.w)
            && c.outside >= old(c.outside)
    ensures r.Err? ==> c.faults > old(c.faults)
    ensures r.Ok? ==> c.faults == old(c.faults) && r.value.it == d && RefsKnown(from, done + {k}, c.w)
    ensures r.Ok? && d.spec.masterUserPassword == o.it.spec.masterUserPassword ==> Working(from, done, c.w, k, r.value)
    ensures r.Ok? && c.outside == old(c.outside) ==> FillsIn(old(c.w), c.w) && c.w.dbs == old(c.w).dbs[k := r.value]
    ensures c.outside == old(c.outside) ==> SameAws(old(c.w), c.w) && c.w.secrets == old(c.w).secrets
  {
    hide FillsIn, RefsKnown, Working, Keeps;
    ghost var before := c.w;
    WorkingIsCopy(from, done, before, k, o);
    c.Have(Versioning);
    r := c.UpdateDatabase(InventoryWorker, k, Obj(o.rv, d));
    if c.hit != before { UpdateFrame(before, k, d, c.hit); }
    if r.Ok? {
      UpdatedAfter(from, done, before, k, o, d, c.hit, c.w);
      UpdateFills(before, k, d, c.hit);
    }
  }

  /** Adds the user name and database name AWS knows, and says whether there was one to add. */
  method AddConnectionData(d: DBInstance, aws: AwsMap) returns (filled: DBInstance, update: bool)
    ensures filled == Fill(d, aws) && SameDatabase(d, filled)
    ensures update <==> filled != d
  {
    filled, update := d, false;
    if (d.spec.masterUsername.None? || d.spec.dbName.None?) && d.spec.identifier in aws {
      var a := aws[d.spec.identifier];
      if filled.spec.masterUsername.None? && a.masterUsername.Some? {
        filled := filled.(spec := filled.spec.(masterUsername := a.masterUsername));
        update := true;
      }
      if filled.spec.dbName.None? && a.dbName.Some? {
        filled := filled.(spec := filled.spec.(dbName := a.dbName));
        update := true;
      }
    }
  }

  /** Updates a DBInstance that lacks connection data AWS has. */
  method FillConnection(c: Cluster, k: Key, o: Obj<DBInstance>, aws: AwsMap, ghost from: World, ghost done: set<Key>)
    returns (r: Result<Obj<DBInstance>>)
    requires c.Valid() && Working(from, done, c.w, k, o)
    modifies c
    ensures c.Valid() && Keeps(InventoryWorker, {AddedReferences, Provisions}, old(c.w), c.w)
            && c.outside >= old(c.outside)
    ensures r.Err? ==> c.faults > old(c.faults)
    ensures r.Ok? ==> c.faults == old(c.faults) && r.value.it == Fill(o.it, aws) && Working(from, done, c.w, k, r.value)
    ensures r.Ok? && c.outside == old(c.outside) && k in old(c.w).dbs && old(c.w).dbs[k] == o ==>
              FillsIn(old(c.w), c.w) && c.w.dbs == old(c.w).dbs[k := r.value]
    ensures c.outside == old(c.outside) ==> SameAws(old(c.w), c.w) && c.w.secrets == old(c.w).secrets
    ensures Fill(o.it, aws) == o.it ==>
              r == Ok(o) && c.w == old(c.w) && c.writes == old(c.writes) && c.outside == old(c.outside)
  {
    hide Working, FillsIn, Fill;
    KeepsReflexive(InventoryWorker, c.w);
    FillsInReflexive(c.w);
    var d, update := AddConnectionData(o.it, aws);
    if !update {
      return Ok(o);
    }
    if Current(c.w.dbs, k, o) { MayFill(from, done, c.w, k, o, aws); }
    FillKeepsTheRest(o.it, aws);
    r := Update(c, k, o, d, from, done);
  }

  method TellAws(c: Cluster, k: Key, o: Obj<DBInstance>, password: string, ghost from: World, ghost done: set<Key>)
    returns (e: Option<Error>)
    requires c.Valid() && Working(from, done, c.w, k, o) && Secured(c.w, k, password)
             && o.it.spec.masterUserPassword.None?
    modifies c
    ensures c.Valid() && Keeps(InventoryWorker, {Calls}, old(c.w), c.w) && c.outside >= old(c.outside)
    ensures if e.Some? then c.faults > old(c.faults)
            else c.faults == old(c.faults) && Told(c.w, k, o.it.spec.identifier, password)
    ensures c.outside == old(c.outside) ==>
            FillsIn(old(c.w), c.w) && c.w.dbs == old(c.w).dbs && c.w.secrets == old(c.w).secrets
    ensures c.outside == old(c.outside) && InSecret(old(c.w), k, password) ==>
              InOrder(old(c.w), c.w, k, o.it.spec.identifier) && (e.None? ==> Synced(c.w, k, o.it.spec.identifier))
  {
    hide Working, FillsIn, RefsKnown, Told, Secured, InOrder, Synced;
    ghost var before := c.w;
    WorkingKnows(from, done, before, k, o);
    MayTell(from, done, before, k, o, password);
    var call := Call(k, o.it.spec.identifier, password);
    e := c.ModifyDBInstance(call);
    FillsInReflexive(before);
    NothingTold(before, before, k, o.it.spec.identifier);
    if After(before, PasswordTo(call), c.hit) {
      ToldAfter(before, call, c.hit, c.w);
      TellFills(before, call, c.hit);
      if InSecret(before, k, password) { SyncedAfter(before, call, c.hit); }
    }
  }

  /** Secret, then AWS: the password is in both, or the pass stops. */
  method Tell(c: Cluster, k: Key, o: Obj<DBInstance>, ghost from: World, ghost done: set<Key>)
    returns (r: Result<string>)
    requires c.Valid() && Working(from, done, c.w, k, o) && o.it.spec.masterUserPassword.None?
    modifies c
    ensures c.Valid() && Keeps(InventoryWorker, {Calls}, old(c.w), c.w) && c.outside >= old(c.outside)
    ensures r.Err? ==> c.faults > old(c.faults)
    ensures r.Ok? ==> c.faults == old(c.faults) && Told(c.w, k, o.it.spec.identifier, r.value)
    ensures r.Ok? && HasPassword(old(c.w), CredentialOf(k)) ==> r.value == PasswordAt(old(c.w), CredentialOf(k))
    ensures r.Ok? && c.outside == old(c.outside) ==> FillsIn(old(c.w), c.w) && c.w.dbs == old(c.w).dbs
    ensures c.outside == old(c.outside) ==>
              && c.w.dbs == old(c.w).dbs && InOrder(old(c.w), c.w, k, o.it.spec.identifier)
              && (r.Ok? ==> Synced(c.w, k, o.it.spec.identifier) && InSecret(c.w, k, r.value))
  {
    hide Working, FillsIn, RefsKnown, Told, Secured, InOrder, Synced;
    ghost var begin := c.w;
    ghost var at;
    var id := o.it.spec.identifier;
    WorkingKnows(from, done, begin, k, o);
    r, at := SetCredentials(c, InventoryWorker, CredentialOf(k), ByDatabase(k));
    ghost var secured := c.w;
    WeakenSecured(begin, secured);
    if c.outside == old(c.outside) { NothingTold(begin, secured, k, id); }
    if r.Err? { return; }
    StaysWorking(from, done, begin, secured, k, o, {});
    SecuredSince(begin, at.w, secured, k, r.value);
    var e := TellAws(c, k, o, r.value, from, done);
    KeepsTransitive(InventoryWorker, {}, {Calls}, {Calls}, begin, secured, c.w);
    if c.outside == old(c.outside) {
      FillsInTransitive(begin, secured, c.w);
      InOrderSince(begin, secured, c.w, k, id);
    }
    if e.Some? {
      r := Err(e.value);
    }
  }

  /** All three writes, each resting on the one before. */
  method HandOverPassword(c: Cluster, k: Key, o: Obj<DBInstance>, ghost from: World, ghost done: set<Key>)
    returns (stop: Option<Outcome>, ghost o': Obj<DBInstance>)
    requires c.Valid() && Working(from, done, c.w, k, o) && o.it.spec.masterUserPassword.None?
    modifies c
    ensures c.Valid() && Keeps(InventoryWorker, {AddedReferences, Provisions, Calls}, old(c.w), c.w)
    ensures c.outside >= old(c.outside)
    ensures stop.Some? ==> c.faults > old(c.faults) && Interrupted(stop.value)
    ensures stop.None? ==> c.faults == old(c.faults) && RefsKnown(from, done + {k}, c.w)
    ensures stop.None? && c.outside == old(c.outside) ==>
              FillsIn(old(c.w), c.w) && o'.it == Refer(k, o.it) && c.w.dbs == old(c.w).dbs[k := o']
    ensures c.outside == old(c.outside) ==> InOrder(old(c.w), c.w, k, o.it.spec.identifier)
    ensures stop.None? && c.outside == old(c.outside) ==> Synced(c.w, k, o.it.spec.identifier)
  {
    hide Working, FillsIn, Told, Secured, RefsKnown, SameDatabase, InOrder, Synced, Refer, InSecret, TellsOnly;
    hide SameAws, Keeps, HasPassword, Faithful;
    o' := o;
    ghost var begin := c.w;
    var password := Tell(c, k, o, from, done);
    ghost var told := c.w;
    if password.Err? {
      stop := Some(ReturnError(password.error, BackendError, Says(UpdateInstanceFailed)));
      WeakenTold(begin, told);
      return;
    }
    StaysWorking(from, done, begin, told, k, o, {Calls});
    ReferKeepsTheRest(k, o.it);
    if Current(told.dbs, k, o) { MayRefer(from, done, told, k, o, password.value); }
    var r := Update(c, k, o, Refer(k, o.it), from, done);
    KeepsTransitive(InventoryWorker, {Calls}, {AddedReferences, Provisions}, {AddedReferences, Provisions, Calls},
      begin, told, c.w);
    if c.outside == old(c.outside) {
      SyncedSame(told, c.w, k, o.it.spec.identifier);
      SyncedStays(begin, told, c.w, k, o.it.spec.identifier);
    }
    if r.Err? {
      stop := Some(Stopped(r.error));
    } else {
      stop, o' := None, r.value;
      if c.outside == old(c.outside) { FillsInTransitive(begin, told, c.w); }
    }
  }

  lemma WeakenSecured(w: World, w': World)
    requires Rely(InventoryWorker, w, w')
    ensures Keeps(InventoryWorker, {Calls}, w, w')
  {
  }

  lemma InOrderSince(u: World, v: World, w: World, k: Key, id: string)
    requires SameAws(u, v) && v.dbs == u.dbs && InOrder(v, w, k, id)
    ensures InOrder(u, w, k, id)
  {
  }

  lemma WeakenTold(w: World, w': World)
    requires Keeps(InventoryWorker, {Calls}, w, w')
    ensures Keeps(InventoryWorker, {AddedReferences, Provisions, Calls}, w, w')
  {
  }

  /** Nothing to do for this DBInstance. */
  predicate Complete(d: DBInstance, aws: AwsMap) {
    d.spec.masterUserPassword.Some? && Fill(d, aws) == d
  }

  /** One turn of the loop. */
  method HandOffOne(c: Cluster, k: Key, o: Obj<DBInstance>, aws: AwsMap, ghost from: World, ghost done: set<Key>)
    returns (stop: Option<Outcome>, waits: bool, ghost o': Obj<DBInstance>)
    requires c.Valid() && Working(from, done, c.w, k, o)
    modifies c
    ensures c.Valid() && Keeps(InventoryWorker, {AddedReferences, Provisions, Calls}, old(c.w), c.w)
    ensures c.outside >= old(c.outside)
    ensures stop.Some? ==> c.faults > old(c.faults) && Interrupted(stop.value)
    ensures stop.None? ==> c.faults == old(c.faults) && RefsKnown(from, done + {k}, c.w) && (waits <==> Waits(o.it))
    ensures stop.None? && c.outside == old(c.outside) && k in old(c.w).dbs && old(c.w).dbs[k] == o ==>
              FillsIn(old(c.w), c.w) && o'.it == AfterHandOff(k, o.it, aws) && c.w.dbs == old(c.w).dbs[k := o']
    ensures c.outside == old(c.outside) ==> TellsOnly(old(c.w), c.w, o.it.spec.identifier)
    ensures stop.None? && c.outside == old(c.outside) && Due(o.it) ==> Synced(c.w, k, o.it.spec.identifier)
    ensures Complete(o.it, aws) ==>
              stop.None? && c.w == old(c.w) && c.writes == old(c.writes) && c.outside == old(c.outside)
  {
    hide Working, FillsIn, RefsKnown, SameDatabase, Current, Interrupted, Fill, Refer, Stopped, Synced;
    ghost var begin := c.w;
    FillKeepsTheRest(o.it, aws);
    stop, waits, o' := None, false, o;
    var r := FillConnection(c, k, o, aws, from, done);
    ghost var filled := c.w;
    WeakenFilled(begin, filled);
    if r.Err? {
      stop := Some(Stopped(r.error));
      return;
    }
    o' := r.value;
    WorkingKnows(from, done, filled, k, o');
    RefsKnownMore(from, done, k, filled);
    if r.value.it.spec.masterUserPassword.None? {
      if r.value.it.State().Some? && r.value.it.State().value != AvailableState() {
        waits := true;
        return;
      }
      stop, o' := HandOverPassword(c, k, r.value, from, done);
      KeepsTransitive(InventoryWorker, {AddedReferences, Provisions, Calls}, {AddedReferences, Provisions, Calls},
                      {AddedReferences, Provisions, Calls}, begin, filled, c.w);
      if stop.None? && c.outside == old(c.outside) && k in begin.dbs && begin.dbs[k] == o {
        FillsInTransitive(begin, filled, c.w);
      }
    }
  }

  lemma WeakenFilled(w: World, w': World)
    requires Keeps(InventoryWorker, {AddedReferences, Provisions}, w, w')
    ensures Keeps(InventoryWorker, {AddedReferences, Provisions, Calls}, w, w')
  {
  }

  lemma ItemWorking(from: World, done: set<Key>, w: World, k: Key)
    requires Versions(from) && Records(from) && k in from.dbs && from.dbs[k].it.adopted && k !in done
    requires Keeps(InventoryWorker, {AddedReferences, Provisions, Calls}, from, w) && RefsKnown(from, done, w)
    ensures Working(from, done, w, k, from.dbs[k])
  {
    assert Kept(Clock, InventoryWorker, from, w) && Kept(DatabaseOrder, InventoryWorker, from, w);
    StaysFaithful(from.dbs, w.dbs, k, from.dbs[k], from.clock, w.clock);
    assert k in AdoptedNow(from.dbs);
  }

  lemma RefsKnownOnRead(from: World, w: World)
    requires Rely(InventoryWorker, from, w)
    ensures RefsKnown(from, {}, w)
  {
    StaysRefsKnown(from, {}, from, w, {});
  }

  type Items = seq<(Key, Obj<DBInstance>)>

  /** While nobody interferes, the first i items are handed off and the others
      are as listed. */
  ghost predicate Progress(from: World, w: World, items: Items, i: nat, aws: AwsMap)
    requires i <= |items|
  {
    && FillsIn(from, w)
    && (forall j :: 0 <= j < i ==>
         items[j].0 in w.dbs && w.dbs[items[j].0].it == AfterHandOff(items[j].0, items[j].1.it, aws))
    && (forall j :: i <= j < |items| ==> items[j].0 in w.dbs && w.dbs[items[j].0] == items[j].1)
  }

  /** The identifiers of the listed instances are their own. */
  ghost predicate OwnIds(items: Items) {
    forall i, j :: 0 <= i < j < |items| ==> items[i].1.it.spec.identifier != items[j].1.it.spec.identifier
  }

  /** AWS was told the passwords of those that were due among the first i. */
  ghost predicate AllTold(w: World, items: Items, i: nat)
    requires i <= |items|
  {
    forall j :: 0 <= j < i && Due(items[j].1.it) ==> Synced(w, items[j].0, items[j].1.it.spec.identifier)
  }

  lemma AllToldStep(w: World, w': World, items: Items, i: nat)
    requires i < |items| && OwnIds(items) && AllTold(w, items, i)
    requires FillsIn(w, w') && TellsOnly(w, w', items[i].1.it.spec.identifier)
    requires Due(items[i].1.it) ==> Synced(w', items[i].0, items[i].1.it.spec.identifier)
    ensures AllTold(w', items, i + 1)
  {
    forall j | 0 <= j < i && Due(items[j].1.it) ensures Synced(w', items[j].0, items[j].1.it.spec.identifier) {
      var k, id := items[j].0, items[j].1.it.spec.identifier;
      assert Synced(w, k, id) && id != items[i].1.it.spec.identifier;
      assert PasswordAt(w', CredentialOf(k)) == PasswordAt(w, CredentialOf(k));
    }
  }

  lemma ProgressStep(from: World, w: World, w': World, items: Items, i: nat, aws: AwsMap, o': Obj<DBInstance>,
                     keys: set<Key>)
    requires i < |items| && Progress(from, w, items, i, aws) && Lists(items, from.dbs, keys)
    requires FillsIn(w, w') && w'.dbs == w.dbs[items[i].0 := o']
             && o'.it == AfterHandOff(items[i].0, items[i].1.it, aws)
    ensures Progress(from, w', items, i + 1, aws)
  {
    hide FillsIn, AfterHandOff;
    FillsInTransitive(from, w, w');
  }

  /** What the loop has done for the listed instances, in any order. */
  lemma AllHandedOff(from: World, w: World, items: Items, aws: AwsMap, ns: string)
    requires Progress(from, w, items, |items|, aws) && Lists(items, from.dbs, DatabasesIn(from, ns, true))
    ensures forall k <- DatabasesIn(from, ns, true) :: k in w.dbs && w.dbs[k].it == AfterHandOff(k, from.dbs[k].it, aws)
  {
    forall k <- DatabasesIn(from, ns, true) ensures k in w.dbs && w.dbs[k].it == AfterHandOff(k, from.dbs[k].it, aws) {
      var j :| 0 <= j < |items| && items[j].0 == k;
    }
  }

  lemma SomeWaitsIffListed(from: World, items: Items, ns: string)
    requires Lists(items, from.dbs, DatabasesIn(from, ns, true))
    ensures (exists j :: 0 <= j < |items| && Waits(items[j].1.it)) <==>
            exists k <- DatabasesIn(from, ns, true) :: Waits(from.dbs[k].it)
  {
    if k :| k in DatabasesIn(from, ns, true) && Waits(from.dbs[k].it) {
      var j :| 0 <= j < |items| && items[j].0 == k;
      assert Waits(items[j].1.it);
    }
    if j :| 0 <= j < |items| && Waits(items[j].1.it) {
      assert items[j].0 in DatabasesIn(from, ns, true) && Waits(from.dbs[items[j].0].it);
    }
  }

  /** The keys of the first i items. */
  function Done(items: Items, i: nat): set<Key>
    requires i <= |items|
  {
    set j | 0 <= j < i :: items[j].0
  }

  lemma DoneGrows(items: Items, i: nat, m: map<Key, Obj<DBInstance>>, keys: set<Key>)
    requires i < |items| && Lists(items, m, keys)
    ensures items[i].0 !in Done(items, i) && Done(items, i + 1) == Done(items, i) + {items[i].0}
  {
  }

  /** What holds after i turns, m being the count of others' changes when the list
      came back and w1 the state then. */
  ghost predicate Turning(c: Cluster, from: World, n: nat, w1: World, m: nat, writes: nat, items: Items, i: nat,
                          aws: AwsMap)
    requires i <= |items|
    reads c
  {
    && c.Valid() && Keeps(InventoryWorker, {AddedReferences, Provisions, Calls}, from, c.w) && c.outside >= m >= n
    && RefsKnown(from, Done(items, i), c.w)
    && (c.outside == n ==> Progress(from, c.w, items, i, aws) && (OwnIds(items) ==> AllTold(c.w, items, i)))
    && ((forall j :: 0 <= j < |items| ==> Complete(items[j].1.it, aws)) ==>
         c.w == w1 && c.outside == m && c.writes == writes)
  }

  method Turn(c: Cluster, items: Items, i: nat, aws: AwsMap,
              ghost from: World, ghost n: nat, ghost w1: World, ghost m: nat, ghost writes: nat, ghost keys: set<Key>)
    returns (stop: Option<Outcome>, waits: bool)
    requires i < |items| && Turning(c, from, n, w1, m, writes, items, i, aws)
    requires Versions(from) && Records(from) && Lists(items, from.dbs, keys) && items[i].1.it.adopted
    modifies c
    ensures c.Valid() && Keeps(InventoryWorker, {AddedReferences, Provisions, Calls}, from, c.w) && c.outside >= m
    ensures stop.Some? ==> c.faults > old(c.faults) && Interrupted(stop.value)
    ensures stop.None? ==>
              && c.faults == old(c.faults) && (waits <==> Waits(items[i].1.it))
              && Turning(c, from, n, w1, m, writes, items, i + 1, aws)
    ensures Complete(items[i].1.it, aws) ==> stop.None?
  {
    hide FillsIn, RefsKnown, Working, SameDatabase, Waits, Due, Complete, AfterHandOff, OwnIds, AllTold, TellsOnly,
      Synced;
    var (k, o) := items[i];
    ghost var before := c.w;
    DoneGrows(items, i, from.dbs, keys);
    ItemWorking(from, Done(items, i), before, k);
    ghost var o';
    stop, waits, o' := HandOffOne(c, k, o, aws, from, Done(items, i));
    KeepsTransitive(InventoryWorker, {AddedReferences, Provisions, Calls}, {AddedReferences, Provisions, Calls},
                    {AddedReferences, Provisions, Calls}, from, before, c.w);
    if stop.None? && c.outside == n {
      ProgressStep(from, before, c.w, items, i, aws, o', keys);
      if OwnIds(items) { AllToldStep(before, c.w, items, i); }
    }
  }

  method HandOffListed(c: Cluster, items: Items, aws: AwsMap, ghost from: World, ghost n: nat, ghost keys: set<Key>)
    returns (stop: Option<Outcome>, waits: bool)
    requires c.Valid() && Rely(InventoryWorker, from, c.w) && c.outside >= n && (c.outside == n ==> c.w == from)
    requires Versions(from) && Records(from) && Lists(items, from.dbs, keys)
    requires forall j :: 0 <= j < |items| ==> items[j].1.it.adopted
    modifies c
    ensures c.Valid() && Keeps(InventoryWorker, {AddedReferences, Provisions, Calls}, from, c.w)
    ensures c.outside >= old(c.outside)
    ensures stop.Some? ==> c.faults > old(c.faults) && Interrupted(stop.value)
    ensures stop.None? ==>
              && c.faults == old(c.faults) && (waits <==> exists j :: 0 <= j < |items| && Waits(items[j].1.it))
              && Turning(c, from, n, old(c.w), old(c.outside), old(c.writes), items, |items|, aws)
    ensures (forall j :: 0 <= j < |items| ==> Complete(items[j].1.it, aws)) ==> stop.None?
  {
    hide FillsIn, RefsKnown, Waits, Complete, AfterHandOff, Progress, Lists, Versions, Records, OwnIds;
    WeakenListed(from, c.w);
    RefsKnownOnRead(from, c.w);
    ProgressStart(from, items, aws, keys);
    assert Done(items, 0) == {};
    stop, waits := None, false;
    for i := 0 to |items|
      invariant Turning(c, from, n, old(c.w), old(c.outside), old(c.writes), items, i, aws)
      invariant stop.None? && c.faults == old(c.faults)
      invariant waits <==> exists j :: 0 <= j < i && Waits(items[j].1.it)
    {
      var w;
      stop, w := Turn(c, items, i, aws, from, n, old(c.w), old(c.outside), old(c.writes), keys);
      if stop.Some? { return; }
      waits := waits || w;
    }
  }

  lemma IdleIffListed(from: World, items: Items, ns: string, aws: AwsMap)
    requires Lists(items, from.dbs, DatabasesIn(from, ns, true))
    ensures forall j :: 0 <= j < |items| ==> items[j].1.it.adopted
    ensures (forall k <- DatabasesIn(from, ns, true) :: Complete(from.dbs[k].it, aws)) ==>
              forall j :: 0 <= j < |items| ==> Complete(items[j].1.it, aws)
  {
  }

  /** The adopted DBInstances of the namespace have identifiers of their own. */
  ghost predicate OwnIdsIn(w: World, ns: string) {
    forall j <- DatabasesIn(w, ns, true) :: forall k <- DatabasesIn(w, ns, true) :: IdOf(w, j) == IdOf(w, k) ==> j == k
  }

  predicate Refers(w: World, k: Key) {
    IsAdopted(w, k) && w.dbs[k].it.spec.masterUserPassword == Some(SecretRef(CredentialOf(k), PasswordEntry()))
  }

  /** Each that was due refers to its secret, and AWS has its password. */
  ghost predicate ToldIn(w: World, w': World, ns: string) {
    forall k <- DatabasesIn(w, ns, true) :: Due(w.dbs[k].it) ==> Synced(w', k, IdOf(w, k)) && Refers(w', k)
  }

  lemma OwnIdsListed(from: World, items: Items, ns: string)
    requires Lists(items, from.dbs, DatabasesIn(from, ns, true)) && OwnIdsIn(from, ns)
    ensures OwnIds(items)
  {
  }

  lemma AllToldIn(from: World, w: World, items: Items, ns: string, aws: AwsMap)
    requires Lists(items, from.dbs, DatabasesIn(from, ns, true)) && AllTold(w, items, |items|)
    requires forall k <- DatabasesIn(from, ns, true) ::
               k in w.dbs && w.dbs[k].it == AfterHandOff(k, from.dbs[k].it, aws)
    ensures ToldIn(from, w, ns)
  {
    forall k <- DatabasesIn(from, ns, true) | Due(from.dbs[k].it) ensures Synced(w, k, IdOf(from, k)) && Refers(w, k) {
      var j :| 0 <= j < |items| && items[j].0 == k;
    }
  }

  /** The loop over the adopted DBInstances of a namespace. It asks for another
      pass exactly when one of them waits, and the others are handed off whether
      or not one waits. */
  method HandOffAll(c: Cluster, ns: string, aws: AwsMap) returns (stop: Option<Outcome>, waits: bool)
    requires c.Valid()
    modifies c
    ensures c.Valid() && Keeps(InventoryWorker, {AddedReferences, Provisions, Calls}, old(c.w), c.w)
    ensures c.outside >= old(c.outside)
    ensures stop.Some? ==> c.faults > old(c.faults) && Interrupted(stop.value)
    ensures stop.None? ==>
              && c.faults == old(c.faults)
              && (waits <==> exists k <- DatabasesIn(old(c.w), ns, true) :: Waits(old(c.w).dbs[k].it))
    ensures stop.None? && c.outside == old(c.outside) ==>
              && FillsIn(old(c.w), c.w)
              && forall k <- DatabasesIn(old(c.w), ns, true) ::
                   k in c.w.dbs && c.w.dbs[k].it == AfterHandOff(k, old(c.w).dbs[k].it, aws)
    ensures stop.None? && c.outside == old(c.outside) && OwnIdsIn(old(c.w), ns) ==> ToldIn(old(c.w), c.w, ns)
    ensures (forall k <- DatabasesIn(old(c.w), ns, true) :: Complete(old(c.w).dbs[k].it, aws)) ==>
              c.writes == old(c.writes) && (c.outside == old(c.outside) ==> c.w == old(c.w))
  {
    hide FillsIn, RefsKnown, Waits, Complete, AfterHandOff, OwnIds, AllTold, Synced, OwnIdsIn, ToldIn;
    ghost var from := c.w;
    c.Have(Versioning);
    c.Have(History);
    stop, waits := None, false;
    var list := c.ListDatabases(InventoryWorker, ns, true);
    WeakenListed(from, c.w);
    if list.Err? {
      stop := Some(ReturnError(list.error, BackendError, Says(GetInstancesFailed)));
      return;
    }
    var items := list.value;
    IdleIffListed(from, items, ns, aws);
    SomeWaitsIffListed(from, items, ns);
    stop, waits := HandOffListed(c, items, aws, from, old(c.outside), DatabasesIn(from, ns, true));
    if stop.None? && c.outside == old(c.outside) {
      AllHandedOff(from, c.w, items, aws, ns);
      ProgressFills(from, c.w, items, aws);
      if OwnIdsIn(from, ns) {
        OwnIdsListed(from, items, ns);
        AllToldIn(from, c.w, items, ns, aws);
      }
    }
  }

  lemma WeakenListed(w: World, w': World)
    requires Rely(InventoryWorker, w, w')
    ensures Keeps(InventoryWorker, {AddedReferences, Provisions, Calls}, w, w')
  {
  }

  lemma ProgressStart(from: World, items: Items, aws: AwsMap, keys: set<Key>)
    requires Lists(items, from.dbs, keys)
    ensures Progress(from, from, items, 0, aws)
  {
  }

  lemma ProgressFills(from: World, w: World, items: Items, aws: AwsMap)
    requires Progress(from, w, items, |items|, aws)
    ensures FillsIn(from, w)
  {
  }
}
