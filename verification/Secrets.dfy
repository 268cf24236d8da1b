/** The credential secret of a DBInstance (setCredentials), shared by the
    inventory and the instance controller. */
module Secrets {
  import opened Wrappers
  import opened Store
  import opened Database
  import opened World
  import opened Protocol
  import opened Runs
  import opened Interference
  import opened Api
  import Credential

  /** A secret that may have gained a password it lacked. */
  ghost predicate SameSecret(s: Data, s': Data) {
    s' == s || (&& PasswordEntry() !in s.entries && PasswordEntry() in s'.entries
                && s' == s.(entries := s.entries[PasswordEntry() := s'.entries[PasswordEntry()]]))
  }

  ghost predicate Gains(m: map<Key, Obj<Data>>, m': map<Key, Obj<Data>>) {
    forall s <- m :: s in m' && SameSecret(m[s].it, m'[s].it)
  }

  /** A DBInstance that may have gained connection data and a password reference. */
  ghost predicate SameDatabase(d: DBInstance, d': DBInstance) {
    && d' == d.(spec := d.spec.(masterUsername := d'.spec.masterUsername, dbName := d'.spec.dbName,
                                masterUserPassword := d'.spec.masterUserPassword))
    && (d.spec.masterUsername.Some? ==> d'.spec.masterUsername == d.spec.masterUsername)
    && (d.spec.dbName.Some? ==> d'.spec.dbName == d.spec.dbName)
    && (d.spec.masterUserPassword.Some? ==> d'.spec.masterUserPassword == d.spec.masterUserPassword)
  }

  /** What handing off credentials has nothing to do with. */
  ghost predicate SameElsewhere(w: World, w': World) {
    && w'.inventories == w.inventories && w'.instances == w.instances && w'.connections == w.connections
    && w'.adopted == w.adopted && w'.configs == w.configs
    && w'.ackSecret == w.ackSecret && w'.ackConfig == w.ackConfig && w'.deployment == w.deployment
    && w'.listing == w.listing
  }

  /** What handing off credentials may change, and nothing else. */
  ghost predicate FillsIn(w: World, w': World) {
    && SameElsewhere(w, w')
    && w'.dbs.Keys == w.dbs.Keys && (forall k <- w.dbs :: SameDatabase(w.dbs[k].it, w'.dbs[k].it))
    && Gains(w.secrets, w'.secrets)
  }

  lemma SameDatabaseTransitive(d: DBInstance, e: DBInstance, f: DBInstance)
    requires SameDatabase(d, e) && SameDatabase(e, f)
    ensures SameDatabase(d, f)
  {
  }

  lemma FillsInTransitive(u: World, v: World, w: World)
    requires FillsIn(u, v) && FillsIn(v, w)
    ensures FillsIn(u, w)
  {
    hide SameDatabase;
    forall k <- u.dbs ensures SameDatabase(u.dbs[k].it, w.dbs[k].it) {
      SameDatabaseTransitive(u.dbs[k].it, v.dbs[k].it, w.dbs[k].it);
    }
  }

  /** AWS was asked for nothing. */
  ghost predicate SameAws(w: World, w': World) {
    w'.awsPasswords == w.awsPasswords && w'.calls == w.calls
  }

  predicate Workers(me: Actor) {
    me.InventoryWorker? || me.InstanceWorker?
  }

  lemma FrameAfter(w: World, c: Change, hit: World)
    requires After(w, c, hit) && (c.SecretTo? || c.DatabaseTo? || c.PasswordTo?)
    ensures SameElsewhere(w, hit) && (!c.PasswordTo? ==> SameAws(w, hit)) && (!c.DatabaseTo? ==> hit.dbs == w.dbs)
  {
    assert PartAfter(TheKinds, w, c, hit) && PartAfter(TheAdopted, w, c, hit) && PartAfter(TheDatabases, w, c, hit);
    assert PartAfter(TheFootprint, w, c, hit) && PartAfter(TheAws, w, c, hit);
  }

  lemma SecretFills(w: World, k: Key, data: Data, hit: World)
    requires After(w, SecretTo(k, Some(data)), hit)
    requires PasswordEntry() in data.entries
    requires k in w.secrets ==>
               data == w.secrets[k].it.(
                 entries := w.secrets[k].it.entries[PasswordEntry() := data.entries[PasswordEntry()]])
               && !HasPassword(w, k)
    ensures FillsIn(w, hit) && hit.dbs == w.dbs
    ensures HasPassword(hit, k) && PasswordAt(hit, k) == data.entries[PasswordEntry()] && hit.secrets[k].it == data
  {
    FrameAfter(w, SecretTo(k, Some(data)), hit);
    assert PartAfter(TheDatabases, w, SecretTo(k, Some(data)), hit);
    assert PartAfter(TheSecrets, w, SecretTo(k, Some(data)), hit);
  }

  lemma MayGenerate(w: World, me: Actor, k: Key, owner: Controller, password: string)
    requires Workers(me) && !owner.ByConnection? && k !in w.secrets
    ensures Allowed(w, me, SecretTo(k, Some(Data(Some(owner), map[PasswordEntry() := password]))))
  {
  }

  lemma MayComplete(w: World, me: Actor, k: Key, o: Obj<Data>, password: string)
    requires Workers(me) && Faithful(w.secrets, k, o, w.clock) && Current(w.secrets, k, o)
    requires PasswordEntry() !in o.it.entries
    ensures Allowed(w, me, SecretTo(k, Some(o.it.(entries := o.it.entries[PasswordEntry() := password]))))
    ensures !HasPassword(w, k) && w.secrets[k].it == o.it
  {
  }

  lemma CopyOnRead(w: World, w': World, me: Actor, k: Key)
    requires Versions(w) && k in w.secrets && Rely(me, w, w')
    ensures Faithful(w'.secrets, k, w.secrets[k], w'.clock)
  {
    assert Kept(SecretOrder, me, w, w') && Kept(Clock, me, w, w');
    StaysFaithful(w.secrets, w'.secrets, k, w.secrets[k], w.clock, w'.clock);
  }

  /** The secret k gets a password unless it has one; an existing password is
      never replaced. The secret held the password at the moment `at`. */
  method SetCredentials(c: Cluster, me: Actor, k: Key, owner: Controller) returns (r: Result<string>, ghost at: Moment)
    requires c.Valid() && Workers(me) && !owner.ByConnection?
    modifies c
    ensures c.Valid() && Rely(me, old(c.w), c.w) && c.outside >= old(c.outside) && Follows(old(c.run), c.run)
    ensures match r
            case Err(_) => c.faults > old(c.faults)
            case Ok(password) =>
              && c.faults == old(c.faults) && Past(old(c.run), at, c.run)
              && Rely(me, old(c.w), at.w) && Rely(me, at.w, c.w) && HasPassword(at.w, k)
                   && PasswordAt(at.w, k) == password
              && if HasPassword(old(c.w), k) then password == PasswordAt(old(c.w), k)
                   else Credential.Acceptable(password)
    ensures c.outside == old(c.outside) ==> c.w.dbs == old(c.w).dbs && SameAws(old(c.w), c.w)
    ensures c.outside == old(c.outside) && r.Ok? ==>
              && FillsIn(old(c.w), c.w) && c.w.dbs == old(c.w).dbs
              && HasPassword(c.w, k) && PasswordAt(c.w, k) == r.value
              && (k !in old(c.w).secrets ==> c.w.secrets[k].it == Data(Some(owner), map["password" := r.value]))
    ensures HasPassword(old(c.w), k) ==> c.writes == old(c.writes) && (c.outside == old(c.outside) ==> c.w == old(c.w))
  {
    hide FillsIn;
    ghost var begin, way := c.w, c.run;
    FillsInReflexive(begin);
    KeepsReflexive(me, begin);
    c.Have(Versioning);
    var secret := c.GetSecret(me, k);
    ghost var read, on := c.w, c.run;
    at := c.Last();
    PastFollows(way, at, on);
    if secret == Err(NotFound) {
      var password := Credential.GeneratePassword();
      r, at := CreateCredentials(c, me, k, owner, password);
      Generated(me, begin, way, read, on, at, c.w, c.run);
    } else if secret.Err? {
      r := Err(secret.error);
    } else if PasswordEntry() in secret.value.it.entries {
      r := Ok(secret.value.it.entries[PasswordEntry()]);
    } else {
      CopyOnRead(begin, read, me, k);
      var password := Credential.GeneratePassword();
      r, at := CompleteCredentials(c, me, k, secret.value, password);
      Generated(me, begin, way, read, on, at, c.w, c.run);
    }
  }

  lemma FillsInReflexive(w: World)
    ensures FillsIn(w, w)
  {
  }

  /** The secret was generated at the moment `at`, after the pass had looked. */
  lemma Generated(me: Actor, begin: World, way: Run, read: World, on: Run, at: Moment, w: World, r: Run)
    requires Rely(me, begin, read) && Follows(way, on)
    requires Rely(me, read, at.w) && Rely(me, at.w, w) && Past(on, at, r)
    ensures Rely(me, begin, at.w) && Rely(me, begin, w) && Past(way, at, r) && Follows(way, r)
  {
    KeepsTransitive(me, {}, {}, {}, begin, read, at.w);
    KeepsTransitive(me, {}, {}, {}, begin, at.w, w);
    PastFrom(way, on, at, r);
  }

  method CreateCredentials(c: Cluster, me: Actor, k: Key, owner: Controller, password: string)
    returns (r: Result<string>, ghost at: Moment)
    requires c.Valid() && Workers(me) && !owner.ByConnection?
    modifies c
    ensures c.Valid() && Rely(me, old(c.w), at.w) && Rely(me, at.w, c.w) && Past(old(c.run), at, c.run)
    ensures c.outside >= old(c.outside) && (c.outside == old(c.outside) ==> c.w == at.w)
    ensures at.w.dbs == old(c.w).dbs && SameAws(old(c.w), at.w)
    ensures if r.Err? then c.faults > old(c.faults)
            else c.faults == old(c.faults) && r == Ok(password)
                 && HasPassword(at.w, k) && PasswordAt(at.w, k) == password && FillsIn(old(c.w), at.w)
                 && at.w.secrets[k].it == Data(Some(owner), map["password" := password])
  {
    ghost var before := c.w;
    if k !in c.w.secrets { MayGenerate(c.w, me, k, owner, password); }
    var data := Data(Some(owner), map[PasswordEntry() := password]);
    var created := c.CreateSecret(me, k, data);
    at := c.Last();
    if at.w != before { FrameAfter(before, SecretTo(k, Some(data)), at.w); }
    if created.Ok? {
      SecretFills(before, k, data, at.w);
      r := Ok(password);
    } else {
      r := Err(created.error);
    }
  }

  method CompleteCredentials(c: Cluster, me: Actor, k: Key, o: Obj<Data>, password: string)
    returns (r: Result<string>, ghost at: Moment)
    requires c.Valid() && Workers(me)
    requires Faithful(c.w.secrets, k, o, c.w.clock) && PasswordEntry() !in o.it.entries
    modifies c
    ensures c.Valid() && Rely(me, old(c.w), at.w) && Rely(me, at.w, c.w) && Past(old(c.run), at, c.run)
    ensures c.outside >= old(c.outside) && (c.outside == old(c.outside) ==> c.w == at.w)
    ensures at.w.dbs == old(c.w).dbs && SameAws(old(c.w), at.w)
    ensures if r.Err? then c.faults > old(c.faults)
            else c.faults == old(c.faults) && r == Ok(password)
                 && HasPassword(at.w, k) && PasswordAt(at.w, k) == password && FillsIn(old(c.w), at.w)
  {
    ghost var before := c.w;
    var data := o.it.(entries := o.it.entries[PasswordEntry() := password]);
    if Current(c.w.secrets, k, o) { MayComplete(c.w, me, k, o, password); }
    var updated := c.UpdateSecret(me, k, Obj(o.rv, data));
    at := c.Last();
    if at.w != before { FrameAfter(before, SecretTo(k, Some(data)), at.w); }
    if updated.Ok? {
      SecretFills(before, k, data, at.w);
      r := Ok(password);
    } else {
      r := Err(updated.error);
    }
  }
}
