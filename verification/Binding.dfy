/** What a connection hands out: the secret and the config map for one DBInstance
    (setSecret, setConfigMap), and putting each in place (createOrUpdateSecret,
    createOrUpdateConfigMap). */
module Binding {
  import opened Wrappers
  import opened Store
  import opened Database
  import opened World
  import opened Protocol
  import opened Runs
  import opened Interference
  import opened Api
  import Credential
  import Names
  import Status
  import Text

  function Provider(): string { "Red Hat DBaaS / Amazon Relational Database Service (RDS)" }

  /** The database to connect to: the one the spec names, else the engine's own. */
  function DefaultDatabase(engine: string): Option<string> {
    if engine in ["sqlserver-ee", "sqlserver-se", "sqlserver-ex", "sqlserver-web"] then Some("master")
    else if engine in ["mysql", "mariadb", "aurora", "aurora-mysql"] then Some("mysql")
    else if engine in ["postgres", "aurora-postgresql"] then Some("postgres")
    else if engine in ["oracle-se2", "oracle-se2-cdb", "oracle-ee", "oracle-ee-cdb", "custom-oracle-ee"]
    then Some("ORCL")
    else None
  }

  function DatabaseOf(d: DBInstance): Option<string> {
    if d.spec.dbName.Some? then d.spec.dbName else DefaultDatabase(d.spec.engine)
  }

  /** The endpoint is there, with its address and port. */
  predicate HasEndpoint(d: DBInstance) {
    d.Reported(Names.EndpointAddress).Some? && d.Reported(Names.EndpointPort).Some?
  }

  /** Everything a binding needs of the DBInstance. */
  predicate Bindable(d: DBInstance) {
    d.State() == Some("available") && d.spec.masterUserPassword.Some? && d.spec.masterUsername.Some? && HasEndpoint(d)
  }

  function SecretData(d: DBInstance, password: string): map<string, string>
    requires d.spec.masterUsername.Some?
  {
    map["username" := d.spec.masterUsername.value][PasswordEntry() := password]
  }

  function ConfigData(d: DBInstance): map<string, string>
    requires HasEndpoint(d)
  {
    var data := map[
      "type" := Credential.GenerateBindingType(d.spec.engine),
      "provider" := Provider(),
      "host" := d.Reported(Names.EndpointAddress).value,
      "port" := d.Reported(Names.EndpointPort).value];
    match DatabaseOf(d)
    case None => data
    case Some(database) => data["database" := database]
  }

  /** The binding objects of connection x. */
  function Owned(x: Key, entries: map<string, string>): Data {
    Data(Some(ByConnection(x)), entries)
  }

  lemma MayBindSecret(w: World, x: Key, entries: map<string, string>)
    requires x in w.everConnected
    requires CredentialOf(x) in w.secrets ==> !OwnedByAnother(x, w.secrets[CredentialOf(x)].it)
    ensures Allowed(w, ConnectionWorker(x), SecretTo(CredentialOf(x), Some(Owned(x, entries))))
  {
  }

  lemma MayBindConfig(w: World, x: Key, entries: map<string, string>)
    ensures Allowed(w, ConnectionWorker(x), ConfigTo(ConfigKey(x), Some(Owned(x, entries))))
  {
  }

  lemma SecretCopied(w: World, w': World, x: Key, k: Key)
    requires Versions(w) && k in w.secrets && Rely(ConnectionWorker(x), w, w')
    ensures Faithful(w'.secrets, k, w.secrets[k], w'.clock)
  {
    assert Kept(SecretOrder, ConnectionWorker(x), w, w') && Kept(Clock, ConnectionWorker(x), w, w');
    StaysFaithful(w.secrets, w'.secrets, k, w.secrets[k], w.clock, w'.clock);
  }

  /** The secret of connection x is in place. */
  ghost predicate SecretIs(w: World, x: Key, entries: map<string, string>) {
    CredentialOf(x) in w.secrets && w.secrets[CredentialOf(x)].it == Owned(x, entries)
  }

  ghost predicate ConfigIs(w: World, x: Key, entries: map<string, string>) {
    ConfigKey(x) in w.configs && w.configs[ConfigKey(x)].it == Owned(x, entries)
  }

  /** The names of the two objects, whose they are and what they hold. */
  lemma BindingIs(w: World, x: Key, entries: map<string, string>)
    ensures SecretIs(w, x, entries) <==>
            var k := Key(x.ns, x.name + "-credentials");
            k in w.secrets && w.secrets[k].it.entries == entries && w.secrets[k].it.controller == Some(ByConnection(x))
    ensures ConfigIs(w, x, entries) <==>
            var k := Key(x.ns, x.name + "-configs");
            k in w.configs && w.configs[k].it.entries == entries && w.configs[k].it.controller == Some(ByConnection(x))
  {
  }

  /** The two states differ in at most the binding of connection x. */
  ghost predicate OnlyBinding(w: World, w': World, x: Key) {
    && w'.inventories == w.inventories && w'.instances == w.instances && w'.dbs == w.dbs && w'.adopted == w.adopted
    && w'.ackSecret == w.ackSecret && w'.ackConfig == w.ackConfig && w'.deployment == w.deployment
    && w'.listing == w.listing && w'.awsPasswords == w.awsPasswords && w'.calls == w.calls
    && w'.secrets - {CredentialOf(x)} == w.secrets - {CredentialOf(x)}
    && w'.configs - {ConfigKey(x)} == w.configs - {ConfigKey(x)}
    && w'.connections - {x} == w.connections - {x}
    && (x in w.connections <==> x in w'.connections)
    && (x in w.connections ==> w'.connections[x].it == w.connections[x].it.(status := w'.connections[x].it.status))
  }

  lemma OnlyBindingSelf(w: World, x: Key)
    ensures OnlyBinding(w, w, x)
  {
  }

  lemma OnlyBindingOn(u: World, v: World, w: World, x: Key)
    requires OnlyBinding(u, v, x) && OnlyBinding(v, w, x)
    ensures OnlyBinding(u, w, x)
  {
  }

  lemma SecretWritten(w: World, x: Key, entries: map<string, string>, hit: World)
    requires hit == w || After(w, SecretTo(CredentialOf(x), Some(Owned(x, entries))), hit)
    ensures hit != w ==> SecretIs(hit, x, entries)
    ensures OnlyBinding(w, hit, x) && hit.configs == w.configs && hit.connections == w.connections
  {
    var c := SecretTo(CredentialOf(x), Some(Owned(x, entries)));
    if hit != w {
      assert PartAfter(TheSecrets, w, c, hit) && PartAfter(TheKinds, w, c, hit) && PartAfter(TheDatabases, w, c, hit);
      assert PartAfter(TheAdopted, w, c, hit) && PartAfter(TheFootprint, w, c, hit) && PartAfter(TheAws, w, c, hit);
    }
  }

  lemma ConfigWritten(w: World, x: Key, entries: map<string, string>, hit: World)
    requires hit == w || After(w, ConfigTo(ConfigKey(x), Some(Owned(x, entries))), hit)
    ensures hit != w ==> ConfigIs(hit, x, entries)
    ensures OnlyBinding(w, hit, x) && hit.secrets == w.secrets && hit.connections == w.connections
  {
    var c := ConfigTo(ConfigKey(x), Some(Owned(x, entries)));
    if hit != w {
      assert PartAfter(TheSecrets, w, c, hit) && PartAfter(TheKinds, w, c, hit) && PartAfter(TheDatabases, w, c, hit);
      assert PartAfter(TheAdopted, w, c, hit) && PartAfter(TheFootprint, w, c, hit) && PartAfter(TheAws, w, c, hit);
    }
  }

  lemma ChangedAfter(w: World, c: Change, hit: World)
    requires After(w, c, hit)
    ensures hit != w
  {
    assert PartAfter(ThePast, w, c, hit);
  }

  lemma StaysConnected(w: World, w': World, x: Key)
    requires Rely(ConnectionWorker(x), w, w') && x in w.everConnected
    ensures x in w'.everConnected
  {
    assert Kept(Clock, ConnectionWorker(x), w, w');
  }

  /** The secret of x is not another's. */
  predicate ConfigFree(w: World, x: Key) {
    ConfigKey(x) in w.configs ==> !OwnedByAnother(x, w.configs[ConfigKey(x)].it)
  }

  /** What putting these entries in place makes of the secrets: they are there wherever the
      connection may keep its secret, and nothing changes elsewhere; a failed call, or
      one of which only the reply failed, leaves either. */
  ghost predicate SecretOutcome(w: World, w': World, x: Key, entries: map<string, string>, clean: bool) {
    if SecretFree(w, x) then SecretIs(w', x, entries) || (!clean && w'.secrets == w.secrets)
    else w'.secrets == w.secrets
  }

  /** createOrUpdateSecret: on success the secret was in place, exactly so, at the
      moment `at`; it is refused exactly where another controller's secret sits. */
  method PutSecret(c: Cluster, x: Key, entries: map<string, string>) returns (e: Option<Error>, ghost at: Moment)
    requires c.Valid() && x in c.w.everConnected
    modifies c
    ensures c.Valid() && Rely(ConnectionWorker(x), old(c.w), c.w) && c.outside >= old(c.outside)
            && c.faults >= old(c.faults)
    ensures Past(old(c.run), at, c.run) && Follows(old(c.run), c.run)
    ensures e.None? ==> SecretIs(at.w, x, entries) && c.faults == old(c.faults)
    ensures c.outside == old(c.outside) ==>
              c.w == at.w && OnlyBinding(old(c.w), c.w, x) && c.w.configs == old(c.w).configs
                && c.w.connections == old(c.w).connections
    ensures c.outside == old(c.outside) ==> SecretOutcome(old(c.w), c.w, x, entries, c.faults == old(c.faults))
    ensures c.faults == old(c.faults) ==> (e.None? <==> SecretFree(old(c.w), x))
    ensures !SecretFree(old(c.w), x) ==> e.Some? && c.writes == old(c.writes)
  {
    hide SecretIs, OnlyBinding, Owned, Follows, Past, Keeps, Faithful;
    ghost var begin := c.w;
    c.Have(Versioning);
    OnlyBindingSelf(begin, x);
    var k := CredentialOf(x);
    var got := c.GetSecret(ConnectionWorker(x), k);
    ghost var way, on := old(c.run), c.run;
    at := c.Last();
    e := None;
    if got == Err(NotFound) {
      e, at := CreateBindingSecret(c, x, entries, begin);
      PastFrom(way, on, at, c.run);
    } else if got.Err? {
      e := Some(got.error);
    } else if OwnedByAnother(x, got.value.it) {
      e := Some(AlreadyOwned);
    } else if got.value.it != Owned(x, entries) {
      SecretCopied(begin, c.w, x, k);
      e, at := UpdateBindingSecret(c, x, entries, got.value, begin);
      PastFrom(way, on, at, c.run);
    } else {
      SecretFound(begin, x, entries);
    }
  }

  lemma SecretFound(w: World, x: Key, entries: map<string, string>)
    requires CredentialOf(x) in w.secrets && w.secrets[CredentialOf(x)].it == Owned(x, entries)
    ensures SecretIs(w, x, entries)
  {
  }

  method CreateBindingSecret(c: Cluster, x: Key, entries: map<string, string>, ghost begin: World)
    returns (e: Option<Error>, ghost at: Moment)
    requires c.Valid() && x in begin.everConnected && Rely(ConnectionWorker(x), begin, c.w)
    modifies c
    ensures c.Valid() && Rely(ConnectionWorker(x), begin, c.w) && c.outside >= old(c.outside)
    ensures at == c.Last() && c.Went(old(c.run))
    ensures SecretIs(at.w, x, entries) || (e.Some? && at.w == old(c.w))
    ensures if e.None? then c.faults == old(c.faults) else c.faults > old(c.faults)
    ensures OnlyBinding(old(c.w), at.w, x) && at.w.configs == old(c.w).configs
            && at.w.connections == old(c.w).connections
    ensures c.outside == old(c.outside) ==> c.w == at.w
  {
    hide OnlyBinding, SecretIs;
    ghost var read := c.w;
    StaysConnected(begin, read, x);
    if CredentialOf(x) !in read.secrets { MayBindSecret(read, x, entries); }
    var r := c.CreateSecret(ConnectionWorker(x), CredentialOf(x), Owned(x, entries));
    at := c.Last();
    KeepsTransitive(ConnectionWorker(x), {}, {}, {}, begin, read, c.w);
    if After(read, SecretTo(CredentialOf(x), Some(Owned(x, entries))), at.w) {
      ChangedAfter(read, SecretTo(CredentialOf(x), Some(Owned(x, entries))), at.w);
    }
    SecretWritten(read, x, entries, at.w);
    e := if r.Err? then Some(r.error) else None;
  }

  method UpdateBindingSecret(c: Cluster, x: Key, entries: map<string, string>, got: Obj<Data>, ghost begin: World)
    returns (e: Option<Error>, ghost at: Moment)
    requires c.Valid() && x in begin.everConnected && Rely(ConnectionWorker(x), begin, c.w)
    requires Faithful(c.w.secrets, CredentialOf(x), got, c.w.clock) && !OwnedByAnother(x, got.it)
    modifies c
    ensures c.Valid() && Rely(ConnectionWorker(x), begin, c.w) && c.outside >= old(c.outside)
    ensures at == c.Last() && c.Went(old(c.run))
    ensures SecretIs(at.w, x, entries) || (e.Some? && at.w == old(c.w))
    ensures if e.None? then c.faults == old(c.faults) else c.faults > old(c.faults)
    ensures OnlyBinding(old(c.w), at.w, x) && at.w.configs == old(c.w).configs
            && at.w.connections == old(c.w).connections
    ensures c.outside == old(c.outside) ==> c.w == at.w
  {
    hide OnlyBinding, SecretIs;
    ghost var read := c.w;
    StaysConnected(begin, read, x);
    if Current(read.secrets, CredentialOf(x), got) { MayBindSecret(read, x, entries); }
    var r := c.UpdateSecret(ConnectionWorker(x), CredentialOf(x), Obj(got.rv, Owned(x, entries)));
    at := c.Last();
    KeepsTransitive(ConnectionWorker(x), {}, {}, {}, begin, read, c.w);
    if After(read, SecretTo(CredentialOf(x), Some(Owned(x, entries))), at.w) {
      ChangedAfter(read, SecretTo(CredentialOf(x), Some(Owned(x, entries))), at.w);
    }
    SecretWritten(read, x, entries, at.w);
    e := if r.Err? then Some(r.error) else None;
  }

  /** createOrUpdateConfigMap, likewise. */
  method PutConfigMap(c: Cluster, x: Key, entries: map<string, string>) returns (e: Option<Error>, ghost at: Moment)
    requires c.Valid()
    modifies c
    ensures c.Valid() && Rely(ConnectionWorker(x), old(c.w), c.w) && c.outside >= old(c.outside)
            && c.faults >= old(c.faults)
    ensures Past(old(c.run), at, c.run) && Follows(old(c.run), c.run)
    ensures e.None? ==> ConfigIs(at.w, x, entries) && c.faults == old(c.faults)
    ensures c.outside == old(c.outside) ==>
              c.w == at.w && OnlyBinding(old(c.w), c.w, x) && c.w.secrets == old(c.w).secrets
                && c.w.connections == old(c.w).connections
    ensures c.faults == old(c.faults) ==> (e.None? <==> ConfigFree(old(c.w), x))
    ensures !ConfigFree(old(c.w), x) ==> e.Some? && c.writes == old(c.writes)
  {
    hide ConfigIs, OnlyBinding;
    ghost var begin, way := c.w, c.run;
    OnlyBindingSelf(begin, x);
    var k := ConfigKey(x);
    var got := c.GetConfig(ConnectionWorker(x), k);
    at := c.Last();
    e := None;
    ghost var read, on := c.w, c.run;
    MayBindConfig(read, x, entries);
    if got == Err(NotFound) {
      var r := c.CreateConfig(ConnectionWorker(x), k, Owned(x, entries));
      e := if r.Err? then Some(r.error) else None;
    } else if got.Err? {
      return Some(got.error), at;
    } else if OwnedByAnother(x, got.value.it) {
      return Some(AlreadyOwned), at;
    } else if got.value.it == Owned(x, entries) {
      ConfigFound(begin, x, entries);
      return;
    } else {
      var r := c.UpdateConfig(ConnectionWorker(x), k, Obj(got.value.rv, Owned(x, entries)));
      e := if r.Err? then Some(r.error) else None;
    }
    at := c.Last();
    KeepsTransitive(ConnectionWorker(x), {}, {}, {}, begin, read, c.w);
    PastFrom(way, on, at, c.run);
    if After(read, ConfigTo(k, Some(Owned(x, entries))), at.w) {
      ChangedAfter(read, ConfigTo(k, Some(Owned(x, entries))), at.w);
    }
    ConfigWritten(read, x, entries, at.w);
  }

  lemma ConfigFound(w: World, x: Key, entries: map<string, string>)
    requires ConfigKey(x) in w.configs && w.configs[ConfigKey(x)].it == Owned(x, entries)
    ensures ConfigIs(w, x, entries)
  {
  }

  /** What depends on the engine, family by family. */
  lemma EngineFamilies(engine: string)
    ensures engine in ["postgres", "aurora-postgresql"] ==>
              && Credential.GenerateUsername(engine) == "postgres"
              && Credential.GenerateDBName(engine) == Some("postgres")
              && Credential.GenerateBindingType(engine) == "postgresql" && DefaultDatabase(engine) == Some("postgres")
    ensures engine in ["mysql", "mariadb", "aurora", "aurora-mysql"] ==>
              && Credential.GenerateUsername(engine) == "admin" && Credential.GenerateDBName(engine) == Some("mydb")
              && Credential.GenerateBindingType(engine) == "mysql" && DefaultDatabase(engine) == Some("mysql")
    ensures engine in ["oracle-se2", "oracle-se2-cdb", "oracle-ee", "oracle-ee-cdb", "custom-oracle-ee"] ==>
              && Credential.GenerateUsername(engine) == "admin" && Credential.GenerateDBName(engine) == Some("ORCL")
              && Credential.GenerateBindingType(engine) == "oracle" && DefaultDatabase(engine) == Some("ORCL")
    ensures engine in ["sqlserver-ee", "sqlserver-se", "sqlserver-ex", "sqlserver-web"] ==>
              && Credential.GenerateUsername(engine) == "admin" && Credential.GenerateDBName(engine) == None
              && Credential.GenerateBindingType(engine) == "sqlserver" && DefaultDatabase(engine) == Some("master")
    ensures engine !in ["postgres", "aurora-postgresql", "mysql", "mariadb", "aurora", "aurora-mysql",
                        "oracle-se2", "oracle-se2-cdb", "oracle-ee", "oracle-ee-cdb", "custom-oracle-ee",
                        "sqlserver-ee", "sqlserver-se", "sqlserver-ex", "sqlserver-web"] ==>
              && Credential.GenerateUsername(engine) == "admin" && Credential.GenerateDBName(engine) == None
              && Credential.GenerateBindingType(engine) == "" && DefaultDatabase(engine) == None
  {
  }

  /** What a client reads from the two objects, and that there is nothing else. */
  lemma DataSays(d: DBInstance, password: string)
    requires d.spec.masterUsername.Some? && HasEndpoint(d)
    ensures var s := SecretData(d, password);
      && s.Keys == {"username", "password"}
      && s["username"] == d.spec.masterUsername.value && s["password"] == password
    ensures var m := ConfigData(d);
      && m.Keys == {"type", "provider", "host", "port"} + (if DatabaseOf(d).Some? then {"database"} else {})
      && m["type"] == Credential.GenerateBindingType(d.spec.engine)
      && m["provider"] == "Red Hat DBaaS / Amazon Relational Database Service (RDS)"
      && m["host"] == d.Reported(Names.EndpointAddress).value && m["port"] == d.Reported(Names.EndpointPort).value
      && (DatabaseOf(d).Some? ==> m["database"] == DatabaseOf(d).value)
      && DatabaseOf(d) == (if d.spec.dbName.Some? then d.spec.dbName else DefaultDatabase(d.spec.engine))
  {
    hide DefaultDatabase, Credential.GenerateBindingType, Status.Print;
    assert PasswordEntry() == "password";
    assert "username"[0] == 'u' && "password"[0] == 'p';
    assert |"type"| == |"host"| == |"port"| == 4 && "type"[0] == 't' && "host"[0] == 'h' && "port"[0] == 'p';
    assert |"provider"| == |"database"| == 8 && "provider"[0] == 'p' && "database"[0] == 'd';
  }

  /** Host and port are what AWS reported: the port reads back as its number. */
  lemma EndpointSays(d: DBInstance)
    requires HasEndpoint(d)
    ensures var m, scalars := ConfigData(d), d.observed.scalars;
            var host, port := scalars[Names.EndpointAddress], scalars[Names.EndpointPort];
      && {"host", "port"} <= m.Keys
      && (host.Str? ==> m["host"] == host.s)
      && (port.Int? ==> Text.Denotes(m["port"], port.i))
      && (port.Int? && -9223372036854775808 <= port.i <= 9223372036854775807 ==>
            Text.ParseInt(m["port"]) == Some(port.i))
  {
    hide Provider, DatabaseOf, Credential.GenerateBindingType, Status.Print, Text.Denotes, Text.ParseInt;
    Status.PrintKeeps(d.observed.scalars[Names.EndpointAddress]);
    Status.PrintKeeps(d.observed.scalars[Names.EndpointPort]);
    Status.PrintedParses(d.observed.scalars[Names.EndpointPort]);
    assert |"host"| == |"port"| == 4 && "host"[0] == 'h' && "port"[0] == 'p' && |"database"| == 8;
  }
}
