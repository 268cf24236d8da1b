/** A settled inventory: nothing is left for a pass to do, and what keeps it so. */
module Settlement {
  import opened Wrappers
  import opened Store
  import opened Conditions
  import opened Database
  import opened World
  import opened Interference
  import opened Outcomes
  import opened Api
  import opened Secrets
  import Ack
  import Adoption
  import Credential
  import HandOff
  import Listing

  /** Everything AWS lists is in the cluster, and every adopted DBInstance has its
      password and what AWS knows about its connection. */
  ghost predicate Handed(w: World, ns: string) {
    && Adoption.Covered(w, ns, w.listing)
    && forall k <- DatabasesIn(w, ns, true) :: HandOff.Complete(w.dbs[k].it, Adoption.ByIdentifier(w.listing))
  }

  lemma HandedIsCovered(w: World, ns: string)
    ensures Handed(w, ns) ==> Adoption.Covered(w, ns, w.listing)
  {
  }

  lemma CoveredWhenEmpty(w: World, ns: string)
    ensures w.listing == [] ==> Adoption.Covered(w, ns, w.listing) && Adoption.ByIdentifier(w.listing) == map[]
  {
  }

  lemma CompleteDoesNotWait(d: DBInstance, aws: HandOff.AwsMap)
    ensures HandOff.Complete(d, aws) ==> !HandOff.Waits(d)
    ensures forall k :: !HandOff.Waits(d) ==> HandOff.Complete(HandOff.AfterHandOff(k, d, aws), aws)
  {
  }

  lemma HandedIsComplete(w: World, ns: string)
    requires Handed(w, ns)
    ensures forall k <- DatabasesIn(w, ns, true) ::
              HandOff.Complete(w.dbs[k].it, Adoption.ByIdentifier(w.listing)) && !HandOff.Waits(w.dbs[k].it)
  {
    forall k <- DatabasesIn(w, ns, true) ensures !HandOff.Waits(w.dbs[k].it) {
      CompleteDoesNotWait(w.dbs[k].it, Adoption.ByIdentifier(w.listing));
    }
  }

  lemma FillingKeepsCovered(w: World, w': World, ns: string)
    requires FillsIn(w, w') && Adoption.Covered(w, ns, w.listing)
    ensures Adoption.Covered(w', ns, w'.listing)
    ensures DatabasesIn(w', ns, true) == DatabasesIn(w, ns, true)
  {
    forall k <- w.dbs ensures w'.dbs[k].it.spec.identifier == w.dbs[k].it.spec.identifier {
      assert SameDatabase(w.dbs[k].it, w'.dbs[k].it);
    }
    assert Adoption.DatabaseIds(w', ns) == Adoption.DatabaseIds(w, ns);
  }

  lemma HandedAfter(w: World, w': World, ns: string, aws: HandOff.AwsMap)
    requires FillsIn(w, w') && Adoption.Covered(w, ns, w.listing)
    requires forall k <- DatabasesIn(w, ns, true) ::
               k in w'.dbs && w'.dbs[k].it == HandOff.AfterHandOff(k, w.dbs[k].it, aws) && !HandOff.Waits(w.dbs[k].it)
    ensures aws == Adoption.ByIdentifier(w.listing) ==> Handed(w', ns)
  {
    FillingKeepsCovered(w, w', ns);
    forall k <- DatabasesIn(w', ns, true) ensures HandOff.Complete(w'.dbs[k].it, aws) {
      CompleteDoesNotWait(w.dbs[k].it, aws);
    }
  }

  const SETTLED: Outcome := ReturnReady(UNDECIDED, SyncOK)

  /** The inventory is live, installed, and its DBInstances are handed off. */
  ghost predicate Served(w: World, key: Key) {
    && key in w.inventories && w.inventories[key].it.finalizer && !w.inventories[key].it.deleting
    && w.inventories[key].it.credentialsRef in w.secrets
    && Ack.Installed(w, w.secrets[w.inventories[key].it.credentialsRef].it.entries) && Ack.Ready(w)
    && Handed(w, key.ns)
  }

  /** And its status says so: it lists the DBInstances as they are and is ready. */
  ghost predicate Settled(w: World, key: Key) {
    && Served(w, key)
    && Listing.Describes(w.inventories[key].it.instances, w, key.ns)
    && SaysReady(w.inventories[key].it.conditions)
  }

  predicate SaysReady(cs: seq<Condition>) {
    var found := FindStatusCondition(cs, InventoryReady());
    found.Some? && found.value == ConditionOf(InventoryReady(), SETTLED).(since := found.value.since)
  }

  /** The two states differ in at most the inventory key. */
  ghost predicate OnlyInventory(w: World, w': World, key: Key) {
    && w'.dbs == w.dbs && w'.secrets == w.secrets && w'.adopted == w.adopted && w'.configs == w.configs
    && w'.ackSecret == w.ackSecret && w'.ackConfig == w.ackConfig && w'.deployment == w.deployment
    && w'.listing == w.listing && w'.instances == w.instances && w'.connections == w.connections
    && w'.awsPasswords == w.awsPasswords && w'.calls == w.calls
    && w'.inventories.Keys == w.inventories.Keys
    && forall k <- w.inventories :: k != key ==> w'.inventories[k] == w.inventories[k]
  }

  lemma InventoryWritten(w: World, key: Key, it: Inventory, hit: World)
    requires After(w, InventoryTo(key, Some(it)), hit) && key in w.inventories
    ensures OnlyInventory(w, hit, key) && hit.inventories[key] == Stored(w.inventories, key, it, w.clock)
  {
    var c := InventoryTo(key, Some(it));
    assert PartAfter(TheKinds, w, c, hit) && PartAfter(TheDatabases, w, c, hit) && PartAfter(TheAdopted, w, c, hit);
    assert PartAfter(TheFootprint, w, c, hit) && PartAfter(TheAws, w, c, hit) && PartAfter(TheSecrets, w, c, hit);
  }

  // ------------------------------------------------------ when a pass succeeds

  /** An adopted DBInstance without a password is in a state other than available. */
  ghost predicate SomeWaits(w: World, ns: string) {
    exists k <- DatabasesIn(w, ns, true) ::
      && w.dbs[k].it.spec.masterUserPassword.None?
      && w.dbs[k].it.State().Some? && w.dbs[k].it.State() != Some("available")
  }

  /** It is to refer to a password: it has none, and is in no state other than available. */
  predicate Lacks(d: DBInstance) {
    d.spec.masterUserPassword.None? && (d.State().None? || d.State() == Some("available"))
  }

  /** What the hand-off makes of the adopted DBInstance k, AWS listing this: it takes
      user name and database name, where it lacks them, from the last entry with its
      identifier; if it lacks a password it refers to the one in its own secret, and
      has a user name in any case; and nothing else of it changes. */
  ghost predicate Delivered(k: Key, d: DBInstance, d': DBInstance, listing: seq<AwsInstance>) {
    && d' == d.(spec := d.spec.(masterUsername := d'.spec.masterUsername, dbName := d'.spec.dbName,
                                masterUserPassword := d'.spec.masterUserPassword))
    && (forall i: nat :: Adoption.IsLast(listing, i) && listing[i].identifier == d.spec.identifier ==>
          NamedFrom(d, d'.spec, listing[i].masterUsername, listing[i].dbName))
    && ((forall a <- listing :: a.identifier != d.spec.identifier) ==> NamedFrom(d, d'.spec, None, None))
    && d'.spec.masterUserPassword ==
         (if Lacks(d) then Some(SecretRef(Key(k.ns, k.name + "-credentials"), "password"))
          else d.spec.masterUserPassword)
  }

  predicate NamedFrom(d: DBInstance, s: Spec, username: Option<string>, dbName: Option<string>) {
    && s.dbName == (if d.spec.dbName.Some? then d.spec.dbName else dbName)
    && s.masterUsername ==
         (if d.spec.masterUsername.Some? then d.spec.masterUsername
          else if username.Some? then username
          else if Lacks(d) then Some(Credential.GenerateUsername(d.spec.engine))
          else None)
  }

  lemma HandedNames(k: Key, d: DBInstance, aws: HandOff.AwsMap)
    ensures var s := HandOff.AfterHandOff(k, d, aws).spec;
            if d.spec.identifier in aws
            then NamedFrom(d, s, aws[d.spec.identifier].masterUsername, aws[d.spec.identifier].dbName)
            else NamedFrom(d, s, None, None)
  {
  }

  lemma HandedReference(k: Key, d: DBInstance, aws: HandOff.AwsMap)
    ensures var d' := HandOff.AfterHandOff(k, d, aws);
      && d' == d.(spec := d.spec.(masterUsername := d'.spec.masterUsername, dbName := d'.spec.dbName,
                                  masterUserPassword := d'.spec.masterUserPassword))
      && d'.spec.masterUserPassword ==
           if Lacks(d) then Some(SecretRef(Key(k.ns, k.name + "-credentials"), "password"))
           else d.spec.masterUserPassword
  {
  }

  lemma AfterHandOffDelivers(k: Key, d: DBInstance, listing: seq<AwsInstance>)
    ensures Delivered(k, d, HandOff.AfterHandOff(k, d, Adoption.ByIdentifier(listing)), listing)
  {
    hide Adoption.ByIdentifier, HandOff.AfterHandOff, NamedFrom, Lacks;
    var aws := Adoption.ByIdentifier(listing);
    Adoption.ByIdentifierTabulates(listing);
    HandedNames(k, d, aws);
    HandedReference(k, d, aws);
    if d.spec.identifier in aws { assert exists a <- listing :: a.identifier == d.spec.identifier; }
  }

  /** Where AWS lists distinct identifiers, that is the entry with its identifier. */
  lemma DeliveredFromEntry(k: Key, d: DBInstance, d': DBInstance, listing: seq<AwsInstance>, a: AwsInstance)
    requires Delivered(k, d, d', listing) && DistinctIds(listing) && a in listing && a.identifier == d.spec.identifier
    ensures d.spec.masterUsername.None? && a.masterUsername.Some? ==> d'.spec.masterUsername == a.masterUsername
    ensures d.spec.dbName.None? ==> d'.spec.dbName == a.dbName
  {
    var i :| 0 <= i < |listing| && listing[i] == a;
    assert Adoption.IsLast(listing, i);
  }

  /** The credentials are complete and the ACK controller has a ready replica. */
  ghost predicate Installable(w: World, credentialsRef: Key) {
    && credentialsRef in w.secrets && Ack.Complete(w.secrets[credentialsRef].it.entries)
    && w.deployment.Some? && w.deployment.value.it.ready != 0
  }

  lemma ReadyToServe(w: World, credentialsRef: Key)
    ensures Installable(w, credentialsRef) <==>
            credentialsRef in w.secrets && Ack.Complete(w.secrets[credentialsRef].it.entries) && Ack.Ready(w)
  {
  }

  /** Nothing is missing for the namespace: a pass can succeed. */
  ghost predicate Serviceable(w: World, ns: string, credentialsRef: Key) {
    Installable(w, credentialsRef) && Adoption.Covered(w, ns, w.listing) && !SomeWaits(w, ns)
  }

  lemma ServiceableSame(w: World, w': World, ns: string, credentialsRef: Key)
    requires OnlyFootprint(w, w')
    ensures Adoption.Covered(w', ns, w'.listing) <==> Adoption.Covered(w, ns, w.listing)
    ensures SomeWaits(w', ns) <==> SomeWaits(w, ns)
    ensures Serviceable(w, ns, credentialsRef) <==>
            Installable(w, credentialsRef) && Adoption.Covered(w', ns, w'.listing) && !SomeWaits(w', ns)
  {
    assert Adoption.DatabaseIds(w', ns) == Adoption.DatabaseIds(w, ns);
    assert Adoption.AdoptedIds(w', ns) == Adoption.AdoptedIds(w, ns);
    assert DatabasesIn(w', ns, true) == DatabasesIn(w, ns, true);
  }

  /** Inventories keep all but their status. */
  ghost predicate SameSpecs(w: World, w': World) {
    && w'.inventories.Keys == w.inventories.Keys
    && forall j <- w.inventories :: w'.inventories[j].it == InventoryStatusOf(w.inventories[j].it, w'.inventories[j].it)
  }

  ghost predicate DatabasesGain(w: World, w': World) {
    w'.dbs.Keys == w.dbs.Keys && forall k <- w.dbs :: SameDatabase(w.dbs[k].it, w'.dbs[k].it)
  }

  /** What a quiet pass that succeeds may change of what others keep in the cluster:
      DBInstances and secrets gain what the hand-off fills in. */
  ghost predicate OnlyFills(w: World, w': World) {
    && w'.connections == w.connections && w'.configs == w.configs && w'.instances == w.instances
    && SameSpecs(w, w') && DatabasesGain(w, w') && Gains(w.secrets, w'.secrets)
    && CallsStay(w, w')
  }

  /** What it then has told AWS: every password that was due. */
  ghost predicate Tells(w: World, w': World, ns: string) {
    HandOff.OwnIdsIn(w, ns) ==> HandOff.ToldIn(w, w', ns)
  }

  /** Every adopted DBInstance is as the hand-off leaves it, those that were due with
      their passwords told, whether or not another one waits. */
  ghost predicate HandsOff(w: World, w': World, ns: string) {
    && Tells(w, w', ns)
    && forall k <- DatabasesIn(w, ns, true) ::
         k in w'.dbs && Delivered(k, w.dbs[k].it, w'.dbs[k].it, w.listing)
  }

  lemma HandsOffAll(w: World, w': World, ns: string)
    requires Tells(w, w', ns)
    requires forall k <- DatabasesIn(w, ns, true) ::
               k in w'.dbs && w'.dbs[k].it == HandOff.AfterHandOff(k, w.dbs[k].it, Adoption.ByIdentifier(w.listing))
    ensures HandsOff(w, w', ns)
  {
    hide Tells, Delivered, HandOff.AfterHandOff, Adoption.ByIdentifier;
    forall k <- DatabasesIn(w, ns, true) ensures Delivered(k, w.dbs[k].it, w'.dbs[k].it, w.listing) {
      AfterHandOffDelivers(k, w.dbs[k].it, w.listing);
    }
  }

  /** What a quiet pass over an installed inventory brings about, whether it succeeds or
      not: all that AWS listed is covered, and if it was so before, the passwords are
      handed off. */
  ghost predicate Progressed(w: World, w': World, ns: string) {
    && Adoption.Covered(w', ns, w.listing)
    && (Adoption.Covered(w, ns, w.listing) ==> HandsOff(w, w', ns))
  }

  lemma HandsOffAfterInstall(u: World, v: World, w: World, ns: string)
    requires u.dbs == v.dbs && u.listing == v.listing && HandsOff(v, w, ns)
    ensures HandsOff(u, w, ns)
  {
    hide Delivered;
    TellsAfterInstall(u, v, w, ns);
    assert DatabasesIn(u, ns, true) == DatabasesIn(v, ns, true);
  }

  lemma ProgressedAfterInstall(u: World, v: World, w: World, ns: string)
    requires OnlyFootprint(u, v) && Progressed(v, w, ns)
    ensures Progressed(u, w, ns)
  {
    hide Adoption.Covered, HandsOff;
    CoveredSame(u, v, ns, u.listing);
    if HandsOff(v, w, ns) { HandsOffAfterInstall(u, v, w, ns); }
  }

  lemma ProgressedThenWritten(u: World, v: World, w: World, key: Key)
    requires Progressed(u, v, key.ns) && OnlyInventory(v, w, key)
    ensures Progressed(u, w, key.ns)
  {
    hide Adoption.Covered, Delivered, Tells;
    CoveredSame(v, w, key.ns, u.listing);
    if Adoption.Covered(u, key.ns, u.listing) { TellsThenWritten(u, v, w, key); }
  }

  lemma CoveredSame(w: World, w': World, ns: string, listing: seq<AwsInstance>)
    requires w'.dbs == w.dbs && w'.adopted == w.adopted
    ensures Adoption.Covered(w', ns, listing) <==> Adoption.Covered(w, ns, listing)
  {
    assert Adoption.DatabaseIds(w', ns) == Adoption.DatabaseIds(w, ns);
    assert Adoption.AdoptedIds(w', ns) == Adoption.AdoptedIds(w, ns);
  }

  lemma HandedProgress(w: World, w': World, ns: string)
    requires FillsIn(w, w') && HandsOff(w, w', ns) && Adoption.Covered(w, ns, w.listing)
    ensures Progressed(w, w', ns)
  {
    hide HandsOff;
    FillingKeepsCovered(w, w', ns);
  }

  lemma TellsAfterInstall(u: World, v: World, w: World, ns: string)
    requires u.dbs == v.dbs && Tells(v, w, ns)
    ensures Tells(u, w, ns)
  {
    hide HandOff.Synced, HandOff.Refers, HandOff.Due;
    assert DatabasesIn(u, ns, true) == DatabasesIn(v, ns, true);
    if HandOff.OwnIdsIn(u, ns) {
      assert forall k <- DatabasesIn(u, ns, true) :: IdOf(u, k) == IdOf(v, k);
      assert HandOff.ToldIn(v, w, ns);
    }
  }

  lemma FilledAfterInstall(u: World, v: World, w: World, ns: string)
    requires OnlyFootprint(u, v) && FillsIn(v, w) && Tells(v, w, ns) && Kept(CallOrder, InventoryWorker, v, w)
    ensures OnlyFills(u, w) && Tells(u, w, ns)
  {
    hide Tells, SameDatabase, Gains;
    TellsAfterInstall(u, v, w, ns);
  }

  lemma TellsThenWritten(u: World, v: World, w: World, key: Key)
    requires Tells(u, v, key.ns) && OnlyInventory(v, w, key)
    ensures Tells(u, w, key.ns)
  {
    hide HandOff.Due, HandOff.OwnIdsIn;
    if HandOff.OwnIdsIn(u, key.ns) {
      forall k <- DatabasesIn(u, key.ns, true) | HandOff.Due(u.dbs[k].it)
        ensures HandOff.Synced(w, k, IdOf(u, k)) && HandOff.Refers(w, k)
      {
        assert HandOff.Synced(v, k, IdOf(u, k)) && HandOff.Refers(v, k);
      }
    }
  }

  lemma FilledThenWritten(u: World, v: World, w: World, key: Key)
    requires OnlyFills(u, v) && Tells(u, v, key.ns) && OnlyInventory(v, w, key)
    requires key in v.inventories
             && w.inventories[key].it == InventoryStatusOf(v.inventories[key].it, w.inventories[key].it)
    ensures OnlyFills(u, w) && Tells(u, w, key.ns)
  {
    hide Tells, SameDatabase, Gains;
    TellsThenWritten(u, v, w, key);
  }

  lemma HandedSame(w: World, w': World, ns: string)
    requires w'.dbs == w.dbs && w'.adopted == w.adopted && w'.listing == w.listing && Handed(w, ns)
    ensures Handed(w', ns)
  {
    assert Adoption.DatabaseIds(w', ns) == Adoption.DatabaseIds(w, ns);
    assert Adoption.AdoptedIds(w', ns) == Adoption.AdoptedIds(w, ns);
    assert DatabasesIn(w', ns, true) == DatabasesIn(w, ns, true);
  }

  lemma DescribesSame(l: seq<Listed>, w: World, w': World, ns: string)
    requires w'.dbs == w.dbs && Listing.Describes(l, w, ns)
    ensures Listing.Describes(l, w', ns)
  {
    forall e <- l ensures Listing.Tells(w', ns, e) {
      assert Listing.Tells(w, ns, e);
    }
  }

  /** A status write leaves the inventory served. */
  lemma StatusKeepsServed(w: World, w': World, key: Key)
    requires Served(w, key) && OnlyInventory(w, w', key)
    requires w'.inventories[key].it == w.inventories[key].it.(conditions := w'.inventories[key].it.conditions,
                                                             instances := w'.inventories[key].it.instances)
    ensures Served(w', key)
  {
    HandedSame(w, w', key.ns);
  }

  /** A secret that gained a password installs the same. */
  lemma SameInstallation(s: Data, s': Data)
    requires SameSecret(s, s') && Ack.Complete(s.entries)
    ensures Ack.Complete(s'.entries)
    ensures Ack.AckSecretFor(s'.entries) == Ack.AckSecretFor(s.entries)
    ensures Ack.AckConfigFor(s'.entries) == Ack.AckConfigFor(s.entries)
  {
    assert |PasswordEntry()| == 8 && PasswordEntry()[0] == 'p';
    assert AccessKey()[0] == 'A' && SecretKey()[0] == 'A' && Region()[0] == 'A';
    assert "ACK_LOG_LEVEL"[0] == 'A' && "ACK_RESOURCE_TAGS"[0] == 'A';
  }

  /** An installed controller serves the inventory once everything is handed off. */
  lemma ServedAfter(w: World, w': World, key: Key, creds: Ack.Credentials)
    requires FillsIn(w, w') && Handed(w', key.ns) && Ack.Installed(w, creds) && Ack.Ready(w)
    requires key in w.inventories && w.inventories[key].it.finalizer && !w.inventories[key].it.deleting
    requires w.inventories[key].it.credentialsRef in w.secrets
    requires w.secrets[w.inventories[key].it.credentialsRef].it.entries == creds
    ensures Served(w', key)
  {
    var k := w.inventories[key].it.credentialsRef;
    SameInstallation(w.secrets[k].it, w'.secrets[k].it);
  }

  /** The verdict of a successful pass, committed, settles the inventory. */
  lemma SettledAfterCommit(w: World, w': World, key: Key, now: int)
    requires Served(w, key) && Listing.Describes(w.inventories[key].it.instances, w, key.ns)
    requires UniqueTypes(w.inventories[key].it.conditions) && OnlyInventory(w, w', key)
    requires w'.inventories[key].it == w.inventories[key].it.(
               conditions := SetStatusCondition(w.inventories[key].it.conditions,
                 ConditionOf(InventoryReady(), SETTLED), now))
    ensures Settled(w', key)
  {
    SetKeepsTypesUnique(w.inventories[key].it.conditions, ConditionOf(InventoryReady(), SETTLED), now);
    StatusKeepsServed(w, w', key);
    DescribesSame(w.inventories[key].it.instances, w, w', key.ns);
  }

  /** Committing it once more changes nothing. */
  lemma CommittedAgain(cs: seq<Condition>, now: int)
    requires SaysReady(cs)
    ensures SetStatusCondition(cs, ConditionOf(InventoryReady(), SETTLED), now) == cs
  {
    SetAgain(cs, ConditionOf(InventoryReady(), SETTLED), now);
  }

  /** The inventory as it was, but for the order in which it lists its instances. */
  ghost predicate SameUpToOrder(o: Inventory, o': Inventory) {
    o' == o.(instances := o'.instances) && multiset(o'.instances) == multiset(o.instances)
  }

  lemma SettledStays(w: World, w': World, key: Key, instances: seq<Listed>)
    requires Settled(w, key) && OnlyInventory(w, w', key) && Listing.Describes(instances, w', key.ns)
    requires w'.inventories[key].it == w.inventories[key].it.(instances := instances)
    ensures Settled(w', key) && SameUpToOrder(w.inventories[key].it, w'.inventories[key].it)
  {
    StatusKeepsServed(w, w', key);
    DescribesSame(w.inventories[key].it.instances, w, w', key.ns);
    Listing.DescribesUpToOrder(w.inventories[key].it.instances, instances, w', key.ns);
  }
}
