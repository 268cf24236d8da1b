/** What holds in every state of every run, and what each controller may rely
    on while the others act. */
module Protocol {
  import opened Wrappers
  import opened Store
  import opened Conditions
  import opened Owner
  import opened Database
  import opened World

  // ------------------------------------------------------------ invariants

  ghost predicate Versions(w: World) {
    && Stamped(w.inventories, w.clock) && Stamped(w.instances, w.clock) && Stamped(w.connections, w.clock)
    && Stamped(w.dbs, w.clock) && Stamped(w.secrets, w.clock) && Stamped(w.configs, w.clock)
    && (w.deployment.Some? ==> w.deployment.value.rv <= w.clock)
  }

  /** The admission check lets one inventory in; namespaces have no slash. */
  ghost predicate Admitted(w: World) {
    && (forall j <- w.inventories :: forall k <- w.inventories :: j == k)
    && (forall k <- w.inventories :: '/' !in k.ns)
    && (forall k <- w.instances :: '/' !in k.ns)
  }

  /** The ACK controller is never scaled up without its secret and config map. */
  ghost predicate NeverStarved(w: World) {
    Running(w) ==> Supplied(w)
  }

  /** An adopted resource is held by its own inventory's finalizer, and sits in
      its namespace. */
  ghost predicate AdoptedHeld(w: World) {
    forall a <- w.adopted :: AdoptedBy(w.adopted[a]).Some? ==>
      HasFinalizer(w, AdoptedBy(w.adopted[a]).value) && a.ns == AdoptedBy(w.adopted[a]).value.ns
  }

  /** The running ACK controller and what it reads are held by some inventory's. */
  ghost predicate FootprintHeld(w: World) {
    Running(w) || w.ackSecret.Some? || w.ackConfig.Some? ==> SomeFinalizer(w)
  }

  /** No DBInstance is left without the RDSInstance it is annotated with. */
  ghost predicate NoOrphans(w: World) {
    forall k <- w.dbs :: ProvisionedBy(w.dbs[k].it).Some? ==>
      var x := ProvisionedBy(w.dbs[k].it).value;
      HoldsInstance(w, x) && k == DatabaseKey(x, w.instances[x].it)
  }

  predicate SameAdoption(w: World, j: Key, k: Key)
    requires j in w.adopted && k in w.adopted
  {
    && AdoptedBy(w.adopted[j]).Some? && AdoptedBy(w.adopted[k]).Some?
    && j.ns == k.ns && w.adopted[j].nameOrID == w.adopted[k].nameOrID
  }

  /** While AWS lists distinct identifiers, an identifier is adopted once. */
  ghost predicate AdoptedOnce(w: World) {
    w.distinctListing ==>
      forall j <- w.adopted :: forall k <- w.adopted ::
        SameAdoption(w, j, k) ==> j == k
  }

  /** Every password ever sent to AWS for an adopted instance is the one its
      secret holds now, unless the secret lost one. */
  ghost predicate CallsAgree(w: World) {
    forall c <- w.calls :: c.db !in w.replaced ==>
      HasPassword(w, CredentialOf(c.db)) && PasswordAt(w, CredentialOf(c.db)) == c.password
  }

  /** An adopted instance refers to its own secret's password, and that is AWS's
      current one. */
  ghost predicate ReferenceAgrees(w: World, k: Key)
    requires k in w.dbs
  {
    && w.dbs[k].it.spec.masterUserPassword == Some(SecretRef(CredentialOf(k), PasswordEntry()))
    && HasPassword(w, CredentialOf(k))
    && IdOf(w, k) in w.awsPasswords
    && w.awsPasswords[IdOf(w, k)] == PasswordAt(w, CredentialOf(k))
  }

  ghost predicate ReferencesAgree(w: World) {
    forall k <- w.dbs :: HandedOff(w, k) && k !in w.contested && k !in w.replaced ==> ReferenceAgrees(w, k)
  }

  /** The records of the assumptions are true of this state. */
  ghost predicate Recorded(w: World) {
    ContestedNow(w.dbs, w.instances) <= w.contested && (w.distinctListing ==> DistinctIds(w.listing))
  }

  /** Every secret of a connection is where that connection keeps its own. */
  ghost predicate BindingsOwned(w: World) {
    forall k <- w.secrets :: BoundAt(w.secrets, k) ==>
      w.secrets[k].it.controller.value.k in w.everConnected && k == CredentialOf(w.secrets[k].it.controller.value.k)
  }

  ghost predicate Records(w: World) {
    && Recorded(w) && BindingsOwned(w) && w.connections.Keys <= w.everConnected
    && AdoptedNow(w.dbs) <= w.everAdopted && OwnedNow(w.adopted) <= w.everOwned
    && (forall c <- w.calls :: c.db in w.everAdopted) && w.replaced <= w.everAdopted * w.everConnected
  }

  ghost predicate Statuses(w: World) {
    && (forall k <- w.inventories :: Committable(w.inventories[k].it.conditions, InventoryReady()))
    && (forall k <- w.instances :: Committable(w.instances[k].it.status.conditions, InstanceReady()))
    && (forall k <- w.connections :: Committable(w.connections[k].it.status.conditions, ConnectionReady()))
  }

  datatype Aspect =
    | Versioning | Admission | Supply | AdoptedHold | FootprintHold | Ownership
    | Adoption | Passwords | References | History | Verdicts

  ghost predicate Holds(a: Aspect, w: World) {
    match a
    case Versioning => Versions(w)
    case Admission => Admitted(w)
    case Supply => NeverStarved(w)
    case AdoptedHold => AdoptedHeld(w)
    case FootprintHold => FootprintHeld(w)
    case Ownership => NoOrphans(w)
    case Adoption => AdoptedOnce(w)
    case Passwords => CallsAgree(w)
    case References => ReferencesAgree(w)
    case History => Records(w)
    case Verdicts => Statuses(w)
  }

  /** The invariant: every aspect holds. */
  ghost predicate Inv(w: World) {
    forall a: Aspect :: Holds(a, w)
  }

  /** The states a run starts in: the operator has started and scaled the ACK
      controller down, and nothing in the cluster is its doing yet. */
  ghost predicate Init(w: World) {
    && Versions(w) && Admitted(w)
    && !Running(w) && w.ackSecret.None? && w.ackConfig.None?
    && (forall k <- w.inventories :: !w.inventories[k].it.finalizer && w.inventories[k].it.conditions == [])
    && (forall k <- w.instances :: !w.instances[k].it.finalizer && w.instances[k].it.status.conditions == [])
    && (forall k <- w.connections :: w.connections[k].it.status.conditions == [])
    && (forall k <- w.dbs :: ProvisionedBy(w.dbs[k].it).None? && !HandedOff(w, k))
    && (forall k <- w.adopted :: AdoptedBy(w.adopted[k]).None?)
    && w.calls == [] && w.everAdopted == AdoptedNow(w.dbs) && w.everOwned == {}
    && w.connections.Keys <= w.everConnected && BindingsOwned(w)
    && w.contested == ContestedNow(w.dbs, w.instances) && w.replaced == {}
    && w.distinctListing == DistinctIds(w.listing)
  }

  lemma NoConditionsAreCommittable(ready: string)
    ensures Committable([], ready)
  {
  }

  lemma InitHasInv(w: World)
    requires Init(w)
    ensures Inv(w)
  {
    hide Committable;
    NoConditionsAreCommittable(InventoryReady());
    NoConditionsAreCommittable(InstanceReady());
    NoConditionsAreCommittable(ConnectionReady());
    forall a: Aspect ensures Holds(a, w) {
      match a
      case Versioning =>
      case Admission =>
      case Supply =>
      case AdoptedHold =>
      case FootprintHold =>
      case Ownership =>
      case Adoption =>
      case Passwords =>
      case References =>
      case History =>
      case Verdicts =>
    }
  }

  // ------------------------------------------------------- each step keeps them

  lemma SetKeepsStamped<T>(m: map<Key, Obj<T>>, k: Key, v: Option<T>, clock: nat)
    requires Stamped(m, clock)
    ensures Stamped(Set(m, k, v, clock), clock + 1) && Stamped(m, clock + 1)
  {
  }

  lemma VersionsKept(w: World, who: Actor, c: Change, w': World)
    requires Versions(w)
    requires Touches(w, c, w')
    ensures Versions(w')
  {
    match c
    case InventoryTo(k, v) => SetKeepsStamped(w.inventories, k, v, w.clock);
    case InstanceTo(k, v) => SetKeepsStamped(w.instances, k, v, w.clock);
    case ConnectionTo(k, v) => SetKeepsStamped(w.connections, k, v, w.clock);
    case DatabaseTo(k, v) => SetKeepsStamped(w.dbs, k, v, w.clock);
    case SecretTo(k, v) => SetKeepsStamped(w.secrets, k, v, w.clock);
    case ConfigTo(k, v) => SetKeepsStamped(w.configs, k, v, w.clock);
    case _ =>
  }

  lemma AdmittedKept(w: World, who: Actor, c: Change, w': World)
    requires Admitted(w)
    requires c.InventoryTo? ==> InventoryMay(w, who, c.k, c.inventory)
    requires c.InstanceTo? ==> InstanceMay(w, who, c.k, c.instance)
    requires Touches(w, c, w')
    ensures Admitted(w')
  {
  }

  lemma NeverStarvedKept(w: World, who: Actor, c: Change, w': World)
    requires NeverStarved(w)
    requires Allowed(w, who, c)
    requires Touches(w, c, w')
    ensures NeverStarved(w')
  {
  }

  lemma AdoptedHeldKeptByInventory(w: World, who: Actor, k: Key, v: Option<Inventory>, w': World)
    requires Admitted(w) && AdoptedHeld(w) && InventoryMay(w, who, k, v)
    requires w'.adopted == w.adopted && w'.inventories == Set(w.inventories, k, v, w.clock)
    ensures AdoptedHeld(w')
  {
    forall a <- w.adopted | AdoptedBy(w.adopted[a]).Some? ensures HasFinalizer(w', AdoptedBy(w.adopted[a]).value) {
      assert AdoptedBy(w.adopted[a]) == Some(k) ==> OwnsAdopted(w, k);
    }
  }

  lemma AdoptedHeldKept(w: World, who: Actor, c: Change, w': World)
    requires Admitted(w) && AdoptedHeld(w) && Touches(w, c, w')
    requires c.InventoryTo? ==> InventoryMay(w, who, c.k, c.inventory)
    requires c.AdoptedTo? ==> AdoptedMay(w, who, c.k, c.resource)
    ensures AdoptedHeld(w')
  {
    if c.InventoryTo? {
      AdoptedHeldKeptByInventory(w, who, c.k, c.inventory, w');
    } else {
      assert w'.inventories == w.inventories;
      assert forall k :: HasFinalizer(w', k) == HasFinalizer(w, k);
    }
  }

  lemma FootprintHeldKept(w: World, who: Actor, c: Change, w': World)
    requires Admitted(w) && FootprintHeld(w) && Allowed(w, who, c) && Touches(w, c, w')
    ensures FootprintHeld(w')
  {
    if SomeFinalizer(w) {
      var k :| k in w.inventories && HasFinalizer(w, k);
      assert (c.InventoryTo? && c.k == k) || HasFinalizer(w', k);
      assert HasFinalizer(w', k) ==> k in w'.inventories && SomeFinalizer(w');
    }
  }

  lemma NoOrphansKept(w: World, who: Actor, c: Change, w': World)
    requires NoOrphans(w)
    requires c.InstanceTo? ==> InstanceMay(w, who, c.k, c.instance)
    requires c.DatabaseTo? ==> DatabaseMay(w, who, c.k, c.db)
    requires Touches(w, c, w')
    ensures NoOrphans(w')
  {
    hide OwnerOf;
  }

  lemma AdoptedOnceKept(w: World, who: Actor, c: Change, w': World)
    requires AdoptedOnce(w)
    requires c.AdoptedTo? ==> AdoptedMay(w, who, c.k, c.resource)
    requires Touches(w, c, w')
    ensures AdoptedOnce(w')
  {
  }

  lemma CallsAgreeKept(w: World, who: Actor, c: Change, w': World)
    requires Records(w) && CallsAgree(w)
    requires c.SecretTo? ==> SecretMay(w, who, c.k, c.data)
    requires c.PasswordTo? ==> PasswordMay(w, who, c.call)
    requires Touches(w, c, w')
    requires Recorded(w')
    ensures CallsAgree(w')
  {
  }

  lemma ReferenceAgreesAfter(w: World, who: Actor, c: Change, w': World)
    requires Records(w) && ReferencesAgree(w) && c.DatabaseTo? && DatabaseMay(w, who, c.k, c.db)
    requires c.k !in w'.contested && c.k !in w'.replaced
    requires Touches(w, c, w')
    requires HandedOff(w', c.k)
    ensures ReferenceAgrees(w', c.k)
  {
    assert HandedOff(w, c.k) ==> ReferenceAgrees(w, c.k);
    if IsAdopted(w, c.k) { NotProvisioned(w, c.k); }
  }

  /** Nobody provisions under the name of an adopted DBInstance that is not contested. */
  lemma NotProvisioned(w: World, k: Key)
    requires Recorded(w) && IsAdopted(w, k) && k !in w.contested
    ensures forall x <- w.instances :: DatabaseKey(x, w.instances[x].it) != k
  {
    assert !ContestedIn(w.dbs, w.instances, k);
  }

  lemma ReferencesAgreeKeptByDatabase(w: World, who: Actor, c: Change, w': World)
    requires Records(w) && ReferencesAgree(w)
    requires c.DatabaseTo? && DatabaseMay(w, who, c.k, c.db)
    requires Touches(w, c, w')
    ensures ReferencesAgree(w')
  {
    forall k <- w'.dbs | HandedOff(w', k) && k !in w'.contested && k !in w'.replaced ensures ReferenceAgrees(w', k) {
      if k == c.k {
        ReferenceAgreesAfter(w, who, c, w');
      } else {
        assert HandedOff(w, k) && ReferenceAgrees(w, k);
      }
    }
  }

  lemma PasswordStays(w: World, c: Change, w': World, k: Key)
    requires Records(w) && Touches(w, c, w') && IsAdopted(w, k) && k !in w'.replaced && HasPassword(w, CredentialOf(k))
    ensures HasPassword(w', CredentialOf(k)) && PasswordAt(w', CredentialOf(k)) == PasswordAt(w, CredentialOf(k))
  {
    assert k in w.everAdopted;
    assert k !in Losing(w.everAdopted, w.secrets, w'.secrets);
  }

  lemma ReferencesAgreeKeptBySecret(w: World, c: Change, w': World)
    requires Records(w) && ReferencesAgree(w) && c.SecretTo? && Touches(w, c, w')
    ensures ReferencesAgree(w')
  {
    forall k <- w'.dbs | HandedOff(w', k) && k !in w'.contested && k !in w'.replaced ensures ReferenceAgrees(w', k) {
      assert HandedOff(w, k) && ReferenceAgrees(w, k);
      PasswordStays(w, c, w', k);
    }
  }

  lemma ReferencesAgreeKept(w: World, who: Actor, c: Change, w': World)
    requires Records(w) && ReferencesAgree(w)
    requires c.DatabaseTo? ==> DatabaseMay(w, who, c.k, c.db)
    requires c.SecretTo? ==> SecretMay(w, who, c.k, c.data)
    requires c.PasswordTo? ==> PasswordMay(w, who, c.call)
    requires Touches(w, c, w')
    requires Recorded(w')
    ensures ReferencesAgree(w')
  {
    if c.DatabaseTo? {
      ReferencesAgreeKeptByDatabase(w, who, c, w');
    } else if c.SecretTo? {
      ReferencesAgreeKeptBySecret(w, c, w');
    } else if c.PasswordTo? {
    } else {
      assert w'.dbs == w.dbs && w'.secrets == w.secrets && w'.awsPasswords == w.awsPasswords;
    }
  }

  lemma BindingsOwnedKept(w: World, who: Actor, c: Change, w': World)
    requires BindingsOwned(w) && Touches(w, c, w')
    requires c.SecretTo? ==> SecretMay(w, who, c.k, c.data)
    ensures BindingsOwned(w')
  {
  }

  /** Only the connection of the same name takes the place of a password, or its secret
      goes with it. */
  predicate Replaces(w: World, who: Actor, c: Change, k: Key) {
    && c.SecretTo? && c.k == CredentialOf(k) && k in w.everConnected
    && (who == ConnectionWorker(k)
        || (who == Outside && c.data.None? && c.k in w.secrets
             && w.secrets[c.k].it.controller == Some(ByConnection(k))))
  }

  lemma ReplacedByConnection(w: World, who: Actor, c: Change, w': World, k: Key)
    requires BindingsOwned(w) && k in w.everAdopted && Touches(w, c, w')
    requires c.SecretTo? ==> SecretMay(w, who, c.k, c.data)
    requires Loses(w.secrets, w'.secrets, CredentialOf(k))
    ensures Replaces(w, who, c, k)
  {
    assert c.SecretTo? && c.k == CredentialOf(k);
    assert KeptForAdopted(w, c.k);
    if who.ConnectionWorker? {
      CredentialKeyInjective(k, who.x);
    } else {
      assert who == Outside && BoundAt(w.secrets, c.k);
      CredentialKeyInjective(k, w.secrets[c.k].it.controller.value.k);
    }
  }

  /** A reference to the password AWS has stays one, through every step but those that
      take the password from the secret. */
  lemma AgreesUnlessLost(w: World, who: Actor, c: Change, w': World, k: Key)
    requires Records(w) && Allowed(w, who, c) && Touches(w, c, w')
    requires HandedOff(w, k) && ReferenceAgrees(w, k) && HandedOff(w', k) && k !in w'.contested
    ensures ReferenceAgrees(w', k) <==> !Loses(w.secrets, w'.secrets, CredentialOf(k))
  {
    hide Allowed, Records, Touches, ReferenceAgrees, Loses;
    MeansOf(w, who, c);
    if c.DatabaseTo? {
      AgreesOnDatabase(w, who, c, w', k);
    } else if c.PasswordTo? {
      AgreesOnPassword(w, who, c, w', k);
    } else {
      AgreesOnSecret(w, c, w', k);
    }
  }

  lemma MeansOf(w: World, who: Actor, c: Change)
    requires Allowed(w, who, c) && Records(w)
    ensures c.DatabaseTo? ==> DatabaseMay(w, who, c.k, c.db)
    ensures c.PasswordTo? ==> PasswordMay(w, who, c.call)
    ensures Recorded(w)
  {
  }

  lemma AgreesOnDatabase(w: World, who: Actor, c: Change, w': World, k: Key)
    requires Recorded(w) && c.DatabaseTo? && DatabaseMay(w, who, c.k, c.db) && Touches(w, c, w')
    requires HandedOff(w, k) && ReferenceAgrees(w, k) && HandedOff(w', k) && k !in w'.contested
    ensures ReferenceAgrees(w', k) && !Loses(w.secrets, w'.secrets, CredentialOf(k))
  {
    NotProvisioned(w, k);
  }

  lemma AgreesOnPassword(w: World, who: Actor, c: Change, w': World, k: Key)
    requires c.PasswordTo? && PasswordMay(w, who, c.call) && Touches(w, c, w')
    requires HandedOff(w, k) && ReferenceAgrees(w, k) && k !in w'.contested
    ensures k in w'.dbs && ReferenceAgrees(w', k) && !Loses(w.secrets, w'.secrets, CredentialOf(k))
  {
  }

  lemma AgreesOnSecret(w: World, c: Change, w': World, k: Key)
    requires !c.DatabaseTo? && !c.PasswordTo? && Touches(w, c, w') && k in w.dbs && ReferenceAgrees(w, k)
    ensures k in w'.dbs && (ReferenceAgrees(w', k) <==> !Loses(w.secrets, w'.secrets, CredentialOf(k)))
  {
    assert w'.dbs == w.dbs && w'.awsPasswords == w.awsPasswords;
  }

  lemma ReplacedAreConnected(w: World, who: Actor, c: Change, w': World)
    requires Records(w) && Touches(w, c, w')
    requires c.SecretTo? ==> SecretMay(w, who, c.k, c.data)
    ensures w'.replaced <= w'.everAdopted * w'.everConnected
  {
    hide SecretMay, BindingsOwned, Loses;
    forall k <- w'.replaced ensures k in w'.everAdopted && k in w'.everConnected {
      if k !in w.replaced {
        assert k in Losing(w.everAdopted, w.secrets, w'.secrets);
        ReplacedByConnection(w, who, c, w', k);
      }
    }
  }

  lemma RecordsKept(w: World, who: Actor, c: Change, w': World)
    requires Records(w)
    requires c.SecretTo? ==> SecretMay(w, who, c.k, c.data)
    requires c.PasswordTo? ==> PasswordMay(w, who, c.call)
    requires Touches(w, c, w')
    requires Recorded(w')
    ensures Records(w')
  {
    hide BindingsOwned, Recorded, Losing, ContestedNow;
    BindingsOwnedKept(w, who, c, w');
    ReplacedAreConnected(w, who, c, w');
  }

  lemma StatusesKept(w: World, who: Actor, c: Change, w': World)
    requires Statuses(w)
    requires c.InventoryTo? ==> InventoryMay(w, who, c.k, c.inventory)
    requires c.InstanceTo? ==> InstanceMay(w, who, c.k, c.instance)
    requires c.ConnectionTo? ==> ConnectionMay(w, who, c.k, c.connection)
    requires Touches(w, c, w')
    ensures Statuses(w')
  {
    hide Committable;
    NoConditionsAreCommittable(InventoryReady());
    NoConditionsAreCommittable(InstanceReady());
    NoConditionsAreCommittable(ConnectionReady());
  }

  lemma CustodyKept(a: Aspect, w: World, who: Actor, c: Change, w': World)
    requires Inv(w) && Allowed(w, who, c) && Touches(w, c, w')
    requires Recorded(w')
    requires a.Versioning? || a.Admission? || a.Supply? || a.AdoptedHold? || a.FootprintHold?
    ensures Holds(a, w')
  {
    match a
    case Versioning =>
      assert Holds(Versioning, w);
      VersionsKept(w, who, c, w');
    case Admission =>
      assert Holds(Admission, w);
      AdmittedKept(w, who, c, w');
    case Supply =>
      assert Holds(Supply, w);
      NeverStarvedKept(w, who, c, w');
    case AdoptedHold =>
      assert Holds(Admission, w);
      assert Holds(AdoptedHold, w);
      AdoptedHeldKept(w, who, c, w');
    case FootprintHold =>
      assert Holds(Admission, w);
      assert Holds(FootprintHold, w);
      FootprintHeldKept(w, who, c, w');
  }

  lemma OwnershipKept(a: Aspect, w: World, who: Actor, c: Change, w': World)
    requires Inv(w) && Allowed(w, who, c) && Touches(w, c, w')
    requires Recorded(w')
    requires !(a.Versioning? || a.Admission? || a.Supply? || a.AdoptedHold? || a.FootprintHold?)
    ensures Holds(a, w')
  {
    match a
    case Ownership =>
      assert Holds(Ownership, w);
      NoOrphansKept(w, who, c, w');
    case Adoption =>
      assert Holds(Adoption, w);
      AdoptedOnceKept(w, who, c, w');
    case Passwords =>
      assert Holds(History, w);
      assert Holds(Passwords, w);
      CallsAgreeKept(w, who, c, w');
    case References =>
      assert Holds(History, w);
      assert Holds(References, w);
      ReferencesAgreeKept(w, who, c, w');
    case History =>
      assert Holds(History, w);
      RecordsKept(w, who, c, w');
    case Verdicts =>
      assert Holds(Verdicts, w);
      StatusesKept(w, who, c, w');
  }

  lemma StepKeepsInv(w: World, who: Actor, c: Change)
    requires Inv(w) && Allowed(w, who, c)
    ensures Inv(Apply(w, c))
  {
    ApplyTouches(w, c);
    forall a: Aspect ensures Holds(a, Apply(w, c)) {
      if a.Versioning? || a.Admission? || a.Supply? || a.AdoptedHold? || a.FootprintHold? {
        CustodyKept(a, w, who, c, Apply(w, c));
      } else {
        OwnershipKept(a, w, who, c, Apply(w, c));
      }
    }
  }
}
