/** The RDSInventory controller: one call of Reconcile. */
module InventoryController {
  import opened Wrappers
  import opened Store
  import opened Conditions
  import opened World
  import opened Protocol
  import opened Interference
  import opened Outcomes
  import opened Api
  import opened Secrets
  import opened Settlement
  import Ack
  import Adoption
  import HandOff
  import Listing
  import Teardown

  /** The pass holds a copy that was stored when it was read, so an update based
      on it is accepted only if the stored inventory is still that one. */
  ghost predicate Copied(w: World, key: Key, o: Obj<Inventory>) {
    && Faithful(w.inventories, key, o, w.clock)
    && Committable(o.it.conditions, InventoryReady())
    && (o.it.finalizer ==> HasFinalizer(w, key) && (o.it.deleting ==> Teardown.Dying(w, key)))
  }

  lemma CopiedOnRead(w: World, key: Key)
    requires Versions(w) && Statuses(w) && key in w.inventories
    ensures Copied(w, key, w.inventories[key])
  {
  }

  lemma StaysCopied(w: World, w': World, key: Key, o: Obj<Inventory>, except: set<Concern>)
    requires Copied(w, key, o) && Keeps(InventoryWorker, except, w, w')
    requires Clock !in except && InventoryOrder !in except && Finalizers !in except
    ensures Copied(w', key, o)
  {
    assert Kept(InventoryOrder, InventoryWorker, w, w') && Kept(Clock, InventoryWorker, w, w');
    StaysFaithful(w.inventories, w'.inventories, key, o, w.clock, w'.clock);
    assert Kept(Finalizers, InventoryWorker, w, w');
    assert SameHold(w, w', key);
  }

  lemma MayAddFinalizer(w: World, key: Key, o: Obj<Inventory>)
    requires Copied(w, key, o) && !o.it.deleting && Current(w.inventories, key, o)
    ensures Allowed(w, InventoryWorker, InventoryTo(key, Some(o.it.(finalizer := true))))
  {
  }

  /** Nothing the inventory caused is left. */
  ghost predicate Gone(w: World, key: Key) {
    Teardown.Dying(w, key) && !OwnsAdopted(w, key) && !Running(w) && w.ackSecret.None? && w.ackConfig.None?
  }

  lemma MayRemoveFinalizer(w: World, key: Key, o: Obj<Inventory>)
    requires Copied(w, key, o) && Gone(w, key) && Current(w.inventories, key, o)
    ensures Allowed(w, InventoryWorker, InventoryTo(key, Some(o.it.(finalizer := false))))
  {
  }

  /** The inventory says it is ready only if it said so before or `cs` does. */
  ghost predicate NoClaimBut(w: World, w': World, key: Key, cs: seq<Condition>) {
    InventoryClaims(w', key) ==> InventoryClaims(w, key) || SaysTrue(cs, InventoryReady())
  }

  lemma KeepsNoClaim(w: World, w': World, key: Key, except: set<Concern>, cs: seq<Condition>)
    requires Keeps(InventoryWorker, except, w, w') && Claims !in except
    ensures NoClaimBut(w, w', key, cs)
  {
    assert Kept(Claims, InventoryWorker, w, w');
  }

  lemma WrittenNoClaim(w: World, key: Key, it: Inventory, hit: World, w': World)
    requires hit == w || After(w, InventoryTo(key, Some(it)), hit)
    requires Rely(InventoryWorker, hit, w')
    ensures NoClaimBut(w, w', key, it.conditions)
  {
    assert Kept(Claims, InventoryWorker, hit, w');
    if hit != w { assert PartAfter(TheKinds, w, InventoryTo(key, Some(it)), hit); }
  }

  lemma FinalizerWritten(w: World, key: Key, o: Inventory, hit: World, w': World)
    requires After(w, InventoryTo(key, Some(o)), hit) && Rely(InventoryWorker, hit, w')
    ensures HasFinalizer(w', key) <==> o.finalizer
  {
    assert PartAfter(TheKinds, w, InventoryTo(key, Some(o)), hit);
    assert Kept(Finalizers, InventoryWorker, hit, w');
    assert SameHold(hit, w', key);
  }

  lemma MayCommit(w: World, key: Key, o: Inventory)
    requires key in w.inventories && Committable(o.conditions, InventoryReady())
    ensures Allowed(w, InventoryWorker, InventoryTo(key, Some(InventoryStatusOf(w.inventories[key].it, o))))
  {
  }

  /** What Uninstall did when it stopped the pass, seen from the start of the pass. */
  lemma UninstalledIsPass(begin: World, released: World, w: World, key: Key)
    requires Teardown.Dying(begin, key) && Rely(InventoryWorker, begin, released)
    requires Teardown.OwnedBy(begin, key) == {} && Keeps(InventoryWorker, {Footprint}, released, w)
    ensures released.ackSecret == begin.ackSecret && released.ackConfig == begin.ackConfig
    ensures Teardown.OwnedBy(w, key) == {} && Teardown.Unmarked(w, key) == {} && HasFinalizer(w, key)
  {
    Teardown.StaysDying(begin, released, key);
    Teardown.OwnsIffOwned(begin, key);
    Ack.StaysReleased(begin, released, key);
    Ack.StaysReleased(released, w, key);
    Teardown.OwnsIffOwned(w, key);
    assert Kept(Footprint, InventoryWorker, begin, released);
  }

  /** What a pass without a failed call makes of a deleted inventory: a teardown pass,
      but for one that owns nothing and finds no deployment to stop. */
  ghost predicate TornDown(w: World, w': World, key: Key, e: Option<Error>) {
    if w.deployment.Some? || Teardown.OwnedBy(w, key) != {} then e.None? && Teardown.TeardownPass(w, w', key)
    else e == Some(NotFound)
  }

  lemma DeploymentStays(w: World, w': World)
    requires Rely(InventoryWorker, w, w')
    ensures w'.deployment.Some? <==> w.deployment.Some?
  {
    assert Kept(Clock, InventoryWorker, w, w');
  }

  /** A pass that found something owned and marked it. */
  lemma WaitedIsPass(begin: World, w: World, key: Key)
    requires Teardown.Dying(begin, key) && Rely(InventoryWorker, begin, w) && Teardown.OwnedBy(begin, key) != {}
    requires Teardown.Unmarked(w, key) == {} && Teardown.OwnedBy(w, key) <= Teardown.OwnedBy(begin, key)
    ensures Teardown.TeardownPass(begin, w, key)
  {
    hide Teardown.Unmarked, Teardown.OwnedBy;
    Teardown.StaysDying(begin, w, key);
    assert Kept(Footprint, InventoryWorker, begin, w);
  }

  /** A pass that stopped the controller and removed one of the two objects. */
  lemma StoppedIsPass(begin: World, w: World, key: Key)
    requires Teardown.OwnedBy(begin, key) == {} && Teardown.OwnedBy(w, key) == {} && Teardown.Unmarked(w, key) == {}
    requires HasFinalizer(w, key) && !Running(w) && w.ackSecret.None?
             && (begin.ackSecret.Some? || begin.ackConfig.Some?)
    requires w.ackConfig == if begin.ackSecret.Some? then begin.ackConfig else None
    ensures Teardown.TeardownPass(begin, w, key)
  {
    hide Teardown.OwnedBy, Teardown.Unmarked;
  }

  lemma RemovedIsPass(begin: World, gone: World, w: World, key: Key)
    requires Teardown.OwnedBy(begin, key) == {} && begin.ackSecret.None? && begin.ackConfig.None?
    requires Gone(gone, key) && Keeps(InventoryWorker, {Finalizers, Claims}, gone, w)
    ensures !HasFinalizer(w, key) ==> Teardown.TeardownPass(begin, w, key)
  {
    assert Kept(Owned, InventoryWorker, gone, w);
    assert Kept(Footprint, InventoryWorker, gone, w);
    Teardown.OwnsIffOwned(gone, key);
    Teardown.OwnsIffOwned(w, key);
  }

  /** What adopting and handing off disturb. */
  const ADOPTION: set<Concern> := {Owned, AddedReferences, Provisions, Calls}

  lemma AdoptionKeepsCalls(w: World, w': World)
    requires Keeps(InventoryWorker, ADOPTION, w, w')
    ensures Kept(CallOrder, InventoryWorker, w, w')
  {
  }

  lemma Weaken(d: set<Concern>, w: World, w': World)
    requires Keeps(InventoryWorker, d, w, w') && d <= ADOPTION
    ensures Keeps(InventoryWorker, ADOPTION, w, w')
  {
  }

  function MissingCredential(name: string): Error {
    Invalid("required credential " + name + " is missing")
  }

  function InputRejected(name: string): Outcome {
    ReturnError(MissingCredential(name), InputError, OfError(MissingCredential(name)))
  }

  lemma StaysFinalized(w: World, w': World, key: Key)
    requires Keeps(InventoryWorker, {Footprint}, w, w') && HasFinalizer(w, key)
    ensures HasFinalizer(w', key)
  {
    assert Kept(Finalizers, InventoryWorker, w, w');
    assert SameHold(w, w', key);
  }

  lemma StaysInstalled(w: World, w': World, creds: Ack.Credentials)
    requires Rely(InventoryWorker, w, w') && Ack.Installed(w, creds)
    ensures Ack.Installed(w', creds)
  {
    assert Kept(Footprint, InventoryWorker, w, w');
  }

  lemma WeakenRead(w: World, w': World)
    requires Rely(InventoryWorker, w, w')
    ensures Keeps(InventoryWorker, {Finalizers, Claims}, w, w')
  {
  }

  /** The copy with the ready condition of an outcome. */
  function WithVerdict(o: Inventory, out: Outcome, now: int): Inventory {
    o.(conditions := SetStatusCondition(o.conditions, ConditionOf(InventoryReady(), out), now))
  }

  lemma WeakenFinalizer(w: World, w': World)
    requires Keeps(InventoryWorker, {Finalizers, Claims}, w, w')
    ensures Keeps(InventoryWorker, {Footprint, Finalizers, Claims}, w, w')
  {
  }

  lemma CopiedIsCommittable(w: World, key: Key, o: Obj<Inventory>)
    requires Copied(w, key, o)
    ensures Committable(o.it.conditions, InventoryReady()) && (o.it.finalizer ==> HasFinalizer(w, key))
  {
  }

  lemma NoClaimOn(u: World, v: World, w: World, key: Key, cs: seq<Condition>)
    requires NoClaimBut(u, v, key, cs) && NoClaimBut(v, w, key, cs)
    ensures NoClaimBut(u, w, key, cs)
  {
  }

  lemma CopiedIsDying(w: World, key: Key, o: Obj<Inventory>)
    requires Copied(w, key, o) && o.it.finalizer && o.it.deleting
    ensures Teardown.Dying(w, key)
  {
  }

  /** Disturbing less is keeping more. */
  lemma Disturbed(w: World, w': World, d: set<Concern>)
    requires Keeps(InventoryWorker, d, w, w') && d <= {Footprint}
    ensures Keeps(InventoryWorker, {Footprint, Finalizers, Claims}, w, w')
  {
  }

  lemma ServedMeans(w: World, key: Key)
    requires Served(w, key)
    ensures key in w.inventories && w.inventories[key].it.credentialsRef in w.secrets
    ensures var entries := w.secrets[w.inventories[key].it.credentialsRef].it.entries;
            Ack.Complete(entries) && Ack.Installed(w, entries) && Ack.Ready(w) && Handed(w, key.ns)
  {
  }

  lemma FilledIsCopy(w: World, w': World, key: Key, o: Obj<Inventory>)
    requires FillsIn(w, w') && Copied(w', key, o) && Current(w'.inventories, key, o)
    ensures key in w.inventories && w.inventories[key] == o && w'.inventories[key] == o
  {
  }

  /** An installed controller and a hand-off, put together. */
  lemma Prepared(begin: World, installed: World, w: World, key: Key, o: Obj<Inventory>, creds: Ack.Credentials)
    requires OnlyFootprint(begin, installed) && Ack.Installed(installed, creds) && Ack.Ready(installed)
    requires o.it.credentialsRef in installed.secrets && installed.secrets[o.it.credentialsRef].it.entries == creds
    requires FillsIn(installed, w) && Handed(w, key.ns) && Tells(installed, w, key.ns)
             && Keeps(InventoryWorker, ADOPTION, installed, w)
    requires Copied(w, key, o) && o.it.finalizer && !o.it.deleting
    ensures OnlyFills(begin, w) && Tells(begin, w, key.ns)
    ensures Current(w.inventories, key, o) ==> Served(w, key)
  {
    hide OnlyFootprint, Handed, FillsIn, Tells, OnlyFills, Keeps, Copied, Current, Served, Ack.Installed, Ack.Ready;
    AdoptionKeepsCalls(installed, w);
    FilledAfterInstall(begin, installed, w, key.ns);
    if Current(w.inventories, key, o) {
      FilledIsCopy(installed, w, key, o);
      ServedAfter(installed, w, key, creds);
    }
  }

  lemma StatusNoClaim(w: World, key: Key, o: Inventory, hit: World, w': World)
    requires hit == w || (key in w.inventories
             && After(w, InventoryTo(key, Some(InventoryStatusOf(w.inventories[key].it, o))), hit))
    requires Rely(InventoryWorker, hit, w')
    ensures NoClaimBut(w, w', key, o.conditions)
  {
    if hit == w {
      KeepsNoClaim(w, w', key, {}, o.conditions);
    } else {
      WrittenNoClaim(w, key, InventoryStatusOf(w.inventories[key].it, o), hit, w');
    }
  }

  lemma StatusKeepsFinalizers(w: World, key: Key, o: Inventory, hit: World, w': World)
    requires hit == w || (key in w.inventories
             && After(w, InventoryTo(key, Some(InventoryStatusOf(w.inventories[key].it, o))), hit))
    requires Rely(InventoryWorker, hit, w')
    ensures forall k :: HasFinalizer(w', k) <==> HasFinalizer(w, k)
  {
    if hit != w {
      assert PartAfter(TheKinds, w, InventoryTo(key, Some(InventoryStatusOf(w.inventories[key].it, o))), hit);
    }
    assert Kept(Finalizers, InventoryWorker, hit, w');
    forall k ensures HasFinalizer(w', k) <==> HasFinalizer(w, k) {
      assert SameHold(hit, w', k);
    }
  }

  /** A quiet pass over the inventory, without a failed call, ends well. */
  ghost predicate Succeeds(w: World, key: Key, o: Inventory) {
    o.finalizer && !o.deleting && Serviceable(w, key.ns, o.credentialsRef)
  }

  lemma SomeWaitsMeans(w: World, ns: string)
    ensures SomeWaits(w, ns) <==> exists k <- DatabasesIn(w, ns, true) :: HandOff.Waits(w.dbs[k].it)
  {
    forall k <- DatabasesIn(w, ns, true)
      ensures HandOff.Waits(w.dbs[k].it) <==>
                && w.dbs[k].it.spec.masterUserPassword.None?
                && w.dbs[k].it.State().Some? && w.dbs[k].it.State() != Some("available")
    {
    }
  }

  /** One gets as far as adopting and handing off. */
  ghost predicate Progresses(w: World, o: Inventory) {
    o.finalizer && !o.deleting && Installable(w, o.credentialsRef)
  }

  // How a pass over an inventory ends when no call fails and nobody interferes.

  ghost function Ending(w: World, key: Key, o: Inventory): End {
    if o.deleting && !o.finalizer then End(false, false, No, Deleting)
    else if o.deleting then TearDownEnds(w, key)
    else if !o.finalizer then End(false, false, No, Why.Updating)
    else if !Serviceable(w, key.ns, o.credentialsRef) then NotServedEnds(w, o.credentialsRef)
    else End(false, false, Yes, SyncOK)
  }

  /** While something it owns or one of ACK's objects was left, it comes back. */
  ghost function TearDownEnds(w: World, key: Key): End {
    if Teardown.OwnedBy(w, key) != {} then End(true, false, Unsure, Why.Updating)
    else if w.deployment.None? then End(false, true, No, BackendError)
    else if w.ackSecret.Some? || w.ackConfig.Some? then End(true, false, Unsure, Why.Updating)
    else End(false, false, No, Why.Updating)
  }

  ghost function NotServedEnds(w: World, credentialsRef: Key): End {
    if !Installable(w, credentialsRef) then NotInstalledEnds(w, credentialsRef)
    // it adopts what is missing, or an adopted DBInstance is not available yet
    else End(true, false, Unsure, Why.Updating)
  }

  ghost function NotInstalledEnds(w: World, credentialsRef: Key): End {
    if credentialsRef !in w.secrets then End(false, true, No, BackendError)
    else if !Ack.Complete(w.secrets[credentialsRef].it.entries) then End(false, true, No, InputError)
    else NotReadyEnds(w)
  }

  ghost function NotReadyEnds(w: World): End {
    if w.deployment.None? then End(false, true, No, BackendError) else End(true, false, No, Why.Updating)
  }

  /** One pass over the inventory `key`: the variables its closures share. */
  class InventoryPass {
    const c: Cluster
    const key: Key
    var inventory: Obj<Inventory>
    var credentials: map<string, string>
    var out: Outcome

    constructor (c: Cluster, key: Key, read: Obj<Inventory>)
      ensures this.c == c && this.key == key && inventory == read && out == UNDECIDED
    {
      this.c, this.key, inventory, credentials, out := c, key, read, map[], UNDECIDED;
    }

    // ------------------------------------------------------ checkFinalizer

    /** A live inventory takes the finalizer, and the pass ends. */
    method AddFinalizer()
      requires c.Valid() && Copied(c.w, key, inventory) && !inventory.it.deleting && !inventory.it.finalizer
      modifies this`inventory, this`out, c
      ensures c.Valid() && Keeps(InventoryWorker, {Finalizers, Claims}, old(c.w), c.w)
      ensures c.outside >= old(c.outside) && c.faults >= old(c.faults)
      ensures Unsuccessful(out) && Committable(inventory.it.conditions, InventoryReady())
      ensures c.faults > old(c.faults) ==> Interrupted(out)
      ensures c.faults == old(c.faults) ==> HasFinalizer(c.w, key) && Ended(out, End(false, false, No, Why.Updating))
      ensures NoClaimBut(old(c.w), c.w, key, old(inventory).it.conditions)
    {
      if Current(c.w.inventories, key, inventory) { MayAddFinalizer(c.w, key, inventory); }
      c.Have(Verdicts);
      ghost var before := c.w;
      inventory := Obj(inventory.rv, inventory.it.(finalizer := true));
      var r := c.UpdateInventory(InventoryWorker, key, inventory);
      WrittenNoClaim(before, key, inventory.it, c.hit, c.w);
      if r == Err(Conflict) {
        out := ReturnUpdating(UpdatingInventory);
      } else if r.Err? {
        out := ReturnError(r.error, BackendError, Says(InventoryUpdateFailed));
      } else {
        FinalizerWritten(before, key, inventory.it, c.hit, c.w);
        inventory := r.value;
        out := ReturnNotReady(Why.Updating, Says(UpdatingInventory));
      }
    }

    /** The deleted inventory, of which nothing is left, loses the finalizer. */
    method RemoveFinalizer()
      requires c.Valid() && Copied(c.w, key, inventory) && Gone(c.w, key)
      modifies this`inventory, this`out, c
      ensures c.Valid() && Keeps(InventoryWorker, {Finalizers, Claims}, old(c.w), c.w)
      ensures c.outside >= old(c.outside) && c.faults >= old(c.faults)
      ensures Unsuccessful(out) && Committable(inventory.it.conditions, InventoryReady())
      ensures c.faults > old(c.faults) ==> Interrupted(out)
      ensures c.faults == old(c.faults) ==> !HasFinalizer(c.w, key) && Ended(out, End(false, false, No, Why.Updating))
      ensures NoClaimBut(old(c.w), c.w, key, old(inventory).it.conditions)
    {
      if Current(c.w.inventories, key, inventory) { MayRemoveFinalizer(c.w, key, inventory); }
      ghost var before := c.w;
      inventory := Obj(inventory.rv, inventory.it.(finalizer := false));
      var r := c.UpdateInventory(InventoryWorker, key, inventory);
      WrittenNoClaim(before, key, inventory.it, c.hit, c.w);
      if r == Err(Conflict) {
        out := ReturnUpdating(UpdatingInventory);
      } else if r.Err? {
        out := ReturnError(r.error, BackendError, Says(InventoryUpdateFailed));
      } else {
        FinalizerWritten(before, key, inventory.it, c.hit, c.w);
        inventory := r.value;
        out := ReturnNotReady(Why.Updating, Says(UpdatingInventory));
      }
    }

    /** Deletes the secret of the stopped ACK controller, if it is there. */
    method DropSecret() returns (stop: bool)
      requires c.Valid() && !Running(c.w)
      modifies this`out, c
      ensures c.Valid() && Keeps(InventoryWorker, {Footprint}, old(c.w), c.w)
      ensures c.outside >= old(c.outside) && c.faults >= old(c.faults)
      ensures !Running(c.w) && c.w.ackConfig == old(c.w).ackConfig
      ensures stop ==> Unsuccessful(out)
      ensures c.faults > old(c.faults) ==> Interrupted(out)
      ensures stop && c.faults == old(c.faults) ==>
                old(c.w).ackSecret.Some? && c.w.ackSecret.None? && Ended(out, End(true, false, Unsure, Why.Updating))
      ensures !stop ==> out == old(out) && c.faults == old(c.faults) && old(c.w).ackSecret.None? && c.w.ackSecret.None?
    {
      ghost var begin := c.w;
      var secret := c.GetAckSecret();
      assert Kept(Footprint, InventoryWorker, begin, c.w);
      stop := secret != Err(NotFound);
      if secret.Err? && stop {
        out := ReturnError(secret.error, BackendError, Says(GetFailed));
      } else if stop {
        ghost var read := c.w;
        var e := c.WriteAck(AckSecretTo(None));
        KeepsTransitive(InventoryWorker, {}, {Footprint}, {Footprint}, begin, read, c.w);
        out := if e.Some? then ReturnError(e.value, BackendError, Says(DeleteFailed))
          else ReturnUpdating(UpdatingInventory);
      }
    }

    /** Deletes the config map likewise, once the secret is gone. */
    method DropConfigMap() returns (stop: bool)
      requires c.Valid() && !Running(c.w) && c.w.ackSecret.None?
      modifies this`out, c
      ensures c.Valid() && Keeps(InventoryWorker, {Footprint}, old(c.w), c.w)
      ensures c.outside >= old(c.outside) && c.faults >= old(c.faults)
      ensures !Running(c.w) && c.w.ackSecret.None?
      ensures stop ==> Unsuccessful(out)
      ensures c.faults > old(c.faults) ==> Interrupted(out)
      ensures stop && c.faults == old(c.faults) ==>
                old(c.w).ackConfig.Some? && c.w.ackConfig.None? && Ended(out, End(true, false, Unsure, Why.Updating))
      ensures !stop ==> out == old(out) && c.faults == old(c.faults) && old(c.w).ackConfig.None? && c.w.ackConfig.None?
    {
      ghost var begin := c.w;
      var configMap := c.GetAckConfig();
      assert Kept(Footprint, InventoryWorker, begin, c.w);
      stop := configMap != Err(NotFound);
      if configMap.Err? && stop {
        out := ReturnError(configMap.error, BackendError, Says(GetFailed));
      } else if stop {
        ghost var read := c.w;
        var e := c.WriteAck(AckConfigTo(None));
        KeepsTransitive(InventoryWorker, {}, {Footprint}, {Footprint}, begin, read, c.w);
        out := if e.Some? then ReturnError(e.value, BackendError, Says(DeleteFailed))
          else ReturnUpdating(UpdatingInventory);
      }
    }

    /** Stops the ACK controller, then deletes its secret or else its config map;
        goes on only when both were gone before. */
    method Uninstall() returns (stop: bool)
      requires c.Valid() && Teardown.Dying(c.w, key) && !OwnsAdopted(c.w, key)
      modifies this`out, c
      ensures c.Valid() && Keeps(InventoryWorker, {Footprint}, old(c.w), c.w)
      ensures c.outside >= old(c.outside) && c.faults >= old(c.faults)
      ensures stop ==> Unsuccessful(out)
      ensures c.faults > old(c.faults) ==> Interrupted(out)
      // it needs a deployment to stop
      ensures c.faults == old(c.faults) && old(c.w).deployment.None? ==>
                stop && out.err == Some(NotFound) && Ended(out, End(false, true, No, BackendError))
      ensures stop && c.faults == old(c.faults) && old(c.w).deployment.Some? ==>
                && Ended(out, End(true, false, Unsure, Why.Updating)) && !Running(c.w) && c.w.ackSecret.None?
                && (old(c.w).ackSecret.Some? || old(c.w).ackConfig.Some?)
                && c.w.ackConfig == if old(c.w).ackSecret.Some? then old(c.w).ackConfig else None
      ensures !stop ==>
                && Gone(c.w, key) && out == old(out) && c.faults == old(c.faults) && old(c.w).deployment.Some?
                && old(c.w).ackSecret.None? && old(c.w).ackConfig.None?
    {
      stop := true;
      ghost var begin := c.w;
      var e := Ack.StopRDSController(c, key);
      if e.Some? {
        out := ReturnError(e.value, BackendError, Says(UninstallFailed));
        return;
      }
      Ack.StaysReleased(begin, c.w, key);
      ghost var stopped := c.w;
      var secret := DropSecret();
      KeepsTransitive(InventoryWorker, {Footprint}, {Footprint}, {Footprint}, begin, stopped, c.w);
      if secret { return; }
      ghost var dropped := c.w;
      Ack.StaysReleased(stopped, dropped, key);
      stop := DropConfigMap();
      KeepsTransitive(InventoryWorker, {Footprint}, {Footprint}, {Footprint}, begin, dropped, c.w);
      Ack.StaysReleased(dropped, c.w, key);
    }

    /** Marks what the inventory owns; the pass ends when there was something. */
    method Release() returns (stop: bool)
      requires c.Valid() && Copied(c.w, key, inventory) && inventory.it.finalizer && inventory.it.deleting
      modifies this`out, c
      ensures c.Valid() && Rely(InventoryWorker, old(c.w), c.w) && c.outside >= old(c.outside)
              && c.faults >= old(c.faults)
      ensures Copied(c.w, key, inventory) && NoClaimBut(old(c.w), c.w, key, inventory.it.conditions)
      ensures stop ==> Unsuccessful(out) && Committable(inventory.it.conditions, InventoryReady())
      ensures c.faults > old(c.faults) ==> Interrupted(out)
      ensures stop && c.faults == old(c.faults) ==>
                && Teardown.OwnedBy(old(c.w), key) != {} && Teardown.TeardownPass(old(c.w), c.w, key)
                && Ended(out, End(true, false, Unsure, Why.Updating))
      ensures !stop ==>
                && out == old(out) && c.faults == old(c.faults)
                && Teardown.OwnedBy(old(c.w), key) == {} && Teardown.OwnedBy(c.w, key) == {}
    {
      hide InventoryClaims, SaysTrue, Committable, Copied, Teardown.TeardownPass, AdoptedBy;
      ghost var begin := c.w;
      CopiedIsDying(begin, key, inventory);
      CopiedIsCommittable(begin, key, inventory);
      var deleting := Teardown.ReleaseAdopted(c, key);
      KeepsNoClaim(begin, c.w, key, {}, inventory.it.conditions);
      StaysCopied(begin, c.w, key, inventory, {});
      stop := true;
      if deleting.Err? {
        out := ReturnError(deleting.error, BackendError, Says(DeleteFailed));
      } else if deleting.value {
        out := ReturnUpdating(UpdatingInventory);
        WaitedIsPass(begin, c.w, key);
      } else {
        stop := false;
      }
    }

    /** The deleted inventory's part of checkFinalizer. */
    method TearDown()
      requires c.Valid() && Copied(c.w, key, inventory) && inventory.it.finalizer && inventory.it.deleting
      modifies this`inventory, this`out, c
      ensures c.Valid() && Keeps(InventoryWorker, {Footprint, Finalizers, Claims}, old(c.w), c.w)
      ensures c.outside >= old(c.outside) && c.faults >= old(c.faults)
      ensures Unsuccessful(out) && Committable(inventory.it.conditions, InventoryReady())
      ensures c.faults > old(c.faults) ==> Interrupted(out)
      ensures c.faults == old(c.faults) ==>
                TornDown(old(c.w), c.w, key, out.err) && Ended(out, TearDownEnds(old(c.w), key))
      ensures NoClaimBut(old(c.w), c.w, key, old(inventory).it.conditions)
    {
      hide NoClaimBut, Committable, Copied, Keeps, Running, Teardown.TeardownPass, Teardown.OwnedBy;
      hide Teardown.Unmarked, OwnsAdopted;
      ghost var begin, cs := c.w, inventory.it.conditions;
      CopiedIsDying(begin, key, inventory);
      CopiedIsCommittable(begin, key, inventory);
      var stop := Release();
      ghost var released := c.w;
      DeploymentStays(begin, released);
      if stop {
        Disturbed(begin, released, {});
        return;
      }
      Teardown.StaysDying(begin, released, key);
      Teardown.OwnsIffOwned(released, key);
      stop := Uninstall();
      UninstalledIsPass(begin, released, c.w, key);
      KeepsTransitive(InventoryWorker, {}, {Footprint}, {Footprint}, begin, released, c.w);
      KeepsNoClaim(begin, c.w, key, {Footprint}, inventory.it.conditions);
      if stop {
        Disturbed(begin, c.w, {Footprint});
        if c.faults == old(c.faults) && released.deployment.Some? { StoppedIsPass(begin, c.w, key); }
        return;
      }
      StaysCopied(released, c.w, key, inventory, {Footprint});
      ghost var gone := c.w;
      RemoveFinalizer();
      NoClaimOn(begin, gone, c.w, key, cs);
      RemovedIsPass(begin, gone, c.w, key);
      KeepsTransitive(InventoryWorker, {Footprint}, {Finalizers, Claims}, {Footprint, Finalizers, Claims}, begin, gone,
        c.w);
    }

    // ------------------------------------- validateAWSParameter, installRDSController

    /** Reads the credentials and demands its three entries. A missing secret is
        first reported as not found and then, like any failed read, as a backend
        error, which is what stays. */
    method Validate() returns (stop: bool)
      requires c.Valid()
      modifies this`credentials, this`out, c
      ensures c.Valid() && c.Since(InventoryWorker, old(c.w), old(c.outside)) && c.writes == old(c.writes)
      ensures c.faults >= old(c.faults)
      ensures stop ==> Unsuccessful(out)
      ensures c.faults > old(c.faults) ==> Interrupted(out)
      ensures stop && (c.faults > old(c.faults) || inventory.it.credentialsRef !in old(c.w).secrets) ==>
                Ended(out, End(false, true, No, BackendError))
      ensures stop && c.faults == old(c.faults) && inventory.it.credentialsRef in old(c.w).secrets ==>
                var data := old(c.w).secrets[inventory.it.credentialsRef].it.entries;
                && Ended(out, End(false, true, No, InputError))
                && exists name <- [AccessKey(), SecretKey(), Region()] ::
                     !Given(data, name) && out == InputRejected(name)
      ensures !stop ==>
                && c.faults == old(c.faults) && out == old(out)
                && inventory.it.credentialsRef in old(c.w).secrets
                && credentials == old(c.w).secrets[inventory.it.credentialsRef].it.entries
                && Ack.Complete(credentials)
      ensures c.faults == old(c.faults) ==>
                (stop <==> !(&& inventory.it.credentialsRef in old(c.w).secrets
                             && Ack.Complete(old(c.w).secrets[inventory.it.credentialsRef].it.entries)))
    {
      hide MissingCredential;
      stop := true;
      var secret := c.GetSecret(InventoryWorker, inventory.it.credentialsRef);
      if secret.Err? {
        if secret.error == NotFound {
          out := ReturnError(secret.error, Absent, Says(GetFailed));
        }
        out := ReturnError(secret.error, BackendError, Says(GetFailed));
        return;
      }
      var data := secret.value.it.entries;
      if !Given(data, AccessKey()) {
        out := InputRejected(AccessKey());
      } else if !Given(data, SecretKey()) {
        out := InputRejected(SecretKey());
      } else if !Given(data, Region()) {
        out := InputRejected(Region());
      } else {
        credentials := data;
        stop := false;
      }
    }

    /** Supplies the ACK controller, scales it up and looks whether it is ready. */
    method Install() returns (stop: bool)
      requires c.Valid() && HasFinalizer(c.w, key) && Ack.Complete(credentials)
      modifies this`out, c
      ensures c.Valid() && Keeps(InventoryWorker, {Footprint}, old(c.w), c.w)
      ensures c.outside >= old(c.outside) && c.faults >= old(c.faults)
      ensures c.outside == old(c.outside) ==> OnlyFootprint(old(c.w), c.w)
      ensures stop ==> Unsuccessful(out)
      ensures c.faults > old(c.faults) ==> Interrupted(out)
      ensures !stop ==> out == old(out) && c.faults == old(c.faults) && Ack.Installed(c.w, credentials)
      ensures !stop && c.outside == old(c.outside) ==> Ack.Ready(c.w)
      ensures stop && c.faults == old(c.faults) && old(c.w).deployment.Some? ==>
                && out == ReturnRequeue(Why.Updating, Says(InstallingController))
                && Ack.Installed(c.w, credentials) && (c.outside == old(c.outside) ==> !Ack.Ready(c.w))
      ensures c.faults == old(c.faults) && c.outside == old(c.outside) ==> (stop <==> !Ack.Ready(old(c.w)))
      ensures stop && c.faults == old(c.faults) && c.outside == old(c.outside) ==> Ended(out, NotReadyEnds(old(c.w)))
      ensures Ack.Installed(old(c.w), credentials) ==>
                && c.writes == old(c.writes) && (c.outside == old(c.outside) ==> c.w == old(c.w))
                && (Ack.Ready(old(c.w)) && c.outside == old(c.outside) && c.faults == old(c.faults) ==> !stop)
    {
      hide Ack.AckSecretFor, Ack.AckConfigFor;
      stop := true;
      ghost var begin := c.w;
      var e := Ack.CreateOrUpdateSecret(c, key, credentials);
      if e.Some? {
        out := ReturnError(e.value, BackendError, Says(CreateOrUpdateFailed));
        return;
      }
      ghost var supplied := c.w;
      StaysFinalized(begin, supplied, key);
      e := Ack.CreateOrUpdateConfigMap(c, key, credentials);
      ghost var configured := c.w;
      KeepsTransitive(InventoryWorker, {Footprint}, {Footprint}, {Footprint}, begin, supplied, configured);
      if e.Some? {
        out := ReturnError(e.value, BackendError, Says(CreateOrUpdateFailed));
        return;
      }
      StaysFinalized(begin, configured, key);
      stop := Start(begin);
    }

    method Start(ghost begin: World) returns (stop: bool)
      requires c.Valid() && HasFinalizer(c.w, key) && Ack.Complete(credentials)
      requires c.w.ackSecret == Some(Ack.AckSecretFor(credentials))
               && c.w.ackConfig == Some(Ack.AckConfigFor(credentials))
      requires Keeps(InventoryWorker, {Footprint}, begin, c.w)
      modifies this`out, c
      ensures c.Valid() && Keeps(InventoryWorker, {Footprint}, begin, c.w)
      ensures c.outside >= old(c.outside) && c.faults >= old(c.faults)
      ensures c.outside == old(c.outside) ==> OnlyFootprint(old(c.w), c.w)
      ensures stop ==> Unsuccessful(out)
      ensures c.faults > old(c.faults) ==> Interrupted(out)
      ensures !stop ==> out == old(out) && c.faults == old(c.faults) && Ack.Installed(c.w, credentials)
      ensures !stop && c.outside == old(c.outside) ==> Ack.Ready(c.w)
      ensures stop && c.faults == old(c.faults) && old(c.w).deployment.Some? ==>
                && out == ReturnRequeue(Why.Updating, Says(InstallingController))
                && Ack.Installed(c.w, credentials) && (c.outside == old(c.outside) ==> !Ack.Ready(c.w))
      ensures c.faults == old(c.faults) && c.outside == old(c.outside) ==> (stop <==> !Ack.Ready(old(c.w)))
      ensures stop && c.faults == old(c.faults) && c.outside == old(c.outside) ==> Ended(out, NotReadyEnds(old(c.w)))
      ensures Running(old(c.w)) ==>
                && c.writes == old(c.writes) && (c.outside == old(c.outside) ==> c.w == old(c.w))
                && (Ack.Ready(old(c.w)) && c.outside == old(c.outside) && c.faults == old(c.faults) ==> !stop)
    {
      hide Ack.AckSecretFor, Ack.AckConfigFor;
      stop := true;
      ghost var configured := c.w;
      var e := Ack.StartRDSController(c, key);
      ghost var started := c.w;
      KeepsTransitive(InventoryWorker, {Footprint}, {Footprint}, {Footprint}, begin, configured, started);
      if e.Some? {
        out := ReturnError(e.value, BackendError, Says(InstallFailed));
        return;
      }
      var ready := Ack.WaitForRDSController(c);
      KeepsTransitive(InventoryWorker, {Footprint}, {}, {Footprint}, begin, started, c.w);
      StaysInstalled(started, c.w, credentials);
      if ready.Err? {
        out := ReturnError(ready.error, BackendError, Says(VerifyInstallFailed));
      } else if !ready.value {
        out := ReturnRequeue(Why.Updating, Says(InstallingController));
      } else {
        stop := false;
      }
    }

    // ---------------------------------------------------- adoptDBInstances

    /** Adopts what AWS lists and the cluster lacks; when nothing was missing,
        hands the adopted instances their passwords. */
    method AdoptInstances() returns (stop: bool)
      requires c.Valid() && HasFinalizer(c.w, key)
      modifies this`out, c
      ensures c.Valid() && Keeps(InventoryWorker, ADOPTION, old(c.w), c.w)
      ensures c.outside >= old(c.outside) && c.faults >= old(c.faults)
      ensures stop ==> Unsuccessful(out)
      ensures c.faults > old(c.faults) ==> Interrupted(out)
      ensures !stop ==> out == old(out) && c.faults == old(c.faults)
      ensures stop && c.faults == old(c.faults) ==> out == ReturnUpdating(UpdatingInventory)
      ensures c.faults == old(c.faults) && c.outside == old(c.outside) ==>
                (stop <==> !Adoption.Covered(old(c.w), key.ns, old(c.w).listing) || SomeWaits(old(c.w), key.ns))
      ensures !stop && c.outside == old(c.outside) ==>
              FillsIn(old(c.w), c.w) && Handed(c.w, key.ns) && Tells(old(c.w), c.w, key.ns)
      // stopped or not, it adopts what is missing or hands off what is due
      ensures c.faults == old(c.faults) && c.outside == old(c.outside) ==> Progressed(old(c.w), c.w, key.ns)
      ensures Handed(old(c.w), key.ns) && c.outside == old(c.outside) ==>
                c.writes == old(c.writes) && c.w == old(c.w) && (c.faults == old(c.faults) ==> !stop)
    {
      hide Handed, FillsIn, Tells, HandsOff, Adoption.Covered, Adoption.Tabulates, SomeWaits;
      stop := true;
      ghost var begin := c.w;
      ListingIsDistinct();
      var listing := Adoption.ReadListing(c);
      ghost var read := c.w;
      Weaken({}, begin, read);
      if listing.Err? {
        out := ReturnError(listing.error, BackendError, Says(GetInstancesFailed));
        return;
      }
      Adoption.StaysFinalized(begin, read, key);
      var aws: HandOff.AwsMap := map[];
      if |listing.value| > 0 {
        stop, aws := AdoptListed(listing.value);
        KeepsTransitive(InventoryWorker, {}, ADOPTION, ADOPTION, begin, read, c.w);
        if c.outside == old(c.outside) { HandedIsCovered(begin, key.ns); }
        if stop { return; }
      }
      ghost var adopted := c.w;
      if c.outside == old(c.outside) { CoveredWhenEmpty(begin, key.ns); }
      stop := HandOffPasswords(aws);
      if c.faults == old(c.faults) && c.outside == old(c.outside) { HandedProgress(begin, c.w, key.ns); }
      KeepsTransitive(InventoryWorker, ADOPTION, ADOPTION, ADOPTION, begin, adopted, c.w);
    }

    lemma ListingIsDistinct()
      requires c.Valid()
      ensures c.w.distinctListing ==> DistinctIds(c.w.listing)
    {
      c.Have(History);
    }

    method AdoptListed(listing: seq<AwsInstance>) returns (stop: bool, aws: HandOff.AwsMap)
      requires c.Valid() && HasFinalizer(c.w, key) && (c.w.distinctListing ==> DistinctIds(listing))
      modifies this`out, c
      ensures c.Valid() && Keeps(InventoryWorker, ADOPTION, old(c.w), c.w)
      ensures c.outside >= old(c.outside) && c.faults >= old(c.faults)
      ensures stop ==> Unsuccessful(out)
      ensures c.faults > old(c.faults) ==> Interrupted(out)
      ensures !stop ==>
                && out == old(out) && c.faults == old(c.faults)
                && aws == Adoption.ByIdentifier(listing) && Adoption.Tabulates(aws, listing)
                && (c.outside == old(c.outside) ==> c.w == old(c.w))
      ensures stop && c.faults == old(c.faults) ==> out == ReturnUpdating(UpdatingInventory)
      ensures c.faults == old(c.faults) && c.outside == old(c.outside) ==>
                Adoption.Covered(c.w, key.ns, listing) && (stop <==> !Adoption.Covered(old(c.w), key.ns, listing))
      ensures Adoption.Covered(old(c.w), key.ns, listing) && c.outside == old(c.outside) ==>
                c.writes == old(c.writes) && c.w == old(c.w) && (c.faults == old(c.faults) ==> !stop)
    {
      hide Adoption.Covered, Adoption.Tabulates;
      stop := true;
      ghost var begin := c.w;
      var adopting, what;
      ghost var read, created;
      adopting, what, aws, read, created := Adoption.AdoptMissing(c, key, listing);
      Weaken({Owned}, begin, c.w);
      if adopting.Err? {
        out := ReturnError(adopting.error, BackendError, Says(what));
      } else if adopting.value {
        out := ReturnUpdating(UpdatingInventory);
      } else {
        stop := false;
      }
    }

    method HandOffPasswords(aws: HandOff.AwsMap) returns (stop: bool)
      requires c.Valid()
      modifies this`out, c
      ensures c.Valid() && Keeps(InventoryWorker, ADOPTION, old(c.w), c.w)
      ensures c.outside >= old(c.outside) && c.faults >= old(c.faults)
      ensures stop ==> Unsuccessful(out)
      ensures c.faults > old(c.faults) ==> Interrupted(out)
      ensures !stop ==> out == old(out) && c.faults == old(c.faults)
      ensures stop && c.faults == old(c.faults) ==> out == ReturnUpdating(UpdatingInventory)
      ensures c.faults == old(c.faults) ==> (stop <==> SomeWaits(old(c.w), key.ns))
      ensures !stop && c.outside == old(c.outside) && aws == Adoption.ByIdentifier(old(c.w).listing)
              && Adoption.Covered(old(c.w), key.ns, old(c.w).listing) ==>
                FillsIn(old(c.w), c.w) && Handed(c.w, key.ns)
      ensures !stop && c.outside == old(c.outside) ==> Tells(old(c.w), c.w, key.ns)
      ensures c.faults == old(c.faults) && c.outside == old(c.outside)
              && aws == Adoption.ByIdentifier(old(c.w).listing) ==>
                FillsIn(old(c.w), c.w) && HandsOff(old(c.w), c.w, key.ns)
      ensures Handed(old(c.w), key.ns) && c.outside == old(c.outside)
              && aws == Adoption.ByIdentifier(old(c.w).listing) ==>
                c.writes == old(c.writes) && c.w == old(c.w) && (c.faults == old(c.faults) ==> !stop)
    {
      hide Cluster.Valid;
      hide FillsIn, Handed, Adoption.Covered, HandOff.Waits, HandOff.Complete, HandOff.AfterHandOff;
      hide HandOff.OwnIdsIn, HandOff.ToldIn, HandsOff, SomeWaits;
      ghost var begin := c.w;
      if Handed(begin, key.ns) { HandedIsComplete(begin, key.ns); }
      var failed, waits := HandOff.HandOffAll(c, key.ns, aws);
      Weaken({AddedReferences, Provisions, Calls}, begin, c.w);
      if failed.None? && c.outside == old(c.outside) && aws == Adoption.ByIdentifier(begin.listing) {
        HandsOffAll(begin, c.w, key.ns);
      }
      SomeWaitsMeans(begin, key.ns);
      if failed.Some? {
        stop, out := true, failed.value;
      } else if waits {
        stop, out := true, ReturnUpdating(UpdatingInventory);
      } else {
        stop := false;
        if c.outside == old(c.outside) && Adoption.Covered(begin, key.ns, begin.listing) {
          HandedAfter(begin, c.w, key.ns, aws);
        }
      }
    }

    // ------------------------------------ syncDBInstancesStatus, the deferred write

    /** Lists the DBInstances of the namespace in the status. */
    method Sync() returns (stop: bool)
      requires c.Valid() && Committable(inventory.it.conditions, InventoryReady())
      modifies this`inventory, this`out, c
      ensures c.Valid() && Keeps(InventoryWorker, {Finalizers, Claims}, old(c.w), c.w)
      ensures c.outside >= old(c.outside) && c.faults >= old(c.faults)
      ensures c.writes == old(c.writes) && Committable(inventory.it.conditions, InventoryReady())
      ensures stop ==> Unsuccessful(out) && c.faults > old(c.faults)
      ensures c.faults > old(c.faults) ==> Interrupted(out)
      ensures NoClaimBut(old(c.w), c.w, key, old(inventory).it.conditions)
      ensures inventory.it.conditions == old(inventory).it.conditions
      ensures !stop ==>
                && out == old(out) && c.faults == old(c.faults)
                && (c.outside == old(c.outside) ==>
                      && Current(old(c.w).inventories, key, old(inventory))
                      && OnlyInventory(old(c.w), c.w, key) && inventory == c.w.inventories[key]
                      && inventory.it == InventoryStatusOf(old(c.w).inventories[key].it,
                           old(inventory).it.(instances := inventory.it.instances))
                      && Listing.Describes(inventory.it.instances, c.w, key.ns)
                      && (inventory.it == old(c.w).inventories[key].it ==> c.w == old(c.w)))
    {
      stop := true;
      ghost var begin := c.w;
      var list := c.ListDatabases(InventoryWorker, key.ns, false);
      ghost var listed := c.w;
      WeakenRead(begin, listed);
      KeepsNoClaim(begin, listed, key, {}, inventory.it.conditions);
      if list.Err? {
        out := ReturnError(list.error, BackendError, Says(GetInstancesFailed));
        return;
      }
      var instances := Listing.Build(begin, key.ns, list.value);
      inventory := Obj(inventory.rv, inventory.it.(instances := instances));
      var e := WriteStatus();
      KeepsTransitive(InventoryWorker, {}, {Finalizers, Claims}, {Finalizers, Claims}, begin, listed, c.w);
      if e == Some(Conflict) {
        out := ReturnUpdating(UpdatingInventory);
      } else if e.Some? {
        out := ReturnError(e.value, BackendError, Says(InventoryUpdateFailed));
      } else {
        stop := false;
        if c.outside == old(c.outside) { DescribesSame(instances, begin, c.w, key.ns); }
      }
    }

    /** Status().Update of the copy, which then is what the server stored. */
    method WriteStatus() returns (e: Option<Error>)
      requires c.Valid() && Committable(inventory.it.conditions, InventoryReady())
      modifies this`inventory, c
      ensures c.Valid() && Keeps(InventoryWorker, {Finalizers, Claims}, old(c.w), c.w)
      ensures c.outside >= old(c.outside) && c.faults >= old(c.faults)
      ensures forall k :: HasFinalizer(c.w, k) <==> HasFinalizer(old(c.w), k)
      ensures c.writes == old(c.writes) && Committable(inventory.it.conditions, InventoryReady())
      ensures NoClaimBut(old(c.w), c.w, key, old(inventory).it.conditions)
      ensures e.Some? ==> c.faults > old(c.faults) && inventory == old(inventory)
      ensures e.None? ==>
                && c.faults == old(c.faults) && Current(old(c.w).inventories, key, old(inventory))
                && inventory.it == InventoryStatusOf(old(c.w).inventories[key].it, old(inventory).it)
                && (c.outside == old(c.outside) ==>
                      && OnlyInventory(old(c.w), c.w, key) && inventory == c.w.inventories[key]
                      && (inventory.it == old(c.w).inventories[key].it ==> c.w == old(c.w)))
    {
      ghost var before := c.w;
      if key in c.w.inventories { MayCommit(c.w, key, inventory.it); }
      var r := c.UpdateInventoryStatus(InventoryWorker, key, inventory);
      StatusKeepsFinalizers(before, key, inventory.it, c.hit, c.w);
      StatusNoClaim(before, key, inventory.it, c.hit, c.w);
      if r.Err? {
        return Some(r.error);
      }
      ghost var it := InventoryStatusOf(before.inventories[key].it, inventory.it);
      if it != before.inventories[key].it { InventoryWritten(before, key, it, c.hit); }
      inventory := r.value;
      e := None;
    }

    /** updateInventoryReadyCondition: the verdict becomes the ready condition,
        whatever way the pass ended. */
    method Commit()
      requires c.Valid() && out.judged.Some? && Committable(inventory.it.conditions, InventoryReady())
      modifies this`inventory, this`out, c
      ensures c.Valid() && Keeps(InventoryWorker, {Finalizers, Claims}, old(c.w), c.w)
      ensures c.outside >= old(c.outside) && c.faults >= old(c.faults)
      ensures forall k :: HasFinalizer(c.w, k) <==> HasFinalizer(old(c.w), k)
      ensures c.writes == old(c.writes)
      ensures out.judged == old(out).judged
      ensures InventoryClaims(c.w, key) ==> InventoryClaims(old(c.w), key) || out.judged.value.verdict == Yes
      ensures c.faults > old(c.faults) ==> out.requeue || out.err.Some?
      ensures c.faults == old(c.faults) ==>
              out == old(out) && key in old(c.w).inventories && Current(old(c.w).inventories, key, old(inventory))
      ensures c.faults == old(c.faults) && c.outside == old(c.outside) ==>
                && OnlyInventory(old(c.w), c.w, key) && key in c.w.inventories
                && (exists now: int ::
                      c.w.inventories[key].it ==
                      InventoryStatusOf(old(c.w).inventories[key].it, WithVerdict(old(inventory).it, old(out), now)))
                && Reads(c.w.inventories[key].it.conditions, InventoryReady(), out.judged.value)
                && (InventoryClaims(c.w, key) <==> out.judged.value.verdict == Yes)
                && (c.w.inventories[key].it == old(c.w).inventories[key].it ==> c.w == old(c.w))
    {
      hide Reads;
      var now: int := *;
      CommitKeepsCommittable(inventory.it.conditions, out, now, InventoryReady());
      CommitSays(inventory.it.conditions, out, now, InventoryReady());
      CommitReads(inventory.it.conditions, out, now, InventoryReady());
      inventory := Obj(inventory.rv, WithVerdict(inventory.it, out, now));
      var e := WriteStatus();
      out := AfterCommit(out, e);
    }

    // --------------------------------------------------------- Reconcile

    /** checkFinalizer: goes on only for a live inventory that has its finalizer. */
    method CheckFinalizer() returns (stop: bool)
      requires c.Valid() && Copied(c.w, key, inventory)
      modifies this`inventory, this`out, c
      ensures c.Valid() && Keeps(InventoryWorker, {Footprint, Finalizers, Claims}, old(c.w), c.w)
      ensures c.outside >= old(c.outside) && c.faults >= old(c.faults)
      ensures Committable(inventory.it.conditions, InventoryReady())
      ensures stop ==> Unsuccessful(out)
      ensures c.faults > old(c.faults) ==> Interrupted(out)
      ensures stop <==> old(inventory).it.deleting || !old(inventory).it.finalizer
      ensures !stop ==>
                && inventory == old(inventory) && out == old(out)
                && c.w == old(c.w) && c.faults == old(c.faults) && c.writes == old(c.writes)
                     && c.outside == old(c.outside)
      ensures c.faults == old(c.faults) && old(inventory).it.deleting && old(inventory).it.finalizer ==>
                TornDown(old(c.w), c.w, key, out.err)
      ensures c.faults == old(c.faults) && !old(inventory).it.deleting && !old(inventory).it.finalizer ==>
                out.err.None? && HasFinalizer(c.w, key)
      ensures stop && c.faults == old(c.faults) ==> Ended(out, Ending(old(c.w), key, old(inventory).it))
      ensures NoClaimBut(old(c.w), c.w, key, old(inventory).it.conditions)
    {
      KeepsReflexive(InventoryWorker, c.w);
      ghost var begin := c.w;
      stop := true;
      if !inventory.it.deleting {
        if !inventory.it.finalizer {
          AddFinalizer();
          WeakenFinalizer(begin, c.w);
        } else {
          stop := false;
        }
      } else if inventory.it.finalizer {
        TearDown();
      } else {
        out := ReturnNotReady(Deleting, Says(DeletingInventory));
      }
    }

    /** Credentials and the ACK controller. */
    method ValidateAndInstall() returns (stop: bool)
      requires c.Valid() && Copied(c.w, key, inventory) && inventory.it.finalizer
      modifies this`credentials, this`out, c
      ensures c.Valid() && c.outside >= old(c.outside) && c.faults >= old(c.faults)
      ensures stop ==> Unsuccessful(out)
      ensures c.faults > old(c.faults) ==> Interrupted(out)
      ensures !stop ==> out == old(out) && c.faults == old(c.faults) && Copied(c.w, key, inventory)
      ensures !stop && c.outside == old(c.outside) ==>
                && Ack.Installed(c.w, credentials) && Ack.Ready(c.w)
                && inventory.it.credentialsRef in c.w.secrets
                && c.w.secrets[inventory.it.credentialsRef].it.entries == credentials
      ensures c.outside == old(c.outside) ==> OnlyFootprint(old(c.w), c.w)
      ensures c.faults == old(c.faults) && c.outside == old(c.outside) ==>
                && (stop <==> !Installable(old(c.w), inventory.it.credentialsRef))
                && (stop ==> Ended(out, NotInstalledEnds(old(c.w), inventory.it.credentialsRef)))
      ensures NoClaimBut(old(c.w), c.w, key, inventory.it.conditions)
      ensures Served(old(c.w), key) && old(c.w).inventories[key] == inventory && c.outside == old(c.outside) ==>
                c.writes == old(c.writes) && c.w == old(c.w) && (c.faults == old(c.faults) ==> !stop)
    {
      hide Served, Copied, Ack.Installed, Ack.Complete, Ack.Ready, Unsuccessful, InventoryClaims, SaysTrue,
        HasFinalizer, Installable;
      ghost var begin := c.w;
      ReadyToServe(begin, inventory.it.credentialsRef);
      CopiedIsCommittable(begin, key, inventory);
      if Served(begin, key) { ServedMeans(begin, key); }
      stop := Validate();
      ghost var validated := c.w;
      KeepsNoClaim(begin, validated, key, {}, inventory.it.conditions);
      if stop { return; }
      StaysCopied(begin, validated, key, inventory, {});
      CopiedIsCommittable(validated, key, inventory);
      stop := Install();
      KeepsNoClaim(validated, c.w, key, {Footprint}, inventory.it.conditions);
      StaysCopied(validated, c.w, key, inventory, {Footprint});
    }

    /** Credentials, ACK controller, adoption: everything before the status. */
    method Prepare() returns (stop: bool)
      requires c.Valid() && Copied(c.w, key, inventory) && inventory.it.finalizer && !inventory.it.deleting
      modifies this`credentials, this`out, c
      ensures c.Valid() && c.outside >= old(c.outside) && c.faults >= old(c.faults)
      ensures stop ==> Unsuccessful(out)
      ensures c.faults > old(c.faults) ==> Interrupted(out)
      ensures !stop ==> out == old(out) && c.faults == old(c.faults) && Copied(c.w, key, inventory)
      ensures !stop && c.outside == old(c.outside) && Current(c.w.inventories, key, inventory) ==> Served(c.w, key)
      ensures !stop && c.outside == old(c.outside) ==> OnlyFills(old(c.w), c.w) && Tells(old(c.w), c.w, key.ns)
      ensures c.faults == old(c.faults) && c.outside == old(c.outside) ==>
                && (!stop <==> Serviceable(old(c.w), key.ns, inventory.it.credentialsRef))
                && (stop ==> Ended(out, NotServedEnds(old(c.w), inventory.it.credentialsRef)))
                && (Installable(old(c.w), inventory.it.credentialsRef) ==> Progressed(old(c.w), c.w, key.ns))
      ensures NoClaimBut(old(c.w), c.w, key, inventory.it.conditions)
      ensures Served(old(c.w), key) && old(c.w).inventories[key] == inventory && c.outside == old(c.outside) ==>
                c.writes == old(c.writes) && c.w == old(c.w) && (c.faults == old(c.faults) ==> !stop)
    {
      hide Served, Handed, FillsIn, Copied, Keeps, Rely, Ack.Installed, Ack.Complete, Ack.Ready, Unsuccessful;
      hide OnlyFills, Tells, OnlyFootprint, Installable, Adoption.Covered, SomeWaits;
      hide Current, HasFinalizer, Kept, NoClaimBut, Serviceable, Progressed;
      ghost var begin, cs := c.w, inventory.it.conditions;
      if Served(c.w, key) { ServedMeans(c.w, key); }
      stop := ValidateAndInstall();
      if c.outside == old(c.outside) { ServiceableSame(begin, c.w, key.ns, inventory.it.credentialsRef); }
      if stop { return; }
      ghost var installed := c.w;
      CopiedIsCommittable(installed, key, inventory);
      stop := AdoptInstances();
      if c.faults == old(c.faults)
        && c.outside == old(c.outside) { ProgressedAfterInstall(begin, installed, c.w, key.ns); }
      KeepsNoClaim(installed, c.w, key, ADOPTION, cs);
      NoClaimOn(begin, installed, c.w, key, cs);
      if stop { return; }
      StaysCopied(installed, c.w, key, inventory, ADOPTION);
      if c.outside == old(c.outside) { Prepared(begin, installed, c.w, key, inventory, credentials); }
    }

    /** The rest of the pass, for a live inventory with its finalizer. */
    method Serve()
      requires c.Valid() && Copied(c.w, key, inventory) && inventory.it.finalizer && !inventory.it.deleting
      requires out == UNDECIDED
      modifies this`inventory, this`credentials, this`out, c
      ensures c.Valid()
      ensures c.outside >= old(c.outside) && c.faults >= old(c.faults)
              && Committable(inventory.it.conditions, InventoryReady())
      ensures Unsuccessful(out) || out == SETTLED
      ensures c.faults > old(c.faults) ==> Interrupted(out)
      ensures out == SETTLED && c.outside == old(c.outside) ==>
                && Served(c.w, key) && Listing.Describes(inventory.it.instances, c.w, key.ns)
                && inventory == c.w.inventories[key]
                && OnlyFills(old(c.w), c.w) && Tells(old(c.w), c.w, key.ns)
      ensures c.faults == old(c.faults) && c.outside == old(c.outside) ==>
                && (out == SETTLED <==> Serviceable(old(c.w), key.ns, old(inventory).it.credentialsRef))
                && Ended(out, Ending(old(c.w), key, old(inventory).it))
                && (Installable(old(c.w), old(inventory).it.credentialsRef) ==> Progressed(old(c.w), c.w, key.ns))
      ensures NoClaimBut(old(c.w), c.w, key, old(inventory).it.conditions)
      ensures Served(old(c.w), key) && old(c.w).inventories[key] == old(inventory)
              && c.outside == old(c.outside) && c.faults == old(c.faults) ==>
                && out == SETTLED && c.writes == old(c.writes) && OnlyInventory(old(c.w), c.w, key)
                && inventory.it == old(inventory).it.(instances := inventory.it.instances)
                && (inventory.it == old(inventory).it ==> c.w == old(c.w))
    {
      hide Served, Copied, Listing.Describes, OnlyFills, Tells, Serviceable, Progressed, Installable;
      ghost var begin, ref := c.w, inventory.it.credentialsRef;
      CopiedIsCommittable(c.w, key, inventory);
      var stop := Prepare();
      if stop { return; }
      ghost var prepared := c.w;
      CopiedIsCommittable(prepared, key, inventory);
      stop := Sync();
      if stop { return; }
      if c.outside == old(c.outside) {
        StatusKeepsServed(prepared, c.w, key);
        FilledThenWritten(begin, prepared, c.w, key);
        if Progressed(begin, prepared, key.ns) { ProgressedThenWritten(begin, prepared, c.w, key); }
      }
      out := ReturnReady(out, SyncOK);
    }

    /** The pass over a live inventory, with the write it defers. */
    method RunLive()
      requires c.Valid() && Copied(c.w, key, inventory) && inventory.it.finalizer && !inventory.it.deleting
      requires out == UNDECIDED
      modifies this`inventory, this`credentials, this`out, c
      ensures c.Valid() && c.outside >= old(c.outside) && c.faults >= old(c.faults) && out.judged.Some?
      ensures c.faults > old(c.faults) ==> out.requeue || out.err.Some?
      ensures out.judged.value.verdict == Yes && c.faults == old(c.faults) && c.outside == old(c.outside) ==>
                && out == SETTLED && Settled(c.w, key)
                && OnlyFills(old(c.w), c.w) && Tells(old(c.w), c.w, key.ns)
      ensures c.faults == old(c.faults) && c.outside == old(c.outside) ==>
                && (out == SETTLED <==> Serviceable(old(c.w), key.ns, old(inventory).it.credentialsRef))
                && Ended(out, Ending(old(c.w), key, old(inventory).it))
                && (Installable(old(c.w), old(inventory).it.credentialsRef) ==> Progressed(old(c.w), c.w, key.ns))
                && (InventoryClaims(c.w, key) <==> out.judged.value.verdict == Yes)
                && key in c.w.inventories
                && Reads(c.w.inventories[key].it.conditions, InventoryReady(), out.judged.value)
      ensures NoClaimBut(old(c.w), c.w, key, old(inventory).it.conditions) || out.judged.value.verdict == Yes
      ensures Settled(old(c.w), key) && old(c.w).inventories[key] == old(inventory)
              && c.faults == old(c.faults) && c.outside == old(c.outside) ==>
                && out == SETTLED && c.writes == old(c.writes) && OnlyInventory(old(c.w), c.w, key)
                && Settled(c.w, key) && SameUpToOrder(old(inventory).it, c.w.inventories[key].it)
                && (c.w.inventories[key].it.instances == old(inventory).it.instances ==> c.w == old(c.w))
    {
      hide Cluster.Valid;
      hide Served, Copied, Settled, Listing.Describes, SameUpToOrder, OnlyFills, Tells, Serviceable, Progressed,
        Installable, Reads, Interrupted, OnlyInventory;
      ghost var begin, o := c.w, inventory;
      if Settled(begin, key) { SettledMeans(begin, key); }
      Serve();
      ghost var decided, local, verdict := c.w, inventory, out;
      if c.faults > old(c.faults) { InterruptedIsRetried(out); }
      Commit();
      if c.faults == old(c.faults) && c.outside == old(c.outside) && Progressed(begin, decided, key.ns) {
        ProgressedThenWritten(begin, decided, c.w, key);
      }
      if verdict == SETTLED && c.faults == old(c.faults) && c.outside == old(c.outside) {
        var now: int :| c.w.inventories[key].it ==
          InventoryStatusOf(decided.inventories[key].it, WithVerdict(local.it, verdict, now));
        SettledInTheEnd(begin, decided, c.w, key, now);
        if Settled(begin, key) && begin.inventories[key] == o { CommitAgain(begin, decided, c.w, key, o, now); }
      }
    }

    /** The pass after the first read. */
    method Run()
      requires c.Valid() && Copied(c.w, key, inventory) && out == UNDECIDED
      modifies this`inventory, this`credentials, this`out, c
      ensures c.Valid() && c.outside >= old(c.outside) && c.faults >= old(c.faults) && out.judged.Some?
      ensures c.faults > old(c.faults) ==> out.requeue || out.err.Some?
      ensures c.faults == old(c.faults) && old(inventory).it.deleting && old(inventory).it.finalizer ==>
                TornDown(old(c.w), c.w, key, out.err)
      ensures c.faults == old(c.faults) && !old(inventory).it.deleting && !old(inventory).it.finalizer ==>
                out.err.None? && HasFinalizer(c.w, key)
      ensures out.judged.value.verdict == Yes && c.faults == old(c.faults) && c.outside == old(c.outside) ==>
                && out == SETTLED && Settled(c.w, key)
                && OnlyFills(old(c.w), c.w) && Tells(old(c.w), c.w, key.ns)
      ensures c.faults == old(c.faults) && c.outside == old(c.outside) ==>
                && (out.judged.value.verdict == Yes <==> Succeeds(old(c.w), key, old(inventory).it))
                && Ended(out, Ending(old(c.w), key, old(inventory).it))
                && (Progresses(old(c.w), old(inventory).it) ==> Progressed(old(c.w), c.w, key.ns))
                && (InventoryClaims(c.w, key) <==> out.judged.value.verdict == Yes)
                && key in c.w.inventories
                && Reads(c.w.inventories[key].it.conditions, InventoryReady(), out.judged.value)
      ensures NoClaimBut(old(c.w), c.w, key, old(inventory).it.conditions) || out.judged.value.verdict == Yes
      ensures Settled(old(c.w), key) && old(c.w).inventories[key] == old(inventory)
              && c.faults == old(c.faults) && c.outside == old(c.outside) ==>
                && out == SETTLED && c.writes == old(c.writes) && OnlyInventory(old(c.w), c.w, key)
                && Settled(c.w, key) && SameUpToOrder(old(inventory).it, c.w.inventories[key].it)
                && (c.w.inventories[key].it.instances == old(inventory).it.instances ==> c.w == old(c.w))
    {
      hide Served, Copied, Settled, TornDown, SameUpToOrder, OnlyFills, Tells, Serviceable, Progressed, Installable,
        Reads, Interrupted;
      ghost var begin, o := c.w, inventory;
      if Settled(begin, key) { SettledMeans(begin, key); }
      var stop := CheckFinalizer();
      if stop {
        ghost var decided, met := c.w, out.err;
        if c.faults > old(c.faults) { InterruptedIsRetried(out); }
        Commit();
        if o.it.deleting && o.it.finalizer
          && c.faults == old(c.faults) { TornThenCommit(begin, decided, c.w, key, met); }
      } else {
        RunLive();
      }
    }
  }

  lemma SettledMeans(w: World, key: Key)
    requires Settled(w, key)
    ensures key in w.inventories && !w.inventories[key].it.deleting && w.inventories[key].it.finalizer && Served(w, key)
  {
  }

  /** A pass that ended well, with its verdict committed. */
  lemma SettledInTheEnd(begin: World, decided: World, w: World, key: Key, now: int)
    requires Served(decided, key) && Committable(decided.inventories[key].it.conditions, InventoryReady())
    requires Listing.Describes(decided.inventories[key].it.instances, decided, key.ns)
    requires OnlyFills(begin, decided) && Tells(begin, decided, key.ns) && OnlyInventory(decided, w, key)
    requires w.inventories[key].it ==
             InventoryStatusOf(decided.inventories[key].it, WithVerdict(decided.inventories[key].it, SETTLED, now))
    ensures Settled(w, key) && OnlyFills(begin, w) && Tells(begin, w, key.ns)
  {
    hide Settled, Listing.Describes, OnlyFills, Tells;
    SettledAfterCommit(decided, w, key, now);
    FilledThenWritten(begin, decided, w, key);
  }

  /** Committing over a settled inventory changes nothing. */
  lemma CommitAgain(w: World, decided: World, w': World, key: Key, o: Obj<Inventory>, now: int)
    requires Settled(w, key) && w.inventories[key] == o && OnlyInventory(w, decided, key)
    requires decided.inventories[key].it == o.it.(instances := decided.inventories[key].it.instances)
    requires Listing.Describes(decided.inventories[key].it.instances, decided, key.ns)
    requires decided.inventories[key].it == o.it ==> decided == w
    requires OnlyInventory(decided, w', key)
    requires w'.inventories[key].it ==
             InventoryStatusOf(decided.inventories[key].it, WithVerdict(decided.inventories[key].it, SETTLED, now))
    requires w'.inventories[key].it == decided.inventories[key].it ==> w' == decided
    ensures w' == decided && Settled(w', key) && SameUpToOrder(o.it, w'.inventories[key].it)
    ensures w'.inventories[key].it.instances == o.it.instances ==> w' == w
  {
    CommittedAgain(decided.inventories[key].it.conditions, now);
    assert WithVerdict(decided.inventories[key].it, SETTLED, now) == decided.inventories[key].it;
    SettledStays(w, w', key, decided.inventories[key].it.instances);
  }

  lemma TornThenCommit(w: World, w': World, w'': World, key: Key, e: Option<Error>)
    requires TornDown(w, w', key, e) && Keeps(InventoryWorker, {Finalizers, Claims}, w', w'')
    requires HasFinalizer(w'', key) <==> HasFinalizer(w', key)
    ensures TornDown(w, w'', key, e)
  {
    hide Teardown.TeardownPass;
    if e.None? { PassThenCommit(w, w', w'', key); }
  }

  lemma PassThenCommit(w: World, w': World, w'': World, key: Key)
    requires Teardown.TeardownPass(w, w', key) && Keeps(InventoryWorker, {Finalizers, Claims}, w', w'')
    requires HasFinalizer(w'', key) <==> HasFinalizer(w', key)
    ensures Teardown.TeardownPass(w, w'', key)
  {
    hide Teardown.OwnedBy, Teardown.Unmarked, OwnedShrink;
    assert Kept(Owned, InventoryWorker, w', w'');
    Teardown.OwnedOnlyShrinks(w', w'', key);
    assert Kept(Footprint, InventoryWorker, w', w'');
  }

  /** Reconcile. The ghost results tell what the pass decided and the moment at which
      it had read the inventory. */
  method Reconcile(c: Cluster, key: Key)
    returns (requeue: bool, err: Option<Error>, ghost judged: Option<Judgment>, ghost read: World)
    requires c.Valid()
    modifies c
    ensures c.Valid() && c.outside >= old(c.outside) && c.faults >= old(c.faults)
    ensures judged.None? ==> c.writes == old(c.writes) && (key !in old(c.w).inventories || c.faults > old(c.faults))
    // a pass in which a call failed is tried again; for an inventory that is gone there is nothing to do
    ensures c.faults > old(c.faults) ==> requeue || err.Some?
    ensures c.faults == old(c.faults) && key !in old(c.w).inventories ==> !requeue && err.None? && judged.None?
    // a pass over a deleted inventory in which no call fails is a teardown pass
    ensures Teardown.Dying(old(c.w), key) && c.faults == old(c.faults) ==>
              Rely(InventoryWorker, old(c.w), read) && Teardown.Dying(read, key) && TornDown(read, c.w, key, err)
    // and one over a live inventory without the finalizer takes it
    ensures c.faults == old(c.faults) && key in old(c.w).inventories
            && !old(c.w).inventories[key].it.deleting && !old(c.w).inventories[key].it.finalizer ==>
              err.None? && HasFinalizer(c.w, key)
    // it ends well exactly when nothing is missing, and then says so
    ensures c.faults == old(c.faults) && c.outside == old(c.outside) && key in old(c.w).inventories ==>
              && judged.Some?
              && (judged.value.verdict == Yes <==> Succeeds(old(c.w), key, old(c.w).inventories[key].it))
              && EndsAs(requeue, err, judged, Ending(old(c.w), key, old(c.w).inventories[key].it))
              && (Progresses(old(c.w), old(c.w).inventories[key].it) ==> Progressed(old(c.w), c.w, key.ns))
              && (InventoryClaims(c.w, key) <==> judged.value.verdict == Yes)
              && key in c.w.inventories
              && Reads(c.w.inventories[key].it.conditions, InventoryReady(), judged.value)
    ensures InventoryClaims(c.w, key) ==>
            InventoryClaims(old(c.w), key) || (judged.Some? && judged.value.verdict == Yes)
    // a pass that ends well and undisturbed leaves the inventory settled
    ensures judged.Some? && judged.value.verdict == Yes && c.faults == old(c.faults) && c.outside == old(c.outside) ==>
              && Settled(c.w, key) && !requeue && err.None?
              && OnlyFills(old(c.w), c.w) && Tells(old(c.w), c.w, key.ns)
    // and the next one has nothing to do
    ensures Settled(old(c.w), key) && c.faults == old(c.faults) && c.outside == old(c.outside) ==>
              && judged == SETTLED.judged && !requeue && err.None? && c.writes == old(c.writes)
              && Settled(c.w, key) && OnlyInventory(old(c.w), c.w, key)
              && SameUpToOrder(old(c.w).inventories[key].it, c.w.inventories[key].it)
              && (c.w.inventories[key].it.instances == old(c.w).inventories[key].it.instances ==> c.w == old(c.w))
  {
    hide Settled, Copied, TornDown, SameUpToOrder, OnlyInventory, OnlyFills, Tells, Succeeds, Progresses, Progressed;
    hide Reads, Ending;
    requeue, err, judged := false, None, None;
    ghost var begin := c.w;
    c.Have(Versioning);
    c.Have(Verdicts);
    if Settled(begin, key) { SettledMeans(begin, key); }
    var inventory := c.GetInventory(InventoryWorker, key);
    read := c.w;
    KeepsNoClaim(begin, read, key, {}, []);
    if inventory == Err(NotFound) { return; }
    if inventory.Err? {
      err := Some(inventory.error);
      return;
    }
    CopiedOnRead(begin, key);
    StaysCopied(begin, read, key, inventory.value, {});
    var p := new InventoryPass(c, key, inventory.value);
    p.Run();
    requeue, err, judged := p.out.requeue, p.out.err, p.out.judged;
  }
}
