/** The RDSInstance controller: one call of Reconcile. */
module InstanceController {
  import opened Wrappers
  import opened Store
  import opened Conditions
  import opened World
  import opened Protocol
  import opened Runs
  import opened Interference
  import opened Outcomes
  import opened Api
  import opened Database
  import Mirror
  import Provision
  import Status

  /** The pass holds a copy that was stored when it was read. */
  ghost predicate Copied(w: World, x: Key, o: Obj<Instance>) {
    && Faithful(w.instances, x, o, w.clock)
    && Committable(o.it.status.conditions, InstanceReady())
    && (o.it.finalizer ==> Provision.Holding(w, x, o.it) && (o.it.deleting ==> w.instances[x].it.deleting))
  }

  lemma CopiedOnRead(w: World, x: Key)
    requires Versions(w) && Statuses(w) && x in w.instances
    ensures Copied(w, x, w.instances[x])
  {
  }

  lemma StaysCopied(w: World, w': World, x: Key, o: Obj<Instance>, except: set<Concern>)
    requires Copied(w, x, o) && Keeps(InstanceWorker(x), except, w, w')
    requires Clock !in except && InstanceOrder !in except && Instances !in except
    ensures Copied(w', x, o)
  {
    assert Kept(InstanceOrder, InstanceWorker(x), w, w') && Kept(Clock, InstanceWorker(x), w, w');
    StaysFaithful(w.instances, w'.instances, x, o, w.clock, w'.clock);
    assert Kept(Instances, InstanceWorker(x), w, w');
  }

  lemma CopiedMeans(w: World, x: Key, o: Obj<Instance>)
    requires Copied(w, x, o)
    ensures Committable(o.it.status.conditions, InstanceReady())
    ensures o.it.finalizer ==> Provision.Holding(w, x, o.it)
  {
  }

  lemma MayAddFinalizer(w: World, x: Key, o: Obj<Instance>)
    requires Copied(w, x, o) && !o.it.deleting && Current(w.instances, x, o)
    ensures Allowed(w, InstanceWorker(x), InstanceTo(x, Some(o.it.(finalizer := true))))
  {
  }

  /** x is being deleted and no DBInstance is annotated with it. */
  ghost predicate Gone(w: World, x: Key) {
    && HoldsInstance(w, x) && w.instances[x].it.deleting
    && forall d <- w.dbs :: ProvisionedBy(w.dbs[d].it) != Some(x)
  }

  /** Not finding the DBInstance where x provisions means that there is none. */
  lemma GoneWhenNotFound(w: World, w': World, x: Key, o: Obj<Instance>)
    requires NoOrphans(w) && Copied(w, x, o) && o.it.finalizer && o.it.deleting
    requires DatabaseKey(x, o.it) !in w.dbs && Rely(InstanceWorker(x), w, w')
    ensures Gone(w', x)
  {
    forall d <- w.dbs ensures ProvisionedBy(w.dbs[d].it) != Some(x) {
    }
    assert Kept(Provisions, InstanceWorker(x), w, w');
    assert Kept(Instances, InstanceWorker(x), w, w');
  }

  lemma MayRemoveFinalizer(w: World, x: Key, o: Obj<Instance>)
    requires Copied(w, x, o) && Gone(w, x) && Current(w.instances, x, o)
    ensures Allowed(w, InstanceWorker(x), InstanceTo(x, Some(o.it.(finalizer := false))))
  {
  }

  lemma MayDelete(w: World, x: Key, o: Obj<Instance>)
    requires Copied(w, x, o) && o.it.finalizer && o.it.deleting && DatabaseKey(x, o.it) in w.dbs
    ensures Allowed(w, InstanceWorker(x),
            DatabaseTo(DatabaseKey(x, o.it), Some(w.dbs[DatabaseKey(x, o.it)].it.(deleting := true))))
  {
  }

  lemma MayCommit(w: World, x: Key, o: Instance)
    requires x in w.instances && Committable(o.status.conditions, InstanceReady())
    ensures Allowed(w, InstanceWorker(x), InstanceTo(x, Some(InstanceStatusOf(w.instances[x].it, o))))
  {
  }

  lemma FinalizerWritten(w: World, x: Key, o: Instance, hit: World, w': World)
    requires After(w, InstanceTo(x, Some(o)), hit) && Rely(InstanceWorker(x), hit, w')
    ensures HoldsInstance(w', x) <==> o.finalizer
  {
    assert PartAfter(TheKinds, w, InstanceTo(x, Some(o)), hit);
    assert Kept(Instances, InstanceWorker(x), hit, w');
  }

  /** The final switch of Reconcile: what the phase in the status makes of the pass. */
  function Decide(before: Outcome, phase: Phase): Outcome {
    match phase
    case PhaseReady => ReturnReady(before, Why.Ready)
    case PhaseFailed => ReturnNotReady(Terminated, OfPhase(phase))
    case PhaseDeleted => ReturnNotReady(Terminated, OfPhase(phase))
    case PhasePending => ReturnUpdating(UpdatingInstance)
    case PhaseCreating => ReturnUpdating(UpdatingInstance)
    case PhaseUpdating => ReturnUpdating(UpdatingInstance)
    case PhaseDeleting => ReturnUpdating(UpdatingInstance)
    case PhaseError => ReturnRequeue(BackendError, Says(InstanceWithError))
    case PhaseUnknown => ReturnRequeue(BackendError, Says(InstanceWithError))
    case NoPhase => before
  }

  /** How a pass ends over a DBInstance in this state: well when it is available, for
      good when it has failed, not known yet while AWS is at work on it, and otherwise
      with an error that may pass. */
  ghost function EndOn(state: Option<string>): End {
    if state == Some("available") then End(false, false, Yes, Why.Ready)
    else if state == Some("failed") then End(false, false, No, Terminated)
    else if state.Some? && (state.value == "creating" || state.value == "deleting" || Mirror.AtWork(state.value))
    then End(true, false, Unsure, Why.Updating)
    else End(true, false, No, BackendError)
  }

  /** The switch decides so on the phase that stems from a state. */
  lemma DecidesOnState(before: Outcome, state: Option<string>)
    requires before == UNDECIDED
    ensures Ended(Decide(before, Mirror.PhaseOf(state)), EndOn(state))
    ensures state == Some("available") ==> Decide(before, Mirror.PhaseOf(state)) == ReturnReady(before, Why.Ready)
  {
    hide Mirror.PhaseOf, Mirror.AtWork, Mirror.Broken;
    Mirror.PhaseIsHandled(state);
  }

  lemma DecidedOnState(o: Outcome, state: Option<string>)
    requires Ended(o, EndOn(state))
    ensures o.judged.Some? && (o.judged.value.verdict == Yes <==> state == Some("available"))
  {
  }

  /** What becomes of a pass over a live instance with its finalizer. */
  ghost predicate ProceedEnds(w: World, x: Key, o: Instance, out: Outcome, status: InstanceStatus, phase: Phase) {
    if !Acceptable(o.params) then
      phase == NoPhase && status == o.status && Ended(out, End(false, true, No, BackendError))
    else if DatabaseKey(x, o) !in w.dbs then phase == PhaseCreating && Ended(out, End(true, false, No, Creating))
    else
      var d := w.dbs[DatabaseKey(x, o)].it;
      && status.phase == Mirror.PhaseOf(d.State()) && Ended(out, EndOn(d.State()))
      && phase == if Provision.Wanted(x, o, d) != Ok(d) then PhaseUpdating else NoPhase
  }

  lemma StopsShort(w: World, x: Key, o: Instance, out: Outcome, status: InstanceStatus, phase: Phase)
    requires !Acceptable(o.params) ==>
               phase == NoPhase && status == o.status && Ended(out, End(false, true, No, BackendError))
    requires Acceptable(o.params) ==>
               DatabaseKey(x, o) !in w.dbs && phase == PhaseCreating && Ended(out, End(true, false, No, Creating))
    ensures ProceedEnds(w, x, o, out, status, phase)
  {
    hide Acceptable;
  }

  lemma GoesThrough(w: World, x: Key, o: Instance, out: Outcome, status: InstanceStatus, phase: Phase, d: DBInstance)
    requires Acceptable(o.params) && DatabaseKey(x, o) in w.dbs && w.dbs[DatabaseKey(x, o)].it.State() == d.State()
    requires status.phase == Mirror.PhaseOf(d.State()) && Ended(out, EndOn(d.State()))
    requires phase == if Provision.Wanted(x, o, w.dbs[DatabaseKey(x, o)].it) != Ok(w.dbs[DatabaseKey(x, o)].it)
                      then PhaseUpdating else NoPhase
    ensures ProceedEnds(w, x, o, out, status, phase)
  {
    hide Acceptable, Mirror.PhaseOf, EndOn, Provision.Wanted;
  }

  /** How a pass over x, read as o, ends without a failed call or interference. */
  ghost function Ending(w: World, x: Key, o: Instance): End {
    if o.inventoryRef !in w.inventories then End(false, true, No, Absent)
    else if !SaysTrue(w.inventories[o.inventoryRef].it.conditions, InventoryReady())
    then End(true, false, No, Unreachable)
    else if !o.deleting && !o.finalizer then End(false, false, No, Why.Updating)
    else if o.deleting && !o.finalizer then End(false, false, No, Deleting)
    else if o.deleting then
      if Key(o.inventoryRef.ns, x.name) in w.dbs then End(true, false, Unsure, Why.Updating)
      else End(false, false, No, Why.Updating)
    else if !Acceptable(o.params) then End(false, true, No, BackendError)
    else if Key(o.inventoryRef.ns, x.name) !in w.dbs then End(true, false, No, Creating)
    else EndOn(w.dbs[Key(o.inventoryRef.ns, x.name)].it.State())
  }

  lemma ProvisionsAt(x: Key, o: Instance)
    ensures DatabaseKey(x, o) == Key(o.inventoryRef.ns, x.name)
  {
  }

  /** And in which phase it leaves x. */
  ghost function EndingPhase(w: World, x: Key, o: Instance): Phase {
    if o.inventoryRef !in w.inventories
       || !SaysTrue(w.inventories[o.inventoryRef].it.conditions, InventoryReady())
       || (o.deleting && !o.finalizer) then o.status.phase
    else if !o.finalizer then PhasePending
    else if o.deleting then if Key(o.inventoryRef.ns, x.name) in w.dbs then PhaseDeleting else PhaseDeleted
    else if !Acceptable(o.params) then o.status.phase
    else if Key(o.inventoryRef.ns, x.name) !in w.dbs then PhaseCreating
    else
      var d := w.dbs[Key(o.inventoryRef.ns, x.name)].it;
      if Provision.Wanted(x, o, d) != Ok(d) then PhaseUpdating else Mirror.PhaseOf(d.State())
  }

  lemma StatusWritten(w: World, x: Key, o: Instance, hit: World)
    requires x in w.instances
    requires var it := InstanceStatusOf(w.instances[x].it, o);
             if it == w.instances[x].it then hit == w else After(w, InstanceTo(x, Some(it)), hit)
    ensures x in hit.instances && hit.instances[x].it.status == o.status
    ensures hit.dbs == w.dbs && hit.secrets == w.secrets
  {
    var it := InstanceStatusOf(w.instances[x].it, o);
    var c := InstanceTo(x, Some(it));
    if it != w.instances[x].it {
      assert PartAfter(TheKinds, w, c, hit) && PartAfter(TheDatabases, w, c, hit) && PartAfter(TheSecrets, w, c, hit);
    }
  }

  ghost predicate Marked(w: World, k: Key) {
    k in w.dbs && w.dbs[k].it.deleting
  }

  lemma MarkedAfter(w: World, k: Key, hit: World)
    requires k in w.dbs && After(w, DatabaseTo(k, Some(w.dbs[k].it.(deleting := true))), hit)
    ensures Marked(hit, k)
  {
    assert PartAfter(TheDatabases, w, DatabaseTo(k, Some(w.dbs[k].it.(deleting := true))), hit);
  }

  lemma StaysDone(w: World, w': World, x: Key, o: Instance)
    requires w'.dbs == w.dbs && w'.secrets == w.secrets && Provision.Done(w, x, o)
    ensures Provision.Done(w', x, o)
  {
  }

  /** The status a pass commits in the end: its verdict as the ready condition, and
      the overriding phase if there is one. */
  function Final(status: InstanceStatus, o: Outcome, phase: Phase, now: int): InstanceStatus {
    status.(conditions := SetStatusCondition(status.conditions, ConditionOf(InstanceReady(), o), now),
            phase := if phase == NoPhase then status.phase else phase)
  }

  lemma FinalIsCommittable(status: InstanceStatus, o: Outcome, phase: Phase, now: int)
    requires Committable(status.conditions, InstanceReady()) && o.judged.Some?
    ensures Committable(Final(status, o, phase, now).conditions, InstanceReady())
  {
    CommitKeepsCommittable(status.conditions, o, now, InstanceReady());
  }

  /** What a failure of CreateOrUpdate makes of an undecided pass: one in the
      mutation is first an input error and then, with its message kept behind,
      the backend error that every failure is. */
  function Reported(f: Provision.Failure): Outcome {
    match f
    case Mutation(e) =>
      ReturnErrorAfter(ReturnError(e, InputError, OfError(e)), e, BackendError, DatabaseCreateOrUpdateFailed)
    case Calling(e) => ReturnErrorAfter(UNDECIDED, e, BackendError, DatabaseCreateOrUpdateFailed)
  }

  lemma ReportedIsBackendError(f: Provision.Failure)
    ensures Interrupted(Reported(f)) && Unsuccessful(Reported(f))
    ensures Ended(Reported(f), End(false, true, No, BackendError))
    ensures Reported(f).err == Some(f.error)
    ensures f.Mutation? ==> Reported(f).message == Before(DatabaseCreateOrUpdateFailed, OfError(f.error))
  {
  }

  /** A live instance whose parameters are missing or do not parse. */
  ghost predicate Unprovisionable(o: Instance) {
    o.finalizer && !o.deleting && !Acceptable(o.params)
  }

  /** The instance says it is ready only if it said so before or `cs` does. */
  ghost predicate NoClaimBut(w: World, w': World, x: Key, cs: seq<Condition>) {
    InstanceClaims(w', x) ==> InstanceClaims(w, x) || SaysTrue(cs, InstanceReady())
  }

  lemma KeepsNoClaim(w: World, w': World, x: Key, except: set<Concern>, cs: seq<Condition>)
    requires Keeps(InstanceWorker(x), except, w, w') && Claims !in except
    ensures NoClaimBut(w, w', x, cs)
  {
    assert Kept(Claims, InstanceWorker(x), w, w');
  }

  lemma WrittenNoClaim(w: World, x: Key, it: Instance, hit: World, w': World)
    requires hit == w || After(w, InstanceTo(x, Some(it)), hit)
    requires Rely(InstanceWorker(x), hit, w')
    ensures NoClaimBut(w, w', x, it.status.conditions)
    ensures hit.dbs == w.dbs && hit.secrets == w.secrets
  {
    assert Kept(Claims, InstanceWorker(x), hit, w');
    var c := InstanceTo(x, Some(it));
    if hit != w {
      assert PartAfter(TheKinds, w, c, hit) && PartAfter(TheDatabases, w, c, hit) && PartAfter(TheSecrets, w, c, hit);
    }
  }

  /** Mirroring ACK's conditions leaves the ready condition alone. */
  lemma MirrorKeepsVerdict(cs: seq<Condition>, acks: seq<AckCondition>, cs': seq<Condition>)
    requires Mirror.AllMirrored(cs, acks, cs')
    ensures SaysTrue(cs', InstanceReady()) <==> SaysTrue(cs, InstanceReady())
  {
    hide Mirror.Shows;
    assert Mirror.Mirrored(cs, acks, cs', InstanceReady());
  }

  /** A quiet pass over x, without a failed call, ends well. */
  ghost predicate Succeeds(w: World, x: Key, o: Instance) {
    && o.inventoryRef in w.inventories && SaysTrue(w.inventories[o.inventoryRef].it.conditions, InventoryReady())
    && o.finalizer && !o.deleting && Fetchable(w, x, o)
  }

  /** What x asks for is acceptable, and its DBInstance is there and available. */
  ghost predicate Fetchable(w: World, x: Key, o: Instance) {
    Acceptable(o.params) && DatabaseKey(x, o) in w.dbs && w.dbs[DatabaseKey(x, o)].it.State() == Some("available")
  }

  /** What the pass since the run q looked at: CreateOrUpdate found the DBInstance of x
      at one moment, and reported an update exactly when that was not as wanted; at a
      later one it was fetched, available. */
  ghost predicate Witnessed(q: Run, r: Run, x: Key, o: Instance, foundAt: Moment, fetchedAt: Moment, updated: bool) {
    && Past(q, foundAt, r) && Past(foundAt.run, fetchedAt, r)
    && DatabaseKey(x, o) in foundAt.w.dbs && DatabaseKey(x, o) in fetchedAt.w.dbs
    && (updated <==> var d := foundAt.w.dbs[DatabaseKey(x, o)].it; Provision.Wanted(x, o, d) != Ok(d))
    && Fetched(fetchedAt, x, o).State() == Some("available")
  }

  ghost function Fetched(at: Moment, x: Key, o: Instance): DBInstance
    requires DatabaseKey(x, o) in at.w.dbs
  {
    at.w.dbs[DatabaseKey(x, o)].it
  }

  lemma WitnessedOn(q: Run, r: Run, s: Run, x: Key, o: Instance, foundAt: Moment, fetchedAt: Moment, updated: bool)
    requires Witnessed(q, r, x, o, foundAt, fetchedAt, updated) && Follows(r, s)
    ensures Witnessed(q, s, x, o, foundAt, fetchedAt, updated)
  {
    PastUntil(q, foundAt, r, s);
    PastUntil(foundAt.run, fetchedAt, r, s);
  }

  lemma WitnessedFrom(p: Run, q: Run, r: Run, x: Key, o: Instance, foundAt: Moment, fetchedAt: Moment, updated: bool)
    requires Witnessed(q, r, x, o, foundAt, fetchedAt, updated) && Follows(p, q)
    ensures Witnessed(p, r, x, o, foundAt, fetchedAt, updated)
  {
    PastFrom(p, q, foundAt, r);
  }

  /** What was fetched is what is there, and as x wants it. */
  ghost predicate Delivered(w: World, x: Key, o: Instance, fetchedAt: Moment) {
    && Provision.Done(w, x, o) && DatabaseKey(x, o) in fetchedAt.w.dbs && DatabaseKey(x, o) in w.dbs
    && Fetched(fetchedAt, x, o) == w.dbs[DatabaseKey(x, o)].it
  }

  lemma StaysDelivered(w: World, w': World, x: Key, o: Instance, fetchedAt: Moment)
    requires w'.dbs == w.dbs && w'.secrets == w.secrets && Delivered(w, x, o, fetchedAt)
    ensures Delivered(w', x, o, fetchedAt)
  {
    StaysDone(w, w', x, o);
  }

  /** Wanting something of a DBInstance does not change what state it is in. */
  lemma WantedSameState(w: World, x: Key, o: Instance, d: DBInstance)
    requires Provision.IsWanted(w, x, o, d)
    ensures DatabaseKey(x, o) in w.dbs && w.dbs[DatabaseKey(x, o)].it.State() == d.State()
  {
  }

  lemma StatusNoClaim(w: World, x: Key, o: Instance, hit: World, w': World)
    requires hit == w || (x in w.instances
             && After(w, InstanceTo(x, Some(InstanceStatusOf(w.instances[x].it, o))), hit))
    requires Rely(InstanceWorker(x), hit, w')
    ensures NoClaimBut(w, w', x, o.status.conditions)
    ensures hit.dbs == w.dbs && hit.secrets == w.secrets
  {
    if hit == w {
      KeepsNoClaim(w, w', x, {}, o.status.conditions);
    } else {
      WrittenNoClaim(w, x, InstanceStatusOf(w.instances[x].it, o), hit, w');
    }
  }

  lemma NothingSaysTrue(ready: string)
    ensures !SaysTrue([], ready)
  {
  }

  lemma ClaimsMeans(w: World, x: Key)
    requires x in w.instances
    ensures InstanceClaims(w, x) <==> SaysTrue(w.instances[x].it.status.conditions, InstanceReady())
  {
  }

  /** The status committed in the end says what the verdict says. */
  lemma FinalVerdict(status: InstanceStatus, o: Outcome, phase: Phase, now: int)
    requires Committable(status.conditions, InstanceReady()) && o.judged.Some?
    ensures var final := Final(status, o, phase, now);
      && Reads(final.conditions, InstanceReady(), o.judged.value)
      && (SaysTrue(final.conditions, InstanceReady()) <==> o.judged.value.verdict == Yes)
      && final.phase == (if phase == NoPhase then status.phase else phase)
      && final.instanceID == status.instanceID && final.info == status.info
  {
    hide Reads;
    CommitReads(status.conditions, o, now, InstanceReady());
    CommitSays(status.conditions, o, now, InstanceReady());
  }

  /** One pass over the RDSInstance x: the variables its closures share. */
  class InstancePass {
    const c: Cluster
    const x: Key
    var instance: Obj<Instance>
    var out: Outcome
    // The phase that overrides the one in the status, or none.
    var phase: Phase
    // When CreateOrUpdate found the DBInstance, whether it reported an update, and
    // when the DBInstance was fetched.
    ghost var foundAt: Moment
    ghost var updated: bool
    ghost var fetchedAt: Moment

    constructor (c: Cluster, x: Key, read: Obj<Instance>)
      ensures this.c == c && this.x == x && instance == read && out == UNDECIDED && phase == NoPhase
      ensures !updated
    {
      this.c, this.x, instance, out, phase, updated := c, x, read, UNDECIDED, NoPhase, false;
      foundAt, fetchedAt := Moment(c.run, c.w), Moment(c.run, c.w);
    }

    // ------------------------------------------------------ checkFinalizer

    method AddFinalizer()
      requires c.Valid() && Copied(c.w, x, instance) && !instance.it.deleting
      modifies this`instance, this`out, this`phase, c
      ensures c.Valid() && Committable(instance.it.status.conditions, InstanceReady())
      ensures Unsuccessful(out) && phase == PhasePending && c.outside >= old(c.outside) && c.faults >= old(c.faults)
      ensures c.faults > old(c.faults) ==> Interrupted(out)
      ensures c.faults == old(c.faults) ==> HoldsInstance(c.w, x) && Ended(out, End(false, false, No, Why.Updating))
      ensures instance.it.status == old(instance).it.status
      // no DBInstance of x comes to be before the finalizer is stored
      ensures Keeps(InstanceWorker(x), {Instances, Claims}, old(c.w), c.w)
      ensures c.outside == old(c.outside) ==> c.w.dbs == old(c.w).dbs
      ensures Follows(old(c.run), c.run)
      ensures NoClaimBut(old(c.w), c.w, x, old(instance).it.status.conditions)
    {
      if Current(c.w.instances, x, instance) { MayAddFinalizer(c.w, x, instance); }
      c.Have(Verdicts);
      ghost var before := c.w;
      phase := PhasePending;
      instance := Obj(instance.rv, instance.it.(finalizer := true));
      var r := c.UpdateInstance(InstanceWorker(x), x, instance);
      WrittenNoClaim(before, x, instance.it, c.hit, c.w);
      if r == Err(Conflict) {
        out := ReturnUpdating(UpdatingInstance);
      } else if r.Err? {
        out := ReturnErrorAfter(out, r.error, BackendError, InstanceUpdateFailed);
      } else {
        FinalizerWritten(before, x, instance.it, c.hit, c.w);
        instance := r.value;
        out := ReturnNotReady(Why.Updating, Says(UpdatingInstance));
      }
    }

    method RemoveFinalizer()
      requires c.Valid() && Copied(c.w, x, instance) && Gone(c.w, x) && phase == PhaseDeleting
      modifies this`instance, this`out, this`phase, c
      ensures c.Valid() && Committable(instance.it.status.conditions, InstanceReady())
      ensures Unsuccessful(out) && c.outside >= old(c.outside) && c.faults >= old(c.faults)
      ensures c.faults > old(c.faults) ==> Interrupted(out)
      ensures instance.it.inventoryRef == old(instance).it.inventoryRef
      ensures if c.faults == old(c.faults)
              then phase == PhaseDeleted && !HoldsInstance(c.w, x) && Ended(out, End(false, false, No, Why.Updating))
              else phase == PhaseDeleting
      ensures Follows(old(c.run), c.run)
      ensures NoClaimBut(old(c.w), c.w, x, old(instance).it.status.conditions)
    {
      if Current(c.w.instances, x, instance) { MayRemoveFinalizer(c.w, x, instance); }
      ghost var before := c.w;
      instance := Obj(instance.rv, instance.it.(finalizer := false));
      var r := c.UpdateInstance(InstanceWorker(x), x, instance);
      WrittenNoClaim(before, x, instance.it, c.hit, c.w);
      if r == Err(Conflict) {
        out := ReturnUpdating(UpdatingInstance);
      } else if r.Err? {
        out := ReturnErrorAfter(out, r.error, BackendError, InstanceUpdateFailed);
      } else {
        FinalizerWritten(before, x, instance.it, c.hit, c.w);
        instance := r.value;
        phase := PhaseDeleted;
        out := ReturnNotReady(Why.Updating, Says(UpdatingInstance));
      }
    }

    /** Deletes the DBInstance that was found; the finalizer stays. */
    method DeleteDatabase()
      requires c.Valid() && Copied(c.w, x, instance) && instance.it.finalizer && instance.it.deleting
      modifies this`out, c
      ensures c.Valid() && Unsuccessful(out) && c.outside >= old(c.outside) && c.faults >= old(c.faults)
      ensures c.faults > old(c.faults) ==> Interrupted(out)
      ensures c.faults == old(c.faults) ==> HoldsInstance(c.w, x) && out == ReturnUpdating(UpdatingInstance)
      ensures c.faults == old(c.faults) && c.outside == old(c.outside) ==> Marked(c.w, DatabaseKey(x, instance.it))
      ensures Follows(old(c.run), c.run)
      ensures NoClaimBut(old(c.w), c.w, x, instance.it.status.conditions)
    {
      hide Copied, Committable, Faithful, Keeps, NoClaimBut, Allowed, Marked, Provision.Holding;
      var k := DatabaseKey(x, instance.it);
      CopiedMeans(c.w, x, instance);
      if k in c.w.dbs { MayDelete(c.w, x, instance); }
      ghost var read := c.w;
      var e := c.DeleteDatabase(InstanceWorker(x), k);
      Provision.StaysHolding(read, c.w, x, instance.it, {AddedReferences, Provisions});
      KeepsNoClaim(read, c.w, x, {AddedReferences, Provisions}, instance.it.status.conditions);
      if e.None? { MarkedAfter(read, k, c.hit); }
      out := if e.Some? then ReturnErrorAfter(out, e.value, BackendError, DeleteDatabaseFailed)
             else ReturnUpdating(UpdatingInstance);
    }

    /** The deleted instance first deletes its DBInstance; only when that is not
        found does the finalizer go. */
    method TearDown()
      requires c.Valid() && Copied(c.w, x, instance) && instance.it.finalizer && instance.it.deleting
      modifies this`instance, this`out, this`phase, c
      ensures c.Valid() && Committable(instance.it.status.conditions, InstanceReady())
      ensures Unsuccessful(out) && phase in {PhaseDeleting, PhaseDeleted}
      ensures c.faults > old(c.faults) ==> Interrupted(out)
      ensures instance.it.inventoryRef == old(instance).it.inventoryRef
      ensures c.outside >= old(c.outside) && c.faults >= old(c.faults)
      ensures c.faults == old(c.faults) ==>
                if DatabaseKey(x, instance.it) in old(c.w).dbs
                then phase == PhaseDeleting && HoldsInstance(c.w, x) && out == ReturnUpdating(UpdatingInstance)
                else phase == PhaseDeleted && !HoldsInstance(c.w, x) && Ended(out, End(false, false, No, Why.Updating))
      ensures DatabaseKey(x, instance.it) in old(c.w).dbs && c.faults == old(c.faults)
              && c.outside == old(c.outside) ==>
                Marked(c.w, DatabaseKey(x, instance.it))
      ensures Follows(old(c.run), c.run)
      ensures NoClaimBut(old(c.w), c.w, x, old(instance).it.status.conditions)
    {
      hide Copied, Committable, Faithful, Gone, InstanceClaims, SaysTrue, Interrupted;
      ghost var begin := c.w;
      c.Have(Ownership);
      CopiedMeans(begin, x, instance);
      phase := PhaseDeleting;
      var k := DatabaseKey(x, instance.it);
      var db := c.GetDatabase(InstanceWorker(x), k);
      ghost var way := c.run;
      StaysCopied(begin, c.w, x, instance, {});
      KeepsNoClaim(begin, c.w, x, {}, instance.it.status.conditions);
      if db.Err? && db.error != NotFound {
        FailureInterrupts(out, db.error, GetDatabaseFailed);
        out := ReturnErrorAfter(out, db.error, BackendError, GetDatabaseFailed);
      } else if db.Ok? {
        DeleteDatabase();
        FollowsOn(old(c.run), way, c.run);
      } else {
        GoneWhenNotFound(begin, c.w, x, instance);
        RemoveFinalizer();
        FollowsOn(old(c.run), way, c.run);
      }
    }

    /** What becomes of a pass that stops over the finalizer. */
    ghost predicate FinalizerEnds(w: World, o: Instance)
      reads this
    {
      if !o.deleting then phase == PhasePending && Ended(out, End(false, false, No, Why.Updating))
      else if !o.finalizer then
        phase == NoPhase && instance.it.status == o.status && Ended(out, End(false, false, No, Deleting))
      else if DatabaseKey(x, o) in w.dbs then
        phase == PhaseDeleting && Ended(out, End(true, false, Unsure, Why.Updating))
      else phase == PhaseDeleted && Ended(out, End(false, false, No, Why.Updating))
    }

    method CheckFinalizer() returns (stop: bool)
      requires c.Valid() && Copied(c.w, x, instance) && phase == NoPhase
      modifies this`instance, this`out, this`phase, c
      ensures c.Valid() && Committable(instance.it.status.conditions, InstanceReady())
      ensures c.outside >= old(c.outside) && c.faults >= old(c.faults)
      ensures stop <==> old(instance).it.deleting || !old(instance).it.finalizer
      ensures stop && c.faults == old(c.faults) ==> FinalizerEnds(old(c.w), old(instance).it)
      ensures Follows(old(c.run), c.run)
      ensures NoClaimBut(old(c.w), c.w, x, old(instance).it.status.conditions)
      ensures stop ==> Unsuccessful(out)
      ensures c.faults > old(c.faults) ==> Interrupted(out)
      ensures !stop ==> instance == old(instance) && out == old(out) && phase == NoPhase && c.w == old(c.w)
                         && c.faults == old(c.faults) && c.writes == old(c.writes) && c.outside == old(c.outside)
    {
      CopiedMeans(c.w, x, instance);
      FollowsSelf(c.run);
      stop := true;
      if !instance.it.deleting {
        if !instance.it.finalizer {
          AddFinalizer();
        } else {
          stop := false;
        }
      } else if instance.it.finalizer {
        TearDown();
      } else {
        out := ReturnNotReady(Deleting, Says(DeletingInstance));
      }
    }

    // ---------------------------------------------- createOrUpdateDBInstance

    /** Creates or updates the DBInstance; unacceptable parameters write nothing. */
    method ProvisionDatabase() returns (stop: bool)
      requires c.Valid() && Copied(c.w, x, instance) && instance.it.finalizer && phase == NoPhase && !updated
      requires out == UNDECIDED
      modifies this`out, this`phase, this`updated, this`foundAt, c
      ensures c.Valid() && Copied(c.w, x, instance) && c.outside >= old(c.outside) && c.faults >= old(c.faults)
      ensures stop ==> Unsuccessful(out)
      ensures c.faults > old(c.faults) ==> Interrupted(out)
      ensures !stop ==> out == UNDECIDED && c.faults == old(c.faults) && phase == if updated then PhaseUpdating
              else NoPhase
      ensures !stop ==>
                && DatabaseKey(x, instance.it) in old(c.w).dbs
                && var d := old(c.w).dbs[DatabaseKey(x, instance.it)].it;
                   updated <==> Provision.Wanted(x, instance.it, d) != Ok(d)
      ensures foundAt == Moment(old(c.run), old(c.w)) && Past(old(c.run), foundAt, c.run)
      ensures !stop && c.outside == old(c.outside) ==>
                && Provision.Done(c.w, x, instance.it)
                && Provision.IsWanted(c.w, x, instance.it, old(c.w).dbs[DatabaseKey(x, instance.it)].it)
      ensures NoClaimBut(old(c.w), c.w, x, instance.it.status.conditions)
      ensures stop && c.faults == old(c.faults) && Acceptable(instance.it.params) ==>
                && DatabaseKey(x, instance.it) !in old(c.w).dbs
                && phase == PhaseCreating && Ended(out, End(true, false, No, Creating))
      ensures !Acceptable(instance.it.params) ==>
                && stop && c.writes == old(c.writes) && phase == NoPhase
                && Ended(out, End(false, true, No, BackendError))
                && (c.faults == old(c.faults) ==>
                      out.message == Before(DatabaseCreateOrUpdateFailed, OfError(out.err.value)))
    {
      hide Acceptable, Copied, Provision.Holding, Provision.Done, Provision.Wanted, Admitted, Reported, Keeps;
      hide Faithful, Versions, DatabaseKey, Interrupted, Ended, Unsuccessful, Cluster.Valid;
      hide Provision.IsWanted, NoClaimBut, Follows, Past;
      ghost var begin, way := c.w, c.run;
      foundAt := Moment(way, begin);
      c.Begins();
      c.Have(Admission);
      CopiedMeans(begin, x, instance);
      CopiedIsAdmitted(begin, x, instance);
      var r, failure := Provision.CreateOrUpdate(c, x, instance.it);
      StaysCopied(begin, c.w, x, instance, Provision.PROVISION);
      KeepsNoClaim(begin, c.w, x, Provision.PROVISION, instance.it.status.conditions);
      PastUntil(way, foundAt, way, c.run);
      stop := true;
      if failure.Some? { ReportedIsBackendError(failure.value); }
      match failure
      case Some(f) => out := Reported(f);
      case None =>
        if r == Provision.Created {
          phase := PhaseCreating;
          RequeueEnds(Creating, Says(CreatingInstance));
          out := ReturnRequeue(Creating, Says(CreatingInstance));
        } else {
          stop := false;
          if r == Provision.Updated {
            phase := PhaseUpdating;
            updated := true;
          }
        }
    }

    // -------------------------------------------------- syncDBInstanceStatus

    /** What the status is to say of the DBInstance that was fetched. */
    ghost predicate Reflects(status: InstanceStatus, before: seq<Condition>, d: DBInstance) {
      && status.phase == Mirror.PhaseOf(d.State())
      && status.instanceID == d.spec.identifier
      && Status.Flattens(d.observed, status.info)
      && Mirror.AllMirrored(before, d.ackConditions, status.conditions)
    }

    /** Status().Update of the copy, which then is what the server stored. */
    method WriteStatus() returns (e: Option<Error>)
      requires c.Valid() && Committable(instance.it.status.conditions, InstanceReady())
      modifies this`instance, c
      ensures c.Valid() && c.outside >= old(c.outside) && c.faults >= old(c.faults) && c.writes == old(c.writes)
      ensures instance.it.status == old(instance).it.status
      ensures Follows(old(c.run), c.run)
      ensures NoClaimBut(old(c.w), c.w, x, old(instance).it.status.conditions)
      ensures c.faults == old(c.faults) <==> e.None?
      ensures c.outside == old(c.outside) ==> c.w.dbs == old(c.w).dbs && c.w.secrets == old(c.w).secrets
      ensures e.None? && c.outside == old(c.outside) ==>
                x in c.w.instances && c.w.instances[x].it.status == instance.it.status
    {
      hide Committable;
      ghost var before := c.w;
      if x in c.w.instances { MayCommit(c.w, x, instance.it); }
      var r := c.UpdateInstanceStatus(InstanceWorker(x), x, instance);
      StatusNoClaim(before, x, instance.it, c.hit, c.w);
      if r.Err? { return Some(r.error); }
      StatusWritten(before, x, instance.it, c.hit);
      instance := r.value;
      e := None;
    }

    method Sync() returns (stop: bool)
      requires c.Valid() && Copied(c.w, x, instance)
      modifies this`instance, this`out, this`fetchedAt, c
      ensures c.Valid() && Committable(instance.it.status.conditions, InstanceReady())
      ensures c.outside >= old(c.outside) && c.faults >= old(c.faults)
      ensures stop ==> Unsuccessful(out)
      ensures c.faults > old(c.faults) ==> Interrupted(out)
      ensures !stop ==>
                && out == old(out) && c.faults == old(c.faults)
                && DatabaseKey(x, old(instance).it) in old(c.w).dbs
                && fetchedAt.w == old(c.w) && Past(old(c.run), fetchedAt, c.run)
                && Reflects(instance.it.status, old(instance).it.status.conditions,
                     Fetched(fetchedAt, x, old(instance).it))
      ensures !stop && c.outside == old(c.outside) ==>
                && x in c.w.instances && c.w.instances[x].it.status == instance.it.status
                && c.w.dbs == old(c.w).dbs && c.w.secrets == old(c.w).secrets
      ensures c.faults == old(c.faults) ==> (!stop <==> DatabaseKey(x, old(instance).it) in old(c.w).dbs)
      ensures Follows(old(c.run), c.run)
      ensures NoClaimBut(old(c.w), c.w, x, old(instance).it.status.conditions)
    {
      hide Copied, Mirror.AllMirrored, Status.Flattens, Mirror.PhaseOf, Committable, InstanceClaims, SaysTrue;
      hide Interrupted;
      stop := true;
      ghost var begin := c.w;
      CopiedMeans(begin, x, instance);
      var db := c.GetDatabase(InstanceWorker(x), DatabaseKey(x, instance.it));
      ghost var way := c.run;
      KeepsNoClaim(begin, c.w, x, {}, instance.it.status.conditions);
      if db.Err? {
        FailureInterrupts(out, db.error, GetDatabaseFailed);
        out := ReturnErrorAfter(out, db.error, if db.error == NotFound then Absent
          else BackendError, GetDatabaseFailed);
        return;
      }
      var d := db.value.it;
      fetchedAt := c.Last();
      var info := Status.ParseDBInstanceStatus(d.observed);
      var conditions := Mirror.MirrorConditions(instance.it.status.conditions, d.ackConditions);
      MirrorKeepsVerdict(instance.it.status.conditions, d.ackConditions, conditions);
      instance := Obj(instance.rv, instance.it.(
        status := InstanceStatus(conditions, Mirror.PhaseOf(d.State()), d.spec.identifier, info)));
      var e := WriteStatus();
      PastUntil(old(c.run), fetchedAt, way, c.run);
      if e == Some(Conflict) {
        FailureInterrupts(out, Conflict, UpdatingInstance);
        out := ReturnUpdating(UpdatingInstance);
      } else if e.Some? {
        FailureInterrupts(out, e.value, InstanceUpdateFailed);
        out := ReturnErrorAfter(out, e.value, BackendError, InstanceUpdateFailed);
      } else {
        stop := false;
      }
    }

    // --------------------------------------------------------- Reconcile

    /** The inventory the instance refers to is there and ready. */
    method CheckInventory() returns (stop: bool)
      requires c.Valid()
      modifies this`out, c
      ensures c.Valid() && c.Since(InstanceWorker(x), old(c.w), old(c.outside)) && c.writes == old(c.writes)
      ensures c.faults >= old(c.faults) && Follows(old(c.run), c.run)
      ensures stop ==> Unsuccessful(out)
      ensures c.faults > old(c.faults) ==> Interrupted(out)
      ensures !stop ==> out == old(out) && c.faults == old(c.faults)
      ensures c.faults == old(c.faults) ==>
                (!stop <==> && instance.it.inventoryRef in old(c.w).inventories
                            && SaysTrue(old(c.w).inventories[instance.it.inventoryRef].it.conditions, InventoryReady()))
      ensures stop && c.faults == old(c.faults) ==>
                Ended(out, if instance.it.inventoryRef in old(c.w).inventories then End(true, false, No, Unreachable)
                           else End(false, true, No, Absent))
    {
      stop := true;
      var inventory := c.GetInventory(InstanceWorker(x), instance.it.inventoryRef);
      if inventory.Err? {
        out := if inventory.error == NotFound then ReturnErrorAfter(out, inventory.error, Absent, InventoryNotFound)
               else ReturnErrorAfter(out, inventory.error, BackendError, GetInventoryFailed);
      } else if !SaysTrue(inventory.value.it.conditions, InventoryReady()) {
        out := ReturnRequeue(Unreachable, Says(InventoryNotReady));
      } else {
        stop := false;
      }
    }

    /** Success is claimed, in the pass over o that began with the run q, only over a
        DBInstance that was fetched available, and the status then tells of that one. */
    ghost predicate JudgedRightly(q: Run, o: Instance)
      reads this, c
    {
      && out.judged.Some?
      && (out.judged.value.verdict == Yes ==>
            && out == ReturnReady(UNDECIDED, Why.Ready)
            && Witnessed(q, c.run, x, o, foundAt, fetchedAt, updated)
            && instance.it.status.phase == PhaseReady && phase == (if updated then PhaseUpdating else NoPhase)
            && instance.it.status.instanceID == Fetched(fetchedAt, x, o).spec.identifier
            && Status.Flattens(Fetched(fetchedAt, x, o).observed, instance.it.status.info))
    }

    /** Success is claimed only over the DBInstance that was fetched, available; the
        status then tells of that one. */
    ghost predicate Tells(q: Run, o: Instance)
      reads this, c
    {
      && out.judged.Some?
      && (out.judged.value.verdict == Yes ==>
            && out == ReturnReady(UNDECIDED, Why.Ready)
            && Past(q, fetchedAt, c.run) && DatabaseKey(x, o) in fetchedAt.w.dbs
            && Fetched(fetchedAt, x, o).State() == Some("available")
            && instance.it.status.phase == PhaseReady
            && instance.it.status.instanceID == Fetched(fetchedAt, x, o).spec.identifier
            && Status.Flattens(Fetched(fetchedAt, x, o).observed, instance.it.status.info))
    }

    /** Mirrors and decides. */
    method Conclude()
      requires c.Valid() && Copied(c.w, x, instance) && out == UNDECIDED
      modifies this`instance, this`out, this`fetchedAt, c
      ensures c.Valid() && Committable(instance.it.status.conditions, InstanceReady())
      ensures Tells(old(c.run), old(instance).it)
      ensures c.outside >= old(c.outside) && c.faults >= old(c.faults) && Follows(old(c.run), c.run)
      ensures c.faults > old(c.faults) ==> Interrupted(out)
      ensures out.judged.value.verdict == Yes ==> fetchedAt.w == old(c.w)
      ensures out.judged.value.verdict == Yes && c.outside == old(c.outside) ==>
                c.w.dbs == old(c.w).dbs && c.w.secrets == old(c.w).secrets
      ensures c.faults == old(c.faults) && DatabaseKey(x, old(instance).it) in old(c.w).dbs ==>
                var state := old(c.w).dbs[DatabaseKey(x, old(instance).it)].it.State();
                instance.it.status.phase == Mirror.PhaseOf(state) && Ended(out, EndOn(state))
      ensures NoClaimBut(old(c.w), c.w, x, old(instance).it.status.conditions)
    {
      hide Copied, Committable, Mirror.PhaseOf, Mirror.AllMirrored, Status.Flattens, Decide, EndOn, Ended;
      hide InstanceClaims, SaysTrue, FindStatusCondition, Follows, Past, Keeps, NoClaimBut, DatabaseKey, Interrupted;
      hide Cluster.Valid;
      ghost var o := instance.it;
      var stop := Sync();
      if stop { return; }
      ghost var state := Fetched(fetchedAt, x, o).State();
      DecidesOnState(out, state);
      Mirror.PhaseIsHandled(state);
      out := Decide(out, instance.it.status.phase);
      DecidedOnState(out, state);
    }

    /** Provisions, mirrors and decides. */
    method Proceed()
      requires c.Valid() && Copied(c.w, x, instance) && instance.it.finalizer
      requires out == UNDECIDED && phase == NoPhase && !updated
      modifies this, c
      ensures c.Valid() && Committable(instance.it.status.conditions, InstanceReady())
              && JudgedRightly(old(c.run), old(instance).it)
      ensures c.outside >= old(c.outside) && c.faults >= old(c.faults) && Follows(old(c.run), c.run)
      ensures c.faults > old(c.faults) ==> Interrupted(out)
      ensures out.judged.value.verdict == Yes && c.outside == old(c.outside) ==>
              Delivered(c.w, x, old(instance).it, fetchedAt)
      ensures c.faults == old(c.faults) && c.outside == old(c.outside) ==>
                && (out.judged.value.verdict == Yes <==> Fetchable(old(c.w), x, old(instance).it))
                && ProceedEnds(old(c.w), x, old(instance).it, out, instance.it.status, phase)
      ensures NoClaimBut(old(c.w), c.w, x, old(instance).it.status.conditions)
      ensures !Acceptable(old(instance).it.params) ==> c.writes == old(c.writes) && Unsuccessful(out)
    {
      hide Copied, Committable, Mirror.PhaseOf, Mirror.AllMirrored, Status.Flattens, Acceptable, Decide;
      hide InstanceClaims, SaysTrue, EndOn, ProceedEnds, Ended, FindStatusCondition, DatabaseKey;
      hide Provision.Done, Provision.Wanted, Provision.IsWanted;
      ghost var o, begin, way := instance.it, c.w, c.run;
      var stop := ProvisionDatabase();
      CopiedMeans(c.w, x, instance);
      PastFollows(way, foundAt, c.run);
      if stop {
        if c.faults == old(c.faults) { StopsShort(begin, x, o, out, instance.it.status, phase); }
        return;
      }
      ghost var provisioned, on := c.w, c.run;
      if c.outside == old(c.outside) { WantedSameState(provisioned, x, o, begin.dbs[DatabaseKey(x, o)].it); }
      Conclude();
      FollowsOn(way, on, c.run);
      PastUntil(way, foundAt, on, c.run);
      if out.judged.value.verdict == Yes {
        PastFrom(way, on, fetchedAt, c.run);
        if c.outside == old(c.outside) { StaysDone(provisioned, c.w, x, o); }
      }
      if c.outside == old(c.outside) && c.faults == old(c.faults) {
        DecidedOnState(out, provisioned.dbs[DatabaseKey(x, o)].it.State());
        GoesThrough(begin, x, o, out, instance.it.status, phase, provisioned.dbs[DatabaseKey(x, o)].it);
      }
    }

    /** What the pass decides, before the deferred write. */
    method Judge()
      requires c.Valid() && Copied(c.w, x, instance)
      requires out == UNDECIDED && phase == NoPhase && !updated
      modifies this, c
      ensures c.Valid() && Committable(instance.it.status.conditions, InstanceReady())
              && JudgedRightly(old(c.run), old(instance).it)
      ensures c.outside >= old(c.outside) && c.faults >= old(c.faults) && Follows(old(c.run), c.run)
      ensures c.faults > old(c.faults) ==> Interrupted(out)
      ensures out.judged.value.verdict == Yes && c.outside == old(c.outside) ==>
              Delivered(c.w, x, old(instance).it, fetchedAt)
      ensures c.faults == old(c.faults) && c.outside == old(c.outside) ==>
                && (out.judged.value.verdict == Yes <==> Succeeds(old(c.w), x, old(instance).it))
                && Ended(out, Ending(old(c.w), x, old(instance).it))
                && EndingPhase(old(c.w), x, old(instance).it) ==
                     if phase == NoPhase then instance.it.status.phase else phase
      ensures NoClaimBut(old(c.w), c.w, x, old(instance).it.status.conditions)
      ensures Unprovisionable(old(instance).it) ==> c.writes == old(c.writes) && Unsuccessful(out)
    {
      hide Cluster.Valid;
      hide Copied, Committable, Status.Flattens, Acceptable, Provision.Done, InstanceClaims, SaysTrue, Fetchable;
      hide Delivered, Witnessed, Keeps, Follows, Fetched, FindStatusCondition, DatabaseKey, Interrupted;
      ghost var begin, o, way := c.w, instance.it, c.run;
      CopiedMeans(begin, x, instance);
      ProvisionsAt(x, o);
      var stop := CheckInventory();
      ghost var on := c.run;
      KeepsNoClaim(begin, c.w, x, {}, o.status.conditions);
      if stop { return; }
      StaysCopied(begin, c.w, x, instance, {});
      stop := CheckFinalizer();
      FollowsOn(way, on, c.run);
      if stop { return; }
      ghost var free := c.run;
      Proceed();
      FollowsOn(way, free, c.run);
      if out.judged.value.verdict == Yes { WitnessedFrom(way, free, c.run, x, o, foundAt, fetchedAt, updated); }
    }

    /** updateInstanceReadyCondition; `committed` is the status the server took. */
    method Commit() returns (ghost committed: Option<InstanceStatus>)
      requires c.Valid() && out.judged.Some? && Committable(instance.it.status.conditions, InstanceReady())
      modifies this`instance, this`out, c
      ensures c.Valid() && out.judged == old(out).judged && c.outside >= old(c.outside) && c.faults >= old(c.faults)
      ensures c.writes == old(c.writes)
      ensures c.faults == old(c.faults) <==> committed.Some?
      ensures committed.None? ==> out.requeue || out.err.Some?
      ensures InstanceClaims(c.w, x) ==> InstanceClaims(old(c.w), x) || out.judged.value.verdict == Yes
      ensures Follows(old(c.run), c.run)
      ensures committed.Some? ==>
                && out == old(out)
                && (exists now: int :: committed.value == Final(old(instance).it.status, old(out), phase, now))
                && (c.outside == old(c.outside) ==> x in c.w.instances && c.w.instances[x].it.status == committed.value)
      ensures c.outside == old(c.outside) ==> c.w.dbs == old(c.w).dbs && c.w.secrets == old(c.w).secrets
    {
      hide Committable, SetStatusCondition;
      var now: int := *;
      ghost var status := Final(instance.it.status, out, phase, now);
      FinalIsCommittable(instance.it.status, out, phase, now);
      FinalVerdict(instance.it.status, out, phase, now);
      instance := Obj(instance.rv, instance.it.(status := Final(instance.it.status, out, phase, now)));
      var e := WriteStatus();
      committed := if e.None? then Some(status) else None;
      out := AfterCommit(out, e);
      assert committed.Some? ==> committed.value == Final(old(instance).it.status, old(out), phase, now);
    }
  }

  lemma CopiedIsAdmitted(w: World, x: Key, o: Obj<Instance>)
    requires Admitted(w) && Copied(w, x, o) && o.it.finalizer
    ensures '/' !in x.ns
  {
  }

  /** Reconcile. The ghost results are what the pass decided, the status the deferred
      write committed, and what the pass looked at on the way. */
  method Reconcile(c: Cluster, x: Key)
    returns (requeue: bool, err: Option<Error>, ghost judged: Option<Judgment>, ghost committed: Option<InstanceStatus>,
             ghost foundAt: Moment, ghost fetchedAt: Moment, ghost updated: bool)
    requires c.Valid()
    modifies c
    ensures c.Valid() && c.outside >= old(c.outside) && c.faults >= old(c.faults)
    // success is decided only over an available DBInstance, fetched in this pass
    ensures judged.Some? && judged.value.verdict == Yes ==>
              && x in old(c.w).instances
              && Witnessed(old(c.run), c.run, x, old(c.w).instances[x].it, foundAt, fetchedAt, updated)
    // what is committed is the verdict; with success, it tells of that DBInstance
    ensures committed.Some? ==> judged.Some? && Reads(committed.value.conditions, InstanceReady(), judged.value)
    ensures committed.Some? && judged.value.verdict == Yes ==>
              var d := Fetched(fetchedAt, x, old(c.w).instances[x].it);
              && committed.value.phase == (if updated then PhaseUpdating else PhaseReady)
              && committed.value.instanceID == d.spec.identifier && Status.Flattens(d.observed, committed.value.info)
              && !requeue && err.None?
    // whatever is committed, lost or made by others: ready appears in the store only with success
    ensures InstanceClaims(c.w, x) ==> InstanceClaims(old(c.w), x) || (judged.Some? && judged.value.verdict == Yes)
    // when nobody interfered, the DBInstance is still that one, as this instance wants it
    ensures judged.Some? && judged.value.verdict == Yes && c.outside == old(c.outside) ==>
              Delivered(c.w, x, old(c.w).instances[x].it, fetchedAt)
    // and without a failed call the store says ready exactly when the pass could succeed
    ensures c.faults == old(c.faults) && c.outside == old(c.outside) && x in old(c.w).instances ==>
              && judged.Some? && committed.Some? && x in c.w.instances && c.w.instances[x].it.status == committed.value
              && (judged.value.verdict == Yes <==> Succeeds(old(c.w), x, old(c.w).instances[x].it))
              && EndsAs(requeue, err, judged, Ending(old(c.w), x, old(c.w).instances[x].it))
              && committed.value.phase == EndingPhase(old(c.w), x, old(c.w).instances[x].it)
              && (InstanceClaims(c.w, x) <==> judged.value.verdict == Yes)
    // unacceptable parameters of a live instance cause no write but the status
    ensures x in old(c.w).instances && Unprovisionable(old(c.w).instances[x].it) ==> c.writes == old(c.writes)
    // a pass in which a call failed is tried again, as is one that commits nothing
    ensures c.faults > old(c.faults) || (committed.None? && x in old(c.w).instances) ==> requeue || err.Some?
    // and there is nothing to do for an instance that is gone
    ensures c.faults == old(c.faults) && x !in old(c.w).instances ==>
              !requeue && err.None? && judged.None? && c.writes == old(c.writes)
  {
    hide Cluster.Valid;
    hide Copied, Committable, Status.Flattens, Acceptable, Provision.Done, Final, StatusText, Versions, Statuses, Keeps;
    hide SaysTrue, Reads, Witnessed, Succeeds, Delivered, InstanceClaims, Faithful, Stamped, Ending, EndingPhase;
    requeue, err, judged, committed, updated := false, None, None, None, false;
    ghost var begin, way := c.w, c.run;
    foundAt, fetchedAt := Moment(way, begin), Moment(way, begin);
    c.Have(Versioning);
    c.Have(Verdicts);
    var instance := c.GetInstance(InstanceWorker(x), x);
    ghost var on := c.run;
    KeepsNoClaim(begin, c.w, x, {}, []);
    NothingSaysTrue(InstanceReady());
    if instance == Err(NotFound) { return; }
    if instance.Err? {
      err := Some(instance.error);
      return;
    }
    CopiedOnRead(begin, x);
    StaysCopied(begin, c.w, x, instance.value, {});
    ClaimsMeans(begin, x);
    var p := new InstancePass(c, x, instance.value);
    p.Judge();
    ghost var there, decided, local, out, override := c.run, c.w, p.instance.it.status, p.out, p.phase;
    committed := p.Commit();
    requeue, err, judged, updated := p.out.requeue, p.out.err, p.out.judged, p.updated;
    foundAt, fetchedAt := p.foundAt, p.fetchedAt;
    if out.judged.value.verdict == Yes {
      WitnessedFrom(way, on, there, x, instance.value.it, foundAt, fetchedAt, updated);
      WitnessedOn(way, there, c.run, x, instance.value.it, foundAt, fetchedAt, updated);
      if c.outside == old(c.outside) { StaysDelivered(decided, c.w, x, instance.value.it, fetchedAt); }
    }
    if committed.Some? {
      var now: int :| committed.value == Final(local, out, override, now);
      FinalVerdict(local, out, override, now);
    }
    if x in c.w.instances { ClaimsMeans(c.w, x); }
  }
}
