# A verified model of the RDS DBaaS operator

The operator offers AWS RDS databases to a Kubernetes cluster. Three controllers share one
object store: the *inventory* controller installs the ACK RDS controller, adopts the databases of
an AWS account and hands each a password; the *instance* controller provisions a database for each
RDSInstance; the *connection* controller publishes the binding of one database. Each of them is a
pass that can stop at any API call, starts again from the stored objects, and shares the store
with users, Kubernetes, ACK, AWS and the other two.

## What is modelled

- **The cluster** (`Store`, `World`). A `World` is everything the controllers read: inventories,
  RDSInstances, connections, DBInstances, AdoptedResources, secrets, config maps, the ACK
  deployment with its secret and config map, and, on AWS's side, the listing, the current
  passwords and the `ModifyDBInstance` requests made so far. Stored objects carry
  resourceVersions; what is deleted carries its mark.
- **Steps and runs** (`World`, `Protocol`, `Runs`, `Overwriting`). A `Change` gives one object a new value.
  `Allowed` says who may make which change in which state: what users, Kubernetes, ACK and AWS do,
  and what each controller's writes obey. A `Run` is an initial state and any sequence of allowed
  changes; `Protocol.Inv` holds in every reachable state. The theorems of `Runs` are about all
  runs.
- **API calls** (`Api.Cluster`). Every call of a controller is a method: it may fail before it
  takes effect, fail after it took effect, or be refused (`NotFound`, `Conflict`, `AlreadyExists`),
  and any number of allowed changes by others happen before it returns. A write demands
  `Allowed` in the state in which it takes effect, so the verified controllers stay inside the
  runs that the theorems are about: `Cluster.Valid` carries a legal run that reaches the present
  state. The ghost counters `faults`, `outside` and `writes` let a contract speak of error-free
  passes, of passes nobody interfered with, and of passes that write nothing. A `Moment` is a
  state together with the run up to it: what a contract says a pass saw or left, it says of
  moments of that pass's own run, one after the other.
- **Interference** (`Interference`). What one controller may rely on while it waits (`Rely`), and
  what its own writes disturb (`Keeps`), proved of every allowed change (`OthersMayRely`,
  `OwnMayRely`).
- **The controllers** (`Ack`, `Teardown`, `Adoption`, `Secrets`, `HandOff`, `Listing`,
  `Settlement`, `InventoryController`; `Mirror`, `Provision`, `InstanceController`; `Binding`,
  `ConnectionController`; `Watch`; `Collisions`, `Scene`). Each `Reconcile` is a method; the
  closures that share captured variables are methods of a class whose fields those variables are;
  the status write that is deferred comes last and also runs after every early exit.
- **Data** (`Text`, `Credential`, `Database`, `Conditions`, `Reason`, `Owner`, `Names`, `Status`).
  Number formatting, password generation, spec building, condition lists and the CRD's reason
  pattern, owner annotations, and the flattening of a nested status to dotted keys.

Results are stated in the words of the API and of AWS (states, entries, names, the condition that
is stored) rather than through the functions that compute them; `End`, `Ending` and `EndOn` are the
tables of how passes end.

## Assumptions

They are written as guards of the changes others make, or as premises of the theorems.

- A controller reads the stored state, and its passes are serialized.
- The admission check on inventories is atomic: at most one inventory exists. A namespace has no
  slash. The `inventoryRef` of an RDSInstance does not change once it has its finalizer; before
  that it may.
- The operator starts with the ACK deployment scaled to zero, or scales it there between passes
  (`Startup`). Nobody but the operator scales it or touches `ack-user-secrets` and
  `ack-user-config`.
- Finalizers and statuses of inventories, RDSInstances and connections are the operator's; an
  AdoptedResource that an inventory owns is left to the operator except to be deleted, and its name
  is not used again.
- On DBInstances, outsiders leave the adopted label and the annotation that names an RDSInstance
  alone, and on adopted ones the identifier and the password reference, with which none comes to be
  adopted. Anything else about them is theirs to create, change and delete.
- On secrets, outsiders leave the controller alone, and the password in a secret where a DBInstance
  that ever was adopted keeps its own; a secret that goes with its connection is the exception.
  Otherwise they write what they like, passwords included.
- Master passwords at AWS, as far as they are modelled, change only by the operator's
  `ModifyDBInstance`.
- The theorems about passwords are about one DBInstance at a time and name what would break them.
  Its password is *replaced* (`World.replaced`) when a step takes it from its secret; that it never
  was is all that equal passwords need (`Runs.OnePasswordPerInstance`). It is *contested*
  (`World.contested`) when another adopted DBInstance has its identifier or an RDSInstance has its
  name; that its reference is current needs that this never was so either
  (`Runs.ReferenceIsCurrent`). Only a connection of its name can have it replaced
  (`Protocol.ReplacedByConnection`, `Runs.NotLostWithoutConnection`). Adoption at most once asks
  that AWS lists distinct identifiers. `Runs.AssumptionsRecorded` shows that the recorded sets and
  the flag say exactly this.

## Where the code does less than it seems to

- A missing credentials secret is first reported as not found and then overwritten by a backend
  error (`controllers/rdsinventory_controller.go:310-313`); an unacceptable parameter is first an
  input error and ends as a backend error with the message prefixed
  (`controllers/rdsinstance_controller.go:274-282`). `InventoryPass.Validate` and
  `InstancePass.ProvisionDatabase` state the reason that stays.
- The adoption loop never adds to the maps it looks into, so an identifier that AWS lists twice is
  adopted twice: `Adoption.RepeatedIsAdoptedTwice` gives a listing, `Adoption.AdoptsOnceIffNoRepeats`
  the exact condition.
- An adopted DBInstance and a connection of the same name keep their passwords in one secret, and
  `setCredentials` takes any password it finds there. If the connection is bound first, is then
  edited to name another database, and is bound again, the adopted DBInstance refers to a password
  that AWS does not have (`Collisions.ReferenceGoesStale`), and when the pass between the two stops
  right after telling AWS, AWS is told two passwords for it (`Collisions.TwoPasswordsAreTold`). Both
  are built from the contracts of the two `Reconcile` methods (of `HandOff.Tell` for the pass that
  stops) and one edit by a user, from every state that satisfies `Collisions.Collides`;
  `Scene.SceneIsReached` and `Scene.SetScene` lead there from an operator that has just started.
- Exactly when that happens: a pass over the connection breaks a reference that was right if and
  only if nobody but such a connection controls the secret and the lookups of the connection lead to
  a password other than the one in it (`Collisions.PassOver`). Along any run, a right reference
  stays right if and only if no connection of the name has overwritten the password since, or taken
  the secret with it (`Overwriting.StaleIffOverwritten`). And the password is safe whatever happens
  later if and only if somebody else controls the secret, which is the test at which the code
  refuses the connection (`Overwriting.KeptForGoodIffHeld`): a secret that the hand-off itself
  created is safe, one it found without a controller is not. Keeping the names apart is enough
  (`Runs.NamesApartAgree`).
- An event on a DBInstance finds the connection that resolves to it exactly when the connection's
  reference names its namespace (or there is no namespace at all): `Watch.EventsReachConnections`.
- Printing and parsing a number gives it back exactly when it fits 64 bits (`Text.ParsePrinted`),
  and an owner annotation is read back exactly when the namespace has no slash
  (`Owner.ParseWritten`).
- A settled inventory's next pass commits the same status only up to the order of the listed
  instances, because a list of objects comes back in no fixed order; the status is identical
  whenever the order is (`InventoryController.Reconcile`).
- Neither the sync loop nor `setDBInstancePhase` can produce a phase that the final switch ignores
  (`Mirror.PhaseIsHandled`).

## Model

| member | source | states |
|---|---|---|
| `Runs.AckNeverStarved` | controllers/rdsinventory_controller.go:251-283 | In every reachable state, API failures included, an ACK deployment that is scaled up has both its secret and its config map, with non-empty key, secret and region |
| `Runs.NoDatabaseOrphaned` | controllers/rdsinstance_controller.go:197-258 | In every reachable state, a DBInstance annotated with an RDSInstance has that RDSInstance, with its finalizer, and is the one it provisions, also when two RDSInstances share a name |
| `Runs.TeardownIsFinal` | controllers/rdsinventory_controller.go:219-301 | When an inventory's finalizer goes, no AdoptedResource of any inventory, no running ACK deployment, no ACK secret and no ACK config map is left, and none comes back before an inventory takes the finalizer |
| `Runs.NotStoppedWhileOwning` | controllers/rdsinventory_controller.go:226-254 | Only the operator's own start scales the ACK controller to zero while an inventory still owns an AdoptedResource |
| `Runs.OnePasswordPerInstance` | controllers/rdsinventory_controller.go:478-507 | Over a run in which the secret of an adopted DBInstance never lost its password, and whatever fails between secret, AWS and spec, every ModifyDBInstance for it carries the same password |
| `Runs.ReferenceIsCurrent` | controllers/rdsinventory_controller.go:498-507 | If moreover no other adopted DBInstance ever had its identifier and no RDSInstance its name, and it has a password reference, then that is to its own secret, whose password is the one AWS has now |
| `Protocol.ReplacedByConnection` | controllers/rdsconnection_controller.go:291-312 | A step that takes the password from the secret of an adopted DBInstance is a write by the connection of its name, or that connection's secret going with it |
| `Runs.NotLostWithoutConnection` | controllers/rdsconnection_controller.go:291-312 | A DBInstance whose name no connection ever had, or in whose place no connection's secret ever sat, never lost its password |
| `Runs.NamesApartAgree` | controllers/rdsinventory_controller.go:478-507 | So it is enough that no connection ever had its name: one password for the DBInstance and, unless it is contested, a reference to the one AWS has |
| `Overwriting.StaleIffOverwritten` | controllers/rdsconnection_controller.go:291-320 | From any state in which a handed-off DBInstance refers to the password AWS has, and over any run in which it stays handed off and uncontested: it does so in every state if and only if no connection of its name has overwritten the password since or taken the secret with it |
| `Overwriting.KeptForGoodIffHeld` | controllers/rdsconnection_controller.go:300-306 | The secret of an adopted DBInstance keeps its password in every continuation of a run if and only if somebody else than a connection of the name controls it |
| `Collisions.PassOver` | controllers/rdsconnection_controller.go:146-320 | A pass over the connection of its name, without a failed call or interference, leaves a right reference right if and only if the connection may not write the secret or its lookups lead to no other password; when they may not or lead to no other, a failed call does no harm either |
| `Collisions.ReferenceGoesStale` | controllers/rdsconnection_controller.go:291-320 | From every state in which an adopted DBInstance waits for its password and a bindable connection has its name: a pass over the connection, one over the inventory, an edit that names another database, and one more pass over the connection, all without failures, leave the DBInstance with a reference to a password AWS does not have |
| `Collisions.TwoPasswordsAreTold` | controllers/rdsinventory_controller.go:483-507 | The same, with a hand-off that stops after telling AWS: AWS is told two passwords for the one DBInstance |
| `Scene.SceneIsReached` | controllers/rdsinventory_controller.go:201-368 | For any names, a run from a started operator reaches a state with an inventory about to be served, two bindable databases, and neither connection nor DBInstance of the shared name |
| `Scene.SetScene` | controllers/rdsinventory_controller.go:410-438 | From there one pass over the inventory, the adoption of a DBInstance and a connection of its name lead to the collision |
| `Runs.AdoptedAtMostOnce` | controllers/rdsinventory_controller.go:410-432 | Over a run in which AWS lists distinct identifiers, passes that failed in the middle included, a namespace never holds two owned AdoptedResources for one identifier at a time |
| `Runs.StatusesAreCommittable` | config/crd/bases/dbaas.redhat.com_rdsinstances.yaml:106-123 | Every status ever stored has one condition per type, reasons that fit the CRD's pattern, and for the operator's own condition a verdict that is True, False or Unknown with a reason |
| `Runs.AssumptionsRecorded` | controllers/rdsinventory_controller.go:404-507 | A DBInstance is recorded as contested exactly when it was in some state, as replaced exactly when some step took its password, and the flag holds exactly when AWS listed distinct identifiers in every state |
| `Protocol.StepKeepsInv` | controllers/rdsinventory_controller.go:201-516 | Every change anyone is allowed to make keeps the whole invariant |
| `Protocol.InitHasInv` | controllers/rdsinventory_controller.go:789-791 | The states in which the operator has just started satisfy the invariant |
| `Api.Cluster.Write` | controllers/rdsinventory_controller.go:424-428 | A write takes effect, fails, or takes effect and loses its reply; then others act; the run stays legal |
| `Api.Cluster.UpdateInventory` | controllers/rdsinventory_controller.go:205-213 | Update conflicts exactly when the copy is not the stored version, and returns the stored object otherwise |
| `Api.Cluster.UpdateInventoryStatus` | controllers/rdsinventory_controller.go:538-547 | A status update stores only the status, conflicts on a stale copy, and changes nothing when nothing differs |
| `Api.Cluster.ScaleDeployment` | controllers/rdsinventory_controller.go:723-728 | Scaling conflicts exactly on a stale version; otherwise the replicas are as asked, or, after an error, possibly unchanged |
| `Api.Cluster.ModifyDBInstance` | controllers/rdsinventory_controller.go:489-497 | The password request, which may have reached AWS even when it reports an error |
| `Api.Cluster.DescribeDBInstances` | controllers/rds/dbinstance.go:47-57 | Pages cut anywhere, which together are what AWS lists |
| `Ack.CreateOrUpdateSecret` | controllers/rdsinventory_controller.go:587-610 | On success the ACK secret holds exactly the inventory's entries and nothing else has changed; an equal secret is not written |
| `Ack.CreateOrUpdateConfigMap` | controllers/rdsinventory_controller.go:612-645 | The same for the config map |
| `Ack.CompleteMeans` | controllers/rdsinventory_controller.go:317-338 | Credentials are complete exactly when none of AWS_ACCESS_KEY_ID, AWS_SECRET_ACCESS_KEY and AWS_REGION is missing or empty |
| `Ack.SuppliedFrom` | controllers/rdsinventory_controller.go:594-640 | The ACK secret has exactly the inventory's own key and secret; the config map has exactly its region, the log level and tags it names or else info and rhoda, every namespace to watch, the default endpoint and no development logging |
| `Ack.StartRDSController` | controllers/rdsinventory_controller.go:732-744 | On success a deployment at zero replicas has one and any other is not touched; it fails without a deployment |
| `Ack.StopRDSController` | controllers/rdsinventory_controller.go:704-730 | On success the deployment is scaled to zero, secret and config map untouched |
| `Ack.WaitForRDSController` | controllers/rdsinventory_controller.go:693-702 | Says whether a replica is ready, and writes nothing |
| `Teardown.ReleaseAdopted` | controllers/rdsinventory_controller.go:220-250 | Every AdoptedResource annotated with this inventory ends marked or gone, none is added, and the answer is whether there was one |
| `Teardown.AllReleased` | controllers/rdsinventory_controller.go:227-245 | The annotations select exactly the resources this inventory owns: marking the selected ones leaves none unmarked |
| `Teardown.PassesDecrease` | controllers/rdsinventory_controller.go:219-297 | An error-free teardown pass strictly decreases the measure (unmarked, owned, running, secret, config map, finalizer), unless it only waits for marked resources |
| `Teardown.OthersDoNotIncrease` | controllers/rdsinventory_controller.go:219-297 | Nothing others do between or during passes increases the measure |
| `Teardown.ThreePassesFinish` | controllers/rdsinventory_controller.go:251-297 | Once the owned resources have drained there are at most three error-free passes, and the finalizer goes exactly with the last |
| `Adoption.ReadListing` | controllers/rdsinventory_controller.go:371-381 | All pages, concatenated, are AWS's listing; any failed page is an error |
| `Adoption.ByIdentifierTabulates` | controllers/rdsinventory_controller.go:383-412 | The map has the listed identifiers and no others, and under each the last entry with it, as AWS lists it |
| `Adoption.TabulatesDistinct` | controllers/rdsinventory_controller.go:383-412 | Where AWS lists distinct identifiers, every entry is found under its own as it is listed |
| `Adoption.MissingIsTheDifference` | controllers/rdsinventory_controller.go:410-432 | What is adopted is exactly what is listed under an unknown identifier with no state or one other than deleting, and distinct identifiers stay distinct |
| `Adoption.AdoptsOnceIffNoRepeats` | controllers/rdsinventory_controller.go:404-432 | The loop adopts each identifier once if and only if no unknown identifier that is not deleting is listed twice |
| `Adoption.RepeatedIsAdoptedTwice` | controllers/rdsinventory_controller.go:404-432 | A listing on which the loop adopts one identifier twice |
| `Adoption.Adopt` | controllers/rdsinventory_controller.go:418-428 | One AdoptedResource comes to be, in the inventory's namespace, with the inventory as owner and the identifier, under a name that begins with the identifier and that nobody had |
| `Adoption.AdoptAll` | controllers/rdsinventory_controller.go:409-432 | One request for each missing entry in listing order; an error stops after a proper prefix of them, and, left alone, the cluster then holds what that prefix asked for and at most the request that failed; the map it returns finds the last entry of each identifier as AWS lists it |
| `Adoption.ReadKnown` | controllers/rdsinventory_controller.go:384-408 | The known identifiers are those of the DBInstances and of the AdoptedResources of the namespace, as read |
| `Adoption.AdoptMissing` | controllers/rdsinventory_controller.go:384-438 | Without interference every listed entry with no state or one other than deleting ends with a DBInstance or an AdoptedResource of its identifier; whatever fails, only listed entries in neither list are requested, and none that is deleting; and a covered listing causes no write |
| `Secrets.SetCredentials` | controllers/rdsinstance_controller.go:502-556 | The secret ends with the returned password; one that was there is kept and nothing is written, a new one is acceptable; left alone, a secret that was not there holds only it and is controlled by the owner |
| `HandOff.FillOnlyAdds` | controllers/rdsinventory_controller.go:452-476 | User name and database name are taken from AWS only where the spec lacks them |
| `HandOff.AddConnectionData` | controllers/rdsinventory_controller.go:454-463 | The update flag is set exactly when the connection data changed |
| `HandOff.Tell` | controllers/rdsinventory_controller.go:483-497 | Secret, then AWS, for a DBInstance without a reference: on success the password is in the secret, and AWS took that one for this identifier; left alone, on every way out AWS was told nothing but the password that was in the secret |
| `HandOff.HandOverPassword` | controllers/rdsinventory_controller.go:478-508 | Secret, AWS, reference: on every way out, left alone, AWS was told only what the secret holds, and the DBInstance has changed only after AWS was told |
| `HandOff.LeftWithoutIffWaits` | controllers/rdsinventory_controller.go:478-482 | A DBInstance leaves without a reference exactly when it came without one in a state other than available |
| `HandOff.HandOffIsIdempotent` | controllers/rdsinventory_controller.go:449-509 | Handing off a second time changes nothing more |
| `HandOff.HandOffAll` | controllers/rdsinventory_controller.go:440-515 | Every adopted DBInstance is handed off whether or not others wait; each that was due then refers to its secret, whose password AWS took, if identifiers are distinct; a requeue is asked for exactly when one waits |
| `Settlement.AfterHandOffDelivers` | controllers/rdsinventory_controller.go:449-509 | Over the listing itself: what the hand-off leaves of a DBInstance has, where it lacked them, user name and database name of the last entry with its identifier; if it lacked a password and is not in a state other than available, it refers to the password entry of its own secret and has a user name in any case; nothing else of it changes |
| `Settlement.DeliveredFromEntry` | controllers/rdsinventory_controller.go:452-463 | Where AWS lists distinct identifiers, a DBInstance that lacked a user or database name has the one of the entry with its identifier |
| `Listing.Build` | controllers/rdsinventory_controller.go:526-536 | The status lists each DBInstance of the namespace once, with identifier, name and flattened status |
| `Listing.DescribesUpToOrder` | controllers/rdsinventory_controller.go:518-536 | Any two lists that describe the same state are permutations of each other |
| `Settlement.ServedAfter` | controllers/rdsinventory_controller.go:566-578 | Installed before and handed off after, with nothing else changed, is served |
| `Settlement.SettledAfterCommit` | controllers/rdsinventory_controller.go:180-199 | Committing the verdict of a successful pass settles the inventory |
| `InventoryController.InventoryPass.AddFinalizer` | controllers/rdsinventory_controller.go:202-217 | Unless a call fails, a live inventory takes the finalizer and the pass ends as Updating without a requeue; a failed call ends it with a retry or an error |
| `InventoryController.InventoryPass.RemoveFinalizer` | controllers/rdsinventory_controller.go:285-297 | The finalizer goes only when nothing the inventory caused is left; unless a call fails it goes and the pass ends as Updating without a requeue, and a failed call ends it with a retry or an error |
| `InventoryController.InventoryPass.DropSecret` | controllers/rdsinventory_controller.go:256-269 | Goes on exactly when the ACK secret was gone; otherwise, unless a call fails, it is deleted and the pass asks for a requeue |
| `InventoryController.InventoryPass.DropConfigMap` | controllers/rdsinventory_controller.go:270-283 | The same for the config map, once the secret is gone |
| `InventoryController.InventoryPass.Uninstall` | controllers/rdsinventory_controller.go:251-283 | Unless a call fails: without a deployment it stops with NotFound as a backend error; otherwise it scales down first, and then removes exactly one of secret and config map, asking for a requeue, or, when both were gone, goes on |
| `InventoryController.InventoryPass.Release` | controllers/rdsinventory_controller.go:220-250 | Unless a call fails, it goes on exactly when the inventory owned nothing, and otherwise asks for a requeue and is a teardown pass that marked all it owned |
| `InventoryController.InventoryPass.TearDown` | controllers/rdsinventory_controller.go:219-297 | Unless a call fails, it is a teardown pass in the sense of the measure and reports no error, exactly if there is a deployment or something was owned; otherwise it reports NotFound |
| `InventoryController.InventoryPass.CheckFinalizer` | controllers/rdsinventory_controller.go:201-304 | Stops exactly for an inventory that is deleted or lacks its finalizer, and otherwise changes nothing; unless a call fails, a live one then has the finalizer and a deleted one is torn down as `TearDown` says |
| `InventoryController.InventoryPass.Validate` | controllers/rdsinventory_controller.go:306-339 | Without a failed call it stops exactly when the secret or one of its three entries is missing or empty, naming such a one as an input error; when the read failed or found nothing, the reason that stays is a backend error |
| `InventoryController.InventoryPass.Install` | controllers/rdsinventory_controller.go:341-368 | Goes on only with the controller supplied, scaled up and ready, and writes nothing when it was; without a failed call it stops with a backend error where there is no deployment, and otherwise exactly when no replica is ready, asking for a requeue as Updating |
| `InventoryController.InventoryPass.AdoptInstances` | controllers/rdsinventory_controller.go:370-516 | Left alone and without a failed call it stops exactly when an entry that is not deleting is missing or an adopted DBInstance waits, asking for a requeue; stopped or not, every such entry ends in the cluster, and when they all were before, every adopted DBInstance ends with the user and database name of the listed entry of its identifier where it lacked them, and those that were due with their passwords told; nothing is written when nothing was to be done |
| `InventoryController.InventoryPass.AdoptListed` | controllers/rdsinventory_controller.go:384-438 | Without an error or interference every listed entry that is not deleting ends in the cluster, and the pass stops, asking for a requeue, exactly when one was not before; the map it goes on with finds the last entry of each identifier as listed |
| `InventoryController.InventoryPass.HandOffPasswords` | controllers/rdsinventory_controller.go:440-515 | Without a failed call the pass asks for a requeue exactly when an adopted DBInstance waits; left alone, the others are handed off all the same |
| `InventoryController.InventoryPass.Sync` | controllers/rdsinventory_controller.go:518-550 | Stores a list that describes the DBInstances, and nothing but the status |
| `InventoryController.InventoryPass.Commit` | controllers/rdsinventory_controller.go:180-199 | The deferred write stores verdict and reason as the ready condition, in the CRD's own words, and touches neither finalizers nor anything else; when it fails the pass asks to be tried again |
| `InventoryController.InventoryPass.RunLive` | controllers/rdsinventory_controller.go:566-585 | A pass that ends well settles the inventory; a settled one causes no write but an equal status |
| `InventoryController.Reconcile` | controllers/rdsinventory_controller.go:131-585 | A pass over a deleted inventory in which no call fails is a teardown pass and reports no error, exactly if there is a deployment or something was owned, and NotFound otherwise; one over a live inventory without finalizer takes it; a pass without a failed call or interference ends well exactly over a live, finalized inventory with complete credentials, a ready controller, a covered listing and no DBInstance that waits, and the stored condition is True exactly then; whether it ends well or not, with the controller ready everything listed ends covered, and when it was before, every DBInstance that does not wait is handed off; one that ends well leaves the inventory settled, DBInstances and secrets only gain what the hand-off fills in, and connections, config maps and RDSInstances stay; the next pass succeeds, writes nothing but the status, and leaves it as it was up to list order; True never appears in the store without such a verdict; how a pass without a failed call or interference ends (requeue, error, verdict and reason, which the stored condition then reads) is told for every state in `Ending`; a pass in which any call failed is tried again, and for an inventory that is gone there is nothing to do |
| `Mirror.SanitisedFits` | controllers/rdsinstance_controller.go:318-337 | Every mirrored reason fits the CRD's pattern, and one that fitted is kept |
| `Mirror.SanitisedShows` | controllers/rdsinstance_controller.go:310-337 | What is mirrored of a condition: its type, status and time; its own reason or the one that stands in for it; and the message, which then says the reason |
| `Mirror.MirrorConditions` | controllers/rdsinstance_controller.go:309-339 | For any conditions ACK reports, each reported type ends as its last report: type, status, message and, if it fits the pattern, reason as reported, or else DBInstance with the reported reason in the message; other types stay as they were, and types stay unique |
| `Mirror.PhaseIsHandled` | controllers/rdsinstance_controller.go:574-602 | Every state maps to a phase the final switch handles: Ready, Creating, Deleting and Failed exactly on available, creating, deleting and failed, Updating exactly on the fifteen states in which AWS is at work, Error exactly on three more |
| `Reason.MatchesIffInPattern` | controllers/rdsinstance_controller.go:309-319 | The step-by-step matcher accepts exactly the language of the pattern |
| `Conditions.SetKeepsTypesUnique` | controllers/rdsinstance_controller.go:338 | Setting a condition keeps types unique, makes it the one found, and leaves every other type's as it was |
| `Conditions.TimeMovesWithStatus` | controllers/rdsinstance_controller.go:315-338 | The transition time moves exactly when the status of the condition changes |
| `Outcomes.JudgedIffWellFormed` | controllers/rdsinstance_controller.go:130-195 | A pass commits a condition the CRD accepts if and only if it reached a verdict |
| `Outcomes.CommitKeepsCommittable` | controllers/rdsinstance_controller.go:173-195 | Committing a verdict keeps a stored status acceptable |
| `Outcomes.CommitReads` | controllers/rdsinstance_controller.go:173-195 | What is stored reads True, False or Unknown and the reason, in the words of the CRD, for every verdict and reason |
| `Database.BuildIffAcceptable` | controllers/rdsinstance_controller.go:411-500 | Building the spec succeeds exactly when the four required parameters are there, every number that is given is an optional sign and digits that denote an integer of 64 bits, and the flag is one of the words for true and false, whatever the spec held |
| `Database.RejectedForFirstFault` | controllers/rdsinstance_controller.go:412-488 | It fails exactly when a parameter is missing or malformed, with the error that names the first one in the order of the checks |
| `Database.BuildIdempotent` | controllers/rdsinstance_controller.go:411-500 | Applying the same parameters again changes nothing |
| `Database.BuildHonours` | controllers/rdsinstance_controller.go:411-556 | Every given parameter is what the spec says afterwards, numbers and flag by what their texts denote; joining the security groups gives the parameter back; the password is the one of the given secret, and a user name that was there stays |
| `Database.BuildLeavesAbsentAlone` | controllers/rdsinstance_controller.go:420-488 | An optional parameter that is absent leaves its field alone |
| `Database.CredentialKeyInjective` | controllers/rdsinstance_controller.go:506 | The credentials secret determines the namespace and name it was derived from (a provisioned DBInstance's is derived from its RDSInstance's namespace, an adopted one's from its own, so two DBInstances of one name in different namespaces can share one) |
| `Provision.SetParameters` | controllers/rdsinstance_controller.go:411-488 | The field-by-field code, names first and sizes then, computes the specification function of the parameters |
| `Provision.SetDBInstanceSpec` | controllers/rdsinstance_controller.go:411-500 | Unacceptable parameters are an error and cause no call at all; on success the result is as wanted and the password is in place |
| `Provision.WantedIsOwned` | controllers/rdsinstance_controller.go:268-273 | The DBInstance that is written is annotated with this RDSInstance, its spec says what the parameters say and refers to the password in the secret named after the RDSInstance, and everything else of it is kept |
| `Provision.CreateOrUpdate` | controllers/rdsinstance_controller.go:260-292 | All or nothing in the parameters; left alone it ends with the DBInstance as wanted; it reports created exactly when there was none and updated exactly when that one was not as wanted; a second time it writes nothing |
| `InstanceController.DecidesOnState` | controllers/rdsinstance_controller.go:396-408 | In terms of the state of the DBInstance: available ends as ready, failed as Terminated for good, creating, deleting and the states in which AWS is at work as unknown with a requeue, and every other state, or none, as a backend error with a requeue |
| `InstanceController.GoneWhenNotFound` | controllers/rdsinstance_controller.go:219-236 | Not finding the one DBInstance where the RDSInstance provisions means that no DBInstance is annotated with it, now and later |
| `InstanceController.InstancePass.AddFinalizer` | controllers/rdsinstance_controller.go:199-215 | The finalizer is stored before anything is created: no DBInstance of this RDSInstance comes to be meanwhile; a failed call ends the pass with a retry or an error |
| `InstanceController.InstancePass.DeleteDatabase` | controllers/rdsinstance_controller.go:226-234 | Without a failed call the DBInstance is marked for deletion, the finalizer stays and the pass asks for a requeue |
| `InstanceController.InstancePass.TearDown` | controllers/rdsinstance_controller.go:217-250 | Without a failed call the finalizer goes exactly when the DBInstance was not found, and the pass then ends as Updating without a requeue; one that was found ends marked for deletion, with a requeue; the phase says which |
| `InstanceController.InstancePass.CheckInventory` | controllers/rdsinstance_controller.go:365-382 | Without a failed call it goes on exactly over an inventory that is there and ready; one that is not there ends the pass as NotFound with an error, one that is not ready as Unreachable with a requeue |
| `InstanceController.InstancePass.ProvisionDatabase` | controllers/rdsinstance_controller.go:260-292 | Goes on only over a DBInstance that was there, which, left alone, is then as wanted; the phase override is Updating exactly when it was not as wanted before; a new one ends the pass as Creating; unacceptable parameters write nothing and end as a backend error with the error's text behind the prefix |
| `InstanceController.InstancePass.WriteStatus` | controllers/rdsinstance_controller.go:341-350 | A status write that does not fail stores the copy's status and leaves DBInstances and secrets alone |
| `InstanceController.InstancePass.Sync` | controllers/rdsinstance_controller.go:294-352 | The stored status reflects the fetched DBInstance: phase, identifier, flattened status and mirrored conditions; without a failed call it stops exactly when there is no DBInstance |
| `InstanceController.InstancePass.Conclude` | controllers/rdsinstance_controller.go:392-408 | Ready is decided only over the DBInstance fetched at that moment as available; without a failed call the pass over an existing DBInstance ends as its state says, with the phase of that state in the status |
| `InstanceController.InstancePass.Commit` | controllers/rdsinstance_controller.go:173-195 | The deferred write stores verdict and phase override exactly when it does not fail; otherwise the pass asks to be tried again |
| `InstanceController.Reconcile` | controllers/rdsinstance_controller.go:122-409 | Ready is decided only over the DBInstance stored where this RDSInstance provisions, fetched in this pass as available, after CreateOrUpdate found it and reported an update exactly when it was not as wanted; what is committed is that verdict, phase Ready or, exactly after a reported update, Updating, and that DBInstance's identifier and flattened status; left alone it still is stored, as wanted, with its password in place; a pass without a failed call or interference stores True exactly when the inventory is ready, the parameters are acceptable and the DBInstance is available; True never appears in the store otherwise; unacceptable parameters of a live instance write nothing but status; how a pass without a failed call or interference ends (requeue, error, verdict and reason, which the committed condition then reads, and the phase) is told in `Ending` and `EndingPhase` from the state of the DBInstance stored in the namespace of the inventory under the RDSInstance's name; a pass in which a call failed or that commits nothing is tried again, and for an RDSInstance that is gone there is nothing to do |
| `Binding.DataSays` | controllers/rdsconnection_controller.go:314-380 | The binding objects hold exactly user name and password, and type, the provider's name, host, printed port and, if the spec names one or the engine has its own, database |
| `Binding.EndpointSays` | controllers/rdsconnection_controller.go:314-361 | The host is the observed address, and the port reads back as the observed number |
| `Binding.EngineFamilies` | controllers/credential.go:32-85 | User name, database names and binding type, engine family by engine family and for every other engine |
| `Binding.BindingIs` | controllers/rdsconnection_controller.go:291-343 | The two objects are named after the connection, are controlled by it and hold these entries |
| `Binding.PutSecret` | controllers/rdsconnection_controller.go:291-312 | On success the secret was exactly so at a moment of the pass; without a failed call it succeeds exactly where no other controller's secret sits; left alone, it then holds exactly this, and where it is refused no secret changes |
| `Binding.PutConfigMap` | controllers/rdsconnection_controller.go:322-343 | The same for the config map |
| `ConnectionController.FindName` | controllers/rdsconnection_controller.go:147-153 | The name of the first listed instance with the identifier |
| `ConnectionController.NameOf` | controllers/rdsconnection_controller.go:147-159 | A name is found exactly when some listed instance has the identifier, and is the one of the first that has |
| `ConnectionController.ConnectionPass.CheckInventory` | controllers/rdsconnection_controller.go:257-273 | Without a failed call it goes on exactly over an inventory that is there and ready; otherwise the pass ends as NotFound or, with a requeue, as Unreachable |
| `ConnectionController.ConnectionPass.CheckDatabase` | controllers/rdsconnection_controller.go:146-174 | Without a failed call it goes on exactly over the listed DBInstance, fetched as available; otherwise the pass ends as NotFound when none is listed, as a backend error when that one is gone, and as Unreachable in any other state |
| `ConnectionController.ConnectionPass.CheckConnection` | controllers/rdsconnection_controller.go:176-214 | Without a failed call it goes on exactly with a non-empty password in the referred secret, a user name and an endpoint; otherwise the pass ends for the first of them that is missing, as an input error, NotFound or Unreachable |
| `ConnectionController.SecretHolds` | controllers/rdsconnection_controller.go:314-320 | The binding secret holds the user name and the very password in the secret that the DBInstance refers to |
| `ConnectionController.ConnectionPass.LookUp` | controllers/rdsconnection_controller.go:257-289 | Goes on only with the stored inventory the connection refers to, the stored DBInstance that one lists, and the stored secret that one refers to, read in this order; left alone, exactly when there are such |
| `ConnectionController.ConnectionPass.Sync` | controllers/rdsconnection_controller.go:216-244 | Secret, config map, references, at moments one after the other; left alone, exactly when nobody else holds the two objects |
| `ConnectionController.ConnectionPass.Commit` | controllers/rdsconnection_controller.go:125-144 | The deferred write stores verdict and reason, in the CRD's own words, and leaves secrets and config maps alone |
| `ConnectionController.Reconcile` | controllers/rdsconnection_controller.go:91-289 | Ready is decided only in a pass whose run goes through, in this order, the stored ready inventory the connection refers to, the stored available DBInstance it lists under the named identifier, the stored secret with the password that one refers to, and then secret, config map and references with exactly their data; left alone, all of it is looked up in the one state and in place at the end, and nothing but the binding changed; bound or not, the secret then holds what the lookups lead to, exactly if they lead anywhere and nobody else controls it; a pass without a failed call or interference stores True exactly when the connection can be bound; True never appears in the store otherwise; how a pass without a failed call or interference ends (requeue, error, verdict and reason, which the stored condition then reads) is told for every state in `Ending`; a pass in which a call failed or that commits nothing is tried again, and for a connection that is gone there is nothing to do |
| `Watch.ConnectionRequests` | controllers/rdsconnection_controller.go:406-440 | An event enqueues exactly the connections for the DBInstance, each once, and none when the list failed |
| `Watch.EventsReachConnections` | controllers/rdsconnection_controller.go:146-166 | When a connection resolves to a DBInstance through a list in sync, the event enqueues it, if and only if the reference names its namespace or there is none |
| `Watch.EventsAreForConnections` | controllers/rdsconnection_controller.go:406-440 | With unique identifiers only connections that resolve to the DBInstance are enqueued |
| `Watch.InventoryRequests` | controllers/rdsinventory_controller.go:811-833 | An event enqueues exactly the inventories of the namespace, each once |
| `Watch.ProvisionerIsRequested` | controllers/rdsinstance_controller.go:953-967 | An event on a provisioned DBInstance enqueues exactly its RDSInstance |
| `Owner.ParseWritten` | controllers/rdsinstance_controller.go:969-978 | Parsing a written owner gives it back if and only if its namespace has no slash |
| `Owner.OwnerIs` | controllers/rdsinstance_controller.go:953-978 | Whatever the annotations hold, they name an owner exactly when the type is the one asked for and the name is more than white space, and then the one that the text denotes, with or without a namespace |
| `Owner.OwnerRoundTrip` | controllers/rdsinventory_controller.go:230-237 | The owner written among other annotations is read back, for its type and for no other |
| `Owner.OwnersDistinct` | controllers/rdsinventory_controller.go:236-237 | Equal annotations name equal owners |
| `Credential.Shuffle` | controllers/credential.go:61-63 | Every sequence of swaps keeps the multiset of characters |
| `Credential.RearrangedIsAcceptable` | controllers/credential.go:53-65 | Any rearrangement of a filled buffer has a digit, a special, twelve characters of the alphabet and none of the forbidden ones |
| `Credential.AcceptableMeans` | controllers/credential.go:26-65 | Acceptable is, in characters: twelve letters, digits or specials, a digit and a special among them |
| `Credential.GeneratePassword` | controllers/credential.go:53-65 | Every password is acceptable, whatever is drawn and however it is shuffled |
| `Text.ParsePrinted` | controllers/rdsinstance_controller.go:442-445 | Parsing a printed integer gives it back exactly within 64 bits and is an error outside |
| `Text.ParseIntIff` | controllers/rdsinstance_controller.go:438-460 | A text parses as an integer exactly if it is an optional sign before one or more digits that denote that integer, each digit weighing its power of ten, within 64 bits |
| `Text.ParseBoolIff` | controllers/rdsinstance_controller.go:468-474 | A text parses as a flag exactly if it is one of the words for it |
| `Text.DecimalDenotes` | controllers/rdsinstance_controller.go:759 | A printed integer denotes that integer |
| `Text.DigitsInjective` | controllers/rdsinstance_controller.go:640 | Different numbers print differently |
| `Text.JoinSplit` | controllers/rdsinstance_controller.go:476-483 | Joining what was split gives the string back |
| `Text.SplitHasNoSeparator` | controllers/rdsinstance_controller.go:476-483 | No part of a split holds the separator |
| `Text.CutAtFirst` | controllers/rdsinstance_controller.go:970-976 | Cutting in two stops at the first separator |
| `Names.ScalarNamesDiffer` | controllers/rdsinstance_controller.go:611-636 | The keys of the scalar leaves are pairwise distinct and hold no bracket |
| `Names.ListNamesDiffer` | controllers/rdsinstance_controller.go:637-936 | The list prefixes are pairwise distinct and hold no bracket |
| `Status.RenderInjective` | controllers/rdsinstance_controller.go:609-937 | Different field paths have different keys, over every index |
| `Status.ElementKey` | controllers/rdsinstance_controller.go:637-936 | The key of a list element's leaf is the list, the position of the element between brackets, which reads back, and the leaf |
| `Status.PrintKeeps` | controllers/rdsinstance_controller.go:609-937 | The printed leaf is the string or the time, denotes the integer, says the flag |
| `Status.PrintedParses` | controllers/rdsinstance_controller.go:609-937 | A printed integer of 64 bits or flag parses back as itself |
| `Status.ParseDBInstanceStatus` | controllers/rdsinstance_controller.go:609-937 | The loops store each present leaf under its key and nothing else |
| `Status.FlatteningIsLossless` | controllers/rdsinstance_controller.go:609-937 | As many entries as leaves; looking up a path's key gives its printed value, or shows it is absent |
| `Status.FlatteningKeepsValues` | controllers/rdsinstance_controller.go:609-937 | Values too: two statuses whose leaves have the same types and that flatten to the same map are equal |
| `Status.FlatteningIsUnique` | controllers/rdsinstance_controller.go:609-937 | A status has one flattening |

## Left out

- Cache staleness and rate limiting: reads are of the stored state.
- List order: objects are listed in any order, so a settled inventory's status is the same only up to the order of its instances.
- Runs.StatusesAreCommittable: conditions mirrored from ACK keep their status text as ACK reports it, so that it is True, False or Unknown is stated of the operator's own condition only.
- Status messages: symbolic (a constant, an error's text, or one before the other), not formatted strings; the CRD's maximum lengths of reasons and messages are not modelled.
- Labels, kinds and other metadata, except the adopted label, the owner annotations, finalizers and deletion marks.
- Provisioning parameters the controller does not know: it ignores them, and the model has only the known ones.
- Garbage collection: the secret and config map of a deleted connection may go as a change from outside, and so may any secret but one with the password of a DBInstance that was adopted; that one stays when the DBInstance goes, so that one that comes back under the name counts as the same.
- The wait loop of `SetupWithManager`: the operator's start is one change that scales the ACK deployment to zero.
- Names generated for AdoptedResources: never one that was used by an owned resource before.
- The race in the admission check between listing and creating an inventory.
- `Api.Cluster.DescribeDBInstances`: the pages of one listing come from one moment.
- `ConnectionController.ConnectionPass.CheckDatabase`: a DBInstance without a state counts as not available, where the code dereferences the missing state.
- `ConnectionController.ConnectionPass.CheckConnection`: an endpoint without address or port counts as a missing endpoint, where the code dereferences it later.
- `Teardown.ThreePassesFinish`: that marked AdoptedResources drain is a premise, because a restart stops the ACK controller that would remove them.
- Deleting an RDSInstance after its inventory is gone: the readiness check comes first, so the code gives no progress to state.
- `SetOwnerAnnotations` and `SetControllerReference` fail only for a secret or config map that another controller holds.
- The DBaaSProvider controller, CRD installation, the AWS SDK wrapper and manager set-up: registration and wiring.
- That calls can all succeed with nobody interfering: `faults` and `outside` may stay as they are in every call by how `Api.Cluster` is written, but no lemma says that such an execution exists, so `Collisions.ReferenceGoesStale`, `Collisions.TwoPasswordsAreTold` and `Scene.SetScene` say what holds if it does.
- The quality of the randomness: any character in range may be drawn.
- `Names`: the key of a field is the code's own; what is proved of the keys is that no two fields share one.
