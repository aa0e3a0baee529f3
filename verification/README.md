# A verified model of machine-api-provider-gcp

The GCP provider of the OpenShift machine API is a set of reconcile loops that act step by step on a
shared, fallible cloud. This project models its machine actuator, the persistence of the machine
object, the termination handler and the smaller decisions they rest on, and proves what holds on
every run of them.

**Machine actuator.** `CloudModel` is the cloud: instances, target pools, instance groups and backend
services behind calls that may fail before or after their effect. Each operation takes a script of
faults, so a statement for all scripts is a statement about faults at any call; a fault may carry any
error except one that reads as "not found" or "invalid zone" (an honest cloud). Every issued call is
recorded with the cloud it met. `Actuation` holds the operations as functions of that world,
`MachineReconciler` and `MachineActuator` the methods that work step by step on a client and a scope
object, proved equal to them. `Admission` is create() up to its insert call: labels, tags, restart policy,
image and accelerator checks, disks and user data, each decided by its own module from what the services
around the cloud answer. `TargetPools`, `ControlPlane` and `Deletion` say what single operations reach,
`Isolation` what they leave alone, `Reports` what they report, store and call, cause by cause, `Runs`, `Convergence` and `Recreation` what holds over whole runs and
retries, in which operations, moves of the cloud and of other parties, and edits of the spec come in any order. One operation is not interleaved with other
writers of the same resources; `BackendRace` treats the one resource where reconcilers meet, the
backend list, with every interleaving of their calls.

**Persistence.** `Persistence` is the machine scope: open, mutate, then two merge patches (section 2 of
RFC 7396), the object first and the status subresource second, with lost and unanswered patches, crashes,
stale opening copies and other writers in between.

**Termination handler.** `Termination` is `Run` and its worker as two processes that share a one-slot
channel, a wait group and a cancellable context; `NodeMarking` is the rewriting of the node's conditions.

**Smaller cores.** `ImageReference` (image references and the UEFI check), `Quota` and `Accelerators`
(GPU validation), `Conditions`, `LabelsAndTags`, `MachineTypeCache` and `ShieldedConfiguration`.

## What the code turned out not to promise

- A machine whose zone or project is edited can be reported deleted while its instance stays, provider ID
  or not (`Runs.EditedMachineStrands`); `Runs.StrandedExactlyWhen` is the exact condition for an arbitrary
  edit, and `Runs.RecordedIdTellsTheMove` shows that the recorded ID would have told.
- Two masters of one zone reconciled at once can list their group twice, because the second fetch is not
  followed by a second look; `BackendRace.ExactlyForDistinctZones` is the exact condition.
- A master cannot be deleted while its zone's group does not exist (`Deletion.MasterNeedsGroup`);
  `Deletion.DeleteRemovesExactlyWhen` is the exact condition for a removal. A removed master stays in its
  group if and only if it was a member that was not RUNNING (`Deletion.StaysInGroupExactlyWhen`).
- A create() whose insert took effect unanswered is not picked up by a retry of create(): every fault-free
  retry stores Created=False and reports an invalid configuration (`Recreation.RetryOfCreateIsRefused`,
  `Recreation.UnansweredInsert`); `Recreation.CreateSucceedsExactlyWhen` is the exact condition. Updates do
  pick it up.
- Registering a new group panics exactly when the spec has no network interface (`ControlPlane.PanicCondition`).
- A master joins its group only in the update after the one that recorded RUNNING
  (`Convergence.OneUpdateMayNotJoin`); `Convergence.CleanUpdateStores` says when one update is enough.
- The quota check admits every count that overflows int32, and can admit a fraction too much
  (`Quota.CheckIsExactExactlyWhen`); over runs a limit is kept if and only if no request overflows the
  usage it meets (`Quota.CreatesStayWithinExactlyWhen`).
- GPU validation panics when the zone lists an A2 or A3 type without accelerators, whatever machine is being
  validated, and ends the process when the listing fails (`Accelerators.ValidationWaysOut`).
- GPU validation lists the machine types of the project the provider spec names, while quotas and the
  instance belong to the resolved one (`Accelerators.ListingIsTheInstancesExactlyWhen`), and the UEFI check
  reads the provider spec's project where create() uses the resolved one
  (`ImageReference.CheckedImageIsBootedImage`).
- The machine-type cache is exact over a catalogue if and only if the catalogue does not depend on the
  project (`MachineTypeCache.ExactExactlyWhenProjectIndependent`).
- A stop signal during marking can end Run with nil and an unmarked node (`Termination.StopMayAbandonMark`):
  without an acknowledged update if and only if the context for marking was chosen before Run saw the stop
  (`Termination.StopAbandonsExactlyWhen`), and without any write if and only if moreover no unanswered update
  took effect before (`Termination.StopLeavesUnmarkedExactlyWhen`). The comment before the marking step in the source says "FALSE"
  where the code means "TRUE".
- The comment in Close speaks of the status being written first; the code patches the object first.

## Model

| member | source | states |
|---|---|---|
| Runs.EveryWriteJustified | pkg/cloud/gcp/actuators/machine/reconciler.go:451-693 | on every run, with faults at any call and other parties changing anything in the cloud, every write issued was needed and allowed in the cloud it met, and every instance put into a control-plane group has a group that is a backend unless another party took a group or a backend away since |
| Runs.MembershipsStayBacked | pkg/cloud/gcp/actuators/machine/reconciler.go:774-907 | while nobody else takes a group or a backend away, that holds of every instance ever put into a group |
| Runs.DeleteSafety | pkg/cloud/gcp/actuators/machine/reconciler.go:656-693 | with project, zone and name fixed, when Delete returns nil the machine's instance and every one any Create of the run asked for are gone and the link is in none of the spec's pools |
| Runs.AbsenceIsReal | pkg/cloud/gcp/actuators/machine/actuator.go:94-133 | with the place fixed, Exists answers (false, nil) only when no instance of the run exists |
| Runs.RecordedMachineIsNotForgotten | pkg/cloud/gcp/actuators/machine/reconciler.go:662-670 | after arbitrary edits, a machine with a recorded provider ID is never reported deleted while its project or zone does not exist |
| Runs.EditedMachineStrands | pkg/cloud/gcp/actuators/machine/reconciler.go:656-675 | a nil Delete leaves every instance under an old key where it is |
| Runs.StrandedExactlyWhen | pkg/cloud/gcp/actuators/machine/reconciler.go:656-675 | after a clean create and an arbitrary edit of the spec, Delete returns nil, leaving the instance, if and only if the edited machine is valid, its pools exist and it names another existing place without an instance of its name |
| Runs.RecordedIdTellsTheMove | pkg/cloud/gcp/actuators/machine/reconciler.go:514-517 | after a clean create and any edit, the stored provider ID names the edited machine's instance exactly when the edit did not move it |
| Runs.EveryInsertIsSanctioned | pkg/cloud/gcp/actuators/machine/reconciler.go:189-423 | on every run, every instance asked for passed all checks of create(): ownership label and at most 32 user labels, at most 50 resolved tags, shielded settings with disabled flags sent, one GPU kind that passed validation, an image on every boot disk |
| Runs.CreatedImpliesRecorded | pkg/cloud/gcp/actuators/machine/reconciler.go:514-524 | on every run Created=True is never stored without a provider ID, and a recorded ID stays |
| Runs.InsertsStayAtOneKey | pkg/cloud/gcp/actuators/machine/reconciler.go:423 | with the place fixed, every instance asked for lies at the machine's one key |
| Runs.ExecStores | pkg/cloud/gcp/actuators/machine/actuator.go:70-92 | an operation stores the spec it opened, the shielded configuration aside |
| Reports.WhatIsReported | pkg/cloud/gcp/actuators/machine/actuator.go:84-158 | a failed reconcile is reported with its own class whatever the two patches do; one that succeeded is reported as nil exactly if both patches were answered |
| Reports.WhatIsStored | pkg/cloud/gcp/actuators/machine/actuator.go:70-170 | when Create or Update reports nil both patches were answered and the object shows a running instance: ID in the resolved project, addresses, state, name and Created=True; when it requeues with both answered, an instance that does not run yet |
| Reports.CallsAreInTheProject | pkg/cloud/gcp/actuators/machine/machine_scope.go:80-86 | every call of an operation is about the machine's own instance, pools, group and backend service in the project the stored spec names, or the credentials' if it names none |
| Reports.CredentialsDoNotDecide | pkg/cloud/gcp/actuators/machine/machine_scope.go:80-86 | an operation on a spec that names its project is the same with any credentials |
| Reports.RecordedIdIsInTheProject | pkg/cloud/gcp/actuators/machine/machine_scope.go:80-103 | a provider ID that an operation records names the instance in that project |
| Reports.AddressesAreRight | pkg/cloud/gcp/actuators/machine/reconciler.go:489-512 | the internal address, the external ones in order, then the names with zone and project, with project, and plain |
| Reports.MalformedIsRefused | pkg/cloud/gcp/actuators/machine/reconciler.go:588-613 | an empty pool name, a missing cluster label, a model other than Spot, or Spot with preemptible is refused without a call, by exists() as another error |
| Reports.WellFormedIsAskedFor | pkg/cloud/gcp/actuators/machine/reconciler.go:627-632 | any other machine is asked for at its project, zone and name |
| Reports.ErrorsOfExists | pkg/cloud/gcp/actuators/machine/reconciler.go:633-729 | for every error, honest or not: an invalid configuration exactly if a 404 names the project or a 400 the zone, absent exactly for any other 404, else an error |
| Reports.OutcomesOfUpdate | pkg/cloud/gcp/actuators/machine/reconciler.go:451-535 | without faults, exactly when update() refuses, panics, requeues or returns nil |
| Reports.OutcomesOfDelete | pkg/cloud/gcp/actuators/machine/reconciler.go:656-693 | whatever the faults, delete() never reports a configuration error or panics |
| Reports.FailedInsert | pkg/cloud/gcp/actuators/machine/reconciler.go:424-447 | a failed insert of an admitted machine is an invalid configuration exactly for the codes 400 to 499 |
| Reports.RefusalsOfCreate | pkg/cloud/gcp/actuators/machine/reconciler.go:189-402 | a refused machine is not asked for; which class each kind of refusal has |
| Convergence.TwoUpdatesConverge | pkg/cloud/gcp/actuators/machine/reconciler.go:451-468 | from any state, two fault-free updates put the instance into all pools and a master into a registered group, and store ID and condition |
| Convergence.OneUpdateMayNotJoin | pkg/cloud/gcp/actuators/machine/reconciler.go:451-468 | an update opened with a state other than RUNNING never adds the instance to its group, whatever faults it meets |
| Convergence.CleanUpdate | pkg/cloud/gcp/actuators/machine/reconciler.go:451-468 | a fault-free update succeeds, and converges exactly when it was opened with RUNNING, the machine is no master, or the instance was in the group |
| Convergence.UpdateSucceedsExactlyWhen | pkg/cloud/gcp/actuators/machine/reconciler.go:451-535 | without faults, an update returns nil if and only if the machine is valid, its instance runs with an interface, its pools exist and, for a master, its group can be ensured |
| Recreation.CreateSucceedsExactlyWhen | pkg/cloud/gcp/actuators/machine/reconciler.go:189-449 | without faults, create() returns nil or requeues if and only if the machine is valid and admissible, its place exists and holds no instance of its name, and what boots has an interface; an instance already there makes it report an invalid configuration |
| Recreation.RetryOfCreateIsRefused | pkg/cloud/gcp/actuators/machine/reconciler.go:423-447 | a create that finds its instance there stores Created=False, changes nothing in the cloud, and leaves the next one to find the same |
| Recreation.UnansweredInsert | pkg/cloud/gcp/actuators/machine/reconciler.go:423-447 | after an insert that took effect unanswered no retry of create() succeeds, while two fault-free updates converge once the instance runs |
| Convergence.SettledUpdateIsQuiet | pkg/cloud/gcp/actuators/machine/reconciler.go:451-468 | once settled, an update with any honest faults writes nothing |
| Convergence.CleanUpdateStores | pkg/cloud/gcp/actuators/machine/actuator.go:135-170 | a fault-free update records RUNNING, the ID and Created=True, and converges at once exactly under the stated condition on the stored state |
| Convergence.TwoDeletesConverge | pkg/cloud/gcp/actuators/machine/reconciler.go:656-693 | from wherever a run has led, a fault-free Delete stops the instance exactly when it is removable, out of its pools and, if it was RUNNING, of its group; the next one returns nil exactly when the cloud has let the instance go |
| Convergence.RemovableIsDeleted | pkg/cloud/gcp/actuators/machine/reconciler.go:656-693 | a removable instance is reported deleted after two fault-free Deletes with the cloud's letting go in between |
| TargetPools.ProcessPoolsTheorem | pkg/cloud/gcp/actuators/machine/reconciler.go:752-769 | for any pool list and faults: success is exactly the reference outcome, failure leaves each pool untouched or settled, and without faults success means the pools exist |
| TargetPools.SettledMembership | pkg/cloud/gcp/actuators/machine/reconciler.go:752-769 | the reference outcome has the desired membership in every listed pool and every other link as before |
| TargetPools.RetryConverges | pkg/cloud/gcp/actuators/machine/reconciler.go:752-769 | a fault-free retry after any faults reaches what one fault-free run reaches |
| TargetPools.OneWritePerDifferingPool | pkg/cloud/gcp/actuators/machine/reconciler.go:755-767 | a successful run writes once per distinct pool that differs |
| TargetPools.SecondRunIsQuiet | pkg/cloud/gcp/actuators/machine/reconciler.go:760 | after one success a second run writes and changes nothing, whatever faults it meets |
| ControlPlane.EnsureBackendTheorem | pkg/cloud/gcp/actuators/machine/reconciler.go:839-878 | success means the group is a backend; the only possible change is its link appended to a list that lacked it |
| ControlPlane.EnsureBackendCalls | pkg/cloud/gcp/actuators/machine/reconciler.go:786-878 | the calls in order: one look at the list, and if the link is missing a second fetch and the update |
| ControlPlane.MakeGroupTheorem | pkg/cloud/gcp/actuators/machine/reconciler.go:774-784 | success means the group exists; only a missing group is made |
| ControlPlane.EnsureGroupTheorem | pkg/cloud/gcp/actuators/machine/reconciler.go:774-799 | success means the group exists and is a backend; without faults, exactly when the service exists and a missing group can be made |
| ControlPlane.PanicCondition | pkg/cloud/gcp/actuators/machine/reconciler.go:804-817 | under any honest faults the unguarded interface access is reached only when the group is missing and the spec has no interface; without faults exactly then |
| ControlPlane.RegisterTheorem | pkg/cloud/gcp/actuators/machine/reconciler.go:881-907 | success means a registered group that holds the instance if its state was RUNNING, and nothing else changed |
| ControlPlane.UnregisterTheorem | pkg/cloud/gcp/actuators/machine/reconciler.go:910-951 | success means the instance is not among the RUNNING members, and still a member exactly if it was one that was not RUNNING |
| ControlPlane.RegisterKeepsGood | pkg/cloud/gcp/actuators/machine/reconciler.go:881-907 | every write of registering is justified: the group is a backend before the instance joins |
| ControlPlane.UnregisterKeepsGood | pkg/cloud/gcp/actuators/machine/reconciler.go:910-932 | only a RUNNING member is removed |
| Deletion.ExistsTheorem | pkg/cloud/gcp/actuators/machine/reconciler.go:627-653 | each answer of exists() means what it says of the cloud; a validation failure is not an invalid configuration |
| Deletion.PrepareDeleteTheorem | pkg/cloud/gcp/actuators/machine/reconciler.go:656-681 | the instance is removed only out of all pools and, for a master, out of the RUNNING members |
| Deletion.DeleteTheorem | pkg/cloud/gcp/actuators/machine/reconciler.go:656-693 | a nil result means the instance is gone and in no pool, and with a provider ID that its place exists |
| Deletion.DeleteSucceedsExactlyWhen | pkg/cloud/gcp/actuators/machine/reconciler.go:656-693 | the exact condition for a nil result without faults |
| Deletion.DeleteRemovesExactlyWhen | pkg/cloud/gcp/actuators/machine/reconciler.go:656-693 | a removal is reported only of a removable instance, which then is stopped and out of its pools, a master out of its group exactly if it was RUNNING; without faults, exactly of those |
| Deletion.StaysInGroupExactlyWhen | pkg/cloud/gcp/actuators/machine/reconciler.go:910-951 | a removed master is in its group afterwards if and only if it was a member that was not RUNNING |
| Deletion.MasterNeedsGroup | pkg/cloud/gcp/actuators/machine/reconciler.go:676-681 | whatever the faults, a master without its group is neither removed nor reported deleted |
| Isolation.OthersAreLeftAlone | pkg/cloud/gcp/actuators/machine/reconciler.go:451-769 | no operation of a machine, whatever faults it meets, changes another instance or its membership in any pool or group |
| Deletion.ActuatorExistsTheorem | pkg/cloud/gcp/actuators/machine/actuator.go:94-133 | under any faults, a nil error means the answer is true of the cloud, and with a provider ID that its place exists; a phase that is set is kept |
| Deletion.ActuatorExistsExactly | pkg/cloud/gcp/actuators/machine/actuator.go:94-133 | without faults, each answer exactly: a machine whose place does not exist is let go if and only if it is being deleted without a provider ID, and becomes Failed if and only if it had no phase |
| BackendRace.RegistrationsSurvive | pkg/cloud/gcp/actuators/machine/reconciler.go:786-796 | in every interleaving of reconcilers in distinct zones a listed group stays listed, none is listed twice, and a finished reconciler's group is listed exactly once |
| BackendRace.BackendsKeepTheirOrder | pkg/cloud/gcp/actuators/machine/reconciler.go:857-878 | in every interleaving, shared zones included, between foreign rewrites the backend list only grows at its end, by reconcilers' own links |
| BackendRace.ExactlyForDistinctZones | pkg/cloud/gcp/actuators/machine/reconciler.go:786-796 | no group is ever listed twice if and only if no two reconcilers share a zone |
| BackendRace.SharedZoneDuplicates | pkg/cloud/gcp/actuators/machine/reconciler.go:857-878 | two reconcilers of one zone can list their group twice |
| BackendRace.RefusalMeansProgress | pkg/cloud/gcp/actuators/machine/reconciler.go:872-875 | between the fetch and a write refused as stale another reconciler's write took effect or another party rewrote the list |
| BackendRace.SoloIsEnsureBackend | pkg/cloud/gcp/actuators/machine/reconciler.go:839-878 | one reconciler alone does what the sequential operation does |
| BackendRace.EveryRaceEnds | pkg/cloud/gcp/actuators/machine/reconciler.go:786-796 | however a race of n reconcilers in distinct zones has gone so far, at most (3n + 4)n calls that do not fail can follow, (3n + 3)n from the start, and when none is left to make every group is listed exactly once |
| Names.GroupLinkInjective | pkg/cloud/gcp/actuators/machine/reconciler.go:955-977 | within a cluster two zones never share a group link |
| Names.InstanceLinkInjective | pkg/cloud/gcp/actuators/machine/reconciler.go:731-733 | a link of slash-free names determines the instance |
| Names.ProviderIdInjective | pkg/cloud/gcp/actuators/machine/machine_scope.go:103 | a provider ID of slash-free names determines the instance |
| Names.InstanceLinkParts | pkg/cloud/gcp/actuators/machine/reconciler.go:731-733 | the segments of an instance link: project, zone and name in their places after the base of the compute API |
| Names.GroupLinkParts | pkg/cloud/gcp/actuators/machine/reconciler.go:955-977 | the segments of a group link, the last one naming the cluster's masters in the zone |
| Names.ProviderIdParts | pkg/cloud/gcp/actuators/machine/machine_scope.go:103 | the segments of a provider ID: project, zone and name |
| MachineReconciler.Reconciler.InstanceExistsInPool | pkg/cloud/gcp/actuators/machine/reconciler.go:735-748 | reads the pool once and reports membership, or the failure |
| MachineReconciler.Reconciler.ProcessTargetPools | pkg/cloud/gcp/actuators/machine/reconciler.go:752-769 | the loop does what ProcessPools says |
| MachineReconciler.Reconciler.EnsureCorrectNetworkAndSubnetName | pkg/cloud/gcp/actuators/machine/reconciler.go:804-817 | the cluster's own network if an interface uses it, else the first interface's |
| MachineReconciler.Reconciler.UpdateBackendServiceWithInstanceGroup | pkg/cloud/gcp/actuators/machine/reconciler.go:857-878 | does what AppendBackend says |
| MachineReconciler.Reconciler.CheckRegistrationOfBackend | pkg/cloud/gcp/actuators/machine/reconciler.go:839-854 | reads the service once and reports whether the link is listed |
| MachineReconciler.Reconciler.EnsureInstanceGroup | pkg/cloud/gcp/actuators/machine/reconciler.go:774-799 | does what EnsureGroup says |
| MachineReconciler.Reconciler.RegisterInstanceToControlPlaneInstanceGroup | pkg/cloud/gcp/actuators/machine/reconciler.go:881-907 | does what Register says |
| MachineReconciler.Reconciler.UnregisterInstanceFromControlPlaneInstanceGroup | pkg/cloud/gcp/actuators/machine/reconciler.go:910-932 | does what Unregister says |
| MachineReconciler.Reconciler.InstanceExists | pkg/cloud/gcp/actuators/machine/reconciler.go:627-653 | does what Exists says |
| MachineReconciler.Reconciler.DeleteMachine | pkg/cloud/gcp/actuators/machine/reconciler.go:656-693 | does what Delete says |
| MachineReconciler.Reconciler.CollectAddresses | pkg/cloud/gcp/actuators/machine/reconciler.go:489-512 | internal address, external ones in order, then the three DNS names |
| MachineReconciler.Reconciler.ReconcileMachineWithCloudState | pkg/cloud/gcp/actuators/machine/reconciler.go:473-535 | records ID, addresses, state and Created=True from the instance seen, and requeues unless it runs |
| MachineReconciler.Reconciler.UpdateMachine | pkg/cloud/gcp/actuators/machine/reconciler.go:451-468 | does what Update says |
| MachineReconciler.Reconciler.CreateMachine | pkg/cloud/gcp/actuators/machine/reconciler.go:189-449 | does what Create says: the checks' refusal, panic or exit, the failed insert with its condition and error class, or reconciliation |
| Admission.PrepareInstance | pkg/cloud/gcp/actuators/machine/reconciler.go:189-423 | create() up to the insert call does what Settle says |
| Admission.PrepareRest | pkg/cloud/gcp/actuators/machine/reconciler.go:282-402 | from the confidential-computing switch to the user data |
| Admission.AttachAll | pkg/cloud/gcp/actuators/machine/reconciler.go:315-350 | the disks in order; the first that fails decides |
| Admission.CheckRestartPolicy | pkg/cloud/gcp/actuators/machine/reconciler.go:91-107 | the restart policies allowed, and the field they give |
| Admission.AdmittedExactlyWhen | pkg/cloud/gcp/actuators/machine/reconciler.go:189-402 | the instance is asked for if and only if label and tag limits, tag resolution, restart policy, image check, confidential computing, GPU validation, disks and user data all allow it |
| Admission.AdmittedIsSanctioned | pkg/cloud/gcp/actuators/machine/reconciler.go:189-402 | and then with labels and tags by precedence, the settings of the settled shielded configuration, the spec's GPU and every disk with its source image |
| Admission.LabelAndTagRefusals | pkg/cloud/gcp/actuators/machine/reconciler.go:194-235 | unreadable infrastructure, too many labels or tags and unavailable tags are passing errors; missing tags are an invalid configuration |
| Admission.RestartAndImageRefusals | pkg/cloud/gcp/actuators/machine/reconciler.go:237-262 | an impossible restart policy is an invalid configuration, an unreadable boot image a passing error |
| Admission.LaterRefusals | pkg/cloud/gcp/actuators/machine/reconciler.go:282-390 | which class the checks from confidential computing to the user data refuse with, and when they panic or exit |
| Admission.DiskRefusals | pkg/cloud/gcp/actuators/machine/reconciler.go:315-333 | the first disk that cannot be attached decides, by a missing boot image or by its labels |
| MachineActuator.Actuator.CreateMachine | pkg/cloud/gcp/actuators/machine/actuator.go:70-92 | open, create, close even on error, and the reconcile's error wins |
| MachineActuator.Actuator.UpdateMachine | pkg/cloud/gcp/actuators/machine/actuator.go:135-170 | open, update, close even on error |
| MachineActuator.Actuator.MachineExists | pkg/cloud/gcp/actuators/machine/actuator.go:94-133 | open, ask, set the phase of the caller's copy, never close |
| MachineActuator.Actuator.DeleteMachine | pkg/cloud/gcp/actuators/machine/actuator.go:172-192 | open, delete, never close |
| Persistence.CrashConsistency | pkg/cloud/gcp/actuators/machine/machine_scope.go:122-201 | in every interleaving of stale opening, patches lost or unanswered, crashes and other writers, no stored version shows Created=True without a provider ID |
| Persistence.ComputedStatusSurvives | pkg/cloud/gcp/actuators/machine/machine_scope.go:181-201 | in every interleaving with other writers, a status patch that takes effect stores each status field as the same session's Encode computed it if that changed since opening, else as the server has it, although the first response replaced the working copy in between |
| Persistence.EditsSurviveFirstPatch | pkg/cloud/gcp/actuators/machine/machine_scope.go:181-190 | an edit made while a session is open survives: the first patch touches the provider ID and the shielded settings alone, each by itself and only where the session changed it |
| Persistence.PhaseIsLeftAlone | pkg/cloud/gcp/actuators/machine/machine_scope.go:190-201 | the status patch leaves the phase and everything outside the status to whoever wrote it |
| Persistence.CloseStoresEverything | pkg/cloud/gcp/actuators/machine/machine_scope.go:122-179 | with no other writer a Close that returns nil leaves exactly what the scope computed, with a new update time exactly if the provider status or the addresses changed |
| Persistence.RetryStores | pkg/cloud/gcp/actuators/machine/machine_scope.go:122-201 | wherever an earlier attempt stopped, the next complete one stores ID, addresses, state and Created=True |
| Persistence.MachineScope.constructor | pkg/cloud/gcp/actuators/machine/machine_scope.go:60-119 | the scope's copies and the resolved project |
| Persistence.MachineScope.SetMachineStatus | pkg/cloud/gcp/actuators/machine/machine_scope.go:162-179 | the provider status and the update time are written back only if something changed |
| Persistence.MachineScope.PatchMachine | pkg/cloud/gcp/actuators/machine/machine_scope.go:181-201 | the two patches in order, with the status restored between them |
| Persistence.MachineScope.CloseScope | pkg/cloud/gcp/actuators/machine/machine_scope.go:122-148 | does what Close says |
| Termination.WritesOnlyAfterTrue | pkg/termination/termination.go:94-146 | the node is written only after the final check answered TRUE and before Run returned, and then says Terminating with all else kept |
| Termination.NoWriteAfterReturn | pkg/termination/termination.go:82-91 | after Run has returned on either branch the node is not written |
| Termination.SendNeverBlocks | pkg/termination/termination.go:73-80 | the worker's send always finds the slot free |
| Termination.NilIsEarned | pkg/termination/termination.go:88-146 | Run returns nil through the channel if and only if a node update succeeded or the last check answered something other than TRUE; at most 31 attempts |
| Termination.FailedCheckIsReported | pkg/termination/termination.go:98-112 | once a check, polled or final, has failed the node is not written and the only verdict sent, held or returned is a failure |
| Termination.EveryRunAsksFinally | pkg/termination/termination.go:107-114 | however Run returns, the endpoint was asked once more after polling, unless the polling itself failed |
| Termination.MarkingIsRetried | pkg/termination/termination.go:133-143 | while its context lives, a failed marking is tried again exactly up to 31 attempts |
| Termination.NoDeadlock | pkg/termination/termination.go:70-146 | until Run returns one of the two processes can move |
| Termination.StopEndsRun | pkg/termination/termination.go:82-146 | after stop was seen at most 100 further steps are possible, then Run has returned |
| Termination.StopAbandonsExactlyWhen | pkg/termination/termination.go:119-143 | wherever the node is to be marked, the stop can make Run return nil without an acknowledged update if and only if the context for marking was chosen before Run saw the stop; on the background context only the timeout can, however many calls fail |
| Termination.StopLeavesUnmarkedExactlyWhen | pkg/termination/termination.go:119-143 | and with a node that Run never wrote, if and only if moreover nothing had been written so far |
| Termination.EveryAbandonedMark | pkg/termination/termination.go:82-143 | every run that abandons the mark discards a failure, and the marking timed out or was cancelled on a context chosen before the stop was seen |
| Termination.StopMayAbandonMark | pkg/termination/termination.go:119-143 | a run in which the stop alone ends Run with nil and an unmarked node |
| NodeMarking.Node.HasTerminationCondition | pkg/termination/termination.go:195-202 | whether some entry is of the Terminating type |
| NodeMarking.Node.AddTerminationCondition | pkg/termination/termination.go:206-244 | the list becomes the marked list |
| NodeMarking.MarkTheorem | pkg/termination/termination.go:206-244 | all Terminating entries True, True ones untouched, the rest in order, at most one entry more |
| NodeMarking.FreshMarks | pkg/termination/termination.go:206-244 | the entry a mark writes, in place of every Terminating one that was not True, and at the end exactly if there was none |
| NodeMarking.OnlyFirstMarkCounts | pkg/termination/termination.go:206-244 | any number of marks does what the first one did |
| NodeMarking.MarkIsIdempotent | pkg/termination/termination.go:225-243 | a node that says Terminating is left as it is |
| Conditions.HistoryTheorem | pkg/cloud/gcp/actuators/machine/conditions.go:35-65 | for every history: one entry per kind with the last requested content and the time of the earliest call in its trailing stretch of equal status |
| Conditions.ConditionList.Reconcile | pkg/cloud/gcp/actuators/machine/conditions.go:35-65 | the list becomes the reconciled list |
| Conditions.FindCondition | pkg/cloud/gcp/actuators/machine/conditions.go:69-76 | the first entry of a kind |
| ImageReference.ImageRoundTrip | pkg/cloud/gcp/actuators/util/gcp_uefi_disk_check.go:53-100 | parsing a printed image path gives back project and image, after any prefix free of "projects/" |
| ImageReference.FamilyRoundTrip | pkg/cloud/gcp/actuators/util/gcp_uefi_disk_check.go:53-100 | the same for family paths |
| ImageReference.AcceptedPaths | pkg/cloud/gcp/actuators/util/gcp_uefi_disk_check.go:63-99 | the parser accepts only paths that carry the reported parts |
| ImageReference.PathsSpelled | pkg/cloud/gcp/actuators/util/gcp_uefi_disk_check.go:48-52 | the two kinds of paths the round trips are about, spelled out |
| ImageReference.CheckedImageIsBootedImage | pkg/cloud/gcp/actuators/machine/reconciler.go:316-322 | the source image create() builds parses as the simple name with the resolved project; the UEFI check sees the same image exactly when the spec names that project or the image is a path |
| ImageReference.ScanFeatures | pkg/cloud/gcp/actuators/util/gcp_uefi_disk_check.go:108-113 | whether a feature equals UEFI_COMPATIBLE up to case |
| ImageReference.IsUefiCompatible | pkg/cloud/gcp/actuators/util/gcp_uefi_disk_check.go:20-38 | the verdict of the first boot disk, with its errors |
| ImageReference.OnlyFirstBootDiskCounts | pkg/cloud/gcp/actuators/util/gcp_uefi_disk_check.go:20-38 | disks before and after the first boot disk do not matter |
| ImageReference.ImagePathIsJudged | pkg/cloud/gcp/actuators/util/gcp_uefi_disk_check.go:20-113 | a boot disk that names an image path is judged by that image in the path's project |
| ImageReference.FamilyPathIsJudged | pkg/cloud/gcp/actuators/util/gcp_uefi_disk_check.go:20-128 | one that names a family by the family in the machine's zone |
| ImageReference.SimpleNameIsJudged | pkg/cloud/gcp/actuators/util/gcp_uefi_disk_check.go:53-61 | a simple name by the image of that name in the spec's project |
| ImageReference.EqualFoldMeans | pkg/cloud/gcp/actuators/util/gcp_uefi_disk_check.go:109 | the same letters up to case |
| Quota.CheckIsExactExactlyWhen | pkg/cloud/gcp/actuators/machine/reconciler.go:135 | the truncating int32 check equals the exact comparison if and only if nothing overflows and no fraction is lost at the limit |
| Quota.CreatesStayWithinExactlyWhen | pkg/cloud/gcp/actuators/machine/reconciler.go:132-150 | from a whole, representable quota within its limit, any sequence of GPU creates ends within the metric's limit if and only if none of the metric's requests overflows int32 at the usage it meets |
| Quota.WholeQuotas | pkg/cloud/gcp/actuators/machine/reconciler.go:135 | whole quotas are checked exactly up to overflow, and past it everything is admitted |
| Quota.CreateStaysWithinExactlyWhen | pkg/cloud/gcp/actuators/machine/reconciler.go:132-150 | one create from within the limit stays within it exactly when the sum did not overflow |
| Quota.ScanQuotas | pkg/cloud/gcp/actuators/machine/reconciler.go:133-150 | the first quota of the metric decides, and none admits |
| Accelerators.RightDeviceIsExamined | pkg/cloud/gcp/actuators/machine/reconciler.go:154-186 | exactly which machines are skipped and refused; N1 is checked for the spec's GPU, A2 and A3 for the type's own |
| Accelerators.ValidateGuestAccelerators | pkg/cloud/gcp/actuators/machine/reconciler.go:154-186 | does what Validation says for every listing: skip, refuse, panic, exit, or acceptance exactly of a listed N1 machine whose requested GPU passes the quota check and of a listed A2 or A3 machine whose own accelerator passes; the list handed to the quota check is never empty |
| Accelerators.ValidationWaysOut | pkg/cloud/gcp/actuators/machine/reconciler.go:154-186 | the exact conditions under which validation panics, ends the process, skips, or refuses without a listing |
| Accelerators.ListingIsTheInstancesExactlyWhen | pkg/cloud/gcp/actuators/machine/reconciler.go:169 | validation says what the resolved project's listing would make it say, whatever the services answer, if and only if the spec names that project or no listing is needed |
| Accelerators.DecisionMeetsListing | pkg/cloud/gcp/actuators/machine/reconciler.go:154-186 | the decision over the split lists equals acceptance over the zone's listing |
| Accelerators.GpuCompatibleMachineTypes | pkg/cloud/gcp/actuators/services/compute/computeservice.go:131-153 | A2 and A3 types with the first accelerator of their last listing and N1 names in order; a panic exactly on a bare A2 or A3 type, the exit exactly on a failed listing without one |
| Accelerators.CheckQuota | pkg/cloud/gcp/actuators/machine/reconciler.go:109-152 | accepts exactly when region, type, metric and quota allow |
| Accelerators.PassesQuotaExactlyWhen | pkg/cloud/gcp/actuators/machine/reconciler.go:109-152 | what passes: a readable region, an accelerator on offer and supported, and room in the first quota of its metric if there is one, or a sum past int32 |
| Accelerators.ValidationReads | pkg/cloud/gcp/actuators/machine/reconciler.go:109-186 | validation reads the machine types of the spec's project and the zone, the accelerators of the resolved project and the zone, the quotas of the resolved project and the region, and nothing else |
| Accelerators.InterruptibleQuotasAreSeparate | pkg/cloud/gcp/actuators/machine/reconciler.go:123-130 | an interruptible instance never shares a metric with an ordinary one |
| Accelerators.SupportedKinds | pkg/cloud/gcp/actuators/machine/reconciler.go:55-66 | the supported accelerators and the quota each draws on |
| LabelsAndTags.LabelsTheorem | pkg/cloud/gcp/actuators/util/gcp_tags_labels.go:113-130 | refused exactly when the infrastructure cannot be read or more than 32 distinct user keys besides the own label; else each key by precedence and the ownership label present |
| LabelsAndTags.GetInfraResourceLabels | pkg/cloud/gcp/actuators/util/gcp_tags_labels.go:61-69 | the last entry of a key wins |
| LabelsAndTags.InfraLabelsMeans | pkg/cloud/gcp/actuators/util/gcp_tags_labels.go:61-69 | every key of the list and no other, with the value of its last entry |
| LabelsAndTags.MergeLabels | pkg/cloud/gcp/actuators/util/gcp_tags_labels.go:80-109 | the three maps laid over one another |
| LabelsAndTags.GetLabelsList | pkg/cloud/gcp/actuators/util/gcp_tags_labels.go:113-130 | does what LabelsList says |
| LabelsAndTags.MergeInfraProviderSpecTags | pkg/cloud/gcp/actuators/util/gcp_tags_labels.go:193-214 | the spec's tags, then the infrastructure's that no spec tag shadows |
| LabelsAndTags.MergedInOrder | pkg/cloud/gcp/actuators/util/gcp_tags_labels.go:193-214 | the spec's tags come first, then the unshadowed ones of the infrastructure one after the other |
| LabelsAndTags.GetTagValuesNames | pkg/cloud/gcp/actuators/util/gcp_tags_labels.go:154-188 | does what TagValuesNames says |
| LabelsAndTags.GetResourceManagerTags | pkg/cloud/gcp/actuators/util/gcp_tags_labels.go:218-242 | does what ManagerTags says, the unreadable infrastructure included |
| LabelsAndTags.TagsTheorem | pkg/cloud/gcp/actuators/util/gcp_tags_labels.go:154-242 | bindings if and only if at most 50 merged tags all resolve; the configuration error lists exactly the 403/404 names in order, and only when nothing was unavailable; else the first unavailable tag is named |
| LabelsAndTags.InaccessibleInOrder | pkg/cloud/gcp/actuators/util/gcp_tags_labels.go:160-185 | the inaccessible names are collected tag by tag in list order |
| LabelsAndTags.OnlyTagsAreBound | pkg/cloud/gcp/actuators/util/gcp_tags_labels.go:160-187 | nothing is bound but what some tag of the list resolves to |
| LabelsAndTags.NameParts | pkg/cloud/gcp/actuators/util/gcp_tags_labels.go:161 | a tag is looked up by its parent, its key and its value |
| LabelsAndTags.PrecedenceIsKept | pkg/cloud/gcp/actuators/util/gcp_tags_labels.go:154-242 | if pairs resolve apart and the spec repeats none, the bindings hold every spec tag and the last tag of every unshadowed infrastructure pair |
| MachineTypeCache.MachineTypesCache.GetMachineTypeFromCache | pkg/cloud/gcp/actuators/machineset/cache.go:46-68 | answers from the cache or the service, and stores only a found type |
| MachineTypeCache.CacheRefinesDirectLookup | pkg/cloud/gcp/actuators/machineset/cache.go:46-68 | stable lookups are answered as by a direct fetch, or with that call's own error |
| MachineTypeCache.ExactExactlyWhenStable | pkg/cloud/gcp/actuators/machineset/cache.go:46-68 | answers are exact if and only if the lookups are stable |
| MachineTypeCache.FetchedAtMostOnce | pkg/cloud/gcp/actuators/machineset/cache.go:50-53 | a key is fetched successfully at most once |
| MachineTypeCache.OneProjectIsStable | pkg/cloud/gcp/actuators/machineset/cache.go:55-67 | within one project and a growing catalogue lookups are stable, so a type that appears later is found |
| MachineTypeCache.ExactExactlyWhenProjectIndependent | pkg/cloud/gcp/actuators/machineset/cache.go:26-30 | every run is exact if and only if the catalogue does not depend on the project |
| ShieldedConfiguration.ShieldedConfluence | pkg/cloud/gcp/actuators/machine/reconciler.go:251-280 | whenever and however often the template is rewritten and create retried, every instance has the settings of the original template on this image |
| ShieldedConfiguration.DisabledFlagsAreSent | pkg/cloud/gcp/actuators/machine/reconciler.go:273-280 | a flag is force-sent exactly when it is off |
| ShieldedConfiguration.SettingsByImage | pkg/cloud/gcp/actuators/machine/reconciler.go:251-280 | the settings on a UEFI image, on another and for a configuration that was set, spelled out |
| ShieldedConfiguration.RewriteOutlivesImageExactlyWhen | pkg/cloud/gcp/actuators/machineset/controller.go:185-203 | after the controller has read the image, a machine stamped from the template gets that image's settings even from a create() that cannot read it any more, if and only if the image was a legacy one or the configuration was set |
| ShieldedConfiguration.ApplyShieldedConfig | pkg/cloud/gcp/actuators/machine/reconciler.go:220-280 | the stored configuration and the instance settings, or the failed image check |
| ShieldedConfiguration.MachineSet.Reconcile | pkg/cloud/gcp/actuators/machineset/controller.go:134-205 | the template is rewritten exactly for a known type, a legacy image and an untouched configuration |

## Left out

- Each service answers a create() with one state: the infrastructure object, read once for the labels, once for the tags and once per disk, is the same each time, and the reads of the checks before the insert are not on the trace.
- Of the instance create() asks for, network interfaces, service accounts, metadata, disk types and encryption keys: they are only copied.
- MachineReconciler.Reconciler.ReconcileMachineWithCloudState: the machine labels and annotations that setMachineCloudProviderSpecifics copies from the spec are not modelled, because no decision reads them.
- Quota.CreatesStayWithinExactlyWhen: GPU counts are non-negative, as the API requires of a request that is to succeed.
- Persistence.MachineScope.constructor: the failing exits of newMachineScope, undecodable provider parts and unusable credentials, end an operation before it has an effect and are not modelled.
- The JSON and YAML codecs: decoding what was encoded is taken to give it back.
- Concurrent writers of pools, groups and instances inside one actuator operation; the default is one reconcile at a time.
- Asynchronous creation: an inserted instance or group is there at once; deletion is asynchronous.
- Adding a link that is already a group member is taken to succeed.
- Quotas outside the int32 range, where the conversion from float64 depends on the platform: `Quota` states its results for representable ones.
- The HTTP request of the termination check, and timers: a poll or a retry may happen at any time its context allows, and the marking timeout at any time.
- googleapi.ResolveRelative is taken to append the image path to the base path.
- The machine controller that calls the actuator: it is any order of calls.
- The GPU, labels and event parts of the MachineSet reconcile, credentials, feature gates, logging, metrics and events.
