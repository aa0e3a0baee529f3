/**
 The reconciler's operations as functions of the world they meet: each returns the world it
 leaves, with every call it made on the trace, and the error class it reports.
 */
module Actuation {
  import opened Common
  import opened Conditions
  import opened Machines
  import opened CloudModel
  import opened Admission
  import Names

  /**
   nil, the requeue error, the invalid-configuration error, any other error, a run-time panic, or the
   exit of the whole process.
   */
  datatype Outcome = Success | RequeueAfter | InvalidConfiguration | OtherError | Panic | Exit

  // ----- target pools -----

  function ProcessPools(w: World, t: Target, pools: seq<string>, desired: bool): (r: (World, Outcome))
    ensures r.0.since == w.since
    decreases |pools|
  {
    if pools == [] then (w, Success)
    else
      var pool := PoolOf(t, pools[0]);
      var (w1, got) := Issue(w, t, PoolGet(pool));
      if got.Failed? then (w1, OtherError)
      else if (Link(t) in got.links) == desired then ProcessPools(w1, t, pools[1..], desired)
      else
        var (w2, done) := Issue(w1, t, if desired then PoolAdd(pool, Link(t)) else PoolRemove(pool, Link(t)));
        if done.Failed? then (w2, OtherError) else ProcessPools(w2, t, pools[1..], desired)
  }

  // ----- the control-plane instance group -----

  /** The network a new group is attached to: the cluster's own when an interface uses it, else the first one's. */
  function GroupNetwork(t: Target): (n: NetworkInterface)
    requires t.spec.networkInterfaces != []
  {
    var own := NetworkInterface(t.cluster + "-network", t.cluster + "-" + t.role + "-subnet");
    if own in t.spec.networkInterfaces then own else t.spec.networkInterfaces[0]
  }

  function AppendBackend(w: World, t: Target): (r: (World, Outcome))
    ensures r.0.since == w.since
  {
    var (w1, got) := Issue(w, t, ServiceGet(ServiceOf(t)));
    if got.Failed? then (w1, OtherError)
    else
      var body := got.body.(backends := got.body.backends + [GroupLink(t)]);
      var (w2, done) := Issue(w1, t, ServiceUpdate(ServiceOf(t), body));
      (w2, if done.Failed? then OtherError else Success)
  }

  function EnsureBackend(w: World, t: Target): (r: (World, Outcome))
    ensures r.0.since == w.since
  {
    var (w1, got) := Issue(w, t, ServiceGet(ServiceOf(t)));
    if got.Failed? then (w1, OtherError)
    else if GroupLink(t) in got.body.backends then (w1, Success)
    else AppendBackend(w1, t)
  }

  /** The group exists afterwards, made if it was not found. */
  function MakeGroup(w: World, t: Target): (r: (World, Outcome))
    ensures r.0.since == w.since
  {
    var (w1, got) := Issue(w, t, GroupGet(GroupOf(t)));
    if !got.Failed? then (w1, Success)
    else if !IsNotFound(got.error) then (w1, OtherError)
    else if t.spec.networkInterfaces == [] then (w1, Panic)
    else
      var (w2, done) := Issue(w1, t, GroupInsert(GroupOf(t), GroupNetwork(t)));
      (w2, if done.Failed? then OtherError else Success)
  }

  function EnsureGroup(w: World, t: Target): (r: (World, Outcome))
    ensures r.0.since == w.since
  {
    var (w1, made) := MakeGroup(w, t);
    if made != Success then (w1, made) else EnsureBackend(w1, t)
  }

  function JoinGroup(w: World, t: Target, instanceState: Option<string>): (r: (World, Outcome))
    ensures r.0.since == w.since
  {
    var (w1, got) := Issue(w, t, GroupList(GroupOf(t)));
    if got.Failed? then (w1, OtherError)
    else if Link(t) !in got.running && instanceState == Some(RUNNING) then
      var (w2, done) := Issue(w1, t, GroupAdd(GroupOf(t), Link(t)));
      (w2, if done.Failed? then OtherError else Success)
    else (w1, Success)
  }

  function Register(w: World, t: Target, instanceState: Option<string>): (r: (World, Outcome))
    ensures r.0.since == w.since
  {
    var (w1, ensured) := EnsureGroup(w, t);
    if ensured != Success then (w1, ensured) else JoinGroup(w1, t, instanceState)
  }

  function Unregister(w: World, t: Target): (r: (World, Outcome))
    ensures r.0.since == w.since
  {
    var (w1, got) := Issue(w, t, GroupList(GroupOf(t)));
    if got.Failed? then (w1, OtherError)
    else if Link(t) in got.running then
      var (w2, done) := Issue(w1, t, GroupRemove(GroupOf(t), Link(t)));
      (w2, if done.Failed? then OtherError else Success)
    else (w1, Success)
  }

  // ----- exists and delete -----

  /** A validation failure is wrapped so that it no longer reads as an invalid configuration. */
  function Exists(w: World, t: Target): (r: (World, bool, Outcome))
    ensures r.0.since == w.since
  {
    if !Valid(t) then (w, false, OtherError)
    else
      var (w1, got) := Issue(w, t, InstancesGet(KeyOf(t)));
      if !got.Failed? then (w1, true, Success)
      else if IsProjectNotFound(got.error, t.project) then (w1, false, InvalidConfiguration)
      else if IsInvalidZone(got.error) then (w1, false, InvalidConfiguration)
      else if IsNotFound(got.error) then (w1, false, Success)
      else (w1, false, OtherError)
  }

  /** Actuator.Exists: also the phase it leaves on the caller's copy of the machine. */
  function ActuatorExists(w: World, t: Target, phase: Option<string>, providerId: Option<string>)
    : (World, bool, Outcome, Option<string>)
  {
    var (w1, found, answer) := Exists(w, t);
    if answer != InvalidConfiguration then (w1, found, answer, phase)
    else
      var phase' := if phase.None? then Some("Failed") else phase;
      if phase' == Some("Deleting") && providerId.None? then (w1, false, Success, phase')
      else (w1, found, answer, phase')
  }

  /** Everything delete() does up to the decision to remove the instance: `Success` with `true` means remove it. */
  function PrepareDelete(w: World, t: Target, providerId: Option<string>): (r: (World, bool, Outcome))
    ensures r.0.since == w.since
  {
    var (w1, pools) := ProcessPools(w, t, t.spec.targetPools, false);
    if pools != Success then (w1, false, pools)
    else
      var (w2, found, answer) := Exists(w1, t);
      if providerId.Some? && answer == InvalidConfiguration then (w2, false, OtherError)
      else if answer != Success && answer != InvalidConfiguration then (w2, false, answer)
      else if !found then (w2, false, Success)
      else if t.role == MASTER then
        var (w3, left) := Unregister(w2, t);
        (w3, left == Success, left)
      else (w2, true, Success)
  }

  function Delete(w: World, t: Target, providerId: Option<string>): (r: (World, Outcome))
    ensures r.0.since == w.since
  {
    var (w1, remove, outcome) := PrepareDelete(w, t, providerId);
    if !remove then (w1, outcome)
    else
      var (w2, done) := Issue(w1, t, InstancesDelete(KeyOf(t)));
      (w2, if done.Failed? then OtherError else RequeueAfter)
  }

  // ----- the machine scope and reconciliation with the cloud -----

  /** An opened scope: the working copy of the machine, the decoded provider parts and the copy taken at opening. */
  datatype Scope = Scope(
    project: string, machine: Machine, providerSpec: ProviderSpec, providerStatus: ProviderStatus, orig: Machine)

  function Open(stored: Machine, credentialProject: string): Scope {
    Scope(if stored.spec.projectId == "" then credentialProject else stored.spec.projectId,
          stored, stored.spec, stored.status.provider, stored)
  }

  function TargetOf(s: Scope): Target {
    Target(s.project, s.machine.name, s.machine.cluster, s.machine.role, s.providerSpec)
  }

  function ExternalAddresses(natIps: seq<string>): seq<Address> {
    if natIps == [] then [] else [Address("ExternalIP", natIps[0])] + ExternalAddresses(natIps[1..])
  }

  function NodeAddresses(t: Target, nic: Nic): seq<Address> {
    [Address("InternalIP", nic.ip)] + ExternalAddresses(nic.natIps) +
    [Address("InternalDNS", t.name + "." + t.spec.zone + ".c." + t.project + ".internal"),
     Address("InternalDNS", t.name + ".c." + t.project + ".internal"),
     Address("InternalDNS", t.name)]
  }

  const CREATED := Request(MACHINE_CREATED, "True", "MachineCreationSucceeded", "machine successfully created")

  function CreationFailed(message: string): Request {
    Request(MACHINE_CREATED, "False", "MachineCreationFailed", message)
  }

  /** The scope after the cloud showed the instance. */
  function Observed(s: Scope, instance: Instance, now: int): Scope
    requires instance.nics != []
  {
    var t := TargetOf(s);
    s.(machine := s.machine.(
         providerId := Some(Names.ProviderId(s.project, s.providerSpec.zone, s.machine.name)),
         status := s.machine.status.(addresses := NodeAddresses(t, instance.nics[0]))),
       providerStatus := ProviderStatus(
         Reconciled(s.providerStatus.conditions, CREATED, now), Some(instance.status), Some(s.machine.name)))
  }

  function ReconcileWithCloud(w: World, s: Scope, now: int): (r: (World, Scope, Outcome))
    ensures r.0.since == w.since
  {
    var (w1, got) := Issue(w, TargetOf(s), InstancesGet(KeyOf(TargetOf(s))));
    if got.Failed? then (w1, s, OtherError)
    else if got.instance.nics == [] then (w1, s, OtherError)
    else (w1, Observed(s, got.instance, now), if got.instance.status == RUNNING then Success else RequeueAfter)
  }

  function Update(w: World, s: Scope, now: int): (r: (World, Scope, Outcome))
    ensures r.0.since == w.since
  {
    var t := TargetOf(s);
    if !Valid(t) then (w, s, InvalidConfiguration)
    else
      var (w1, pools) := ProcessPools(w, t, t.spec.targetPools, true);
      if pools != Success then (w1, s, pools)
      else if t.role == MASTER then
        var (w2, registered) := Register(w1, t, s.providerStatus.instanceState);
        if registered != Success then (w2, s, registered) else ReconcileWithCloud(w2, s, now)
      else ReconcileWithCloud(w1, s, now)
  }

  function LeadingDigit(n: nat): nat {
    if n < 10 then n else LeadingDigit(n / 10)
  }

  /** The status code, printed in decimal, starts with a 4. */
  predicate IsClientError(e: ApiError) {
    e.GoogleError? && e.code > 0 && LeadingDigit(e.code) == 4
  }

  /** What create() returns when its checks did not admit the machine. */
  function RefusalOutcome(verdict: Verdict): Outcome
    requires !verdict.Admitted?
  {
    match verdict
    case RefusedAsInvalid => InvalidConfiguration
    case RefusedOtherwise => OtherError
    case ChecksPanic => Panic
    case ChecksExit => Exit
  }

  /** `boots` is what the cloud starts if the insert takes effect, `message` the text of its error otherwise. */
  ghost function Create(w: World, s: Scope, boots: Instance, message: string, now: int): (r: (World, Scope, Outcome))
    ensures r.0.since == w.since
  {
    if !Valid(TargetOf(s)) then (w, s, InvalidConfiguration)
    else CreateSettled(w, s, Settle(w.cloud.around, TargetOf(s)), boots, message, now)
  }

  /** create() once its checks have settled the shielded configuration and their verdict. */
  function CreateSettled(w: World, s: Scope, settled: (ShieldedConfig, Verdict),
                         boots: Instance, message: string, now: int)
    : (r: (World, Scope, Outcome))
    ensures r.0.since == w.since
  {
    var s1 := s.(providerSpec := s.providerSpec.(shielded := settled.0));
    if !settled.1.Admitted? then (w, s1, RefusalOutcome(settled.1))
    else AskFor(w, s1, boots, settled.1.body, message, now)
  }

  /** The insert call and what follows it. */
  function AskFor(w: World, s: Scope, boots: Instance, body: InstanceBody, message: string, now: int)
    : (r: (World, Scope, Outcome))
    ensures r.0.since == w.since
  {
    var t := TargetOf(s);
    var (w1, done) := Issue(w, t, InstancesInsert(KeyOf(t), boots, body));
    if done.Failed? then
      var conditions := Reconciled(s.providerStatus.conditions, CreationFailed(message), now);
      (w1, s.(providerStatus := s.providerStatus.(conditions := conditions)),
       if IsClientError(done.error) then InvalidConfiguration else OtherError)
    else ReconcileWithCloud(w1, s, now)
  }
}
