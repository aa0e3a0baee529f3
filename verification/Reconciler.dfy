/**
 The reconciler as the source writes it: methods that call the cloud client step by step and
 overwrite the scope's fields, each proved to do what the corresponding function of Actuation says.
 */
module MachineReconciler {
  import opened Common
  import opened Conditions
  import opened Machines
  import opened CloudModel
  import opened Actuation
  import opened Admission
  import opened Persistence
  import Names

  class Reconciler {
    const scope: MachineScope
    const service: ComputeService

    constructor (scope: MachineScope, service: ComputeService)
      ensures this.scope == scope && this.service == service
    {
      this.scope := scope;
      this.service := service;
    }

    function T(): Target
      reads scope
    {
      TargetOf(scope.Value())
    }

    /** None when the pool could not be read. */
    method InstanceExistsInPool(link: string, pool: string) returns (present: Option<bool>)
      modifies service
      ensures var (w, got) := Issue(old(service.world), T(), PoolGet(PoolOf(T(), pool)));
        && service.world == w
        && present == if got.Failed? then None else Some(link in got.links)
    {
      var got := service.Do(T(), PoolGet(PoolOf(T(), pool)));
      if got.Failed? {
        return None;
      }
      for i := 0 to |got.links|
        invariant link !in got.links[..i]
      {
        if got.links[i] == link {
          return Some(true);
        }
      }
      assert got.links[..|got.links|] == got.links;
      return Some(false);
    }

    method ProcessTargetPools(desired: bool) returns (outcome: Outcome)
      modifies service
      ensures (service.world, outcome) == ProcessPools(old(service.world), T(), scope.providerSpec.targetPools, desired)
    {
      var link := Names.InstanceLink(scope.project, scope.providerSpec.zone, scope.machine.name);
      var pools := scope.providerSpec.targetPools;
      for i := 0 to |pools|
        invariant ProcessPools(old(service.world), T(), pools, desired) ==
                  ProcessPools(service.world, T(), pools[i..], desired)
      {
        assert pools[i..][0] == pools[i] && pools[i..][1..] == pools[i + 1..];
        var present := InstanceExistsInPool(link, pools[i]);
        if present.None? {
          return OtherError;
        }
        if present.value != desired {
          var pool := PoolOf(T(), pools[i]);
          var done := service.Do(T(), if desired then PoolAdd(pool, link) else PoolRemove(pool, link));
          if done.Failed? {
            return OtherError;
          }
        }
      }
      return Success;
    }

    method EnsureCorrectNetworkAndSubnetName() returns (n: NetworkInterface)
      requires scope.providerSpec.networkInterfaces != []
      ensures n == GroupNetwork(T())
    {
      var interfaces := scope.providerSpec.networkInterfaces;
      var own := NetworkInterface(scope.machine.cluster + "-network",
                                  scope.machine.cluster + "-" + scope.machine.role + "-subnet");
      for i := 0 to |interfaces|
        invariant own !in interfaces[..i]
      {
        if interfaces[i] == own {
          return own;
        }
      }
      assert interfaces[..|interfaces|] == interfaces;
      return interfaces[0];
    }

    method UpdateBackendServiceWithInstanceGroup() returns (outcome: Outcome)
      modifies service
      ensures (service.world, outcome) == AppendBackend(old(service.world), T())
    {
      var got := service.Do(T(), ServiceGet(ServiceOf(T())));
      if got.Failed? {
        return OtherError;
      }
      var body := got.body.(backends := got.body.backends + [GroupLink(T())]);
      var done := service.Do(T(), ServiceUpdate(ServiceOf(T()), body));
      if done.Failed? {
        return OtherError;
      }
      return Success;
    }

    /** None when the backend service could not be read. */
    method CheckRegistrationOfBackend() returns (registered: Option<bool>)
      modifies service
      ensures var (w, got) := Issue(old(service.world), T(), ServiceGet(ServiceOf(T())));
        && service.world == w
        && registered == if got.Failed? then None else Some(GroupLink(T()) in got.body.backends)
    {
      var got := service.Do(T(), ServiceGet(ServiceOf(T())));
      if got.Failed? {
        return None;
      }
      var backends := got.body.backends;
      for i := 0 to |backends|
        invariant GroupLink(T()) !in backends[..i]
      {
        if backends[i] == GroupLink(T()) {
          return Some(true);
        }
      }
      assert backends[..|backends|] == backends;
      return Some(false);
    }

    method EnsureInstanceGroup() returns (outcome: Outcome)
      modifies service
      ensures (service.world, outcome) == EnsureGroup(old(service.world), T())
    {
      var got := service.Do(T(), GroupGet(GroupOf(T())));
      if got.Failed? && IsNotFound(got.error) {
        if scope.providerSpec.networkInterfaces == [] {
          return Panic;
        }
        var network := EnsureCorrectNetworkAndSubnetName();
        var done := service.Do(T(), GroupInsert(GroupOf(T()), network));
        if done.Failed? {
          return OtherError;
        }
      } else if got.Failed? {
        return OtherError;
      }
      var registered := CheckRegistrationOfBackend();
      if registered.None? {
        return OtherError;
      }
      if !registered.value {
        outcome := UpdateBackendServiceWithInstanceGroup();
        return;
      }
      return Success;
    }

    method RegisterInstanceToControlPlaneInstanceGroup() returns (outcome: Outcome)
      modifies service
      ensures (service.world, outcome) == Register(old(service.world), T(), scope.providerStatus.instanceState)
    {
      outcome := EnsureInstanceGroup();
      if outcome != Success {
        return;
      }
      var got := service.Do(T(), GroupList(GroupOf(T())));
      if got.Failed? {
        return OtherError;
      }
      if Link(T()) !in got.running && scope.providerStatus.instanceState == Some(RUNNING) {
        var done := service.Do(T(), GroupAdd(GroupOf(T()), Link(T())));
        if done.Failed? {
          return OtherError;
        }
      }
      return Success;
    }

    method UnregisterInstanceFromControlPlaneInstanceGroup() returns (outcome: Outcome)
      modifies service
      ensures (service.world, outcome) == Unregister(old(service.world), T())
    {
      var got := service.Do(T(), GroupList(GroupOf(T())));
      if got.Failed? {
        return OtherError;
      }
      if |got.running| > 0 && Link(T()) in got.running {
        var done := service.Do(T(), GroupRemove(GroupOf(T()), Link(T())));
        if done.Failed? {
          return OtherError;
        }
      }
      return Success;
    }

    method InstanceExists() returns (found: bool, answer: Outcome)
      modifies service
      ensures (service.world, found, answer) == Exists(old(service.world), T())
    {
      if !Valid(T()) {
        return false, OtherError;
      }
      var got := service.Do(T(), InstancesGet(KeyOf(T())));
      if got.Failed? {
        if IsProjectNotFound(got.error, scope.project) {
          return false, InvalidConfiguration;
        }
        if IsInvalidZone(got.error) {
          return false, InvalidConfiguration;
        }
        if IsNotFound(got.error) {
          return false, Success;
        }
        return false, OtherError;
      }
      return true, Success;
    }

    method DeleteMachine() returns (outcome: Outcome)
      modifies service
      ensures (service.world, outcome) == Delete(old(service.world), T(), scope.machine.providerId)
    {
      outcome := ProcessTargetPools(false);
      if outcome != Success {
        return;
      }
      var found, answer := InstanceExists();
      if scope.machine.providerId.Some? && answer == InvalidConfiguration {
        return OtherError;
      }
      if answer != Success && answer != InvalidConfiguration {
        return answer;
      }
      if !found {
        return Success;
      }
      if scope.machine.role == MASTER {
        outcome := UnregisterInstanceFromControlPlaneInstanceGroup();
        if outcome != Success {
          return;
        }
      }
      var done := service.Do(T(), InstancesDelete(KeyOf(T())));
      if done.Failed? {
        return OtherError;
      }
      return RequeueAfter;
    }

    method CollectAddresses(nic: Nic) returns (addresses: seq<Address>)
      ensures addresses == NodeAddresses(T(), nic)
    {
      addresses := [Address("InternalIP", nic.ip)];
      for i := 0 to |nic.natIps|
        invariant addresses + ExternalAddresses(nic.natIps[i..]) ==
                  [Address("InternalIP", nic.ip)] + ExternalAddresses(nic.natIps)
      {
        assert nic.natIps[i..][1..] == nic.natIps[i + 1..];
        addresses := addresses + [Address("ExternalIP", nic.natIps[i])];
      }
      addresses := addresses +
        [Address("InternalDNS",
                 scope.machine.name + "." + scope.providerSpec.zone + ".c." + scope.project + ".internal"),
         Address("InternalDNS", scope.machine.name + ".c." + scope.project + ".internal"),
         Address("InternalDNS", scope.machine.name)];
    }

    /** reconcileMachineWithCloudState without a failed condition. */
    method ReconcileMachineWithCloudState(now: int) returns (outcome: Outcome)
      modifies service, scope`machine, scope`providerStatus
      ensures (service.world, scope.Value(), outcome) == ReconcileWithCloud(old(service.world), old(scope.Value()), now)
    {
      var got := service.Do(T(), InstancesGet(KeyOf(T())));
      if got.Failed? {
        return OtherError;
      }
      if |got.instance.nics| < 1 {
        return OtherError;
      }
      var addresses := CollectAddresses(got.instance.nics[0]);
      var list := new ConditionList(scope.providerStatus.conditions);
      scope.machine := scope.machine.(
        providerId := Some(Names.ProviderId(scope.project, scope.providerSpec.zone, scope.machine.name)),
        status := scope.machine.status.(addresses := addresses));
      list.Reconcile(CREATED, now);
      scope.providerStatus := ProviderStatus(list.items, Some(got.instance.status), Some(scope.machine.name));
      if got.instance.status != RUNNING {
        return RequeueAfter;
      }
      return Success;
    }

    method UpdateMachine(now: int) returns (outcome: Outcome)
      modifies service, scope`machine, scope`providerStatus
      ensures (service.world, scope.Value(), outcome) == Update(old(service.world), old(scope.Value()), now)
    {
      if !Valid(T()) {
        return InvalidConfiguration;
      }
      outcome := ProcessTargetPools(true);
      if outcome != Success {
        return;
      }
      if scope.machine.role == MASTER {
        outcome := RegisterInstanceToControlPlaneInstanceGroup();
        if outcome != Success {
          return;
        }
      }
      outcome := ReconcileMachineWithCloudState(now);
    }

    method CreateMachine(boots: Instance, message: string, now: int) returns (outcome: Outcome)
      modifies service, scope`machine, scope`providerStatus, scope`providerSpec
      ensures (service.world, scope.Value(), outcome) ==
              Create(old(service.world), old(scope.Value()), boots, message, now)
    {
      if !Valid(T()) {
        return InvalidConfiguration;
      }
      var shielded, verdict := PrepareInstance(service.world.cloud.around, T());
      scope.providerSpec := scope.providerSpec.(shielded := shielded);
      if !verdict.Admitted? {
        return RefusalOutcome(verdict);
      }
      var done := service.Do(T(), InstancesInsert(KeyOf(T()), boots, verdict.body));
      if done.Failed? {
        var list := new ConditionList(scope.providerStatus.conditions);
        list.Reconcile(CreationFailed(message), now);
        scope.providerStatus := scope.providerStatus.(conditions := list.items);
        return if IsClientError(done.error) then InvalidConfiguration else OtherError;
      }
      outcome := ReconcileMachineWithCloudState(now);
    }
  }
}
