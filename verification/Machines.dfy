/** The machine object, its decoded provider parts, and what the cloud calls read from them. */
module Machines {
  import opened Common
  import opened Conditions
  import Accelerators
  import ImageReference
  import LabelsAndTags
  import Names

  const MASTER := "master"
  const SPOT := "Spot"
  const MACHINE_CREATED := "MachineCreated"

  datatype NetworkInterface = NetworkInterface(network: string, subnetwork: string)

  datatype ShieldedConfig = ShieldedConfig(secureBoot: string, vtpm: string, integrity: string)

  datatype RestartPolicy = RestartUnset | RestartAlways | RestartNever | RestartUnrecognized(text: string)

  datatype ConfidentialCompute =
    | ConfidentialUnset | ConfidentialDisabled | ConfidentialEnabled | Sev | SevSnp | Tdx
    | ConfidentialUnrecognized(text: string)

  /** What only create() reads of a provider spec. */
  datatype VmSpec = VmSpec(
    machineType: string, labels: map<string, string>, tags: seq<LabelsAndTags.Tag>,
    gpus: seq<Accelerators.GpuConfig>, disks: seq<ImageReference.Disk>,
    restartPolicy: RestartPolicy, confidentialCompute: ConfidentialCompute, userDataSecret: Option<string>)

  datatype ProviderSpec = ProviderSpec(
    projectId: string, region: string, zone: string,
    targetPools: seq<string>, networkInterfaces: seq<NetworkInterface>,
    preemptible: bool, provisioningModel: Option<string>,
    shielded: ShieldedConfig, vm: VmSpec)

  datatype Address = Address(kind: string, address: string)

  datatype ProviderStatus = ProviderStatus(
    conditions: seq<Condition>, instanceState: Option<string>, instanceId: Option<string>)

  datatype Status = Status(
    addresses: seq<Address>, provider: ProviderStatus, lastUpdated: Option<int>, phase: Option<string>)

  /** `cluster` and `role` stand for the two labels the actuator reads. */
  datatype Machine = Machine(
    name: string, cluster: string, role: string,
    providerId: Option<string>, spec: ProviderSpec, status: Status)

  /** What a reconcile works for: the resolved project, the machine's identity and its provider spec. */
  datatype Target = Target(project: string, name: string, cluster: string, role: string, spec: ProviderSpec)

  function Link(t: Target): string {
    Names.InstanceLink(t.project, t.spec.zone, t.name)
  }

  function GroupLink(t: Target): string {
    Names.GroupLink(t.project, t.spec.zone, t.cluster)
  }

  /** validateMachine. */
  predicate Valid(t: Target) {
    && "" !in t.spec.targetPools
    && t.cluster != ""
    && (t.spec.provisioningModel.Some? ==> t.spec.provisioningModel.value == SPOT)
    && !(t.spec.preemptible && t.spec.provisioningModel == Some(SPOT))
  }

  /** Preemptible or spot. */
  predicate Interruptible(spec: ProviderSpec) {
    spec.preemptible || spec.provisioningModel == Some(SPOT)
  }

  /** The condition list claims that the instance was created. */
  ghost predicate ShowsCreated(conditions: seq<Condition>) {
    exists i :: 0 <= i < |conditions| && conditions[i].kind == MACHINE_CREATED && conditions[i].status == "True"
  }
}
