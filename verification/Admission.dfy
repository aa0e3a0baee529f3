/**
 What create() settles before it asks for the instance: labels, tags, restart policy, shielded
 settings, accelerators, disks and user data, each from what the surrounding services answer.
 */
module Admission {
  import opened Common
  import opened Machines
  import opened LabelsAndTags
  import opened Accelerators
  import opened ImageReference
  import opened ShieldedConfiguration

  /** What the API server, the tag service and the read-only parts of the compute service answer. */
  datatype Surroundings = Surroundings(
    infra: Option<Infrastructure>, tagService: map<string, TagAnswer>,
    images: ImageService, basePath: string, compute: ComputeAnswers,
    secrets: set<string>)   // the user-data secrets that can be read and have the expected field

  datatype AttachedDisk = AttachedDisk(
    boot: bool, sourceImage: string, labels: map<string, string>, tags: map<string, string>)

  /** The instance create() asks for. */
  datatype InstanceBody = InstanceBody(
    labels: map<string, string>, tags: map<string, string>, automaticRestart: Option<bool>,
    settings: InstanceSettings, accelerators: seq<GpuConfig>, disks: seq<AttachedDisk>)

  datatype Verdict = Admitted(body: InstanceBody) | RefusedAsInvalid | RefusedOtherwise | ChecksPanic | ChecksExit

  // ----- the single checks -----

  predicate RestartAllowed(spec: ProviderSpec) {
    !spec.vm.restartPolicy.RestartUnrecognized? && (spec.vm.restartPolicy.RestartAlways? ==> !Interruptible(spec))
  }

  function AutomaticRestart(policy: RestartPolicy): Option<bool> {
    if policy.RestartUnset? then None else Some(policy.RestartAlways?)
  }

  /** The UEFI check is given the project the spec names. */
  ghost function BootVerdict(a: Surroundings, t: Target): Result<bool, UefiError> {
    UefiVerdict(a.images, t.spec.vm.disks, t.spec.projectId, t.spec.zone)
  }

  ghost function BootImage(a: Surroundings, t: Target): Image {
    match BootVerdict(a, t)
    case Err(_) => Unreadable
    case Ok(uefi) => if uefi then Uefi else Legacy
  }

  function GpuMachineOf(t: Target): GpuMachine {
    GpuMachine(t.spec.projectId, t.project, t.spec.region, t.spec.zone, t.spec.vm.machineType, t.spec.vm.gpus,
               Interruptible(t.spec))
  }

  datatype Disks = Attached(disks: seq<AttachedDisk>) | NoBootImage | DiskLabelsFailed

  function Followed(done: seq<AttachedDisk>, rest: Disks): Disks {
    if rest.Attached? then Attached(done + rest.disks) else rest
  }

  function AttachDisk(a: Surroundings, t: Target, tags: map<string, string>, disk: Disk): Disks {
    var labels := LabelsList(t.cluster, disk.labels, a.infra);
    if disk.image == "" && disk.boot then NoBootImage
    else if labels.None? then DiskLabelsFailed
    else
      var source := if disk.image == "" then "" else SourceImage(a.basePath, t.project, disk.image);
      Attached([AttachedDisk(disk.boot, source, labels.value, tags)])
  }

  /** One disk after the other; the first that fails decides. */
  function Gather(attach: Disk -> Disks, disks: seq<Disk>): Disks {
    if disks == [] then Attached([])
    else
      var first := attach(disks[0]);
      if !first.Attached? then first else Followed(first.disks, Gather(attach, disks[1..]))
  }

  function AttachDisks(a: Surroundings, t: Target, tags: map<string, string>, disks: seq<Disk>): Disks {
    Gather((disk: Disk) => AttachDisk(a, t, tags, disk), disks)
  }

  // ----- in order -----

  /** From the confidential-computing switch on, given what GPU validation and the disks gave. */
  function RestVerdict(a: Surroundings, t: Target, labels: map<string, string>, tags: map<string, string>,
                       gpus: GpuVerdict, disks: Disks): Verdict
  {
    var vm := t.spec.vm;
    if vm.confidentialCompute.ConfidentialUnrecognized? || |vm.gpus| > 1 || gpus == Refused then RefusedAsInvalid
    else if gpus == Panics then ChecksPanic
    else if gpus == Exits then ChecksExit
    else if disks.NoBootImage? then RefusedAsInvalid
    else if disks.DiskLabelsFailed? then RefusedOtherwise
    else if vm.userDataSecret.Some? && vm.userDataSecret.value !in a.secrets then RefusedOtherwise
    else Admitted(InstanceBody(
           labels, tags, AutomaticRestart(vm.restartPolicy), Settings(t.spec.shielded), vm.gpus, disks.disks))
  }

  ghost function SettleRest(a: Surroundings, t: Target, labels: map<string, string>, tags: map<string, string>)
    : Verdict
  {
    RestVerdict(a, t, labels, tags, Validation(a.compute, GpuMachineOf(t)), AttachDisks(a, t, tags, t.spec.vm.disks))
  }

  function WithShielded(t: Target, shielded: ShieldedConfig): Target {
    t.(spec := t.spec.(shielded := shielded))
  }

  /** The shielded configuration create() leaves in the spec, and its verdict. */
  ghost function Settle(a: Surroundings, t: Target): (ShieldedConfig, Verdict) {
    var kept := t.spec.shielded;
    var labels := LabelsList(t.cluster, t.spec.vm.labels, a.infra);
    var tags := ManagerTags(a.tagService, a.infra, t.spec.vm.tags);
    if labels.None? then (kept, RefusedOtherwise)
    else if tags.MissingTags? then (kept, RefusedAsInvalid)
    else if !tags.Bound? then (kept, RefusedOtherwise)
    else if !RestartAllowed(t.spec) then (kept, RefusedAsInvalid)
    else match Rewritten(kept, BootImage(a, t))
      case None => (kept, RefusedOtherwise)
      case Some(shielded) => (shielded, SettleRest(a, WithShielded(t, shielded), labels.value, tags.names))
  }

  // ----- as the source does it -----

  method CheckRestartPolicy(spec: ProviderSpec) returns (ok: bool, automaticRestart: Option<bool>)
    ensures ok == RestartAllowed(spec)
    ensures ok ==> automaticRestart == AutomaticRestart(spec.vm.restartPolicy)
  {
    match spec.vm.restartPolicy
    case RestartUnset => return true, None;
    case RestartAlways => return !Interruptible(spec), Some(true);
    case RestartNever => return true, Some(false);
    case RestartUnrecognized(_) => return false, None;
  }

  method AttachOne(a: Surroundings, t: Target, tags: map<string, string>, disk: Disk) returns (r: Disks)
    ensures r == AttachDisk(a, t, tags, disk)
  {
    var source := "";
    if disk.image != "" {
      source := disk.image;
      if '/' !in disk.image {
        source := SourceImage(a.basePath, t.project, disk.image);
      }
    } else if disk.boot {
      return NoBootImage;
    }
    var labels := GetLabelsList(t.cluster, disk.labels, a.infra);
    if labels.None? {
      return DiskLabelsFailed;
    }
    return Attached([AttachedDisk(disk.boot, source, labels.value, tags)]);
  }

  lemma GatherStep(attach: Disk -> Disks, disks: seq<Disk>, i: nat, done: seq<AttachedDisk>)
    requires i < |disks|
    ensures var one := attach(disks[i]);
      Followed(done, Gather(attach, disks[i..])) ==
      if one.Attached? then Followed(done + one.disks, Gather(attach, disks[i + 1..])) else one
  {
    assert disks[i..][0] == disks[i] && disks[i..][1..] == disks[i + 1..];
    var one, rest := attach(disks[i]), Gather(attach, disks[i + 1..]);
    if one.Attached? && rest.Attached? {
      assert done + (one.disks + rest.disks) == done + one.disks + rest.disks;
    }
  }

  method AttachAll(a: Surroundings, t: Target, tags: map<string, string>, disks: seq<Disk>) returns (r: Disks)
    ensures r == AttachDisks(a, t, tags, disks)
  {
    ghost var attach := (disk: Disk) => AttachDisk(a, t, tags, disk);
    var done: seq<AttachedDisk> := [];
    for i := 0 to |disks|
      invariant Gather(attach, disks) == Followed(done, Gather(attach, disks[i..]))
    {
      GatherStep(attach, disks, i, done);
      var one := AttachOne(a, t, tags, disks[i]);
      if !one.Attached? {
        return one;
      }
      done := done + one.disks;
    }
    assert disks[|disks|..] == [];
    return Attached(done);
  }

  method PrepareRest(a: Surroundings, t: Target, labels: map<string, string>, tags: map<string, string>,
                     automaticRestart: Option<bool>, settings: InstanceSettings)
    returns (verdict: Verdict)
    requires automaticRestart == AutomaticRestart(t.spec.vm.restartPolicy) && settings == Settings(t.spec.shielded)
    ensures verdict == SettleRest(a, t, labels, tags)
  {
    if t.spec.vm.confidentialCompute.ConfidentialUnrecognized? {
      return RefusedAsInvalid;
    }
    var accelerators: seq<GpuConfig> := [];
    if |t.spec.vm.gpus| == 1 {
      accelerators := [t.spec.vm.gpus[0]];
    } else if |t.spec.vm.gpus| > 1 {
      return RefusedAsInvalid;
    }
    assert accelerators == t.spec.vm.gpus;
    var gpus := ValidateGuestAccelerators(a.compute, GpuMachineOf(t));
    match gpus {
      case Refused => return RefusedAsInvalid;
      case Panics => return ChecksPanic;
      case Exits => return ChecksExit;
      case Accepted =>
    }
    var disks := AttachAll(a, t, tags, t.spec.vm.disks);
    match disks {
      case NoBootImage => return RefusedAsInvalid;
      case DiskLabelsFailed => return RefusedOtherwise;
      case Attached(attached) =>
        if t.spec.vm.userDataSecret.Some? && t.spec.vm.userDataSecret.value !in a.secrets {
          return RefusedOtherwise;
        }
        return Admitted(InstanceBody(labels, tags, automaticRestart, settings, accelerators, attached));
    }
  }

  /** create() up to the insert call. */
  method PrepareInstance(a: Surroundings, t: Target) returns (shielded: ShieldedConfig, verdict: Verdict)
    ensures (shielded, verdict) == Settle(a, t)
  {
    shielded := t.spec.shielded;
    var labels := GetLabelsList(t.cluster, t.spec.vm.labels, a.infra);
    if labels.None? {
      return shielded, RefusedOtherwise;
    }
    var tags := GetResourceManagerTags(a.tagService, a.infra, t.spec.vm.tags);
    if !tags.Bound? {
      return shielded, if tags.MissingTags? then RefusedAsInvalid else RefusedOtherwise;
    }
    var ok, automaticRestart := CheckRestartPolicy(t.spec);
    if !ok {
      return shielded, RefusedAsInvalid;
    }
    var image := Uefi;
    if shielded == DEFAULT {
      var uefi := IsUefiCompatible(a.images, t.spec.vm.disks, t.spec.projectId, t.spec.zone);
      image := if uefi.Err? then Unreadable else if uefi.value then Uefi else Legacy;
    }
    var settings: Option<InstanceSettings>;
    shielded, settings := ApplyShieldedConfig(t.spec.shielded, image);
    if settings.None? {
      return shielded, RefusedOtherwise;
    }
    verdict := PrepareRest(a, WithShielded(t, shielded), labels.value, tags.names, automaticRestart, settings.value);
  }

  // ----- what admission means -----

  /** The labels of one resource: the ownership label, every key by precedence, and no more than the user limit. */
  ghost predicate LabelledRight(a: Surroundings, cluster: string,
                                spec: map<string, string>, labels: map<string, string>)
  {
    && a.infra.Some? && |UserKeys(cluster, spec, a.infra.value)| <= 32
    && "kubernetes-io-cluster-" + cluster in labels && labels["kubernetes-io-cluster-" + cluster] == "owned"
    && forall key :: (if key in labels then Some(labels[key]) else None) ==
                     Preferred(OcpLabels(cluster), spec, InfraLabels(a.infra.value.labels), key)
  }

  /** All tags resolved, and no more than the limit. */
  ghost predicate TaggedRight(a: Surroundings, t: Target, tags: map<string, string>) {
    && a.infra.Some?
    && var merged := MergedTags(a.infra.value.tags, t.spec.vm.tags);
       && |merged| <= 50
       && (forall i :: 0 <= i < |merged| ==> Answer(a.tagService, merged[i]).Resolved?)
       && tags == Bindings(a.tagService, merged)
  }

  /** An untouched configuration was left only to a boot image that supports UEFI; a disabled flag is sent. */
  ghost predicate ShieldedRight(a: Surroundings, t: Target, settings: InstanceSettings) {
    && (t.spec.shielded == ShieldedConfig("", "", "") ==>
          UefiVerdict(a.images, t.spec.vm.disks, t.spec.projectId, t.spec.zone) == Ok(true))
    && settings.secureBoot == (t.spec.shielded.secureBoot == "Enabled")
    && settings.vtpm == (t.spec.shielded.vtpm != "Disabled")
    && settings.integrity == (t.spec.shielded.integrity != "Disabled")
    && (!settings.vtpm ==> "EnableVtpm" in settings.forceSend)
    && (!settings.integrity ==> "EnableIntegrityMonitoring" in settings.forceSend)
  }

  /** Restarted automatically as the policy says, and never if interruptible. */
  ghost predicate RestartRight(spec: ProviderSpec, automaticRestart: Option<bool>) {
    match spec.vm.restartPolicy
    case RestartUnset => automaticRestart == None
    case RestartNever => automaticRestart == Some(false)
    case RestartAlways => automaticRestart == Some(true) && !spec.preemptible && spec.provisioningModel != Some("Spot")
    case RestartUnrecognized(_) => false
  }

  /** At most one kind of GPU, and what validation accepts of this machine. */
  ghost predicate AcceleratedRight(a: Surroundings, t: Target, accelerators: seq<GpuConfig>) {
    && |t.spec.vm.gpus| <= 1 && accelerators == t.spec.vm.gpus
    && Validation(a.compute, GpuMachine(t.spec.projectId, t.project, t.spec.region, t.spec.zone,
                                        t.spec.vm.machineType, t.spec.vm.gpus,
                                        t.spec.preemptible || t.spec.provisioningModel == Some("Spot"))) == Accepted
  }

  ghost predicate DiskRight(a: Surroundings, t: Target, disk: Disk, attached: AttachedDisk, tags: map<string, string>) {
    && attached.boot == disk.boot && attached.tags == tags
    && (disk.boot ==> disk.image != "")
    && attached.sourceImage == (if disk.image == "" then "" else SourceImage(a.basePath, t.project, disk.image))
    && LabelledRight(a, t.cluster, disk.labels, attached.labels)
  }

  ghost predicate AllRight(a: Surroundings, t: Target, disks: seq<Disk>, attached: seq<AttachedDisk>,
                           tags: map<string, string>)
  {
    |attached| == |disks| && forall i :: 0 <= i < |disks| ==> DiskRight(a, t, disks[i], attached[i], tags)
  }

  /** What every instance asked for went through: the target is the one whose shielded configuration is settled. */
  ghost predicate Sanctioned(a: Surroundings, t: Target, body: InstanceBody) {
    && LabelledRight(a, t.cluster, t.spec.vm.labels, body.labels)
    && TaggedRight(a, t, body.tags)
    && RestartRight(t.spec, body.automaticRestart) && !t.spec.vm.confidentialCompute.ConfidentialUnrecognized?
    && ShieldedRight(a, t, body.settings)
    && AcceleratedRight(a, t, body.accelerators)
    && AllRight(a, t, t.spec.vm.disks, body.disks, body.tags)
    && (t.spec.vm.userDataSecret.Some? ==> t.spec.vm.userDataSecret.value in a.secrets)
  }

  lemma LabelsAreRight(a: Surroundings, cluster: string, spec: map<string, string>)
    ensures var labels := LabelsList(cluster, spec, a.infra);
      && (labels.Some? ==> LabelledRight(a, cluster, spec, labels.value))
      && (labels.None? <==> a.infra.None? || |UserKeys(cluster, spec, a.infra.value)| > 32)
  {
    LabelsTheorem(cluster, spec, a.infra, "");
    var labels := LabelsList(cluster, spec, a.infra);
    if labels.Some? {
      forall key
        ensures (if key in labels.value then Some(labels.value[key]) else None) ==
                Preferred(OcpLabels(cluster), spec, InfraLabels(a.infra.value.labels), key)
      {
        LabelsTheorem(cluster, spec, a.infra, key);
      }
    }
  }

  /** A disk that can be attached, seen from the spec alone. */
  ghost predicate Attachable(a: Surroundings, t: Target, disk: Disk) {
    && (disk.boot ==> disk.image != "")
    && a.infra.Some? && |UserKeys(t.cluster, disk.labels, a.infra.value)| <= 32
  }

  lemma DiskIsRight(a: Surroundings, t: Target, tags: map<string, string>, disk: Disk)
    ensures var r := AttachDisk(a, t, tags, disk);
      && (r.Attached? <==> Attachable(a, t, disk))
      && (r.Attached? ==> |r.disks| == 1 && DiskRight(a, t, disk, r.disks[0], tags))
  {
    LabelsAreRight(a, t.cluster, disk.labels);
  }

  ghost predicate AllAttachable(a: Surroundings, t: Target, disks: seq<Disk>) {
    forall i :: 0 <= i < |disks| ==> Attachable(a, t, disks[i])
  }

  lemma {:induction false} GatherAll(attach: Disk -> Disks, disks: seq<Disk>)
    requires forall disk :: attach(disk).Attached? ==> |attach(disk).disks| == 1
    ensures var r := Gather(attach, disks);
      && (r.Attached? <==> forall i :: 0 <= i < |disks| ==> attach(disks[i]).Attached?)
      && (r.Attached? ==>
            |r.disks| == |disks| && forall i :: 0 <= i < |disks| ==> attach(disks[i]).disks == [r.disks[i]])
  {
    if disks == [] {
    } else {
      GatherAll(attach, disks[1..]);
      assert forall i :: 0 < i < |disks| ==> disks[i] == disks[1..][i - 1];
      assert forall i :: 0 <= i < |disks[1..]| ==> disks[1..][i] == disks[i + 1];
      var first, rest := attach(disks[0]), Gather(attach, disks[1..]);
      if first.Attached? && rest.Attached? {
        var all := first.disks + rest.disks;
        assert all[0] == first.disks[0] && forall i :: 0 < i < |all| ==> all[i] == rest.disks[i - 1];
      }
    }
  }

  lemma DisksAreRight(a: Surroundings, t: Target, tags: map<string, string>, disks: seq<Disk>)
    ensures var r := AttachDisks(a, t, tags, disks);
      && (r.Attached? <==> AllAttachable(a, t, disks))
      && (r.Attached? ==> AllRight(a, t, disks, r.disks, tags))
  {
    forall disk {
      DiskIsRight(a, t, tags, disk);
    }
    GatherAll((disk: Disk) => AttachDisk(a, t, tags, disk), disks);
  }

  ghost predicate TagsAdmissible(a: Surroundings, t: Target)
    requires a.infra.Some?
  {
    var merged := MergedTags(a.infra.value.tags, t.spec.vm.tags);
    |merged| <= 50 && forall i :: 0 <= i < |merged| ==> Answer(a.tagService, merged[i]).Resolved?
  }

  ghost predicate OthersAdmissible(a: Surroundings, t: Target) {
    && !t.spec.vm.confidentialCompute.ConfidentialUnrecognized?
    && |t.spec.vm.gpus| <= 1
    && (t.spec.vm.userDataSecret.Some? ==> t.spec.vm.userDataSecret.value in a.secrets)
  }

  ghost predicate RestAdmissible(a: Surroundings, t: Target) {
    && OthersAdmissible(a, t)
    && Validation(a.compute, GpuMachineOf(t)) == Accepted
    && AllAttachable(a, t, t.spec.vm.disks)
  }

  /** What the machine and the services' answers must be for the instance to be asked for. */
  ghost predicate Admissible(a: Surroundings, t: Target) {
    && a.infra.Some? && |UserKeys(t.cluster, t.spec.vm.labels, a.infra.value)| <= 32
    && TagsAdmissible(a, t)
    && RestartAdmissible(t.spec)
    && (t.spec.shielded == DEFAULT ==> BootVerdict(a, t).Ok?)
    && RestAdmissible(a, t)
  }

  /** A known policy that does not ask to restart an interruptible machine. */
  ghost predicate RestartAdmissible(spec: ProviderSpec) {
    exists automaticRestart :: RestartRight(spec, automaticRestart)
  }

  lemma RestartIsRight(spec: ProviderSpec)
    ensures RestartAllowed(spec) <==> RestartAdmissible(spec)
    ensures RestartAllowed(spec) ==> RestartRight(spec, AutomaticRestart(spec.vm.restartPolicy))
  {
    assert RestartAllowed(spec) ==> RestartRight(spec, AutomaticRestart(spec.vm.restartPolicy));
  }

  lemma RestVerdictAdmits(a: Surroundings, t: Target, labels: map<string, string>, tags: map<string, string>,
                          gpus: GpuVerdict, disks: Disks)
    ensures var verdict := RestVerdict(a, t, labels, tags, gpus, disks);
      && (verdict.Admitted? <==> OthersAdmissible(a, t) && gpus == Accepted && disks.Attached?)
      && (verdict.Admitted? ==>
            verdict.body == InstanceBody(labels, tags, AutomaticRestart(t.spec.vm.restartPolicy),
                                         Settings(t.spec.shielded), t.spec.vm.gpus, disks.disks))
  {
  }

  lemma RestAdmittedExactlyWhen(a: Surroundings, t: Target, labels: map<string, string>, tags: map<string, string>)
    ensures var verdict := SettleRest(a, t, labels, tags);
      && (verdict.Admitted? <==> RestAdmissible(a, t))
      && (verdict.Admitted? ==>
            && verdict.body == InstanceBody(labels, tags, AutomaticRestart(t.spec.vm.restartPolicy),
                                            Settings(t.spec.shielded), t.spec.vm.gpus, verdict.body.disks)
            && AllRight(a, t, t.spec.vm.disks, verdict.body.disks, tags))
  {
    var gpus, disks := Validation(a.compute, GpuMachineOf(t)), AttachDisks(a, t, tags, t.spec.vm.disks);
    RestVerdictAdmits(a, t, labels, tags, gpus, disks);
    DisksAreRight(a, t, tags, t.spec.vm.disks);
  }

  lemma TagsAreRight(a: Surroundings, t: Target)
    requires a.infra.Some?
    ensures var tags := ManagerTags(a.tagService, a.infra, t.spec.vm.tags);
      && (tags.Bound? <==> TagsAdmissible(a, t))
      && (tags.Bound? ==> TaggedRight(a, t, tags.names))
  {
    TagsTheorem(a.tagService, a.infra, t.spec.vm.tags);
  }

  lemma ShieldedIsRight(a: Surroundings, t: Target)
    ensures var shielded := Rewritten(t.spec.shielded, BootImage(a, t));
      && (shielded.Some? <==> (t.spec.shielded == DEFAULT ==> BootVerdict(a, t).Ok?))
      && (shielded.Some? ==> ShieldedRight(a, WithShielded(t, shielded.value), Settings(shielded.value)))
  {
    var shielded := Rewritten(t.spec.shielded, BootImage(a, t));
    if shielded.Some? {
      assert BootVerdict(a, WithShielded(t, shielded.value)) == BootVerdict(a, t);
      DisabledFlagsAreSent(shielded.value);
    }
  }

  lemma ShieldingIsIndependent(a: Surroundings, t: Target, shielded: ShieldedConfig)
    ensures RestAdmissible(a, WithShielded(t, shielded)) <==> RestAdmissible(a, t)
  {
    var t' := WithShielded(t, shielded);
    assert GpuMachineOf(t') == GpuMachineOf(t);
    assert AllAttachable(a, t', t.spec.vm.disks) <==> AllAttachable(a, t, t.spec.vm.disks) by {
      assert forall disk :: Attachable(a, t', disk) <==> Attachable(a, t, disk);
    }
  }

  /** Every check before the confidential-computing switch has passed. */
  ghost predicate FirstChecksPass(a: Surroundings, t: Target) {
    && LabelsList(t.cluster, t.spec.vm.labels, a.infra).Some?
    && ManagerTags(a.tagService, a.infra, t.spec.vm.tags).Bound?
    && RestartAllowed(t.spec)
    && Rewritten(t.spec.shielded, BootImage(a, t)).Some?
  }

  lemma FirstChecksPassExactlyWhen(a: Surroundings, t: Target)
    ensures FirstChecksPass(a, t) <==>
            && a.infra.Some? && |UserKeys(t.cluster, t.spec.vm.labels, a.infra.value)| <= 32
            && TagsAdmissible(a, t)
            && RestartAdmissible(t.spec)
            && (t.spec.shielded == DEFAULT ==> BootVerdict(a, t).Ok?)
  {
    RestartIsRight(t.spec);
    LabelsAreRight(a, t.cluster, t.spec.vm.labels);
    ShieldedIsRight(a, t);
    if a.infra.Some? {
      TagsAreRight(a, t);
    }
  }

  lemma SettleGoesOn(a: Surroundings, t: Target)
    ensures !FirstChecksPass(a, t) ==> !Settle(a, t).1.Admitted?
    ensures FirstChecksPass(a, t) ==>
      var shielded := Rewritten(t.spec.shielded, BootImage(a, t)).value;
      var labels := LabelsList(t.cluster, t.spec.vm.labels, a.infra).value;
      var tags := ManagerTags(a.tagService, a.infra, t.spec.vm.tags).names;
      Settle(a, t) == (shielded, SettleRest(a, WithShielded(t, shielded), labels, tags))
  {
  }

  /** The instance is asked for exactly when every check passes. */
  lemma AdmittedExactlyWhen(a: Surroundings, t: Target)
    ensures Settle(a, t).1.Admitted? <==> Admissible(a, t)
  {
    FirstChecksPassExactlyWhen(a, t);
    SettleGoesOn(a, t);
    if FirstChecksPass(a, t) {
      var shielded := Rewritten(t.spec.shielded, BootImage(a, t)).value;
      var labels := LabelsList(t.cluster, t.spec.vm.labels, a.infra).value;
      var tags := ManagerTags(a.tagService, a.infra, t.spec.vm.tags).names;
      ShieldingIsIndependent(a, t, shielded);
      RestAdmittedExactlyWhen(a, WithShielded(t, shielded), labels, tags);
    }
  }

  /** And the instance asked for is sanctioned by the answers that admitted it. */
  lemma AdmittedIsSanctioned(a: Surroundings, t: Target)
    requires Settle(a, t).1.Admitted?
    ensures var (shielded, verdict) := Settle(a, t);
      Sanctioned(a, WithShielded(t, shielded), verdict.body)
  {
    var labels := LabelsList(t.cluster, t.spec.vm.labels, a.infra);
    var tags := ManagerTags(a.tagService, a.infra, t.spec.vm.tags);
    LabelsAreRight(a, t.cluster, t.spec.vm.labels);
    TagsAreRight(a, t);
    ShieldedIsRight(a, t);
    var t' := WithShielded(t, Settle(a, t).0);
    RestAdmittedExactlyWhen(a, t', labels.value, tags.names);
    RestartIsRight(t'.spec);
    assert TaggedRight(a, t', tags.names) && RestartAllowed(t'.spec) == RestartAllowed(t.spec);
  }

  // ----- how a machine is refused -----

  /** Labels and tags: a limit, an unreadable service or an unavailable tag can pass; a missing tag is the user's. */
  lemma LabelAndTagRefusals(a: Surroundings, t: Target)
    ensures var verdict := Settle(a, t).1;
      && (a.infra.None? ==> verdict == RefusedOtherwise)
      && (a.infra.Some? && |UserKeys(t.cluster, t.spec.vm.labels, a.infra.value)| > 32 ==> verdict == RefusedOtherwise)
      && (a.infra.Some? && |UserKeys(t.cluster, t.spec.vm.labels, a.infra.value)| <= 32 ==>
            var merged := MergedTags(a.infra.value.tags, t.spec.vm.tags);
            && (|merged| > 50 ==> verdict == RefusedOtherwise)
            && (|merged| <= 50 && AnyUnavailable(a, merged) ==> verdict == RefusedOtherwise)
            && (|merged| <= 50 && !AnyUnavailable(a, merged) && AnyInaccessible(a, merged) ==>
                  verdict == RefusedAsInvalid))
  {
    LabelsAreRight(a, t.cluster, t.spec.vm.labels);
    if a.infra.Some? {
      TagRefusals(a, t);
    }
  }

  ghost predicate AnyUnavailable(a: Surroundings, tags: seq<Tag>) {
    exists i :: 0 <= i < |tags| && Answer(a.tagService, tags[i]).Unavailable?
  }

  ghost predicate AnyInaccessible(a: Surroundings, tags: seq<Tag>) {
    exists i :: 0 <= i < |tags| && Answer(a.tagService, tags[i]).Inaccessible?
  }

  lemma TagRefusals(a: Surroundings, t: Target)
    requires a.infra.Some?
    ensures var tags := ManagerTags(a.tagService, a.infra, t.spec.vm.tags);
      var merged := MergedTags(a.infra.value.tags, t.spec.vm.tags);
      && (|merged| > 50 ==> !tags.Bound? && !tags.MissingTags?)
      && (|merged| <= 50 && AnyUnavailable(a, merged) ==> !tags.Bound? && !tags.MissingTags?)
      && (|merged| <= 50 && !AnyUnavailable(a, merged) && AnyInaccessible(a, merged) ==> tags.MissingTags?)
  {
    TagsTheorem(a.tagService, a.infra, t.spec.vm.tags);
  }

  /** Restart policy and boot image, once labels and tags are settled. */
  lemma RestartAndImageRefusals(a: Surroundings, t: Target)
    requires LabelsList(t.cluster, t.spec.vm.labels, a.infra).Some?
    requires ManagerTags(a.tagService, a.infra, t.spec.vm.tags).Bound?
    ensures !RestartAdmissible(t.spec) ==> Settle(a, t) == (t.spec.shielded, RefusedAsInvalid)
    ensures RestartAdmissible(t.spec) && t.spec.shielded == DEFAULT && BootVerdict(a, t).Err? ==>
      Settle(a, t) == (t.spec.shielded, RefusedOtherwise)
  {
    RestartIsRight(t.spec);
    if !RestartAllowed(t.spec) {
      assert Settle(a, t) == (t.spec.shielded, RefusedAsInvalid);
    } else {
      ShieldedIsRight(a, t);
      ImageStops(a, t);
    }
  }

  lemma ImageStops(a: Surroundings, t: Target)
    requires LabelsList(t.cluster, t.spec.vm.labels, a.infra).Some?
    requires ManagerTags(a.tagService, a.infra, t.spec.vm.tags).Bound?
    requires RestartAllowed(t.spec)
    ensures Rewritten(t.spec.shielded, BootImage(a, t)).None? ==> Settle(a, t) == (t.spec.shielded, RefusedOtherwise)
  {
  }

  ghost predicate SecretReadable(a: Surroundings, t: Target) {
    t.spec.vm.userDataSecret.Some? ==> t.spec.vm.userDataSecret.value in a.secrets
  }

  /** Disk i is the first that cannot be attached. */
  ghost predicate FirstUnattachable(a: Surroundings, t: Target, disks: seq<Disk>, i: int) {
    && 0 <= i < |disks| && !Attachable(a, t, disks[i])
    && forall j :: 0 <= j < i ==> Attachable(a, t, disks[j])
  }

  /** The checks from confidential computing to the user data, given what GPU validation and the disks gave. */
  lemma LaterRefusals(a: Surroundings, t: Target, labels: map<string, string>, tags: map<string, string>,
                      gpus: GpuVerdict, disks: Disks)
    ensures var verdict := RestVerdict(a, t, labels, tags, gpus, disks);
      var known := !t.spec.vm.confidentialCompute.ConfidentialUnrecognized? && |t.spec.vm.gpus| <= 1;
      && (!known ==> verdict == RefusedAsInvalid)
      && (known && gpus == Refused ==> verdict == RefusedAsInvalid)
      && (known && gpus == Panics ==> verdict == ChecksPanic)
      && (known && gpus == Exits ==> verdict == ChecksExit)
      && (known && gpus == Accepted && disks.NoBootImage? ==> verdict == RefusedAsInvalid)
      && (known && gpus == Accepted && disks.DiskLabelsFailed? ==> verdict == RefusedOtherwise)
      && (known && gpus == Accepted && disks.Attached? && !SecretReadable(a, t) ==> verdict == RefusedOtherwise)
  {
  }

  /** The first disk that cannot be attached decides: one to boot from without an image, or one with too many labels. */
  lemma DiskRefusals(a: Surroundings, t: Target, tags: map<string, string>, disks: seq<Disk>, i: nat)
    requires FirstUnattachable(a, t, disks, i)
    ensures AttachDisks(a, t, tags, disks) ==
            if disks[i].boot && disks[i].image == "" then NoBootImage else DiskLabelsFailed
  {
    FirstFailureDecides(a, t, tags, disks, i);
    LabelsAreRight(a, t.cluster, disks[i].labels);
  }

  lemma FirstFailureDecides(a: Surroundings, t: Target, tags: map<string, string>, disks: seq<Disk>, i: nat)
    requires FirstUnattachable(a, t, disks, i)
    ensures AttachDisks(a, t, tags, disks) == AttachDisk(a, t, tags, disks[i])
    ensures !AttachDisk(a, t, tags, disks[i]).Attached?
  {
    forall disk {
      DiskIsRight(a, t, tags, disk);
    }
    GatherStops((disk: Disk) => AttachDisk(a, t, tags, disk), disks, i);
  }

  lemma {:induction false} GatherStops(attach: Disk -> Disks, disks: seq<Disk>, i: nat)
    requires i < |disks| && !attach(disks[i]).Attached? && forall j :: 0 <= j < i ==> attach(disks[j]).Attached?
    ensures Gather(attach, disks) == attach(disks[i])
  {
    if i == 0 {
    } else {
      GatherStops(attach, disks[1..], i - 1);
    }
  }
}
