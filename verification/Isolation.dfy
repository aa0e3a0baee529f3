/**
 What the operations of one machine leave alone: every other instance keeps its state and its
 memberships, whatever faults are met, because a link names one instance.
 */
module Isolation {
  import opened Common
  import opened Machines
  import opened CloudModel
  import opened Actuation
  import opened Admission
  import opened Justification
  import opened TargetPools
  import opened ControlPlane
  import opened MachineActuator
  import opened Runs
  import Names

  function LinkOfKey(k: InstanceKey): string {
    Names.InstanceLink(k.project, k.zone, k.name)
  }

  ghost predicate IsMember(c: Cloud, g: GroupKey, link: string) {
    g in c.groups && link in c.groups[g]
  }

  /** The instance itself, its pools and its groups are as they were. */
  ghost predicate LeavesAlone(c: Cloud, c': Cloud, k: InstanceKey) {
    && (k in c'.instances <==> k in c.instances)
    && (k in c.instances ==> c'.instances[k] == c.instances[k])
    && (forall p :: InPool(c', p, LinkOfKey(k)) <==> InPool(c, p, LinkOfKey(k)))
    && (forall g :: IsMember(c', g, LinkOfKey(k)) <==> IsMember(c, g, LinkOfKey(k)))
  }

  /** An instance other than the target's, by a link other than its link. */
  ghost predicate IsOther(t: Target, k: InstanceKey) {
    k != KeyOf(t) && LinkOfKey(k) != Link(t)
  }

  /** Resource names hold no slash, so another key is another link. */
  lemma OtherKeyOtherLink(t: Target, k: InstanceKey)
    requires k != KeyOf(t)
    requires '/' !in t.project && '/' !in t.spec.zone && '/' !in k.project && '/' !in k.zone
    ensures IsOther(t, k)
  {
    if LinkOfKey(k) == Link(t) {
      Names.InstanceLinkInjective(k.project, k.zone, k.name, t.project, t.spec.zone, t.name);
    }
  }

  lemma PoolsLeaveAlone(w: World, t: Target, pools: seq<string>, desired: bool, k: InstanceKey)
    requires IsOther(t, k)
    ensures LeavesAlone(w.cloud, ProcessPools(w, t, pools, desired).0.cloud, k)
  {
    ProcessPoolsTheorem(w, t, pools, desired);
  }

  lemma RegisterLeavesAlone(w: World, t: Target, state: Option<string>, k: InstanceKey)
    requires IsOther(t, k)
    ensures LeavesAlone(w.cloud, Register(w, t, state).0.cloud, k)
  {
    EnsureGroupTheorem(w, t);
    var w1 := EnsureGroup(w, t).0;
    assert LeavesAlone(w.cloud, w1.cloud, k);
    JoinGroupTheorem(w1, t, state);
    assert LeavesAlone(w1.cloud, JoinGroup(w1, t, state).0.cloud, k);
  }

  lemma UnregisterLeavesAlone(w: World, t: Target, k: InstanceKey)
    requires IsOther(t, k)
    ensures LeavesAlone(w.cloud, Unregister(w, t).0.cloud, k)
  {
    UnregisterTheorem(w, t);
  }

  lemma UpdateLeavesAlone(w: World, s: Scope, now: int, k: InstanceKey)
    requires IsOther(TargetOf(s), k)
    ensures LeavesAlone(w.cloud, Update(w, s, now).0.cloud, k)
  {
    var t := TargetOf(s);
    PoolsLeaveAlone(w, t, t.spec.targetPools, true, k);
    var w1 := ProcessPools(w, t, t.spec.targetPools, true).0;
    RegisterLeavesAlone(w1, t, s.providerStatus.instanceState, k);
    UpdateCloud(w, s, now);
  }

  lemma PrepareDeleteLeavesAlone(w: World, t: Target, providerId: Option<string>, k: InstanceKey)
    requires IsOther(t, k)
    ensures LeavesAlone(w.cloud, PrepareDelete(w, t, providerId).0.cloud, k)
  {
    PoolsLeaveAlone(w, t, t.spec.targetPools, false, k);
    var w1 := ProcessPools(w, t, t.spec.targetPools, false).0;
    assert Exists(w1, t).0.cloud == w1.cloud;
    UnregisterLeavesAlone(Exists(w1, t).0, t, k);
  }

  lemma DeleteLeavesAlone(w: World, t: Target, providerId: Option<string>, k: InstanceKey)
    requires IsOther(t, k)
    ensures LeavesAlone(w.cloud, Delete(w, t, providerId).0.cloud, k)
  {
    PrepareDeleteLeavesAlone(w, t, providerId, k);
    var w1 := PrepareDelete(w, t, providerId).0;
    assert LeavesAlone(w1.cloud, Issue(w1, t, InstancesDelete(KeyOf(t))).0.cloud, k);
  }

  lemma CreateLeavesAlone(w: World, s: Scope, c: Creation, now: int, k: InstanceKey)
    requires IsOther(TargetOf(s), k)
    ensures LeavesAlone(w.cloud, Create(w, s, c.boots, c.message, now).0.cloud, k)
  {
    var (shielded, verdict) := Settle(w.cloud.around, TargetOf(s));
    if verdict.Admitted? {
      AskForLeavesAlone(w, s.(providerSpec := s.providerSpec.(shielded := shielded)), c, verdict.body, now, k);
    }
  }

  lemma AskForLeavesAlone(w: World, s: Scope, c: Creation, body: InstanceBody, now: int, k: InstanceKey)
    requires KeyOf(TargetOf(s)) != k
    ensures LeavesAlone(w.cloud, AskFor(w, s, c.boots, body, c.message, now).0.cloud, k)
  {
    var t := TargetOf(s);
    var w1 := Issue(w, t, InstancesInsert(KeyOf(t), c.boots, body)).0;
    assert ReconcileWithCloud(w1, s, now).0.cloud == w1.cloud;
  }

  /**
   No operation of a machine, whatever faults it meets, touches another instance: it stays as it was,
   in its pools and in its groups.
   */
  lemma OthersAreLeftAlone(sys: System, step: Step, credentials: string, k: InstanceKey)
    requires !step.CloudMoves? && k != KeyOf(Target0(sys, credentials))
    requires '/' !in Target0(sys, credentials).project && '/' !in sys.stored.spec.zone
    requires '/' !in k.project && '/' !in k.zone
    ensures LeavesAlone(sys.world.cloud, Exec(sys, step, credentials).0.world.cloud, k)
  {
    var t := Target0(sys, credentials);
    OtherKeyOtherLink(t, k);
    match step
    case DoCreate(faults, creation, closing) =>
      CreateLeavesAlone(sys.world.(faults := faults), Open(sys.stored, credentials), creation, closing.now, k);
    case DoUpdate(faults, closing) =>
      UpdateLeavesAlone(sys.world.(faults := faults), Open(sys.stored, credentials), closing.now, k);
    case DoDelete(faults) => DeleteLeavesAlone(sys.world.(faults := faults), t, sys.stored.providerId, k);
    case DoExists(faults) =>
    case UserEdits(_) =>
  }
}
