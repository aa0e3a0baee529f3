/**
 Whole runs: any order of actuator operations on one machine, each with its own faults at
 every cloud call and at either patch, interleaved with what the cloud and the user do.
 */
module Runs {
  import opened Common
  import opened Machines
  import opened CloudModel
  import opened Actuation
  import opened Admission
  import opened Persistence
  import opened MachineActuator
  import opened Justification
  import opened TargetPools
  import opened ControlPlane
  import opened Deletion
  import Names

  datatype System = System(world: World, stored: Machine)

  datatype Step =
    | DoCreate(faults: seq<Fault>, creation: Creation, closing: Patching)
    | DoUpdate(faults: seq<Fault>, closing: Patching)
    | DoDelete(faults: seq<Fault>)
    | DoExists(faults: seq<Fault>)
    | CloudMoves(cloud: Cloud)   // instances start, stop and go away; other parties write
    | UserEdits(spec: ProviderSpec)

  ghost function Exec(sys: System, step: Step, credentials: string): (System, Outcome) {
    match step
    case DoCreate(faults, creation, closing) =>
      var (w, m, o) := ActuatorCreate(sys.world.(faults := faults), sys.stored, credentials, creation, closing);
      (System(w, m), o)
    case DoUpdate(faults, closing) =>
      var (w, m, o) := ActuatorUpdate(sys.world.(faults := faults), sys.stored, credentials, closing);
      (System(w, m), o)
    case DoDelete(faults) =>
      var (w, o) := ActuatorDelete(sys.world.(faults := faults), sys.stored, credentials);
      (System(w, sys.stored), o)
    case DoExists(faults) =>
      var (w, _, o, _) := ActuatorExists(sys.world.(faults := faults), Target0(sys, credentials),
          sys.stored.status.phase, sys.stored.providerId);
      (System(w, sys.stored), o)
    case CloudMoves(cloud) =>
      var w := sys.world.(cloud := cloud);
      (sys.(world := if KeepsControlPlane(sys.world.cloud, cloud) then w else w.(since := |w.trace|)), Success)
    case UserEdits(spec) => (sys.(stored := sys.stored.(spec := spec)), Success)
  }

  /** Faults are honest, and nobody puts anything where no place is. */
  ghost predicate Legal(sys: System, step: Step) {
    match step
    case DoCreate(faults, _, _) => Honest(faults)
    case DoUpdate(faults, _) => Honest(faults)
    case DoDelete(faults) => Honest(faults)
    case DoExists(faults) => Honest(faults)
    case CloudMoves(cloud) => Consistent(cloud)
    case UserEdits(_) => true
  }

  function Target0(sys: System, credentials: string): Target {
    TargetOf(Open(sys.stored, credentials))
  }

  /** Update changes the cloud by its pools and, for a master, its group; reconciling only reads. */
  lemma UpdateCloud(w: World, s: Scope, now: int)
    ensures var t := TargetOf(s);
      var w1 := ProcessPools(w, t, t.spec.targetPools, true).0;
      var c := Update(w, s, now).0.cloud;
      c == w.cloud || c == w1.cloud || c == Register(w1, t, s.providerStatus.instanceState).0.cloud
  {
    var t := TargetOf(s);
    var (w1, processed) := ProcessPools(w, t, t.spec.targetPools, true);
    ReconcileOnlyReads(w1, s, now);
    if t.role == MASTER {
      ReconcileOnlyReads(Register(w1, t, s.providerStatus.instanceState).0, s, now);
    }
  }

  lemma ReconcileOnlyReads(w: World, s: Scope, now: int)
    ensures ReconcileWithCloud(w, s, now).0.cloud == w.cloud
  {
  }

  // ----- every operation keeps what every step keeps -----

  lemma CreateKeepsGood(w: World, s: Scope, c: Creation, now: int)
    requires Good(w)
    ensures Good(Create(w, s, c.boots, c.message, now).0)
  {
    var (shielded, verdict) := Settle(w.cloud.around, TargetOf(s));
    if Valid(TargetOf(s)) && verdict.Admitted? {
      AdmittedIsSanctioned(w.cloud.around, TargetOf(s));
      AskForKeepsGood(w, s.(providerSpec := s.providerSpec.(shielded := shielded)), c, verdict.body, now);
    }
  }

  lemma AskForKeepsGood(w: World, s: Scope, c: Creation, body: InstanceBody, now: int)
    requires Good(w) && Valid(TargetOf(s)) && Sanctioned(w.cloud.around, TargetOf(s), body)
    ensures Good(AskFor(w, s, c.boots, body, c.message, now).0)
  {
    var t := TargetOf(s);
    InsertKeepsGood(w, t, c.boots, body);
    ReconcileKeepsGood(Issue(w, t, InstancesInsert(KeyOf(t), c.boots, body)).0, s, now);
  }

  lemma ReconcileKeepsGood(w: World, s: Scope, now: int)
    requires Good(w)
    ensures Good(ReconcileWithCloud(w, s, now).0)
  {
    IssueKeepsGood(w, TargetOf(s), InstancesGet(KeyOf(TargetOf(s))));
  }

  lemma InsertKeepsGood(w: World, t: Target, boots: Instance, body: InstanceBody)
    requires Good(w) && Valid(t) && Sanctioned(w.cloud.around, t, body)
    ensures Good(Issue(w, t, InstancesInsert(KeyOf(t), boots, body)).0)
  {
    IssueKeepsGood(w, t, InstancesInsert(KeyOf(t), boots, body));
  }

  lemma UpdateKeepsGood(w: World, s: Scope, now: int)
    requires Good(w)
    ensures Good(Update(w, s, now).0)
  {
    var t := TargetOf(s);
    ProcessPoolsKeepsGood(w, t, t.spec.targetPools, true);
    var (w1, processed) := ProcessPools(w, t, t.spec.targetPools, true);
    IssueKeepsGood(w1, t, InstancesGet(KeyOf(t)));
    if t.role == MASTER {
      RegisterKeepsGood(w1, t, s.providerStatus.instanceState);
      IssueKeepsGood(Register(w1, t, s.providerStatus.instanceState).0, t, InstancesGet(KeyOf(t)));
    }
  }

  lemma ExecKeepsGood(sys: System, step: Step, credentials: string)
    requires Good(sys.world) && Legal(sys, step)
    ensures Good(Exec(sys, step, credentials).0.world)
  {
    match step
    case DoCreate(faults, creation, closing) =>
      CreateKeepsGood(sys.world.(faults := faults), Open(sys.stored, credentials), creation, closing.now);
    case DoUpdate(faults, closing) =>
      UpdateKeepsGood(sys.world.(faults := faults), Open(sys.stored, credentials), closing.now);
    case DoDelete(faults) =>
      DeleteTheorem(sys.world.(faults := faults), Target0(sys, credentials), sys.stored.providerId);
    case DoExists(faults) =>
      ActuatorExistsTheorem(sys.world.(faults := faults), Target0(sys, credentials), sys.stored.status.phase,
          sys.stored.providerId);
    case CloudMoves(cloud) =>
      if KeepsControlPlane(sys.world.cloud, cloud) {
        BackedKept(sys.world, cloud);
      }
    case UserEdits(_) =>
  }

  ghost predicate IsRun(states: seq<System>, steps: seq<Step>, credentials: string) {
    && |states| == |steps| + 1
    && forall i :: 0 <= i < |steps| ==>
        Legal(states[i], steps[i]) && states[i + 1] == Exec(states[i], steps[i], credentials).0
  }

  /**
   On every run: every write issued so far was justified by the cloud it met (so no instance was
   removed while in a pool of the spec or RUNNING in its group, and the backend list was only ever
   extended), and every instance put into a control-plane group still has a group that is a backend,
   unless another party took a group or a backend away since.
   */
  lemma {:induction false} EveryWriteJustified(states: seq<System>, steps: seq<Step>, credentials: string, n: nat)
    requires IsRun(states, steps, credentials) && n < |states|
    requires Good(states[0].world)
    ensures Good(states[n].world) && AllJustified(states[n].world.trace) && Backed(states[n].world)
  {
    if n == 0 {
    } else {
      EveryWriteJustified(states, steps, credentials, n - 1);
      ExecKeepsGood(states[n - 1], steps[n - 1], credentials);
      assert states[n - 1 + 1] == Exec(states[n - 1], steps[n - 1], credentials).0;
    }
  }

  /** Nobody takes a group or a backend away. */
  ghost predicate Undisturbed(sys: System, step: Step) {
    step.CloudMoves? ==> KeepsControlPlane(sys.world.cloud, step.cloud)
  }

  /** While nobody takes a group or a backend away, that holds of every instance ever put into a group. */
  lemma {:induction false} MembershipsStayBacked(states: seq<System>, steps: seq<Step>, credentials: string, n: nat)
    requires IsRun(states, steps, credentials) && n < |states|
    requires Good(states[0].world) && states[0].world.since == 0
    requires forall i :: 0 <= i < |steps| ==> Undisturbed(states[i], steps[i])
    ensures states[n].world.since == 0
    ensures forall i :: 0 <= i < |states[n].world.trace| && states[n].world.trace[i].call.GroupAdd? ==>
              && GroupOf(states[n].world.trace[i].target) in states[n].world.cloud.groups
              && IsBackend(states[n].world.cloud, states[n].world.trace[i].target)
  {
    EveryWriteJustified(states, steps, credentials, n);
    if n == 0 {
    } else {
      MembershipsStayBacked(states, steps, credentials, n - 1);
      assert Undisturbed(states[n - 1], steps[n - 1]);
      assert states[n - 1 + 1] == Exec(states[n - 1], steps[n - 1], credentials).0;
    }
  }

  /**
   In particular, every instance asked for on any run carried the cluster's ownership label and at most
   32 user labels, at most 50 tags, all resolved, shielded settings with every disabled flag sent, at
   most one kind of GPU that passed validation, and an image on every boot disk, by the answers of the
   services at that time.
   */
  lemma EveryInsertIsSanctioned(states: seq<System>, steps: seq<Step>, credentials: string, n: nat, i: nat)
    requires IsRun(states, steps, credentials) && n < |states|
    requires Good(states[0].world)
    requires i < |states[n].world.trace| && states[n].world.trace[i].call.InstancesInsert?
    ensures var e := states[n].world.trace[i];
      && e.call.key == KeyOf(e.target) && Valid(e.target)
      && Sanctioned(e.before.around, e.target, e.call.asked)
  {
    EveryWriteJustified(states, steps, credentials, n);
    assert Justified(states[n].world.trace[i]);
  }

  // ----- deletion safety -----

  lemma IssueGrows(before: seq<Event>, w: World, t: Target, call: Call, own: Target)
    requires Grown(before, w.trace, own) && IsOwn(own, call)
    ensures Grown(before, Issue(w, t, call).0.trace, own)
  {
  }

  lemma {:induction false} PoolsGrow(before: seq<Event>, w: World, t: Target, pools: seq<string>, desired: bool)
    requires Grown(before, w.trace, t) && forall pool :: pool in pools ==> pool in t.spec.targetPools
    ensures Grown(before, ProcessPools(w, t, pools, desired).0.trace, t)
    decreases |pools|
  {
    if pools == [] {
    } else {
      assert pools[0] in pools;
      var pool := PoolOf(t, pools[0]);
      var (w1, got) := Issue(w, t, PoolGet(pool));
      IssueGrows(before, w, t, PoolGet(pool), t);
      if !got.Failed? {
        if (Link(t) in got.links) == desired {
          PoolsGrow(before, w1, t, pools[1..], desired);
        } else {
          var write := if desired then PoolAdd(pool, Link(t)) else PoolRemove(pool, Link(t));
          IssueGrows(before, w1, t, write, t);
          PoolsGrow(before, Issue(w1, t, write).0, t, pools[1..], desired);
        }
      }
    }
  }

  lemma EnsureBackendGrows(before: seq<Event>, w: World, t: Target)
    requires Grown(before, w.trace, t)
    ensures Grown(before, EnsureBackend(w, t).0.trace, t)
  {
    var read := ServiceGet(ServiceOf(t));
    var (w1, got) := Issue(w, t, read);
    IssueGrows(before, w, t, read, t);
    var (w2, again) := Issue(w1, t, read);
    IssueGrows(before, w1, t, read, t);
    if !again.Failed? {
      var body := again.body.(backends := again.body.backends + [GroupLink(t)]);
      IssueGrows(before, w2, t, ServiceUpdate(ServiceOf(t), body), t);
    }
  }

  lemma MakeGroupGrows(before: seq<Event>, w: World, t: Target)
    requires Grown(before, w.trace, t)
    ensures Grown(before, MakeGroup(w, t).0.trace, t)
  {
    IssueGrows(before, w, t, GroupGet(GroupOf(t)), t);
    if t.spec.networkInterfaces != [] {
      IssueGrows(before, Issue(w, t, GroupGet(GroupOf(t))).0, t, GroupInsert(GroupOf(t), GroupNetwork(t)), t);
    }
  }

  lemma RegisterGrows(before: seq<Event>, w: World, t: Target, state: Option<string>)
    requires Grown(before, w.trace, t)
    ensures Grown(before, Register(w, t, state).0.trace, t)
  {
    MakeGroupGrows(before, w, t);
    EnsureBackendGrows(before, MakeGroup(w, t).0, t);
    var w1 := EnsureGroup(w, t).0;
    IssueGrows(before, w1, t, GroupList(GroupOf(t)), t);
    IssueGrows(before, Issue(w1, t, GroupList(GroupOf(t))).0, t, GroupAdd(GroupOf(t), Link(t)), t);
  }

  lemma CreateGrows(w: World, s: Scope, c: Creation, now: int)
    ensures Grown(w.trace, Create(w, s, c.boots, c.message, now).0.trace, TargetOf(s))
  {
    var (shielded, verdict) := Settle(w.cloud.around, TargetOf(s));
    if verdict.Admitted? {
      AskForGrows(w, s.(providerSpec := s.providerSpec.(shielded := shielded)), c, verdict.body, now, TargetOf(s));
    }
  }

  lemma AskForGrows(w: World, s: Scope, c: Creation, body: InstanceBody, now: int, own: Target)
    requires KeyOf(TargetOf(s)) == InstanceKey(own.project, own.spec.zone, own.name)
    ensures Grown(w.trace, AskFor(w, s, c.boots, body, c.message, now).0.trace, own)
  {
    var t, key := TargetOf(s), KeyOf(TargetOf(s));
    IssueGrows(w.trace, w, t, InstancesInsert(key, c.boots, body), own);
    IssueGrows(w.trace, Issue(w, t, InstancesInsert(key, c.boots, body)).0, t, InstancesGet(key), own);
  }

  lemma UpdateGrows(w: World, s: Scope, now: int)
    ensures Grown(w.trace, Update(w, s, now).0.trace, TargetOf(s))
  {
    var t := TargetOf(s);
    PoolsGrow(w.trace, w, t, t.spec.targetPools, true);
    var w1 := ProcessPools(w, t, t.spec.targetPools, true).0;
    var w2 := Register(w1, t, s.providerStatus.instanceState).0;
    RegisterGrows(w.trace, w1, t, s.providerStatus.instanceState);
    IssueGrows(w.trace, w1, t, InstancesGet(KeyOf(t)), t);
    IssueGrows(w.trace, w2, t, InstancesGet(KeyOf(t)), t);
  }

  lemma PrepareDeleteGrows(w: World, t: Target, providerId: Option<string>)
    ensures Grown(w.trace, PrepareDelete(w, t, providerId).0.trace, t)
  {
    PoolsGrow(w.trace, w, t, t.spec.targetPools, false);
    var w1 := ProcessPools(w, t, t.spec.targetPools, false).0;
    IssueGrows(w.trace, w1, t, InstancesGet(KeyOf(t)), t);
    var w2, list := Exists(w1, t).0, GroupList(GroupOf(t));
    IssueGrows(w.trace, w2, t, list, t);
    IssueGrows(w.trace, Issue(w2, t, list).0, t, GroupRemove(GroupOf(t), Link(t)), t);
    assert Grown(w.trace, Unregister(w2, t).0.trace, t);
  }

  lemma DeleteGrows(w: World, t: Target, providerId: Option<string>)
    ensures Grown(w.trace, Delete(w, t, providerId).0.trace, t)
  {
    PrepareDeleteGrows(w, t, providerId);
    IssueGrows(w.trace, PrepareDelete(w, t, providerId).0, t, InstancesDelete(KeyOf(t)), t);
  }

  lemma ExecGrows(sys: System, step: Step, credentials: string)
    ensures Grown(sys.world.trace, Exec(sys, step, credentials).0.world.trace, Target0(sys, credentials))
  {
    match step
    case DoCreate(faults, creation, closing) =>
      CreateGrows(sys.world.(faults := faults), Open(sys.stored, credentials), creation, closing.now);
    case DoUpdate(faults, closing) =>
      UpdateGrows(sys.world.(faults := faults), Open(sys.stored, credentials), closing.now);
    case DoDelete(faults) =>
      DeleteGrows(sys.world.(faults := faults), Target0(sys, credentials), sys.stored.providerId);
    case DoExists(faults) =>
      var w, t := sys.world.(faults := faults), Target0(sys, credentials);
      IssueGrows(w.trace, w, t, InstancesGet(KeyOf(t)), t);
    case CloudMoves(_) =>
    case UserEdits(_) =>
  }

  /** Every instance ever asked for lies at one key. */
  ghost predicate InsertsAt(trace: seq<Event>, key: InstanceKey) {
    forall i :: 0 <= i < |trace| && trace[i].call.InstancesInsert? ==> trace[i].call.key == key
  }

  lemma ExecInsertsAt(sys: System, step: Step, credentials: string, key: InstanceKey)
    requires InsertsAt(sys.world.trace, key) && key == KeyOf(Target0(sys, credentials))
    ensures InsertsAt(Exec(sys, step, credentials).0.world.trace, key)
  {
    ExecGrows(sys, step, credentials);
    var before, after := sys.world.trace, Exec(sys, step, credentials).0.world.trace;
    forall i | 0 <= i < |after| && after[i].call.InstancesInsert?
      ensures after[i].call.key == key
    {
      if i < |before| {
        assert after[i] == before[i];
      }
    }
  }

  // ----- what an operation stores -----

  /** A scope that differs from the object it was opened on only in what reconciling may set. */
  ghost predicate FromOpen(s: Scope, stored: Machine) {
    && s.orig == stored
    && s.machine == stored.(providerId := s.machine.providerId,
                            status := stored.status.(addresses := s.machine.status.addresses))
    && s.providerSpec == stored.spec.(shielded := s.providerSpec.shielded)
    && (stored.providerId.Some? ==> s.machine.providerId.Some?)
    && (ShowsCreated(s.providerStatus.conditions) ==>
        ShowsCreated(stored.status.provider.conditions) || s.machine.providerId.Some?)
  }

  lemma ReconcileScope(w: World, s: Scope, stored: Machine, now: int)
    requires FromOpen(s, stored)
    ensures FromOpen(ReconcileWithCloud(w, s, now).1, stored)
  {
  }

  lemma CreateScope(w: World, stored: Machine, credentials: string, c: Creation, now: int)
    ensures FromOpen(Create(w, Open(stored, credentials), c.boots, c.message, now).1, stored)
  {
    var s := Open(stored, credentials);
    var (shielded, verdict) := Settle(w.cloud.around, TargetOf(s));
    if verdict.Admitted? {
      AskForScope(w, s.(providerSpec := s.providerSpec.(shielded := shielded)), stored, c, verdict.body, now);
    }
  }

  lemma AskForScope(w: World, s: Scope, stored: Machine, c: Creation, body: InstanceBody, now: int)
    requires FromOpen(s, stored)
    ensures FromOpen(AskFor(w, s, c.boots, body, c.message, now).1, stored)
  {
    FailureShowsNothing(s.providerStatus.conditions, c.message, now);
    ReconcileScope(Issue(w, TargetOf(s), InstancesInsert(KeyOf(TargetOf(s)), c.boots, body)).0, s, stored, now);
  }

  lemma UpdateScope(w: World, stored: Machine, credentials: string, now: int)
    ensures FromOpen(Update(w, Open(stored, credentials), now).1, stored)
  {
    var s := Open(stored, credentials);
    var w1 := ProcessPools(w, TargetOf(s), s.providerSpec.targetPools, true).0;
    ReconcileScope(w1, s, stored, now);
    ReconcileScope(Register(w1, TargetOf(s), s.providerStatus.instanceState).0, s, stored, now);
  }

  /** Same name, labels and provider spec, the shielded configuration aside. */
  ghost predicate SameIdentity(m: Machine, m': Machine) {
    && m'.name == m.name && m'.cluster == m.cluster && m'.role == m.role
    && m'.spec == m.spec.(shielded := m'.spec.shielded)
  }

  lemma FinishStores(s: Scope, stored: Machine, outcome: Outcome, c: Patching)
    requires FromOpen(s, stored)
    ensures var m := Finish(s, stored, outcome, c).0;
      && SameIdentity(stored, m)
      && (stored.providerId.Some? ==> m.providerId.Some?)
      && (Sound(stored) ==> Sound(m))
  {
    var local := Encoded(s, c.now);
    assert local.providerId == s.machine.providerId;
    assert local.status.provider == s.providerStatus || local.status.provider == stored.status.provider;
    var stored1 := PatchObject(stored, stored, local);
    assert SameIdentity(stored, stored1) && stored1.status == stored.status &&
        stored1.providerId == s.machine.providerId;
  }

  lemma ExecStores(sys: System, step: Step, credentials: string)
    ensures var m := Exec(sys, step, credentials).0.stored;
      && (!step.UserEdits? ==> SameIdentity(sys.stored, m))
      && (sys.stored.providerId.Some? ==> m.providerId.Some?)
      && (Sound(sys.stored) ==> Sound(m))
  {
    match step
    case DoCreate(faults, creation, closing) =>
      var w := sys.world.(faults := faults);
      CreateScope(w, sys.stored, credentials, creation, closing.now);
      var (_, s, outcome) := Create(w, Open(sys.stored, credentials), creation.boots, creation.message, closing.now);
      FinishStores(s, sys.stored, outcome, closing);
    case DoUpdate(faults, closing) =>
      var w := sys.world.(faults := faults);
      UpdateScope(w, sys.stored, credentials, closing.now);
      var (_, s, outcome) := Update(w, Open(sys.stored, credentials), closing.now);
      FinishStores(s, sys.stored, outcome, closing);
    case DoDelete(_) =>
    case DoExists(_) =>
    case CloudMoves(_) =>
    case UserEdits(_) =>
  }

  /** On every run a recorded provider ID stays recorded, and Created=True is never stored without one. */
  lemma {:induction false} CreatedImpliesRecorded(states: seq<System>, steps: seq<Step>, credentials: string, n: nat)
    requires IsRun(states, steps, credentials) && n < |states|
    requires Sound(states[0].stored)
    ensures Sound(states[n].stored)
    ensures states[0].stored.providerId.Some? ==> states[n].stored.providerId.Some?
  {
    if n == 0 {
    } else {
      CreatedImpliesRecorded(states, steps, credentials, n - 1);
      ExecStores(states[n - 1], steps[n - 1], credentials);
      assert states[n - 1 + 1] == Exec(states[n - 1], steps[n - 1], credentials).0;
    }
  }

  /** User edits that leave project and zone alone. */
  ghost predicate KeepsPlace(sys: System, step: Step) {
    step.UserEdits? ==> step.spec.projectId == sys.stored.spec.projectId && step.spec.zone == sys.stored.spec.zone
  }

  lemma {:induction false} InsertsStayAtOneKey(states: seq<System>, steps: seq<Step>, credentials: string, n: nat)
    requires IsRun(states, steps, credentials) && n < |states|
    requires forall i :: 0 <= i < |steps| ==> KeepsPlace(states[i], steps[i])
    requires InsertsAt(states[0].world.trace, KeyOf(Target0(states[0], credentials)))
    ensures KeyOf(Target0(states[n], credentials)) == KeyOf(Target0(states[0], credentials))
    ensures InsertsAt(states[n].world.trace, KeyOf(Target0(states[n], credentials)))
  {
    if n == 0 {
    } else {
      InsertsStayAtOneKey(states, steps, credentials, n - 1);
      assert KeepsPlace(states[n - 1], steps[n - 1]);
      assert states[n - 1 + 1] == Exec(states[n - 1], steps[n - 1], credentials).0;
      ExecInsertsAt(states[n - 1], steps[n - 1], credentials, KeyOf(Target0(states[0], credentials)));
      if !steps[n - 1].UserEdits? {
        ExecStores(states[n - 1], steps[n - 1], credentials);
      }
    }
  }

  /**
   Delete safety over whole runs: with project, zone and name fixed and any faults anywhere,
   when Delete returns nil no instance that any Create of the run asked for exists, and the
   instance's link is in none of the spec's target pools.
   */
  lemma DeleteSafety(states: seq<System>, steps: seq<Step>, credentials: string, faults: seq<Fault>)
    requires IsRun(states, steps, credentials)
    requires Good(states[0].world)
    requires forall i :: 0 <= i < |steps| ==> KeepsPlace(states[i], steps[i])
    requires InsertsAt(states[0].world.trace, KeyOf(Target0(states[0], credentials)))
    requires Honest(faults)
    ensures var last := states[|steps|];
      var (after, outcome) := Exec(last, DoDelete(faults), credentials);
      outcome == Success ==>
        && (forall i :: 0 <= i < |after.world.trace| && after.world.trace[i].call.InstancesInsert? ==>
              after.world.trace[i].call.key !in after.world.cloud.instances)
        && KeyOf(Target0(after, credentials)) !in after.world.cloud.instances
        && InNoPool(after.world.cloud, Target0(after, credentials))
  {
    var last := states[|steps|];
    EveryWriteJustified(states, steps, credentials, |steps|);
    InsertsStayAtOneKey(states, steps, credentials, |steps|);
    var key := KeyOf(Target0(last, credentials));
    ExecInsertsAt(last, DoDelete(faults), credentials, key);
    DeleteTheorem(last.world.(faults := faults), Target0(last, credentials), last.stored.providerId);
  }

  /**
   The same for the question that lets the machine object go: with the place fixed, Exists answers
   (false, nil) only when no instance that any Create of the run asked for exists.
   */
  lemma AbsenceIsReal(states: seq<System>, steps: seq<Step>, credentials: string, faults: seq<Fault>)
    requires IsRun(states, steps, credentials)
    requires Good(states[0].world)
    requires forall i :: 0 <= i < |steps| ==> KeepsPlace(states[i], steps[i])
    requires InsertsAt(states[0].world.trace, KeyOf(Target0(states[0], credentials)))
    requires Honest(faults)
    ensures var last := states[|steps|];
      var (w, found, answer, _) :=
        ActuatorExists(last.world.(faults := faults), Target0(last, credentials), last.stored.status.phase,
            last.stored.providerId);
      !found && answer == Success ==>
        forall i :: 0 <= i < |last.world.trace| && last.world.trace[i].call.InstancesInsert? ==>
          last.world.trace[i].call.key !in w.cloud.instances
  {
    var last := states[|steps|];
    EveryWriteJustified(states, steps, credentials, |steps|);
    InsertsStayAtOneKey(states, steps, credentials, |steps|);
    ActuatorExistsTheorem(last.world.(faults := faults), Target0(last, credentials), last.stored.status.phase,
        last.stored.providerId);
  }

  /**
   Even after arbitrary edits of the spec, a machine with a recorded provider ID is never
   reported deleted while its project or zone does not exist.
   */
  lemma RecordedMachineIsNotForgotten(states: seq<System>, steps: seq<Step>, credentials: string, faults: seq<Fault>)
    requires IsRun(states, steps, credentials)
    requires Good(states[0].world) && Honest(faults)
    ensures var last := states[|steps|];
      last.stored.providerId.Some? && !PlaceExists(last.world.cloud, Target0(last, credentials)) ==>
        Exec(last, DoDelete(faults), credentials).1 != Success
  {
    var last := states[|steps|];
    EveryWriteJustified(states, steps, credentials, |steps|);
    DeleteTheorem(last.world.(faults := faults), Target0(last, credentials), last.stored.providerId);
  }

  /**
   The place must stay fixed: once an edit has moved the machine to another key, a Delete that
   returns nil leaves every instance asked for under the old key where it is, recorded or not.
   */
  lemma EditedMachineStrands(sys: System, credentials: string, spec: ProviderSpec, faults: seq<Fault>, key: InstanceKey)
    requires Good(sys.world) && Honest(faults) && key in sys.world.cloud.instances
    ensures var edited := Exec(sys, UserEdits(spec), credentials).0;
      var (after, outcome) := Exec(edited, DoDelete(faults), credentials);
      outcome == Success ==> key in after.world.cloud.instances && key != KeyOf(Target0(edited, credentials))
  {
    var edited := Exec(sys, UserEdits(spec), credentials).0;
    DeleteTheorem(edited.world.(faults := faults), Target0(edited, credentials), edited.stored.providerId);
  }

  const CLEAN := Patching(0, PatchClean, PatchClean)

  /** The machine as an edit leaves it. */
  function EditedTarget(sys: System, spec: ProviderSpec, credentials: string): Target {
    TargetOf(Open(sys.stored.(spec := spec), credentials))
  }

  /** A machine that a fault-free Create brings up. */
  ghost predicate Creatable(sys: System, credentials: string) {
    var t := Target0(sys, credentials);
    && Valid(t) && Admissible(sys.world.cloud.around, t)
    && PlaceExists(sys.world.cloud, t) && KeyOf(t) !in sys.world.cloud.instances
  }

  /**
   What becomes of a machine created without a fault whose spec is then edited in any way: Delete
   returns nil, and leaves the instance running, if and only if the edited machine is valid, its pools
   exist, and it now names an existing place that holds no instance of its name.
   */
  lemma StrandedExactlyWhen(sys: System, credentials: string, creation: Creation, spec: ProviderSpec)
    requires Good(sys.world) && Creatable(sys, credentials) && creation.boots.nics != []
    ensures var key, t := KeyOf(Target0(sys, credentials)), EditedTarget(sys, spec, credentials);
      var created := Exec(sys, DoCreate([], creation, CLEAN), credentials).0;
      var edited := Exec(created, UserEdits(spec), credentials).0;
      var (after, outcome) := Exec(edited, DoDelete([]), credentials);
      && (outcome == Success <==>
            && Valid(t) && AllExist(sys.world.cloud, t, spec.targetPools) && PlaceExists(sys.world.cloud, t)
            && KeyOf(t) != key && KeyOf(t) !in sys.world.cloud.instances)
      && (outcome == Success ==> key in after.world.cloud.instances && edited.stored.providerId.Some?)
  {
    CreatedWithoutFault(sys, credentials, creation);
    var created := Exec(sys, DoCreate([], creation, CLEAN), credentials).0;
    var t := EditedTarget(sys, spec, credentials);
    assert EditedTarget(created, spec, credentials) == t;
    EditedAndDeleted(created, credentials, spec);
    assert KeyOf(t) in created.world.cloud.instances <==>
           KeyOf(t) == KeyOf(Target0(sys, credentials)) || KeyOf(t) in sys.world.cloud.instances;
  }

  /** Delete after an edit of a machine whose ID is recorded, without faults. */
  lemma EditedAndDeleted(sys: System, credentials: string, spec: ProviderSpec)
    requires Good(sys.world) && sys.stored.providerId.Some?
    ensures var t, cloud := EditedTarget(sys, spec, credentials), sys.world.cloud;
      var edited := Exec(sys, UserEdits(spec), credentials).0;
      var (after, outcome) := Exec(edited, DoDelete([]), credentials);
      && edited.stored.providerId.Some?
      && (outcome == Success <==>
            Valid(t) && AllExist(cloud, t, spec.targetPools) && PlaceExists(cloud, t) && KeyOf(t) !in cloud.instances)
      && (outcome == Success ==> after.world.cloud.instances == cloud.instances)
  {
    DeleteOfRecorded(sys.world.(faults := []), EditedTarget(sys, spec, credentials), sys.stored.providerId);
  }

  lemma DeleteOfRecorded(w: World, t: Target, providerId: Option<string>)
    requires Good(w) && w.faults == [] && providerId.Some?
    ensures var (w', outcome) := Delete(w, t, providerId);
      && (outcome == Success <==>
            && Valid(t) && AllExist(w.cloud, t, t.spec.targetPools)
            && PlaceExists(w.cloud, t) && KeyOf(t) !in w.cloud.instances)
      && (outcome == Success ==> w'.cloud.instances == w.cloud.instances)
  {
    DeleteSucceedsExactlyWhen(w, t, providerId);
    DeleteTheorem(w, t, providerId);
  }

  /**
   The recorded ID would have told: after a clean create and any edit, the stored provider ID names
   the edited machine's instance exactly when the edit did not move it.
   */
  lemma RecordedIdTellsTheMove(sys: System, credentials: string, creation: Creation, spec: ProviderSpec)
    requires Good(sys.world) && Creatable(sys, credentials) && creation.boots.nics != []
    requires '/' !in Target0(sys, credentials).project && '/' !in sys.stored.spec.zone
    requires '/' !in EditedTarget(sys, spec, credentials).project && '/' !in spec.zone
    ensures var created := Exec(sys, DoCreate([], creation, CLEAN), credentials).0;
      var t := EditedTarget(sys, spec, credentials);
      created.stored.providerId == Some(Names.ProviderId(t.project, t.spec.zone, t.name)) <==>
      KeyOf(t) == KeyOf(Target0(sys, credentials))
  {
    CreatedWithoutFault(sys, credentials, creation);
    var t0, t := Target0(sys, credentials), EditedTarget(sys, spec, credentials);
    if Names.ProviderId(t0.project, t0.spec.zone, t0.name) == Names.ProviderId(t.project, t.spec.zone, t.name) {
      Names.ProviderIdInjective(t0.project, t0.spec.zone, t0.name, t.project, t.spec.zone, t.name);
    }
  }

  lemma CreatedWithoutFault(sys: System, credentials: string, creation: Creation)
    requires Good(sys.world) && Creatable(sys, credentials) && creation.boots.nics != []
    ensures var t := Target0(sys, credentials);
      var created := Exec(sys, DoCreate([], creation, CLEAN), credentials).0;
      && Good(created.world) && SameIdentity(sys.stored, created.stored)
      && created.stored.providerId == Some(Names.ProviderId(t.project, t.spec.zone, t.name))
      && created.world.cloud == sys.world.cloud.(instances := sys.world.cloud.instances[KeyOf(t) := creation.boots])
  {
    var w, s := sys.world.(faults := []), Open(sys.stored, credentials);
    CleanCreate(w, sys.stored, credentials, creation);
    CreateKeepsGood(w, s, creation, CLEAN.now);
    var (w1, s1, outcome) := Create(w, s, creation.boots, creation.message, CLEAN.now);
    FinishStores(s1, sys.stored, outcome, CLEAN);
    CloseStoresEverything(s1, CLEAN.now);
  }

  /**
   A fault-free create of an admissible machine in an existing place: the instance is there and the scope has its ID.
   */
  lemma CleanCreate(w: World, stored: Machine, credentials: string, creation: Creation)
    requires w.faults == [] && creation.boots.nics != []
    requires Creatable(System(w, stored), credentials)
    ensures var s := Open(stored, credentials);
      var (w', s', outcome) := Create(w, s, creation.boots, creation.message, CLEAN.now);
      && w'.cloud == w.cloud.(instances := w.cloud.instances[KeyOf(TargetOf(s)) := creation.boots])
      && !IsAbrupt(outcome) && FromOpen(s', stored)
      && s'.machine.providerId == Some(Names.ProviderId(s.project, stored.spec.zone, stored.name))
  {
    var s := Open(stored, credentials);
    AdmittedExactlyWhen(w.cloud.around, TargetOf(s));
    CreateScope(w, stored, credentials, creation, CLEAN.now);
    var settled := Settle(w.cloud.around, TargetOf(s));
    CleanAskFor(w, s.(providerSpec := s.providerSpec.(shielded := settled.0)), creation, settled.1.body);
  }

  lemma CleanAskFor(w: World, s: Scope, creation: Creation, body: InstanceBody)
    requires w.faults == [] && creation.boots.nics != []
    requires PlaceExists(w.cloud, TargetOf(s)) && KeyOf(TargetOf(s)) !in w.cloud.instances
    ensures var (w', s', outcome) := AskFor(w, s, creation.boots, body, creation.message, CLEAN.now);
      && w'.cloud == w.cloud.(instances := w.cloud.instances[KeyOf(TargetOf(s)) := creation.boots])
      && !IsAbrupt(outcome)
      && s'.machine.providerId == Some(Names.ProviderId(s.project, s.providerSpec.zone, s.machine.name))
  {
  }
}
