/**
 Fault-free retries of Update and Delete from any state: what they reach, how many are needed,
 and that nothing is written once it is reached.
 */
module Convergence {
  import opened Common
  import opened Machines
  import opened CloudModel
  import opened Actuation
  import opened Persistence
  import opened Justification
  import opened TargetPools
  import opened ControlPlane
  import opened Deletion
  import opened Runs

  /** The surroundings an update needs: a valid machine whose instance runs, its pools, and for a master the service. */
  ghost predicate Ready(c: Cloud, t: Target) {
    && Valid(t) && t.project in c.projects && t.spec.zone in c.zones
    && KeyOf(t) in c.instances && c.instances[KeyOf(t)].status == RUNNING && c.instances[KeyOf(t)].nics != []
    && AllExist(c, t, t.spec.targetPools)
    && (t.role == MASTER ==> EnsurePossible(c, t))
  }

  /** What updates work towards. */
  ghost predicate Converged(c: Cloud, t: Target) {
    && (forall pool :: pool in t.spec.targetPools ==> InPool(c, PoolOf(t, pool), Link(t)))
    && (t.role == MASTER ==> GroupOf(t) in c.groups && IsBackend(c, t) && Link(t) in c.groups[GroupOf(t)])
  }

  lemma CleanPools(w: World, t: Target)
    requires w.faults == [] && Ready(w.cloud, t)
    ensures var (w', outcome) := ProcessPools(w, t, t.spec.targetPools, true);
      && outcome == Success && w'.faults == [] && Ready(w'.cloud, t)
      && w'.cloud.instances == w.cloud.instances
      && forall pool :: pool in t.spec.targetPools ==> InPool(w'.cloud, PoolOf(t, pool), Link(t))
  {
    ProcessPoolsTheorem(w, t, t.spec.targetPools, true);
    SettledMembership(w.cloud, t, t.spec.targetPools, true);
  }

  lemma CleanReconcile(w: World, s: Scope, now: int)
    requires w.faults == [] && Ready(w.cloud, TargetOf(s))
    ensures var (w', s', outcome) := ReconcileWithCloud(w, s, now);
      && outcome == Success && w'.faults == [] && w'.cloud == w.cloud
      && s' == Observed(s, w.cloud.instances[KeyOf(TargetOf(s))], now)
  {
  }

  /** The instance is in the control-plane group of its zone. */
  ghost predicate InGroup(c: Cloud, t: Target) {
    GroupOf(t) in c.groups && Link(t) in c.groups[GroupOf(t)]
  }

  /** Whatever the faults, registering with a stored state other than RUNNING does not join the group. */
  lemma RegisterMayNotJoin(w: World, t: Target, state: Option<string>)
    requires state != Some(RUNNING)
    ensures InGroup(Register(w, t, state).0.cloud, t) <==> InGroup(w.cloud, t)
  {
    EnsureGroupTheorem(w, t);
    JoinGroupTheorem(EnsureGroup(w, t).0, t, state);
  }

  /**
   One is not enough: whatever faults it meets, an update opened with a state other than RUNNING never joins the
   group.
   */
  lemma OneUpdateMayNotJoin(w: World, s: Scope, now: int)
    requires s.providerStatus.instanceState != Some(RUNNING)
    ensures InGroup(Update(w, s, now).0.cloud, TargetOf(s)) <==> InGroup(w.cloud, TargetOf(s))
  {
    var t := TargetOf(s);
    ProcessPoolsTheorem(w, t, t.spec.targetPools, true);
    RegisterMayNotJoin(ProcessPools(w, t, t.spec.targetPools, true).0, t, s.providerStatus.instanceState);
    UpdateCloud(w, s, now);
  }

  /**
   A fault-free update succeeds, and converges exactly when the state it was opened with was RUNNING or there is
   nothing to join.
   */
  lemma CleanUpdate(w: World, s: Scope, now: int)
    requires w.faults == [] && Ready(w.cloud, TargetOf(s))
    ensures var t := TargetOf(s);
      var (w', s', outcome) := Update(w, s, now);
      && outcome == Success && w'.cloud.instances == w.cloud.instances && Ready(w'.cloud, t)
      && s' == Observed(s, w.cloud.instances[KeyOf(t)], now)
      && (Converged(w'.cloud, t) <==>
            s.providerStatus.instanceState == Some(RUNNING) || t.role != MASTER || InGroup(w.cloud, t))
  {
    var t := TargetOf(s);
    var state := s.providerStatus.instanceState;
    CleanPools(w, t);
    var w1 := ProcessPools(w, t, t.spec.targetPools, true).0;
    ProcessPoolsTheorem(w, t, t.spec.targetPools, true);
    if t.role == MASTER {
      RegisterTheorem(w1, t, state);
      var w2 := Register(w1, t, state).0;
      if state != Some(RUNNING) {
        RegisterMayNotJoin(w1, t, state);
      }
      assert EnsurePossible(w2.cloud, t) && Ready(w2.cloud, t);
      CleanReconcile(w2, s, now);
    } else {
      CleanReconcile(w1, s, now);
    }
  }

  /**
   The stored object after a fault-free update, with the running state recorded for the next one; and
   when this one update already converges: exactly if the stored state was RUNNING, the machine is no
   master, or the instance was in the group before.
   */
  lemma CleanUpdateStores(sys: System, credentials: string)
    requires Ready(sys.world.cloud, Target0(sys, credentials))
    ensures var t := Target0(sys, credentials);
      var (sys', outcome) := Exec(sys, DoUpdate([], CLEAN), credentials);
      && outcome == Success
      && Target0(sys', credentials) == t
      && Ready(sys'.world.cloud, t)
      && sys'.stored.status.provider.instanceState == Some(RUNNING)
      && sys'.stored.providerId.Some? && ShowsCreated(sys'.stored.status.provider.conditions)
      && (Converged(sys'.world.cloud, t) <==>
            || sys.stored.status.provider.instanceState == Some(RUNNING)
            || t.role != MASTER || InGroup(sys.world.cloud, t))
  {
    var w, s := sys.world.(faults := []), Open(sys.stored, credentials);
    var instance := w.cloud.instances[KeyOf(TargetOf(s))];
    CleanUpdate(w, s, CLEAN.now);
    assert Update(w, s, CLEAN.now).1 == Worked(s, Saw(instance), CLEAN.now);
    RetryStores(sys.stored, credentials, instance, CLEAN.now);
  }

  /**
   Two fault-free updates converge from any state, whatever earlier faults left behind: the
   instance is in all its pools, a master is in its group and the group is a backend, and the
   provider ID and Created=True are stored.
   */
  lemma TwoUpdatesConverge(sys: System, credentials: string)
    requires Ready(sys.world.cloud, Target0(sys, credentials))
    ensures var sys1 := Exec(sys, DoUpdate([], CLEAN), credentials).0;
      var (sys2, outcome) := Exec(sys1, DoUpdate([], CLEAN), credentials);
      && outcome == Success
      && Converged(sys2.world.cloud, Target0(sys2, credentials)) && Ready(sys2.world.cloud, Target0(sys2, credentials))
      && sys2.stored.providerId.Some? && ShowsCreated(sys2.stored.status.provider.conditions)
  {
    CleanUpdateStores(sys, credentials);
    CleanUpdateStores(Exec(sys, DoUpdate([], CLEAN), credentials).0, credentials);
  }

  /** Without faults, the exact condition for an update that returns nil. */
  lemma UpdateSucceedsExactlyWhen(w: World, s: Scope, now: int)
    requires Good(w) && w.faults == []
    ensures Update(w, s, now).2 == Success <==> Ready(w.cloud, TargetOf(s))
  {
    var t := TargetOf(s);
    if Ready(w.cloud, t) {
      CleanUpdate(w, s, now);
    } else if Update(w, s, now).2 == Success {
      ProcessPoolsTheorem(w, t, t.spec.targetPools, true);
      var w1 := ProcessPools(w, t, t.spec.targetPools, true).0;
      if t.role == MASTER {
        RegisterTheorem(w1, t, s.providerStatus.instanceState);
      }
    }
  }

  // ----- deletion -----

  /** What a later Delete needs to return nil: the instance is gone and the rest is still there to be looked at. */
  ghost predicate Released(c: Cloud, t: Target, recorded: bool) {
    && Valid(t) && AllExist(c, t, t.spec.targetPools) && KeyOf(t) !in c.instances
    && (recorded ==> PlaceExists(c, t))
  }

  /**
   Deletion converges from wherever a run has led, whatever faults it met: a fault-free Delete stops
   the instance exactly when it is removable, out of its pools and, if it was RUNNING, of its group; and
   when the cloud has moved on in any way, the next fault-free Delete returns nil exactly when it has let
   the instance go.
   */
  lemma TwoDeletesConverge(states: seq<System>, steps: seq<Step>, credentials: string, later: Cloud)
    requires IsRun(states, steps, credentials) && Good(states[0].world)
    ensures var sys := states[|steps|];
      var t := Target0(sys, credentials);
      var (sys1, first) := Exec(sys, DoDelete([]), credentials);
      && (first == RequeueAfter <==> Removable(sys.world.cloud, t))
      && (first == RequeueAfter ==> Stopped(sys.world.cloud, sys1.world.cloud, t))
      && (Legal(sys1, CloudMoves(later)) ==>
            var sys2 := Exec(sys1, CloudMoves(later), credentials).0;
            var (sys3, second) := Exec(sys2, DoDelete([]), credentials);
            && (second == Success <==> Released(later, t, sys.stored.providerId.Some?))
            && (second == Success ==> InNoPool(sys3.world.cloud, t) && KeyOf(t) !in sys3.world.cloud.instances))
  {
    var sys := states[|steps|];
    EveryWriteJustified(states, steps, credentials, |steps|);
    FirstDelete(sys, credentials);
    var sys1 := Exec(sys, DoDelete([]), credentials).0;
    if Legal(sys1, CloudMoves(later)) {
      ExecKeepsGood(sys1, CloudMoves(later), credentials);
      LaterDelete(Exec(sys1, CloudMoves(later), credentials).0, credentials);
    }
  }

  lemma FirstDelete(sys: System, credentials: string)
    requires Good(sys.world)
    ensures var t := Target0(sys, credentials);
      var (sys', outcome) := Exec(sys, DoDelete([]), credentials);
      && Good(sys'.world) && sys'.stored == sys.stored
      && (outcome == RequeueAfter <==> Removable(sys.world.cloud, t))
      && (outcome == RequeueAfter ==> Stopped(sys.world.cloud, sys'.world.cloud, t))
  {
    var w, t := sys.world.(faults := []), Target0(sys, credentials);
    DeleteRemovesExactlyWhen(w, t, sys.stored.providerId);
    DeleteTheorem(w, t, sys.stored.providerId);
  }

  lemma LaterDelete(sys: System, credentials: string)
    requires Good(sys.world)
    ensures var t := Target0(sys, credentials);
      var (sys', outcome) := Exec(sys, DoDelete([]), credentials);
      && (outcome == Success <==> Released(sys.world.cloud, t, sys.stored.providerId.Some?))
      && (outcome == Success ==> InNoPool(sys'.world.cloud, t) && KeyOf(t) !in sys'.world.cloud.instances)
  {
    var w, t := sys.world.(faults := []), Target0(sys, credentials);
    DeleteSucceedsExactlyWhen(w, t, sys.stored.providerId);
    DeleteTheorem(w, t, sys.stored.providerId);
  }

  /**
   In particular, a removable instance is reported deleted after two Deletes and the cloud's letting go in between.
   */
  lemma RemovableIsDeleted(states: seq<System>, steps: seq<Step>, credentials: string)
    requires IsRun(states, steps, credentials) && Good(states[0].world)
    requires Removable(states[|steps|].world.cloud, Target0(states[|steps|], credentials))
    ensures var sys := states[|steps|];
      var t := Target0(sys, credentials);
      var sys1 := Exec(sys, DoDelete([]), credentials).0;
      var gone := sys1.world.cloud.(instances := sys1.world.cloud.instances - {KeyOf(t)});
      var sys2 := Exec(sys1, CloudMoves(gone), credentials).0;
      Legal(sys1, CloudMoves(gone)) && Exec(sys2, DoDelete([]), credentials).1 == Success
  {
    var sys := states[|steps|];
    var t := Target0(sys, credentials);
    EveryWriteJustified(states, steps, credentials, |steps|);
    var w := sys.world.(faults := []);
    DeleteTheorem(w, t, sys.stored.providerId);
    DeleteKeepsSurroundings(w, t, sys.stored.providerId);
    var sys1 := Exec(sys, DoDelete([]), credentials).0;
    var gone := sys1.world.cloud.(instances := sys1.world.cloud.instances - {KeyOf(t)});
    assert Consistent(gone);
    TwoDeletesConverge(states, steps, credentials, gone);
  }

  ghost predicate SameSurroundings(c: Cloud, c': Cloud) {
    c'.pools.Keys == c.pools.Keys && c'.projects == c.projects && c'.zones == c.zones
  }

  lemma PrepareKeepsSurroundings(w: World, t: Target, providerId: Option<string>)
    ensures SameSurroundings(w.cloud, PrepareDelete(w, t, providerId).0.cloud)
  {
    ProcessPoolsTheorem(w, t, t.spec.targetPools, false);
    var w1 := ProcessPools(w, t, t.spec.targetPools, false).0;
    var w2 := Exists(w1, t).0;
    assert w2.cloud == w1.cloud;
    UnregisterTheorem(w2, t);
    assert SameSurroundings(w.cloud, w2.cloud) && SameSurroundings(w.cloud, Unregister(w2, t).0.cloud);
  }

  lemma DeleteKeepsSurroundings(w: World, t: Target, providerId: Option<string>)
    ensures SameSurroundings(w.cloud, Delete(w, t, providerId).0.cloud)
  {
    PrepareKeepsSurroundings(w, t, providerId);
  }

  // ----- once settled, updates only read -----

  lemma QuietIssue(w: World, t: Target, call: Call)
    requires IsRead(call)
    ensures Issue(w, t, call).0.cloud == w.cloud && Writes(Issue(w, t, call).0.trace) == Writes(w.trace)
  {
    WritesAppend(w.trace, Event(t, call, w.cloud));
  }

  lemma QuietEnsureGroup(w: World, t: Target)
    requires Honest(w.faults) && GroupOf(t) in w.cloud.groups && IsBackend(w.cloud, t)
    ensures EnsureGroup(w, t).0.cloud == w.cloud
    ensures Writes(EnsureGroup(w, t).0.trace) == Writes(w.trace)
  {
    var (w1, got) := Issue(w, t, GroupGet(GroupOf(t)));
    QuietIssue(w, t, GroupGet(GroupOf(t)));
    assert MakeGroup(w, t).0 == w1;
    QuietIssue(w1, t, ServiceGet(ServiceOf(t)));
    assert EnsureBackend(w1, t).0 == Issue(w1, t, ServiceGet(ServiceOf(t))).0;
  }

  lemma QuietRegister(w: World, t: Target, state: Option<string>)
    requires Honest(w.faults) && GroupOf(t) in w.cloud.groups && IsBackend(w.cloud, t)
    requires Link(t) in w.cloud.groups[GroupOf(t)] * RunningLinks(w.cloud)
    ensures Register(w, t, state).0.cloud == w.cloud
    ensures Writes(Register(w, t, state).0.trace) == Writes(w.trace)
  {
    QuietEnsureGroup(w, t);
    var w1 := EnsureGroup(w, t).0;
    QuietIssue(w1, t, GroupList(GroupOf(t)));
    assert JoinGroup(w1, t, state).0 == Issue(w1, t, GroupList(GroupOf(t))).0;
  }

  /** From a settled state, an update that meets any honest faults writes nothing to the cloud. */
  lemma SettledUpdateIsQuiet(w: World, s: Scope, now: int)
    requires Honest(w.faults) && Ready(w.cloud, TargetOf(s)) && Converged(w.cloud, TargetOf(s))
    ensures Update(w, s, now).0.cloud == w.cloud
    ensures Writes(Update(w, s, now).0.trace) == Writes(w.trace)
  {
    var t := TargetOf(s);
    QuietWhenSettled(w, t, t.spec.targetPools, true);
    ProcessPoolsTheorem(w, t, t.spec.targetPools, true);
    var w1 := ProcessPools(w, t, t.spec.targetPools, true).0;
    QuietIssue(w1, t, InstancesGet(KeyOf(t)));
    if t.role == MASTER {
      assert Link(t) in RunningLinks(w1.cloud);
      QuietRegister(w1, t, s.providerStatus.instanceState);
      QuietIssue(Register(w1, t, s.providerStatus.instanceState).0, t, InstancesGet(KeyOf(t)));
    }
  }
}
