/**
 exists() and delete(): what their answers say about the cloud.
 */
module Deletion {
  import opened Common
  import opened Machines
  import opened CloudModel
  import opened Actuation
  import opened Justification
  import opened TargetPools
  import opened ControlPlane

  ghost predicate PlaceExists(c: Cloud, t: Target) {
    t.project in c.projects && t.spec.zone in c.zones
  }

  /** The answer of exists(), read against an honest cloud. */
  lemma ExistsTheorem(w: World, t: Target)
    requires Good(w)
    ensures var (w', found, answer) := Exists(w, t);
      && w'.cloud == w.cloud && Good(w')
      && (found ==> answer == Success && KeyOf(t) in w.cloud.instances)
      && (!found && answer == Success ==> KeyOf(t) !in w.cloud.instances && PlaceExists(w.cloud, t))
      && (answer == InvalidConfiguration ==> !found && !PlaceExists(w.cloud, t))
      && answer != RequeueAfter && answer != Panic && answer != Exit
      && (answer != OtherError ==> Valid(t))
      && (w.faults == [] ==>
            && w'.faults == []
            && (answer == Success <==> Valid(t) && PlaceExists(w.cloud, t))
            && (answer == InvalidConfiguration <==> Valid(t) && !PlaceExists(w.cloud, t))
            && (found <==> Valid(t) && KeyOf(t) in w.cloud.instances))
  {
    if Valid(t) {
      IssueKeepsGood(w, t, InstancesGet(KeyOf(t)));
      var (w1, got) := Issue(w, t, InstancesGet(KeyOf(t)));
      if got.Failed? && Misleading(got.error) {
        assert got == Serve(w.cloud, InstancesGet(KeyOf(t))).1;
      }
    }
  }

  /** delete() up to the decision, for any faults. */
  lemma PrepareDeleteTheorem(w: World, t: Target, providerId: Option<string>)
    requires Good(w)
    ensures var (w', remove, outcome) := PrepareDelete(w, t, providerId);
      && Good(w') && w'.cloud.instances == w.cloud.instances
      && (remove ==> outcome == Success && InNoPool(w'.cloud, t) && (t.role == MASTER ==> !AmongRunning(w'.cloud, t)))
      && (outcome == Success && !remove ==>
            && KeyOf(t) !in w'.cloud.instances && InNoPool(w'.cloud, t)
            && (providerId.Some? ==> PlaceExists(w.cloud, t)))
  {
    var pools := t.spec.targetPools;
    ProcessPoolsTheorem(w, t, pools, false);
    ProcessPoolsKeepsGood(w, t, pools, false);
    var (w1, processed) := ProcessPools(w, t, pools, false);
    if processed == Success {
      SettledMembership(w.cloud, t, pools, false);
      assert InNoPool(w1.cloud, t);
      ExistsTheorem(w1, t);
      var (w2, found, answer) := Exists(w1, t);
      if found && t.role == MASTER {
        UnregisterTheorem(w2, t);
        UnregisterKeepsGood(w2, t);
        assert InNoPool(Unregister(w2, t).0.cloud, t);
      }
    }
  }

  /**
   delete() reports success only when the instance is gone and its link is in none of the
   spec's pools; with a recorded provider ID never on the strength of a missing project or
   zone; and it removes the instance only when Justified allows it.
   */
  lemma DeleteTheorem(w: World, t: Target, providerId: Option<string>)
    requires Good(w)
    ensures var (w', outcome) := Delete(w, t, providerId);
      && Good(w')
      && (outcome == Success ==>
            && KeyOf(t) !in w'.cloud.instances && InNoPool(w'.cloud, t)
            && w'.cloud.instances == w.cloud.instances
            && (providerId.Some? ==> PlaceExists(w.cloud, t)))
  {
    PrepareDeleteTheorem(w, t, providerId);
    var (w1, remove, outcome) := PrepareDelete(w, t, providerId);
    if remove {
      IssueKeepsGood(w1, t, InstancesDelete(KeyOf(t)));
    }
  }

  /** Without faults, the exact condition under which a machine is reported deleted. */
  lemma DeleteSucceedsExactlyWhen(w: World, t: Target, providerId: Option<string>)
    requires Good(w) && w.faults == []
    ensures Delete(w, t, providerId).1 == Success <==>
            && Valid(t) && AllExist(w.cloud, t, t.spec.targetPools)
            && KeyOf(t) !in w.cloud.instances
            && (providerId.Some? ==> PlaceExists(w.cloud, t))
  {
    var pools := t.spec.targetPools;
    ProcessPoolsTheorem(w, t, pools, false);
    ProcessPoolsKeepsGood(w, t, pools, false);
    var (w1, processed) := ProcessPools(w, t, pools, false);
    if processed == Success {
      ExistsTheorem(w1, t);
    }
  }

  /** What removing the instance takes; a master can be removed only where its zone's group can be read. */
  ghost predicate Removable(c: Cloud, t: Target) {
    && Valid(t) && AllExist(c, t, t.spec.targetPools) && KeyOf(t) in c.instances
    && (t.role == MASTER ==> GroupOf(t) in c.groups)
  }

  lemma PreparedExactlyWhen(w: World, t: Target, providerId: Option<string>)
    requires Good(w)
    ensures var (w', remove, _) := PrepareDelete(w, t, providerId);
      && (remove ==> Removable(w.cloud, t))
      && (remove && t.role == MASTER ==> GroupOf(t) in w'.cloud.groups && LeftIfRunning(w.cloud, w'.cloud, t))
      && (remove && t.role != MASTER ==> w'.cloud.groups == w.cloud.groups)
      && (w.faults == [] ==> w'.faults == [] && (remove <==> Removable(w.cloud, t)))
  {
    var pools := t.spec.targetPools;
    ProcessPoolsTheorem(w, t, pools, false);
    ProcessPoolsKeepsGood(w, t, pools, false);
    var (w1, processed) := ProcessPools(w, t, pools, false);
    if processed == Success {
      ExistsTheorem(w1, t);
      UnregisterTheorem(Exists(w1, t).0, t);
    }
  }

  /**
   The instance has been told to stop, out of all its pools. A master has left its group if and only if
   it was RUNNING: one that was not stays in the group it was in.
   */
  ghost predicate Stopped(c: Cloud, c': Cloud, t: Target) {
    && KeyOf(t) in c.instances
    && c'.instances == c.instances[KeyOf(t) := c.instances[KeyOf(t)].(status := "STOPPING")]
    && InNoPool(c', t)
    && (t.role == MASTER ==> GroupOf(t) in c.groups && GroupOf(t) in c'.groups && LeftIfRunning(c, c', t))
    && (t.role != MASTER ==> c'.groups == c.groups)
  }

  /** The exact membership a removal leaves. */
  ghost predicate LeftIfRunning(c: Cloud, c': Cloud, t: Target)
    requires GroupOf(t) in c.groups && GroupOf(t) in c'.groups
  {
    Link(t) in c'.groups[GroupOf(t)] <==> Link(t) in c.groups[GroupOf(t)] && Link(t) !in RunningLinks(c)
  }

  /**
   Whatever faults it meets, Delete reports a removal only of a removable instance, which then is
   stopped; without faults, exactly of those.
   */
  lemma DeleteRemovesExactlyWhen(w: World, t: Target, providerId: Option<string>)
    requires Good(w)
    ensures var (w', outcome) := Delete(w, t, providerId);
      && (outcome == RequeueAfter ==> Removable(w.cloud, t) && Stopped(w.cloud, w'.cloud, t))
      && (w.faults == [] ==> (outcome == RequeueAfter <==> Removable(w.cloud, t)))
  {
    PreparedExactlyWhen(w, t, providerId);
    PrepareDeleteTheorem(w, t, providerId);
    PrepareRequeuesNothing(w, t, providerId);
    var (w1, remove, _) := PrepareDelete(w, t, providerId);
    if remove {
      StoppingTakesEffect(w1, t);
    }
  }

  lemma PrepareRequeuesNothing(w: World, t: Target, providerId: Option<string>)
    ensures PrepareDelete(w, t, providerId).2 != RequeueAfter
  {
    ProcessPoolsTheorem(w, t, t.spec.targetPools, false);
  }

  lemma StoppingTakesEffect(w: World, t: Target)
    requires KeyOf(t) in w.cloud.instances
    ensures var (w', done) := Issue(w, t, InstancesDelete(KeyOf(t)));
      && (w.faults == [] ==> !done.Failed?)
      && (!done.Failed? ==>
            w'.cloud == w.cloud.(
              instances := w.cloud.instances[KeyOf(t) := w.cloud.instances[KeyOf(t)].(status := "STOPPING")]))
  {
  }

  /**
   So a removed master stays in its group exactly when it was a member that was not RUNNING: the group is
   asked only for its RUNNING members.
   */
  lemma StaysInGroupExactlyWhen(w: World, t: Target, providerId: Option<string>)
    requires Good(w) && t.role == MASTER && Delete(w, t, providerId).1 == RequeueAfter
    ensures var c := Delete(w, t, providerId).0.cloud;
      && GroupOf(t) in w.cloud.groups && GroupOf(t) in c.groups
      && (Link(t) in c.groups[GroupOf(t)] <==>
            Link(t) in w.cloud.groups[GroupOf(t)] && Link(t) !in RunningLinks(w.cloud))
  {
    DeleteRemovesExactlyWhen(w, t, providerId);
  }

  /** A master without its zone's group is neither removed nor reported deleted, whatever the faults. */
  lemma MasterNeedsGroup(w: World, t: Target, providerId: Option<string>)
    requires Good(w) && t.role == MASTER && KeyOf(t) in w.cloud.instances && GroupOf(t) !in w.cloud.groups
    ensures Delete(w, t, providerId).1 != Success && Delete(w, t, providerId).1 != RequeueAfter
  {
    DeleteRemovesExactlyWhen(w, t, providerId);
    DeleteTheorem(w, t, providerId);
  }

  // ----- the actuator's Exists -----

  /**
   Without faults, each answer of Actuator.Exists exactly: a machine whose place does not exist is let go
   if and only if it is being deleted and has no provider ID, and is marked failed if it has no phase.
   */
  lemma ActuatorExistsExactly(w: World, t: Target, phase: Option<string>, providerId: Option<string>)
    requires Good(w) && w.faults == []
    ensures var (_, found, answer, phase') := ActuatorExists(w, t, phase, providerId);
      var letGo := phase == Some("Deleting") && providerId.None?;
      && (found && answer == Success <==> Valid(t) && KeyOf(t) in w.cloud.instances)
      && (!found && answer == Success <==>
            && Valid(t) && KeyOf(t) !in w.cloud.instances
            && (PlaceExists(w.cloud, t) || letGo))
      && (answer == InvalidConfiguration <==> Valid(t) && !PlaceExists(w.cloud, t) && !letGo)
      && (answer == OtherError <==> !Valid(t))
      && (phase' != phase <==> phase.None? && Valid(t) && !PlaceExists(w.cloud, t))
      && (phase' != phase ==> phase' == Some("Failed"))
  {
    ExistsTheorem(w, t);
    if KeyOf(t) in w.cloud.instances {
      assert PlaceExists(w.cloud, t);
    }
  }

  /** It reports a machine absent only when it is, and never so from a missing place once a provider ID is recorded. */
  lemma ActuatorExistsTheorem(w: World, t: Target, phase: Option<string>, providerId: Option<string>)
    requires Good(w)
    ensures var (w', found, answer, phase') := ActuatorExists(w, t, phase, providerId);
      && w'.cloud == w.cloud && Good(w')
      && (answer == Success ==> (found <==> KeyOf(t) in w.cloud.instances))
      && (answer == Success && providerId.Some? ==> PlaceExists(w.cloud, t))
      && (phase.Some? ==> phase' == phase)
  {
    ExistsTheorem(w, t);
    if KeyOf(t) in w.cloud.instances {
      assert PlaceExists(w.cloud, t);
    }
  }
}
