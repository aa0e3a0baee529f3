/**
 What the operations report and store, in terms of the machine object and the cloud alone: which error
 class each cause gets, what a success has stored, and whose resources the calls are about.
 */
module Reports {
  import opened Common
  import opened Conditions
  import opened Machines
  import opened CloudModel
  import opened Actuation
  import opened Admission
  import opened Persistence
  import opened MachineActuator
  import opened Justification
  import opened TargetPools
  import opened ControlPlane
  import opened Runs
  import Names
  import Text

  // ----- malformed machines -----

  /**
   What validation refuses: an empty pool name, no cluster, a model other than Spot, or Spot and preemptible at once.
   */
  ghost predicate Malformed(t: Target) {
    || "" in t.spec.targetPools
    || t.cluster == ""
    || (t.spec.provisioningModel.Some? && t.spec.provisioningModel.value != "Spot")
    || (t.spec.preemptible && t.spec.provisioningModel == Some("Spot"))
  }

  /** A malformed machine is refused without a call, by exists() as another error than by create() and update(). */
  lemma MalformedIsRefused(w: World, s: Scope, creation: Creation, now: int)
    requires Malformed(TargetOf(s))
    ensures Update(w, s, now) == (w, s, InvalidConfiguration)
    ensures Create(w, s, creation.boots, creation.message, now) == (w, s, InvalidConfiguration)
    ensures Exists(w, TargetOf(s)) == (w, false, OtherError)
  {
  }

  /** Any other machine is asked for. */
  lemma WellFormedIsAskedFor(w: World, t: Target)
    requires !Malformed(t)
    ensures Exists(w, t).0.trace ==
            w.trace + [Event(t, InstancesGet(InstanceKey(t.project, t.spec.zone, t.name)), w.cloud)]
  {
  }

  // ----- errors of exists() -----

  /** A 404 that says the project is not there. */
  ghost predicate SaysNoProject(e: ApiError, project: string) {
    && e.GoogleError? && e.code == 404
    && exists i :: 0 <= i < |e.items| && e.items[i].reason == "notFound"
         && Text.Contains(e.items[i].message, "'projects/" + project + "'")
  }

  /** A 400 that says the zone is invalid. */
  ghost predicate SaysNoZone(e: ApiError) {
    && e.GoogleError? && e.code == 400
    && exists i :: 0 <= i < |e.items| && e.items[i].reason == "invalid" && Text.Contains(e.items[i].message, "'zone'")
  }

  /** What exists() makes of every error, honest or not: a missing place, a missing instance, or neither. */
  lemma ErrorsOfExists(w: World, t: Target, e: ApiError)
    requires !Malformed(t) && w.faults != [] && (w.faults[0] == Before(e) || w.faults[0] == After(e))
    ensures !Exists(w, t).1
    ensures Exists(w, t).2 == InvalidConfiguration <==> SaysNoProject(e, t.project) || SaysNoZone(e)
    ensures Exists(w, t).2 == Success <==> e.GoogleError? && e.code == 404 && !SaysNoProject(e, t.project)
    ensures Exists(w, t).2 in {InvalidConfiguration, Success, OtherError}
  {
    assert SaysNoProject(e, t.project) <==> IsProjectNotFound(e, t.project) by {
      assert forall i :: 0 <= i < |(if e.GoogleError? then e.items else [])| ==>
          (MentionsProject(e.items[i], t.project) <==>
             e.items[i].reason == "notFound" && Text.Contains(e.items[i].message, "'projects/" + t.project + "'"));
    }
    assert SaysNoZone(e) <==> IsInvalidZone(e) by {
      assert forall i :: 0 <= i < |(if e.GoogleError? then e.items else [])| ==>
          (MentionsZone(e.items[i]) <==>
             e.items[i].reason == "invalid" && Text.Contains(e.items[i].message, "'zone'"));
    }
  }

  // ----- update and delete -----

  /** update() has passed validation and found its pools. */
  ghost predicate ReachesGroup(c: Cloud, t: Target) {
    !Malformed(t) && AllExist(c, t, t.spec.targetPools)
  }

  /** The instance is there and has an interface. */
  ghost predicate IsSeen(c: Cloud, t: Target) {
    KeyOf(t) in c.instances && c.instances[KeyOf(t)].nics != []
  }

  /** Without faults, the outcome of update() exactly. */
  lemma OutcomesOfUpdate(w: World, s: Scope, now: int)
    requires Good(w) && w.faults == []
    ensures var c, t, outcome := w.cloud, TargetOf(s), Update(w, s, now).2;
      && (outcome == InvalidConfiguration <==> Malformed(t))
      && (outcome == Panic <==>
            ReachesGroup(c, t) && t.role == "master" && GroupOf(t) !in c.groups && t.spec.networkInterfaces == [])
      && (outcome == Success || outcome == RequeueAfter <==>
            ReachesGroup(c, t) && (t.role == "master" ==> EnsurePossible(c, t)) && IsSeen(c, t))
      && (outcome == Success ==> c.instances[KeyOf(t)].status == "RUNNING")
      && (outcome == RequeueAfter ==> c.instances[KeyOf(t)].status != "RUNNING")
      && outcome != Exit
  {
    var t := TargetOf(s);
    ProcessPoolsTheorem(w, t, t.spec.targetPools, true);
    var w1 := ProcessPools(w, t, t.spec.targetPools, true).0;
    if t.role == MASTER {
      OutcomesOfRegister(w1, t, s.providerStatus.instanceState);
      OutcomesOfReconcile(Register(w1, t, s.providerStatus.instanceState).0, s, now);
    } else {
      OutcomesOfReconcile(w1, s, now);
    }
  }

  lemma OutcomesOfReconcile(w: World, s: Scope, now: int)
    requires Consistent(w.cloud) && w.faults == []
    ensures var key, outcome := KeyOf(TargetOf(s)), ReconcileWithCloud(w, s, now).2;
      && (outcome == Success || outcome == RequeueAfter <==> IsSeen(w.cloud, TargetOf(s)))
      && (outcome == Success ==> w.cloud.instances[key].status == "RUNNING")
      && (outcome == RequeueAfter ==> w.cloud.instances[key].status != "RUNNING")
      && outcome in {Success, RequeueAfter, OtherError}
  {
  }

  lemma OutcomesOfRegister(w: World, t: Target, state: Option<string>)
    requires w.faults == []
    ensures var (w', outcome) := Register(w, t, state);
      && w'.faults == [] && w'.cloud.instances == w.cloud.instances
      && w'.cloud.projects == w.cloud.projects && w'.cloud.zones == w.cloud.zones
      && (outcome == Success <==> EnsurePossible(w.cloud, t))
      && (outcome == Panic <==> GroupOf(t) !in w.cloud.groups && t.spec.networkInterfaces == [])
      && outcome in {Success, OtherError, Panic}
  {
    RegisterTheorem(w, t, state);
    PanicCondition(w, t);
    MakeGroupTheorem(w, t);
    EnsureBackendTheorem(MakeGroup(w, t).0, t);
    JoinGroupTheorem(EnsureGroup(w, t).0, t, state);
  }

  /**
   Whatever the faults, delete() reports success, a removal under way, or an error that is not a configuration error.
   */
  lemma OutcomesOfDelete(w: World, t: Target, providerId: Option<string>)
    ensures Delete(w, t, providerId).1 in {Success, RequeueAfter, OtherError}
  {
    ProcessPoolsTheorem(w, t, t.spec.targetPools, false);
    UnregisterTheorem(Exists(ProcessPools(w, t, t.spec.targetPools, false).0, t).0, t);
  }

  // ----- create -----

  lemma LeadingDigitOfThree(code: nat)
    requires 100 <= code <= 999
    ensures LeadingDigit(code) == code / 100
  {
    assert LeadingDigit(code) == LeadingDigit(code / 10) == LeadingDigit(code / 10 / 10);
  }

  /** A failed insert is the user's fault exactly if the cloud answered with a 4xx code; it is stored either way. */
  lemma FailedInsert(w: World, s: Scope, creation: Creation, now: int, e: ApiError)
    requires Valid(TargetOf(s)) && Admissible(w.cloud.around, TargetOf(s))
    requires w.faults != [] && (w.faults[0] == Before(e) || w.faults[0] == After(e))
    requires e.GoogleError? ==> 100 <= e.code <= 999
    ensures Create(w, s, creation.boots, creation.message, now).2 ==
            if e.GoogleError? && 400 <= e.code <= 499 then InvalidConfiguration else OtherError
  {
    AdmittedExactlyWhen(w.cloud.around, TargetOf(s));
    FailedInsertSettled(w, s, Settle(w.cloud.around, TargetOf(s)), creation, now, e);
  }

  lemma FailedInsertSettled(w: World, s: Scope, settled: (ShieldedConfig, Verdict), creation: Creation, now: int,
                            e: ApiError)
    requires settled.1.Admitted?
    requires w.faults != [] && (w.faults[0] == Before(e) || w.faults[0] == After(e))
    requires e.GoogleError? ==> 100 <= e.code <= 999
    ensures CreateSettled(w, s, settled, creation.boots, creation.message, now).2 ==
            if e.GoogleError? && 400 <= e.code <= 499 then InvalidConfiguration else OtherError
  {
    if e.GoogleError? {
      LeadingDigitOfThree(e.code);
    }
  }

  /** A machine the checks refuse is not asked for, and each kind of refusal has its class. */
  lemma RefusalsOfCreate(w: World, s: Scope, creation: Creation, now: int)
    requires Valid(TargetOf(s)) && !Settle(w.cloud.around, TargetOf(s)).1.Admitted?
    ensures var (w', s', outcome) := Create(w, s, creation.boots, creation.message, now);
      var (shielded, verdict) := Settle(w.cloud.around, TargetOf(s));
      && w' == w && s' == s.(providerSpec := s.providerSpec.(shielded := shielded))
      && (verdict == RefusedAsInvalid <==> outcome == InvalidConfiguration)
      && (verdict == RefusedOtherwise <==> outcome == OtherError)
      && (verdict == ChecksPanic <==> outcome == Panic)
      && (verdict == ChecksExit <==> outcome == Exit)
  {
  }

  // ----- what is stored -----

  /** The addresses of a node: the internal one, the external ones in order, and three names. */
  ghost predicate AddressesRight(addresses: seq<Address>, name: string, zone: string, project: string, nic: Nic) {
    var n := |nic.natIps|;
    && |addresses| == n + 4
    && addresses[0] == Address("InternalIP", nic.ip)
    && (forall i :: 0 <= i < n ==> addresses[1 + i] == Address("ExternalIP", nic.natIps[i]))
    && addresses[n + 1] == Address("InternalDNS", name + "." + zone + ".c." + project + ".internal")
    && addresses[n + 2] == Address("InternalDNS", name + ".c." + project + ".internal")
    && addresses[n + 3] == Address("InternalDNS", name)
  }

  lemma {:induction false} ExternalInOrder(natIps: seq<string>)
    ensures |ExternalAddresses(natIps)| == |natIps|
    ensures forall i :: 0 <= i < |natIps| ==> ExternalAddresses(natIps)[i] == Address("ExternalIP", natIps[i])
  {
    if natIps == [] {
    } else {
      ExternalInOrder(natIps[1..]);
    }
  }

  lemma AddressesAreRight(t: Target, nic: Nic)
    ensures AddressesRight(NodeAddresses(t, nic), t.name, t.spec.zone, t.project, nic)
  {
    ExternalInOrder(nic.natIps);
  }

  /**
   The machine object shows the instance: its ID in the resolved project, its addresses, state and name, and
   Created=True.
   */
  ghost predicate Shows(m: Machine, project: string, instance: Instance) {
    && m.providerId == Some(Names.ProviderId(project, m.spec.zone, m.name))
    && instance.nics != [] && AddressesRight(m.status.addresses, m.name, m.spec.zone, project, instance.nics[0])
    && m.status.provider.instanceState == Some(instance.status)
    && m.status.provider.instanceId == Some(m.name)
    && exists i :: 0 <= i < |m.status.provider.conditions| && IsCreatedCondition(m.status.provider.conditions[i])
  }

  predicate IsCreatedCondition(c: Condition) {
    && c.kind == "MachineCreated" && c.status == "True"
    && c.reason == "MachineCreationSucceeded" && c.message == "machine successfully created"
  }

  /** The project an operation works in: the one the stored spec names, else the credentials'. */
  function ProjectOf(m: Machine, credentials: string): string {
    if m.spec.projectId == "" then credentials else m.spec.projectId
  }

  lemma ObservedIsStored(s: Scope, stored: Machine, credentials: string, instance: Instance, now: int)
    requires FromOpen(s, stored) && s.project == ProjectOf(stored, credentials) && instance.nics != []
    ensures var m := Close(Observed(s, instance, now), stored, now, PatchClean, PatchClean).0;
      Shows(m, ProjectOf(stored, credentials), instance) && SameIdentity(stored, m)
  {
    var s' := Observed(s, instance, now);
    CloseStoresEverything(s', now);
    AddressesAreRight(TargetOf(s), instance.nics[0]);
    CreatedIsShown(s.providerStatus.conditions, now);
  }

  lemma CreatedIsShown(conditions: seq<Condition>, now: int)
    ensures var after := Reconciled(conditions, CREATED, now);
      exists i :: 0 <= i < |after| && IsCreatedCondition(after[i])
  {
    var at := Find(conditions, MACHINE_CREATED);
    var i := if at.Some? then at.value else |conditions|;
    assert IsCreatedCondition(Reconciled(conditions, CREATED, now)[i]);
  }

  /** A reconcile that returns nil or requeues has seen the instance, and returns nil exactly if it runs. */
  ghost predicate HasSeen(s: Scope, s': Scope, now: int, outcome: Outcome) {
    exists instance: Instance ::
      && instance.nics != [] && s' == Observed(s, instance, now)
      && (outcome == Success <==> instance.status == "RUNNING")
  }

  lemma ReconcileSees(w: World, s: Scope, now: int)
    ensures var (_, s', outcome) := ReconcileWithCloud(w, s, now);
      outcome == Success || outcome == RequeueAfter ==> HasSeen(s, s', now, outcome)
  {
    var (_, got) := Issue(w, TargetOf(s), InstancesGet(KeyOf(TargetOf(s))));
    if !got.Failed? && got.instance.nics != [] {
      assert ReconcileWithCloud(w, s, now).1 == Observed(s, got.instance, now);
    }
  }

  lemma UpdateSees(w: World, s: Scope, now: int)
    ensures var (_, s', outcome) := Update(w, s, now);
      outcome == Success || outcome == RequeueAfter ==> HasSeen(s, s', now, outcome)
  {
    var t := TargetOf(s);
    ProcessPoolsTheorem(w, t, t.spec.targetPools, true);
    var w1 := ProcessPools(w, t, t.spec.targetPools, true).0;
    ReconcileSees(w1, s, now);
    if t.role == MASTER {
      RegisterReports(w1, t, s.providerStatus.instanceState);
      ReconcileSees(Register(w1, t, s.providerStatus.instanceState).0, s, now);
    }
  }

  lemma RegisterReports(w: World, t: Target, state: Option<string>)
    ensures Register(w, t, state).1 in {Success, OtherError, Panic}
  {
  }

  lemma CreateSees(w: World, s: Scope, creation: Creation, now: int)
    ensures var (_, s', outcome) := Create(w, s, creation.boots, creation.message, now);
      outcome == Success || outcome == RequeueAfter ==>
        HasSeen(s.(providerSpec := s.providerSpec.(shielded := Settle(w.cloud.around, TargetOf(s)).0)),
                s', now, outcome)
  {
    if Valid(TargetOf(s)) {
      SettledSees(w, s, Settle(w.cloud.around, TargetOf(s)), creation, now);
    }
  }

  lemma SettledSees(w: World, s: Scope, settled: (ShieldedConfig, Verdict), creation: Creation, now: int)
    ensures var (_, s', outcome) := CreateSettled(w, s, settled, creation.boots, creation.message, now);
      outcome == Success || outcome == RequeueAfter ==>
        HasSeen(s.(providerSpec := s.providerSpec.(shielded := settled.0)), s', now, outcome)
  {
    if settled.1.Admitted? {
      var s1 := s.(providerSpec := s.providerSpec.(shielded := settled.0));
      var insert := InstancesInsert(KeyOf(TargetOf(s1)), creation.boots, settled.1.body);
      ReconcileSees(Issue(w, TargetOf(s1), insert).0, s1, now);
    }
  }

  // ----- what the actuator reports -----

  ghost predicate BothClean(c: Patching) {
    c.first == PatchClean && c.second == PatchClean
  }

  /** The reconcile behind a Create or an Update. */
  ghost function Reconciling(sys: System, step: Step, credentials: string): (World, Scope, Outcome)
    requires step.DoCreate? || step.DoUpdate?
  {
    var w, s := sys.world.(faults := step.faults), Open(sys.stored, credentials);
    if step.DoUpdate? then Update(w, s, step.closing.now)
    else Create(w, s, step.creation.boots, step.creation.message, step.closing.now)
  }

  /**
   A reconcile that failed is reported with its own class, whatever the two patches do; one that did not
   is reported as nil exactly if both patches were answered, and as another error otherwise.
   */
  lemma WhatIsReported(sys: System, step: Step, credentials: string)
    requires step.DoCreate? || step.DoUpdate?
    ensures var outcome, reported := Reconciling(sys, step, credentials).2, Exec(sys, step, credentials).1;
      && (outcome != Success ==> reported == outcome)
      && (outcome == Success ==> reported == if BothClean(step.closing) then Success else OtherError)
  {
  }

  lemma ReconcilingSees(sys: System, step: Step, credentials: string) returns (s: Scope)
    requires step.DoCreate? || step.DoUpdate?
    ensures FromOpen(s, sys.stored) && s.project == ProjectOf(sys.stored, credentials)
    ensures var (_, s', outcome) := Reconciling(sys, step, credentials);
      outcome == Success || outcome == RequeueAfter ==> HasSeen(s, s', step.closing.now, outcome)
  {
    var w := sys.world.(faults := step.faults);
    s := Open(sys.stored, credentials);
    if step.DoUpdate? {
      UpdateSees(w, s, step.closing.now);
    } else {
      CreateSees(w, s, step.creation, step.closing.now);
      s := s.(providerSpec := s.providerSpec.(shielded := Settle(w.cloud.around, TargetOf(s)).0));
    }
  }

  /**
   What a Create or an Update has stored when it reports nil: both patches were answered, and the object
   shows a running instance. One that asks to be called again, with both patches answered, has stored an
   instance that does not run yet.
   */
  lemma WhatIsStored(sys: System, step: Step, credentials: string)
    requires step.DoCreate? || step.DoUpdate?
    ensures var (sys', reported) := Exec(sys, step, credentials);
      && (reported == Success ==> BothClean(step.closing))
      && (reported == Success || (reported == RequeueAfter && BothClean(step.closing)) ==>
            exists instance: Instance ::
              && Shows(sys'.stored, ProjectOf(sys.stored, credentials), instance)
              && (reported == Success <==> instance.status == "RUNNING"))
  {
    var (sys', reported) := Exec(sys, step, credentials);
    WhatIsReported(sys, step, credentials);
    if reported == Success || (reported == RequeueAfter && BothClean(step.closing)) {
      var s := ReconcilingSees(sys, step, credentials);
      var (_, s', outcome) := Reconciling(sys, step, credentials);
      ExecFinishes(sys, step, credentials);
      SeenIsStored(s, s', sys.stored, credentials, step.closing, outcome);
    }
  }

  /** The operation around a reconcile. */
  lemma ExecFinishes(sys: System, step: Step, credentials: string)
    requires step.DoCreate? || step.DoUpdate?
    ensures var (_, s, outcome) := Reconciling(sys, step, credentials);
      var (m, reported) := Finish(s, sys.stored, outcome, step.closing);
      Exec(sys, step, credentials).0.stored == m && Exec(sys, step, credentials).1 == reported
  {
  }

  lemma SeenIsStored(s: Scope, s': Scope, stored: Machine, credentials: string, closing: Patching, outcome: Outcome)
    requires FromOpen(s, stored) && s.project == ProjectOf(stored, credentials)
    requires HasSeen(s, s', closing.now, outcome) && BothClean(closing)
    requires outcome == Success || outcome == RequeueAfter
    ensures exists instance: Instance ::
              && Shows(Finish(s', stored, outcome, closing).0, ProjectOf(stored, credentials), instance)
              && (outcome == Success <==> instance.status == "RUNNING")
  {
    var instance: Instance :|
      && instance.nics != [] && s' == Observed(s, instance, closing.now)
      && (outcome == Success <==> instance.status == "RUNNING");
    ObservedIsStored(s, stored, credentials, instance, closing.now);
  }

  // ----- whose resources -----

  /**
   Every call an operation makes is about the machine's own instance, pools, group and backend service in
   the project the stored spec names, or in the credentials' if it names none.
   */
  lemma CallsAreInTheProject(sys: System, step: Step, credentials: string)
    ensures var m := sys.stored;
      Grown(sys.world.trace, Exec(sys, step, credentials).0.world.trace,
            Target(ProjectOf(m, credentials), m.name, m.cluster, m.role, m.spec))
  {
    ExecGrows(sys, step, credentials);
  }

  /** A spec that names its project is handled the same with any credentials. */
  lemma CredentialsDoNotDecide(sys: System, step: Step, credentials: string, credentials': string)
    requires sys.stored.spec.projectId != ""
    ensures Exec(sys, step, credentials) == Exec(sys, step, credentials')
  {
    assert Open(sys.stored, credentials) == Open(sys.stored, credentials');
  }

  /** A provider ID that an operation records names the instance in that project. */
  lemma RecordedIdIsInTheProject(sys: System, step: Step, credentials: string)
    ensures var m := Exec(sys, step, credentials).0.stored;
      m.providerId != sys.stored.providerId ==>
        m.providerId ==
        Some(Names.ProviderId(ProjectOf(sys.stored, credentials), sys.stored.spec.zone, sys.stored.name))
  {
    if step.DoCreate? || step.DoUpdate? {
      var (_, s, outcome) := Reconciling(sys, step, credentials);
      RecordsOwnId(sys, step, credentials);
      ExecFinishes(sys, step, credentials);
      FinishRecords(s, sys.stored, outcome, step.closing);
    }
  }

  lemma FinishRecords(s: Scope, stored: Machine, outcome: Outcome, closing: Patching)
    requires s.orig == stored
    ensures Finish(s, stored, outcome, closing).0.providerId in {stored.providerId, s.machine.providerId}
  {
  }

  lemma RecordsOwnId(sys: System, step: Step, credentials: string)
    requires step.DoCreate? || step.DoUpdate?
    ensures var (_, s, _) := Reconciling(sys, step, credentials);
      s.orig == sys.stored && KeepsOrNames(Open(sys.stored, credentials), s)
  {
    var w, s := sys.world.(faults := step.faults), Open(sys.stored, credentials);
    if step.DoUpdate? {
      UpdateRecords(w, s, step.closing.now);
    } else if Valid(TargetOf(s)) {
      SettledRecords(w, s, Settle(w.cloud.around, TargetOf(s)), step.creation, step.closing.now);
    }
  }

  /** The provider ID is as it was, or the machine's own. */
  ghost predicate KeepsOrNames(s: Scope, s': Scope) {
    || s'.machine.providerId == s.machine.providerId
    || s'.machine.providerId == Some(Names.ProviderId(s.project, s.providerSpec.zone, s.machine.name))
  }

  lemma UpdateRecords(w: World, s: Scope, now: int)
    ensures var (_, s', _) := Update(w, s, now);
      s'.orig == s.orig && KeepsOrNames(s, s')
  {
  }

  lemma SettledRecords(w: World, s: Scope, settled: (ShieldedConfig, Verdict), creation: Creation, now: int)
    ensures var (_, s', _) := CreateSettled(w, s, settled, creation.boots, creation.message, now);
      s'.orig == s.orig && KeepsOrNames(s, s')
  {
  }
}
