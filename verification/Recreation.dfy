/**
 create() and its retries: exactly when it brings the instance up, and what becomes of an instance
 that is there although the machine object does not say so.
 */
module Recreation {
  import opened Conditions
  import opened Machines
  import opened CloudModel
  import opened Actuation
  import opened Admission
  import opened Persistence
  import opened MachineActuator
  import opened Justification
  import opened Deletion
  import opened Runs
  import opened Convergence
  import ShieldedConfiguration

  /** create() left the instance to be reconciled: it runs, or a requeue will look again. */
  predicate IsCreated(outcome: Outcome) {
    outcome == Success || outcome == RequeueAfter
  }

  /**
   Without faults, the exact condition for a create() that brings the instance up. In particular an
   instance that is already there makes it report an invalid configuration, not pick the instance up.
   */
  lemma CreateSucceedsExactlyWhen(w: World, s: Scope, creation: Creation, now: int)
    requires Good(w) && w.faults == []
    ensures var t := TargetOf(s);
      var (w', s', outcome) := Create(w, s, creation.boots, creation.message, now);
      && (IsCreated(outcome) <==>
            && Valid(t) && Admissible(w.cloud.around, t) && PlaceExists(w.cloud, t)
            && KeyOf(t) !in w.cloud.instances && creation.boots.nics != [])
      && (Valid(t) && Admissible(w.cloud.around, t) && KeyOf(t) in w.cloud.instances ==>
            && outcome == InvalidConfiguration && w'.cloud == w.cloud
            && s' == Refused(s, Settle(w.cloud.around, t).0, creation.message, now))
  {
    AdmittedExactlyWhen(w.cloud.around, TargetOf(s));
    if Valid(TargetOf(s)) {
      VerdictDecides(w, s, Settle(w.cloud.around, TargetOf(s)), creation, now);
    }
  }

  /** What create() makes of a verdict: admitted or not, and with which shielded configuration. */
  ghost predicate Decided(w: World, s: Scope, admitted: bool, shielded: ShieldedConfig, creation: Creation, now: int,
                          r: (World, Scope, Outcome))
  {
    var t := TargetOf(s);
    && (IsCreated(r.2) <==>
          admitted && PlaceExists(w.cloud, t) && KeyOf(t) !in w.cloud.instances && creation.boots.nics != [])
    && (admitted && KeyOf(t) in w.cloud.instances ==>
          && r.2 == InvalidConfiguration && r.0.cloud == w.cloud
          && r.1 == Refused(s, shielded, creation.message, now))
  }

  lemma VerdictDecides(w: World, s: Scope, settled: (ShieldedConfig, Verdict), creation: Creation, now: int)
    requires Good(w) && w.faults == [] && settled == Settle(w.cloud.around, TargetOf(s)) && Valid(TargetOf(s))
    ensures Decided(w, s, settled.1.Admitted?, settled.0, creation, now,
                    Create(w, s, creation.boots, creation.message, now))
  {
    CreateIsSettled(w, s, creation, now);
    SettledSucceedsExactlyWhen(w, s, settled, creation, now);
  }

  lemma CreateIsSettled(w: World, s: Scope, creation: Creation, now: int)
    ensures Create(w, s, creation.boots, creation.message, now) ==
            if Valid(TargetOf(s)) then
              CreateSettled(w, s, Settle(w.cloud.around, TargetOf(s)), creation.boots, creation.message, now)
            else (w, s, InvalidConfiguration)
  {
  }

  /** The same, given what the checks settled. */
  lemma SettledSucceedsExactlyWhen(w: World, s: Scope, settled: (ShieldedConfig, Verdict), creation: Creation, now: int)
    requires Good(w) && w.faults == []
    ensures Decided(w, s, settled.1.Admitted?, settled.0, creation, now,
                    CreateSettled(w, s, settled, creation.boots, creation.message, now))
  {
    if settled.1.Admitted? {
      var s1 := s.(providerSpec := s.providerSpec.(shielded := settled.0));
      AskForSucceedsExactlyWhen(w, s1, creation, settled.1.body, now);
    }
  }

  /** The scope after the cloud refused the insert. */
  function Refused(s: Scope, shielded: ShieldedConfig, message: string, now: int): Scope {
    s.(providerSpec := s.providerSpec.(shielded := shielded),
       providerStatus := s.providerStatus.(
         conditions := Reconciled(s.providerStatus.conditions, CreationFailed(message), now)))
  }

  lemma AskForSucceedsExactlyWhen(w: World, s: Scope, creation: Creation, body: InstanceBody, now: int)
    requires Good(w) && w.faults == []
    ensures var t := TargetOf(s);
      var (w', s', outcome) := AskFor(w, s, creation.boots, body, creation.message, now);
      && (IsCreated(outcome) <==>
            PlaceExists(w.cloud, t) && KeyOf(t) !in w.cloud.instances && creation.boots.nics != [])
      && (KeyOf(t) in w.cloud.instances ==>
            && outcome == InvalidConfiguration && w'.cloud == w.cloud
            && s' == Refused(s, s.providerSpec.shielded, creation.message, now))
  {
    assert IsClientError(CONFLICT) by {
      assert LeadingDigit(409) == LeadingDigit(40) == LeadingDigit(4) == 4;
    }
  }

  /** The object says that creation failed. */
  ghost predicate ShowsFailed(conditions: seq<Condition>, message: string) {
    exists i :: 0 <= i < |conditions| && IsFailure(conditions[i], message)
  }

  predicate IsFailure(c: Condition, message: string) {
    c.kind == "MachineCreated" && c.status == "False" && c.reason == "MachineCreationFailed" && c.message == message
  }

  lemma FailureIsShown(conditions: seq<Condition>, message: string, now: int)
    ensures ShowsFailed(Reconciled(conditions, CreationFailed(message), now), message)
  {
    var at := Find(conditions, MACHINE_CREATED);
    var i := if at.Some? then at.value else |conditions|;
    var after := Reconciled(conditions, CreationFailed(message), now);
    assert IsFailure(after[i], message);
  }

  /** The instance is there, and every check of create() would admit the machine again. */
  ghost predicate AlreadyThere(sys: System, credentials: string) {
    var t := Target0(sys, credentials);
    Good(sys.world) && Valid(t) && Admissible(sys.world.cloud.around, t) && KeyOf(t) in sys.world.cloud.instances
  }

  /**
   A create that finds its instance there, fault-free, reports an invalid configuration, stores
   Created=False and changes nothing in the cloud; and the next one finds the same.
   */
  lemma RetryOfCreateIsRefused(sys: System, credentials: string, creation: Creation)
    requires AlreadyThere(sys, credentials)
    ensures var (sys', outcome) := Exec(sys, DoCreate([], creation, CLEAN), credentials);
      && outcome == InvalidConfiguration && sys'.world.cloud == sys.world.cloud
      && ShowsFailed(sys'.stored.status.provider.conditions, creation.message)
      && AlreadyThere(sys', credentials)
      && SameIdentity(sys.stored, sys'.stored) && sys'.stored.providerId == sys.stored.providerId
  {
    var w, s := sys.world.(faults := []), Open(sys.stored, credentials);
    FaultsKeepGood(sys.world, []);
    FoundThere(w, s, creation);
    RefusedCreate(sys, credentials, [], creation);
  }

  /** create() admits the machine and then fails with the instance there. */
  ghost predicate FailsWithInstanceThere(w: World, s: Scope, creation: Creation) {
    var (w', s', outcome) := Create(w, s, creation.boots, creation.message, CLEAN.now);
    && Valid(TargetOf(s)) && Admissible(w.cloud.around, TargetOf(s))
    && (outcome == InvalidConfiguration || outcome == OtherError)
    && w'.cloud.around == w.cloud.around && KeyOf(TargetOf(s)) in w'.cloud.instances
    && s' == Refused(s, Settle(w.cloud.around, TargetOf(s)).0, creation.message, CLEAN.now)
  }

  lemma FaultsKeepGood(w: World, faults: seq<Fault>)
    requires Good(w) && Honest(faults)
    ensures Good(w.(faults := faults))
  {
  }

  lemma FoundThere(w: World, s: Scope, creation: Creation)
    requires Good(w) && w.faults == [] && Valid(TargetOf(s)) && Admissible(w.cloud.around, TargetOf(s))
    requires KeyOf(TargetOf(s)) in w.cloud.instances
    ensures FailsWithInstanceThere(w, s, creation)
    ensures var (w', _, outcome) := Create(w, s, creation.boots, creation.message, CLEAN.now);
      outcome == InvalidConfiguration && w'.cloud == w.cloud
  {
    AdmittedExactlyWhen(w.cloud.around, TargetOf(s));
    VerdictDecides(w, s, Settle(w.cloud.around, TargetOf(s)), creation, CLEAN.now);
  }

  /** The operation around create(). */
  lemma ExecCreate(sys: System, credentials: string, faults: seq<Fault>, creation: Creation)
    ensures var w, s := sys.world.(faults := faults), Open(sys.stored, credentials);
      var r := Create(w, s, creation.boots, creation.message, CLEAN.now);
      var stored := Finish(r.1, sys.stored, r.2, CLEAN);
      Exec(sys, DoCreate(faults, creation, CLEAN), credentials) == (System(r.0, stored.0), stored.1)
  {
  }

  /** The operation around a create() that admitted the machine and then failed with the instance there. */
  lemma RefusedCreate(sys: System, credentials: string, faults: seq<Fault>, creation: Creation)
    requires Good(sys.world.(faults := faults))
    requires FailsWithInstanceThere(sys.world.(faults := faults), Open(sys.stored, credentials), creation)
    ensures var w, s := sys.world.(faults := faults), Open(sys.stored, credentials);
      var (w', _, outcome) := Create(w, s, creation.boots, creation.message, CLEAN.now);
      var (sys', reported) := Exec(sys, DoCreate(faults, creation, CLEAN), credentials);
      && reported == outcome && sys'.world.cloud == w'.cloud
      && ShowsFailed(sys'.stored.status.provider.conditions, creation.message) && AlreadyThere(sys', credentials)
      && SameIdentity(sys.stored, sys'.stored) && sys'.stored.providerId == sys.stored.providerId
  {
    var w, s := sys.world.(faults := faults), Open(sys.stored, credentials);
    ExecCreate(sys, credentials, faults, creation);
    CreateKeepsGood(w, s, creation, CLEAN.now);
    var (w', s', outcome) := Create(w, s, creation.boots, creation.message, CLEAN.now);
    SettlingRestoresNothing(w.cloud.around, TargetOf(s));
    RefusalLeaves(sys, credentials, w', s', Settle(w.cloud.around, TargetOf(s)).0, outcome, creation.message);
  }

  /** The object and the cloud after a refused insert, for a machine that create() admits. */
  lemma RefusalLeaves(sys: System, credentials: string, w: World, s: Scope, shielded: ShieldedConfig,
                      outcome: Outcome, message: string)
    requires Valid(Target0(sys, credentials)) && Admissible(sys.world.cloud.around, Target0(sys, credentials))
    requires Good(w) && w.cloud.around == sys.world.cloud.around
    requires KeyOf(Target0(sys, credentials)) in w.cloud.instances
    requires shielded == ShieldedConfiguration.DEFAULT ==> sys.stored.spec.shielded == ShieldedConfiguration.DEFAULT
    requires s == Refused(Open(sys.stored, credentials), shielded, message, CLEAN.now)
    requires outcome == InvalidConfiguration || outcome == OtherError
    ensures var (m, reported) := Finish(s, sys.stored, outcome, CLEAN);
      && reported == outcome && ShowsFailed(m.status.provider.conditions, message)
      && AlreadyThere(System(w, m), credentials)
      && SameIdentity(sys.stored, m) && m.providerId == sys.stored.providerId
  {
    RefusalIsStored(sys.stored, credentials, shielded, outcome, message);
    StillAdmissible(w.cloud.around, Target0(sys, credentials), shielded);
  }

  lemma RefusalIsStored(stored: Machine, credentials: string, shielded: ShieldedConfig,
                        outcome: Outcome, message: string)
    requires outcome == InvalidConfiguration || outcome == OtherError
    ensures var s := Refused(Open(stored, credentials), shielded, message, CLEAN.now);
      var (m, reported) := Finish(s, stored, outcome, CLEAN);
      && reported == outcome
      && SameIdentity(stored, m) && m.providerId == stored.providerId
      && ShowsFailed(m.status.provider.conditions, message)
      && m.spec == stored.spec.(shielded := shielded)
  {
    var s := Refused(Open(stored, credentials), shielded, message, CLEAN.now);
    CloseStoresEverything(s, CLEAN.now);
    FailureIsShown(stored.status.provider.conditions, message, CLEAN.now);
  }

  /** What create() rewrites of the spec does not make it inadmissible. */
  lemma StillAdmissible(a: Surroundings, t: Target, shielded: ShieldedConfig)
    requires Admissible(a, t)
    requires shielded == ShieldedConfiguration.DEFAULT ==> t.spec.shielded == ShieldedConfiguration.DEFAULT
    ensures Admissible(a, WithShielded(t, shielded))
  {
    ShieldingIsIndependent(a, t, shielded);
    RestartIsRight(t.spec);
    RestartIsRight(WithShielded(t, shielded).spec);
    assert BootVerdict(a, WithShielded(t, shielded)) == BootVerdict(a, t);
  }

  lemma SettlingRestoresNothing(a: Surroundings, t: Target)
    ensures Settle(a, t).0 == ShieldedConfiguration.DEFAULT ==> t.spec.shielded == ShieldedConfiguration.DEFAULT
  {
  }

  /**
   An insert that takes effect unanswered: Create fails without recording the instance. No later Create
   brings the machine up, but two fault-free updates do, once the instance runs among what it needs.
   */
  lemma UnansweredInsert(sys: System, credentials: string, creation: Creation, error: ApiError, retry: Creation)
    requires Good(sys.world) && Creatable(sys, credentials) && !Misleading(error)
    ensures var (sys1, first) := Exec(sys, DoCreate([After(error)], creation, CLEAN), credentials);
      var (sys2, second) := Exec(sys1, DoCreate([], retry, CLEAN), credentials);
      && !IsCreated(first) && AlreadyThere(sys1, credentials) && sys1.stored.providerId == sys.stored.providerId
      && second == InvalidConfiguration && ShowsFailed(sys2.stored.status.provider.conditions, retry.message)
      && (Ready(sys2.world.cloud, Target0(sys2, credentials)) ==>
            var sys3 := Exec(sys2, DoUpdate([], CLEAN), credentials).0;
            var (sys4, last) := Exec(sys3, DoUpdate([], CLEAN), credentials);
            && last == Success && Converged(sys4.world.cloud, Target0(sys4, credentials))
            && sys4.stored.providerId.Some? && ShowsCreated(sys4.stored.status.provider.conditions))
  {
    UnansweredInsertTakesEffect(sys, credentials, creation, error);
    var sys1 := Exec(sys, DoCreate([After(error)], creation, CLEAN), credentials).0;
    RetryOfCreateIsRefused(sys1, credentials, retry);
    var sys2 := Exec(sys1, DoCreate([], retry, CLEAN), credentials).0;
    if Ready(sys2.world.cloud, Target0(sys2, credentials)) {
      TwoUpdatesConverge(sys2, credentials);
    }
  }

  lemma UnansweredInsertTakesEffect(sys: System, credentials: string, creation: Creation, error: ApiError)
    requires Good(sys.world) && Creatable(sys, credentials) && !Misleading(error)
    ensures var (sys1, first) := Exec(sys, DoCreate([After(error)], creation, CLEAN), credentials);
      !IsCreated(first) && AlreadyThere(sys1, credentials) && sys1.stored.providerId == sys.stored.providerId
  {
    UnansweredFails(sys, credentials, creation, error);
    RefusedCreate(sys, credentials, [After(error)], creation);
  }

  lemma UnansweredFails(sys: System, credentials: string, creation: Creation, error: ApiError)
    requires Good(sys.world) && Creatable(sys, credentials) && !Misleading(error)
    ensures var w, s := sys.world.(faults := [After(error)]), Open(sys.stored, credentials);
      Good(w) && FailsWithInstanceThere(w, s, creation)
  {
    FaultsKeepGood(sys.world, [After(error)]);
    UnansweredCreate(sys.world.(faults := [After(error)]), Open(sys.stored, credentials), creation, error);
  }

  lemma UnansweredCreate(w: World, s: Scope, creation: Creation, error: ApiError)
    requires w.faults == [After(error)] && Valid(TargetOf(s)) && Admissible(w.cloud.around, TargetOf(s))
    requires PlaceExists(w.cloud, TargetOf(s)) && KeyOf(TargetOf(s)) !in w.cloud.instances
    ensures var (w', _, outcome) := Create(w, s, creation.boots, creation.message, CLEAN.now);
      && (outcome == InvalidConfiguration || outcome == OtherError)
      && w'.cloud == w.cloud.(instances := w.cloud.instances[KeyOf(TargetOf(s)) := creation.boots])
    ensures FailsWithInstanceThere(w, s, creation)
  {
    AdmittedExactlyWhen(w.cloud.around, TargetOf(s));
    CreateIsSettled(w, s, creation, CLEAN.now);
    UnansweredSettled(w, s, Settle(w.cloud.around, TargetOf(s)), creation, error);
  }

  lemma UnansweredSettled(w: World, s: Scope, settled: (ShieldedConfig, Verdict), creation: Creation, error: ApiError)
    requires w.faults == [After(error)] && settled.1.Admitted?
    requires PlaceExists(w.cloud, TargetOf(s)) && KeyOf(TargetOf(s)) !in w.cloud.instances
    ensures var (w', s', outcome) := CreateSettled(w, s, settled, creation.boots, creation.message, CLEAN.now);
      && (outcome == InvalidConfiguration || outcome == OtherError)
      && w'.cloud == w.cloud.(instances := w.cloud.instances[KeyOf(TargetOf(s)) := creation.boots])
      && s' == Refused(s, settled.0, creation.message, CLEAN.now)
  {
    UnansweredAskFor(w, s.(providerSpec := s.providerSpec.(shielded := settled.0)), creation, settled.1.body, error);
  }

  lemma UnansweredAskFor(w: World, s: Scope, creation: Creation, body: InstanceBody, error: ApiError)
    requires w.faults == [After(error)] && PlaceExists(w.cloud, TargetOf(s)) && KeyOf(TargetOf(s)) !in w.cloud.instances
    ensures var (w', s', outcome) := AskFor(w, s, creation.boots, body, creation.message, CLEAN.now);
      && (outcome == InvalidConfiguration || outcome == OtherError)
      && w'.cloud == w.cloud.(instances := w.cloud.instances[KeyOf(TargetOf(s)) := creation.boots])
      && s' == Refused(s, s.providerSpec.shielded, creation.message, CLEAN.now)
  {
  }
}
