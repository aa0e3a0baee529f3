/**
 The machine scope's Close: the provider parts are written back into the working copy,
 then two merge patches are sent, the object first and its status subresource second.
 A merge patch (section 2 of RFC 7396) carries the fields that differ between the copy
 taken at opening and the working copy, and leaves the others as the server has them.
 */
module Persistence {
  import opened Common
  import opened Conditions
  import opened Machines
  import opened CloudModel
  import opened Actuation

  /** One field of a merge patch made from `orig` to `new`, applied to the stored value. */
  function Merge<T(==)>(orig: T, new': T, stored: T): T {
    if orig == new' then stored else new'
  }

  function MergeSpec(o: ProviderSpec, n: ProviderSpec, s: ProviderSpec): ProviderSpec {
    ProviderSpec(
      Merge(o.projectId, n.projectId, s.projectId), Merge(o.region, n.region, s.region), Merge(o.zone, n.zone, s.zone),
      Merge(o.targetPools, n.targetPools, s.targetPools),
      Merge(o.networkInterfaces, n.networkInterfaces, s.networkInterfaces),
      Merge(o.preemptible, n.preemptible, s.preemptible),
      Merge(o.provisioningModel, n.provisioningModel, s.provisioningModel),
      ShieldedConfig(
        Merge(o.shielded.secureBoot, n.shielded.secureBoot, s.shielded.secureBoot),
        Merge(o.shielded.vtpm, n.shielded.vtpm, s.shielded.vtpm),
        Merge(o.shielded.integrity, n.shielded.integrity, s.shielded.integrity)),
      Merge(o.vm, n.vm, s.vm))
  }

  function MergeStatus(o: Status, n: Status, s: Status): Status {
    Status(
      Merge(o.addresses, n.addresses, s.addresses),
      ProviderStatus(
        Merge(o.provider.conditions, n.provider.conditions, s.provider.conditions),
        Merge(o.provider.instanceState, n.provider.instanceState, s.provider.instanceState),
        Merge(o.provider.instanceId, n.provider.instanceId, s.provider.instanceId)),
      Merge(o.lastUpdated, n.lastUpdated, s.lastUpdated),
      Merge(o.phase, n.phase, s.phase))
  }

  /** A patch of the object itself: the server ignores the status part. */
  function PatchObject(stored: Machine, orig: Machine, local: Machine): Machine {
    stored.(providerId := Merge(orig.providerId, local.providerId, stored.providerId),
            spec := MergeSpec(orig.spec, local.spec, stored.spec))
  }

  /** A patch of the status subresource: the server ignores everything else. */
  function PatchStatus(stored: Machine, orig: Machine, local: Machine): Machine {
    stored.(status := MergeStatus(orig.status, local.status, stored.status))
  }

  datatype PatchFault = PatchClean | PatchLost | PatchUnanswered

  /** setMachineStatus and setMachineSpec. */
  function Encoded(s: Scope, now: int): Machine {
    var m :=
      if s.providerStatus == s.orig.status.provider && s.machine.status.addresses == s.orig.status.addresses then
        s.machine
      else s.machine.(status := s.machine.status.(provider := s.providerStatus, lastUpdated := Some(now)));
    m.(spec := s.providerSpec)
  }

  /** Close with both patches: the object the server then holds, and whether Close returned nil. */
  function Close(s: Scope, stored: Machine, now: int, first: PatchFault, second: PatchFault): (Machine, bool) {
    var local := Encoded(s, now);
    if first == PatchLost then (stored, false)
    else
      var stored1 := PatchObject(stored, s.orig, local);
      if first == PatchUnanswered then (stored1, false)
      else
        var local1 := stored1.(status := local.status);
        if second == PatchLost then (stored1, false)
        else (PatchStatus(stored1, s.orig, local1), second == PatchClean)
  }

  /** The object as the API server holds it. */
  class ApiServer {
    var stored: Machine

    constructor (initial: Machine)
      ensures stored == initial
    {
      stored := initial;
    }

    /** On success the response replaces the caller's whole working copy, status included. */
    method Patch(local: Machine, orig: Machine, fault: PatchFault) returns (ok: bool, response: Machine)
      modifies this
      ensures stored == if fault == PatchLost then old(stored) else PatchObject(old(stored), orig, local)
      ensures ok == (fault == PatchClean) && response == if ok then stored else local
    {
      if fault != PatchLost {
        stored := PatchObject(stored, orig, local);
      }
      ok := fault == PatchClean;
      response := if ok then stored else local;
    }

    method StatusPatch(local: Machine, orig: Machine, fault: PatchFault) returns (ok: bool)
      modifies this
      ensures stored == if fault == PatchLost then old(stored) else PatchStatus(old(stored), orig, local)
      ensures ok == (fault == PatchClean)
    {
      if fault != PatchLost {
        stored := PatchStatus(stored, orig, local);
      }
      ok := fault == PatchClean;
    }
  }

  /** The scope object whose fields the reconciler and Close overwrite. */
  class MachineScope {
    const project: string
    const orig: Machine
    var machine: Machine
    var providerSpec: ProviderSpec
    var providerStatus: ProviderStatus

    constructor (stored: Machine, credentialProject: string)
      ensures Value() == Open(stored, credentialProject)
    {
      project := if |stored.spec.projectId| == 0 then credentialProject else stored.spec.projectId;
      orig := stored;
      machine := stored;
      providerSpec := stored.spec;
      providerStatus := stored.status.provider;
    }

    function Value(): Scope
      reads this
    {
      Scope(project, machine, providerSpec, providerStatus, orig)
    }

    method SetMachineStatus(now: int)
      modifies this`machine
      ensures machine.(spec := providerSpec) == Encoded(old(Value()), now)
      ensures machine.spec == old(machine.spec)
    {
      if providerStatus == orig.status.provider && machine.status.addresses == orig.status.addresses {
        return;
      }
      machine := machine.(status := machine.status.(provider := providerStatus, lastUpdated := Some(now)));
    }

    method SetMachineSpec()
      modifies this`machine
      ensures machine == old(machine).(spec := providerSpec)
    {
      machine := machine.(spec := providerSpec);
    }

    method PatchMachine(server: ApiServer, first: PatchFault, second: PatchFault) returns (ok: bool)
      modifies this`machine, server
      ensures first == PatchLost ==> !ok && server.stored == old(server.stored)
      ensures first == PatchUnanswered ==> !ok && server.stored == PatchObject(old(server.stored), orig, old(machine))
      ensures first == PatchClean ==>
        var stored1 := PatchObject(old(server.stored), orig, old(machine));
        var local1 := stored1.(status := old(machine).status);
        && machine == local1
        && ok == (second == PatchClean)
        && server.stored == if second == PatchLost then stored1 else PatchStatus(stored1, orig, local1)
    {
      var statusCopy := machine.status;
      ok, machine := server.Patch(machine, orig, first);
      if !ok {
        return;
      }
      machine := machine.(status := statusCopy);
      ok := server.StatusPatch(machine, orig, second);
    }

    method CloseScope(server: ApiServer, now: int, first: PatchFault, second: PatchFault) returns (ok: bool)
      modifies this`machine, server
      ensures (server.stored, ok) == Close(old(Value()), old(server.stored), now, first, second)
    {
      SetMachineStatus(now);
      SetMachineSpec();
      ok := PatchMachine(server, first, second);
    }
  }

  // ----- what one Close stores -----

  /** With no other writer, a Close that returns nil leaves exactly what the scope computed. */
  lemma CloseStoresEverything(s: Scope, now: int)
    requires s.machine == s.orig.(providerId := s.machine.providerId,
                                  status := s.orig.status.(addresses := s.machine.status.addresses))
    ensures var (m, ok) := Close(s, s.orig, now, PatchClean, PatchClean);
      && ok
      && m.providerId == s.machine.providerId && m.spec == s.providerSpec
      && m.status.addresses == s.machine.status.addresses && m.status.provider == s.providerStatus
      && m.status.phase == s.orig.status.phase
      && m.status.lastUpdated ==
         if s.providerStatus != s.orig.status.provider || s.machine.status.addresses != s.orig.status.addresses
         then Some(now) else s.orig.status.lastUpdated
  {
  }

  // ----- every interleaving of opening, patching and other writers -----

  /** What a reconcile does to an opened scope. */
  datatype Effect =
    | Saw(instance: Instance)          // the cloud showed the instance
    | CreationRefused(message: string) // the insert call failed
    | Rewrote(shielded: ShieldedConfig)

  function Worked(s: Scope, effect: Effect, now: int): Scope {
    match effect
    case Saw(instance) => if instance.nics == [] then s else Observed(s, instance, now)
    case CreationRefused(message) =>
      s.(providerStatus := s.providerStatus.(
           conditions := Reconciled(s.providerStatus.conditions, CreationFailed(message), now)))
    case Rewrote(shielded) => s.(providerSpec := s.providerSpec.(shielded := shielded))
  }

  datatype Session =
    | Idle
    | Working(scope: Scope)
    | Closing(scope: Scope, local: Machine)   // encoded, first patch not yet sent
    | HalfClosed(scope: Scope, local: Machine) // first patch answered, status restored

  /** All versions of the stored object so far; the last one is current. */
  datatype Store = Store(versions: seq<Machine>, session: Session)

  datatype Action =
    | OpenAt(version: nat, credentialProject: string) // the cached copy may be stale
    | Work(effect: Effect, now: int)
    | Encode(now: int)
    | SendFirst(fault: PatchFault)
    | SendSecond(fault: PatchFault)
    | Crash
    | Foreign(written: Machine)

  function Current(st: Store): Machine
    requires st.versions != []
  {
    st.versions[|st.versions| - 1]
  }

  /** Other writers never erase a recorded provider ID, and nobody else writes the provider status. */
  predicate Allowed(st: Store, action: Action)
    requires st.versions != []
  {
    match action
    case OpenAt(v, _) => st.session.Idle? && v < |st.versions|
    case Work(_, _) => st.session.Working?
    case Encode(_) => st.session.Working?
    case SendFirst(_) => st.session.Closing?
    case SendSecond(_) => st.session.HalfClosed?
    case Crash => true
    case Foreign(m) =>
      && (Current(st).providerId.Some? ==> m.providerId.Some?)
      && m.status.provider == Current(st).status.provider
  }

  function Act(st: Store, action: Action): Store
    requires st.versions != [] && Allowed(st, action)
    ensures Act(st, action).versions != []
  {
    match action
    case OpenAt(v, credentials) => st.(session := Working(Open(st.versions[v], credentials)))
    case Work(effect, now) => st.(session := Working(Worked(st.session.scope, effect, now)))
    case Encode(now) => st.(session := Closing(st.session.scope, Encoded(st.session.scope, now)))
    case SendFirst(fault) =>
      var s, local := st.session.scope, st.session.local;
      if fault == PatchLost then st.(session := Idle)
      else
        var stored := PatchObject(Current(st), s.orig, local);
        Store(st.versions + [stored],
              if fault == PatchUnanswered then Idle else HalfClosed(s, stored.(status := local.status)))
    case SendSecond(fault) =>
      if fault == PatchLost then st.(session := Idle)
      else Store(st.versions + [PatchStatus(Current(st), st.session.scope.orig, st.session.local)], Idle)
    case Crash => st.(session := Idle)
    case Foreign(m) => st.(versions := st.versions + [m])
  }

  /** Whoever shows Created=True has a provider ID. */
  ghost predicate Sound(m: Machine) {
    ShowsCreated(m.status.provider.conditions) ==> m.providerId.Some?
  }

  ghost predicate Recorded(versions: seq<Machine>) {
    exists v :: 0 <= v < |versions| && versions[v].providerId.Some?
  }

  ghost predicate ScopeSound(s: Scope, versions: seq<Machine>) {
    && s.orig in versions
    && s.machine.status.provider == s.orig.status.provider
    && (s.orig.providerId.Some? ==> s.machine.providerId.Some?)
    && (ShowsCreated(s.providerStatus.conditions) ==> s.machine.providerId.Some?)
  }

  ghost predicate Invariant(st: Store) {
    && st.versions != []
    && (forall v :: 0 <= v < |st.versions| ==> Sound(st.versions[v]))
    && (Recorded(st.versions) ==> Current(st).providerId.Some?)
    && match st.session
       case Idle => true
       case Working(s) => ScopeSound(s, st.versions)
       case Closing(s, local) =>
         && ScopeSound(s, st.versions)
         && local.providerId == s.machine.providerId
         && (ShowsCreated(local.status.provider.conditions) ==> local.providerId.Some?)
       case HalfClosed(s, local) =>
         && s.orig in st.versions
         && (ShowsCreated(local.status.provider.conditions) ==> Current(st).providerId.Some?)
  }

  /** The failure condition never shows Created=True, and reconciling conditions never invents it. */
  lemma FailureShowsNothing(conditions: seq<Condition>, message: string, now: int)
    ensures ShowsCreated(Reconciled(conditions, CreationFailed(message), now)) ==> ShowsCreated(conditions)
  {
    var after := Reconciled(conditions, CreationFailed(message), now);
    if ShowsCreated(after) {
      var i :| 0 <= i < |after| && after[i].kind == MACHINE_CREATED && after[i].status == "True";
      assert i < |conditions| && conditions[i] == after[i];
    }
  }

  lemma WorkKeepsScopeSound(s: Scope, versions: seq<Machine>, effect: Effect, now: int)
    requires ScopeSound(s, versions)
    ensures ScopeSound(Worked(s, effect, now), versions)
  {
    if effect.CreationRefused? {
      FailureShowsNothing(s.providerStatus.conditions, effect.message, now);
    }
  }

  lemma FirstPatchKeepsInvariant(st: Store, fault: PatchFault)
    requires Invariant(st) && st.session.Closing?
    ensures Invariant(Act(st, SendFirst(fault)))
  {
    var s, local := st.session.scope, st.session.local;
    var v :| 0 <= v < |st.versions| && st.versions[v] == s.orig;
    assert s.orig.providerId.Some? ==> Recorded(st.versions);
    var stored := PatchObject(Current(st), s.orig, local);
    assert local.providerId.Some? ==> stored.providerId.Some?;
    assert Current(st).providerId.Some? ==> stored.providerId.Some?;
    assert stored.status == Current(st).status && Sound(stored);
  }

  lemma SecondPatchKeepsInvariant(st: Store, fault: PatchFault)
    requires Invariant(st) && st.session.HalfClosed?
    ensures Invariant(Act(st, SendSecond(fault)))
  {
    var stored := PatchStatus(Current(st), st.session.scope.orig, st.session.local);
    assert Sound(stored) && stored.providerId == Current(st).providerId;
  }

  lemma ActKeepsInvariant(st: Store, action: Action)
    requires Invariant(st) && Allowed(st, action)
    ensures Invariant(Act(st, action))
  {
    match action
    case OpenAt(v, _) =>
    case Work(effect, now) => WorkKeepsScopeSound(st.session.scope, st.versions, effect, now);
    case Encode(_) =>
    case SendFirst(fault) => FirstPatchKeepsInvariant(st, fault);
    case SendSecond(fault) => SecondPatchKeepsInvariant(st, fault);
    case Crash =>
    case Foreign(m) => assert Sound(m);
  }

  ghost predicate IsHistory(states: seq<Store>, actions: seq<Action>) {
    && |states| == |actions| + 1
    && states[0].versions != [] && states[0].session.Idle?
    && forall i :: 0 <= i < |actions| ==>
         states[i].versions != [] && Allowed(states[i], actions[i]) && states[i + 1] == Act(states[i], actions[i])
  }

  /**
   Crash consistency: however opening (even from a stale copy), working, the two patches, lost
   or unanswered patches, crashes and other writers interleave, no stored version ever shows
   Created=True without a provider ID.
   */
  lemma {:induction false} CrashConsistency(states: seq<Store>, actions: seq<Action>, n: nat)
    requires IsHistory(states, actions) && n < |states|
    requires |states[0].versions| == 1 && Sound(states[0].versions[0])
    ensures Invariant(states[n])
    ensures forall v :: 0 <= v < |states[n].versions| ==> Sound(states[n].versions[v])
  {
    if n == 0 {
    } else {
      CrashConsistency(states, actions, n - 1);
      ActKeepsInvariant(states[n - 1], actions[n - 1]);
      assert states[n - 1 + 1] == Act(states[n - 1], actions[n - 1]);
    }
  }

  // ----- the computed status, in every interleaving -----

  ghost predicate IsClosing(session: Session, s: Scope) {
    (session.Closing? || session.HalfClosed?) && session.scope == s
  }

  /** From the Encode at step e to state n one session has been closing the scope s. */
  ghost predicate ClosesSince(states: seq<Store>, actions: seq<Action>, e: int, n: int, s: Scope) {
    && 0 <= e < n < |states| && e < |actions|
    && states[e].session == Working(s) && actions[e].Encode?
    && forall k :: e < k <= n ==> IsClosing(states[k].session, s)
  }

  /** Between the two the first patch was answered, and its response replaced the working copy. */
  ghost predicate FirstAnswered(actions: seq<Action>, e: int, n: int) {
    exists k :: 0 <= e < k < n <= |actions| && actions[k] == SendFirst(PatchClean)
  }

  ghost predicate Acts(st: Store, action: Action, st': Store) {
    st.versions != [] && Allowed(st, action) && st' == Act(st, action)
  }

  lemma ClosingStep(st: Store, action: Action, st': Store)
    requires Acts(st, action, st') && (st'.session.Closing? || st'.session.HalfClosed?)
    ensures action.Encode? ==>
      st.session.Working? && st'.session == Closing(st.session.scope, Encoded(st.session.scope, action.now))
    ensures !action.Encode? ==>
      && IsClosing(st.session, st'.session.scope)
      && st'.session.local.status == st.session.local.status
      && (st'.session.HalfClosed? && st.session.Closing? ==> action == SendFirst(PatchClean))
      && (st'.session.Closing? ==> st.session.Closing?)
  {
  }

  lemma {:induction false} ClosingSinceEncode(states: seq<Store>, actions: seq<Action>, n: nat) returns (e: nat)
    requires IsHistory(states, actions) && n < |states|
    requires states[n].session.Closing? || states[n].session.HalfClosed?
    ensures ClosesSince(states, actions, e, n, states[n].session.scope)
    ensures states[n].session.local.status == Encoded(states[n].session.scope, actions[e].now).status
    ensures states[n].session.HalfClosed? ==> FirstAnswered(actions, e, n)
  {
    assert n > 0;
    var st, action, st' := states[n - 1], actions[n - 1], states[n - 1 + 1];
    assert Acts(st, action, st');
    ClosingStep(st, action, st');
    if action.Encode? {
      e := n - 1;
    } else {
      e := ClosingSinceEncode(states, actions, n - 1);
      if st'.session.HalfClosed? {
        if st.session.Closing? {
          assert e < n - 1 < n && actions[n - 1] == SendFirst(PatchClean);
        } else {
          var k :| 0 <= e < k < n - 1 && actions[k] == SendFirst(PatchClean);
          assert e < k < n && actions[k] == SendFirst(PatchClean);
        }
      }
    }
  }

  /** A field that was changed is stored as computed, one that was not stays as the server has it. */
  ghost predicate Survives<T(!new)>(before: T, computed: T, server: T, stored: T) {
    stored == if computed == before then server else computed
  }

  /**
   The status computed in a run survives the first patch, whose response overwrites the working copy,
   in every interleaving with other writers: a status patch that takes effect stores, over what the
   server then has, exactly the fields that the Encode of the same session changed since opening.
   */
  lemma ComputedStatusSurvives(states: seq<Store>, actions: seq<Action>, n: nat) returns (e: nat, s: Scope)
    requires IsHistory(states, actions) && n < |actions|
    requires actions[n].SendSecond? && actions[n].fault != PatchLost
    ensures ClosesSince(states, actions, e, n, s) && FirstAnswered(actions, e, n)
    ensures states[n].versions != [] && states[n + 1].versions != []
    ensures var before, computed := s.orig.status, Encoded(s, actions[e].now).status;
      var server, stored := Current(states[n]).status, Current(states[n + 1]).status;
      && Current(states[n + 1]) == Current(states[n]).(status := stored)
      && Survives(before.addresses, computed.addresses, server.addresses, stored.addresses)
      && Survives(before.lastUpdated, computed.lastUpdated, server.lastUpdated, stored.lastUpdated)
      && Survives(before.phase, computed.phase, server.phase, stored.phase)
      && ProviderSurvives(before.provider, computed.provider, server.provider, stored.provider)
  {
    assert Acts(states[n], actions[n], states[n + 1]);
    s := states[n].session.scope;
    e := ClosingSinceEncode(states, actions, n);
  }

  ghost predicate ProviderSurvives(before: ProviderStatus, computed: ProviderStatus, server: ProviderStatus,
                                   stored: ProviderStatus)
  {
    && Survives(before.conditions, computed.conditions, server.conditions, stored.conditions)
    && Survives(before.instanceState, computed.instanceState, server.instanceState, stored.instanceState)
    && Survives(before.instanceId, computed.instanceId, server.instanceId, stored.instanceId)
  }

  // ----- what other writers changed in the meantime -----

  /** A session changes the provider ID, the addresses and the shielded configuration of its copies, and no more. */
  ghost predicate ChangesLittle(s: Scope) {
    && s.machine == s.orig.(providerId := s.machine.providerId,
                            status := s.orig.status.(addresses := s.machine.status.addresses))
    && s.providerSpec == s.orig.spec.(shielded := s.providerSpec.shielded)
  }

  ghost predicate SessionChangesLittle(session: Session) {
    match session
    case Idle => true
    case Working(s) => ChangesLittle(s)
    case Closing(s, local) =>
      && ChangesLittle(s) && local.spec == s.providerSpec && local.providerId == s.machine.providerId
      && local.status.phase == s.orig.status.phase
    case HalfClosed(s, local) => ChangesLittle(s) && local.status.phase == s.orig.status.phase
  }

  lemma ActChangesLittle(st: Store, action: Action, st': Store)
    requires Acts(st, action, st') && SessionChangesLittle(st.session)
    ensures SessionChangesLittle(st'.session)
  {
  }

  lemma {:induction false} SessionsChangeLittle(states: seq<Store>, actions: seq<Action>, n: nat)
    requires IsHistory(states, actions) && n < |states|
    ensures SessionChangesLittle(states[n].session)
  {
    if n == 0 {
    } else {
      SessionsChangeLittle(states, actions, n - 1);
      assert Acts(states[n - 1], actions[n - 1], states[n - 1 + 1]);
      ActChangesLittle(states[n - 1], actions[n - 1], states[n]);
    }
  }

  /**
   An edit made while a session is open survives its Close: the first patch touches the provider ID and
   the shielded configuration alone, each setting by itself, and only where the session changed it.
   */
  lemma EditsSurviveFirstPatch(states: seq<Store>, actions: seq<Action>, n: nat) returns (s: Scope)
    requires IsHistory(states, actions) && n < |actions|
    requires actions[n].SendFirst? && actions[n].fault != PatchLost
    ensures IsClosing(states[n].session, s) && states[n].versions != [] && states[n + 1].versions != []
    ensures var server, stored := Current(states[n]), Current(states[n + 1]);
      var before, computed := s.orig.spec.shielded, s.providerSpec.shielded;
      && stored == server.(providerId := stored.providerId, spec := server.spec.(shielded := stored.spec.shielded))
      && Survives(s.orig.providerId, s.machine.providerId, server.providerId, stored.providerId)
      && Survives(before.secureBoot, computed.secureBoot, server.spec.shielded.secureBoot,
          stored.spec.shielded.secureBoot)
      && Survives(before.vtpm, computed.vtpm, server.spec.shielded.vtpm, stored.spec.shielded.vtpm)
      && Survives(before.integrity, computed.integrity, server.spec.shielded.integrity, stored.spec.shielded.integrity)
  {
    assert Acts(states[n], actions[n], states[n + 1]);
    s := states[n].session.scope;
    SessionsChangeLittle(states, actions, n);
  }

  /** And the status patch leaves the phase, and everything outside the status, to whoever wrote it. */
  lemma PhaseIsLeftAlone(states: seq<Store>, actions: seq<Action>, n: nat)
    requires IsHistory(states, actions) && n < |actions| && actions[n].SendSecond?
    ensures states[n].versions != [] && states[n + 1].versions != []
    ensures var server, stored := Current(states[n]), Current(states[n + 1]);
      stored == server.(status := stored.status) && stored.status.phase == server.status.phase
  {
    assert Acts(states[n], actions[n], states[n + 1]);
    SessionsChangeLittle(states, actions, n);
  }

  lemma SuccessShowsCreated(conditions: seq<Condition>, now: int)
    ensures ShowsCreated(Reconciled(conditions, CREATED, now))
  {
    var at := Find(conditions, MACHINE_CREATED);
    var i := if at.Some? then at.value else |conditions|;
    assert Reconciled(conditions, CREATED, now)[i].status == "True";
  }

  /**
   Wherever an earlier attempt stopped, the next one that sees the instance and gets both
   patches through stores the provider ID, the addresses, the instance state and Created=True.
   */
  lemma RetryStores(stored: Machine, credentialProject: string, instance: Instance, now: int)
    requires instance.nics != []
    ensures var s := Worked(Open(stored, credentialProject), Saw(instance), now);
      var (m, ok) := Close(s, stored, now, PatchClean, PatchClean);
      && ok && Sound(m) && ShowsCreated(m.status.provider.conditions)
      && m.providerId == s.machine.providerId && m.providerId.Some?
      && m.status.provider == s.providerStatus && m.status.provider.instanceState == Some(instance.status)
      && m.status.addresses == NodeAddresses(TargetOf(s), instance.nics[0])
      && m.spec == stored.spec
  {
    var s := Worked(Open(stored, credentialProject), Saw(instance), now);
    CloseStoresEverything(s, now);
    SuccessShowsCreated(stored.status.provider.conditions, now);
  }
}
