/**
 Actuator operations: open a scope, reconcile, close the scope. Create and Update close it
 even when the reconcile failed; Delete never does.
 */
module MachineActuator {
  import opened Common
  import opened Machines
  import opened CloudModel
  import opened Actuation
  import opened Persistence
  import opened MachineReconciler

  /** The faults the two patches of one Close meet, and its clock. */
  datatype Patching = Patching(now: int, first: PatchFault, second: PatchFault)

  /** A panic or the exit of the process skips Close. */
  predicate IsAbrupt(outcome: Outcome) {
    outcome == Panic || outcome == Exit
  }

  /** The reconcile's error wins over Close's. */
  function Finish(s: Scope, stored: Machine, outcome: Outcome, c: Patching): (Machine, Outcome) {
    if IsAbrupt(outcome) then (stored, outcome)
    else
      var (m, ok) := Close(s, stored, c.now, c.first, c.second);
      (m, if outcome == Success && !ok then OtherError else outcome)
  }

  /** What the cloud will boot if an insert takes effect, and the text of its error otherwise. */
  datatype Creation = Creation(boots: Instance, message: string)

  ghost function ActuatorCreate(w: World, stored: Machine, credentials: string, creation: Creation, c: Patching)
    : (World, Machine, Outcome)
  {
    var (w1, s, outcome) := Create(w, Open(stored, credentials), creation.boots, creation.message, c.now);
    var (m, reported) := Finish(s, stored, outcome, c);
    (w1, m, reported)
  }

  function ActuatorUpdate(w: World, stored: Machine, credentials: string, c: Patching): (World, Machine, Outcome) {
    var (w1, s, outcome) := Update(w, Open(stored, credentials), c.now);
    var (m, reported) := Finish(s, stored, outcome, c);
    (w1, m, reported)
  }

  function ActuatorDelete(w: World, stored: Machine, credentials: string): (World, Outcome) {
    Delete(w, TargetOf(Open(stored, credentials)), stored.providerId)
  }

  class Actuator {
    const server: ApiServer
    const service: ComputeService
    const credentials: string

    constructor (server: ApiServer, service: ComputeService, credentials: string)
      ensures this.server == server && this.service == service && this.credentials == credentials
    {
      this.server := server;
      this.service := service;
      this.credentials := credentials;
    }

    method CreateMachine(creation: Creation, c: Patching) returns (outcome: Outcome)
      modifies server, service
      ensures (service.world, server.stored, outcome) ==
              ActuatorCreate(old(service.world), old(server.stored), credentials, creation, c)
    {
      var scope := new MachineScope(server.stored, credentials);
      var reconciler := new Reconciler(scope, service);
      outcome := reconciler.CreateMachine(creation.boots, creation.message, c.now);
      if IsAbrupt(outcome) {
        return;
      }
      var closed := scope.CloseScope(server, c.now, c.first, c.second);
      if outcome == Success && !closed {
        return OtherError;
      }
    }

    method UpdateMachine(c: Patching) returns (outcome: Outcome)
      modifies server, service
      ensures (service.world, server.stored, outcome) ==
              ActuatorUpdate(old(service.world), old(server.stored), credentials, c)
    {
      var scope := new MachineScope(server.stored, credentials);
      var reconciler := new Reconciler(scope, service);
      outcome := reconciler.UpdateMachine(c.now);
      if IsAbrupt(outcome) {
        return;
      }
      var closed := scope.CloseScope(server, c.now, c.first, c.second);
      if outcome == Success && !closed {
        return OtherError;
      }
    }

    /** Exists writes the phase of the caller's copy of the machine, and never closes the scope. */
    method MachineExists(phase: Option<string>) returns (found: bool, answer: Outcome, phase': Option<string>)
      modifies service
      ensures (service.world, found, answer, phase') ==
              ActuatorExists(old(service.world), TargetOf(Open(server.stored, credentials)),
                             phase, server.stored.providerId)
    {
      phase' := phase;
      var scope := new MachineScope(server.stored, credentials);
      var reconciler := new Reconciler(scope, service);
      found, answer := reconciler.InstanceExists();
      if answer != InvalidConfiguration {
        return;
      }
      if phase'.None? {
        phase' := Some("Failed");
      }
      if phase' == Some("Deleting") && server.stored.providerId.None? {
        return false, Success, phase';
      }
    }

    method DeleteMachine() returns (outcome: Outcome)
      modifies service
      ensures (service.world, outcome) == ActuatorDelete(old(service.world), server.stored, credentials)
    {
      var scope := new MachineScope(server.stored, credentials);
      var reconciler := new Reconciler(scope, service);
      outcome := reconciler.DeleteMachine();
    }
  }
}
