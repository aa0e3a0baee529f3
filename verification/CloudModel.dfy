/**
 The cloud as the actuator sees it: instances, target pools, instance groups and backend
 services behind calls that may fail before or after their effect. Every issued call is
 recorded together with the cloud it met.
 */
module CloudModel {
  import opened Machines
  import Admission
  import Text
  import Names

  const RUNNING := "RUNNING"

  // ----- errors and their classification -----

  datatype ErrorItem = ErrorItem(reason: string, message: string)

  datatype ApiError = GoogleError(code: int, items: seq<ErrorItem>) | TransportError

  predicate IsNotFound(e: ApiError) {
    e.GoogleError? && e.code == 404
  }

  predicate MentionsProject(item: ErrorItem, project: string) {
    Text.Contains(item.message, "'projects/" + project + "'") && item.reason == "notFound"
  }

  predicate MentionsZone(item: ErrorItem) {
    Text.Contains(item.message, "'zone'") && item.reason == "invalid"
  }

  predicate IsProjectNotFound(e: ApiError, project: string) {
    IsNotFound(e) && exists i :: 0 <= i < |e.items| && MentionsProject(e.items[i], project)
  }

  predicate IsInvalidZone(e: ApiError) {
    e.GoogleError? && e.code == 400 && exists i :: 0 <= i < |e.items| && MentionsZone(e.items[i])
  }

  /** An error that reads as a statement about what exists. */
  predicate Misleading(e: ApiError) {
    IsNotFound(e) || IsInvalidZone(e)
  }

  // ----- state -----

  datatype InstanceKey = InstanceKey(project: string, zone: string, name: string)
  datatype Nic = Nic(ip: string, natIps: seq<string>)
  datatype Instance = Instance(status: string, nics: seq<Nic>)
  datatype PoolKey = PoolKey(project: string, region: string, name: string)
  datatype GroupKey = GroupKey(project: string, zone: string, name: string)
  datatype ServiceKey = ServiceKey(project: string, region: string, name: string)

  /** A backend service with the fingerprint that makes stale updates fail. */
  datatype BackendService = BackendService(backends: seq<string>, version: nat)

  datatype Cloud = Cloud(
    projects: set<string>, zones: set<string>,
    instances: map<InstanceKey, Instance>,
    pools: map<PoolKey, seq<string>>,
    groups: map<GroupKey, set<string>>,
    services: map<ServiceKey, BackendService>,
    around: Admission.Surroundings)

  function KeyOf(t: Target): InstanceKey { InstanceKey(t.project, t.spec.zone, t.name) }
  function PoolOf(t: Target, pool: string): PoolKey { PoolKey(t.project, t.spec.region, pool) }
  function GroupOf(t: Target): GroupKey { GroupKey(t.project, t.spec.zone, Names.GroupName(t.cluster, t.spec.zone)) }
  function ServiceOf(t: Target): ServiceKey {
    ServiceKey(t.project, t.spec.region, Names.BackendServiceName(t.cluster))
  }

  /** Nothing lives in a project or zone that does not exist. */
  ghost predicate Consistent(c: Cloud) {
    forall k :: k in c.instances ==> k.project in c.projects && k.zone in c.zones
  }

  function RunningLinks(c: Cloud): set<string> {
    set k | k in c.instances && c.instances[k].status == RUNNING :: Names.InstanceLink(k.project, k.zone, k.name)
  }

  function Without(links: seq<string>, link: string): (r: seq<string>)
    ensures link !in r
    ensures forall l :: l != link ==> (l in r <==> l in links)
  {
    if links == [] then []
    else if links[0] == link then Without(links[1..], link)
    else [links[0]] + Without(links[1..], link)
  }

  function With(links: seq<string>, link: string): seq<string> {
    if link in links then links else links + [link]
  }

  // ----- calls -----

  datatype Call =
    | InstancesGet(key: InstanceKey)
    | InstancesInsert(key: InstanceKey, boots: Instance, asked: Admission.InstanceBody)
    | InstancesDelete(key: InstanceKey)
    | PoolGet(pool: PoolKey)
    | PoolAdd(pool: PoolKey, link: string)
    | PoolRemove(pool: PoolKey, link: string)
    | GroupGet(group: GroupKey)
    | GroupInsert(group: GroupKey, network: NetworkInterface)
    | GroupList(group: GroupKey)
    | GroupAdd(group: GroupKey, link: string)
    | GroupRemove(group: GroupKey, link: string)
    | ServiceGet(service: ServiceKey)
    | ServiceUpdate(service: ServiceKey, body: BackendService)

  predicate IsRead(call: Call) {
    call.InstancesGet? || call.PoolGet? || call.GroupGet? || call.GroupList? || call.ServiceGet?
  }

  datatype Reply =
    | Failed(error: ApiError)
    | Done
    | GotInstance(instance: Instance)
    | GotPool(links: seq<string>)
    | GotRunning(running: set<string>)
    | GotService(body: BackendService)

  const NOT_FOUND := GoogleError(404, [])
  const CONFLICT := GoogleError(409, [])
  const STALE := GoogleError(412, [])

  function ProjectMissing(project: string): (e: ApiError)
    ensures IsProjectNotFound(e, project)
  {
    var quoted := "'projects/" + project + "'";
    assert Text.OccursAt(quoted, quoted, 0);
    var e := GoogleError(404, [ErrorItem("notFound", quoted)]);
    assert MentionsProject(e.items[0], project);
    e
  }

  function ZoneMissing(): (e: ApiError)
    ensures IsInvalidZone(e)
  {
    assert Text.OccursAt("'zone'", "'zone'", 0);
    var e := GoogleError(400, [ErrorItem("invalid", "'zone'")]);
    assert MentionsZone(e.items[0]);
    e
  }

  predicate Answers(call: Call, reply: Reply) {
    reply.Failed? || match call
      case InstancesGet(_) => reply.GotInstance?
      case PoolGet(_) => reply.GotPool?
      case GroupList(_) => reply.GotRunning?
      case ServiceGet(_) => reply.GotService?
      case _ => reply.Done?
  }

  /** What an honest cloud does with a call. Deletion is asynchronous: the instance stops first. */
  function Serve(c: Cloud, call: Call): (r: (Cloud, Reply))
    ensures Answers(call, r.1)
    ensures IsRead(call) ==> r.0 == c
  {
    match call
    case InstancesGet(k) =>
      if k.project !in c.projects then (c, Failed(ProjectMissing(k.project)))
      else if k.zone !in c.zones then (c, Failed(ZoneMissing()))
      else if k !in c.instances then (c, Failed(NOT_FOUND))
      else (c, GotInstance(c.instances[k]))
    case InstancesInsert(k, boots, _) =>
      if k.project !in c.projects then (c, Failed(ProjectMissing(k.project)))
      else if k.zone !in c.zones then (c, Failed(ZoneMissing()))
      else if k in c.instances then (c, Failed(CONFLICT))
      else (c.(instances := c.instances[k := boots]), Done)
    case InstancesDelete(k) =>
      if k !in c.instances then (c, Failed(NOT_FOUND))
      else (c.(instances := c.instances[k := c.instances[k].(status := "STOPPING")]), Done)
    case PoolGet(p) => if p in c.pools then (c, GotPool(c.pools[p])) else (c, Failed(NOT_FOUND))
    case PoolAdd(p, link) =>
      if p in c.pools then (c.(pools := c.pools[p := With(c.pools[p], link)]), Done) else (c, Failed(NOT_FOUND))
    case PoolRemove(p, link) =>
      if p in c.pools then (c.(pools := c.pools[p := Without(c.pools[p], link)]), Done) else (c, Failed(NOT_FOUND))
    case GroupGet(g) => if g in c.groups then (c, Done) else (c, Failed(NOT_FOUND))
    case GroupInsert(g, _) =>
      if g in c.groups then (c, Failed(CONFLICT)) else (c.(groups := c.groups[g := {}]), Done)
    case GroupList(g) =>
      if g in c.groups then (c, GotRunning(c.groups[g] * RunningLinks(c))) else (c, Failed(NOT_FOUND))
    case GroupAdd(g, link) =>
      if g in c.groups then (c.(groups := c.groups[g := c.groups[g] + {link}]), Done) else (c, Failed(NOT_FOUND))
    case GroupRemove(g, link) =>
      if g in c.groups then (c.(groups := c.groups[g := c.groups[g] - {link}]), Done) else (c, Failed(NOT_FOUND))
    case ServiceGet(s) => if s in c.services then (c, GotService(c.services[s])) else (c, Failed(NOT_FOUND))
    case ServiceUpdate(s, body) =>
      if s !in c.services then (c, Failed(NOT_FOUND))
      else if c.services[s].version != body.version then (c, Failed(STALE))
      else (c.(services := c.services[s := BackendService(body.backends, body.version + 1)]), Done)
  }

  // ----- faults -----

  datatype Fault = Clean | Before(error: ApiError) | After(error: ApiError)

  /** No fault passes for a statement about what exists. */
  ghost predicate Honest(faults: seq<Fault>) {
    forall i :: 0 <= i < |faults| && !faults[i].Clean? ==> !Misleading(faults[i].error)
  }

  datatype Event = Event(target: Target, call: Call, before: Cloud)

  /**
   The cloud, the faults to come and the calls made. The calls before `since` were made before another
   party last took a group or a backend away.
   */
  datatype World = World(cloud: Cloud, faults: seq<Fault>, trace: seq<Event>, since: nat)

  /** One call: the next fault of the script decides whether it takes effect and what it reports. */
  function Issue(w: World, t: Target, call: Call): (r: (World, Reply))
    ensures Answers(call, r.1)
    ensures r.0.trace == w.trace + [Event(t, call, w.cloud)] && r.0.since == w.since
    ensures r.0.cloud == w.cloud || r.0.cloud == Serve(w.cloud, call).0
    ensures !r.1.Failed? ==> (r.0.cloud, r.1) == Serve(w.cloud, call)
    ensures w.faults == [] ==> (r.0.cloud, r.1) == Serve(w.cloud, call) && r.0.faults == []
    ensures Honest(w.faults) ==> Honest(r.0.faults)
    ensures Honest(w.faults) && r.1.Failed? && Misleading(r.1.error) ==> (r.0.cloud, r.1) == Serve(w.cloud, call)
  {
    var event := Event(t, call, w.cloud);
    var (after, reply) := Serve(w.cloud, call);
    if w.faults == [] then (World(after, [], w.trace + [event], w.since), reply)
    else match w.faults[0]
      case Clean => (World(after, w.faults[1..], w.trace + [event], w.since), reply)
      case Before(e) => (World(w.cloud, w.faults[1..], w.trace + [event], w.since), Failed(e))
      case After(e) => (World(after, w.faults[1..], w.trace + [event], w.since), Failed(e))
  }

  /** The client the reconciler holds. */
  class ComputeService {
    var world: World

    constructor (initial: World)
      ensures world == initial
    {
      world := initial;
    }

    method Do(t: Target, call: Call) returns (reply: Reply)
      modifies this
      ensures (world, reply) == Issue(old(world), t, call)
    {
      var (w, r) := Issue(world, t, call);
      world := w;
      return r;
    }
  }
}
