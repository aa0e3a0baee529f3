/** When a call is justified by the cloud it meets. */
module Justification {
  import opened Machines
  import opened CloudModel
  import Admission
  import Names

  ghost predicate InPool(c: Cloud, p: PoolKey, link: string) {
    p in c.pools && link in c.pools[p]
  }

  ghost predicate InNoPool(c: Cloud, t: Target) {
    forall pool :: pool in t.spec.targetPools ==> !InPool(c, PoolOf(t, pool), Link(t))
  }

  ghost predicate AmongRunning(c: Cloud, t: Target) {
    GroupOf(t) in c.groups && Link(t) in c.groups[GroupOf(t)] * RunningLinks(c)
  }

  /** The group is a backend of the cluster's api-internal service. */
  ghost predicate IsBackend(c: Cloud, t: Target) {
    ServiceOf(t) in c.services && GroupLink(t) in c.services[ServiceOf(t)].backends
  }

  /**
   Every write names the target's own resources and is needed when it is made:
   - an instance is asked for only as the answers of the services it met sanction it;
   - the instance is deleted only out of all its pools and, for a master, out of the RUNNING members of its group;
   - it enters the control-plane group only when the group exists and already is a backend;
   - the backend list only ever grows by this group's link, and only while that link is missing;
   - pools, group members and groups are changed only where they differ from what is wanted.
   */
  ghost predicate Justified(e: Event) {
    var t, c := e.target, e.before;
    match e.call
    case InstancesInsert(k, _, body) => k == KeyOf(t) && Valid(t) && Admission.Sanctioned(c.around, t, body)
    case InstancesDelete(k) => k == KeyOf(t) && InNoPool(c, t) && (t.role == MASTER ==> !AmongRunning(c, t))
    case PoolAdd(p, link) =>
      && link == Link(t) && (exists pool :: pool in t.spec.targetPools && p == PoolOf(t, pool))
      && p in c.pools && link !in c.pools[p]
    case PoolRemove(p, link) =>
      && link == Link(t) && (exists pool :: pool in t.spec.targetPools && p == PoolOf(t, pool))
      && p in c.pools && link in c.pools[p]
    case GroupInsert(g, network) => g == GroupOf(t) && t.role == MASTER && g !in c.groups && IsGroupNetwork(t, network)
    case GroupAdd(g, link) =>
      g == GroupOf(t) && link == Link(t) && t.role == MASTER && g in c.groups && IsBackend(c, t) && !AmongRunning(c, t)
    case GroupRemove(g, link) => g == GroupOf(t) && link == Link(t) && t.role == MASTER && AmongRunning(c, t)
    case ServiceUpdate(s, body) =>
      && s == ServiceOf(t) && t.role == MASTER && s in c.services
      && GroupLink(t) !in c.services[s].backends
      && body == c.services[s].(backends := c.services[s].backends + [GroupLink(t)])
    case _ => true
  }

  /**
   One of the spec's interfaces: the one on the cluster's own network and subnetwork if there is such a one, else the
   first.
   */
  ghost predicate IsGroupNetwork(t: Target, n: NetworkInterface) {
    && n in t.spec.networkInterfaces
    && var own := NetworkInterface(t.cluster + "-network", t.cluster + "-" + t.role + "-subnet");
       if own in t.spec.networkInterfaces then n == own else n == t.spec.networkInterfaces[0]
  }

  /** The call is about the target's own instance, pools, group or backend service. */
  ghost predicate IsOwn(t: Target, call: Call) {
    match call
    case InstancesGet(k) => k == InstanceKey(t.project, t.spec.zone, t.name)
    case InstancesInsert(k, _, _) => k == InstanceKey(t.project, t.spec.zone, t.name)
    case InstancesDelete(k) => k == InstanceKey(t.project, t.spec.zone, t.name)
    case PoolGet(p) => IsOwnPool(t, p)
    case PoolAdd(p, link) => IsOwnPool(t, p) && IsOwnLink(t, link)
    case PoolRemove(p, link) => IsOwnPool(t, p) && IsOwnLink(t, link)
    case GroupGet(g) => IsOwnGroup(t, g)
    case GroupInsert(g, _) => IsOwnGroup(t, g)
    case GroupList(g) => IsOwnGroup(t, g)
    case GroupAdd(g, link) => IsOwnGroup(t, g) && IsOwnLink(t, link)
    case GroupRemove(g, link) => IsOwnGroup(t, g) && IsOwnLink(t, link)
    case ServiceGet(s) => s == ServiceKey(t.project, t.spec.region, t.cluster + "-api-internal")
    case ServiceUpdate(s, body) =>
      && s == ServiceKey(t.project, t.spec.region, t.cluster + "-api-internal")
      && body.backends != []
      && body.backends[|body.backends| - 1] == Names.GroupLink(t.project, t.spec.zone, t.cluster)
  }

  ghost predicate IsOwnLink(t: Target, link: string) {
    link == Names.InstanceLink(t.project, t.spec.zone, t.name)
  }

  ghost predicate IsOwnPool(t: Target, p: PoolKey) {
    p.project == t.project && p.region == t.spec.region && p.name in t.spec.targetPools
  }

  ghost predicate IsOwnGroup(t: Target, g: GroupKey) {
    g == GroupKey(t.project, t.spec.zone, t.cluster + "-master-" + t.spec.zone)
  }

  /** Calls were added to the trace, every one about the target's own resources. */
  ghost predicate Grown(before: seq<Event>, after: seq<Event>, t: Target) {
    before <= after && forall i :: |before| <= i < |after| ==> IsOwn(t, after[i].call)
  }

  ghost predicate AllJustified(trace: seq<Event>) {
    forall i :: 0 <= i < |trace| ==> Justified(trace[i])
  }

  /** Groups stay, and no backend is lost or moved. */
  ghost predicate KeepsControlPlane(c: Cloud, c': Cloud) {
    && c.groups.Keys <= c'.groups.Keys
    && forall s :: s in c.services ==> s in c'.services && c.services[s].backends <= c'.services[s].backends
  }

  /**
   Every instance this code put into a control-plane group, since another party last took a group or a
   backend away, still has its group, and the group is a backend.
   */
  ghost predicate Backed(w: World) {
    forall i :: w.since <= i < |w.trace| && w.trace[i].call.GroupAdd? ==>
      GroupOf(w.trace[i].target) in w.cloud.groups && IsBackend(w.cloud, w.trace[i].target)
  }

  /** What every step keeps. */
  ghost predicate Good(w: World) {
    AllJustified(w.trace) && Backed(w) && Consistent(w.cloud) && Honest(w.faults)
  }

  /** A backend list is only extended. */
  ghost predicate LosesNoBackend(c: Cloud, call: Call) {
    call.ServiceUpdate? && call.service in c.services ==> c.services[call.service].backends <= call.body.backends
  }

  lemma ServeKeeps(c: Cloud, call: Call)
    requires LosesNoBackend(c, call) && Consistent(c)
    ensures KeepsControlPlane(c, Serve(c, call).0) && Consistent(Serve(c, call).0)
  {
  }

  lemma BackedKept(w: World, c': Cloud)
    requires Backed(w) && KeepsControlPlane(w.cloud, c')
    ensures Backed(w.(cloud := c'))
  {
  }

  lemma IssueKeepsGood(w: World, t: Target, call: Call)
    requires Good(w) && Justified(Event(t, call, w.cloud))
    ensures Good(Issue(w, t, call).0)
  {
    ServeKeeps(w.cloud, call);
    var w1 := Issue(w, t, call).0;
    assert KeepsControlPlane(w.cloud, w1.cloud);
    BackedKept(w, w1.cloud);
    forall i | w1.since <= i < |w1.trace| && w1.trace[i].call.GroupAdd?
      ensures GroupOf(w1.trace[i].target) in w1.cloud.groups && IsBackend(w1.cloud, w1.trace[i].target)
    {
      if i < |w.trace| {
        assert w1.trace[i] == w.trace[i];
      } else {
        assert w1.trace[i] == Event(t, call, w.cloud);
      }
    }
  }

  function Writes(trace: seq<Event>): nat {
    if trace == [] then 0 else (if IsRead(trace[|trace| - 1].call) then 0 else 1) + Writes(trace[..|trace| - 1])
  }

  lemma WritesAppend(trace: seq<Event>, e: Event)
    ensures Writes(trace + [e]) == Writes(trace) + (if IsRead(e.call) then 0 else 1)
  {
    assert (trace + [e])[..|trace|] == trace;
  }
}
