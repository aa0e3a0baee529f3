/**
 The control-plane instance group of a zone and its place among the backends of the
 cluster's internal API service.
 */
module ControlPlane {
  import opened Common
  import opened Machines
  import opened CloudModel
  import opened Actuation
  import opened Justification

  /** The cloud after the group's link was appended to the backends. */
  function WithBackend(c: Cloud, t: Target): Cloud
    requires ServiceOf(t) in c.services
  {
    var s := c.services[ServiceOf(t)];
    c.(services := c.services[ServiceOf(t) := BackendService(s.backends + [GroupLink(t)], s.version + 1)])
  }

  lemma AppendBackendTheorem(w: World, t: Target)
    ensures var (w', outcome) := AppendBackend(w, t);
      && (outcome == Success || outcome == OtherError)
      && (outcome == Success ==> IsBackend(w'.cloud, t))
      && (w'.cloud == w.cloud || (ServiceOf(t) in w.cloud.services && w'.cloud == WithBackend(w.cloud, t)))
      && (w.faults == [] ==> w'.faults == [] && (outcome == Success <==> ServiceOf(t) in w.cloud.services))
  {
  }

  lemma EnsureBackendTheorem(w: World, t: Target)
    ensures var (w', outcome) := EnsureBackend(w, t);
      && (outcome == Success || outcome == OtherError)
      && (outcome == Success ==> IsBackend(w'.cloud, t))
      && (w'.cloud == w.cloud ||
          (ServiceOf(t) in w.cloud.services && !IsBackend(w.cloud, t) && w'.cloud == WithBackend(w.cloud, t)))
      && (w.faults == [] ==> w'.faults == [] && (outcome == Success <==> ServiceOf(t) in w.cloud.services))
  {
    AppendBackendTheorem(Issue(w, t, ServiceGet(ServiceOf(t))).0, t);
  }

  /** The calls in order: one look at the list, and if the link is missing a second fetch and the update. */
  lemma EnsureBackendCalls(w: World, t: Target)
    requires w.faults == [] && ServiceOf(t) in w.cloud.services
    ensures var before, after := |w.trace|, EnsureBackend(w, t).0.trace;
      && |after| == before + (if IsBackend(w.cloud, t) then 1 else 3)
      && after[before].call == ServiceGet(ServiceOf(t))
      && (!IsBackend(w.cloud, t) ==>
          after[before + 1].call == ServiceGet(ServiceOf(t)) && after[before + 2].call.ServiceUpdate?)
  {
  }

  lemma EnsureBackendKeepsGood(w: World, t: Target)
    requires Good(w) && t.role == MASTER
    ensures Good(EnsureBackend(w, t).0)
  {
    var read := ServiceGet(ServiceOf(t));
    var (w1, got) := Issue(w, t, read);
    IssueKeepsGood(w, t, read);
    if !got.Failed? && GroupLink(t) !in got.body.backends {
      var (w2, again) := Issue(w1, t, read);
      IssueKeepsGood(w1, t, read);
      if !again.Failed? {
        var write := ServiceUpdate(ServiceOf(t), again.body.(backends := again.body.backends + [GroupLink(t)]));
        assert Justified(Event(t, write, w2.cloud));
        IssueKeepsGood(w2, t, write);
      }
    }
  }

  lemma MakeGroupTheorem(w: World, t: Target)
    ensures var (w', outcome) := MakeGroup(w, t);
      && (outcome == Success ==> GroupOf(t) in w'.cloud.groups)
      && (w'.cloud == w.cloud ||
          (GroupOf(t) !in w.cloud.groups && w'.cloud == w.cloud.(groups := w.cloud.groups[GroupOf(t) := {}])))
      && (w.faults == [] ==> w'.faults == [])
      && (w.faults == [] ==> (outcome == Success <==> GroupOf(t) in w.cloud.groups || t.spec.networkInterfaces != []))
      && (w.faults == [] && outcome != Success ==> outcome == Panic)
  {
  }

  lemma MakeGroupKeepsGood(w: World, t: Target)
    requires Good(w) && t.role == MASTER
    ensures Good(MakeGroup(w, t).0)
  {
    var (w1, got) := Issue(w, t, GroupGet(GroupOf(t)));
    IssueKeepsGood(w, t, GroupGet(GroupOf(t)));
    if got.Failed? && IsNotFound(got.error) && t.spec.networkInterfaces != [] {
      var insert := GroupInsert(GroupOf(t), GroupNetwork(t));
      assert Justified(Event(t, insert, w1.cloud));
      IssueKeepsGood(w1, t, insert);
    }
  }

  lemma EnsureGroupTheorem(w: World, t: Target)
    ensures var (w', outcome) := EnsureGroup(w, t);
      && (outcome == Success ==> GroupOf(t) in w'.cloud.groups && IsBackend(w'.cloud, t))
      && w'.cloud == w.cloud.(groups := w'.cloud.groups, services := w'.cloud.services)
      && (w'.cloud.groups == w.cloud.groups ||
          (GroupOf(t) !in w.cloud.groups && w'.cloud.groups == w.cloud.groups[GroupOf(t) := {}]))
      && (w.faults == [] ==> w'.faults == [] && (outcome == Success <==> EnsurePossible(w.cloud, t)))
  {
    MakeGroupTheorem(w, t);
    EnsureBackendTheorem(MakeGroup(w, t).0, t);
  }

  lemma EnsureGroupKeepsGood(w: World, t: Target)
    requires Good(w) && t.role == MASTER
    ensures Good(EnsureGroup(w, t).0)
  {
    MakeGroupKeepsGood(w, t);
    EnsureBackendKeepsGood(MakeGroup(w, t).0, t);
  }

  /** What ensureInstanceGroup needs when no call fails: the service, and an interface when the group is to be made. */
  ghost predicate EnsurePossible(c: Cloud, t: Target) {
    ServiceOf(t) in c.services && (GroupOf(t) in c.groups || t.spec.networkInterfaces != [])
  }

  /**
   Under any honest faults, the unguarded access to the first interface is reached only when the group is
   missing and there is none; without faults, exactly then.
   */
  lemma PanicCondition(w: World, t: Target)
    requires Honest(w.faults)
    ensures EnsureGroup(w, t).1 == Panic ==> GroupOf(t) !in w.cloud.groups && t.spec.networkInterfaces == []
    ensures w.faults == [] ==>
      (EnsureGroup(w, t).1 == Panic <==> GroupOf(t) !in w.cloud.groups && t.spec.networkInterfaces == [])
  {
    MakeGroupTheorem(w, t);
    EnsureBackendTheorem(MakeGroup(w, t).0, t);
  }

  lemma JoinGroupTheorem(w: World, t: Target, state: Option<string>)
    ensures var (w', outcome) := JoinGroup(w, t, state);
      && (outcome == Success || outcome == OtherError)
      && w'.cloud == w.cloud.(groups := w'.cloud.groups)
      && (w'.cloud == w.cloud ||
          (GroupOf(t) in w.cloud.groups &&
           w'.cloud.groups == w.cloud.groups[GroupOf(t) := w.cloud.groups[GroupOf(t)] + {Link(t)}]))
      && (state != Some(RUNNING) ==> w'.cloud == w.cloud)
      && (outcome == Success ==> GroupOf(t) in w'.cloud.groups)
      && (outcome == Success && state == Some(RUNNING) ==> Link(t) in w'.cloud.groups[GroupOf(t)])
      && (w.faults == [] ==> w'.faults == [] && (outcome == Success <==> GroupOf(t) in w.cloud.groups))
  {
  }

  lemma RegisterTheorem(w: World, t: Target, state: Option<string>)
    ensures var (w', outcome) := Register(w, t, state);
      && (outcome == Success ==>
            && GroupOf(t) in w'.cloud.groups && IsBackend(w'.cloud, t)
            && (state == Some(RUNNING) ==> Link(t) in w'.cloud.groups[GroupOf(t)]))
      && w'.cloud == w.cloud.(groups := w'.cloud.groups, services := w'.cloud.services)
      && (w.faults == [] ==> w'.faults == [] && (outcome == Success <==> EnsurePossible(w.cloud, t)))
  {
    EnsureGroupTheorem(w, t);
    JoinGroupTheorem(EnsureGroup(w, t).0, t, state);
  }

  lemma RegisterKeepsGood(w: World, t: Target, state: Option<string>)
    requires Good(w) && t.role == MASTER
    ensures Good(Register(w, t, state).0)
  {
    EnsureGroupTheorem(w, t);
    EnsureGroupKeepsGood(w, t);
    var (w1, ensured) := EnsureGroup(w, t);
    if ensured == Success {
      var list, add := GroupList(GroupOf(t)), GroupAdd(GroupOf(t), Link(t));
      var (w2, got) := Issue(w1, t, list);
      IssueKeepsGood(w1, t, list);
      if !got.Failed? && Link(t) !in got.running {
        assert Justified(Event(t, add, w2.cloud));
        IssueKeepsGood(w2, t, add);
      }
    }
  }

  lemma UnregisterTheorem(w: World, t: Target)
    ensures var (w', outcome) := Unregister(w, t);
      && (outcome == Success || outcome == OtherError)
      && (outcome == Success ==> !AmongRunning(w'.cloud, t))
      && (outcome == Success ==>
            && GroupOf(t) in w.cloud.groups && GroupOf(t) in w'.cloud.groups
            && (Link(t) in w'.cloud.groups[GroupOf(t)] <==>
                  Link(t) in w.cloud.groups[GroupOf(t)] && Link(t) !in RunningLinks(w.cloud)))
      && w'.cloud == w.cloud.(groups := w'.cloud.groups)
      && (w'.cloud == w.cloud ||
          (GroupOf(t) in w.cloud.groups &&
           w'.cloud.groups == w.cloud.groups[GroupOf(t) := w.cloud.groups[GroupOf(t)] - {Link(t)}]))
      && (w.faults == [] ==> w'.faults == [] && (outcome == Success <==> GroupOf(t) in w.cloud.groups))
  {
  }

  lemma UnregisterKeepsGood(w: World, t: Target)
    requires Good(w) && t.role == MASTER
    ensures Good(Unregister(w, t).0)
  {
    var list := GroupList(GroupOf(t));
    var (w1, got) := Issue(w, t, list);
    IssueKeepsGood(w, t, list);
    if !got.Failed? && Link(t) in got.running {
      IssueKeepsGood(w1, t, GroupRemove(GroupOf(t), Link(t)));
    }
  }
}
