/**
 Several reconcilers registering their zones' groups with one backend service at once. Each
 runs the calls of ensureInstanceGroup: check the list, fetch the service again, send it back
 with one more backend; an update made from a stale copy is refused. The calls of different
 reconcilers interleave freely, any call may fail, and other parties may rewrite the list.
 */
module BackendRace {
  import opened Common
  import opened Machines
  import opened CloudModel
  import opened Actuation
  import Names

  /** One cluster; each reconciler works for a master in some zone. */
  datatype Config = Config(project: string, cluster: string, zones: map<nat, string>)

  function LinkOf(cfg: Config, p: nat): string
    requires p in cfg.zones
  {
    Names.GroupLink(cfg.project, cfg.zones[p], cfg.cluster)
  }

  ghost predicate DistinctZones(cfg: Config) {
    forall p, q :: p in cfg.zones && q in cfg.zones && p != q ==> cfg.zones[p] != cfg.zones[q]
  }

  datatype Pc = Start | MustAppend | Fetched(copy: BackendService) | Finished

  datatype State = State(service: BackendService, pcs: map<nat, Pc>)

  datatype WriteFault = WriteClean | WriteLost | WriteUnanswered

  datatype Action =
    | Check(p: nat)
    | Fetch(p: nat)
    | Write(p: nat, fault: WriteFault)
    | GiveUp(p: nat)                    // a failed read, a crash, or the next reconcile
    | Rewrite(backends: seq<string>)    // another party

  ghost predicate Enabled(cfg: Config, s: State, a: Action) {
    match a
    case Check(p) => p in s.pcs && s.pcs[p].Start?
    case Fetch(p) => p in s.pcs && s.pcs[p].MustAppend?
    case Write(p, _) => p in s.pcs && s.pcs[p].Fetched?
    case GiveUp(p) => p in s.pcs
    case Rewrite(backends) =>
      forall p :: p in cfg.zones ==>
        Multiplicity(backends, LinkOf(cfg, p)) == Multiplicity(s.service.backends, LinkOf(cfg, p))
  }

  ghost predicate WellFormed(cfg: Config, s: State) {
    s.pcs.Keys == cfg.zones.Keys
  }

  function Appended(service: BackendService, link: string): BackendService {
    BackendService(service.backends + [link], service.version + 1)
  }

  ghost function Next(cfg: Config, s: State, a: Action): State
    requires WellFormed(cfg, s) && Enabled(cfg, s, a)
  {
    match a
    case Check(p) => s.(pcs := s.pcs[p := if LinkOf(cfg, p) in s.service.backends then Finished else MustAppend])
    case Fetch(p) => s.(pcs := s.pcs[p := Fetched(s.service)])
    case Write(p, fault) =>
      var copy := s.pcs[p].copy;
      if fault == WriteLost || copy.version != s.service.version then s.(pcs := s.pcs[p := Start])
      else State(Appended(copy, LinkOf(cfg, p)), s.pcs[p := if fault == WriteClean then Finished else Start])
    case GiveUp(p) => s.(pcs := s.pcs[p := Start])
    case Rewrite(backends) => s.(service := BackendService(backends, s.service.version + 1))
  }

  /** A copy that is still current is the service itself. */
  ghost predicate CopyHonest(s: State, p: nat)
    requires p in s.pcs
  {
    s.pcs[p].Fetched? ==>
      && s.pcs[p].copy.version <= s.service.version
      && (s.pcs[p].copy.version == s.service.version ==> s.pcs[p].copy == s.service)
  }

  ghost predicate ListedRight(cfg: Config, s: State, p: nat)
    requires p in s.pcs && p in cfg.zones
  {
    var n := Multiplicity(s.service.backends, LinkOf(cfg, p));
    match s.pcs[p]
    case Start => n <= 1
    case MustAppend => n == 0
    case Fetched(_) => n == 0
    case Finished => n == 1
  }

  ghost predicate Invariant(cfg: Config, s: State) {
    WellFormed(cfg, s) && forall p :: p in s.pcs ==> CopyHonest(s, p) && ListedRight(cfg, s, p)
  }

  lemma NextListsOthersRight(cfg: Config, s: State, a: Action, q: nat)
    requires DistinctZones(cfg) && Invariant(cfg, s) && Enabled(cfg, s, a) && q in s.pcs
    ensures CopyHonest(Next(cfg, s, a), q) && ListedRight(cfg, Next(cfg, s, a), q)
    ensures Multiplicity(s.service.backends, LinkOf(cfg, q)) <=
            Multiplicity(Next(cfg, s, a).service.backends, LinkOf(cfg, q))
  {
    if a.Write? && Next(cfg, s, a).service != s.service {
      var own, link := LinkOf(cfg, a.p), LinkOf(cfg, q);
      MultiplicityConcat(s.service.backends, [own], link);
      if q != a.p && own == link {
        Names.GroupLinkInjective(cfg.project, cfg.cluster, cfg.zones[a.p], cfg.zones[q]);
      }
      assert Multiplicity([own], link) == if own == link then 1 else 0;
    }
  }

  lemma NextKeepsInvariant(cfg: Config, s: State, a: Action)
    requires DistinctZones(cfg) && Invariant(cfg, s) && Enabled(cfg, s, a)
    ensures Invariant(cfg, Next(cfg, s, a))
  {
    forall q | q in s.pcs
      ensures CopyHonest(Next(cfg, s, a), q) && ListedRight(cfg, Next(cfg, s, a), q)
    {
      NextListsOthersRight(cfg, s, a, q);
    }
  }

  ghost predicate Follows(cfg: Config, s: State, a: Action, s': State) {
    WellFormed(cfg, s) && Enabled(cfg, s, a) && s' == Next(cfg, s, a)
  }

  ghost predicate IsRace(cfg: Config, states: seq<State>, actions: seq<Action>) {
    && |states| == |actions| + 1
    && WellFormed(cfg, states[0])
    && forall i :: 0 <= i < |actions| ==> Follows(cfg, states[i], actions[i], states[i + 1])
  }

  /** At the beginning every reconciler is about to check, and no group is listed twice. */
  ghost predicate Initial(cfg: Config, s: State) {
    && WellFormed(cfg, s)
    && forall p :: p in s.pcs ==> s.pcs[p].Start? && Multiplicity(s.service.backends, LinkOf(cfg, p)) <= 1
  }

  /** How often the group of reconciler p is listed. */
  ghost function Listings(cfg: Config, s: State, p: nat): nat
    requires p in cfg.zones
  {
    Multiplicity(s.service.backends, LinkOf(cfg, p))
  }

  lemma {:induction false} InvariantHolds(cfg: Config, states: seq<State>, actions: seq<Action>, n: nat)
    requires DistinctZones(cfg) && IsRace(cfg, states, actions) && Initial(cfg, states[0]) && n < |states|
    ensures Invariant(cfg, states[n])
  {
    if n == 0 {
    } else {
      InvariantHolds(cfg, states, actions, n - 1);
      StepKeepsInvariant(cfg, states[n - 1], actions[n - 1], states[n]);
    }
  }

  lemma StepKeepsInvariant(cfg: Config, s: State, a: Action, s': State)
    requires DistinctZones(cfg) && Invariant(cfg, s) && Follows(cfg, s, a, s')
    ensures Invariant(cfg, s')
  {
    NextKeepsInvariant(cfg, s, a);
  }

  lemma StepKeepsListings(cfg: Config, s: State, a: Action, s': State, p: nat)
    requires DistinctZones(cfg) && Invariant(cfg, s) && Follows(cfg, s, a, s') && p in cfg.zones
    ensures Listings(cfg, s, p) <= Listings(cfg, s', p)
  {
    NextListsOthersRight(cfg, s, a, p);
  }

  lemma RaceKeepsListings(cfg: Config, states: seq<State>, actions: seq<Action>, n: nat, p: nat)
    requires DistinctZones(cfg) && IsRace(cfg, states, actions) && Initial(cfg, states[0]) && n < |actions|
    requires p in cfg.zones
    ensures Listings(cfg, states[n], p) <= Listings(cfg, states[n + 1], p)
  {
    InvariantHolds(cfg, states, actions, n);
    assert Follows(cfg, states[n], actions[n], states[n + 1]);
    StepKeepsListings(cfg, states[n], actions[n], states[n + 1], p);
  }

  lemma {:induction false} StepwiseGrowth(counts: seq<nat>, m: nat, n: nat)
    requires m <= n < |counts| && forall k :: m <= k < n ==> counts[k] <= counts[k + 1]
    ensures counts[m] <= counts[n]
  {
    if m == n {
    } else {
      StepwiseGrowth(counts, m, n - 1);
    }
  }

  lemma ListedStaysListed(cfg: Config, states: seq<State>, actions: seq<Action>, m: nat, n: nat, p: nat)
    requires DistinctZones(cfg) && IsRace(cfg, states, actions) && Initial(cfg, states[0]) && m <= n < |states|
    requires p in cfg.zones
    ensures Listings(cfg, states[m], p) <= Listings(cfg, states[n], p)
  {
    var counts: seq<nat> := seq(|states|, k requires 0 <= k < |states| => Listings(cfg, states[k], p));
    forall k | m <= k < n
      ensures counts[k] <= counts[k + 1]
    {
      RaceKeepsListings(cfg, states, actions, k, p);
    }
    StepwiseGrowth(counts, m, n);
  }

  /**
   In every interleaving of reconcilers in distinct zones: no group is listed twice, a finished
   reconciler's group is listed exactly once, and a group once listed stays listed.
   */
  lemma RegistrationsSurvive(cfg: Config, states: seq<State>, actions: seq<Action>, m: nat, n: nat, p: nat)
    requires DistinctZones(cfg) && IsRace(cfg, states, actions) && Initial(cfg, states[0]) && m <= n < |states|
    requires p in cfg.zones
    ensures Listings(cfg, states[m], p) <= Listings(cfg, states[n], p) <= 1
    ensures p in states[n].pcs && (states[n].pcs[p].Finished? ==> Listings(cfg, states[n], p) == 1)
  {
    ListedStaysListed(cfg, states, actions, m, n, p);
    InvariantHolds(cfg, states, actions, n);
    assert ListedRight(cfg, states[n], p);
  }

  // ----- what stale updates being refused gives, whatever the zones -----

  ghost predicate AllHonest(s: State) {
    forall p :: p in s.pcs ==> CopyHonest(s, p)
  }

  ghost predicate AllAtStart(s: State) {
    forall p :: p in s.pcs ==> s.pcs[p].Start?
  }

  lemma {:induction false} CopiesStayHonest(cfg: Config, states: seq<State>, actions: seq<Action>, n: nat)
    requires IsRace(cfg, states, actions) && AllAtStart(states[0]) && n < |states|
    ensures AllHonest(states[n])
  {
    if n == 0 {
    } else {
      CopiesStayHonest(cfg, states, actions, n - 1);
      StepKeepsHonest(cfg, states[n - 1], actions[n - 1], states[n]);
    }
  }

  lemma StepKeepsHonest(cfg: Config, s: State, a: Action, s': State)
    requires AllHonest(s) && Follows(cfg, s, a, s')
    ensures AllHonest(s')
  {
  }

  /** The list is longer by some of the reconcilers' own links at its end, and otherwise as it was. */
  ghost predicate Extends(cfg: Config, before: seq<string>, after: seq<string>) {
    && before <= after
    && forall i :: |before| <= i < |after| ==> exists p :: p in cfg.zones && after[i] == LinkOf(cfg, p)
  }

  lemma StepExtends(cfg: Config, s: State, a: Action)
    requires WellFormed(cfg, s) && Enabled(cfg, s, a) && AllHonest(s) && !a.Rewrite?
    ensures Extends(cfg, s.service.backends, Next(cfg, s, a).service.backends)
  {
    if a.Write? {
      assert CopyHonest(s, a.p);
      assert a.p in cfg.zones;
    }
  }

  /**
   In every interleaving, shared zones included, no reconciler drops or moves a backend: between any
   two moments without a foreign rewrite the list only grows at its end, by reconcilers' own links.
   */
  lemma {:induction false} BackendsKeepTheirOrder(cfg: Config, states: seq<State>, actions: seq<Action>, m: nat, n: nat)
    requires IsRace(cfg, states, actions) && AllAtStart(states[0]) && m <= n < |states|
    requires forall k :: m <= k < n ==> !actions[k].Rewrite?
    ensures Extends(cfg, states[m].service.backends, states[n].service.backends)
  {
    if m == n {
    } else {
      BackendsKeepTheirOrder(cfg, states, actions, m, n - 1);
      CopiesStayHonest(cfg, states, actions, n - 1);
      assert Follows(cfg, states[n - 1], actions[n - 1], states[n]);
      StepExtends(cfg, states[n - 1], actions[n - 1]);
    }
  }

  /** The copy a reconciler holds is the service at its last fetch, and it did nothing since. */
  lemma {:induction false} CopyWasFetched(cfg: Config, states: seq<State>, actions: seq<Action>, n: nat, p: nat)
    returns (i: nat)
    requires IsRace(cfg, states, actions) && AllAtStart(states[0]) && n < |states|
    requires p in states[n].pcs && states[n].pcs[p].Fetched?
    ensures i < n && actions[i] == Fetch(p) && states[i].service == states[n].pcs[p].copy
    ensures forall k :: i < k < n ==> !(actions[k].Write? && actions[k].p == p)
  {
    assert n > 0;
    RaceCopyStep(cfg, states, actions, n - 1, p);
    if actions[n - 1] == Fetch(p) {
      i := n - 1;
    } else {
      i := CopyWasFetched(cfg, states, actions, n - 1, p);
    }
  }

  lemma RaceCopyStep(cfg: Config, states: seq<State>, actions: seq<Action>, n: nat, p: nat)
    requires IsRace(cfg, states, actions) && n < |actions| && p in states[n + 1].pcs && states[n + 1].pcs[p].Fetched?
    ensures p in states[n].pcs && !(actions[n].Write? && actions[n].p == p)
    ensures if actions[n] == Fetch(p) then states[n + 1].pcs[p].copy == states[n].service
            else states[n + 1].pcs[p] == states[n].pcs[p]
  {
    CopyStep(cfg, states[n], actions[n], states[n + 1], p);
  }

  lemma CopyStep(cfg: Config, s: State, a: Action, s': State, p: nat)
    requires Follows(cfg, s, a, s') && p in s'.pcs && s'.pcs[p].Fetched?
    ensures p in s.pcs && !(a.Write? && a.p == p)
    ensures if a == Fetch(p) then s'.pcs[p].copy == s.service else s'.pcs[p] == s.pcs[p]
  {
  }

  /** A service that is not what it was has been written in between. */
  lemma {:induction false} ChangeHasAnAuthor(cfg: Config, states: seq<State>, actions: seq<Action>, m: nat, n: nat)
    returns (k: nat)
    requires IsRace(cfg, states, actions) && m <= n < |states| && states[m].service != states[n].service
    ensures m <= k < n && states[k + 1].service != states[k].service
    ensures actions[k].Write? || actions[k].Rewrite?
  {
    assert m < n;
    assert Follows(cfg, states[n - 1], actions[n - 1], states[n]);
    if states[n].service != states[n - 1].service {
      k := n - 1;
    } else {
      k := ChangeHasAnAuthor(cfg, states, actions, m, n - 1);
    }
  }

  /**
   A write is refused as stale only because somebody else's got through since the fetch: between the
   two, another reconciler's write took effect or another party rewrote the list.
   */
  lemma RefusalMeansProgress(cfg: Config, states: seq<State>, actions: seq<Action>, n: nat, p: nat)
    returns (i: nat, k: nat)
    requires IsRace(cfg, states, actions) && AllAtStart(states[0]) && n < |actions|
    requires actions[n].Write? && actions[n].p == p && p in states[n].pcs && states[n].pcs[p].Fetched?
    requires states[n].pcs[p].copy.version != states[n].service.version
    ensures i < k < n && actions[i] == Fetch(p) && states[k + 1].service != states[k].service
    ensures actions[k].Rewrite? || (actions[k].Write? && actions[k].p != p)
  {
    i := CopyWasFetched(cfg, states, actions, n, p);
    k := ChangeHasAnAuthor(cfg, states, actions, i, n);
    assert Follows(cfg, states[i], actions[i], states[i + 1]);
  }

  /** The same three calls made by the sequential operation have the same effect. */
  lemma SoloIsEnsureBackend(cfg: Config, s: State, p: nat, w: World, t: Target)
    requires WellFormed(cfg, s) && p in s.pcs && s.pcs[p].Start?
    requires w.faults == [] && ServiceOf(t) in w.cloud.services && w.cloud.services[ServiceOf(t)] == s.service
    requires t.project == cfg.project && t.cluster == cfg.cluster && t.spec.zone == cfg.zones[p]
    ensures var s1 := Next(cfg, s, Check(p));
      EnsureBackend(w, t).1 == Success &&
      EnsureBackend(w, t).0.cloud.services[ServiceOf(t)] ==
        if s1.pcs[p].Finished? then s1.service
        else Next(cfg, Next(cfg, s1, Fetch(p)), Write(p, WriteClean)).service
  {
    assert GroupLink(t) == LinkOf(cfg, p);
    var (w1, _) := Issue(w, t, ServiceGet(ServiceOf(t)));
    assert w1.cloud == w.cloud;
  }

  // ----- every race ends -----

  ghost function Sum(ps: set<nat>, f: map<nat, nat>): nat
    requires ps <= f.Keys
  {
    if ps == {} then 0
    else
      var p :| p in ps;
      f[p] + Sum(ps - {p}, f)
  }

  lemma {:induction false} SumSplit(ps: set<nat>, f: map<nat, nat>, p: nat)
    requires ps <= f.Keys && p in ps
    ensures Sum(ps, f) == f[p] + Sum(ps - {p}, f)
  {
    var q :| q in ps && Sum(ps, f) == f[q] + Sum(ps - {q}, f);
    if q == p {
    } else {
      SumSplit(ps - {q}, f, p);
      SumSplit(ps - {p}, f, q);
      assert ps - {q} - {p} == ps - {p} - {q};
    }
  }

  lemma OneMore(k: nat, size: nat)
    ensures k * (size + 1) == k * size + k
  {
  }

  lemma {:induction false} SumBound(ps: set<nat>, f: map<nat, nat>, g: map<nat, nat>, k: nat)
    requires ps <= f.Keys && ps <= g.Keys && forall p :: p in ps ==> g[p] <= f[p] + k
    ensures Sum(ps, g) <= Sum(ps, f) + k * |ps|
  {
    if ps == {} {
    } else {
      var p :| p in ps;
      var rest := ps - {p};
      SumSplit(ps, f, p);
      SumSplit(ps, g, p);
      SumBound(rest, f, g, k);
      OneMore(k, |rest|);
      assert |ps| == |rest| + 1;
    }
  }

  /** A sum drops when one term loses more than all the others can gain. */
  lemma SumDrops(ps: set<nat>, f: map<nat, nat>, g: map<nat, nat>, p: nat, k: nat)
    requires ps <= f.Keys && ps <= g.Keys && p in ps
    requires forall q :: q in ps && q != p ==> g[q] <= f[q] + k
    requires g[p] + k * |ps| < f[p] + k
    ensures Sum(ps, g) < Sum(ps, f)
  {
    var rest := ps - {p};
    SumSplit(ps, f, p);
    SumSplit(ps, g, p);
    SumBound(rest, f, g, k);
    OneMore(k, |rest|);
    assert |ps| == |rest| + 1;
  }

  lemma {:induction false} SumAtMost(ps: set<nat>, f: map<nat, nat>, k: nat)
    requires ps <= f.Keys && forall p :: p in ps ==> f[p] <= k
    ensures Sum(ps, f) <= k * |ps|
  {
    if ps == {} {
    } else {
      var p :| p in ps;
      var rest := ps - {p};
      SumSplit(ps, f, p);
      SumAtMost(rest, f, k);
      OneMore(k, |rest|);
      assert |ps| == |rest| + 1;
    }
  }

  /** An action of a reconciler whose call does not fail; a stale update is refused all the same. */
  predicate IsClean(a: Action) {
    a.Check? || a.Fetch? || (a.Write? && a.fault == WriteClean)
  }

  /** What a reconciler may still cost: its own calls, and three for each other one its write can make stale. */
  ghost function Cost(cfg: Config, s: State, p: nat): nat
    requires p in cfg.zones && p in s.pcs
  {
    (match s.pcs[p]
     case Start => 3
     case MustAppend => 2
     case Fetched(copy) => if copy.version == s.service.version then 1 else 4
     case Finished => 0)
    + if Listings(cfg, s, p) == 0 then 3 * |cfg.zones.Keys| else 0
  }

  ghost function Costs(cfg: Config, s: State): map<nat, nat>
    requires WellFormed(cfg, s)
  {
    map p | p in cfg.zones :: Cost(cfg, s, p)
  }

  ghost function Total(cfg: Config, s: State): nat
    requires WellFormed(cfg, s)
  {
    Sum(cfg.zones.Keys, Costs(cfg, s))
  }

  /** An action that leaves the service alone lowers the cost of its own reconciler and of no other. */
  lemma QuietActionLowers(cfg: Config, s: State, a: Action, s': State)
    requires DistinctZones(cfg) && Invariant(cfg, s) && Follows(cfg, s, a, s') && IsClean(a) && s'.service == s.service
    ensures Cost(cfg, s', a.p) < Cost(cfg, s, a.p)
    ensures forall q :: q in cfg.zones && q != a.p ==> Cost(cfg, s', q) == Cost(cfg, s, q)
  {
    assert ListedRight(cfg, s, a.p);
  }

  /** An update that goes through spends the whole cost of its reconciler, and makes other copies stale. */
  lemma UpdateLowers(cfg: Config, s: State, a: Action, s': State)
    requires DistinctZones(cfg) && Invariant(cfg, s) && Follows(cfg, s, a, s') && IsClean(a) && s'.service != s.service
    ensures Cost(cfg, s', a.p) == 0 && Cost(cfg, s, a.p) == 3 * |cfg.zones.Keys| + 1
    ensures forall q :: q in cfg.zones && q != a.p ==> Cost(cfg, s', q) <= Cost(cfg, s, q) + 3
  {
    NextKeepsInvariant(cfg, s, a);
    assert ListedRight(cfg, s, a.p) && ListedRight(cfg, s', a.p) && CopyHonest(s, a.p);
    forall q | q in cfg.zones && q != a.p
      ensures Cost(cfg, s', q) <= Cost(cfg, s, q) + 3
    {
      StepKeepsListings(cfg, s, a, s', q);
      assert s'.pcs[q] == s.pcs[q];
    }
  }

  lemma CleanActionLowersTotal(cfg: Config, s: State, a: Action, s': State)
    requires DistinctZones(cfg) && Invariant(cfg, s) && Follows(cfg, s, a, s') && IsClean(a) && WellFormed(cfg, s')
    ensures Total(cfg, s') < Total(cfg, s)
  {
    if s'.service == s.service {
      QuietActionLowers(cfg, s, a, s');
      SumDrops(cfg.zones.Keys, Costs(cfg, s), Costs(cfg, s'), a.p, 0);
    } else {
      UpdateLowers(cfg, s, a, s');
      SumDrops(cfg.zones.Keys, Costs(cfg, s), Costs(cfg, s'), a.p, 3);
    }
  }

  lemma {:induction false} TotalPaysForActions(cfg: Config, states: seq<State>, actions: seq<Action>, m: nat, n: nat)
    requires DistinctZones(cfg) && IsRace(cfg, states, actions) && Initial(cfg, states[0]) && m <= n < |states|
    requires forall k :: m <= k < n ==> IsClean(actions[k])
    requires WellFormed(cfg, states[m]) && WellFormed(cfg, states[n])
    ensures Total(cfg, states[n]) + (n - m) <= Total(cfg, states[m])
  {
    if m == n {
    } else {
      InvariantHolds(cfg, states, actions, n - 1);
      TotalPaysForActions(cfg, states, actions, m, n - 1);
      assert Follows(cfg, states[n - 1], actions[n - 1], states[n]);
      CleanActionLowersTotal(cfg, states[n - 1], actions[n - 1], states[n]);
    }
  }

  /** No reconciler has a call left to make. */
  ghost predicate AllDone(cfg: Config, s: State) {
    forall a :: IsClean(a) ==> !Enabled(cfg, s, a)
  }

  lemma DoneIsListed(cfg: Config, s: State, p: nat)
    requires Invariant(cfg, s) && AllDone(cfg, s) && p in cfg.zones
    ensures Listings(cfg, s, p) == 1
  {
    assert !Enabled(cfg, s, Check(p)) && !Enabled(cfg, s, Fetch(p)) && !Enabled(cfg, s, Write(p, WriteClean));
    assert s.pcs[p].Finished? && ListedRight(cfg, s, p);
  }

  /**
   Every group ends up listed exactly once: however a race of n reconcilers in distinct zones has gone so
   far, with whatever failed calls, crashes and foreign rewrites, at most (3n + 4)n calls that do not fail
   can follow, whoever makes them; and when none is left to make, each group is listed once.
   */
  lemma EveryRaceEnds(cfg: Config, states: seq<State>, actions: seq<Action>, m: nat)
    requires DistinctZones(cfg) && IsRace(cfg, states, actions) && Initial(cfg, states[0]) && m <= |actions|
    requires forall k :: m <= k < |actions| ==> IsClean(actions[k])
    ensures var n := |cfg.zones.Keys|;
      |actions| - m <= (3 * n + 4) * n && (m == 0 ==> |actions| <= (3 * n + 3) * n)
    ensures AllDone(cfg, states[|actions|]) ==> forall p :: p in cfg.zones ==> Listings(cfg, states[|actions|], p) == 1
  {
    InvariantHolds(cfg, states, actions, m);
    InvariantHolds(cfg, states, actions, |actions|);
    TotalPaysForActions(cfg, states, actions, m, |actions|);
    TotalIsBounded(cfg, states[m]);
    forall p | AllDone(cfg, states[|actions|]) && p in cfg.zones
      ensures Listings(cfg, states[|actions|], p) == 1
    {
      DoneIsListed(cfg, states[|actions|], p);
    }
  }

  lemma TotalIsBounded(cfg: Config, s: State)
    requires WellFormed(cfg, s)
    ensures var n := |cfg.zones.Keys|;
      && Total(cfg, s) <= (3 * n + 4) * n
      && (AllAtStart(s) ==> Total(cfg, s) <= (3 * n + 3) * n)
  {
    var n, costs := |cfg.zones.Keys|, Costs(cfg, s);
    assert forall p :: p in cfg.zones ==> costs[p] <= 3 * n + 4;
    SumAtMost(cfg.zones.Keys, costs, 3 * n + 4);
    if AllAtStart(s) {
      assert forall p :: p in cfg.zones ==> costs[p] <= 3 * n + 3;
      SumAtMost(cfg.zones.Keys, costs, 3 * n + 3);
    }
  }

  // ----- why the zones must be distinct -----

  ghost predicate Reaches(cfg: Config, s: State) {
    exists states, actions :: IsRace(cfg, states, actions) && Initial(cfg, states[0]) && states[|actions|] == s
  }

  lemma RaceGoesOn(cfg: Config, states: seq<State>, actions: seq<Action>, a: Action, s': State)
    requires IsRace(cfg, states, actions) && Follows(cfg, states[|actions|], a, s')
    ensures IsRace(cfg, states + [s'], actions + [a])
  {
    var states', actions' := states + [s'], actions + [a];
    forall i | 0 <= i < |actions'|
      ensures Follows(cfg, states'[i], actions'[i], states'[i + 1])
    {
      if i < |actions| {
        assert Follows(cfg, states[i], actions[i], states[i + 1]);
      }
    }
  }

  lemma ReachesNext(cfg: Config, s: State, a: Action)
    requires Reaches(cfg, s) && WellFormed(cfg, s) && Enabled(cfg, s, a)
    ensures Reaches(cfg, Next(cfg, s, a))
  {
    var states, actions :| IsRace(cfg, states, actions) && Initial(cfg, states[0]) && states[|actions|] == s;
    var s' := Next(cfg, s, a);
    RaceGoesOn(cfg, states, actions, a, s');
    assert (states + [s'])[0] == states[0] && (states + [s'])[|actions + [a]|] == s';
  }

  ghost predicate NeverTwice(cfg: Config) {
    forall s, p :: Reaches(cfg, s) && p in cfg.zones ==> Multiplicity(s.service.backends, LinkOf(cfg, p)) <= 1
  }

  lemma BothFindItMissing(cfg: Config, p: nat, q: nat) returns (s: State)
    requires p in cfg.zones && q in cfg.zones && p != q
    ensures Reaches(cfg, s) && WellFormed(cfg, s) && s.service == BackendService([], 0)
    ensures s.pcs[p].MustAppend? && s.pcs[q].MustAppend?
  {
    s := State(BackendService([], 0), map r | r in cfg.zones :: Start);
    assert IsRace(cfg, [s], []) && Initial(cfg, [s][0]);
    ReachesNext(cfg, s, Check(p));
    s := Next(cfg, s, Check(p));
    ReachesNext(cfg, s, Check(q));
    s := Next(cfg, s, Check(q));
  }

  lemma FetchesAndAppends(cfg: Config, s: State, p: nat) returns (s': State)
    requires Reaches(cfg, s) && WellFormed(cfg, s) && p in s.pcs && s.pcs[p].MustAppend?
    ensures Reaches(cfg, s') && WellFormed(cfg, s') && s'.service == Appended(s.service, LinkOf(cfg, p))
    ensures forall q :: q in s.pcs && q != p ==> s'.pcs[q] == s.pcs[q]
  {
    ReachesNext(cfg, s, Fetch(p));
    var s1 := Next(cfg, s, Fetch(p));
    ReachesNext(cfg, s1, Write(p, WriteClean));
    s' := Next(cfg, s1, Write(p, WriteClean));
  }

  /**
   Two reconcilers of one zone can both find the group missing, and both append it: the second fetches a fresh copy
   but does not look again.
   */
  lemma SharedZoneDuplicates(cfg: Config, p: nat, q: nat)
    requires p in cfg.zones && q in cfg.zones && p != q && cfg.zones[p] == cfg.zones[q]
    ensures !NeverTwice(cfg)
  {
    var link := LinkOf(cfg, p);
    var s := BothFindItMissing(cfg, p, q);
    s := FetchesAndAppends(cfg, s, p);
    s := FetchesAndAppends(cfg, s, q);
    assert s.service.backends == [link] + [link];
    MultiplicityConcat([link], [link], link);
  }

  /** So the protocol never lists a group twice exactly when no two reconcilers share a zone. */
  lemma ExactlyForDistinctZones(cfg: Config)
    ensures NeverTwice(cfg) <==> DistinctZones(cfg)
  {
    if DistinctZones(cfg) {
      forall s, p | Reaches(cfg, s) && p in cfg.zones
        ensures Multiplicity(s.service.backends, LinkOf(cfg, p)) <= 1
      {
        var states, actions :| IsRace(cfg, states, actions) && Initial(cfg, states[0]) && states[|actions|] == s;
        RegistrationsSurvive(cfg, states, actions, |actions|, |actions|, p);
      }
    } else {
      var p, q :| p in cfg.zones && q in cfg.zones && p != q && cfg.zones[p] == cfg.zones[q];
      SharedZoneDuplicates(cfg, p, q);
    }
  }
}
