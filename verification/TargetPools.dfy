/**
 Target-pool reconciliation: what processTargetPools reaches, alone and across retries.
 */
module TargetPools {
  import opened Machines
  import opened CloudModel
  import opened Actuation
  import opened Justification

  function SetMember(links: seq<string>, link: string, desired: bool): seq<string> {
    if desired then With(links, link) else Without(links, link)
  }

  lemma {:induction false} WithoutAbsent(links: seq<string>, link: string)
    requires link !in links
    ensures Without(links, link) == links
  {
    if links == [] {
    } else {
      WithoutAbsent(links[1..], link);
    }
  }

  /** Setting a membership that already holds changes nothing. */
  lemma SetMemberStable(links: seq<string>, link: string, desired: bool)
    requires (link in links) == desired
    ensures SetMember(links, link, desired) == links
  {
    if !desired {
      WithoutAbsent(links, link);
    }
  }

  lemma SetMemberIdempotent(links: seq<string>, link: string, desired: bool)
    ensures (link in SetMember(links, link, desired)) == desired
    ensures SetMember(SetMember(links, link, desired), link, desired) == SetMember(links, link, desired)
  {
    SetMemberStable(SetMember(links, link, desired), link, desired);
  }

  predicate Listed(t: Target, pools: seq<string>, k: PoolKey) {
    k.project == t.project && k.region == t.spec.region && k.name in pools
  }

  /** The reference outcome: every listed pool set at once, everything else as it was. */
  function Settled(c: Cloud, t: Target, pools: seq<string>, desired: bool): Cloud {
    c.(pools := map k | k in c.pools ::
         if Listed(t, pools, k) then SetMember(c.pools[k], Link(t), desired) else c.pools[k])
  }

  /** A cloud some listed pools of which are already settled. */
  ghost predicate PartlySettled(c: Cloud, c': Cloud, t: Target, pools: seq<string>, desired: bool) {
    && c' == c.(pools := c'.pools)
    && c'.pools.Keys == c.pools.Keys
    && forall k :: k in c.pools ==>
         || c'.pools[k] == c.pools[k]
         || (Listed(t, pools, k) && c'.pools[k] == SetMember(c.pools[k], Link(t), desired))
  }

  ghost predicate AllExist(c: Cloud, t: Target, pools: seq<string>) {
    forall pool :: pool in pools ==> PoolOf(t, pool) in c.pools
  }

  /** Settling from a partly settled cloud reaches the same cloud. */
  lemma SettlingConverges(c: Cloud, c': Cloud, t: Target, pools: seq<string>, desired: bool)
    requires PartlySettled(c, c', t, pools, desired)
    ensures Settled(c', t, pools, desired) == Settled(c, t, pools, desired)
  {
    forall k | k in c.pools
      ensures Settled(c', t, pools, desired).pools[k] == Settled(c, t, pools, desired).pools[k]
    {
      SetMemberIdempotent(c.pools[k], Link(t), desired);
    }
  }

  /** One existing pool settled. */
  function WithMember(c: Cloud, t: Target, pool: string, desired: bool): Cloud
    requires PoolOf(t, pool) in c.pools
  {
    c.(pools := c.pools[PoolOf(t, pool) := SetMember(c.pools[PoolOf(t, pool)], Link(t), desired)])
  }

  function SetCall(t: Target, pool: string, desired: bool): Call {
    if desired then PoolAdd(PoolOf(t, pool), Link(t)) else PoolRemove(PoolOf(t, pool), Link(t))
  }

  /** The head of the list has been settled: what is left equals settling the tail. */
  lemma SettledHead(c: Cloud, t: Target, pools: seq<string>, desired: bool, c1: Cloud)
    requires pools != [] && PoolOf(t, pools[0]) in c.pools
    requires c1 == WithMember(c, t, pools[0], desired)
    ensures Settled(c1, t, pools[1..], desired) == Settled(c, t, pools, desired)
  {
    var p := PoolOf(t, pools[0]);
    SetMemberIdempotent(c.pools[p], Link(t), desired);
    assert pools == [pools[0]] + pools[1..];
    assert c1.pools.Keys == c.pools.Keys;
    var a, b := Settled(c1, t, pools[1..], desired).pools, Settled(c, t, pools, desired).pools;
    assert a.Keys == b.Keys;
    assert forall k :: k in a ==> a[k] == b[k];
  }

  lemma PartlySettledHead(c: Cloud, t: Target, pools: seq<string>, desired: bool, c1: Cloud, c2: Cloud)
    requires pools != [] && PoolOf(t, pools[0]) in c.pools
    requires c1 == WithMember(c, t, pools[0], desired)
    requires PartlySettled(c1, c2, t, pools[1..], desired)
    ensures PartlySettled(c, c2, t, pools, desired)
  {
    SetMemberIdempotent(c.pools[PoolOf(t, pools[0])], Link(t), desired);
    assert pools == [pools[0]] + pools[1..];
  }

  /** After the read and, if needed, the write on the first pool succeeded. */
  ghost function AfterHead(w: World, t: Target, pools: seq<string>, desired: bool): World
    requires pools != []
  {
    var (w1, got) := Issue(w, t, PoolGet(PoolOf(t, pools[0])));
    if got.Failed? || (Link(t) in got.links) == desired then w1
    else Issue(w1, t, SetCall(t, pools[0], desired)).0
  }

  ghost predicate HeadSucceeds(w: World, t: Target, pools: seq<string>, desired: bool)
    requires pools != []
  {
    var (w1, got) := Issue(w, t, PoolGet(PoolOf(t, pools[0])));
    && !got.Failed?
    && ((Link(t) in got.links) == desired ||
        !Issue(w1, t, SetCall(t, pools[0], desired)).1.Failed?)
  }

  lemma HeadStep(w: World, t: Target, pools: seq<string>, desired: bool)
    requires pools != []
    ensures var w1 := AfterHead(w, t, pools, desired);
      && (HeadSucceeds(w, t, pools, desired) ==>
            && ProcessPools(w, t, pools, desired) == ProcessPools(w1, t, pools[1..], desired)
            && PoolOf(t, pools[0]) in w.cloud.pools
            && w1.cloud == WithMember(w.cloud, t, pools[0], desired))
      && (!HeadSucceeds(w, t, pools, desired) ==>
            && ProcessPools(w, t, pools, desired) == (w1, OtherError)
            && PartlySettled(w.cloud, w1.cloud, t, pools, desired))
      && (w.faults == [] ==>
            && w1.faults == []
            && (HeadSucceeds(w, t, pools, desired) <==> PoolOf(t, pools[0]) in w.cloud.pools))
      && (Honest(w.faults) ==> Honest(w1.faults))
  {
    var p := PoolOf(t, pools[0]);
    var (w1, got) := Issue(w, t, PoolGet(p));
    if !got.Failed? && (Link(t) in got.links) == desired {
      SetMemberStable(w.cloud.pools[p], Link(t), desired);
      assert w.cloud.pools[p := w.cloud.pools[p]] == w.cloud.pools;
    }
  }

  lemma {:induction false} ProcessPoolsReach(w: World, t: Target, pools: seq<string>, desired: bool)
    ensures var (w', outcome) := ProcessPools(w, t, pools, desired);
      && PartlySettled(w.cloud, w'.cloud, t, pools, desired)
      && (outcome == Success ==> w'.cloud == Settled(w.cloud, t, pools, desired))
      && (outcome != Success ==> outcome == OtherError)
      && (Honest(w.faults) ==> Honest(w'.faults))
    decreases |pools|
  {
    if pools == [] {
      assert Settled(w.cloud, t, pools, desired).pools == w.cloud.pools;
    } else {
      HeadStep(w, t, pools, desired);
      if HeadSucceeds(w, t, pools, desired) {
        var w1 := AfterHead(w, t, pools, desired);
        SettledHead(w.cloud, t, pools, desired, w1.cloud);
        ProcessPoolsReach(w1, t, pools[1..], desired);
        PartlySettledHead(w.cloud, t, pools, desired, w1.cloud, ProcessPools(w1, t, pools[1..], desired).0.cloud);
      }
    }
  }

  lemma {:induction false} ProcessPoolsNeed(w: World, t: Target, pools: seq<string>, desired: bool)
    ensures var (w', outcome) := ProcessPools(w, t, pools, desired);
      && (outcome == Success ==> AllExist(w.cloud, t, pools))
      && (w.faults == [] ==> w'.faults == [] && (outcome == Success <==> AllExist(w.cloud, t, pools)))
    decreases |pools|
  {
    if pools == [] {
    } else {
      HeadStep(w, t, pools, desired);
      if HeadSucceeds(w, t, pools, desired) {
        var w1 := AfterHead(w, t, pools, desired);
        ProcessPoolsNeed(w1, t, pools[1..], desired);
        assert pools == [pools[0]] + pools[1..];
        assert w1.cloud.pools.Keys == w.cloud.pools.Keys;
      }
    }
  }

  /**
   processTargetPools, for any pool list, duplicates included, and any faults: success means
   exactly the reference outcome; failure leaves listed pools either untouched or already
   settled and everything else untouched; without faults it succeeds exactly when the pools exist.
   */
  lemma ProcessPoolsTheorem(w: World, t: Target, pools: seq<string>, desired: bool)
    ensures var (w', outcome) := ProcessPools(w, t, pools, desired);
      && PartlySettled(w.cloud, w'.cloud, t, pools, desired)
      && (outcome == Success ==> w'.cloud == Settled(w.cloud, t, pools, desired) && AllExist(w.cloud, t, pools))
      && (outcome != Success ==> outcome == OtherError)
      && (w.faults == [] ==> w'.faults == [] && (outcome == Success <==> AllExist(w.cloud, t, pools)))
      && (Honest(w.faults) ==> Honest(w'.faults))
  {
    ProcessPoolsReach(w, t, pools, desired);
    ProcessPoolsNeed(w, t, pools, desired);
  }

  /** Membership after success, spelled out. */
  lemma SettledMembership(c: Cloud, t: Target, pools: seq<string>, desired: bool)
    requires AllExist(c, t, pools)
    ensures forall pool :: pool in pools ==> InPool(Settled(c, t, pools, desired), PoolOf(t, pool), Link(t)) == desired
    ensures forall k, link :: k in c.pools && link != Link(t) ==>
              (link in Settled(c, t, pools, desired).pools[k] <==> link in c.pools[k])
  {
    forall pool | pool in pools
      ensures InPool(Settled(c, t, pools, desired), PoolOf(t, pool), Link(t)) == desired
    {
      SetMemberIdempotent(c.pools[PoolOf(t, pool)], Link(t), desired);
    }
  }

  /** A fault-free retry after a run that met any faults reaches what one fault-free run reaches. */
  lemma RetryConverges(w: World, t: Target, pools: seq<string>, desired: bool)
    requires AllExist(w.cloud, t, pools)
    ensures var (w1, _) := ProcessPools(w, t, pools, desired);
      var (w2, outcome) := ProcessPools(w1.(faults := []), t, pools, desired);
      outcome == Success && w2.cloud == Settled(w.cloud, t, pools, desired)
  {
    ProcessPoolsTheorem(w, t, pools, desired);
    var (w1, _) := ProcessPools(w, t, pools, desired);
    ProcessPoolsTheorem(w1.(faults := []), t, pools, desired);
    SettlingConverges(w.cloud, w1.cloud, t, pools, desired);
  }

  /** The listed pools whose membership is not yet the desired one. */
  ghost function Differing(c: Cloud, t: Target, pools: seq<string>, desired: bool): set<string> {
    set pool | pool in pools && InPool(c, PoolOf(t, pool), Link(t)) != desired
  }

  lemma DifferingHead(c: Cloud, t: Target, pools: seq<string>, desired: bool, c1: Cloud)
    requires pools != [] && PoolOf(t, pools[0]) in c.pools
    requires c1.pools == c.pools[PoolOf(t, pools[0]) := SetMember(c.pools[PoolOf(t, pools[0])], Link(t), desired)]
    ensures |Differing(c, t, pools, desired)| == |Differing(c1, t, pools[1..], desired)| +
            if InPool(c, PoolOf(t, pools[0]), Link(t)) == desired then 0 else 1
  {
    var p, link := PoolOf(t, pools[0]), Link(t);
    var all, rest := Differing(c, t, pools, desired), Differing(c1, t, pools[1..], desired);
    var head := if InPool(c, p, link) == desired then {} else {pools[0]};
    SetMemberIdempotent(c.pools[p], link, desired);
    assert InPool(c1, p, link) == desired;
    assert pools[0] !in rest;
    forall pool
      ensures pool in all <==> pool in rest + head
    {
      assert pool in pools <==> pool == pools[0] || pool in pools[1..];
      if pool != pools[0] {
        assert InPool(c1, PoolOf(t, pool), link) == InPool(c, PoolOf(t, pool), link);
      }
    }
    assert all == rest + head;
  }

  /** A successful run writes once per distinct differing pool. */
  lemma {:induction false} OneWritePerDifferingPool(w: World, t: Target, pools: seq<string>, desired: bool)
    requires ProcessPools(w, t, pools, desired).1 == Success
    ensures Writes(ProcessPools(w, t, pools, desired).0.trace) ==
            Writes(w.trace) + |Differing(w.cloud, t, pools, desired)|
    decreases |pools|
  {
    if pools == [] {
      assert Differing(w.cloud, t, pools, desired) == {};
    } else {
      HeadStep(w, t, pools, desired);
      var w1 := AfterHead(w, t, pools, desired);
      OneWritePerDifferingPool(w1, t, pools[1..], desired);
      HeadWrites(w, t, pools, desired);
      DifferingHead(w.cloud, t, pools, desired, w1.cloud);
    }
  }

  lemma HeadWrites(w: World, t: Target, pools: seq<string>, desired: bool)
    requires pools != [] && HeadSucceeds(w, t, pools, desired)
    ensures Writes(AfterHead(w, t, pools, desired).trace) ==
            Writes(w.trace) + if InPool(w.cloud, PoolOf(t, pools[0]), Link(t)) == desired then 0 else 1
  {
    var p := PoolOf(t, pools[0]);
    var (w1, got) := Issue(w, t, PoolGet(p));
    WritesAppend(w.trace, Event(t, PoolGet(p), w.cloud));
    if (Link(t) in got.links) != desired {
      WritesAppend(w1.trace, Event(t, if desired then PoolAdd(p, Link(t)) else PoolRemove(p, Link(t)), w1.cloud));
    }
  }

  /** After one success, whatever faults a second run meets, it writes nothing and changes nothing. */
  lemma SecondRunIsQuiet(w: World, t: Target, pools: seq<string>, desired: bool, faults: seq<Fault>)
    requires ProcessPools(w, t, pools, desired).1 == Success
    ensures var w1 := ProcessPools(w, t, pools, desired).0.(faults := faults);
      var w2 := ProcessPools(w1, t, pools, desired).0;
      w2.cloud == w1.cloud && Writes(w2.trace) == Writes(w1.trace)
  {
    ProcessPoolsTheorem(w, t, pools, desired);
    SettledMembership(w.cloud, t, pools, desired);
    QuietWhenSettled(ProcessPools(w, t, pools, desired).0.(faults := faults), t, pools, desired);
  }

  lemma {:induction false} QuietWhenSettled(w: World, t: Target, pools: seq<string>, desired: bool)
    requires forall pool :: pool in pools ==> PoolOf(t, pool) in w.cloud.pools
    requires forall pool :: pool in pools ==> InPool(w.cloud, PoolOf(t, pool), Link(t)) == desired
    ensures ProcessPools(w, t, pools, desired).0.cloud == w.cloud
    ensures Writes(ProcessPools(w, t, pools, desired).0.trace) == Writes(w.trace)
    decreases |pools|
  {
    if pools == [] {
    } else {
      assert pools[0] in pools;
      var (w1, got) := Issue(w, t, PoolGet(PoolOf(t, pools[0])));
      WritesAppend(w.trace, Event(t, PoolGet(PoolOf(t, pools[0])), w.cloud));
      if !got.Failed? {
        QuietWhenSettled(w1, t, pools[1..], desired);
      }
    }
  }

  /** The loop keeps what every step keeps. */
  lemma {:induction false} ProcessPoolsKeepsGood(w: World, t: Target, pools: seq<string>, desired: bool)
    requires Good(w)
    requires forall pool :: pool in pools ==> pool in t.spec.targetPools
    ensures Good(ProcessPools(w, t, pools, desired).0)
    decreases |pools|
  {
    if pools == [] {
    } else {
      var p := PoolOf(t, pools[0]);
      assert pools[0] in pools;
      var (w1, got) := Issue(w, t, PoolGet(p));
      IssueKeepsGood(w, t, PoolGet(p));
      if !got.Failed? {
        if (Link(t) in got.links) == desired {
          ProcessPoolsKeepsGood(w1, t, pools[1..], desired);
        } else {
          var write := if desired then PoolAdd(p, Link(t)) else PoolRemove(p, Link(t));
          IssueKeepsGood(w1, t, write);
          ProcessPoolsKeepsGood(Issue(w1, t, write).0, t, pools[1..], desired);
        }
      }
    }
  }
}
