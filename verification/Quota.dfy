/**
 The GPU quota admission check, with the integer width and the truncation of the source.
 */
module Quota {
  import opened Common

  const INT32_MAX := 2147483647
  const TWO_32 := 4294967296

  /** 32-bit two's complement. */
  function Wrap32(x: int): int {
    (x + 2147483648) % TWO_32 - 2147483648
  }

  /** A float64 converted to int32: truncated towards zero. */
  function ToInt32(x: real): int {
    Wrap32(if x >= 0.0 then x.Floor else -((-x).Floor))
  }

  datatype RegionQuota = RegionQuota(metric: string, usage: real, limit: real)

  /** The comparison of the source, in 32-bit arithmetic. */
  predicate Fits(q: RegionQuota, count: int) {
    !(Wrap32(ToInt32(q.usage) + count) > ToInt32(q.limit))
  }

  /** Only the first quota of a metric is looked at. */
  function FirstOf(quotas: seq<RegionQuota>, metric: string): (r: Option<nat>)
    ensures r.Some? ==> r.value < |quotas| && quotas[r.value].metric == metric
    ensures r.Some? ==> forall i :: 0 <= i < r.value ==> quotas[i].metric != metric
    ensures r.None? ==> forall i :: 0 <= i < |quotas| ==> quotas[i].metric != metric
  {
    FirstIndex(quotas, (q: RegionQuota) => q.metric == metric)
  }

  /** A metric without a quota is admitted. */
  predicate Admits(quotas: seq<RegionQuota>, metric: string, count: int) {
    match FirstOf(quotas, metric)
    case None => true
    case Some(i) => Fits(quotas[i], count)
  }

  method ScanQuotas(quotas: seq<RegionQuota>, metric: string, count: int) returns (admitted: bool)
    ensures admitted == Admits(quotas, metric, count)
  {
    for i := 0 to |quotas|
      invariant forall j :: 0 <= j < i ==> quotas[j].metric != metric
    {
      if quotas[i].metric == metric {
        return !(Wrap32(ToInt32(quotas[i].usage) + count) > ToInt32(quotas[i].limit));
      }
    }
    return true;
  }

  // ----- when the 32-bit check is the exact one -----

  predicate Representable(q: RegionQuota) {
    0.0 <= q.usage < 2147483648.0 && 0.0 <= q.limit < 2147483648.0
  }

  function Fraction(x: real): real {
    x - x.Floor as real
  }

  /**
   For representable quotas and non-negative counts, the check agrees with the exact comparison
   exactly when the sum does not overflow and no fraction of usage is lost at the limit itself.
   */
  lemma CheckIsExactExactlyWhen(q: RegionQuota, count: int)
    requires Representable(q) && 0 <= count <= INT32_MAX
    ensures (Fits(q, count) <==> q.usage + count as real <= q.limit) <==>
            && q.usage.Floor + count <= INT32_MAX
            && !(q.usage.Floor + count == q.limit.Floor && Fraction(q.usage) > Fraction(q.limit))
  {
    var u, l := q.usage.Floor, q.limit.Floor;
    assert ToInt32(q.usage) == u && ToInt32(q.limit) == l;
    assert 0 <= u <= INT32_MAX && 0 <= l <= INT32_MAX;
    if u + count <= INT32_MAX {
      assert Wrap32(u + count) == u + count;
    } else {
      assert Wrap32(u + count) == u + count - TWO_32;
    }
    assert (u + count) as real == u as real + count as real;
  }

  predicate Whole(q: RegionQuota) {
    q.usage == q.usage.Floor as real && q.limit == q.limit.Floor as real
  }

  /** Whole-number quotas: exact up to overflow, and past it every request is admitted. */
  lemma WholeQuotas(q: RegionQuota, count: int)
    requires Representable(q) && Whole(q) && 0 <= count <= INT32_MAX
    ensures q.usage.Floor + count <= INT32_MAX ==> (Fits(q, count) <==> q.usage + count as real <= q.limit)
    ensures q.usage.Floor + count > INT32_MAX ==> Fits(q, count) && q.usage + count as real > q.limit
  {
    CheckIsExactExactlyWhen(q, count);
    if q.usage.Floor + count > INT32_MAX {
      assert Wrap32(q.usage.Floor + count) == q.usage.Floor + count - TWO_32;
    }
  }

  // ----- runs of creates -----

  datatype GpuRequest = GpuRequest(metric: string, count: int)

  /** An admitted create uses up its count of the first quota of its metric; a refused one changes nothing. */
  function AfterCreate(quotas: seq<RegionQuota>, r: GpuRequest): seq<RegionQuota> {
    if !Admits(quotas, r.metric, r.count) then quotas
    else match FirstOf(quotas, r.metric)
      case None => quotas
      case Some(i) => quotas[i := quotas[i].(usage := quotas[i].usage + r.count as real)]
  }

  function AfterCreates(quotas: seq<RegionQuota>, requests: seq<GpuRequest>): seq<RegionQuota>
    decreases |requests|
  {
    if requests == [] then quotas else AfterCreates(AfterCreate(quotas, requests[0]), requests[1..])
  }

  /** The metric has no quota, or the first one has this property. */
  ghost predicate DrawsOn(quotas: seq<RegionQuota>, metric: string, test: RegionQuota -> bool) {
    match FirstOf(quotas, metric)
    case None => true
    case Some(i) => test(quotas[i])
  }

  ghost predicate Within(quotas: seq<RegionQuota>, metric: string) {
    DrawsOn(quotas, metric, (q: RegionQuota) => q.usage <= q.limit)
  }

  ghost predicate Sane(quotas: seq<RegionQuota>, metric: string) {
    DrawsOn(quotas, metric, (q: RegionQuota) => Representable(q) && Whole(q))
  }

  /** The exact bound: the sum the check forms for this request is an int32. */
  ghost predicate SumFits(quotas: seq<RegionQuota>, r: GpuRequest) {
    DrawsOn(quotas, r.metric, (q: RegionQuota) => q.usage.Floor + r.count <= INT32_MAX)
  }

  /** No request for the metric overflows the usage it meets when its turn comes. */
  ghost predicate NeverOverflows(quotas: seq<RegionQuota>, requests: seq<GpuRequest>, metric: string)
    decreases |requests|
  {
    requests != [] ==>
      && (requests[0].metric == metric ==> SumFits(quotas, requests[0]))
      && NeverOverflows(AfterCreate(quotas, requests[0]), requests[1..], metric)
  }

  /** GPU counts as the API knows them. */
  ghost predicate Counts(requests: seq<GpuRequest>, metric: string) {
    forall k :: 0 <= k < |requests| && requests[k].metric == metric ==> 0 <= requests[k].count <= INT32_MAX
  }

  /** What one create does to the quota a metric draws on. */
  lemma CreateDraws(quotas: seq<RegionQuota>, r: GpuRequest, metric: string)
    ensures var after := AfterCreate(quotas, r);
      var at := FirstOf(quotas, metric);
      && |after| == |quotas| && FirstOf(after, metric) == at
      && (at.Some? ==>
            after[at.value] == if r.metric == metric && Fits(quotas[at.value], r.count)
                               then quotas[at.value].(usage := quotas[at.value].usage + r.count as real)
                               else quotas[at.value])
  {
    var after := AfterCreate(quotas, r);
    assert |after| == |quotas| && forall i :: 0 <= i < |quotas| ==> after[i].metric == quotas[i].metric;
    var at, at' := FirstOf(quotas, metric), FirstOf(after, metric);
    assert at.Some? ==> after[at.value].metric == metric;
    assert at'.Some? ==> quotas[at'.value].metric == metric;
  }

  /** One create from within the limit: it stays within exactly when the sum did not overflow. */
  lemma CreateStaysWithinExactlyWhen(quotas: seq<RegionQuota>, r: GpuRequest)
    requires Sane(quotas, r.metric) && Within(quotas, r.metric) && 0 <= r.count <= INT32_MAX
    ensures Within(AfterCreate(quotas, r), r.metric) <==> SumFits(quotas, r)
    ensures SumFits(quotas, r) ==> Sane(AfterCreate(quotas, r), r.metric)
  {
    CreateDraws(quotas, r, r.metric);
    var at := FirstOf(quotas, r.metric);
    if at.Some? {
      var q := quotas[at.value];
      WholeQuotas(q, r.count);
      assert q.usage.Floor as real + r.count as real == (q.usage.Floor + r.count) as real;
    }
  }

  /** Usage only grows: a limit once passed stays passed. */
  lemma {:induction false} PassedStaysPassed(quotas: seq<RegionQuota>, requests: seq<GpuRequest>, metric: string)
    requires !Within(quotas, metric) && Counts(requests, metric)
    ensures !Within(AfterCreates(quotas, requests), metric)
    decreases |requests|
  {
    if requests == [] {
    } else {
      CreateDraws(quotas, requests[0], metric);
      PassedStaysPassed(AfterCreate(quotas, requests[0]), requests[1..], metric);
    }
  }

  /**
   Quota safety over runs, metric by metric: from a whole, representable quota within its limit, any
   sequence of GPU creates, each admitted or refused by the check, ends within the limit if and only
   if none of the metric's requests overflows the usage it meets.
   */
  lemma {:induction false} CreatesStayWithinExactlyWhen(quotas: seq<RegionQuota>, requests: seq<GpuRequest>,
                                                        metric: string)
    requires Sane(quotas, metric) && Within(quotas, metric) && Counts(requests, metric)
    ensures Within(AfterCreates(quotas, requests), metric) <==> NeverOverflows(quotas, requests, metric)
    decreases |requests|
  {
    if requests == [] {
    } else {
      var r, next := requests[0], AfterCreate(quotas, requests[0]);
      assert Counts(requests[1..], metric);
      CreateDraws(quotas, r, metric);
      if r.metric == metric {
        CreateStaysWithinExactlyWhen(quotas, r);
        if !SumFits(quotas, r) {
          PassedStaysPassed(next, requests[1..], metric);
          return;
        }
      }
      CreatesStayWithinExactlyWhen(next, requests[1..], metric);
    }
  }
}
