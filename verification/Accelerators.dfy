/**
 Guest-accelerator validation: the split of the zone's machine types, the decision which device
 to check, and the check itself.
 */
module Accelerators {
  import opened Common
  import opened Text
  import opened Quota

  datatype Accelerator = Accelerator(kind: string, count: int)
  datatype MachineType = MachineType(name: string, accelerators: seq<Accelerator>)

  /** A GPU configuration; the count is an int32. */
  datatype GpuConfig = GpuConfig(kind: string, count: int)

  // ----- what the compute service answers -----

  /** The pages of a listing that arrived, and whether the listing then ended or failed. */
  datatype Listing = Listing(pages: seq<seq<MachineType>>, complete: bool)

  datatype Place = Place(project: string, location: string)

  /** Machine types and accelerator types by project and zone, quotas by project and region. */
  datatype ComputeAnswers = ComputeAnswers(
    listings: map<Place, Listing>, kinds: map<Place, set<string>>, quotas: map<Place, seq<RegionQuota>>)

  function ListingOf(c: ComputeAnswers, project: string, zone: string): Listing {
    if Place(project, zone) in c.listings then c.listings[Place(project, zone)] else Listing([], false)
  }

  /** What the region and zone answer: the region's quotas, and the accelerator types on offer. */
  datatype Offer = Offer(quotas: Option<seq<RegionQuota>>, kinds: set<string>)

  function OfferOf(c: ComputeAnswers, project: string, region: string, zone: string): Offer {
    Offer(if Place(project, region) in c.quotas then Some(c.quotas[Place(project, region)]) else None,
          if Place(project, zone) in c.kinds then c.kinds[Place(project, zone)] else {})
  }

  // ----- the machine types of a zone -----

  predicate InA2OrA3(name: string) {
    HasPrefix(name, "a2") || HasPrefix(name, "a3")
  }

  /** An A2 or A3 type that lists no accelerators: the first one is read without a guard. */
  predicate Bare(t: MachineType) {
    InA2OrA3(t.name) && t.accelerators == []
  }

  ghost predicate Equipped(types: seq<MachineType>) {
    forall i :: 0 <= i < |types| ==> !Bare(types[i])
  }

  ghost function Flatten(pages: seq<seq<MachineType>>): seq<MachineType> {
    if pages == [] then [] else Flatten(pages[..|pages| - 1]) + pages[|pages| - 1]
  }

  lemma {:induction false} FlattenPrefix(pages: seq<seq<MachineType>>, p: nat)
    requires p <= |pages|
    ensures Flatten(pages[..p]) <= Flatten(pages)
    decreases |pages|
  {
    if p < |pages| {
      var shorter := pages[..|pages| - 1];
      FlattenPrefix(shorter, p);
      assert shorter[..p] == pages[..p];
    } else {
      assert pages[..p] == pages;
    }
  }

  /** The last listing of a name decides. */
  ghost predicate IsListing(types: seq<MachineType>, name: string, i: int) {
    0 <= i < |types| && types[i].name == name && forall j :: i < j < |types| ==> types[j].name != name
  }

  ghost predicate Carries(types: seq<MachineType>, name: string, a: Accelerator) {
    exists i :: IsListing(types, name, i) && types[i].accelerators != [] && a == types[i].accelerators[0]
  }

  ghost predicate IsListed(types: seq<MachineType>, name: string) {
    exists i :: 0 <= i < |types| && types[i].name == name
  }

  /** The A2 and A3 types with the first accelerator of their last listing, and the N1 names in order. */
  ghost predicate Divided(types: seq<MachineType>, own: map<string, Accelerator>, n1: seq<string>) {
    && (forall name :: name in own ==> InA2OrA3(name) && Carries(types, name, own[name]))
    && (forall i :: 0 <= i < |types| && InA2OrA3(types[i].name) ==> types[i].name in own)
    && (forall name :: name in n1 <==> HasPrefix(name, "n1") && IsListed(types, name))
    && n1 == N1Names(types)
  }

  ghost function N1Names(types: seq<MachineType>): seq<string> {
    if types == [] then []
    else
      N1Names(types[..|types| - 1]) +
      if HasPrefix(types[|types| - 1].name, "n1") then [types[|types| - 1].name] else []
  }

  function WithType(own: map<string, Accelerator>, t: MachineType): map<string, Accelerator> {
    if InA2OrA3(t.name) && t.accelerators != [] then own[t.name := t.accelerators[0]] else own
  }

  /** The map of A2 and A3 types, one entry after the other. */
  ghost function OwnTypes(own0: map<string, Accelerator>, types: seq<MachineType>): map<string, Accelerator> {
    if types == [] then own0 else WithType(OwnTypes(own0, types[..|types| - 1]), types[|types| - 1])
  }

  lemma {:induction false} OwnTypesConcat(own0: map<string, Accelerator>, s: seq<MachineType>, t: seq<MachineType>)
    ensures OwnTypes(OwnTypes(own0, s), t) == OwnTypes(own0, s + t)
    ensures N1Names(s) + N1Names(t) == N1Names(s + t)
  {
    if t == [] {
      assert s + t == s;
    } else {
      assert (s + t)[..|s + t| - 1] == s + t[..|t| - 1];
      OwnTypesConcat(own0, s, t[..|t| - 1]);
    }
  }

  lemma DividedAppend(types: seq<MachineType>, own: map<string, Accelerator>, n1: seq<string>, t: MachineType)
    requires Divided(types, own, n1) && !Bare(t)
    ensures Divided(types + [t],
                    if InA2OrA3(t.name) then own[t.name := t.accelerators[0]] else own,
                    if HasPrefix(t.name, "n1") then n1 + [t.name] else n1)
  {
    var all := types + [t];
    assert all[..|all| - 1] == types && all[|types|] == t;
    var own' := if InA2OrA3(t.name) then own[t.name := t.accelerators[0]] else own;
    forall name | name in own'
      ensures InA2OrA3(name) && Carries(all, name, own'[name])
    {
      if InA2OrA3(t.name) && name == t.name {
        assert IsListing(all, name, |types|);
      } else {
        CarriesOn(types, t, name, own[name]);
      }
    }
    forall name
      ensures IsListed(all, name) <==> IsListed(types, name) || name == t.name
    {
      assert IsListed(types, name) ==> forall i :: 0 <= i < |types| ==> all[i] == types[i];
    }
  }

  /** A further type of another name changes nothing. */
  lemma CarriesOn(types: seq<MachineType>, t: MachineType, name: string, a: Accelerator)
    requires Carries(types, name, a) && t.name != name
    ensures Carries(types + [t], name, a)
  {
    var i :| IsListing(types, name, i) && types[i].accelerators != [] && a == types[i].accelerators[0];
    assert IsListing(types + [t], name, i);
  }

  lemma {:induction false} OwnTypesAreDivided(types: seq<MachineType>)
    requires Equipped(types)
    ensures Divided(types, OwnTypes(map[], types), N1Names(types))
  {
    if types == [] {
    } else {
      var before, last := types[..|types| - 1], types[|types| - 1];
      assert types == before + [last] && !Bare(last);
      OwnTypesAreDivided(before);
      DividedAppend(before, OwnTypes(map[], before), N1Names(before), last);
    }
  }

  /** One type of a page: an A2 or A3 type, an N1 type, or neither. */
  method AddType(t: MachineType, own0: map<string, Accelerator>, n10: seq<string>)
    returns (own: map<string, Accelerator>, n1: seq<string>)
    requires !Bare(t)
    ensures own == WithType(own0, t)
    ensures n1 == n10 + if HasPrefix(t.name, "n1") then [t.name] else []
  {
    own, n1 := own0, n10;
    if HasPrefix(t.name, "a2") || HasPrefix(t.name, "a3") {
      assert t.name[0] == 'a';
      own := own[t.name := t.accelerators[0]];
    } else if HasPrefix(t.name, "n1") {
      n1 := n1 + [t.name];
    }
  }

  /** The callback run on one page of the listing; it panics on the first bare type. */
  method AddPage(page: seq<MachineType>, own0: map<string, Accelerator>, n10: seq<string>)
    returns (panics: bool, own: map<string, Accelerator>, n1: seq<string>)
    ensures panics <==> !Equipped(page)
    ensures !panics ==> own == OwnTypes(own0, page) && n1 == n10 + N1Names(page)
  {
    own, n1 := own0, n10;
    for i := 0 to |page|
      invariant own == OwnTypes(own0, page[..i]) && n1 == n10 + N1Names(page[..i])
      invariant forall j :: 0 <= j < i ==> !Bare(page[j])
    {
      if Bare(page[i]) {
        return true, own, n1;
      }
      assert page[..i + 1][..i] == page[..i];
      own, n1 := AddType(page[i], own, n1);
    }
    assert page[..|page|] == page;
    panics := false;
  }

  /** The two lists, a panic on a bare type, or the exit of the process when the listing fails. */
  datatype TypeLists = Lists(own: map<string, Accelerator>, n1: seq<string>) | ListingPanics | ListingExits

  method GpuCompatibleMachineTypes(listing: Listing) returns (r: TypeLists)
    ensures r.ListingPanics? <==> !Equipped(Flatten(listing.pages))
    ensures r.ListingExits? <==> Equipped(Flatten(listing.pages)) && !listing.complete
    ensures r.Lists? ==> Divided(Flatten(listing.pages), r.own, r.n1)
  {
    var own: map<string, Accelerator>, n1: seq<string> := map[], [];
    var pages := listing.pages;
    for p := 0 to |pages|
      invariant own == OwnTypes(map[], Flatten(pages[..p])) && n1 == N1Names(Flatten(pages[..p]))
      invariant Equipped(Flatten(pages[..p]))
    {
      var panics: bool;
      panics, own, n1 := AddPage(pages[p], own, n1);
      if panics {
        BarePage(pages, p);
        return ListingPanics;
      }
      FlattenStep(pages, p);
      OwnTypesConcat(map[], Flatten(pages[..p]), pages[p]);
    }
    assert pages[..|pages|] == pages;
    if !listing.complete {
      return ListingExits;
    }
    OwnTypesAreDivided(Flatten(pages));
    return Lists(own, n1);
  }

  lemma FlattenStep(pages: seq<seq<MachineType>>, p: nat)
    requires p < |pages|
    ensures Flatten(pages[..p + 1]) == Flatten(pages[..p]) + pages[p]
    ensures Equipped(Flatten(pages[..p])) && Equipped(pages[p]) ==> Equipped(Flatten(pages[..p + 1]))
  {
    assert pages[..p + 1][..p] == pages[..p];
  }

  lemma BarePage(pages: seq<seq<MachineType>>, p: nat)
    requires p < |pages| && !Equipped(pages[p])
    ensures !Equipped(Flatten(pages))
  {
    FlattenPrefix(pages, p + 1);
    assert pages[..p + 1][..p] == pages[..p];
    var before := Flatten(pages[..p]);
    var i :| 0 <= i < |pages[p]| && Bare(pages[p][i]);
    assert Flatten(pages)[|before| + i] == pages[p][i];
  }

  // ----- which device is checked -----

  datatype Decision = Skip | Refuse | Examine(config: GpuConfig)

  /** The lists come from GpuCompatibleMachineTypes. */
  ghost predicate Built(own: map<string, Accelerator>, n1: seq<string>) {
    (forall name :: name in own ==> InA2OrA3(name)) && forall name :: name in n1 ==> HasPrefix(name, "n1")
  }

  predicate IsA2(machineType: string) { HasPrefix(machineType, "a2-") }
  predicate IsA3(machineType: string) { HasPrefix(machineType, "a3-") }

  function AsConfig(a: Accelerator): GpuConfig {
    GpuConfig(a.kind, Wrap32(a.count))
  }

  /** validateGuestAccelerators up to the call of checkQuota, whose list is never empty here. */
  function Decide(machineType: string, gpus: seq<GpuConfig>, own: map<string, Accelerator>, n1: seq<string>): Decision
    requires Built(own, n1)
  {
    if (|gpus| == 0 && !IsA2(machineType) && !IsA3(machineType)) || HasPrefix(machineType, "a3-ultragpu-") then Skip
    else if |gpus| > 0 && (IsA2(machineType) || IsA3(machineType)) then Refuse
    else if !HasPrefix(machineType, "n1-") && !IsA2(machineType) && !IsA3(machineType) then Refuse
    else if machineType in own then Examine(AsConfig(own[machineType]))
    else if machineType in n1 then
      assert machineType[0] == 'n';
      Examine(gpus[0])
    else Refuse
  }

  /**
   The right device, and nothing skipped by accident: validation is skipped exactly for machines
   without GPUs of their own or requested, and for a3-ultragpu; an N1 machine is checked for the
   GPU it asks for, an A2 or A3 machine for the one its type carries.
   */
  lemma RightDeviceIsExamined(machineType: string, gpus: seq<GpuConfig>, types: seq<MachineType>,
                              own: map<string, Accelerator>, n1: seq<string>)
    requires Divided(types, own, n1)
    ensures var d := Decide(machineType, gpus, own, n1);
      && (d == Skip <==>
            HasPrefix(machineType, "a3-ultragpu-") || (gpus == [] && !IsA2(machineType) && !IsA3(machineType)))
      && (d.Examine? && HasPrefix(machineType, "n1-") ==> gpus != [] && d.config == gpus[0])
      && (d.Examine? && !HasPrefix(machineType, "n1-") ==>
            && (IsA2(machineType) || IsA3(machineType)) && gpus == []
            && machineType in own && Carries(types, machineType, own[machineType])
            && d.config == GpuConfig(own[machineType].kind, Wrap32(own[machineType].count)))
      && (d.Examine? ==> IsListed(types, machineType))
      && (d == Refuse <==>
            && !HasPrefix(machineType, "a3-ultragpu-")
            && if gpus == [] then (IsA2(machineType) || IsA3(machineType)) && machineType !in own
               else !HasPrefix(machineType, "n1-") || machineType !in n1)
  {
    var d := Decide(machineType, gpus, own, n1);
    if HasPrefix(machineType, "n1-") {
      assert machineType[0] == 'n';
      assert machineType !in own;
    }
    if d.Examine? && machineType in own {
      var i :|
        IsListing(types, machineType, i) && types[i].accelerators != [] && own[machineType] == types[i].accelerators[0];
      assert types[i].name == machineType;
    }
  }

  // ----- checkQuota -----

  const SUPPORTED: map<string, string> := map[
    "nvidia-tesla-k80" := "NVIDIA_K80_GPUS",
    "nvidia-tesla-p100" := "NVIDIA_P100_GPUS",
    "nvidia-tesla-v100" := "NVIDIA_V100_GPUS",
    "nvidia-tesla-a100" := "NVIDIA_A100_GPUS",
    "nvidia-tesla-p4" := "NVIDIA_P4_GPUS",
    "nvidia-tesla-t4" := "NVIDIA_T4_GPUS",
    "nvidia-a100-80gb" := "NVIDIA_A100_80GB_GPUS",
    "nvidia-h100-mega-80gb" := "NVIDIA_H100_GPUS",
    "nvidia-h100-80gb" := "NVIDIA_H100_GPUS"]

  function MetricOf(kind: string, interruptible: bool): Option<string> {
    if kind !in SUPPORTED then None
    else if interruptible then Some("PREEMPTIBLE_" + SUPPORTED[kind])
    else Some(SUPPORTED[kind])
  }

  /** The accelerators that are supported, and the quota each draws on. */
  lemma SupportedKinds()
    ensures MetricOf("nvidia-tesla-k80", false) == Some("NVIDIA_K80_GPUS")
    ensures MetricOf("nvidia-tesla-p100", false) == Some("NVIDIA_P100_GPUS")
    ensures MetricOf("nvidia-tesla-v100", false) == Some("NVIDIA_V100_GPUS")
    ensures MetricOf("nvidia-tesla-a100", false) == Some("NVIDIA_A100_GPUS")
    ensures MetricOf("nvidia-tesla-p4", false) == Some("NVIDIA_P4_GPUS")
    ensures MetricOf("nvidia-tesla-t4", false) == Some("NVIDIA_T4_GPUS")
    ensures MetricOf("nvidia-a100-80gb", false) == Some("NVIDIA_A100_80GB_GPUS")
    ensures MetricOf("nvidia-h100-mega-80gb", false) == MetricOf("nvidia-h100-80gb", false) == Some("NVIDIA_H100_GPUS")
    ensures |SUPPORTED.Keys| <= 9
  {
  }

  /** checkQuota: accepted, or an invalid configuration. */
  predicate PassesQuota(offer: Offer, config: GpuConfig, interruptible: bool) {
    && offer.quotas.Some?
    && config.kind in offer.kinds
    && MetricOf(config.kind, interruptible).Some?
    && Admits(offer.quotas.value, MetricOf(config.kind, interruptible).value, config.count)
  }

  method CheckQuota(offer: Offer, guestAccelerators: seq<GpuConfig>, interruptible: bool) returns (accepted: bool)
    requires |guestAccelerators| > 0
    ensures accepted == PassesQuota(offer, guestAccelerators[0], interruptible)
  {
    if offer.quotas.None? {
      return false;
    }
    var accelerator := guestAccelerators[0];
    if accelerator.kind !in offer.kinds {
      return false;
    }
    if accelerator.kind !in SUPPORTED {
      return false;
    }
    var metric := SUPPORTED[accelerator.kind];
    if interruptible {
      metric := "PREEMPTIBLE_" + metric;
    }
    accepted := ScanQuotas(offer.quotas.value, metric, accelerator.count);
  }

  /** The metric an accelerator draws on. */
  function DrawnMetric(kind: string, interruptible: bool): string
    requires kind in SUPPORTED
  {
    (if interruptible then "PREEMPTIBLE_" else "") + SUPPORTED[kind]
  }

  ghost predicate IsFirstOf(quotas: seq<RegionQuota>, metric: string, i: int) {
    0 <= i < |quotas| && quotas[i].metric == metric && forall j :: 0 <= j < i ==> quotas[j].metric != metric
  }

  /**
   What passes the check: the region can be read, the accelerator is on offer in the zone and supported,
   and the first quota of its metric, if there is one, has room for the count or is past int32.
   */
  lemma PassesQuotaExactlyWhen(offer: Offer, config: GpuConfig, interruptible: bool)
    requires 0 <= config.count <= INT32_MAX
    requires offer.quotas.Some? && config.kind in SUPPORTED ==>
      Sane(offer.quotas.value, DrawnMetric(config.kind, interruptible))
    ensures PassesQuota(offer, config, interruptible) <==>
            && offer.quotas.Some? && config.kind in offer.kinds && config.kind in SUPPORTED
            && forall i :: IsFirstOf(offer.quotas.value, DrawnMetric(config.kind, interruptible), i) ==>
                 var q := offer.quotas.value[i];
                 q.usage + config.count as real <= q.limit || q.usage.Floor + config.count > INT32_MAX
  {
    if offer.quotas.Some? && config.kind in SUPPORTED {
      var quotas, metric := offer.quotas.value, DrawnMetric(config.kind, interruptible);
      assert "" + SUPPORTED[config.kind] == SUPPORTED[config.kind];
      var at := FirstOf(quotas, metric);
      if at.Some? {
        assert IsFirstOf(quotas, metric, at.value);
        WholeQuotas(quotas[at.value], config.count);
        assert forall i :: IsFirstOf(quotas, metric, i) ==> i == at.value;
      }
    }
  }

  // ----- validateGuestAccelerators -----

  /** What validation reads of a machine: the project its spec names, and the one it was resolved to. */
  datatype GpuMachine = GpuMachine(
    specProject: string, project: string, region: string, zone: string,
    machineType: string, gpus: seq<GpuConfig>, interruptible: bool)

  datatype GpuVerdict = Accepted | Refused | Panics | Exits

  /** Nothing to validate. */
  predicate Skipped(m: GpuMachine) {
    HasPrefix(m.machineType, "a3-ultragpu-") || (m.gpus == [] && !IsA2(m.machineType) && !IsA3(m.machineType))
  }

  /** The zone's listing is asked for: an N1 machine with GPUs, or an A2 or A3 machine without. */
  predicate NeedsListing(m: GpuMachine) {
    && !HasPrefix(m.machineType, "a3-ultragpu-")
    && if m.gpus == [] then IsA2(m.machineType) || IsA3(m.machineType) else HasPrefix(m.machineType, "n1-")
  }

  /**
   What passes, in terms of the zone's listing alone: an N1 machine of the zone whose requested GPU
   passes the quota check, or an A2 or A3 machine of the zone whose own accelerator, as last listed, does.
   */
  ghost predicate Acceptable(m: GpuMachine, types: seq<MachineType>, offer: Offer) {
    if m.gpus != [] then
      PassesQuota(offer, m.gpus[0], m.interruptible) && IsListed(types, m.machineType)
    else
      exists a :: Carries(types, m.machineType, a) && PassesQuota(offer, AsConfig(a), m.interruptible)
  }

  /** The listing is the one of the project the spec names; quotas and accelerator types are the resolved project's. */
  ghost function Validation(c: ComputeAnswers, m: GpuMachine): GpuVerdict {
    var listing := ListingOf(c, m.specProject, m.zone);
    var types := Flatten(listing.pages);
    if Skipped(m) then Accepted
    else if !NeedsListing(m) then Refused
    else if !Equipped(types) then Panics
    else if !listing.complete then Exits
    else if Acceptable(m, types, OfferOf(c, m.project, m.region, m.zone)) then Accepted
    else Refused
  }

  lemma OneLastListing(types: seq<MachineType>, name: string, a: Accelerator, b: Accelerator)
    requires Carries(types, name, a) && Carries(types, name, b)
    ensures a == b
  {
    var i :| IsListing(types, name, i) && types[i].accelerators != [] && a == types[i].accelerators[0];
    var j :| IsListing(types, name, j) && types[j].accelerators != [] && b == types[j].accelerators[0];
    assert i == j;
  }

  /** Where the listing is asked for, the decision over the two lists is acceptance over the listing. */
  lemma DecisionMeetsListing(m: GpuMachine, types: seq<MachineType>, offer: Offer,
                             own: map<string, Accelerator>, n1: seq<string>)
    requires Divided(types, own, n1) && NeedsListing(m)
    ensures var d := Decide(m.machineType, m.gpus, own, n1);
      Acceptable(m, types, offer) <==> d.Examine? && PassesQuota(offer, d.config, m.interruptible)
  {
    RightDeviceIsExamined(m.machineType, m.gpus, types, own, n1);
    if m.gpus != [] {
      assert m.machineType[0] == 'n' && m.machineType[1] == '1';
    } else {
      assert m.machineType[0] == 'a' && InA2OrA3(m.machineType);
      forall a | Carries(types, m.machineType, a)
        ensures m.machineType in own && a == own[m.machineType]
      {
        OneLastListing(types, m.machineType, a, own[m.machineType]);
      }
    }
  }

  /**
   validateGuestAccelerators as written: total but for the panic and the exit inside the listing, and
   the list handed to checkQuota is never empty.
   */
  method ValidateGuestAccelerators(c: ComputeAnswers, m: GpuMachine) returns (verdict: GpuVerdict)
    ensures verdict == Validation(c, m)
  {
    var a2, a3 := HasPrefix(m.machineType, "a2-"), HasPrefix(m.machineType, "a3-");
    if (|m.gpus| == 0 && !a2 && !a3) || HasPrefix(m.machineType, "a3-ultragpu-") {
      return Accepted;
    }
    if |m.gpus| > 0 && (a2 || a3) {
      assert m.machineType[0] == 'a';
      return Refused;
    }
    if !HasPrefix(m.machineType, "n1-") && !a2 && !a3 {
      return Refused;
    }
    var lists := GpuCompatibleMachineTypes(ListingOf(c, m.specProject, m.zone));
    if lists.ListingPanics? {
      return Panics;
    }
    if lists.ListingExits? {
      return Exits;
    }
    var offer := OfferOf(c, m.project, m.region, m.zone);
    DecisionMeetsListing(m, Flatten(ListingOf(c, m.specProject, m.zone).pages), offer, lists.own, lists.n1);
    var accepted := false;
    if m.machineType in lists.own {
      var info := lists.own[m.machineType];
      accepted := CheckQuota(offer, [GpuConfig(info.kind, Wrap32(info.count))], m.interruptible);
    } else if m.machineType in lists.n1 {
      assert m.machineType[0] == 'n';
      accepted := CheckQuota(offer, m.gpus, m.interruptible);
    }
    return if accepted then Accepted else Refused;
  }

  /**
   The exact condition for each way out: validation panics exactly on a listing that holds a bare A2
   or A3 type, of whatever machine; the process exits exactly when the listing fails without one; and
   it refuses without asking exactly the machines that can carry no GPU as requested.
   */
  lemma ValidationWaysOut(c: ComputeAnswers, m: GpuMachine)
    ensures var listing := ListingOf(c, m.specProject, m.zone);
      var own := HasPrefix(m.machineType, "a2-") || HasPrefix(m.machineType, "a3-");
      var skips := HasPrefix(m.machineType, "a3-ultragpu-") || (m.gpus == [] && !own);
      var asks := !skips && if m.gpus == [] then own else HasPrefix(m.machineType, "n1-");
      && (Validation(c, m) == Panics <==> asks && ListsBareType(listing))
      && (Validation(c, m) == Exits <==> asks && !ListsBareType(listing) && !listing.complete)
      && (skips ==> Validation(c, m) == Accepted)
      && (!skips && !asks ==> Validation(c, m) == Refused)
  {
    var types := Flatten(ListingOf(c, m.specProject, m.zone).pages);
    assert Equipped(types) <==> !ListsBareType(ListingOf(c, m.specProject, m.zone)) by {
      assert forall i :: 0 <= i < |types| ==>
          (Bare(types[i]) <==>
             (HasPrefix(types[i].name, "a2") || HasPrefix(types[i].name, "a3")) && types[i].accelerators == []);
    }
    if HasPrefix(m.machineType, "n1-") {
      assert m.machineType[0] == 'n' && !IsA2(m.machineType) && !IsA3(m.machineType);
    }
  }

  /** Some A2 or A3 type of the listing has no accelerators. */
  ghost predicate ListsBareType(listing: Listing) {
    var types := Flatten(listing.pages);
    exists i :: 0 <= i < |types| && types[i].accelerators == [] &&
      (HasPrefix(types[i].name, "a2") || HasPrefix(types[i].name, "a3"))
  }

  ghost predicate SameAt<V(!new)>(m: map<Place, V>, m': map<Place, V>, p: Place) {
    (p in m <==> p in m') && (p in m ==> m[p] == m'[p])
  }

  /**
   What validation reads, and nothing else: the machine types of the spec's project and the zone, the
   accelerator types of the resolved project and the zone, the quotas of the resolved project and the region.
   */
  lemma ValidationReads(c: ComputeAnswers, c': ComputeAnswers, m: GpuMachine)
    requires SameAt(c.listings, c'.listings, Place(m.specProject, m.zone))
    requires SameAt(c.kinds, c'.kinds, Place(m.project, m.zone))
    requires SameAt(c.quotas, c'.quotas, Place(m.project, m.region))
    ensures Validation(c, m) == Validation(c', m)
  {
    assert ListingOf(c, m.specProject, m.zone) == ListingOf(c', m.specProject, m.zone);
    assert OfferOf(c, m.project, m.region, m.zone) == OfferOf(c', m.project, m.region, m.zone);
  }

  /**
   The types consulted are not those of the project the instance is made in: what validation says is
   what the resolved project's listing would make it say, whatever the services answer, exactly when
   the spec names that project or no listing is needed.
   */
  lemma ListingIsTheInstancesExactlyWhen(m: GpuMachine)
    ensures (forall c :: Validation(c, m) == Validation(c, m.(specProject := m.project))) <==>
            m.specProject == m.project || !NeedsListing(m)
  {
    if m.specProject != m.project && NeedsListing(m) {
      var c := ComputeAnswers(map[Place(m.project, m.zone) := Listing([], true)], map[], map[]);
      assert Validation(c, m) == Exits;
      assert Flatten([]) == [];
      assert Validation(c, m.(specProject := m.project)) != Exits;
    }
  }

  /** Interruptible instances draw on quotas of their own. */
  lemma InterruptibleQuotasAreSeparate(kind: string, kind': string)
    requires kind in SUPPORTED && kind' in SUPPORTED
    ensures MetricOf(kind, true) != MetricOf(kind', false)
  {
    assert forall k :: k in SUPPORTED ==> SUPPORTED[k][0] == 'N';
    assert ("PREEMPTIBLE_" + SUPPORTED[kind])[0] == 'P';
  }
}
