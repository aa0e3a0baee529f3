/**
 User-defined labels and resource-manager tags: merging by precedence, limits, and the resolution
 of tags to the names the compute API expects.
 */
module LabelsAndTags {
  import opened Common
  import Text

  // ----- labels -----

  const LABEL_LIMIT := 32

  datatype KeyValue = KeyValue(key: string, value: string)

  /** The cluster's Infrastructure object, as far as it is read here; None when it could not be read. */
  datatype Infrastructure = Infrastructure(labels: seq<KeyValue>, tags: seq<Tag>)

  /** getInfraResourceLabels: the last entry of a key wins. */
  function InfraLabels(list: seq<KeyValue>): map<string, string> {
    if list == [] then map[] else InfraLabels(list[..|list| - 1])[list[|list| - 1].key := list[|list| - 1].value]
  }

  method GetInfraResourceLabels(list: seq<KeyValue>) returns (labels: map<string, string>)
    ensures labels == InfraLabels(list)
  {
    labels := map[];
    for i := 0 to |list|
      invariant labels == InfraLabels(list[..i])
    {
      assert list[..i + 1][..i] == list[..i];
      labels := labels[list[i].key := list[i].value];
    }
    assert list[..|list|] == list;
  }

  /** Entry i is the last of its key. */
  ghost predicate IsLastOfKey(list: seq<KeyValue>, key: string, i: int) {
    0 <= i < |list| && list[i].key == key && forall j :: i < j < |list| ==> list[j].key != key
  }

  /** Every key of the list, and no other, with the value of its last entry. */
  lemma {:induction false} InfraLabelsMeans(list: seq<KeyValue>, key: string)
    ensures key in InfraLabels(list) <==> exists i :: IsLastOfKey(list, key, i)
    ensures forall i :: IsLastOfKey(list, key, i) ==>
        key in InfraLabels(list) && InfraLabels(list)[key] == list[i].value
  {
    if list == [] {
    } else {
      var before, last := list[..|list| - 1], list[|list| - 1];
      InfraLabelsMeans(before, key);
      if last.key == key {
        assert IsLastOfKey(list, key, |list| - 1);
      } else {
        assert forall i :: IsLastOfKey(before, key, i) <==> IsLastOfKey(list, key, i);
      }
    }
  }

  function OcpLabels(clusterId: string): map<string, string> {
    map["kubernetes-io-cluster-" + clusterId := "owned"]
  }

  /** Copies one map over another, key by key in whatever order. */
  method CopyOver(into: map<string, string>, from: map<string, string>) returns (labels: map<string, string>)
    ensures labels == into + from
  {
    labels := into;
    var left := from.Keys;
    while left != {}
      invariant left <= from.Keys
      invariant labels.Keys == into.Keys + (from.Keys - left)
      invariant forall k :: k in labels ==> labels[k] == if k in from && k !in left then from[k] else into[k]
      decreases left
    {
      var k :| k in left;
      labels := labels[k := from[k]];
      left := left - {k};
    }
  }

  function Merged(ocp: map<string, string>, spec: map<string, string>, infra: map<string, string>)
    : map<string, string>
  {
    infra + spec + ocp
  }

  method MergeLabels(ocp: map<string, string>, spec: map<string, string>, infra: map<string, string>)
    returns (labels: map<string, string>)
    ensures labels == Merged(ocp, spec, infra)
  {
    labels := CopyOver(map[], infra);
    assert labels == infra;
    labels := CopyOver(labels, spec);
    labels := CopyOver(labels, ocp);
  }

  /** The value a key gets: OpenShift's own, else the provider spec's, else the infrastructure's. */
  ghost function Preferred(ocp: map<string, string>, spec: map<string, string>, infra: map<string, string>, key: string)
    : Option<string>
  {
    if key in ocp then Some(ocp[key])
    else if key in spec then Some(spec[key])
    else if key in infra then Some(infra[key])
    else None
  }

  /** GetLabelsList: the merged labels; none when the limit is passed or the infrastructure cannot be read. */
  function LabelsList(clusterId: string, spec: map<string, string>, infra: Option<Infrastructure>)
    : Option<map<string, string>>
  {
    if infra.None? then None
    else
      var ocp := OcpLabels(clusterId);
      var labels := Merged(ocp, spec, InfraLabels(infra.value.labels));
      if |ocp| > LABEL_LIMIT || |labels| - |ocp| > LABEL_LIMIT then None else Some(labels)
  }

  method GetLabelsList(clusterId: string, spec: map<string, string>, infra: Option<Infrastructure>)
    returns (r: Option<map<string, string>>)
    ensures r == LabelsList(clusterId, spec, infra)
  {
    var ocp := OcpLabels(clusterId);
    if infra.None? {
      return None;
    }
    var fromInfra := GetInfraResourceLabels(infra.value.labels);
    var labels := MergeLabels(ocp, spec, fromInfra);
    if |ocp| > LABEL_LIMIT || |labels| - |ocp| > LABEL_LIMIT {
      return None;
    }
    return Some(labels);
  }

  /** Merging counts each key once: what is over the own labels are the other user keys. */
  lemma CountOverOwn(ocp: map<string, string>, spec: map<string, string>, infra: map<string, string>)
    ensures |Merged(ocp, spec, infra).Keys| == |(spec.Keys + infra.Keys) - ocp.Keys| + |ocp.Keys|
  {
    var others := (spec.Keys + infra.Keys) - ocp.Keys;
    assert Merged(ocp, spec, infra).Keys == others + ocp.Keys && others !! ocp.Keys;
  }

  lemma MergedPrefers(ocp: map<string, string>, spec: map<string, string>, infra: map<string, string>, key: string)
    ensures var labels := Merged(ocp, spec, infra);
      (if key in labels then Some(labels[key]) else None) == Preferred(ocp, spec, infra, key)
  {
  }

  /** The keys a user set, on the machine or on the cluster, besides the cluster's own label. */
  ghost function UserKeys(clusterId: string, spec: map<string, string>, infra: Infrastructure): set<string> {
    (spec.Keys + InfraLabels(infra.labels).Keys) - OcpLabels(clusterId).Keys
  }

  /**
   The list is refused exactly when the infrastructure cannot be read or the distinct user keys other
   than the cluster's own label exceed the limit; otherwise every key has its preferred value and the
   ownership label is there.
   */
  lemma LabelsTheorem(clusterId: string, spec: map<string, string>, infra: Option<Infrastructure>, key: string)
    ensures var own := OcpLabels(clusterId);
      var r := LabelsList(clusterId, spec, infra);
      && (r.Some? <==> infra.Some? && |UserKeys(clusterId, spec, infra.value)| <= 32)
      && (r.Some? ==>
            (if key in r.value then Some(r.value[key]) else None) ==
            Preferred(own, spec, InfraLabels(infra.value.labels), key))
      && (r.Some? ==>
            "kubernetes-io-cluster-" + clusterId in r.value && r.value["kubernetes-io-cluster-" + clusterId] == "owned")
  {
    if infra.Some? {
      var own, fromInfra := OcpLabels(clusterId), InfraLabels(infra.value.labels);
      CountOverOwn(own, spec, fromInfra);
      MergedPrefers(own, spec, fromInfra, key);
      assert |own| == |own.Keys| == 1;
      assert |Merged(own, spec, fromInfra)| == |Merged(own, spec, fromInfra).Keys|;
    }
  }

  // ----- tags -----

  const TAG_LIMIT := 50

  datatype Tag = Tag(parentId: string, key: string, value: string)

  predicate SamePair(a: Tag, b: Tag) {
    a.parentId == b.parentId && a.key == b.key
  }

  predicate Shadowed(tag: Tag, specTags: seq<Tag>) {
    exists i :: 0 <= i < |specTags| && SamePair(tag, specTags[i])
  }

  function Unshadowed(infra: seq<Tag>, specTags: seq<Tag>): (r: seq<Tag>)
    ensures forall tag :: tag in r <==> tag in infra && !Shadowed(tag, specTags)
  {
    if infra == [] then []
    else
      assert infra == infra[..|infra| - 1] + [infra[|infra| - 1]];
      Unshadowed(infra[..|infra| - 1], specTags) +
      if Shadowed(infra[|infra| - 1], specTags) then [] else [infra[|infra| - 1]]
  }

  function MergedTags(infra: seq<Tag>, specTags: seq<Tag>): seq<Tag> {
    specTags + Unshadowed(infra, specTags)
  }

  lemma {:induction false} UnshadowedConcat(infra: seq<Tag>, more: seq<Tag>, specTags: seq<Tag>)
    ensures Unshadowed(infra + more, specTags) == Unshadowed(infra, specTags) + Unshadowed(more, specTags)
    decreases |more|
  {
    if more == [] {
      assert infra + more == infra;
    } else {
      assert (infra + more)[..|infra + more| - 1] == infra + more[..|more| - 1];
      UnshadowedConcat(infra, more[..|more| - 1], specTags);
    }
  }

  lemma UnshadowedOne(tag: Tag, specTags: seq<Tag>)
    ensures Unshadowed([tag], specTags) == if Shadowed(tag, specTags) then [] else [tag]
  {
    assert [tag][..0] == [];
  }

  /** The spec's tags come first, then the infrastructure's that no spec tag shadows, one after the other. */
  lemma MergedInOrder(infra: seq<Tag>, tag: Tag, specTags: seq<Tag>)
    ensures MergedTags([], specTags) == specTags
    ensures var shadowed := exists i ::
              0 <= i < |specTags| && specTags[i].parentId == tag.parentId && specTags[i].key == tag.key;
      MergedTags(infra + [tag], specTags) == MergedTags(infra, specTags) + if shadowed then [] else [tag]
  {
    assert Shadowed(tag, specTags) <==>
           exists i :: 0 <= i < |specTags| && specTags[i].parentId == tag.parentId && specTags[i].key == tag.key;
    UnshadowedConcat(infra, [tag], specTags);
    UnshadowedOne(tag, specTags);
    ConcatAssociates(specTags, Unshadowed(infra, specTags), Unshadowed([tag], specTags));
  }

  lemma ConcatAssociates(a: seq<Tag>, b: seq<Tag>, c: seq<Tag>)
    ensures a + (b + c) == a + b + c
  {
  }

  /** The inner loop over the spec's tags. */
  method IsShadowed(tag: Tag, specTags: seq<Tag>) returns (shadowed: bool)
    ensures shadowed == Shadowed(tag, specTags)
  {
    for j := 0 to |specTags|
      invariant forall k :: 0 <= k < j ==> !SamePair(tag, specTags[k])
    {
      if SamePair(tag, specTags[j]) {
        return true;
      }
    }
    return false;
  }

  method MergeInfraProviderSpecTags(infra: seq<Tag>, specTags: seq<Tag>) returns (merged: seq<Tag>)
    ensures merged == MergedTags(infra, specTags)
  {
    merged := [];
    for i := 0 to |specTags|
      invariant merged == specTags[..i]
    {
      merged := merged + [specTags[i]];
    }
    assert specTags[..|specTags|] == specTags;
    for i := 0 to |infra|
      invariant merged == specTags + Unshadowed(infra[..i], specTags)
    {
      assert infra[..i + 1][..i] == infra[..i];
      var shadowed := IsShadowed(infra[i], specTags);
      if !shadowed {
        merged := merged + [infra[i]];
      }
    }
    assert infra[..|infra|] == infra;
  }

  function NameOf(tag: Tag): string {
    Text.Join([tag.parentId, tag.key, tag.value], '/')
  }

  /** A tag is looked up by its parent, its key and its value. */
  lemma NameParts(tag: Tag)
    requires '/' !in tag.parentId && '/' !in tag.key && '/' !in tag.value
    ensures Text.Split(NameOf(tag), '/') == [tag.parentId, tag.key, tag.value]
  {
    Text.SplitOfJoin([tag.parentId, tag.key, tag.value], '/');
  }

  /** What the tag service knows of a namespaced name. */
  datatype TagAnswer =
    | Resolved(keyName: string, valueName: string)
    | Inaccessible          // HTTP 403 or 404
    | Unavailable           // any other failure

  datatype TagResult =
    | Bound(names: map<string, string>)
    | MissingTags(missing: seq<string>)  // invalid configuration
    | FetchFailed(name: string)
    | TooManyTags
    | InfrastructureUnreadable

  function Answer(service: map<string, TagAnswer>, tag: Tag): TagAnswer {
    if NameOf(tag) in service then service[NameOf(tag)] else Inaccessible
  }

  /** The names of the inaccessible tags, in list order. */
  function InaccessibleNames(service: map<string, TagAnswer>, tags: seq<Tag>): seq<string> {
    if tags == [] then []
    else InaccessibleNames(service, tags[..|tags| - 1]) +
         if Answer(service, tags[|tags| - 1]).Inaccessible? then [NameOf(tags[|tags| - 1])] else []
  }

  /** The resolved names: the last tag of a key name wins. */
  function Bindings(service: map<string, TagAnswer>, tags: seq<Tag>): map<string, string> {
    if tags == [] then map[]
    else
      var last := Answer(service, tags[|tags| - 1]);
      var before := Bindings(service, tags[..|tags| - 1]);
      if last.Resolved? then before[last.keyName := last.valueName] else before
  }

  /**
   The first unavailable tag aborts; otherwise all inaccessible ones are reported together; otherwise all are bound.
   */
  function TagValuesNames(service: map<string, TagAnswer>, tags: seq<Tag>): TagResult {
    match FirstIndex(tags, (tag: Tag) => Answer(service, tag).Unavailable?)
    case Some(i) => FetchFailed(NameOf(tags[i]))
    case None =>
      if InaccessibleNames(service, tags) != [] then MissingTags(InaccessibleNames(service, tags))
      else Bound(Bindings(service, tags))
  }

  method GetTagValuesNames(service: map<string, TagAnswer>, tags: seq<Tag>) returns (r: TagResult)
    ensures r == TagValuesNames(service, tags)
  {
    var inaccessible: seq<string> := [];
    var names: map<string, string> := map[];
    for i := 0 to |tags|
      invariant inaccessible == InaccessibleNames(service, tags[..i])
      invariant names == Bindings(service, tags[..i])
      invariant forall j :: 0 <= j < i ==> !Answer(service, tags[j]).Unavailable?
    {
      assert tags[..i + 1][..i] == tags[..i];
      var answer := Answer(service, tags[i]);
      match answer
      case Inaccessible => inaccessible := inaccessible + [NameOf(tags[i])];
      case Unavailable => return FetchFailed(NameOf(tags[i]));
      case Resolved(keyName, valueName) => names := names[keyName := valueName];
    }
    assert tags[..|tags|] == tags;
    if |inaccessible| != 0 {
      return MissingTags(inaccessible);
    }
    return Bound(names);
  }

  /** GetResourceManagerTags. */
  function ManagerTags(service: map<string, TagAnswer>, infra: Option<Infrastructure>, specTags: seq<Tag>): TagResult {
    if infra.None? then InfrastructureUnreadable
    else if infra.value.tags == [] && specTags == [] then Bound(map[])
    else if |MergedTags(infra.value.tags, specTags)| > TAG_LIMIT then TooManyTags
    else TagValuesNames(service, MergedTags(infra.value.tags, specTags))
  }

  method GetResourceManagerTags(service: map<string, TagAnswer>, infra: Option<Infrastructure>, specTags: seq<Tag>)
    returns (r: TagResult)
    ensures r == ManagerTags(service, infra, specTags)
  {
    if infra.None? {
      return InfrastructureUnreadable;
    }
    if |infra.value.tags| == 0 && |specTags| == 0 {
      return Bound(map[]);
    }
    var merged := MergeInfraProviderSpecTags(infra.value.tags, specTags);
    if |merged| > TAG_LIMIT {
      return TooManyTags;
    }
    r := GetTagValuesNames(service, merged);
  }

  /** Tag i is the first that the service could not answer for. */
  ghost predicate FirstUnavailable(service: map<string, TagAnswer>, tags: seq<Tag>, i: int) {
    && 0 <= i < |tags| && Answer(service, tags[i]).Unavailable?
    && forall j :: 0 <= j < i ==> !Answer(service, tags[j]).Unavailable?
  }

  /**
   Each result, exactly: bindings if and only if at most fifty merged tags all resolve; the
   configuration error lists exactly the inaccessible names in order, and only when nothing was
   unavailable; the first unavailable tag is named.
   */
  lemma TagsTheorem(service: map<string, TagAnswer>, infra: Option<Infrastructure>, specTags: seq<Tag>)
    requires infra.Some?
    ensures var r := ManagerTags(service, infra, specTags);
      var merged := MergedTags(infra.value.tags, specTags);
      && (r.TooManyTags? <==> |merged| > 50)
      && (r.Bound? <==> |merged| <= 50 && forall i :: 0 <= i < |merged| ==> Answer(service, merged[i]).Resolved?)
      && (r.Bound? ==> r.names == Bindings(service, merged))
      && (r.MissingTags? ==> r.missing == InaccessibleNames(service, merged) && r.missing != [])
      && (r.FetchFailed? ==> exists i :: FirstUnavailable(service, merged, i) && r.name == NameOf(merged[i]))
      && (r.MissingTags? || r.Bound? ==> forall i :: 0 <= i < |merged| ==> !Answer(service, merged[i]).Unavailable?)
  {
    var merged := MergedTags(infra.value.tags, specTags);
    var first := FirstIndex(merged, (tag: Tag) => Answer(service, tag).Unavailable?);
    if first.Some? {
      assert FirstUnavailable(service, merged, first.value);
    } else if InaccessibleNames(service, merged) == [] {
      forall i | 0 <= i < |merged|
        ensures Answer(service, merged[i]).Resolved?
      {
        InaccessibleIsNamed(service, merged, merged[i]);
      }
    } else {
      NamedIsInaccessible(service, merged);
    }
  }

  /** The names are collected tag by tag, in list order. */
  lemma {:induction false} InaccessibleInOrder(service: map<string, TagAnswer>, tags: seq<Tag>, tag: Tag,
                                               more: seq<Tag>)
    ensures InaccessibleNames(service, [tag]) == if Answer(service, tag).Inaccessible? then [NameOf(tag)] else []
    ensures InaccessibleNames(service, tags + more) ==
            InaccessibleNames(service, tags) + InaccessibleNames(service, more)
    decreases |more|
  {
    assert [tag][..0] == [];
    if more == [] {
      assert tags + more == tags;
    } else {
      assert (tags + more)[..|tags + more| - 1] == tags + more[..|more| - 1];
      InaccessibleInOrder(service, tags, tag, more[..|more| - 1]);
    }
  }

  /** Nothing is bound but what some tag of the list resolves to. */
  lemma {:induction false} OnlyTagsAreBound(service: map<string, TagAnswer>, tags: seq<Tag>, keyName: string)
    requires keyName in Bindings(service, tags)
    ensures exists i ::
              0 <= i < |tags| && Answer(service, tags[i]) == Resolved(keyName, Bindings(service, tags)[keyName])
  {
    var before, last := tags[..|tags| - 1], tags[|tags| - 1];
    if Answer(service, last).Resolved? && Answer(service, last).keyName == keyName {
      assert Answer(service, tags[|tags| - 1]) == Resolved(keyName, Bindings(service, tags)[keyName]);
    } else {
      OnlyTagsAreBound(service, before, keyName);
      var i :| 0 <= i < |before| && Answer(service, before[i]) == Resolved(keyName, Bindings(service, before)[keyName]);
      assert Answer(service, tags[i]) == Resolved(keyName, Bindings(service, tags)[keyName]);
    }
  }

  lemma {:induction false} NamedIsInaccessible(service: map<string, TagAnswer>, tags: seq<Tag>)
    requires InaccessibleNames(service, tags) != []
    ensures exists i :: 0 <= i < |tags| && Answer(service, tags[i]).Inaccessible?
  {
    if Answer(service, tags[|tags| - 1]).Inaccessible? {
    } else {
      NamedIsInaccessible(service, tags[..|tags| - 1]);
      var i :| 0 <= i < |tags| - 1 && Answer(service, tags[..|tags| - 1][i]).Inaccessible?;
      assert Answer(service, tags[i]).Inaccessible?;
    }
  }

  lemma {:induction false} InaccessibleIsNamed(service: map<string, TagAnswer>, tags: seq<Tag>, tag: Tag)
    requires tag in tags && InaccessibleNames(service, tags) == []
    ensures !Answer(service, tag).Inaccessible?
  {
    var last := tags[|tags| - 1];
    if tag == last {
    } else {
      assert tags == tags[..|tags| - 1] + [last];
      InaccessibleIsNamed(service, tags[..|tags| - 1], tag);
    }
  }

  /** Different (parent, key) pairs of the list resolve to different key names. */
  ghost predicate PairsResolveApart(service: map<string, TagAnswer>, tags: seq<Tag>) {
    forall a, b ::
      a in tags && b in tags && Answer(service, a).Resolved? && Answer(service, b).Resolved? && !SamePair(a, b) ==>
        Answer(service, a).keyName != Answer(service, b).keyName
  }

  /** Tag i is the last of its pair. */
  ghost predicate LastOfPair(tags: seq<Tag>, i: int) {
    0 <= i < |tags| && forall j :: i < j < |tags| ==> !SamePair(tags[i], tags[j])
  }

  /** The last tag of each pair decides the binding of its key. */
  lemma {:induction false} LastOfPairIsBound(service: map<string, TagAnswer>, tags: seq<Tag>, i: nat)
    requires PairsResolveApart(service, tags) && LastOfPair(tags, i) && Answer(service, tags[i]).Resolved?
    ensures var a := Answer(service, tags[i]);
      a.keyName in Bindings(service, tags) && Bindings(service, tags)[a.keyName] == a.valueName
  {
    if i == |tags| - 1 {
    } else {
      var before := tags[..|tags| - 1];
      assert forall tag :: tag in before ==> tag in tags;
      assert LastOfPair(before, i);
      LastOfPairIsBound(service, before, i);
      assert tags[|tags| - 1] in tags && tags[i] in tags && !SamePair(tags[i], tags[|tags| - 1]);
    }
  }

  ghost predicate NoRepeatedPair(tags: seq<Tag>) {
    forall i, j :: 0 <= i < j < |tags| ==> !SamePair(tags[i], tags[j])
  }

  lemma SpecTagIsLast(infra: seq<Tag>, specTags: seq<Tag>, i: nat)
    requires NoRepeatedPair(specTags) && i < |specTags|
    ensures LastOfPair(MergedTags(infra, specTags), i)
  {
    var merged := MergedTags(infra, specTags);
    forall j | i < j < |merged|
      ensures !SamePair(merged[i], merged[j])
    {
      if j >= |specTags| {
        assert merged[j] == Unshadowed(infra, specTags)[j - |specTags|];
        assert merged[j] in Unshadowed(infra, specTags);
        assert !Shadowed(merged[j], specTags);
        assert SamePair(merged[i], merged[j]) ==> SamePair(merged[j], specTags[i]);
      }
    }
  }

  /** Dropping shadowed tags keeps the last tag of every other pair last. */
  lemma {:induction false} LastStaysLast(infra: seq<Tag>, specTags: seq<Tag>, i: nat) returns (k: nat)
    requires LastOfPair(infra, i) && !Shadowed(infra[i], specTags)
    ensures LastOfPair(Unshadowed(infra, specTags), k) && Unshadowed(infra, specTags)[k] == infra[i]
  {
    var before := infra[..|infra| - 1];
    if i == |infra| - 1 {
      k := |Unshadowed(before, specTags)|;
    } else {
      assert LastOfPair(before, i);
      k := LastStaysLast(before, specTags, i);
    }
  }

  /** The bindings hold what the tag resolves to. */
  ghost predicate Holds(service: map<string, TagAnswer>, names: map<string, string>, tag: Tag) {
    var a := Answer(service, tag);
    a.Resolved? && a.keyName in names && names[a.keyName] == a.valueName
  }

  /**
   Resolution refines precedence: if pairs resolve apart and the spec repeats none, the bindings hold
   every spec tag, and of every infrastructure pair that the spec does not shadow, the last tag.
   */
  lemma PrecedenceIsKept(service: map<string, TagAnswer>, infra: seq<Tag>, specTags: seq<Tag>)
    requires PairsResolveApart(service, MergedTags(infra, specTags)) && NoRepeatedPair(specTags)
    requires forall tag :: tag in MergedTags(infra, specTags) ==> Answer(service, tag).Resolved?
    ensures forall i :: 0 <= i < |specTags| ==>
        Holds(service, Bindings(service, MergedTags(infra, specTags)), specTags[i])
    ensures forall i :: LastOfPair(infra, i) && !Shadowed(infra[i], specTags) ==>
              Holds(service, Bindings(service, MergedTags(infra, specTags)), infra[i])
  {
    var merged := MergedTags(infra, specTags);
    forall i | 0 <= i < |specTags|
      ensures Holds(service, Bindings(service, merged), specTags[i])
    {
      SpecTagIsLast(infra, specTags, i);
      assert merged[i] == specTags[i] && merged[i] in merged;
      LastOfPairIsBound(service, merged, i);
    }
    forall i | LastOfPair(infra, i) && !Shadowed(infra[i], specTags)
      ensures Holds(service, Bindings(service, merged), infra[i])
    {
      var k := LastStaysLast(infra, specTags, i);
      var at := |specTags| + k;
      assert forall j :: 0 <= j < |Unshadowed(infra, specTags)| ==>
          merged[|specTags| + j] == Unshadowed(infra, specTags)[j];
      assert merged[at] == infra[i] && merged[at] in merged;
      forall j | at < j < |merged|
        ensures !SamePair(merged[at], merged[j])
      {
        assert merged[j] == Unshadowed(infra, specTags)[j - |specTags|];
      }
      LastOfPairIsBound(service, merged, at);
    }
  }
}
