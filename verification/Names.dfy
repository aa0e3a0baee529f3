/**
 Names and links the controller formats for cloud resources.
 */
module Names {
  import opened Text

  const COMPUTE_PROJECTS := "https://www.googleapis.com/compute/v1/projects/"

  function InstanceLink(project: string, zone: string, name: string): string {
    COMPUTE_PROJECTS + (project + "/" + ("zones" + "/" + (zone + "/" + ("instances" + "/" + name))))
  }

  function GroupName(cluster: string, zone: string): string {
    cluster + "-master-" + zone
  }

  function GroupLink(project: string, zone: string, cluster: string): string {
    COMPUTE_PROJECTS +
    (project + "/" + ("zones" + "/" + (zone + "/" + ("instanceGroups" + "/" + GroupName(cluster, zone)))))
  }

  function BackendServiceName(cluster: string): string {
    cluster + "-api-internal"
  }

  function ProviderId(project: string, zone: string, name: string): string {
    "gce://" + (project + "/" + (zone + "/" + name))
  }

  /** A text of five segments. */
  lemma FiveParts(a: string, b: string, c: string, d: string, e: string)
    requires '/' !in a && '/' !in b && '/' !in c && '/' !in d && '/' !in e
    ensures Split(a + "/" + (b + "/" + (c + "/" + (d + "/" + e))), '/') == [a, b, c, d, e]
  {
    SplitOfSegment(a, '/', b + "/" + (c + "/" + (d + "/" + e)));
    SplitOfSegment(b, '/', c + "/" + (d + "/" + e));
    SplitOfSegment(c, '/', d + "/" + e);
    SplitOfSegment(d, '/', e);
    SplitOfFree(e, '/');
  }

  /** After the base of the compute API, a link has the project, the zone and the instance as its segments. */
  lemma InstanceLinkParts(project: string, zone: string, name: string)
    requires '/' !in project && '/' !in zone && '/' !in name
    ensures var base := "https://www.googleapis.com/compute/v1/projects/";
      && HasPrefix(InstanceLink(project, zone, name), base)
      && Split(InstanceLink(project, zone, name)[|base|..], '/') == [project, "zones", zone, "instances", name]
  {
    FiveParts(project, "zones", zone, "instances", name);
    assert InstanceLink(project, zone, name)[|COMPUTE_PROJECTS|..] ==
           project + "/" + ("zones" + "/" + (zone + "/" + ("instances" + "/" + name)));
  }

  lemma GroupLinkParts(project: string, zone: string, cluster: string)
    requires '/' !in project && '/' !in zone && '/' !in cluster
    ensures var base := "https://www.googleapis.com/compute/v1/projects/";
      && HasPrefix(GroupLink(project, zone, cluster), base)
      && Split(GroupLink(project, zone, cluster)[|base|..], '/') ==
         [project, "zones", zone, "instanceGroups", cluster + "-master-" + zone]
  {
    var group := GroupName(cluster, zone);
    FiveParts(project, "zones", zone, "instanceGroups", group);
    assert GroupLink(project, zone, cluster)[|COMPUTE_PROJECTS|..] ==
           project + "/" + ("zones" + "/" + (zone + "/" + ("instanceGroups" + "/" + group)));
  }

  /** A provider ID has the project, the zone and the name as its segments. */
  lemma ProviderIdParts(project: string, zone: string, name: string)
    requires '/' !in project && '/' !in zone && '/' !in name
    ensures HasPrefix(ProviderId(project, zone, name), "gce://")
    ensures Split(ProviderId(project, zone, name)[6..], '/') == [project, zone, name]
  {
    SplitOfSegment(project, '/', zone + "/" + name);
    SplitOfSegment(zone, '/', name);
    SplitOfFree(name, '/');
    assert ProviderId(project, zone, name)[6..] == project + "/" + (zone + "/" + name);
  }

  /** Within one cluster, two zones never share a control-plane group link: the link holds the zone twice. */
  lemma GroupLinkInjective(project: string, cluster: string, zone: string, zone': string)
    requires GroupLink(project, zone, cluster) == GroupLink(project, zone', cluster)
    ensures zone == zone'
  {
    var mid := "instanceGroups" + "/";
    var rest, rest' := mid + GroupName(cluster, zone), mid + GroupName(cluster, zone');
    var x, x' := "zones" + "/" + (zone + "/" + rest), "zones" + "/" + (zone' + "/" + rest');
    SameTail(COMPUTE_PROJECTS, project + "/" + x, project + "/" + x');
    SameTail(project + "/", x, x');
    SameTail("zones" + "/", zone + "/" + rest, zone' + "/" + rest');
    assert |zone| == |zone'|;
    assert (zone + "/" + rest)[..|zone|] == zone && (zone' + "/" + rest')[..|zone'|] == zone';
  }

  /** Resource names hold no slash, so a link determines the instance it names. */
  lemma InstanceLinkInjective(p: string, z: string, n: string, p': string, z': string, n': string)
    requires '/' !in p && '/' !in p' && '/' !in z && '/' !in z'
    requires InstanceLink(p, z, n) == InstanceLink(p', z', n')
    ensures p == p' && z == z' && n == n'
  {
    var x, x' := "instances" + "/" + n, "instances" + "/" + n';
    var y, y' := "zones" + "/" + (z + "/" + x), "zones" + "/" + (z' + "/" + x');
    SameTail(COMPUTE_PROJECTS, p + "/" + y, p' + "/" + y');
    SegmentsAgree(p, y, p', y', "/");
    SameTail("zones" + "/", z + "/" + x, z' + "/" + x');
    SegmentsAgree(z, x, z', x', "/");
    SameTail("instances" + "/", n, n');
  }

  /** The provider ID recorded on a machine names one instance. */
  lemma ProviderIdInjective(p: string, z: string, n: string, p': string, z': string, n': string)
    requires '/' !in p && '/' !in p' && '/' !in z && '/' !in z'
    requires ProviderId(p, z, n) == ProviderId(p', z', n')
    ensures p == p' && z == z' && n == n'
  {
    SameTail("gce://", p + "/" + (z + "/" + n), p' + "/" + (z' + "/" + n'));
    SegmentsAgree(p, z + "/" + n, p', z' + "/" + n', "/");
    SegmentsAgree(z, n, z', n', "/");
  }
}
