/**
 Boot-image references: the parser behind the UEFI check, the source-image
 string that create() builds, and the UEFI check itself.
 */
module ImageReference {
  import opened Common
  import opened Text

  const PROJECTS := "projects/"
  const UEFI_COMPATIBLE := "UEFI_COMPATIBLE"

  datatype Reference = Reference(project: string, image: string, isFamily: bool)

  datatype ParseError = NoProjectsSegment | TooFewSegments | UnrecognizedPath

  /** The segments that follow the first "projects/". */
  function SegmentsAfterProjects(s: string): seq<string>
    requires Contains(s, PROJECTS)
  {
    Split(s[Index(s, PROJECTS).value + |PROJECTS|..], '/')
  }

  function Parse(s: string, providerProject: string): Result<Reference, ParseError> {
    if '/' !in s then
      Ok(Reference(providerProject, s, false))
    else if !Contains(s, PROJECTS) then
      Err(NoProjectsSegment)
    else
      var parts := SegmentsAfterProjects(s);
      if |parts| < 4 then Err(TooFewSegments)
      else if |parts| >= 5 && parts[2] == "images" && parts[3] == "family" then
        Ok(Reference(parts[0], parts[4], true))
      else if parts[1] == "global" && parts[2] == "images" then
        Ok(Reference(parts[0], parts[3], false))
      else
        Err(UnrecognizedPath)
  }

  function ImagePath(prefix: string, project: string, image: string): string {
    prefix + PROJECTS + (project + "/" + ("global" + "/" + ("images" + "/" + image)))
  }

  function FamilyPath(prefix: string, project: string, family: string): string {
    prefix + PROJECTS + (project + "/" + ("global" + "/" + ("images" + "/" + ("family" + "/" + family))))
  }

  /** The two kinds of paths, spelled out. */
  lemma PathsSpelled(prefix: string, project: string, image: string)
    ensures ImagePath(prefix, project, image) == prefix + "projects/" + project + "/global/images/" + image
    ensures FamilyPath(prefix, project, image) == prefix + "projects/" + project + "/global/images/family/" + image
  {
    assert "/" + ("global" + "/" + ("images" + "/" + image)) == "/global/images/" + image;
    assert "/" + ("global" + "/" + ("images" + "/" + ("family" + "/" + image))) == "/global/images/family/" + image;
  }

  /** The source image create() passes to the cloud for a non-empty disk image. */
  function SourceImage(basePath: string, resolvedProject: string, image: string): string {
    if '/' in image then image else ImagePath(basePath, resolvedProject, image)
  }

  /** "projects/" cannot overlap itself, so after a prefix free of it no occurrence starts before the printed one. */
  lemma NoEarlierProjects(prefix: string, rest: string, i: nat)
    requires !Contains(prefix, PROJECTS) && i < |prefix|
    ensures !OccursAt(prefix + PROJECTS + rest, PROJECTS, i)
  {
    var s := prefix + PROJECTS + rest;
    if i + 9 <= |prefix| {
      assert s[i..i + 9] == prefix[i..i + 9];
      assert !OccursAt(prefix, PROJECTS, i);
    } else if i + 9 <= |s| {
      assert s[i..i + 9][8] == s[i + 8] == PROJECTS[i + 8 - |prefix|];
    }
  }

  lemma FirstProjects(prefix: string, rest: string)
    requires !Contains(prefix, PROJECTS)
    ensures Index(prefix + PROJECTS + rest, PROJECTS) == Some(|prefix|)
  {
    assert OccursAt(prefix + PROJECTS + rest, PROJECTS, |prefix|);
    forall i: nat | i < |prefix|
      ensures !OccursAt(prefix + PROJECTS + rest, PROJECTS, i)
    {
      NoEarlierProjects(prefix, rest, i);
    }
  }

  lemma PrintedSegments(prefix: string, rest: string)
    requires !Contains(prefix, PROJECTS)
    ensures Contains(prefix + PROJECTS + rest, PROJECTS)
    ensures SegmentsAfterProjects(prefix + PROJECTS + rest) == Split(rest, '/')
    ensures '/' in prefix + PROJECTS + rest
  {
    FirstProjects(prefix, rest);
    var s := prefix + PROJECTS + rest;
    assert s[|prefix| + 9..] == rest;
    assert s[|prefix| + 8] == '/';
  }

  /** Parsing a printed image path gives back exactly its project and image, whatever project the machine is in. */
  lemma ImageRoundTrip(prefix: string, project: string, image: string, providerProject: string)
    requires !Contains(prefix, PROJECTS)
    requires '/' !in project && '/' !in image
    ensures Parse(ImagePath(prefix, project, image), providerProject) == Ok(Reference(project, image, false))
  {
    var rest := "global" + "/" + ("images" + "/" + image);
    PrintedSegments(prefix, project + "/" + rest);
    SplitOfSegment(project, '/', rest);
    SplitOfSegment("global", '/', "images" + "/" + image);
    SplitOfSegment("images", '/', image);
    SplitOfFree(image, '/');
  }

  lemma FamilyRoundTrip(prefix: string, project: string, family: string, providerProject: string)
    requires !Contains(prefix, PROJECTS)
    requires '/' !in project && '/' !in family
    ensures Parse(FamilyPath(prefix, project, family), providerProject) == Ok(Reference(project, family, true))
  {
    var tail := "family" + "/" + family;
    var rest := "global" + "/" + ("images" + "/" + tail);
    PrintedSegments(prefix, project + "/" + rest);
    SplitOfSegment(project, '/', rest);
    SplitOfSegment("global", '/', "images" + "/" + tail);
    SplitOfSegment("images", '/', tail);
    SplitOfSegment("family", '/', family);
    SplitOfFree(family, '/');
  }

  /** A string that holds "projects/" is cut at its first occurrence. */
  lemma CutAtProjects(s: string) returns (prefix: string, rest: string)
    requires Contains(s, PROJECTS)
    ensures !Contains(prefix, PROJECTS) && s == prefix + PROJECTS + rest
    ensures SegmentsAfterProjects(s) == Split(rest, '/')
  {
    var at := Index(s, PROJECTS).value;
    prefix, rest := s[..at], s[at + 9..];
    assert s[at..at + 9] == PROJECTS;
    assert s == s[..at] + s[at..at + 9] + s[at + 9..];
    forall i: nat | OccursAt(prefix, PROJECTS, i)
      ensures OccursAt(s, PROJECTS, i)
    {
      assert prefix[i..i + 9] == s[i..i + 9];
    }
  }

  /** The reported parts are segments of the path, in the places of an image or a family path. */
  ghost predicate ReadsOff(r: Reference, parts: seq<string>) {
    && |parts| >= (if r.isFamily then 5 else 4)
    && r.project == parts[0] && r.image == parts[if r.isFamily then 4 else 3]
    && parts[2] == "images" && (if r.isFamily then parts[3] == "family" else parts[1] == "global")
    && '/' !in r.project && '/' !in r.image
  }

  /**
   What the parser accepts beyond simple names: only paths that carry the reported parts after the first "projects/".
   */
  lemma AcceptedPaths(s: string, providerProject: string) returns (prefix: string, parts: seq<string>)
    requires '/' in s && Parse(s, providerProject).Ok?
    ensures |parts| >= 1 && !Contains(prefix, PROJECTS) && s == prefix + PROJECTS + Join(parts, '/')
    ensures ReadsOff(Parse(s, providerProject).value, parts)
  {
    var rest: string;
    prefix, rest := CutAtProjects(s);
    parts := Split(rest, '/');
    JoinOfSplit(rest, '/');
    PartsAreFree(rest, '/');
  }

  /**
   The image the UEFI check looks at is the one create() boots from, for every disk image,
   exactly when the provider spec names the resolved project: the check is given the spec's
   project, create() the resolved one.
   */
  lemma CheckedImageIsBootedImage(basePath: string, image: string, specProject: string, resolvedProject: string)
    requires !Contains(basePath, PROJECTS)
    requires '/' !in resolvedProject
    ensures Parse(SourceImage(basePath, resolvedProject, image), specProject) == Parse(image, resolvedProject)
    ensures Parse(image, specProject) == Parse(SourceImage(basePath, resolvedProject, image), specProject)
            <==> ('/' in image || specProject == resolvedProject)
  {
    if '/' !in image {
      ImageRoundTrip(basePath, resolvedProject, image, specProject);
    }
  }

  // ----- the UEFI check -----

  datatype Disk = Disk(boot: bool, image: string, labels: map<string, string>)

  datatype UefiError = BadReference(error: ParseError) | LookupFailed | NoBootDisk

  /** Answers of the image service: the guest OS features of an image, or a failure. */
  datatype Features = Features(types: seq<string>) | LookupError

  datatype ImageService = ImageService(images: map<(string, string), Features>,
                                       families: map<(string, string, string), Features>)

  function ImageGet(service: ImageService, project: string, image: string): Features {
    if (project, image) in service.images then service.images[(project, image)] else LookupError
  }

  function ImageFamilyGet(service: ImageService, project: string, zone: string, family: string): Features {
    if (project, zone, family) in service.families then service.families[(project, zone, family)] else LookupError
  }

  function Lower(c: char): char {
    if 'A' <= c <= 'Z' then ((c as int) + 32) as char else c
  }

  /** strings.EqualFold against an ASCII word without K or S, where Unicode folding adds nothing. */
  predicate EqualFold(a: string, b: string) {
    |a| == |b| && forall i :: 0 <= i < |a| ==> Lower(a[i]) == Lower(b[i])
  }

  ghost predicate ListsUefi(features: Features) {
    features.Features? && exists i :: 0 <= i < |features.types| && EqualFold(features.types[i], UEFI_COMPATIBLE)
  }

  function LookUp(service: ImageService, zone: string, r: Reference): Features {
    if r.isFamily then ImageFamilyGet(service, r.project, zone, r.image) else ImageGet(service, r.project, r.image)
  }

  /** The verdict on a machine's disks: only the first boot disk counts. */
  ghost function UefiVerdict(service: ImageService, disks: seq<Disk>, project: string, zone: string)
    : Result<bool, UefiError>
  {
    if disks == [] then Err(NoBootDisk)
    else if !disks[0].boot then UefiVerdict(service, disks[1..], project, zone)
    else match Parse(disks[0].image, project)
      case Err(e) => Err(BadReference(e))
      case Ok(r) =>
        var features := LookUp(service, zone, r);
        if features.LookupError? then Err(LookupFailed)
    else Ok(exists i :: 0 <= i < |features.types| && EqualFold(features.types[i], "UEFI_COMPATIBLE"))
  }

  method ScanFeatures(types: seq<string>) returns (found: bool)
    ensures found <==> exists i :: 0 <= i < |types| && EqualFold(types[i], UEFI_COMPATIBLE)
  {
    for i := 0 to |types|
      invariant forall j :: 0 <= j < i ==> !EqualFold(types[j], UEFI_COMPATIBLE)
    {
      if EqualFold(types[i], UEFI_COMPATIBLE) {
        return true;
      }
    }
    return false;
  }

  method IsUefiCompatible(service: ImageService, disks: seq<Disk>, project: string, zone: string)
    returns (verdict: Result<bool, UefiError>)
    ensures verdict == UefiVerdict(service, disks, project, zone)
  {
    for i := 0 to |disks|
      invariant UefiVerdict(service, disks, project, zone) == UefiVerdict(service, disks[i..], project, zone)
    {
      if disks[i].boot {
        var parsed := Parse(disks[i].image, project);
        if parsed.Err? {
          return Err(BadReference(parsed.error));
        }
        var features := LookUp(service, zone, parsed.value);
        if features.LookupError? {
          return Err(LookupFailed);
        }
        var found := ScanFeatures(features.types);
        return Ok(found);
      }
      assert disks[i..][1..] == disks[i + 1..];
    }
    return Err(NoBootDisk);
  }

  /** The fold: letter by letter the same, or the same letter in the other case. */
  lemma EqualFoldMeans(a: string, b: string)
    ensures EqualFold(a, b) <==>
            && |a| == |b|
            && forall i :: 0 <= i < |a| ==>
                 || a[i] == b[i]
                 || ('A' <= a[i] <= 'Z' && b[i] as int == a[i] as int + 32)
                 || ('A' <= b[i] <= 'Z' && a[i] as int == b[i] as int + 32)
  {
    assert forall x: char, y: char :: Lower(x) == Lower(y) <==>
        x == y || ('A' <= x <= 'Z' && y as int == x as int + 32) || ('A' <= y <= 'Z' && x as int == y as int + 32);
  }

  /** What the answer of the image service comes to. */
  ghost function Judged(features: Features): Result<bool, UefiError> {
    if features.LookupError? then Err(LookupFailed) else Ok(ListsUefi(features))
  }

  function OneBootDisk(image: string): seq<Disk> {
    [Disk(true, image, map[])]
  }

  /** A boot disk that names an image path is judged by that image, in the project the path names. */
  lemma ImagePathIsJudged(service: ImageService, prefix: string, project: string, image: string,
                          specProject: string, zone: string)
    requires !Contains(prefix, PROJECTS) && '/' !in project && '/' !in image
    ensures UefiVerdict(service, OneBootDisk(ImagePath(prefix, project, image)), specProject, zone) ==
            Judged(if (project, image) in service.images then service.images[(project, image)] else LookupError)
  {
    ImageRoundTrip(prefix, project, image, specProject);
  }

  /** One that names a family by the family, in the machine's zone. */
  lemma FamilyPathIsJudged(service: ImageService, prefix: string, project: string, family: string,
                           specProject: string, zone: string)
    requires !Contains(prefix, PROJECTS) && '/' !in project && '/' !in family
    ensures UefiVerdict(service, OneBootDisk(FamilyPath(prefix, project, family)), specProject, zone) ==
            Judged(if (project, zone, family) in service.families then service.families[(project, zone, family)]
                   else LookupError)
  {
    FamilyRoundTrip(prefix, project, family, specProject);
  }

  /** And a simple name by the image of that name in the project the spec names. */
  lemma SimpleNameIsJudged(service: ImageService, name: string, specProject: string, zone: string)
    requires '/' !in name
    ensures UefiVerdict(service, OneBootDisk(name), specProject, zone) ==
            Judged(if (specProject, name) in service.images then service.images[(specProject, name)] else LookupError)
  {
  }

  /** The verdict depends on nothing but the first boot disk: disks before it and after it are ignored. */
  lemma {:induction false} OnlyFirstBootDiskCounts(service: ImageService,
                                                   before: seq<Disk>, boot: Disk, after: seq<Disk>,
                                                   project: string, zone: string)
    requires boot.boot && forall i :: 0 <= i < |before| ==> !before[i].boot
    ensures UefiVerdict(service, before + [boot] + after, project, zone) == UefiVerdict(service, [boot], project, zone)
  {
    var disks := before + [boot] + after;
    if before == [] {
      assert disks[0] == boot;
    } else {
      assert disks[1..] == before[1..] + [boot] + after;
      OnlyFirstBootDiskCounts(service, before[1..], boot, after, project, zone);
    }
  }
}
