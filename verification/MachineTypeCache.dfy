/**
 The MachineSet controller's machine-type cache. Its key holds the zone and the type, not the
 project the type was fetched from.
 */
module MachineTypeCache {

  datatype Key = Key(zone: string, machineType: string)
  datatype MachineInfo = MachineInfo(guestCpus: int, memoryMb: int)
  datatype Entry = Entry(project: string, zone: string, machineType: string)

  type Catalogue = map<Entry, MachineInfo>

  /** A lookup, the catalogue the service has at that time, and whether the service call fails. */
  datatype Lookup = Lookup(project: string, key: Key, catalogue: Catalogue, fails: bool)

  /** A machine type, none (the service answered 404), or an error. */
  datatype Reply = Found(info: MachineInfo) | Unknown | Failed

  function Direct(l: Lookup): Reply {
    var entry := Entry(l.project, l.key.zone, l.key.machineType);
    if entry in l.catalogue then Found(l.catalogue[entry]) else Unknown
  }

  function Fetch(l: Lookup): Reply {
    if l.fails then Failed else Direct(l)
  }

  function ReplyTo(cache: map<Key, MachineInfo>, l: Lookup): Reply {
    if l.key in cache then Found(cache[l.key]) else Fetch(l)
  }

  function After(cache: map<Key, MachineInfo>, l: Lookup): map<Key, MachineInfo> {
    if l.key !in cache && Fetch(l).Found? then cache[l.key := Fetch(l).info] else cache
  }

  class MachineTypesCache {
    var entries: map<Key, MachineInfo>

    constructor ()
      ensures entries == map[]
    {
      entries := map[];
    }

    method GetMachineTypeFromCache(l: Lookup) returns (reply: Reply)
      modifies this
      ensures reply == ReplyTo(old(entries), l) && entries == After(old(entries), l)
    {
      if l.key in entries {
        return Found(entries[l.key]);
      }
      reply := Fetch(l);
      if reply.Failed? {
        return;
      }
      if reply.Unknown? {
        return;
      }
      entries := entries[l.key := reply.info];
    }
  }

  // ----- runs of lookups from an empty cache -----

  ghost function CacheAfter(lookups: seq<Lookup>): map<Key, MachineInfo> {
    if lookups == [] then map[] else After(CacheAfter(lookups[..|lookups| - 1]), lookups[|lookups| - 1])
  }

  ghost function ReplyAt(lookups: seq<Lookup>, j: nat): Reply
    requires j < |lookups|
  {
    ReplyTo(CacheAfter(lookups[..j]), lookups[j])
  }

  /** Every entry was fetched by some lookup of its key. */
  lemma {:induction false} EntriesWereFetched(lookups: seq<Lookup>, key: Key) returns (i: nat)
    requires key in CacheAfter(lookups)
    ensures i < |lookups| && lookups[i].key == key && Fetch(lookups[i]) == Found(CacheAfter(lookups)[key])
  {
    var before := lookups[..|lookups| - 1];
    if key in CacheAfter(before) {
      i := EntriesWereFetched(before, key);
    } else {
      i := |lookups| - 1;
    }
  }

  /** An entry, once there, never changes. */
  lemma {:induction false} EntriesStay(lookups: seq<Lookup>, i: nat, j: nat, key: Key)
    requires i <= j <= |lookups| && key in CacheAfter(lookups[..i])
    ensures key in CacheAfter(lookups[..j]) && CacheAfter(lookups[..j])[key] == CacheAfter(lookups[..i])[key]
  {
    if i == j {
    } else {
      EntriesStay(lookups, i, j - 1, key);
      assert lookups[..j][..j - 1] == lookups[..j - 1];
    }
  }

  lemma AfterLookup(lookups: seq<Lookup>, i: nat)
    requires i < |lookups| && ReplyAt(lookups, i).Found?
    ensures lookups[i].key in CacheAfter(lookups[..i + 1])
    ensures CacheAfter(lookups[..i + 1])[lookups[i].key] == ReplyAt(lookups, i).info
  {
    assert lookups[..i + 1][..i] == lookups[..i];
  }

  /** What a key's type is, once a lookup could see it, is what every later lookup of the key could see. */
  ghost predicate Stable(lookups: seq<Lookup>) {
    forall i, j :: 0 <= i < j < |lookups| && lookups[i].key == lookups[j].key && Direct(lookups[i]).Found? ==>
      Direct(lookups[j]) == Direct(lookups[i])
  }

  /**
   Stable lookups are answered as by a direct fetch, except that a failing service call may still surface as an error.
   */
  lemma CacheRefinesDirectLookup(lookups: seq<Lookup>, j: nat)
    requires Stable(lookups) && j < |lookups|
    ensures ReplyAt(lookups, j) == Direct(lookups[j]) || (lookups[j].fails && ReplyAt(lookups, j) == Failed)
  {
    var l := lookups[j];
    if l.key in CacheAfter(lookups[..j]) {
      var i := EntriesWereFetched(lookups[..j], l.key);
      assert lookups[..j][i] == lookups[i];
    }
  }

  /** For lookups whose service calls do not fail, the cache answers as a direct fetch exactly when they are stable. */
  lemma ExactExactlyWhenStable(lookups: seq<Lookup>)
    requires forall i :: 0 <= i < |lookups| ==> !lookups[i].fails
    ensures (forall j: nat :: j < |lookups| ==> ReplyAt(lookups, j) == Direct(lookups[j])) <==> Stable(lookups)
  {
    if Stable(lookups) {
      forall j: nat | j < |lookups| {
        CacheRefinesDirectLookup(lookups, j);
      }
    }
    if forall j: nat :: j < |lookups| ==> ReplyAt(lookups, j) == Direct(lookups[j]) {
      forall i, j | 0 <= i < j < |lookups| && lookups[i].key == lookups[j].key && Direct(lookups[i]).Found?
        ensures Direct(lookups[j]) == Direct(lookups[i])
      {
        assert ReplyAt(lookups, i) == Direct(lookups[i]);
        AfterLookup(lookups, i);
        EntriesStay(lookups, i + 1, j, lookups[i].key);
        assert ReplyAt(lookups, j) == Direct(lookups[j]);
      }
    }
  }

  /** The lookup reaches the service and is told a type. */
  ghost predicate FetchesAt(lookups: seq<Lookup>, j: nat) {
    j < |lookups| && lookups[j].key !in CacheAfter(lookups[..j]) && Fetch(lookups[j]).Found?
  }

  /** A key is fetched successfully at most once; after that the service is not asked again. */
  lemma FetchedAtMostOnce(lookups: seq<Lookup>, i: nat, j: nat)
    requires i < j < |lookups| && lookups[i].key == lookups[j].key && FetchesAt(lookups, i)
    ensures lookups[j].key in CacheAfter(lookups[..j]) && !FetchesAt(lookups, j)
  {
    AfterLookup(lookups, i);
    EntriesStay(lookups, i + 1, j, lookups[i].key);
  }

  // ----- which surroundings make lookups stable -----

  /** Types appear and stay; none changes. */
  ghost predicate Growing(lookups: seq<Lookup>) {
    forall i, j, e :: 0 <= i < j < |lookups| && e in lookups[i].catalogue ==>
      e in lookups[j].catalogue && lookups[j].catalogue[e] == lookups[i].catalogue[e]
  }

  /** One project: a type that appears later is found then, and an error or a 404 is never remembered. */
  lemma OneProjectIsStable(lookups: seq<Lookup>, project: string)
    requires Growing(lookups) && forall i :: 0 <= i < |lookups| ==> lookups[i].project == project
    ensures Stable(lookups)
  {
  }

  ghost predicate ProjectIndependent(c: Catalogue) {
    forall p, q, key: Key :: Direct(Lookup(p, key, c, false)) == Direct(Lookup(q, key, c, false))
  }

  ghost predicate OverCatalogue(lookups: seq<Lookup>, c: Catalogue) {
    forall i :: 0 <= i < |lookups| ==> lookups[i].catalogue == c && !lookups[i].fails
  }

  ghost predicate AlwaysExact(c: Catalogue) {
    forall lookups: seq<Lookup>, j: nat :: OverCatalogue(lookups, c) && j < |lookups| ==>
        ReplyAt(lookups, j) == Direct(lookups[j])
  }

  /** Two projects that disagree on a type are told one answer: whichever project asked first. */
  lemma DisagreementIsServed(c: Catalogue, p: string, q: string, key: Key)
    requires Direct(Lookup(p, key, c, false)).Found? &&
        Direct(Lookup(q, key, c, false)) != Direct(Lookup(p, key, c, false))
    ensures !AlwaysExact(c)
  {
    var lookups := [Lookup(p, key, c, false), Lookup(q, key, c, false)];
    assert OverCatalogue(lookups, c) && lookups[0].key == lookups[1].key;
    ExactExactlyWhenStable(lookups);
  }

  /**
   Over a fixed catalogue, every run is answered exactly if and only if the catalogue does not depend on the project.
   */
  lemma ExactExactlyWhenProjectIndependent(c: Catalogue)
    ensures AlwaysExact(c) <==> ProjectIndependent(c)
  {
    if ProjectIndependent(c) {
      forall lookups: seq<Lookup>, j: nat | OverCatalogue(lookups, c) && j < |lookups|
        ensures ReplyAt(lookups, j) == Direct(lookups[j])
      {
        forall i | 0 <= i < |lookups|
          ensures lookups[i] == Lookup(lookups[i].project, lookups[i].key, c, false)
        {
        }
        assert Stable(lookups);
        CacheRefinesDirectLookup(lookups, j);
      }
    } else {
      var p, q, key: Key :| Direct(Lookup(p, key, c, false)) != Direct(Lookup(q, key, c, false));
      if Direct(Lookup(p, key, c, false)).Found? {
        DisagreementIsServed(c, p, q, key);
      } else {
        DisagreementIsServed(c, q, p, key);
      }
    }
  }
}
