/**
  The second cloud's report mappers (pkg/gcp/gcp.go): managed clusters and
  virtual machines become report resources; a machine's zone arrives as a
  URL and is cut down to its last path segment.
*/
module Gcp {
  import opened Wrappers
  import opened Dto
  import opened Strings

  /** A managed cluster as the custodian output lists it. */
  datatype GkeCluster = GkeCluster(name: string, location: string, createdAt: Time)

  /** A virtual machine as the custodian output lists it; its zone is a URL or a bare name. */
  datatype GceVm = GceVm(name: string, zone: string, launchTime: Time)

  /** normalizeZone: the part after the last '/', or the zone itself when it holds none. */
  function NormalizeZone(zone: string): (r: string)
    ensures '/' !in r
    ensures HasSuffix(zone, r)
    ensures '/' !in zone ==> r == zone
    ensures '/' in zone ==> zone[|zone| - |r| - 1] == '/'
  {
    var parts := Split(zone, '/');
    if |parts| < 2 then
      SplitWithoutSeparator(zone, '/');
      zone
    else
      SuffixAfterLastSeparator(zone, '/');
      parts[|parts| - 1]
  }

  /** A string with the separator splits into at least two pieces and ends with the separator followed by the last one. */
  lemma SuffixAfterLastSeparator(s: string, sep: char)
    ensures var parts := Split(s, sep);
      && (sep in s <==> |parts| >= 2)
      && (|parts| >= 2 ==> |Last(parts)| < |s| && s[|s| - |Last(parts)| - 1] == sep && HasSuffix(s, Last(parts)))
  {
    var parts := Split(s, sep);
    JoinSplit(s, sep);
    if |parts| >= 2 {
      JoinLast(parts, sep);
      var front := Join(parts[..|parts| - 1], sep);
      assert s == front + [sep] + Last(parts);
      assert s[|front|] == sep;
      assert s[|s| - |Last(parts)|..] == Last(parts);
    } else {
      assert parts == [s];
    }
  }

  /** Normalising a normalised zone changes nothing. */
  lemma NormalizeZoneIdempotent(zone: string)
    ensures NormalizeZone(NormalizeZone(zone)) == NormalizeZone(zone)
  {
  }

  /** A zone URL ".../zones/<name>" normalises to the name, whatever the path in front. */
  lemma NormalizeZoneOfUrl(path: string, name: string)
    requires '/' !in name
    ensures NormalizeZone(path + "/" + name) == name
  {
    var zone := path + "/" + name;
    SplitAround(path, '/', name);
    assert path + ['/'] + name == zone;
    SplitWithoutSeparator(name, '/');
  }

  /** GKE's mapping: one resource per cluster, in order, located where the cluster says, with no owner. */
  function Gke(content: Decoded<GkeCluster>): (r: Decoded<Resource>)
    ensures content.Failure? ==> r == Failure(content.error)
    ensures content.Success? ==> r.Success? && |r.value| == |content.value|
    ensures content.Success? ==> forall i :: 0 <= i < |content.value| ==>
      r.value[i] == Resource(content.value[i].name, content.value[i].location, "", content.value[i].createdAt)
  {
    match content
    case Failure(e) => Failure(e)
    case Success(cs) => Success(seq(|cs|, i requires 0 <= i < |cs| => Resource(cs[i].name, cs[i].location, "", cs[i].createdAt)))
  }

  /** GCE's mapping: one resource per machine, in order, located in its normalised zone, with no owner. */
  function Gce(content: Decoded<GceVm>): (r: Decoded<Resource>)
    ensures content.Failure? ==> r == Failure(content.error)
    ensures content.Success? ==> r.Success? && |r.value| == |content.value|
    ensures content.Success? ==> forall i :: 0 <= i < |content.value| ==>
      r.value[i] == Resource(content.value[i].name, NormalizeZone(content.value[i].zone), "", content.value[i].launchTime)
  {
    match content
    case Failure(e) => Failure(e)
    case Success(vms) => Success(seq(|vms|, i requires 0 <= i < |vms| => GceResource(vms[i])))
  }

  /** The report resource of one machine. */
  function GceResource(vm: GceVm): Resource
  {
    Resource(vm.name, NormalizeZone(vm.zone), "", vm.launchTime)
  }

  /** GKE: the loop over the decoded clusters; the region argument is not used. */
  method ParseGKE(region: string, content: Decoded<GkeCluster>) returns (r: Decoded<Resource>)
    ensures r == Gke(content)
  {
    if content.Failure? {
      return Failure(content.error);
    }
    var clusters := content.value;
    var result: seq<Resource> := [];
    for i := 0 to |clusters|
      invariant |result| == i
      invariant forall k :: 0 <= k < i ==> result[k] == Resource(clusters[k].name, clusters[k].location, "", clusters[k].createdAt)
    {
      result := result + [Resource(clusters[i].name, clusters[i].location, "", clusters[i].createdAt)];
    }
    assert result == Gke(content).value;
    r := Success(result);
  }

  /** GCE: the loop over the decoded machines; the region argument is not used. */
  method ParseGCE(region: string, content: Decoded<GceVm>) returns (r: Decoded<Resource>)
    ensures r == Gce(content)
  {
    if content.Failure? {
      return Failure(content.error);
    }
    var vms := content.value;
    var result: seq<Resource> := [];
    for i := 0 to |vms|
      invariant |result| == i
      invariant forall k :: 0 <= k < i ==> result[k] == GceResource(vms[k])
    {
      result := result + [Resource(vms[i].name, NormalizeZone(vms[i].zone), "", vms[i].launchTime)];
    }
    assert result == Gce(content).value;
    r := Success(result);
  }
}
