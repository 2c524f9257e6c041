/** The elastic IP driver of the teardown (pkg/aws/elasticip.go). */
module AwsElasticIp {
  import opened Wrappers
  import opened Sdk
  import opened Cloud

  /** The release every address gets, its allocation id passed on as it is, absent or not. */
  function ReleaseTarget(a: Address): Option<Call>
  {
    Some(Api(ElasticIps, Release(a.allocationId)))
  }

  /** releaseElasticIps: one release per listed address, every error kept, no failure stopping the rest. */
  method ReleaseElasticIps(cloud: Cloud, trace: seq<Call>, addresses: seq<Address>)
    returns (trace': seq<Call>, errs: seq<Err>)
    ensures trace' == trace + Targets(addresses, ReleaseTarget)
    ensures errs == Failures(cloud, trace, Targets(addresses, ReleaseTarget))
  {
    trace', errs := IssueEach(cloud, trace, addresses, ReleaseTarget);
  }

  /** Every address is released exactly once, in listing order, with no skip for a missing allocation id. */
  lemma {:induction false} ReleasesAll(addresses: seq<Address>)
    ensures |Targets(addresses, ReleaseTarget)| == |addresses|
    ensures forall i :: 0 <= i < |addresses| ==>
      Targets(addresses, ReleaseTarget)[i] == Api(ElasticIps, Release(addresses[i].allocationId))
    decreases |addresses|
  {
    if addresses != [] {
      ReleasesAll(addresses[..|addresses| - 1]);
    }
  }

  /** The one filter listElasticIps describes with: addresses whose Name tag starts with the cluster name. */
  function ElasticIpFilter(clusterName: string): (filters: seq<Filter>)
    ensures |filters| == 1 && filters[0].name == "tag:Name" && filters[0].values == [clusterName + "*"]
  {
    [Filter("tag:Name", [clusterName + "*"])]
  }

  /** listElasticIps: a single describe call, no pagination; its addresses or its error. */
  method ListElasticIps(cloud: Cloud, trace: seq<Call>, clusterName: string)
    returns (trace': seq<Call>, r: Result<seq<Address>, Err>)
    ensures trace' == trace + [Api(ElasticIps, Describe(ElasticIpFilter(clusterName), None))]
    ensures r == cloud.addresses(trace, ElasticIpFilter(clusterName))
  {
    var filters := ElasticIpFilter(clusterName);
    r := cloud.addresses(trace, filters);
    trace' := trace + [Api(ElasticIps, Describe(filters, None))];
  }
}
