/**
  The managed cluster calls of the teardown (pkg/aws/eks.go): look a
  cluster up, delete it, and map decoded clusters to report resources.
*/
module AwsEks {
  import opened Wrappers
  import opened Sdk
  import opened Cloud
  import opened Dto
  import AwsReport

  /** The single call listEKS issues. */
  function DescribeClusterCall(clusterName: string): Call
  {
    Api(ClusterTask, DescribeCluster(clusterName))
  }

  /** The single call deleteEKS issues. */
  function DeleteClusterCall(clusterName: string): Call
  {
    Api(ClusterTask, DeleteCluster(clusterName))
  }

  /** listEKS: the described cluster, or the lookup's error as it came; never both. */
  function ListEks(cloud: Cloud, h: seq<Call>, clusterName: string): (r: Result<Cluster, Err>)
    ensures r.Success? <==> cloud.cluster(h, clusterName).Success?
    ensures r.Success? ==> r.value == cloud.cluster(h, clusterName).value
    ensures r.Failure? ==> r.error == cloud.cluster(h, clusterName).error
  {
    match cloud.cluster(h, clusterName)
    case Success(c) => Success(c)
    case Failure(e) => Failure(e)
  }

  /** deleteEKS: a cluster that is not found counts as deleted; any other error is returned as it came. */
  function DeleteEks(cloud: Cloud, h: seq<Call>, clusterName: string): (err: Option<Err>)
    ensures err.None? <==> cloud.answer(h, DeleteClusterCall(clusterName)) in {None, Some(EksNotFound)}
    ensures err.Some? ==> err == cloud.answer(h, DeleteClusterCall(clusterName))
  {
    var e := cloud.answer(h, DeleteClusterCall(clusterName));
    if e == Some(EksNotFound) then None else e
  }

  /** The report resource of one cluster: its name, the region, no owner, its creation time. */
  function EksResource(region: string, c: AwsReport.EksCluster): Resource
  {
    Resource(c.name, region, "", c.createdAt)
  }

  /** ParseEKS: one resource per cluster, in order; a decode error is returned as it came. */
  method ParseEKS(region: string, content: Decoded<AwsReport.EksCluster>) returns (r: Decoded<Resource>)
    ensures r == AwsReport.Eks(region, content)
  {
    if content.Failure? {
      r := Failure(content.error);
      assert r == AwsReport.Eks(region, content);
      return;
    }
    var clusters := content.value;
    var result: seq<Resource> := [];
    for i := 0 to |clusters|
      invariant |result| == i
      invariant forall k :: 0 <= k < i ==> result[k] == EksResource(region, clusters[k])
    {
      result := result + [Resource(clusters[i].name, region, "", clusters[i].createdAt)];
    }
    var mapped := AwsReport.Eks(region, content).value;
    assert |mapped| == |result| && forall k :: 0 <= k < |result| ==> mapped[k] == result[k];
    assert mapped == result;
    r := Success(result);
    assert r == AwsReport.Eks(region, content);
  }
}
