/** The subnet driver of the teardown (pkg/aws/subnet.go). */
module AwsSubnet {
  import opened Wrappers
  import opened Sdk
  import opened Cloud

  /** The delete a subnet gets: none without an id or outside the VPC. */
  function SubnetTarget(vpcId: string): Subnet -> Option<Call>
  {
    (s: Subnet) =>
      if s.subnetId.Some? && s.vpcId == Some(vpcId) then Some(Api(Subnets, Delete(s.subnetId.value))) else None
  }

  /** deleteSubnets: one delete per subnet of the VPC, every error kept, no failure stopping the rest. */
  method DeleteSubnets(cloud: Cloud, trace: seq<Call>, vpcId: string, subnets: seq<Subnet>)
    returns (trace': seq<Call>, errs: seq<Err>)
    ensures trace' == trace + Targets(subnets, SubnetTarget(vpcId))
    ensures errs == Failures(cloud, trace, Targets(subnets, SubnetTarget(vpcId)))
  {
    trace', errs := IssueEach(cloud, trace, subnets, SubnetTarget(vpcId));
  }

  /** A delete is issued exactly for the subnets that have an id and belong to the VPC. */
  lemma SubnetDeletes(vpcId: string, subnets: seq<Subnet>, c: Call)
    ensures c in Targets(subnets, SubnetTarget(vpcId)) <==>
      exists s :: s in subnets && s.subnetId.Some? && s.vpcId == Some(vpcId) && c == Api(Subnets, Delete(s.subnetId.value))
  {
    TargetsMember(subnets, SubnetTarget(vpcId), c);
  }

  /** The filter listSubnets describes with. */
  function SubnetFilter(vpcId: string): seq<Filter>
  {
    [Filter("vpc-id", [vpcId])]
  }

  /** listSubnets: every subnet of every page, following the token, or the first describe error. */
  method ListSubnets(cloud: Cloud, trace: seq<Call>, vpcId: string)
    returns (trace': seq<Call>, r: Result<seq<Subnet>, Err>)
    ensures trace' == trace + Listed(Subnets, SubnetFilter(vpcId), cloud.subnets(trace, SubnetFilter(vpcId)), All).calls
    ensures r == Listed(Subnets, SubnetFilter(vpcId), cloud.subnets(trace, SubnetFilter(vpcId)), All).result
  {
    trace', r := Paginate(cloud, trace, cloud.subnets(trace, SubnetFilter(vpcId)), Subnets, SubnetFilter(vpcId), All);
  }
}
