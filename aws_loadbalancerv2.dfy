/**
  The application and network load balancer driver (pkg/aws/loadbalancerv2.go).
  The teardown pipeline never calls it.
*/
module AwsLoadBalancerV2 {
  import opened Wrappers
  import opened Sdk
  import opened Cloud

  /** The delete a load balancer gets: none without an ARN. */
  function LoadBalancerV2Target(b: LoadBalancer): Option<Call>
  {
    if b.loadBalancerArn.Some? then Some(Api(LoadBalancersV2, Delete(b.loadBalancerArn.value))) else None
  }

  /** deleteLoadBalancersV2: one delete per load balancer with an ARN, every error kept, no failure stopping the rest. */
  method DeleteLoadBalancersV2(cloud: Cloud, trace: seq<Call>, balancers: seq<LoadBalancer>)
    returns (trace': seq<Call>, errs: seq<Err>)
    ensures trace' == trace + Targets(balancers, LoadBalancerV2Target)
    ensures errs == Failures(cloud, trace, Targets(balancers, LoadBalancerV2Target))
  {
    trace', errs := IssueEach(cloud, trace, balancers, LoadBalancerV2Target);
  }

  /** A delete is issued exactly for the load balancers that have an ARN. */
  lemma LoadBalancerV2Deletes(balancers: seq<LoadBalancer>, c: Call)
    ensures c in Targets(balancers, LoadBalancerV2Target) <==>
      exists b :: b in balancers && b.loadBalancerArn.Some? && c == Api(LoadBalancersV2, Delete(b.loadBalancerArn.value))
  {
    TargetsMember(balancers, LoadBalancerV2Target, c);
  }

  /** The listing keeps a load balancer only when it names the VPC. */
  function InVpcV2(vpcId: string): LoadBalancer -> bool
  {
    (b: LoadBalancer) => b.vpcId == Some(vpcId)
  }

  /** listLoadBalancersV2: the load balancers of the VPC on every page, following the marker; any describe error aborts. */
  method ListLoadBalancersV2(cloud: Cloud, trace: seq<Call>, vpcId: string)
    returns (trace': seq<Call>, r: Result<seq<LoadBalancer>, Err>)
    ensures trace' == trace + Listed(LoadBalancersV2, [], cloud.loadBalancersV2(trace), InVpcV2(vpcId)).calls
    ensures r == Listed(LoadBalancersV2, [], cloud.loadBalancersV2(trace), InVpcV2(vpcId)).result
  {
    trace', r := Paginate(cloud, trace, cloud.loadBalancersV2(trace), LoadBalancersV2, [], InVpcV2(vpcId));
  }
}
