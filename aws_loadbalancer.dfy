/** The classic load balancer driver of the teardown (pkg/aws/loadbalancer.go). */
module AwsLoadBalancer {
  import opened Wrappers
  import opened Sdk
  import opened Cloud

  /** The delete a load balancer gets: none without a name. */
  function LoadBalancerTarget(d: LoadBalancerDescription): Option<Call>
  {
    if d.loadBalancerName.Some? then Some(Api(LoadBalancers, Delete(d.loadBalancerName.value))) else None
  }

  /** deleteLoadBalancers: one delete per named load balancer, every error kept, no failure stopping the rest. */
  method DeleteLoadBalancers(cloud: Cloud, trace: seq<Call>, descriptions: seq<LoadBalancerDescription>)
    returns (trace': seq<Call>, errs: seq<Err>)
    ensures trace' == trace + Targets(descriptions, LoadBalancerTarget)
    ensures errs == Failures(cloud, trace, Targets(descriptions, LoadBalancerTarget))
  {
    trace', errs := IssueEach(cloud, trace, descriptions, LoadBalancerTarget);
  }

  /** A delete is issued exactly for the load balancers that have a name. */
  lemma LoadBalancerDeletes(descriptions: seq<LoadBalancerDescription>, c: Call)
    ensures c in Targets(descriptions, LoadBalancerTarget) <==>
      exists d :: d in descriptions && d.loadBalancerName.Some? && c == Api(LoadBalancers, Delete(d.loadBalancerName.value))
  {
    TargetsMember(descriptions, LoadBalancerTarget, c);
  }

  /** The listing keeps a load balancer only when it names the VPC. */
  function InVpc(vpcId: string): LoadBalancerDescription -> bool
  {
    (d: LoadBalancerDescription) => d.vpcId == Some(vpcId)
  }

  /**
    listLoadBalancers: describe everything (no filter), keep the load
    balancers of the VPC, and follow each page's marker until there is none;
    the first describe error aborts.
  */
  method ListLoadBalancers(cloud: Cloud, trace: seq<Call>, vpcId: string)
    returns (trace': seq<Call>, r: Result<seq<LoadBalancerDescription>, Err>)
    ensures trace' == trace + Listed(LoadBalancers, [], cloud.loadBalancers(trace), InVpc(vpcId)).calls
    ensures r == Listed(LoadBalancers, [], cloud.loadBalancers(trace), InVpc(vpcId)).result
  {
    trace', r := Paginate(cloud, trace, cloud.loadBalancers(trace), LoadBalancers, [], InVpc(vpcId));
  }

  /** A successful listing holds only load balancers of the VPC, and every served one of the VPC. */
  lemma InVpcListing(vpcId: string, pages: Pages<LoadBalancerDescription>)
    requires !Fails(pages)
    ensures Collected(pages, InVpc(vpcId)).Success?
    ensures forall i :: 0 <= i < |Collected(pages, InVpc(vpcId)).value| ==>
      Collected(pages, InVpc(vpcId)).value[i] in Items(pages) && Collected(pages, InVpc(vpcId)).value[i].vpcId == Some(vpcId)
    ensures forall i :: 0 <= i < |Items(pages)| && Items(pages)[i].vpcId == Some(vpcId) ==>
      Items(pages)[i] in Collected(pages, InVpc(vpcId)).value
  {
    CollectedMeaning(pages, InVpc(vpcId));
  }
}
