/** The NAT gateway driver of the teardown (pkg/aws/natgateway.go). */
module AwsNatGateway {
  import opened Wrappers
  import opened Sdk
  import opened Cloud
  import AwsVpc

  /** The delete a NAT gateway gets: none without an id. Its VPC is not checked again here. */
  function NatGatewayTarget(g: NatGateway): Option<Call>
  {
    if g.natGatewayId.Some? then Some(Api(NatGateways, Delete(g.natGatewayId.value))) else None
  }

  /** deleteNatGateways: one delete per gateway with an id, every error kept, no failure stopping the rest. */
  method DeleteNatGateways(cloud: Cloud, trace: seq<Call>, gateways: seq<NatGateway>)
    returns (trace': seq<Call>, errs: seq<Err>)
    ensures trace' == trace + Targets(gateways, NatGatewayTarget)
    ensures errs == Failures(cloud, trace, Targets(gateways, NatGatewayTarget))
  {
    trace', errs := IssueEach(cloud, trace, gateways, NatGatewayTarget);
  }

  /** A delete is issued exactly for the gateways that have an id, whatever VPC they name. */
  lemma NatGatewayDeletes(gateways: seq<NatGateway>, c: Call)
    ensures c in Targets(gateways, NatGatewayTarget) <==>
      exists g :: g in gateways && g.natGatewayId.Some? && c == Api(NatGateways, Delete(g.natGatewayId.value))
  {
    TargetsMember(gateways, NatGatewayTarget, c);
  }

  /** listNatGateways: every gateway of every page of the VPC listing, or the first describe error. */
  method ListNatGateways(cloud: Cloud, trace: seq<Call>, vpcId: string)
    returns (trace': seq<Call>, r: Result<seq<NatGateway>, Err>)
    ensures trace' == trace + Listed(NatGateways, AwsVpc.Ec2VpcFilter(vpcId), cloud.natGateways(trace, AwsVpc.Ec2VpcFilter(vpcId)), All).calls
    ensures r == Listed(NatGateways, AwsVpc.Ec2VpcFilter(vpcId), cloud.natGateways(trace, AwsVpc.Ec2VpcFilter(vpcId)), All).result
  {
    var filters := AwsVpc.Ec2VpcFilter(vpcId);
    trace', r := Paginate(cloud, trace, cloud.natGateways(trace, filters), NatGateways, filters, All);
  }
}
