/**
  The teardown pipeline of one cluster (deleteVpcAndEks in
  pkg/aws/cleaner.go): sixteen resource kinds in a fixed order, each listed
  and then acted on. A listing failure ends the attempt with that error
  alone; an act failure is recorded and the pipeline goes on to the next
  kind.
*/
module AwsPipeline {
  import opened Wrappers
  import opened Sdk
  import opened Cloud
  import AwsVpc
  import AwsLoadBalancer
  import AwsAutoScalingGroup
  import AwsEc2
  import AwsNetworkAcl
  import AwsElasticIp
  import AwsNatGateway
  import AwsInternetGateway
  import AwsNetworkInterface
  import AwsSubnet
  import AwsSecurityGroup
  import AwsVpnGateway
  import AwsRouteTable
  import AwsNodegroups

  /** The number of resource kinds the pipeline walks through. */
  const StageCount := 16

  /** What one resource kind did: its calls, the listing error that stopped the pipeline if any, and the act errors it recorded. */
  datatype Outcome = Outcome(calls: seq<Call>, listErr: Option<Err>, errs: seq<Err>)

  /** The kind at each position of the pipeline. */
  function StageStep(k: nat): (s: Step)
    requires k < StageCount
    ensures Rank(s) == k
  {
    match k
    case 0 => Peerings
    case 1 => LoadBalancers
    case 2 => AutoScalingGroups
    case 3 => Instances
    case 4 => NetworkAcls
    case 5 => ElasticIps
    case 6 => NatGateways
    case 7 => InternetGateways
    case 8 => NetworkInterfaces
    case 9 => Subnets
    case 10 => SecurityGroups
    case 11 => VpnGateways
    case 12 => RouteTables
    case 13 => NodeGroups
    case 14 => Vpcs
    case _ => CloudFormation
  }

  /** Independent act calls issued one after the other from history h, every error kept. */
  function Independent(cloud: Cloud, h: seq<Call>, calls: seq<Call>): Run
  {
    Run(calls, Failures(cloud, h, calls))
  }

  /** A kind whose listing failed: its describe calls, and the error that stops the pipeline. */
  function Stopped(listCalls: seq<Call>, e: Err): Outcome
  {
    Outcome(listCalls, Some(e), [])
  }

  /** A kind whose listing succeeded: its describe calls, then what the act on the listed items did. */
  function Acted(listCalls: seq<Call>, done: Run): Outcome
  {
    Outcome(listCalls + done.calls, None, done.errs)
  }

  /** The stack lookup and the stack delete of the last kind. */
  function ListStacksCall(clusterName: string): Call
  {
    Api(CloudFormation, ListStacks(clusterName))
  }

  function DeleteStacksCall(clusterName: string): Call
  {
    Api(CloudFormation, DeleteStacks(clusterName))
  }

  function PeeringStage(cloud: Cloud, vpcId: string, h: seq<Call>): Outcome
  {
    var l := AwsVpc.Passes(cloud, h, vpcId, AwsVpc.PeeringSides);
    match l.result
    case Failure(e) => Stopped(l.calls, e)
    case Success(cs) => Acted(l.calls, Independent(cloud, h + l.calls, Targets(cs, AwsVpc.PeeringTarget(vpcId))))
  }

  function LoadBalancerStage(cloud: Cloud, vpcId: string, h: seq<Call>): Outcome
  {
    var l := Listed(LoadBalancers, [], cloud.loadBalancers(h), AwsLoadBalancer.InVpc(vpcId));
    match l.result
    case Failure(e) => Stopped(l.calls, e)
    case Success(ds) => Acted(l.calls, Independent(cloud, h + l.calls, Targets(ds, AwsLoadBalancer.LoadBalancerTarget)))
  }

  function AutoScalingStage(cloud: Cloud, clusterName: string, h: seq<Call>): Outcome
  {
    var l := AwsAutoScalingGroup.AsgListing(cloud, h, clusterName);
    match l.result
    case Failure(e) => Stopped(l.calls, e)
    case Success(gs) => Acted(l.calls, Each(h + l.calls, gs, AwsAutoScalingGroup.AsgItem(cloud)))
  }

  function InstanceStage(cloud: Cloud, vpcId: string, h: seq<Call>): Outcome
  {
    var filters := AwsEc2.ReservationFilter(vpcId);
    var l := Listed(Instances, filters, cloud.reservations(h, filters), All);
    match l.result
    case Failure(e) => Stopped(l.calls, e)
    case Success(rs) => Acted(l.calls, AwsEc2.TerminateRun(cloud, h + l.calls, rs))
  }

  function NetworkAclStage(cloud: Cloud, vpcId: string, h: seq<Call>): Outcome
  {
    var filters := AwsVpc.Ec2VpcFilter(vpcId);
    var l := Listed(NetworkAcls, filters, cloud.networkAcls(h, filters), AwsNetworkAcl.NonDefault);
    match l.result
    case Failure(e) => Stopped(l.calls, e)
    case Success(acls) => Acted(l.calls, Independent(cloud, h + l.calls, Targets(acls, AwsNetworkAcl.NetworkAclTarget(vpcId))))
  }

  function ElasticIpStage(cloud: Cloud, clusterName: string, h: seq<Call>): Outcome
  {
    var filters := AwsElasticIp.ElasticIpFilter(clusterName);
    var l := Listing([Api(ElasticIps, Describe(filters, None))], cloud.addresses(h, filters));
    match l.result
    case Failure(e) => Stopped(l.calls, e)
    case Success(ips) => Acted(l.calls, Independent(cloud, h + l.calls, Targets(ips, AwsElasticIp.ReleaseTarget)))
  }

  function NatGatewayStage(cloud: Cloud, vpcId: string, h: seq<Call>): Outcome
  {
    var filters := AwsVpc.Ec2VpcFilter(vpcId);
    var l := Listed(NatGateways, filters, cloud.natGateways(h, filters), All);
    match l.result
    case Failure(e) => Stopped(l.calls, e)
    case Success(gs) => Acted(l.calls, Independent(cloud, h + l.calls, Targets(gs, AwsNatGateway.NatGatewayTarget)))
  }

  function InternetGatewayStage(cloud: Cloud, vpcId: string, h: seq<Call>): Outcome
  {
    var filters := AwsInternetGateway.GatewayFilter(vpcId);
    var l := Listed(InternetGateways, filters, cloud.internetGateways(h, filters), All);
    match l.result
    case Failure(e) => Stopped(l.calls, e)
    case Success(gs) => Acted(l.calls, Each(h + l.calls, gs, AwsInternetGateway.GatewayItem(cloud, vpcId)))
  }

  function NetworkInterfaceStage(cloud: Cloud, vpcId: string, h: seq<Call>): Outcome
  {
    var filters := AwsVpc.Ec2VpcFilter(vpcId);
    var l := Listed(NetworkInterfaces, filters, cloud.networkInterfaces(h, filters), All);
    match l.result
    case Failure(e) => Stopped(l.calls, e)
    case Success(ns) => Acted(l.calls, Each(h + l.calls, ns, AwsNetworkInterface.InterfaceItem(cloud)))
  }

  function SubnetStage(cloud: Cloud, vpcId: string, h: seq<Call>): Outcome
  {
    var filters := AwsSubnet.SubnetFilter(vpcId);
    var l := Listed(Subnets, filters, cloud.subnets(h, filters), All);
    match l.result
    case Failure(e) => Stopped(l.calls, e)
    case Success(ss) => Acted(l.calls, Independent(cloud, h + l.calls, Targets(ss, AwsSubnet.SubnetTarget(vpcId))))
  }

  function SecurityGroupStage(cloud: Cloud, vpcId: string, h: seq<Call>): Outcome
  {
    var filters := AwsVpc.Ec2VpcFilter(vpcId);
    var l := Listed(SecurityGroups, filters, cloud.securityGroups(h, filters), AwsSecurityGroup.NotDefault);
    match l.result
    case Failure(e) => Stopped(l.calls, e)
    case Success(gs) => Acted(l.calls, Each(h + l.calls, gs, AwsSecurityGroup.GroupItem(cloud, vpcId)))
  }

  function VpnGatewayStage(cloud: Cloud, vpcId: string, h: seq<Call>): Outcome
  {
    var filters := AwsVpnGateway.VpnFilter(vpcId);
    var l := Listing([Api(VpnGateways, Describe(filters, None))], cloud.vpnGateways(h, filters));
    match l.result
    case Failure(e) => Stopped(l.calls, e)
    case Success(gs) => Acted(l.calls, Each(h + l.calls, gs, AwsVpnGateway.VpnItem(cloud, vpcId)))
  }

  function RouteTableStage(cloud: Cloud, vpcId: string, h: seq<Call>): Outcome
  {
    var filters := AwsRouteTable.RouteTableFilter(vpcId);
    var l := Listed(RouteTables, filters, cloud.routeTables(h, filters), All);
    match l.result
    case Failure(e) => Stopped(l.calls, e)
    case Success(ts) => Acted(l.calls, Independent(cloud, h + l.calls, Targets(ts, AwsRouteTable.RouteTableTarget(vpcId))))
  }

  /** The node group kind never stops the pipeline: its listing error is its recorded error. */
  function NodeGroupStage(cloud: Cloud, clusterName: string, h: seq<Call>): Outcome
  {
    var r := AwsNodegroups.NodegroupRun(cloud, h, clusterName);
    Outcome(r.calls, None, r.errs)
  }

  function VpcStage(cloud: Cloud, vpcId: string, h: seq<Call>): Outcome
  {
    Outcome([AwsVpc.DeleteVpcCall(vpcId)], None, AsList(AwsVpc.DeleteVpc(cloud, h, vpcId)))
  }

  /** The stack kind: the lookup's failure stops the pipeline; otherwise the delete is issued whatever the lookup found. */
  function StackStage(cloud: Cloud, clusterName: string, h: seq<Call>): Outcome
  {
    var list := ListStacksCall(clusterName);
    match cloud.stacks(h, clusterName)
    case Some(e) => Stopped([list], e)
    case None =>
      var delete := DeleteStacksCall(clusterName);
      Acted([list], Run([delete], AsList(cloud.answer(h + [list], delete))))
  }

  /** Kind k of the pipeline, starting from history h. */
  function Stage(cloud: Cloud, vpcId: string, clusterName: string, k: nat, h: seq<Call>): Outcome
    requires k < StageCount
  {
    match k
    case 0 => PeeringStage(cloud, vpcId, h)
    case 1 => LoadBalancerStage(cloud, vpcId, h)
    case 2 => AutoScalingStage(cloud, clusterName, h)
    case 3 => InstanceStage(cloud, vpcId, h)
    case 4 => NetworkAclStage(cloud, vpcId, h)
    case 5 => ElasticIpStage(cloud, clusterName, h)
    case 6 => NatGatewayStage(cloud, vpcId, h)
    case 7 => InternetGatewayStage(cloud, vpcId, h)
    case 8 => NetworkInterfaceStage(cloud, vpcId, h)
    case 9 => SubnetStage(cloud, vpcId, h)
    case 10 => SecurityGroupStage(cloud, vpcId, h)
    case 11 => VpnGatewayStage(cloud, vpcId, h)
    case 12 => RouteTableStage(cloud, vpcId, h)
    case 13 => NodeGroupStage(cloud, clusterName, h)
    case 14 => VpcStage(cloud, vpcId, h)
    case _ => StackStage(cloud, clusterName, h)
  }

  /** The kinds in their order, as one function of the kind's index and the history it starts from. */
  function Kinds(cloud: Cloud, vpcId: string, clusterName: string): (nat, seq<Call>) -> Outcome
  {
    (k: nat, h: seq<Call>) => if k < StageCount then Stage(cloud, vpcId, clusterName, k, h) else Outcome([], None, [])
  }

  lemma KindIs(cloud: Cloud, vpcId: string, clusterName: string, k: nat, h: seq<Call>)
    requires k < StageCount
    ensures Kinds(cloud, vpcId, clusterName)(k, h) == Stage(cloud, vpcId, clusterName, k, h)
  {
  }

  /**
    The pipeline from kind k on, from history h, with `errs` the errors
    recorded so far: a listing failure ends it with that error alone, the
    errors recorded so far being dropped; otherwise the kind's act errors are
    appended and the next kind runs.
  */
  function From(stage: (nat, seq<Call>) -> Outcome, k: nat, h: seq<Call>, errs: seq<Err>): Run
    requires k <= StageCount
    decreases StageCount - k
  {
    if k == StageCount then Run([], errs)
    else
      var o := stage(k, h);
      if o.listErr.Some? then Run(o.calls, [o.listErr.value])
      else
        var rest := From(stage, k + 1, h + o.calls, errs + o.errs);
        Run(o.calls + rest.calls, rest.errs)
  }

  /** One attempt of the whole pipeline from history h. */
  function Teardown(cloud: Cloud, vpcId: string, clusterName: string, h: seq<Call>): Run
  {
    From(Kinds(cloud, vpcId, clusterName), 0, h, [])
  }

  // ---------------------------------------------------------------------
  // The pipeline as a straight-line method
  // ---------------------------------------------------------------------

  /** Kinds 0..k-1 took the trace from h0 to `trace`, recording `errs`, and the pipeline from kind k on completes `target`. */
  ghost predicate At(stage: (nat, seq<Call>) -> Outcome, h0: seq<Call>, target: Run, k: nat, trace: seq<Call>, errs: seq<Err>)
    requires k <= StageCount
  {
    var rest := From(stage, k, trace, errs);
    h0 + target.calls == trace + rest.calls && target.errs == rest.errs
  }

  lemma Advance(stage: (nat, seq<Call>) -> Outcome, h0: seq<Call>, target: Run, k: nat, trace: seq<Call>, errs: seq<Err>, o: Outcome)
    requires k < StageCount && At(stage, h0, target, k, trace, errs)
    requires o == stage(k, trace) && o.listErr.None?
    ensures At(stage, h0, target, k + 1, trace + o.calls, errs + o.errs)
  {
    var rest := From(stage, k + 1, trace + o.calls, errs + o.errs);
    assert trace + (o.calls + rest.calls) == (trace + o.calls) + rest.calls;
  }

  lemma Halt(stage: (nat, seq<Call>) -> Outcome, h0: seq<Call>, target: Run, k: nat, trace: seq<Call>, errs: seq<Err>, o: Outcome)
    requires k < StageCount && At(stage, h0, target, k, trace, errs)
    requires o == stage(k, trace) && o.listErr.Some?
    ensures h0 + target.calls == trace + o.calls && target.errs == [o.listErr.value]
  {
  }

  lemma Finish(stage: (nat, seq<Call>) -> Outcome, h0: seq<Call>, target: Run, trace: seq<Call>, errs: seq<Err>)
    requires At(stage, h0, target, StageCount, trace, errs)
    ensures trace == h0 + target.calls && errs == target.errs
  {
    assert trace + [] == trace;
  }

  /** After kind k: the pipeline stopped, having completed `target`, or kind k + 1 is next. */
  ghost predicate Next(stage: (nat, seq<Call>) -> Outcome, h0: seq<Call>, target: Run, k: nat,
                       trace: seq<Call>, listErr: Option<Err>, errs: seq<Err>)
    requires k < StageCount
  {
    if listErr.Some? then h0 + target.calls == trace && target.errs == [listErr.value]
    else At(stage, h0, target, k + 1, trace, errs)
  }

  /** One kind of the pipeline, run where the earlier ones left the trace. */
  lemma Step(cloud: Cloud, vpcId: string, clusterName: string, h0: seq<Call>, target: Run, k: nat,
             trace: seq<Call>, errs: seq<Err>, trace': seq<Call>, listErr: Option<Err>, e: seq<Err>)
    requires k < StageCount && At(Kinds(cloud, vpcId, clusterName), h0, target, k, trace, errs)
    requires Did(trace, trace', listErr, e, Stage(cloud, vpcId, clusterName, k, trace))
    ensures Next(Kinds(cloud, vpcId, clusterName), h0, target, k, trace', listErr, errs + e)
  {
    var stage := Kinds(cloud, vpcId, clusterName);
    KindIs(cloud, vpcId, clusterName, k, trace);
    var o := stage(k, trace);
    if listErr.Some? {
      Halt(stage, h0, target, k, trace, errs, o);
    } else {
      Advance(stage, h0, target, k, trace, errs, o);
    }
  }

  /** The kind's calls took the trace from `trace` to `trace'`, and it ended as `o` says. */
  predicate Did(trace: seq<Call>, trace': seq<Call>, listErr: Option<Err>, errs: seq<Err>, o: Outcome)
  {
    trace' == trace + o.calls && listErr == o.listErr && errs == o.errs
  }

  /** One list-then-act block of deleteVpcAndEks: PeeringStage. */
  method DeletePeeringsKind(cloud: Cloud, trace: seq<Call>, vpcId: string)
    returns (trace': seq<Call>, listErr: Option<Err>, errs: seq<Err>)
    ensures Did(trace, trace', listErr, errs, PeeringStage(cloud, vpcId, trace))
  {
    var listed, found := AwsVpc.ListVpcPeeringConnections(cloud, trace, vpcId);
    ghost var l := AwsVpc.Passes(cloud, trace, vpcId, AwsVpc.PeeringSides);
    assert listed == trace + l.calls && found == l.result;
    if found.Failure? {
      assert PeeringStage(cloud, vpcId, trace) == Stopped(l.calls, found.error);
      return listed, Some(found.error), [];
    }
    ghost var done := Independent(cloud, listed, Targets(found.value, AwsVpc.PeeringTarget(vpcId)));
    assert PeeringStage(cloud, vpcId, trace) == Acted(l.calls, done);
    trace', errs := AwsVpc.DeleteVpcPeeringConnections(cloud, listed, vpcId, found.value);
    Joined(trace, listed, trace', l.calls, done.calls);
    listErr := None;
  }

  /** One list-then-act block of deleteVpcAndEks: LoadBalancerStage. */
  method DeleteLoadBalancersKind(cloud: Cloud, trace: seq<Call>, vpcId: string)
    returns (trace': seq<Call>, listErr: Option<Err>, errs: seq<Err>)
    ensures Did(trace, trace', listErr, errs, LoadBalancerStage(cloud, vpcId, trace))
  {
    var listed, found := AwsLoadBalancer.ListLoadBalancers(cloud, trace, vpcId);
    ghost var l := Listed(LoadBalancers, [], cloud.loadBalancers(trace), AwsLoadBalancer.InVpc(vpcId));
    assert listed == trace + l.calls && found == l.result;
    if found.Failure? {
      assert LoadBalancerStage(cloud, vpcId, trace) == Stopped(l.calls, found.error);
      return listed, Some(found.error), [];
    }
    ghost var done := Independent(cloud, listed, Targets(found.value, AwsLoadBalancer.LoadBalancerTarget));
    assert LoadBalancerStage(cloud, vpcId, trace) == Acted(l.calls, done);
    trace', errs := AwsLoadBalancer.DeleteLoadBalancers(cloud, listed, found.value);
    Joined(trace, listed, trace', l.calls, done.calls);
    listErr := None;
  }

  /** One list-then-act block of deleteVpcAndEks: AutoScalingStage. */
  method DeleteAutoScalingGroupsKind(cloud: Cloud, trace: seq<Call>, clusterName: string)
    returns (trace': seq<Call>, listErr: Option<Err>, errs: seq<Err>)
    ensures Did(trace, trace', listErr, errs, AutoScalingStage(cloud, clusterName, trace))
  {
    var listed, found := AwsAutoScalingGroup.ListAutoScalingGroups(cloud, trace, clusterName);
    ghost var l := AwsAutoScalingGroup.AsgListing(cloud, trace, clusterName);
    assert listed == trace + l.calls && found == l.result;
    if found.Failure? {
      assert AutoScalingStage(cloud, clusterName, trace) == Stopped(l.calls, found.error);
      return listed, Some(found.error), [];
    }
    ghost var done := Each(listed, found.value, AwsAutoScalingGroup.AsgItem(cloud));
    assert AutoScalingStage(cloud, clusterName, trace) == Acted(l.calls, done);
    trace', errs := AwsAutoScalingGroup.DeleteAutoScalingGroups(cloud, listed, found.value);
    Joined(trace, listed, trace', l.calls, done.calls);
    listErr := None;
  }

  /** One list-then-act block of deleteVpcAndEks: InstanceStage. */
  method DeleteInstancesKind(cloud: Cloud, trace: seq<Call>, vpcId: string)
    returns (trace': seq<Call>, listErr: Option<Err>, errs: seq<Err>)
    ensures Did(trace, trace', listErr, errs, InstanceStage(cloud, vpcId, trace))
  {
    var listed, found := AwsEc2.ListReservations(cloud, trace, vpcId);
    ghost var l := Listed(Instances, AwsEc2.ReservationFilter(vpcId), cloud.reservations(trace, AwsEc2.ReservationFilter(vpcId)), All);
    assert listed == trace + l.calls && found == l.result;
    if found.Failure? {
      assert InstanceStage(cloud, vpcId, trace) == Stopped(l.calls, found.error);
      return listed, Some(found.error), [];
    }
    ghost var done := AwsEc2.TerminateRun(cloud, listed, found.value);
    assert InstanceStage(cloud, vpcId, trace) == Acted(l.calls, done);
    var err;
    trace', err := AwsEc2.TerminateInstancesInReservations(cloud, listed, found.value);
    Joined(trace, listed, trace', l.calls, done.calls);
    listErr, errs := None, AsList(err);
  }

  /** One list-then-act block of deleteVpcAndEks: NetworkAclStage. */
  method DeleteNetworkAclsKind(cloud: Cloud, trace: seq<Call>, vpcId: string)
    returns (trace': seq<Call>, listErr: Option<Err>, errs: seq<Err>)
    ensures Did(trace, trace', listErr, errs, NetworkAclStage(cloud, vpcId, trace))
  {
    var listed, found := AwsNetworkAcl.ListNonDefaultNetworkAcls(cloud, trace, vpcId);
    ghost var l := Listed(NetworkAcls, AwsVpc.Ec2VpcFilter(vpcId), cloud.networkAcls(trace, AwsVpc.Ec2VpcFilter(vpcId)), AwsNetworkAcl.NonDefault);
    assert listed == trace + l.calls && found == l.result;
    if found.Failure? {
      assert NetworkAclStage(cloud, vpcId, trace) == Stopped(l.calls, found.error);
      return listed, Some(found.error), [];
    }
    ghost var done := Independent(cloud, listed, Targets(found.value, AwsNetworkAcl.NetworkAclTarget(vpcId)));
    assert NetworkAclStage(cloud, vpcId, trace) == Acted(l.calls, done);
    trace', errs := AwsNetworkAcl.DeleteNetworkAcls(cloud, listed, vpcId, found.value);
    Joined(trace, listed, trace', l.calls, done.calls);
    listErr := None;
  }

  /** One list-then-act block of deleteVpcAndEks: ElasticIpStage. */
  method DeleteElasticIpsKind(cloud: Cloud, trace: seq<Call>, clusterName: string)
    returns (trace': seq<Call>, listErr: Option<Err>, errs: seq<Err>)
    ensures Did(trace, trace', listErr, errs, ElasticIpStage(cloud, clusterName, trace))
  {
    var listed, found := AwsElasticIp.ListElasticIps(cloud, trace, clusterName);
    ghost var l := Listing([Api(ElasticIps, Describe(AwsElasticIp.ElasticIpFilter(clusterName), None))], cloud.addresses(trace, AwsElasticIp.ElasticIpFilter(clusterName)));
    assert listed == trace + l.calls && found == l.result;
    if found.Failure? {
      assert ElasticIpStage(cloud, clusterName, trace) == Stopped(l.calls, found.error);
      return listed, Some(found.error), [];
    }
    ghost var done := Independent(cloud, listed, Targets(found.value, AwsElasticIp.ReleaseTarget));
    assert ElasticIpStage(cloud, clusterName, trace) == Acted(l.calls, done);
    trace', errs := AwsElasticIp.ReleaseElasticIps(cloud, listed, found.value);
    Joined(trace, listed, trace', l.calls, done.calls);
    listErr := None;
  }

  /** One list-then-act block of deleteVpcAndEks: NatGatewayStage. */
  method DeleteNatGatewaysKind(cloud: Cloud, trace: seq<Call>, vpcId: string)
    returns (trace': seq<Call>, listErr: Option<Err>, errs: seq<Err>)
    ensures Did(trace, trace', listErr, errs, NatGatewayStage(cloud, vpcId, trace))
  {
    var listed, found := AwsNatGateway.ListNatGateways(cloud, trace, vpcId);
    ghost var l := Listed(NatGateways, AwsVpc.Ec2VpcFilter(vpcId), cloud.natGateways(trace, AwsVpc.Ec2VpcFilter(vpcId)), All);
    assert listed == trace + l.calls && found == l.result;
    if found.Failure? {
      assert NatGatewayStage(cloud, vpcId, trace) == Stopped(l.calls, found.error);
      return listed, Some(found.error), [];
    }
    ghost var done := Independent(cloud, listed, Targets(found.value, AwsNatGateway.NatGatewayTarget));
    assert NatGatewayStage(cloud, vpcId, trace) == Acted(l.calls, done);
    trace', errs := AwsNatGateway.DeleteNatGateways(cloud, listed, found.value);
    Joined(trace, listed, trace', l.calls, done.calls);
    listErr := None;
  }

  /** One list-then-act block of deleteVpcAndEks: InternetGatewayStage. */
  method DeleteInternetGatewaysKind(cloud: Cloud, trace: seq<Call>, vpcId: string)
    returns (trace': seq<Call>, listErr: Option<Err>, errs: seq<Err>)
    ensures Did(trace, trace', listErr, errs, InternetGatewayStage(cloud, vpcId, trace))
  {
    var listed, found := AwsInternetGateway.ListInternetGateways(cloud, trace, vpcId);
    ghost var l := Listed(InternetGateways, AwsInternetGateway.GatewayFilter(vpcId), cloud.internetGateways(trace, AwsInternetGateway.GatewayFilter(vpcId)), All);
    assert listed == trace + l.calls && found == l.result;
    if found.Failure? {
      assert InternetGatewayStage(cloud, vpcId, trace) == Stopped(l.calls, found.error);
      return listed, Some(found.error), [];
    }
    ghost var done := Each(listed, found.value, AwsInternetGateway.GatewayItem(cloud, vpcId));
    assert InternetGatewayStage(cloud, vpcId, trace) == Acted(l.calls, done);
    trace', errs := AwsInternetGateway.DeleteInternetGateways(cloud, listed, vpcId, found.value);
    Joined(trace, listed, trace', l.calls, done.calls);
    listErr := None;
  }

  /** One list-then-act block of deleteVpcAndEks: NetworkInterfaceStage. */
  method DeleteNetworkInterfacesKind(cloud: Cloud, trace: seq<Call>, vpcId: string)
    returns (trace': seq<Call>, listErr: Option<Err>, errs: seq<Err>)
    ensures Did(trace, trace', listErr, errs, NetworkInterfaceStage(cloud, vpcId, trace))
  {
    var listed, found := AwsNetworkInterface.ListNetworkInterfaces(cloud, trace, vpcId);
    ghost var l := Listed(NetworkInterfaces, AwsVpc.Ec2VpcFilter(vpcId), cloud.networkInterfaces(trace, AwsVpc.Ec2VpcFilter(vpcId)), All);
    assert listed == trace + l.calls && found == l.result;
    if found.Failure? {
      assert NetworkInterfaceStage(cloud, vpcId, trace) == Stopped(l.calls, found.error);
      return listed, Some(found.error), [];
    }
    ghost var done := Each(listed, found.value, AwsNetworkInterface.InterfaceItem(cloud));
    assert NetworkInterfaceStage(cloud, vpcId, trace) == Acted(l.calls, done);
    trace', errs := AwsNetworkInterface.DeleteNetworkInterfaces(cloud, listed, found.value);
    Joined(trace, listed, trace', l.calls, done.calls);
    listErr := None;
  }

  /** One list-then-act block of deleteVpcAndEks: SubnetStage. */
  method DeleteSubnetsKind(cloud: Cloud, trace: seq<Call>, vpcId: string)
    returns (trace': seq<Call>, listErr: Option<Err>, errs: seq<Err>)
    ensures Did(trace, trace', listErr, errs, SubnetStage(cloud, vpcId, trace))
  {
    var listed, found := AwsSubnet.ListSubnets(cloud, trace, vpcId);
    ghost var l := Listed(Subnets, AwsSubnet.SubnetFilter(vpcId), cloud.subnets(trace, AwsSubnet.SubnetFilter(vpcId)), All);
    assert listed == trace + l.calls && found == l.result;
    if found.Failure? {
      assert SubnetStage(cloud, vpcId, trace) == Stopped(l.calls, found.error);
      return listed, Some(found.error), [];
    }
    ghost var done := Independent(cloud, listed, Targets(found.value, AwsSubnet.SubnetTarget(vpcId)));
    assert SubnetStage(cloud, vpcId, trace) == Acted(l.calls, done);
    trace', errs := AwsSubnet.DeleteSubnets(cloud, listed, vpcId, found.value);
    Joined(trace, listed, trace', l.calls, done.calls);
    listErr := None;
  }

  /** One list-then-act block of deleteVpcAndEks: SecurityGroupStage. */
  method DeleteSecurityGroupsKind(cloud: Cloud, trace: seq<Call>, vpcId: string)
    returns (trace': seq<Call>, listErr: Option<Err>, errs: seq<Err>)
    ensures Did(trace, trace', listErr, errs, SecurityGroupStage(cloud, vpcId, trace))
  {
    var listed, found := AwsSecurityGroup.ListNonDefaultSecurityGroups(cloud, trace, vpcId);
    ghost var l := Listed(SecurityGroups, AwsVpc.Ec2VpcFilter(vpcId), cloud.securityGroups(trace, AwsVpc.Ec2VpcFilter(vpcId)), AwsSecurityGroup.NotDefault);
    assert listed == trace + l.calls && found == l.result;
    if found.Failure? {
      assert SecurityGroupStage(cloud, vpcId, trace) == Stopped(l.calls, found.error);
      return listed, Some(found.error), [];
    }
    ghost var done := Each(listed, found.value, AwsSecurityGroup.GroupItem(cloud, vpcId));
    assert SecurityGroupStage(cloud, vpcId, trace) == Acted(l.calls, done);
    trace', errs := AwsSecurityGroup.DeleteSecurityGroups(cloud, listed, vpcId, found.value);
    Joined(trace, listed, trace', l.calls, done.calls);
    listErr := None;
  }

  /** One list-then-act block of deleteVpcAndEks: VpnGatewayStage. */
  method DeleteVpnGatewaysKind(cloud: Cloud, trace: seq<Call>, vpcId: string)
    returns (trace': seq<Call>, listErr: Option<Err>, errs: seq<Err>)
    ensures Did(trace, trace', listErr, errs, VpnGatewayStage(cloud, vpcId, trace))
  {
    var listed, found := AwsVpnGateway.ListVpnGateways(cloud, trace, vpcId);
    ghost var l := Listing([Api(VpnGateways, Describe(AwsVpnGateway.VpnFilter(vpcId), None))], cloud.vpnGateways(trace, AwsVpnGateway.VpnFilter(vpcId)));
    assert listed == trace + l.calls && found == l.result;
    if found.Failure? {
      assert VpnGatewayStage(cloud, vpcId, trace) == Stopped(l.calls, found.error);
      return listed, Some(found.error), [];
    }
    ghost var done := Each(listed, found.value, AwsVpnGateway.VpnItem(cloud, vpcId));
    assert VpnGatewayStage(cloud, vpcId, trace) == Acted(l.calls, done);
    trace', errs := AwsVpnGateway.DeleteVpnGateways(cloud, listed, vpcId, found.value);
    Joined(trace, listed, trace', l.calls, done.calls);
    listErr := None;
  }

  /** One list-then-act block of deleteVpcAndEks: RouteTableStage. */
  method DeleteRouteTablesKind(cloud: Cloud, trace: seq<Call>, vpcId: string)
    returns (trace': seq<Call>, listErr: Option<Err>, errs: seq<Err>)
    ensures Did(trace, trace', listErr, errs, RouteTableStage(cloud, vpcId, trace))
  {
    var listed, found := AwsRouteTable.ListRouteTables(cloud, trace, vpcId);
    ghost var l := Listed(RouteTables, AwsRouteTable.RouteTableFilter(vpcId), cloud.routeTables(trace, AwsRouteTable.RouteTableFilter(vpcId)), All);
    assert listed == trace + l.calls && found == l.result;
    if found.Failure? {
      assert RouteTableStage(cloud, vpcId, trace) == Stopped(l.calls, found.error);
      return listed, Some(found.error), [];
    }
    ghost var done := Independent(cloud, listed, Targets(found.value, AwsRouteTable.RouteTableTarget(vpcId)));
    assert RouteTableStage(cloud, vpcId, trace) == Acted(l.calls, done);
    trace', errs := AwsRouteTable.DeleteRouteTables(cloud, listed, vpcId, found.value);
    Joined(trace, listed, trace', l.calls, done.calls);
    listErr := None;
  }

  /**
    deleteVpcAndEks: list and act on every kind in order; a listing failure
    returns that error alone; an act failure is appended and the next kind
    runs.
  */
  method DeleteVpcAndEks(cloud: Cloud, trace: seq<Call>, vpcId: string, clusterName: string)
    returns (trace': seq<Call>, errs: seq<Err>)
    ensures trace' == trace + Teardown(cloud, vpcId, clusterName, trace).calls
    ensures errs == Teardown(cloud, vpcId, clusterName, trace).errs
  {
    ghost var h0 := trace;
    trace', errs := trace, [];
    ghost var target := Teardown(cloud, vpcId, clusterName, h0);
    assert At(Kinds(cloud, vpcId, clusterName), h0, target, 0, trace', errs);
    var at, listErr, e;

    at := trace';
    trace', listErr, e := DeletePeeringsKind(cloud, at, vpcId);
    Step(cloud, vpcId, clusterName, h0, target, 0, at, errs, trace', listErr, e);
    if listErr.Some? {
      return trace', [listErr.value];
    }
    errs := errs + e;

    at := trace';
    trace', listErr, e := DeleteLoadBalancersKind(cloud, at, vpcId);
    Step(cloud, vpcId, clusterName, h0, target, 1, at, errs, trace', listErr, e);
    if listErr.Some? {
      return trace', [listErr.value];
    }
    errs := errs + e;

    at := trace';
    trace', listErr, e := DeleteAutoScalingGroupsKind(cloud, at, clusterName);
    Step(cloud, vpcId, clusterName, h0, target, 2, at, errs, trace', listErr, e);
    if listErr.Some? {
      return trace', [listErr.value];
    }
    errs := errs + e;

    at := trace';
    trace', listErr, e := DeleteInstancesKind(cloud, at, vpcId);
    Step(cloud, vpcId, clusterName, h0, target, 3, at, errs, trace', listErr, e);
    if listErr.Some? {
      return trace', [listErr.value];
    }
    errs := errs + e;

    at := trace';
    trace', listErr, e := DeleteNetworkAclsKind(cloud, at, vpcId);
    Step(cloud, vpcId, clusterName, h0, target, 4, at, errs, trace', listErr, e);
    if listErr.Some? {
      return trace', [listErr.value];
    }
    errs := errs + e;

    at := trace';
    trace', listErr, e := DeleteElasticIpsKind(cloud, at, clusterName);
    Step(cloud, vpcId, clusterName, h0, target, 5, at, errs, trace', listErr, e);
    if listErr.Some? {
      return trace', [listErr.value];
    }
    errs := errs + e;

    at := trace';
    trace', listErr, e := DeleteNatGatewaysKind(cloud, at, vpcId);
    Step(cloud, vpcId, clusterName, h0, target, 6, at, errs, trace', listErr, e);
    if listErr.Some? {
      return trace', [listErr.value];
    }
    errs := errs + e;

    at := trace';
    trace', listErr, e := DeleteInternetGatewaysKind(cloud, at, vpcId);
    Step(cloud, vpcId, clusterName, h0, target, 7, at, errs, trace', listErr, e);
    if listErr.Some? {
      return trace', [listErr.value];
    }
    errs := errs + e;

    at := trace';
    trace', listErr, e := DeleteNetworkInterfacesKind(cloud, at, vpcId);
    Step(cloud, vpcId, clusterName, h0, target, 8, at, errs, trace', listErr, e);
    if listErr.Some? {
      return trace', [listErr.value];
    }
    errs := errs + e;

    at := trace';
    trace', listErr, e := DeleteSubnetsKind(cloud, at, vpcId);
    Step(cloud, vpcId, clusterName, h0, target, 9, at, errs, trace', listErr, e);
    if listErr.Some? {
      return trace', [listErr.value];
    }
    errs := errs + e;

    at := trace';
    trace', listErr, e := DeleteSecurityGroupsKind(cloud, at, vpcId);
    Step(cloud, vpcId, clusterName, h0, target, 10, at, errs, trace', listErr, e);
    if listErr.Some? {
      return trace', [listErr.value];
    }
    errs := errs + e;

    at := trace';
    trace', listErr, e := DeleteVpnGatewaysKind(cloud, at, vpcId);
    Step(cloud, vpcId, clusterName, h0, target, 11, at, errs, trace', listErr, e);
    if listErr.Some? {
      return trace', [listErr.value];
    }
    errs := errs + e;

    at := trace';
    trace', listErr, e := DeleteRouteTablesKind(cloud, at, vpcId);
    Step(cloud, vpcId, clusterName, h0, target, 12, at, errs, trace', listErr, e);
    if listErr.Some? {
      return trace', [listErr.value];
    }
    errs := errs + e;

    at := trace';
    trace', e := DeleteNodeGroupsKind(cloud, at, clusterName);
    Step(cloud, vpcId, clusterName, h0, target, 13, at, errs, trace', None, e);
    errs := errs + e;

    at := trace';
    trace', e := DeleteVpcKind(cloud, at, vpcId);
    Step(cloud, vpcId, clusterName, h0, target, 14, at, errs, trace', None, e);
    errs := errs + e;

    at := trace';
    trace', listErr, e := DeleteStacksKind(cloud, at, clusterName);
    Step(cloud, vpcId, clusterName, h0, target, 15, at, errs, trace', listErr, e);
    if listErr.Some? {
      return trace', [listErr.value];
    }
    errs := errs + e;
    Finish(Kinds(cloud, vpcId, clusterName), h0, target, trace', errs);
  }

  /** The node group block of deleteVpcAndEks: its error, a listing error included, is appended and never stops the pipeline. */
  method DeleteNodeGroupsKind(cloud: Cloud, trace: seq<Call>, clusterName: string)
    returns (trace': seq<Call>, errs: seq<Err>)
    ensures Did(trace, trace', None, errs, NodeGroupStage(cloud, clusterName, trace))
  {
    var err;
    trace', err := AwsNodegroups.DeleteClusterNodeGroups(cloud, trace, clusterName);
    errs := AsList(err);
  }

  /** The VPC block of deleteVpcAndEks: one delete, its error appended unless the VPC is already gone. */
  method DeleteVpcKind(cloud: Cloud, trace: seq<Call>, vpcId: string)
    returns (trace': seq<Call>, errs: seq<Err>)
    ensures Did(trace, trace', None, errs, VpcStage(cloud, vpcId, trace))
  {
    errs := AsList(AwsVpc.DeleteVpc(cloud, trace, vpcId));
    trace' := trace + [AwsVpc.DeleteVpcCall(vpcId)];
  }

  /** The stack block of deleteVpcAndEks: look the cluster's stack up; on success delete it. */
  method DeleteStacksKind(cloud: Cloud, trace: seq<Call>, clusterName: string)
    returns (trace': seq<Call>, listErr: Option<Err>, errs: seq<Err>)
    ensures Did(trace, trace', listErr, errs, StackStage(cloud, clusterName, trace))
  {
    listErr := cloud.stacks(trace, clusterName);
    trace' := trace + [ListStacksCall(clusterName)];
    if listErr.Some? {
      return trace', listErr, [];
    }
    var err := cloud.answer(trace', DeleteStacksCall(clusterName));
    trace' := trace' + [DeleteStacksCall(clusterName)];
    errs := AsList(err);
  }
}
