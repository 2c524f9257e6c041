/**
  The order of the teardown pipeline (pkg/aws/cleaner.go): every call an
  attempt issues belongs to one of the sixteen kinds, kinds are visited in
  their fixed order and never revisited, and a listing failure at one kind
  leaves every later kind untouched.
*/
module AwsOrder {
  import opened Wrappers
  import opened Sdk
  import opened Cloud
  import opened AwsPipeline
  import AwsVpc
  import AwsLoadBalancer
  import AwsAutoScalingGroup
  import AwsEc2
  import AwsNetworkAcl
  import AwsElasticIp
  import AwsNatGateway
  import AwsInternetGateway
  import AwsNetworkInterface
  import AwsSubnet
  import AwsSecurityGroup
  import AwsSecurityGroupRule
  import AwsVpnGateway
  import AwsRouteTable
  import AwsNodegroups

  // ---------------------------------------------------------------------
  // Every kind's calls carry that kind's tag
  // ---------------------------------------------------------------------

  lemma TaggedJoin(a: seq<Call>, b: seq<Call>, s: Step)
    requires Tagged(a, s) && Tagged(b, s)
    ensures Tagged(a + b, s)
  {
    forall i | 0 <= i < |a + b| ensures (a + b)[i].Api? && (a + b)[i].step == s {
      if i >= |a| {
        assert (a + b)[i] == b[i - |a|];
      }
    }
  }

  lemma ListedTagged<T>(step: Step, filters: seq<Filter>, p: Pages<T>, keep: T -> bool)
    ensures Tagged(Listed(step, filters, p, keep).calls, step)
  {
    PageCallsShape(step, filters, p, None);
  }

  lemma {:induction false} PassesTagged(cloud: Cloud, h: seq<Call>, vpcId: string, sides: seq<string>)
    ensures Tagged(AwsVpc.Passes(cloud, h, vpcId, sides).calls, Peerings)
    decreases |sides|
  {
    if sides != [] {
      var n := |sides| - 1;
      var before := AwsVpc.Passes(cloud, h, vpcId, sides[..n]);
      PassesTagged(cloud, h, vpcId, sides[..n]);
      if before.result.Success? {
        var filters := AwsVpc.PeeringFilter(sides[n], vpcId);
        ListedTagged(Peerings, filters, cloud.peerings(h + before.calls, filters), All);
        TaggedJoin(before.calls, Listed(Peerings, filters, cloud.peerings(h + before.calls, filters), All).calls, Peerings);
      }
    }
  }

  lemma {:induction false} FilterPassesTagged(cloud: Cloud, h: seq<Call>, filterSets: seq<seq<Filter>>)
    ensures Tagged(AwsAutoScalingGroup.FilterPasses(cloud, h, filterSets).calls, AutoScalingGroups)
    decreases |filterSets|
  {
    if filterSets != [] {
      var n := |filterSets| - 1;
      var before := AwsAutoScalingGroup.FilterPasses(cloud, h, filterSets[..n]);
      FilterPassesTagged(cloud, h, filterSets[..n]);
      if before.result.Success? {
        var p := cloud.autoScalingGroups(h + before.calls, filterSets[n]);
        ListedTagged(AutoScalingGroups, filterSets[n], p, All);
        TaggedJoin(before.calls, Listed(AutoScalingGroups, filterSets[n], p, All).calls, AutoScalingGroups);
      }
    }
  }

  /** A kind that acted: its listing's calls and its act's calls all carry its tag. */
  lemma ActedTagged(listCalls: seq<Call>, done: Run, s: Step)
    requires Tagged(listCalls, s) && Tagged(done.calls, s)
    ensures Tagged(Acted(listCalls, done).calls, s)
  {
    TaggedJoin(listCalls, done.calls, s);
  }

  lemma AsgRunTagged(cloud: Cloud, h: seq<Call>, g: AutoScalingGroup)
    ensures Tagged(AwsAutoScalingGroup.AsgRun(cloud, h, g).calls, AutoScalingGroups)
  {
    if g.autoScalingGroupName.Some? {
      var name := g.autoScalingGroupName.value;
      var resize := AwsAutoScalingGroup.ResizeRun(cloud, h, name, g);
      var rest := AwsAutoScalingGroup.WaitThenDelete(cloud, h + resize.calls, name, AwsAutoScalingGroup.NonNilIds(g.instances));
      TaggedJoin(resize.calls, rest.calls, AutoScalingGroups);
    }
  }

  lemma GatewayRunTagged(cloud: Cloud, vpcId: string, h: seq<Call>, g: InternetGateway)
    ensures Tagged(AwsInternetGateway.GatewayRun(cloud, vpcId, h, g).calls, InternetGateways)
  {
    if g.internetGatewayId.Some? {
      var id := g.internetGatewayId.value;
      TargetsTagged(g.attachments, AwsInternetGateway.DetachTarget(InternetGateways, id, vpcId), InternetGateways);
      TaggedJoin(AwsInternetGateway.GatewayDetaches(id, vpcId, g), [Api(InternetGateways, Delete(id))], InternetGateways);
    }
  }

  lemma VpnRunTagged(cloud: Cloud, vpcId: string, h: seq<Call>, g: VpnGateway)
    ensures Tagged(AwsVpnGateway.VpnRun(cloud, vpcId, h, g).calls, VpnGateways)
  {
    if g.vpnGatewayId.Some? {
      var id := g.vpnGatewayId.value;
      TargetsTagged(g.vpcAttachments, AwsInternetGateway.DetachTarget(VpnGateways, id, vpcId), VpnGateways);
      TaggedJoin(AwsVpnGateway.VpnDetaches(id, vpcId, g), [Api(VpnGateways, Delete(id))], VpnGateways);
    }
  }

  lemma GroupRunTagged(cloud: Cloud, vpcId: string, h: seq<Call>, g: SecurityGroup)
    ensures Tagged(AwsSecurityGroup.GroupRun(cloud, vpcId, h, g).calls, SecurityGroups)
  {
    if g.groupId.Some? && g.vpcId == Some(vpcId) {
      var id := g.groupId.value;
      var listing := AwsSecurityGroup.RuleListing(cloud, h, id);
      var revokes := AwsSecurityGroup.GroupRevokes(id, listing);
      ListedTagged(SecurityGroups, AwsSecurityGroupRule.GroupIdFilter(id), cloud.securityGroupRules(h, AwsSecurityGroupRule.GroupIdFilter(id)), All);
      assert Tagged(revokes, SecurityGroups);
      TaggedJoin(revokes, [Api(SecurityGroups, Delete(id))], SecurityGroups);
      TaggedJoin(listing.calls, AwsSecurityGroup.RevokeThenDelete(cloud, h + listing.calls, id, revokes).calls, SecurityGroups);
    }
  }

  lemma {:induction false} NodegroupDeletesTagged(cloud: Cloud, h: seq<Call>, clusterName: string, groups: seq<string>)
    ensures Tagged(AwsNodegroups.NodegroupDeletes(cloud, h, clusterName, groups).calls, NodeGroups)
    decreases |groups|
  {
    if groups != [] {
      var c := AwsNodegroups.DeleteCall(clusterName, groups[0]);
      NodegroupDeletesTagged(cloud, h + [c], clusterName, groups[1..]);
      TaggedJoin([c], AwsNodegroups.NodegroupDeletes(cloud, h + [c], clusterName, groups[1..]).calls, NodeGroups);
    }
  }

  lemma NodegroupRunTagged(cloud: Cloud, h: seq<Call>, clusterName: string)
    ensures Tagged(AwsNodegroups.NodegroupRun(cloud, h, clusterName).calls, NodeGroups)
  {
    var listing := AwsNodegroups.NodegroupListing(clusterName, cloud.nodegroups(h, clusterName));
    AwsNodegroups.RawCallsAreLists(clusterName, cloud.nodegroups(h, clusterName), None);
    assert Tagged(listing.calls, NodeGroups);
    if listing.result.Success? {
      NodegroupDeletesTagged(cloud, h + listing.calls, clusterName, listing.result.value);
      TaggedJoin(listing.calls, AwsNodegroups.NodegroupDeletes(cloud, h + listing.calls, clusterName, listing.result.value).calls, NodeGroups);
    }
  }

  lemma IndependentTagged<T>(cloud: Cloud, h: seq<Call>, xs: seq<T>, target: T -> Option<Call>, s: Step)
    requires forall x :: x in xs && target(x).Some? ==> target(x).value.Api? && target(x).value.step == s
    ensures Tagged(Independent(cloud, h, Targets(xs, target)).calls, s)
  {
    TargetsTagged(xs, target, s);
  }

  lemma PeeringStageTagged(cloud: Cloud, vpcId: string, h: seq<Call>)
    ensures Tagged(PeeringStage(cloud, vpcId, h).calls, Peerings)
  {
    var l := AwsVpc.Passes(cloud, h, vpcId, AwsVpc.PeeringSides);
    PassesTagged(cloud, h, vpcId, AwsVpc.PeeringSides);
    if l.result.Success? {
      IndependentTagged(cloud, h + l.calls, l.result.value, AwsVpc.PeeringTarget(vpcId), Peerings);
      ActedTagged(l.calls, Independent(cloud, h + l.calls, Targets(l.result.value, AwsVpc.PeeringTarget(vpcId))), Peerings);
    }
  }

  lemma LoadBalancerStageTagged(cloud: Cloud, vpcId: string, h: seq<Call>)
    ensures Tagged(LoadBalancerStage(cloud, vpcId, h).calls, LoadBalancers)
  {
    var l := Listed(LoadBalancers, [], cloud.loadBalancers(h), AwsLoadBalancer.InVpc(vpcId));
    ListedTagged(LoadBalancers, [], cloud.loadBalancers(h), AwsLoadBalancer.InVpc(vpcId));
    if l.result.Success? {
      IndependentTagged(cloud, h + l.calls, l.result.value, AwsLoadBalancer.LoadBalancerTarget, LoadBalancers);
      ActedTagged(l.calls, Independent(cloud, h + l.calls, Targets(l.result.value, AwsLoadBalancer.LoadBalancerTarget)), LoadBalancers);
    }
  }

  lemma AutoScalingStageTagged(cloud: Cloud, clusterName: string, h: seq<Call>)
    ensures Tagged(AutoScalingStage(cloud, clusterName, h).calls, AutoScalingGroups)
  {
    var l := AwsAutoScalingGroup.AsgListing(cloud, h, clusterName);
    FilterPassesTagged(cloud, h, AwsAutoScalingGroup.AutoScalingFilters(clusterName));
    if l.result.Success? {
      forall h': seq<Call>, g | g in l.result.value
        ensures Tagged(AwsAutoScalingGroup.AsgItem(cloud)(h', g).calls, AutoScalingGroups)
      {
        AsgRunTagged(cloud, h', g);
      }
      EachTagged(h + l.calls, l.result.value, AwsAutoScalingGroup.AsgItem(cloud), AutoScalingGroups);
      ActedTagged(l.calls, Each(h + l.calls, l.result.value, AwsAutoScalingGroup.AsgItem(cloud)), AutoScalingGroups);
    }
  }

  lemma InstanceStageTagged(cloud: Cloud, vpcId: string, h: seq<Call>)
    ensures Tagged(InstanceStage(cloud, vpcId, h).calls, Instances)
  {
    var filters := AwsEc2.ReservationFilter(vpcId);
    var l := Listed(Instances, filters, cloud.reservations(h, filters), All);
    ListedTagged(Instances, filters, cloud.reservations(h, filters), All);
    if l.result.Success? {
      ActedTagged(l.calls, AwsEc2.TerminateRun(cloud, h + l.calls, l.result.value), Instances);
    }
  }

  lemma NetworkAclStageTagged(cloud: Cloud, vpcId: string, h: seq<Call>)
    ensures Tagged(NetworkAclStage(cloud, vpcId, h).calls, NetworkAcls)
  {
    var filters := AwsVpc.Ec2VpcFilter(vpcId);
    var l := Listed(NetworkAcls, filters, cloud.networkAcls(h, filters), AwsNetworkAcl.NonDefault);
    ListedTagged(NetworkAcls, filters, cloud.networkAcls(h, filters), AwsNetworkAcl.NonDefault);
    if l.result.Success? {
      IndependentTagged(cloud, h + l.calls, l.result.value, AwsNetworkAcl.NetworkAclTarget(vpcId), NetworkAcls);
      ActedTagged(l.calls, Independent(cloud, h + l.calls, Targets(l.result.value, AwsNetworkAcl.NetworkAclTarget(vpcId))), NetworkAcls);
    }
  }

  lemma ElasticIpStageTagged(cloud: Cloud, clusterName: string, h: seq<Call>)
    ensures Tagged(ElasticIpStage(cloud, clusterName, h).calls, ElasticIps)
  {
    var filters := AwsElasticIp.ElasticIpFilter(clusterName);
    var l := Listing([Api(ElasticIps, Describe(filters, None))], cloud.addresses(h, filters));
    if l.result.Success? {
      IndependentTagged(cloud, h + l.calls, l.result.value, AwsElasticIp.ReleaseTarget, ElasticIps);
      ActedTagged(l.calls, Independent(cloud, h + l.calls, Targets(l.result.value, AwsElasticIp.ReleaseTarget)), ElasticIps);
    }
  }

  lemma NatGatewayStageTagged(cloud: Cloud, vpcId: string, h: seq<Call>)
    ensures Tagged(NatGatewayStage(cloud, vpcId, h).calls, NatGateways)
  {
    var filters := AwsVpc.Ec2VpcFilter(vpcId);
    var l := Listed(NatGateways, filters, cloud.natGateways(h, filters), All);
    ListedTagged(NatGateways, filters, cloud.natGateways(h, filters), All);
    if l.result.Success? {
      IndependentTagged(cloud, h + l.calls, l.result.value, AwsNatGateway.NatGatewayTarget, NatGateways);
      ActedTagged(l.calls, Independent(cloud, h + l.calls, Targets(l.result.value, AwsNatGateway.NatGatewayTarget)), NatGateways);
    }
  }

  lemma InternetGatewayStageTagged(cloud: Cloud, vpcId: string, h: seq<Call>)
    ensures Tagged(InternetGatewayStage(cloud, vpcId, h).calls, InternetGateways)
  {
    var filters := AwsInternetGateway.GatewayFilter(vpcId);
    var l := Listed(InternetGateways, filters, cloud.internetGateways(h, filters), All);
    ListedTagged(InternetGateways, filters, cloud.internetGateways(h, filters), All);
    if l.result.Success? {
      var item := AwsInternetGateway.GatewayItem(cloud, vpcId);
      forall h': seq<Call>, g | g in l.result.value
        ensures Tagged(item(h', g).calls, InternetGateways)
      {
        GatewayRunTagged(cloud, vpcId, h', g);
      }
      EachTagged(h + l.calls, l.result.value, item, InternetGateways);
      ActedTagged(l.calls, Each(h + l.calls, l.result.value, item), InternetGateways);
    }
  }

  lemma NetworkInterfaceStageTagged(cloud: Cloud, vpcId: string, h: seq<Call>)
    ensures Tagged(NetworkInterfaceStage(cloud, vpcId, h).calls, NetworkInterfaces)
  {
    var filters := AwsVpc.Ec2VpcFilter(vpcId);
    var l := Listed(NetworkInterfaces, filters, cloud.networkInterfaces(h, filters), All);
    ListedTagged(NetworkInterfaces, filters, cloud.networkInterfaces(h, filters), All);
    if l.result.Success? {
      var item := AwsNetworkInterface.InterfaceItem(cloud);
      forall h': seq<Call>, n | n in l.result.value
        ensures Tagged(item(h', n).calls, NetworkInterfaces)
      {
      }
      EachTagged(h + l.calls, l.result.value, item, NetworkInterfaces);
      ActedTagged(l.calls, Each(h + l.calls, l.result.value, item), NetworkInterfaces);
    }
  }

  lemma SubnetStageTagged(cloud: Cloud, vpcId: string, h: seq<Call>)
    ensures Tagged(SubnetStage(cloud, vpcId, h).calls, Subnets)
  {
    var filters := AwsSubnet.SubnetFilter(vpcId);
    var l := Listed(Subnets, filters, cloud.subnets(h, filters), All);
    ListedTagged(Subnets, filters, cloud.subnets(h, filters), All);
    if l.result.Success? {
      IndependentTagged(cloud, h + l.calls, l.result.value, AwsSubnet.SubnetTarget(vpcId), Subnets);
      ActedTagged(l.calls, Independent(cloud, h + l.calls, Targets(l.result.value, AwsSubnet.SubnetTarget(vpcId))), Subnets);
    }
  }

  lemma SecurityGroupStageTagged(cloud: Cloud, vpcId: string, h: seq<Call>)
    ensures Tagged(SecurityGroupStage(cloud, vpcId, h).calls, SecurityGroups)
  {
    var filters := AwsVpc.Ec2VpcFilter(vpcId);
    var l := Listed(SecurityGroups, filters, cloud.securityGroups(h, filters), AwsSecurityGroup.NotDefault);
    ListedTagged(SecurityGroups, filters, cloud.securityGroups(h, filters), AwsSecurityGroup.NotDefault);
    if l.result.Success? {
      var item := AwsSecurityGroup.GroupItem(cloud, vpcId);
      forall h': seq<Call>, g | g in l.result.value
        ensures Tagged(item(h', g).calls, SecurityGroups)
      {
        GroupRunTagged(cloud, vpcId, h', g);
      }
      EachTagged(h + l.calls, l.result.value, item, SecurityGroups);
      ActedTagged(l.calls, Each(h + l.calls, l.result.value, item), SecurityGroups);
    }
  }

  lemma VpnGatewayStageTagged(cloud: Cloud, vpcId: string, h: seq<Call>)
    ensures Tagged(VpnGatewayStage(cloud, vpcId, h).calls, VpnGateways)
  {
    var filters := AwsVpnGateway.VpnFilter(vpcId);
    var l := Listing([Api(VpnGateways, Describe(filters, None))], cloud.vpnGateways(h, filters));
    if l.result.Success? {
      var item := AwsVpnGateway.VpnItem(cloud, vpcId);
      forall h': seq<Call>, g | g in l.result.value
        ensures Tagged(item(h', g).calls, VpnGateways)
      {
        VpnRunTagged(cloud, vpcId, h', g);
      }
      EachTagged(h + l.calls, l.result.value, item, VpnGateways);
      ActedTagged(l.calls, Each(h + l.calls, l.result.value, item), VpnGateways);
    }
  }

  lemma RouteTableStageTagged(cloud: Cloud, vpcId: string, h: seq<Call>)
    ensures Tagged(RouteTableStage(cloud, vpcId, h).calls, RouteTables)
  {
    var filters := AwsRouteTable.RouteTableFilter(vpcId);
    var l := Listed(RouteTables, filters, cloud.routeTables(h, filters), All);
    ListedTagged(RouteTables, filters, cloud.routeTables(h, filters), All);
    if l.result.Success? {
      IndependentTagged(cloud, h + l.calls, l.result.value, AwsRouteTable.RouteTableTarget(vpcId), RouteTables);
      ActedTagged(l.calls, Independent(cloud, h + l.calls, Targets(l.result.value, AwsRouteTable.RouteTableTarget(vpcId))), RouteTables);
    }
  }

  /** Kind k's calls all carry the tag of kind k. */
  lemma StageTagged(cloud: Cloud, vpcId: string, clusterName: string, k: nat, h: seq<Call>)
    requires k < StageCount
    ensures Tagged(Stage(cloud, vpcId, clusterName, k, h).calls, StageStep(k))
  {
    match k
    case 0 => PeeringStageTagged(cloud, vpcId, h);
    case 1 => LoadBalancerStageTagged(cloud, vpcId, h);
    case 2 => AutoScalingStageTagged(cloud, clusterName, h);
    case 3 => InstanceStageTagged(cloud, vpcId, h);
    case 4 => NetworkAclStageTagged(cloud, vpcId, h);
    case 5 => ElasticIpStageTagged(cloud, clusterName, h);
    case 6 => NatGatewayStageTagged(cloud, vpcId, h);
    case 7 => InternetGatewayStageTagged(cloud, vpcId, h);
    case 8 => NetworkInterfaceStageTagged(cloud, vpcId, h);
    case 9 => SubnetStageTagged(cloud, vpcId, h);
    case 10 => SecurityGroupStageTagged(cloud, vpcId, h);
    case 11 => VpnGatewayStageTagged(cloud, vpcId, h);
    case 12 => RouteTableStageTagged(cloud, vpcId, h);
    case 13 => NodegroupRunTagged(cloud, h, clusterName);
    case 14 =>
    case 15 =>
  }

  // ---------------------------------------------------------------------
  // The pipeline visits the kinds in order
  // ---------------------------------------------------------------------

  /** Every call is an API call of a pipeline kind at position lo or later and before hi. */
  predicate RanksIn(calls: seq<Call>, lo: nat, hi: nat)
  {
    forall i :: 0 <= i < |calls| ==> calls[i].Api? && lo <= Rank(calls[i].step) < hi
  }

  lemma OrderedJoin(a: seq<Call>, b: seq<Call>, k: nat)
    requires k < StageCount && Tagged(a, StageStep(k))
    requires Ordered(b) && RanksIn(b, k + 1, StageCount)
    ensures Ordered(a + b) && RanksIn(a + b, k, StageCount)
  {
    forall i | 0 <= i < |a + b| ensures (a + b)[i].Api? && k <= Rank((a + b)[i].step) < StageCount {
      if i >= |a| {
        assert (a + b)[i] == b[i - |a|];
      }
    }
    forall i, j | 0 <= i < j < |a + b|
      ensures Rank((a + b)[i].step) <= Rank((a + b)[j].step)
    {
      if i >= |a| {
        assert (a + b)[i] == b[i - |a|] && (a + b)[j] == b[j - |a|];
      } else if j >= |a| {
        assert (a + b)[j] == b[j - |a|];
      }
    }
  }

  /**
    The pipeline from kind k on issues calls of kinds k.. only, in
    nondecreasing kind order; when it stops at a listing failure, its calls
    end at the failing kind.
  */
  lemma {:induction false} FromOrdered(cloud: Cloud, vpcId: string, clusterName: string, k: nat, h: seq<Call>, errs: seq<Err>)
    requires k <= StageCount
    ensures var r := From(Kinds(cloud, vpcId, clusterName), k, h, errs);
      Ordered(r.calls) && RanksIn(r.calls, k, StageCount)
    decreases StageCount - k
  {
    var stage := Kinds(cloud, vpcId, clusterName);
    if k < StageCount {
      var o := stage(k, h);
      KindIs(cloud, vpcId, clusterName, k, h);
      StageTagged(cloud, vpcId, clusterName, k, h);
      if o.listErr.Some? {
        assert o.calls + [] == o.calls;
        OrderedJoin(o.calls, [], k);
      } else {
        FromOrdered(cloud, vpcId, clusterName, k + 1, h + o.calls, errs + o.errs);
        OrderedJoin(o.calls, From(stage, k + 1, h + o.calls, errs + o.errs).calls, k);
      }
    }
  }

  /**
    One attempt of deleteVpcAndEks issues only calls of the sixteen kinds,
    in their fixed order: peering connections, classic load balancers, auto
    scaling groups, instances, network ACLs, elastic IPs, NAT gateways,
    internet gateways, network interfaces, subnets, security groups, VPN
    gateways, route tables, node groups, the VPC, the stack. No call is made
    on behalf of the cluster task or of the v2 load balancer driver.
  */
  lemma TeardownOrdered(cloud: Cloud, vpcId: string, clusterName: string, h: seq<Call>)
    ensures var calls := Teardown(cloud, vpcId, clusterName, h).calls;
      && Ordered(calls)
      && (forall i :: 0 <= i < |calls| ==> calls[i].Api? && calls[i].step != ClusterTask && calls[i].step != LoadBalancersV2)
  {
    FromOrdered(cloud, vpcId, clusterName, 0, h, []);
    RankedKinds(Teardown(cloud, vpcId, clusterName, h).calls);
  }

  /** Calls ranked among the sixteen kinds are API calls of pipeline kinds: none is the cluster task's or the v2 driver's. */
  lemma RankedKinds(calls: seq<Call>)
    requires RanksIn(calls, 0, StageCount)
    ensures forall i :: 0 <= i < |calls| ==> calls[i].Api? && calls[i].step != ClusterTask && calls[i].step != LoadBalancersV2
  {
  }

  // ---------------------------------------------------------------------
  // Where the pipeline stops, and what it returns
  // ---------------------------------------------------------------------

  /** The first kind, from k on, whose listing fails when each runs where the earlier ones left the trace. */
  function Halt(stage: (nat, seq<Call>) -> Outcome, k: nat, h: seq<Call>): Option<(nat, Err)>
    requires k <= StageCount
    decreases StageCount - k
  {
    if k == StageCount then None
    else
      var o := stage(k, h);
      if o.listErr.Some? then Some((k, o.listErr.value))
      else Halt(stage, k + 1, h + o.calls)
  }

  /** The act errors every kind from k on records, up to the first listing failure. */
  function ActErrors(stage: (nat, seq<Call>) -> Outcome, k: nat, h: seq<Call>): seq<Err>
    requires k <= StageCount
    decreases StageCount - k
  {
    if k == StageCount then []
    else
      var o := stage(k, h);
      if o.listErr.Some? then []
      else o.errs + ActErrors(stage, k + 1, h + o.calls)
  }

  /**
    The pipeline's result: a listing failure returns that error alone, the
    act errors recorded before it being dropped; otherwise every kind's act
    errors, in kind order.
  */
  lemma {:induction false} FromErrors(stage: (nat, seq<Call>) -> Outcome, k: nat, h: seq<Call>, errs: seq<Err>)
    requires k <= StageCount
    ensures From(stage, k, h, errs).errs ==
      match Halt(stage, k, h)
      case Some((_, e)) => [e]
      case None => errs + ActErrors(stage, k, h)
    decreases StageCount - k
  {
    if k == StageCount {
      assert errs + [] == errs;
    } else {
      var o := stage(k, h);
      if o.listErr.None? {
        FromErrors(stage, k + 1, h + o.calls, errs + o.errs);
        assert (errs + o.errs) + ActErrors(stage, k + 1, h + o.calls) == errs + (o.errs + ActErrors(stage, k + 1, h + o.calls));
      }
    }
  }

  /** Every call is an API call of a kind at position j or earlier. */
  predicate RanksAtMost(calls: seq<Call>, j: nat)
  {
    forall i :: 0 <= i < |calls| ==> calls[i].Api? && Rank(calls[i].step) <= j
  }

  lemma AtMostJoin(a: seq<Call>, b: seq<Call>, k: nat, j: nat)
    requires k < StageCount && k <= j && Tagged(a, StageStep(k)) && RanksAtMost(b, j)
    ensures RanksAtMost(a + b, j)
  {
    forall i | 0 <= i < |a + b| ensures (a + b)[i].Api? && Rank((a + b)[i].step) <= j {
      if i >= |a| {
        assert (a + b)[i] == b[i - |a|];
      }
    }
  }

  /** The kind a halt reports is the one it started from or a later one. */
  lemma {:induction false} HaltAfter(stage: (nat, seq<Call>) -> Outcome, k: nat, h: seq<Call>)
    requires k <= StageCount
    ensures Halt(stage, k, h).Some? ==> k <= Halt(stage, k, h).value.0 < StageCount
    decreases StageCount - k
  {
    if k < StageCount && stage(k, h).listErr.None? {
      HaltAfter(stage, k + 1, h + stage(k, h).calls);
    }
  }

  /** A listing failure at kind j leaves every later kind untouched: no call of a kind after j is issued. */
  lemma {:induction false} HaltStopsLater(cloud: Cloud, vpcId: string, clusterName: string, k: nat, h: seq<Call>, errs: seq<Err>)
    requires k <= StageCount
    ensures var stage := Kinds(cloud, vpcId, clusterName);
      Halt(stage, k, h).Some? ==> RanksAtMost(From(stage, k, h, errs).calls, Halt(stage, k, h).value.0)
    decreases StageCount - k
  {
    var stage := Kinds(cloud, vpcId, clusterName);
    if k < StageCount && Halt(stage, k, h).Some? {
      var o := stage(k, h);
      var j := Halt(stage, k, h).value.0;
      KindIs(cloud, vpcId, clusterName, k, h);
      StageTagged(cloud, vpcId, clusterName, k, h);
      HaltAfter(stage, k, h);
      if o.listErr.None? {
        HaltStopsLater(cloud, vpcId, clusterName, k + 1, h + o.calls, errs + o.errs);
        AtMostJoin(o.calls, From(stage, k + 1, h + o.calls, errs + o.errs).calls, k, j);
      } else {
        assert o.calls + [] == o.calls;
        AtMostJoin(o.calls, [], k, j);
      }
    }
  }

  /**
    One attempt's error is nil exactly when no listing failed and no kind
    recorded an act error; a listing failure yields exactly one error.
  */
  lemma TeardownErrors(cloud: Cloud, vpcId: string, clusterName: string, h: seq<Call>)
    ensures var stage := Kinds(cloud, vpcId, clusterName);
      var errs := Teardown(cloud, vpcId, clusterName, h).errs;
      && (errs == [] <==> Halt(stage, 0, h).None? && ActErrors(stage, 0, h) == [])
      && (Halt(stage, 0, h).Some? ==> errs == [Halt(stage, 0, h).value.1])
  {
    FromErrors(Kinds(cloud, vpcId, clusterName), 0, h, []);
  }

  /** A cloud that answers every call nil and lists nothing: one attempt issues only listings and the unconditional deletes, and records no error. */
  lemma QuietTeardownClean(vpcId: string, clusterName: string, h: seq<Call>)
    ensures Teardown(Quiet, vpcId, clusterName, h).errs == []
  {
    var stage := Kinds(Quiet, vpcId, clusterName);
    QuietFrom(vpcId, clusterName, 0, h);
    TeardownErrors(Quiet, vpcId, clusterName, h);
  }

  lemma {:induction false} QuietFrom(vpcId: string, clusterName: string, k: nat, h: seq<Call>)
    requires k <= StageCount
    ensures Halt(Kinds(Quiet, vpcId, clusterName), k, h).None?
    ensures ActErrors(Kinds(Quiet, vpcId, clusterName), k, h) == []
    decreases StageCount - k
  {
    if k < StageCount {
      var stage := Kinds(Quiet, vpcId, clusterName);
      KindIs(Quiet, vpcId, clusterName, k, h);
      var o := stage(k, h);
      QuietStage(vpcId, clusterName, k, h);
      QuietFrom(vpcId, clusterName, k + 1, h + o.calls);
    }
  }

  lemma QuietStage(vpcId: string, clusterName: string, k: nat, h: seq<Call>)
    requires k < StageCount
    ensures Stage(Quiet, vpcId, clusterName, k, h).listErr.None?
    ensures Stage(Quiet, vpcId, clusterName, k, h).errs == []
  {
    if k == 0 {
      var l := AwsVpc.Passes(Quiet, h, vpcId, AwsVpc.PeeringSides);
      AwsVpc.PeeringListingMeaning(Quiet, h, vpcId);
    } else if k == 2 {
      QuietAsg(clusterName, h);
    } else if k == 13 {
      var listing := AwsNodegroups.NodegroupListing(clusterName, Quiet.nodegroups(h, clusterName));
      assert listing.result == Success([]);
    }
  }

  lemma QuietAsg(clusterName: string, h: seq<Call>)
    ensures AutoScalingStage(Quiet, clusterName, h).listErr.None?
    ensures AutoScalingStage(Quiet, clusterName, h).errs == []
  {
    var sets := AwsAutoScalingGroup.AutoScalingFilters(clusterName);
    QuietFilterPasses(h, sets);
  }

  lemma {:induction false} QuietFilterPasses(h: seq<Call>, filterSets: seq<seq<Filter>>)
    ensures AwsAutoScalingGroup.FilterPasses(Quiet, h, filterSets).result == Success([])
    decreases |filterSets|
  {
    if filterSets != [] {
      var n := |filterSets| - 1;
      QuietFilterPasses(h, filterSets[..n]);
      var before := AwsAutoScalingGroup.FilterPasses(Quiet, h, filterSets[..n]);
      var pass := Listed(AutoScalingGroups, filterSets[n], Quiet.autoScalingGroups(h + before.calls, filterSets[n]), All);
      assert pass.result == Success([]);
      var none: seq<AutoScalingGroup> := [];
      assert Prepend(none, pass.result) == Success(none + none);
      assert none + none == none;
    }
  }
}
