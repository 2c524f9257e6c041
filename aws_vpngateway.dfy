/** The VPN gateway driver of the teardown (pkg/aws/vpngateway.go): detach from the VPC, then delete. */
module AwsVpnGateway {
  import opened Wrappers
  import opened Sdk
  import opened Cloud
  import AwsInternetGateway

  /** The detaches of one VPN gateway, in attachment order, by the same rule as internet gateways. */
  function VpnDetaches(gatewayId: string, vpcId: string, g: VpnGateway): seq<Call>
  {
    Targets(g.vpcAttachments, AwsInternetGateway.DetachTarget(VpnGateways, gatewayId, vpcId))
  }

  /**
    What one VPN gateway gets, starting from history h: nothing without an id;
    otherwise its detaches, and the delete only when no detach failed. Detach
    errors are never recorded; only the delete's error is.
  */
  function VpnRun(cloud: Cloud, vpcId: string, h: seq<Call>, g: VpnGateway): Run
  {
    if g.vpnGatewayId.None? then NoRun
    else
      var id := g.vpnGatewayId.value;
      var detaches := VpnDetaches(id, vpcId, g);
      if Failures(cloud, h, detaches) != [] then Run(detaches, [])
      else
        var delete := Api(VpnGateways, Delete(id));
        Run(detaches + [delete], AsList(cloud.answer(h + detaches, delete)))
  }

  function VpnItem(cloud: Cloud, vpcId: string): (seq<Call>, VpnGateway) -> Run
  {
    (h: seq<Call>, g: VpnGateway) => VpnRun(cloud, vpcId, h, g)
  }

  /** One pass of deleteVpnGateways' loop: one gateway's detaches, then its delete unless a detach failed. */
  method DeleteVpnGateway(cloud: Cloud, trace: seq<Call>, vpcId: string, g: VpnGateway)
    returns (trace': seq<Call>, errs: seq<Err>)
    ensures trace' == trace + VpnRun(cloud, vpcId, trace, g).calls
    ensures errs == VpnRun(cloud, vpcId, trace, g).errs
  {
    if g.vpnGatewayId.None? {
      assert trace + [] == trace;
      return trace, [];
    }
    var id := g.vpnGatewayId.value;
    var afterDetach, attachmentErrs := IssueEach(cloud, trace, g.vpcAttachments, AwsInternetGateway.DetachTarget(VpnGateways, id, vpcId));
    if attachmentErrs != [] {
      return afterDetach, [];
    }
    var delete := Api(VpnGateways, Delete(id));
    var err := cloud.answer(afterDetach, delete);
    assert afterDetach + [delete] == trace + (VpnDetaches(id, vpcId, g) + [delete]);
    trace', errs := afterDetach + [delete], AsList(err);
  }

  /** deleteVpnGateways: every gateway in turn, one gateway's failure never stopping the next. */
  method DeleteVpnGateways(cloud: Cloud, trace: seq<Call>, vpcId: string, gateways: seq<VpnGateway>)
    returns (trace': seq<Call>, errs: seq<Err>)
    ensures trace' == trace + Each(trace, gateways, VpnItem(cloud, vpcId)).calls
    ensures errs == Each(trace, gateways, VpnItem(cloud, vpcId)).errs
  {
    trace', errs := trace, [];
    for i := 0 to |gateways|
      invariant trace' == trace + Each(trace, gateways[..i], VpnItem(cloud, vpcId)).calls
      invariant errs == Each(trace, gateways[..i], VpnItem(cloud, vpcId)).errs
    {
      assert VpnItem(cloud, vpcId)(trace', gateways[i]) == VpnRun(cloud, vpcId, trace', gateways[i]);
      var next, gatewayErrs := DeleteVpnGateway(cloud, trace', vpcId, gateways[i]);
      EachStep(trace, gateways, i, VpnItem(cloud, vpcId), trace', errs, next, errs + gatewayErrs);
      trace', errs := next, errs + gatewayErrs;
    }
    assert gateways[..|gateways|] == gateways;
  }

  /**
    A VPN gateway with an id is deleted exactly when every detach is answered
    nil, and what it records is at most the delete's error: a failed detach
    leaves no error behind.
  */
  lemma VpnDeleteIffDetached(cloud: Cloud, vpcId: string, h: seq<Call>, g: VpnGateway)
    requires g.vpnGatewayId.Some?
    ensures
      var id := g.vpnGatewayId.value;
      var detaches := VpnDetaches(id, vpcId, g);
      var r := VpnRun(cloud, vpcId, h, g);
      && (Api(VpnGateways, Delete(id)) in r.calls <==>
            forall i :: 0 <= i < |detaches| ==> cloud.answer(h + detaches[..i], detaches[i]).None?)
      && (Api(VpnGateways, Delete(id)) !in r.calls ==> r.errs == [])
      && (Api(VpnGateways, Delete(id)) in r.calls ==> r.errs == AsList(cloud.answer(h + detaches, Api(VpnGateways, Delete(id)))))
  {
    var id := g.vpnGatewayId.value;
    var detaches := VpnDetaches(id, vpcId, g);
    FailuresNone(cloud, h, detaches);
    AwsInternetGateway.DetachesOnly(VpnGateways, id, vpcId, g.vpcAttachments);
  }

  /** The filter listVpnGateways describes with. */
  function VpnFilter(vpcId: string): seq<Filter>
  {
    [Filter("attachment.vpc-id", [vpcId])]
  }

  /** listVpnGateways: a single describe call, no pagination; its gateways or its error. */
  method ListVpnGateways(cloud: Cloud, trace: seq<Call>, vpcId: string)
    returns (trace': seq<Call>, r: Result<seq<VpnGateway>, Err>)
    ensures trace' == trace + [Api(VpnGateways, Describe(VpnFilter(vpcId), None))]
    ensures r == cloud.vpnGateways(trace, VpnFilter(vpcId))
  {
    r := cloud.vpnGateways(trace, VpnFilter(vpcId));
    trace' := trace + [Api(VpnGateways, Describe(VpnFilter(vpcId), None))];
  }
}
