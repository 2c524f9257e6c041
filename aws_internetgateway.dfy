/** The internet gateway driver of the teardown (pkg/aws/internetgateway.go): detach from the VPC, then delete. */
module AwsInternetGateway {
  import opened Wrappers
  import opened Sdk
  import opened Cloud

  /** The detach an attachment gets: none when it is detaching or detached already, or names another VPC. */
  function DetachTarget(step: Step, gatewayId: string, vpcId: string): Attachment -> Option<Call>
  {
    (a: Attachment) =>
      if a.state != Detaching && a.state != Detached && a.vpcId == Some(vpcId)
      then Some(Api(step, Detach(gatewayId, vpcId)))
      else None
  }

  /** The detaches of one gateway, in attachment order. */
  function GatewayDetaches(gatewayId: string, vpcId: string, g: InternetGateway): seq<Call>
  {
    Targets(g.attachments, DetachTarget(InternetGateways, gatewayId, vpcId))
  }

  /**
    What one gateway gets, starting from history h: nothing without an id;
    otherwise its detaches, every detach error recorded, and the delete only
    when no detach failed.
  */
  function GatewayRun(cloud: Cloud, vpcId: string, h: seq<Call>, g: InternetGateway): Run
  {
    if g.internetGatewayId.None? then NoRun
    else
      var id := g.internetGatewayId.value;
      var detaches := GatewayDetaches(id, vpcId, g);
      var detachErrs := Failures(cloud, h, detaches);
      if detachErrs != [] then Run(detaches, detachErrs)
      else
        var delete := Api(InternetGateways, Delete(id));
        Run(detaches + [delete], AsList(cloud.answer(h + detaches, delete)))
  }

  function GatewayItem(cloud: Cloud, vpcId: string): (seq<Call>, InternetGateway) -> Run
  {
    (h: seq<Call>, g: InternetGateway) => GatewayRun(cloud, vpcId, h, g)
  }

  /** One pass of deleteInternetGateways' loop: one gateway's detaches, then its delete unless a detach failed. */
  method DeleteInternetGateway(cloud: Cloud, trace: seq<Call>, vpcId: string, g: InternetGateway)
    returns (trace': seq<Call>, errs: seq<Err>)
    ensures trace' == trace + GatewayRun(cloud, vpcId, trace, g).calls
    ensures errs == GatewayRun(cloud, vpcId, trace, g).errs
  {
    if g.internetGatewayId.None? {
      assert trace + [] == trace;
      return trace, [];
    }
    var id := g.internetGatewayId.value;
    // Detach the gateway from the VPC.
    var afterDetach, detachErrs := IssueEach(cloud, trace, g.attachments, DetachTarget(InternetGateways, id, vpcId));
    if detachErrs != [] {
      return afterDetach, detachErrs;
    }
    // Delete the gateway.
    var delete := Api(InternetGateways, Delete(id));
    var err := cloud.answer(afterDetach, delete);
    assert afterDetach + [delete] == trace + (GatewayDetaches(id, vpcId, g) + [delete]);
    trace', errs := afterDetach + [delete], AsList(err);
  }

  /** deleteInternetGateways: every gateway in turn, one gateway's failure never stopping the next. */
  method DeleteInternetGateways(cloud: Cloud, trace: seq<Call>, vpcId: string, gateways: seq<InternetGateway>)
    returns (trace': seq<Call>, errs: seq<Err>)
    ensures trace' == trace + Each(trace, gateways, GatewayItem(cloud, vpcId)).calls
    ensures errs == Each(trace, gateways, GatewayItem(cloud, vpcId)).errs
  {
    trace', errs := trace, [];
    for i := 0 to |gateways|
      invariant trace' == trace + Each(trace, gateways[..i], GatewayItem(cloud, vpcId)).calls
      invariant errs == Each(trace, gateways[..i], GatewayItem(cloud, vpcId)).errs
    {
      assert GatewayItem(cloud, vpcId)(trace', gateways[i]) == GatewayRun(cloud, vpcId, trace', gateways[i]);
      var next, gatewayErrs := DeleteInternetGateway(cloud, trace', vpcId, gateways[i]);
      EachStep(trace, gateways, i, GatewayItem(cloud, vpcId), trace', errs, next, errs + gatewayErrs);
      trace', errs := next, errs + gatewayErrs;
    }
    assert gateways[..|gateways|] == gateways;
  }

  /** A detach is issued exactly for the attachments to the VPC that are neither detaching nor detached. */
  lemma GatewayDetachTargets(gatewayId: string, vpcId: string, g: InternetGateway, c: Call)
    ensures c in GatewayDetaches(gatewayId, vpcId, g) <==>
      c == Api(InternetGateways, Detach(gatewayId, vpcId))
      && exists a :: a in g.attachments && a.state !in {Detaching, Detached} && a.vpcId == Some(vpcId)
  {
    TargetsMember(g.attachments, DetachTarget(InternetGateways, gatewayId, vpcId), c);
  }

  /** Every detach of a gateway is a detach call: the delete is never among them. */
  lemma {:induction false} DetachesOnly(step: Step, gatewayId: string, vpcId: string, attachments: seq<Attachment>)
    ensures forall c :: c in Targets(attachments, DetachTarget(step, gatewayId, vpcId)) ==> c == Api(step, Detach(gatewayId, vpcId))
    decreases |attachments|
  {
    if attachments != [] {
      DetachesOnly(step, gatewayId, vpcId, attachments[..|attachments| - 1]);
    }
  }

  /**
    A gateway with an id is deleted exactly when every one of its detaches is
    answered nil; its recorded errors are then the delete's alone, and
    otherwise they are every detach error.
  */
  lemma GatewayDeleteIffDetached(cloud: Cloud, vpcId: string, h: seq<Call>, g: InternetGateway)
    requires g.internetGatewayId.Some?
    ensures
      var id := g.internetGatewayId.value;
      var detaches := GatewayDetaches(id, vpcId, g);
      var r := GatewayRun(cloud, vpcId, h, g);
      && (Api(InternetGateways, Delete(id)) in r.calls <==>
            forall i :: 0 <= i < |detaches| ==> cloud.answer(h + detaches[..i], detaches[i]).None?)
      && (Api(InternetGateways, Delete(id)) !in r.calls ==> r.errs == Failures(cloud, h, detaches) && r.errs != [])
      && (Api(InternetGateways, Delete(id)) in r.calls ==> r.errs == AsList(cloud.answer(h + detaches, Api(InternetGateways, Delete(id)))))
  {
    var id := g.internetGatewayId.value;
    var detaches := GatewayDetaches(id, vpcId, g);
    FailuresNone(cloud, h, detaches);
    DetachesOnly(InternetGateways, id, vpcId, g.attachments);
  }

  /** The filter listInternetGateways describes with. */
  function GatewayFilter(vpcId: string): seq<Filter>
  {
    [Filter("attachment.vpc-id", [vpcId])]
  }

  /** listInternetGateways: every gateway attached to the VPC, page after page, or the first describe error. */
  method ListInternetGateways(cloud: Cloud, trace: seq<Call>, vpcId: string)
    returns (trace': seq<Call>, r: Result<seq<InternetGateway>, Err>)
    ensures trace' == trace + Listed(InternetGateways, GatewayFilter(vpcId), cloud.internetGateways(trace, GatewayFilter(vpcId)), All).calls
    ensures r == Listed(InternetGateways, GatewayFilter(vpcId), cloud.internetGateways(trace, GatewayFilter(vpcId)), All).result
  {
    trace', r := Paginate(cloud, trace, cloud.internetGateways(trace, GatewayFilter(vpcId)), InternetGateways, GatewayFilter(vpcId), All);
  }
}
