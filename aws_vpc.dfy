/**
  The VPC driver of the teardown (pkg/aws/vpc.go): deleting the VPC itself,
  deleting the peering connections it takes part in, listing those
  connections, and the vpc-id filter the other EC2 listings share.
*/
module AwsVpc {
  import opened Wrappers
  import opened Sdk
  import opened Cloud

  /** The error code the compute service answers for a VPC that no longer exists. */
  const VpcNotFoundCode := "InvalidVpcID.NotFound"

  /** The single call deleteVpc issues. */
  function DeleteVpcCall(vpcId: string): Call
  {
    Api(Vpcs, Delete(vpcId))
  }

  /** deleteVpc: an already deleted VPC counts as deleted; any other error is returned as it came. */
  function DeleteVpc(cloud: Cloud, h: seq<Call>, vpcId: string): (err: Option<Err>)
    ensures err.None? <==> cloud.answer(h, DeleteVpcCall(vpcId)) in {None, Some(ApiError(VpcNotFoundCode))}
    ensures err.Some? ==> err == cloud.answer(h, DeleteVpcCall(vpcId))
  {
    var e := cloud.answer(h, DeleteVpcCall(vpcId));
    if e.Some? && e.value.ApiError? && e.value.code == VpcNotFoundCode then None else e
  }

  /** ec2VpcFilter: the one filter selecting the resources of a VPC. */
  function Ec2VpcFilter(vpcId: string): (filters: seq<Filter>)
    ensures |filters| == 1 && filters[0].name == "vpc-id" && filters[0].values == [vpcId]
  {
    [Filter("vpc-id", [vpcId])]
  }

  /** The VPC named by one side of a peering connection is the given VPC. */
  predicate OnSide(info: Option<VpcInfo>, vpcId: string)
  {
    info.Some? && info.value.vpcId == Some(vpcId)
  }

  /** The delete a peering connection gets: none without an id or when neither side is the VPC. */
  function PeeringTarget(vpcId: string): VpcPeeringConnection -> Option<Call>
  {
    (p: VpcPeeringConnection) =>
      if p.vpcPeeringConnectionId.Some? && (OnSide(p.accepterVpcInfo, vpcId) || OnSide(p.requesterVpcInfo, vpcId))
      then Some(Api(Peerings, Delete(p.vpcPeeringConnectionId.value)))
      else None
  }

  /** deleteVpcPeeringConnections: one delete per connection of the VPC, every error kept. */
  method DeleteVpcPeeringConnections(cloud: Cloud, trace: seq<Call>, vpcId: string, connections: seq<VpcPeeringConnection>)
    returns (trace': seq<Call>, errs: seq<Err>)
    ensures trace' == trace + Targets(connections, PeeringTarget(vpcId))
    ensures errs == Failures(cloud, trace, Targets(connections, PeeringTarget(vpcId)))
  {
    trace', errs := IssueEach(cloud, trace, connections, PeeringTarget(vpcId));
  }

  /** A delete is issued exactly for the connections that have an id and the VPC on one side. */
  lemma PeeringDeletes(vpcId: string, connections: seq<VpcPeeringConnection>, c: Call)
    ensures c in Targets(connections, PeeringTarget(vpcId)) <==>
      exists p :: p in connections && p.vpcPeeringConnectionId.Some?
        && (OnSide(p.accepterVpcInfo, vpcId) || OnSide(p.requesterVpcInfo, vpcId))
        && c == Api(Peerings, Delete(p.vpcPeeringConnectionId.value))
  {
    TargetsMember(connections, PeeringTarget(vpcId), c);
  }

  /** The two sides a peering connection is looked up by, in the order they are listed. */
  const PeeringSides := ["accepter-vpc-info.vpc-id", "requester-vpc-info.vpc-id"]

  function PeeringFilter(side: string, vpcId: string): seq<Filter>
  {
    [Filter(side, [vpcId])]
  }

  /** The listing passes over the given sides, in order, stopping at the first failing describe call. */
  function Passes(cloud: Cloud, h: seq<Call>, vpcId: string, sides: seq<string>): Listing<VpcPeeringConnection>
    decreases |sides|
  {
    if sides == [] then Listing([], Success([]))
    else
      var n := |sides| - 1;
      var before := Passes(cloud, h, vpcId, sides[..n]);
      match before.result
      case Failure(_) => before
      case Success(found) =>
        var filters := PeeringFilter(sides[n], vpcId);
        var pass := Listed(Peerings, filters, cloud.peerings(h + before.calls, filters), All);
        Listing(before.calls + pass.calls, Prepend(found, pass.result))
  }

  /** A side after successful ones lists from where they left the trace and adds its connections after theirs. */
  lemma PassesNext(cloud: Cloud, h: seq<Call>, vpcId: string, sides: seq<string>, i: nat)
    requires i < |sides| && Passes(cloud, h, vpcId, sides[..i]).result.Success?
    ensures
      var before := Passes(cloud, h, vpcId, sides[..i]);
      var filters := PeeringFilter(sides[i], vpcId);
      var pass := Listed(Peerings, filters, cloud.peerings(h + before.calls, filters), All);
      Passes(cloud, h, vpcId, sides[..i + 1]) == Listing(before.calls + pass.calls, Prepend(before.result.value, pass.result))
  {
    assert sides[..i + 1][..i] == sides[..i];
  }

  /** Once a side has failed, the later sides add nothing. */
  lemma {:induction false} PassesStuck(cloud: Cloud, h: seq<Call>, vpcId: string, sides: seq<string>, i: nat)
    requires i <= |sides| && Passes(cloud, h, vpcId, sides[..i]).result.Failure?
    ensures Passes(cloud, h, vpcId, sides) == Passes(cloud, h, vpcId, sides[..i])
    decreases |sides| - i
  {
    if i < |sides| {
      assert sides[..i + 1][..i] == sides[..i];
      PassesStuck(cloud, h, vpcId, sides, i + 1);
    } else {
      assert sides[..i] == sides;
    }
  }

  /** listVpcPeeringConnections: every accepter-side page, then every requester-side page; any failure aborts. */
  method ListVpcPeeringConnections(cloud: Cloud, trace: seq<Call>, vpcId: string)
    returns (trace': seq<Call>, r: Result<seq<VpcPeeringConnection>, Err>)
    ensures trace' == trace + Passes(cloud, trace, vpcId, PeeringSides).calls
    ensures r == Passes(cloud, trace, vpcId, PeeringSides).result
  {
    var connections: seq<VpcPeeringConnection> := [];
    trace' := trace;
    for i := 0 to |PeeringSides|
      invariant trace' == trace + Passes(cloud, trace, vpcId, PeeringSides[..i]).calls
      invariant Passes(cloud, trace, vpcId, PeeringSides[..i]).result == Success(connections)
    {
      ghost var before := Passes(cloud, trace, vpcId, PeeringSides[..i]);
      PassesNext(cloud, trace, vpcId, PeeringSides, i);
      var filters := PeeringFilter(PeeringSides[i], vpcId);
      ghost var pass := Listed(Peerings, filters, cloud.peerings(trace', filters), All);
      ghost var at := trace';
      var found;
      trace', found := Paginate(cloud, trace', cloud.peerings(trace', filters), Peerings, filters, All);
      Joined(trace, at, trace', before.calls, pass.calls);
      if found.Failure? {
        PassesStuck(cloud, trace, vpcId, PeeringSides, i + 1);
        return trace', found;
      }
      connections := connections + found.value;
    }
    assert PeeringSides[..|PeeringSides|] == PeeringSides;
    r := Success(connections);
  }

  /**
    The peering listing is the accepter-side listing followed by the
    requester-side one: it fails with the first failing describe call's error,
    and otherwise returns every connection served on both sides, in order.
  */
  lemma {:induction false} PeeringListingMeaning(cloud: Cloud, h: seq<Call>, vpcId: string)
    ensures
      var first := cloud.peerings(h, PeeringFilter(PeeringSides[0], vpcId));
      var firstCalls := PageCalls(Peerings, PeeringFilter(PeeringSides[0], vpcId), first, None);
      var second := cloud.peerings(h + firstCalls, PeeringFilter(PeeringSides[1], vpcId));
      var listing := Passes(cloud, h, vpcId, PeeringSides);
      && (Fails(first) ==> listing == Listing(firstCalls, Failure(FinalError(first))))
      && (!Fails(first) && Fails(second) ==> listing.result == Failure(FinalError(second)))
      && (!Fails(first) && !Fails(second) ==> listing.result == Success(Items(first) + Items(second)))
      && (!Fails(first) ==> listing.calls == firstCalls + PageCalls(Peerings, PeeringFilter(PeeringSides[1], vpcId), second, None))
  {
    var f1 := PeeringFilter(PeeringSides[0], vpcId);
    var f2 := PeeringFilter(PeeringSides[1], vpcId);
    var first := cloud.peerings(h, f1);
    assert PeeringSides[..1] == [PeeringSides[0]];
    assert PeeringSides[..1][..0] == [];
    assert PeeringSides[..2] == PeeringSides;
    var zero := Passes(cloud, h, vpcId, []);
    assert zero == Listing([], Success([]));
    assert h + zero.calls == h;
    CollectedMeaning(first, All);
    SelectAll(Items(first));
    PrependTwice([], [], Collected(first, All));
    var one := Passes(cloud, h, vpcId, PeeringSides[..1]);
    assert one == Listing(PageCalls(Peerings, f1, first, None), Collected(first, All));
    var second := cloud.peerings(h + one.calls, f2);
    CollectedMeaning(second, All);
    SelectAll(Items(second));
  }
}
