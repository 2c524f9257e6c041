/** The network ACL driver of the teardown (pkg/aws/networkacl.go). */
module AwsNetworkAcl {
  import opened Wrappers
  import opened Sdk
  import opened Cloud
  import AwsVpc

  /** The delete an ACL gets: none without an id or outside the VPC. */
  function NetworkAclTarget(vpcId: string): NetworkAcl -> Option<Call>
  {
    (a: NetworkAcl) =>
      if a.networkAclId.Some? && a.vpcId == Some(vpcId) then Some(Api(NetworkAcls, Delete(a.networkAclId.value))) else None
  }

  /** deleteNetworkAcls: one delete per ACL of the VPC, every error kept, no failure stopping the rest. */
  method DeleteNetworkAcls(cloud: Cloud, trace: seq<Call>, vpcId: string, acls: seq<NetworkAcl>)
    returns (trace': seq<Call>, errs: seq<Err>)
    ensures trace' == trace + Targets(acls, NetworkAclTarget(vpcId))
    ensures errs == Failures(cloud, trace, Targets(acls, NetworkAclTarget(vpcId)))
  {
    trace', errs := IssueEach(cloud, trace, acls, NetworkAclTarget(vpcId));
  }

  /** A delete is issued exactly for the ACLs that have an id and belong to the VPC. */
  lemma NetworkAclDeletes(vpcId: string, acls: seq<NetworkAcl>, c: Call)
    ensures c in Targets(acls, NetworkAclTarget(vpcId)) <==>
      exists a :: a in acls && a.networkAclId.Some? && a.vpcId == Some(vpcId) && c == Api(NetworkAcls, Delete(a.networkAclId.value))
  {
    TargetsMember(acls, NetworkAclTarget(vpcId), c);
  }

  /** The listing keeps an ACL unless it is marked as the VPC's default one. */
  predicate NonDefault(a: NetworkAcl)
  {
    a.isDefault.None? || !a.isDefault.value
  }

  /** listNonDefaultNetworkAcls: the non-default ACLs of every page, in order, or the first describe error. */
  method ListNonDefaultNetworkAcls(cloud: Cloud, trace: seq<Call>, vpcId: string)
    returns (trace': seq<Call>, r: Result<seq<NetworkAcl>, Err>)
    ensures trace' == trace + Listed(NetworkAcls, AwsVpc.Ec2VpcFilter(vpcId), cloud.networkAcls(trace, AwsVpc.Ec2VpcFilter(vpcId)), NonDefault).calls
    ensures r == Listed(NetworkAcls, AwsVpc.Ec2VpcFilter(vpcId), cloud.networkAcls(trace, AwsVpc.Ec2VpcFilter(vpcId)), NonDefault).result
  {
    var filters := AwsVpc.Ec2VpcFilter(vpcId);
    trace', r := Paginate(cloud, trace, cloud.networkAcls(trace, filters), NetworkAcls, filters, NonDefault);
  }

  /** A successful ACL listing holds exactly the served ACLs not marked default, each where it was served. */
  lemma NonDefaultListing(pages: Pages<NetworkAcl>)
    requires !Fails(pages)
    ensures Collected(pages, NonDefault).Success?
    ensures forall i :: 0 <= i < |Collected(pages, NonDefault).value| ==>
      Collected(pages, NonDefault).value[i] in Items(pages) && Collected(pages, NonDefault).value[i].isDefault != Some(true)
    ensures forall i :: 0 <= i < |Items(pages)| && Items(pages)[i].isDefault != Some(true) ==>
      Items(pages)[i] in Collected(pages, NonDefault).value
  {
    CollectedMeaning(pages, NonDefault);
  }
}
