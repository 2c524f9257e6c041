/** The security group driver of the teardown (pkg/aws/securitygroup.go): revoke a group's rules, then delete it. */
module AwsSecurityGroup {
  import opened Wrappers
  import opened Sdk
  import opened Cloud
  import opened AwsSecurityGroupRule
  import AwsVpc

  /** The listing of one group's rules, as the group's turn issues it from history h. */
  function RuleListing(cloud: Cloud, h: seq<Call>, groupId: string): Listing<SecurityGroupRule>
  {
    Listed(SecurityGroups, GroupIdFilter(groupId), cloud.securityGroupRules(h, GroupIdFilter(groupId)), All)
  }

  /** The revokes a group gets after its rule listing: none when the listing failed or found nothing. */
  function GroupRevokes(groupId: string, listing: Listing<SecurityGroupRule>): seq<Call>
  {
    FoundRevokes(groupId, listing.result)
  }

  function FoundRevokes(groupId: string, rules: Result<seq<SecurityGroupRule>, Err>): seq<Call>
  {
    if rules.Success? && |rules.value| > 0 then Revokes(groupId, rules.value) else []
  }

  /**
    What follows a group's rule listing, from history h: the revokes, then
    the delete unless a revoke failed, in which case the revoke errors are
    what the group records.
  */
  function RevokeThenDelete(cloud: Cloud, h: seq<Call>, groupId: string, revokes: seq<Call>): Run
  {
    var revokeErrs := Failures(cloud, h, revokes);
    if revokeErrs != [] then Run(revokes, revokeErrs)
    else
      var delete := Api(SecurityGroups, Delete(groupId));
      Run(revokes + [delete], AsList(cloud.answer(h + revokes, delete)))
  }

  /**
    What one group gets, starting from history h: nothing without an id or
    outside the VPC; otherwise its rule listing, whose failure is ignored,
    then the revokes of the rules found and the delete.
  */
  function GroupRun(cloud: Cloud, vpcId: string, h: seq<Call>, g: SecurityGroup): Run
  {
    if g.groupId.None? || g.vpcId != Some(vpcId) then NoRun
    else
      var id := g.groupId.value;
      var listing := RuleListing(cloud, h, id);
      Then(Run(listing.calls, []), RevokeThenDelete(cloud, h + listing.calls, id, GroupRevokes(id, listing)))
  }

  function GroupItem(cloud: Cloud, vpcId: string): (seq<Call>, SecurityGroup) -> Run
  {
    (h: seq<Call>, g: SecurityGroup) => GroupRun(cloud, vpcId, h, g)
  }

  /** The part of deleteSecurityGroups' loop body after a group's rules are listed. */
  method RevokeAndDelete(cloud: Cloud, trace: seq<Call>, groupId: string, rules: Result<seq<SecurityGroupRule>, Err>)
    returns (trace': seq<Call>, errs: seq<Err>)
    ensures trace' == trace + RevokeThenDelete(cloud, trace, groupId, FoundRevokes(groupId, rules)).calls
    ensures errs == RevokeThenDelete(cloud, trace, groupId, FoundRevokes(groupId, rules)).errs
  {
    trace' := trace;
    if rules.Success? && |rules.value| > 0 {
      var revokeErrs;
      trace', revokeErrs := DeleteSecurityGroupRules(cloud, trace, groupId, rules.value);
      if revokeErrs != [] {
        return trace', revokeErrs;
      }
    } else {
      assert trace + [] == trace;
    }
    var delete := Api(SecurityGroups, Delete(groupId));
    var err := cloud.answer(trace', delete);
    trace', errs := trace' + [delete], AsList(err);
  }

  /** One pass of deleteSecurityGroups' loop: one group's rule listing, revokes and delete. */
  method DeleteSecurityGroup(cloud: Cloud, trace: seq<Call>, vpcId: string, g: SecurityGroup)
    returns (trace': seq<Call>, errs: seq<Err>)
    ensures trace' == trace + GroupRun(cloud, vpcId, trace, g).calls
    ensures errs == GroupRun(cloud, vpcId, trace, g).errs
  {
    if g.groupId.None? || g.vpcId.None? || g.vpcId.value != vpcId {
      return trace, [];
    }
    var groupId := g.groupId.value;
    var listed, rules := ListSecurityGroupRules(cloud, trace, groupId);
    trace', errs := RevokeAndDelete(cloud, listed, groupId, rules);
    GroupStep(cloud, vpcId, trace, g, listed, rules, trace', errs);
  }

  /** The two halves of one group's pass make up its GroupRun. */
  lemma GroupStep(cloud: Cloud, vpcId: string, trace: seq<Call>, g: SecurityGroup, listed: seq<Call>,
                  rules: Result<seq<SecurityGroupRule>, Err>, trace': seq<Call>, errs: seq<Err>)
    requires g.groupId.Some? && g.vpcId == Some(vpcId)
    requires listed == trace + RuleListing(cloud, trace, g.groupId.value).calls
    requires rules == RuleListing(cloud, trace, g.groupId.value).result
    requires trace' == listed + RevokeThenDelete(cloud, listed, g.groupId.value, FoundRevokes(g.groupId.value, rules)).calls
    requires errs == RevokeThenDelete(cloud, listed, g.groupId.value, FoundRevokes(g.groupId.value, rules)).errs
    ensures trace' == trace + GroupRun(cloud, vpcId, trace, g).calls
    ensures errs == GroupRun(cloud, vpcId, trace, g).errs
  {
    var id := g.groupId.value;
    var listing := RuleListing(cloud, trace, id);
    var rest := RevokeThenDelete(cloud, listed, id, FoundRevokes(id, rules));
    assert GroupRun(cloud, vpcId, trace, g) == Then(Run(listing.calls, []), rest);
    Joined(trace, listed, trace', listing.calls, rest.calls);
    assert [] + rest.errs == rest.errs;
  }

  /** deleteSecurityGroups: every group in turn, one group's failure never stopping the next. */
  method DeleteSecurityGroups(cloud: Cloud, trace: seq<Call>, vpcId: string, groups: seq<SecurityGroup>)
    returns (trace': seq<Call>, errs: seq<Err>)
    ensures trace' == trace + Each(trace, groups, GroupItem(cloud, vpcId)).calls
    ensures errs == Each(trace, groups, GroupItem(cloud, vpcId)).errs
  {
    trace', errs := trace, [];
    for i := 0 to |groups|
      invariant trace' == trace + Each(trace, groups[..i], GroupItem(cloud, vpcId)).calls
      invariant errs == Each(trace, groups[..i], GroupItem(cloud, vpcId)).errs
    {
      assert GroupItem(cloud, vpcId)(trace', groups[i]) == GroupRun(cloud, vpcId, trace', groups[i]);
      var next, groupErrs := DeleteSecurityGroup(cloud, trace', vpcId, groups[i]);
      EachStep(trace, groups, i, GroupItem(cloud, vpcId), trace', errs, next, errs + groupErrs);
      trace', errs := next, errs + groupErrs;
    }
    assert groups[..|groups|] == groups;
  }

  /** A group of the VPC whose rule listing fails is deleted all the same, and the listing error is not recorded. */
  lemma RuleListingFailureIgnored(cloud: Cloud, vpcId: string, h: seq<Call>, g: SecurityGroup)
    requires g.groupId.Some? && g.vpcId == Some(vpcId)
    requires RuleListing(cloud, h, g.groupId.value).result.Failure?
    ensures
      var listing := RuleListing(cloud, h, g.groupId.value);
      var delete := Api(SecurityGroups, Delete(g.groupId.value));
      GroupRun(cloud, vpcId, h, g) == Run(listing.calls + [delete], AsList(cloud.answer(h + listing.calls, delete)))
  {
    var listing := RuleListing(cloud, h, g.groupId.value);
    assert GroupRevokes(g.groupId.value, listing) == [];
    assert Failures(cloud, h + listing.calls, []) == [];
    assert listing.calls + [] == listing.calls;
    assert h + listing.calls + [] == h + listing.calls;
  }

  /** Neither the rule listing nor the revokes of a group contain a delete. */
  lemma NoDeleteBefore(cloud: Cloud, h: seq<Call>, groupId: string)
    ensures forall c :: c in RuleListing(cloud, h, groupId).calls + GroupRevokes(groupId, RuleListing(cloud, h, groupId)) ==> c.Api? && !c.op.Delete?
  {
    var listing := RuleListing(cloud, h, groupId);
    PageCallsShape(SecurityGroups, GroupIdFilter(groupId), cloud.securityGroupRules(h, GroupIdFilter(groupId)), None);
  }

  /**
    A group of the VPC is deleted exactly when every revoke of its rules is
    answered nil; when a revoke fails, the revoke errors are what it records.
  */
  lemma GroupDeleteIffRevoked(cloud: Cloud, vpcId: string, h: seq<Call>, g: SecurityGroup)
    requires g.groupId.Some? && g.vpcId == Some(vpcId)
    ensures
      var id := g.groupId.value;
      var listing := RuleListing(cloud, h, id);
      var revokes := GroupRevokes(id, listing);
      var r := GroupRun(cloud, vpcId, h, g);
      && (Api(SecurityGroups, Delete(id)) in r.calls <==>
            forall i :: 0 <= i < |revokes| ==> cloud.answer((h + listing.calls) + revokes[..i], revokes[i]).None?)
      && (Api(SecurityGroups, Delete(id)) !in r.calls ==> r.errs == Failures(cloud, h + listing.calls, revokes) && r.errs != [])
  {
    var id := g.groupId.value;
    var listing := RuleListing(cloud, h, id);
    var revokes := GroupRevokes(id, listing);
    FailuresNone(cloud, h + listing.calls, revokes);
    NoDeleteBefore(cloud, h, id);
    var r := GroupRun(cloud, vpcId, h, g);
    if Failures(cloud, h + listing.calls, revokes) != [] {
      RevokeFailedRun(cloud, vpcId, h, g);
    } else {
      RevokedRun(cloud, vpcId, h, g);
      assert r.calls[|r.calls| - 1] == Api(SecurityGroups, Delete(id));
    }
  }

  /** A failed revoke ends the group's run after the revokes, recording their errors. */
  lemma RevokeFailedRun(cloud: Cloud, vpcId: string, h: seq<Call>, g: SecurityGroup)
    requires g.groupId.Some? && g.vpcId == Some(vpcId)
    requires
      var listing := RuleListing(cloud, h, g.groupId.value);
      Failures(cloud, h + listing.calls, GroupRevokes(g.groupId.value, listing)) != []
    ensures
      var listing := RuleListing(cloud, h, g.groupId.value);
      var revokes := GroupRevokes(g.groupId.value, listing);
      GroupRun(cloud, vpcId, h, g) == Run(listing.calls + revokes, Failures(cloud, h + listing.calls, revokes))
  {
    var listing := RuleListing(cloud, h, g.groupId.value);
    var rest := RevokeThenDelete(cloud, h + listing.calls, g.groupId.value, GroupRevokes(g.groupId.value, listing));
    assert GroupRun(cloud, vpcId, h, g) == Then(Run(listing.calls, []), rest);
    assert [] + rest.errs == rest.errs;
  }

  /** When every revoke succeeds, the group's run ends with its delete. */
  lemma RevokedRun(cloud: Cloud, vpcId: string, h: seq<Call>, g: SecurityGroup)
    requires g.groupId.Some? && g.vpcId == Some(vpcId)
    requires
      var listing := RuleListing(cloud, h, g.groupId.value);
      Failures(cloud, h + listing.calls, GroupRevokes(g.groupId.value, listing)) == []
    ensures
      var listing := RuleListing(cloud, h, g.groupId.value);
      var revokes := GroupRevokes(g.groupId.value, listing);
      GroupRun(cloud, vpcId, h, g).calls == (listing.calls + revokes) + [Api(SecurityGroups, Delete(g.groupId.value))]
  {
    var listing := RuleListing(cloud, h, g.groupId.value);
    var revokes := GroupRevokes(g.groupId.value, listing);
    var rest := RevokeThenDelete(cloud, h + listing.calls, g.groupId.value, revokes);
    assert GroupRun(cloud, vpcId, h, g) == Then(Run(listing.calls, []), rest);
    assert rest.calls == revokes + [Api(SecurityGroups, Delete(g.groupId.value))];
  }

  /** The listing drops the groups named exactly "default"; a group without a name is kept. */
  predicate NotDefault(g: SecurityGroup)
  {
    g.groupName != Some("default")
  }

  /** listNonDefaultSecurityGroups: the non-default groups of the VPC on every page, or the first describe error. */
  method ListNonDefaultSecurityGroups(cloud: Cloud, trace: seq<Call>, vpcId: string)
    returns (trace': seq<Call>, r: Result<seq<SecurityGroup>, Err>)
    ensures trace' == trace + Listed(SecurityGroups, AwsVpc.Ec2VpcFilter(vpcId), cloud.securityGroups(trace, AwsVpc.Ec2VpcFilter(vpcId)), NotDefault).calls
    ensures r == Listed(SecurityGroups, AwsVpc.Ec2VpcFilter(vpcId), cloud.securityGroups(trace, AwsVpc.Ec2VpcFilter(vpcId)), NotDefault).result
  {
    var filters := AwsVpc.Ec2VpcFilter(vpcId);
    trace', r := Paginate(cloud, trace, cloud.securityGroups(trace, filters), SecurityGroups, filters, NotDefault);
  }

  /** A successful group listing holds exactly the served groups not named "default". */
  lemma NotDefaultListing(pages: Pages<SecurityGroup>)
    requires !Fails(pages)
    ensures Collected(pages, NotDefault).Success?
    ensures forall i :: 0 <= i < |Collected(pages, NotDefault).value| ==>
      Collected(pages, NotDefault).value[i] in Items(pages) && Collected(pages, NotDefault).value[i].groupName != Some("default")
    ensures forall i :: 0 <= i < |Items(pages)| && Items(pages)[i].groupName != Some("default") ==>
      Items(pages)[i] in Collected(pages, NotDefault).value
  {
    CollectedMeaning(pages, NotDefault);
  }
}
