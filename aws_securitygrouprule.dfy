/** Revoking a security group's rules (pkg/aws/securitygrouprule.go). */
module AwsSecurityGroupRule {
  import opened Wrappers
  import opened Sdk
  import opened Cloud

  /** A rule takes part only when it has an id and belongs to the group. */
  predicate Counted(groupId: string, r: SecurityGroupRule)
  {
    r.securityGroupRuleId.Some? && r.groupId == Some(groupId)
  }

  /** A rule not marked egress (the mark absent or false) is an ingress rule. */
  predicate IsIngress(r: SecurityGroupRule)
  {
    r.isEgress.None? || !r.isEgress.value
  }

  function IngressOf(groupId: string): SecurityGroupRule -> bool
  {
    (r: SecurityGroupRule) => Counted(groupId, r) && IsIngress(r)
  }

  function EgressOf(groupId: string): SecurityGroupRule -> bool
  {
    (r: SecurityGroupRule) => Counted(groupId, r) && !IsIngress(r)
  }

  /** The ids of the rules that have one, in order. */
  function RuleIds(rules: seq<SecurityGroupRule>): seq<string>
    decreases |rules|
  {
    if rules == [] then []
    else
      var n := |rules| - 1;
      RuleIds(rules[..n]) + (if rules[n].securityGroupRuleId.Some? then [rules[n].securityGroupRuleId.value] else [])
  }

  /** securityGroupRuleIds: collect the ids that are present, in input order. */
  method SecurityGroupRuleIds(rules: seq<SecurityGroupRule>) returns (ids: seq<string>)
    ensures ids == RuleIds(rules)
  {
    ids := [];
    for i := 0 to |rules|
      invariant ids == RuleIds(rules[..i])
    {
      assert rules[..i + 1][..i] == rules[..i];
      if rules[i].securityGroupRuleId.Some? {
        ids := ids + [rules[i].securityGroupRuleId.value];
      }
    }
    assert rules[..|rules|] == rules;
  }

  /** RuleIds holds exactly the ids the rules carry, one per rule that has one. */
  lemma {:induction false} RuleIdsMeaning(rules: seq<SecurityGroupRule>)
    ensures forall id :: id in RuleIds(rules) <==> exists r :: r in rules && r.securityGroupRuleId == Some(id)
    ensures (forall i :: 0 <= i < |rules| ==> rules[i].securityGroupRuleId.Some?) ==> |RuleIds(rules)| == |rules|
    decreases |rules|
  {
    if rules != [] {
      var n := |rules| - 1;
      RuleIdsMeaning(rules[..n]);
      assert rules == rules[..n] + [rules[n]];
      forall id ensures id in RuleIds(rules) <==> exists r :: r in rules && r.securityGroupRuleId == Some(id) {
        if id in RuleIds(rules[..n]) {
          var r :| r in rules[..n] && r.securityGroupRuleId == Some(id);
          assert r in rules;
        }
        if exists r :: r in rules && r.securityGroupRuleId == Some(id) {
          var r :| r in rules && r.securityGroupRuleId == Some(id);
          assert r in rules[..n] || r == rules[n];
        }
      }
    }
  }

  /** The revokes a group's rules get: one ingress revoke if any rule is ingress, one egress revoke if any is egress. */
  function Revokes(groupId: string, rules: seq<SecurityGroupRule>): seq<Call>
  {
    var ingress := Select(rules, IngressOf(groupId));
    var egress := Select(rules, EgressOf(groupId));
    (if |ingress| > 0 then [Api(SecurityGroups, RevokeIngress(groupId, RuleIds(ingress)))] else [])
    + (if |egress| > 0 then [Api(SecurityGroups, RevokeEgress(groupId, RuleIds(egress)))] else [])
  }

  /** The first loop of deleteSecurityGroupRules: the group's counted rules, split by direction, in order. */
  method SplitRules(groupId: string, rules: seq<SecurityGroupRule>)
    returns (ingress: seq<SecurityGroupRule>, egress: seq<SecurityGroupRule>)
    ensures ingress == Select(rules, IngressOf(groupId))
    ensures egress == Select(rules, EgressOf(groupId))
  {
    egress, ingress := [], [];
    for i := 0 to |rules|
      invariant ingress == Select(rules[..i], IngressOf(groupId))
      invariant egress == Select(rules[..i], EgressOf(groupId))
    {
      assert rules[..i + 1][..i] == rules[..i];
      var r := rules[i];
      if r.securityGroupRuleId.None? {
        continue;
      }
      if r.groupId.None? || r.groupId.value != groupId {
        continue;
      }
      if r.isEgress.None? || !r.isEgress.value {
        ingress := ingress + [r];
      } else {
        egress := egress + [r];
      }
    }
    assert rules[..|rules|] == rules;
  }

  /**
    deleteSecurityGroupRules: split the group's rules into ingress and
    egress, then revoke each non-empty side in one call; the egress revoke is
    issued even when the ingress one failed, and both errors are kept.
  */
  method DeleteSecurityGroupRules(cloud: Cloud, trace: seq<Call>, groupId: string, rules: seq<SecurityGroupRule>)
    returns (trace': seq<Call>, errs: seq<Err>)
    ensures trace' == trace + Revokes(groupId, rules)
    ensures errs == Failures(cloud, trace, Revokes(groupId, rules))
  {
    var ingress, egress := SplitRules(groupId, rules);
    trace', errs := trace, [];
    ghost var revokes: seq<Call> := [];
    assert trace + [] == trace;
    if |ingress| > 0 {
      var ids := SecurityGroupRuleIds(ingress);
      trace', errs, revokes := Revoke(cloud, trace, revokes, trace', errs, Api(SecurityGroups, RevokeIngress(groupId, ids)));
    }
    ghost var first := revokes;
    if |egress| > 0 {
      var ids := SecurityGroupRuleIds(egress);
      trace', errs, revokes := Revoke(cloud, trace, revokes, trace', errs, Api(SecurityGroups, RevokeEgress(groupId, ids)));
    }
    assert first == (if |ingress| > 0 then [Api(SecurityGroups, RevokeIngress(groupId, RuleIds(ingress)))] else []);
    assert revokes == first + (if |egress| > 0 then [Api(SecurityGroups, RevokeEgress(groupId, RuleIds(egress)))] else []);
  }

  /** One revoke call, its error appended to the ones before. */
  method Revoke(cloud: Cloud, ghost trace: seq<Call>, ghost revokes: seq<Call>, trace': seq<Call>, errs: seq<Err>, revoke: Call)
    returns (trace'': seq<Call>, errs': seq<Err>, ghost revokes': seq<Call>)
    requires trace' == trace + revokes && errs == Failures(cloud, trace, revokes)
    ensures revokes' == revokes + [revoke]
    ensures trace'' == trace + revokes' && errs' == Failures(cloud, trace, revokes')
  {
    var err := cloud.answer(trace', revoke);
    FailuresSnoc(cloud, trace, revokes, revoke);
    ConcatAssoc(trace, revokes, [revoke]);
    trace'', errs', revokes' := trace' + [revoke], errs + AsList(err), revokes + [revoke];
  }

  /** Some rule of the group is counted and goes in the given direction. */
  predicate HasRule(groupId: string, rules: seq<SecurityGroupRule>, ingress: bool)
  {
    exists r :: r in rules && Counted(groupId, r) && IsIngress(r) == ingress
  }

  /** A direction's side of the partition is non-empty exactly when some counted rule goes that way. */
  lemma SideNonEmpty(groupId: string, rules: seq<SecurityGroupRule>)
    ensures |Select(rules, IngressOf(groupId))| > 0 <==> HasRule(groupId, rules, true)
    ensures |Select(rules, EgressOf(groupId))| > 0 <==> HasRule(groupId, rules, false)
  {
    var ingress := Select(rules, IngressOf(groupId));
    var egress := Select(rules, EgressOf(groupId));
    if HasRule(groupId, rules, true) {
      var r :| r in rules && Counted(groupId, r) && IsIngress(r);
      assert IngressOf(groupId)(r);
    }
    if HasRule(groupId, rules, false) {
      var r :| r in rules && Counted(groupId, r) && !IsIngress(r);
      assert EgressOf(groupId)(r);
    }
    if |ingress| > 0 {
      assert IngressOf(groupId)(ingress[0]);
    }
    if |egress| > 0 {
      assert EgressOf(groupId)(egress[0]);
    }
  }

  /**
    At most one revoke per direction: the ingress revoke is issued exactly
    when some counted rule is ingress, the egress revoke exactly when some is
    egress, whatever the ingress revoke answered.
  */
  lemma RevokesIssued(groupId: string, rules: seq<SecurityGroupRule>)
    ensures |Revokes(groupId, rules)| <= 2
    ensures (exists c :: c in Revokes(groupId, rules) && c.op.RevokeIngress?) <==> HasRule(groupId, rules, true)
    ensures (exists c :: c in Revokes(groupId, rules) && c.op.RevokeEgress?) <==> HasRule(groupId, rules, false)
  {
    SideNonEmpty(groupId, rules);
    var revokes := Revokes(groupId, rules);
    if |revokes| > 0 {
      assert revokes[0] in revokes;
      assert revokes[|revokes| - 1] in revokes;
    }
  }

  /**
    The ids a revoke names are exactly the ids of the rules on its side: the
    ingress revoke carries RuleIds of the ingress side, the egress revoke
    RuleIds of the egress side.
  */
  lemma SideIds(rules: seq<SecurityGroupRule>, side: SecurityGroupRule -> bool, id: string)
    ensures id in RuleIds(Select(rules, side)) <==> exists r :: r in rules && side(r) && r.securityGroupRuleId == Some(id)
  {
    var picked := Select(rules, side);
    RuleIdsMeaning(picked);
    if exists r :: r in rules && side(r) && r.securityGroupRuleId == Some(id) {
      var r :| r in rules && side(r) && r.securityGroupRuleId == Some(id);
      assert r in picked;
    }
  }

  /** The filter listSecurityGroupRules describes with. */
  function GroupIdFilter(groupId: string): seq<Filter>
  {
    [Filter("group-id", [groupId])]
  }

  /** listSecurityGroupRules: every rule of the group, page after page, or the first describe error. */
  method ListSecurityGroupRules(cloud: Cloud, trace: seq<Call>, groupId: string)
    returns (trace': seq<Call>, r: Result<seq<SecurityGroupRule>, Err>)
    ensures trace' == trace + Listed(SecurityGroups, GroupIdFilter(groupId), cloud.securityGroupRules(trace, GroupIdFilter(groupId)), All).calls
    ensures r == Listed(SecurityGroups, GroupIdFilter(groupId), cloud.securityGroupRules(trace, GroupIdFilter(groupId)), All).result
  {
    trace', r := Paginate(cloud, trace, cloud.securityGroupRules(trace, GroupIdFilter(groupId)), SecurityGroups, GroupIdFilter(groupId), All);
  }
}
