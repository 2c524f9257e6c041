/**
  The Auto Scaling group driver of the teardown (pkg/aws/autoscalinggroup.go):
  resize each group to zero, wait for its instances to terminate, delete it;
  and the listing that finds a cluster's groups by tag.
*/
module AwsAutoScalingGroup {
  import opened Wrappers
  import opened Sdk
  import opened Cloud
  import Strings

  // ---------------------------------------------------------------------
  // Deleting groups
  // ---------------------------------------------------------------------

  /** A capacity that is present and not zero. */
  predicate NonZero(v: Option<int>)
  {
    v.Some? && v.value != 0
  }

  /** The group is not already at zero: its desired, maximum or minimum capacity is set and not zero. */
  predicate NeedsResize(g: AutoScalingGroup)
  {
    NonZero(g.desiredCapacity) || NonZero(g.maxSize) || NonZero(g.minSize)
  }

  /** The ids of the group's instances that have one, in order. */
  function NonNilIds(instances: seq<AutoScalingInstance>): seq<string>
    decreases |instances|
  {
    if instances == [] then []
    else
      var n := |instances| - 1;
      NonNilIds(instances[..n]) + (if instances[n].instanceId.Some? then [instances[n].instanceId.value] else [])
  }

  /** The instance id list the waiter is given: every present id, in order. */
  method InstanceIds(instances: seq<AutoScalingInstance>) returns (ids: seq<string>)
    ensures ids == NonNilIds(instances)
  {
    ids := [];
    for i := 0 to |instances|
      invariant ids == NonNilIds(instances[..i])
    {
      assert instances[..i + 1][..i] == instances[..i];
      if instances[i].instanceId.Some? {
        ids := ids + [instances[i].instanceId.value];
      }
    }
    assert instances[..|instances|] == instances;
  }

  /** NonNilIds holds exactly the ids the instances carry, and is empty exactly when no instance has an id. */
  lemma {:induction false} NonNilIdsMeaning(instances: seq<AutoScalingInstance>)
    ensures forall id :: id in NonNilIds(instances) <==> exists x :: x in instances && x.instanceId == Some(id)
    ensures |NonNilIds(instances)| == 0 <==> forall i :: 0 <= i < |instances| ==> instances[i].instanceId.None?
    decreases |instances|
  {
    if instances != [] {
      var n := |instances| - 1;
      NonNilIdsMeaning(instances[..n]);
      assert instances == instances[..n] + [instances[n]];
      forall id ensures id in NonNilIds(instances) <==> exists x :: x in instances && x.instanceId == Some(id) {
        if id in NonNilIds(instances[..n]) {
          var x :| x in instances[..n] && x.instanceId == Some(id);
          assert x in instances;
        }
        if exists x :: x in instances && x.instanceId == Some(id) {
          var x :| x in instances && x.instanceId == Some(id);
          assert x in instances[..n] || x == instances[n];
        }
      }
      if |NonNilIds(instances)| == 0 {
        forall i | 0 <= i < |instances| ensures instances[i].instanceId.None? {
          if i < n {
            assert instances[..n][i] == instances[i];
          }
        }
      }
    }
  }

  /** The resize a group gets from history h: one resize to zero when it needs one, its error recorded. */
  function ResizeRun(cloud: Cloud, h: seq<Call>, name: string, g: AutoScalingGroup): Run
  {
    if NeedsResize(g) then
      var resize := Api(AutoScalingGroups, Resize(name));
      Run([resize], AsList(cloud.answer(h, resize)))
    else NoRun
  }

  /**
    What follows the resize, from history h: the instance-terminated wait over
    the given ids when there are any, a failed wait being recorded and ending
    there; then the delete.
  */
  function WaitThenDelete(cloud: Cloud, h: seq<Call>, name: string, ids: seq<string>): Run
  {
    var delete := Api(AutoScalingGroups, Delete(name));
    if |ids| == 0 then Run([delete], AsList(cloud.answer(h, delete)))
    else
      var wait := Api(AutoScalingGroups, Wait(ids));
      var e := cloud.answer(h, wait);
      if e.Some? then Run([wait], [e.value])
      else Run([wait, delete], AsList(cloud.answer(h + [wait], delete)))
  }

  /** What one group gets, starting from history h: nothing without a name; otherwise the resize, then the wait and the delete. */
  function AsgRun(cloud: Cloud, h: seq<Call>, g: AutoScalingGroup): Run
  {
    if g.autoScalingGroupName.None? then NoRun
    else
      var name := g.autoScalingGroupName.value;
      var resize := ResizeRun(cloud, h, name, g);
      Then(resize, WaitThenDelete(cloud, h + resize.calls, name, NonNilIds(g.instances)))
  }

  function AsgItem(cloud: Cloud): (seq<Call>, AutoScalingGroup) -> Run
  {
    (h: seq<Call>, g: AutoScalingGroup) => AsgRun(cloud, h, g)
  }

  /** The resize step of one group's turn. */
  method ResizeGroup(cloud: Cloud, trace: seq<Call>, name: string, g: AutoScalingGroup)
    returns (trace': seq<Call>, errs: seq<Err>)
    ensures trace' == trace + ResizeRun(cloud, trace, name, g).calls
    ensures errs == ResizeRun(cloud, trace, name, g).errs
  {
    if (g.desiredCapacity.Some? && g.desiredCapacity.value != 0)
      || (g.maxSize.Some? && g.maxSize.value != 0)
      || (g.minSize.Some? && g.minSize.value != 0)
    {
      var resize := Api(AutoScalingGroups, Resize(name));
      var err := cloud.answer(trace, resize);
      trace', errs := trace + [resize], AsList(err);
    } else {
      trace', errs := trace + [], [];
    }
  }

  /** The wait and delete steps of one group's turn. */
  method WaitAndDelete(cloud: Cloud, trace: seq<Call>, name: string, instances: seq<AutoScalingInstance>)
    returns (trace': seq<Call>, errs: seq<Err>)
    ensures trace' == trace + WaitThenDelete(cloud, trace, name, NonNilIds(instances)).calls
    ensures errs == WaitThenDelete(cloud, trace, name, NonNilIds(instances)).errs
  {
    var instanceIds := InstanceIds(instances);
    trace', errs := trace, [];
    if |instanceIds| > 0 {
      var wait := Api(AutoScalingGroups, Wait(instanceIds));
      var err := cloud.answer(trace', wait);
      trace', errs := trace' + [wait], errs + AsList(err);
      if err.Some? {
        return;
      }
    }
    var delete := Api(AutoScalingGroups, Delete(name));
    var err := cloud.answer(trace', delete);
    trace', errs := trace' + [delete], errs + AsList(err);
  }

  /** The two steps of one group's turn make up its AsgRun. */
  lemma AsgStep(cloud: Cloud, trace: seq<Call>, g: AutoScalingGroup, resized: seq<Call>, resizeErrs: seq<Err>,
                trace': seq<Call>, restErrs: seq<Err>)
    requires g.autoScalingGroupName.Some?
    requires resized == trace + ResizeRun(cloud, trace, g.autoScalingGroupName.value, g).calls
    requires resizeErrs == ResizeRun(cloud, trace, g.autoScalingGroupName.value, g).errs
    requires trace' == resized + WaitThenDelete(cloud, resized, g.autoScalingGroupName.value, NonNilIds(g.instances)).calls
    requires restErrs == WaitThenDelete(cloud, resized, g.autoScalingGroupName.value, NonNilIds(g.instances)).errs
    ensures trace' == trace + AsgRun(cloud, trace, g).calls
    ensures resizeErrs + restErrs == AsgRun(cloud, trace, g).errs
  {
  }

  /** deleteAutoScalingGroups: every group in turn, one group's failure never stopping the next. */
  method DeleteAutoScalingGroups(cloud: Cloud, trace: seq<Call>, groups: seq<AutoScalingGroup>)
    returns (trace': seq<Call>, errs: seq<Err>)
    ensures trace' == trace + Each(trace, groups, AsgItem(cloud)).calls
    ensures errs == Each(trace, groups, AsgItem(cloud)).errs
  {
    trace', errs := trace, [];
    for i := 0 to |groups|
      invariant trace' == trace + Each(trace, groups[..i], AsgItem(cloud)).calls
      invariant errs == Each(trace, groups[..i], AsgItem(cloud)).errs
    {
      var g := groups[i];
      assert AsgItem(cloud)(trace', g) == AsgRun(cloud, trace', g);
      if g.autoScalingGroupName.None? {
        EachStep(trace, groups, i, AsgItem(cloud), trace', errs, trace', errs);
        continue;
      }
      var name := g.autoScalingGroupName.value;
      var resized, resizeErrs := ResizeGroup(cloud, trace', name, g);
      var next, restErrs := WaitAndDelete(cloud, resized, name, g.instances);
      AsgStep(cloud, trace', g, resized, resizeErrs, next, restErrs);
      EachStep(trace, groups, i, AsgItem(cloud), trace', errs, next, errs + (resizeErrs + restErrs));
      trace', errs := next, errs + (resizeErrs + restErrs);
    }
    assert groups[..|groups|] == groups;
  }

  /**
    The protocol one named group follows: a resize exactly when it needs one,
    whose error is recorded first and stops nothing; a wait exactly when it
    has instance ids, over exactly those ids; and the delete exactly when
    there is no wait or the wait is answered nil, a failed wait being the
    last error recorded.
  */
  lemma AsgProtocol(cloud: Cloud, h: seq<Call>, g: AutoScalingGroup)
    requires g.autoScalingGroupName.Some?
    ensures
      var name := g.autoScalingGroupName.value;
      var r := AsgRun(cloud, h, g);
      var resize := ResizeRun(cloud, h, name, g);
      var ids := NonNilIds(g.instances);
      var delete := Api(AutoScalingGroups, Delete(name));
      && (Api(AutoScalingGroups, Resize(name)) in r.calls <==> NeedsResize(g))
      && (Api(AutoScalingGroups, Wait(ids)) in r.calls <==> |ids| > 0)
      && (forall c :: c in r.calls && c.Api? && c.op.Wait? ==> c.op.instanceIds == ids)
      && (delete in r.calls <==> |ids| == 0 || cloud.answer(h + resize.calls, Api(AutoScalingGroups, Wait(ids))).None?)
      && r.errs[..|resize.errs|] == resize.errs
      && (delete !in r.calls ==> r.errs == resize.errs + [cloud.answer(h + resize.calls, Api(AutoScalingGroups, Wait(ids))).value])
  {
    var name := g.autoScalingGroupName.value;
    var r := AsgRun(cloud, h, g);
    var resize := ResizeRun(cloud, h, name, g);
    var rest := WaitThenDelete(cloud, h + resize.calls, name, NonNilIds(g.instances));
    assert r.calls == resize.calls + rest.calls;
    assert r.errs[..|resize.errs|] == resize.errs;
    if NeedsResize(g) {
      assert r.calls[0] == Api(AutoScalingGroups, Resize(name));
    }
  }

  // ---------------------------------------------------------------------
  // Finding the cluster's groups
  // ---------------------------------------------------------------------

  /**
    The filter sets a cluster's groups are found by: none for an empty
    cluster name; otherwise the groups owned through one of the three
    cluster tag keys, then the groups tagged with the cluster's managed name.
  */
  function AutoScalingFilters(clusterName: string): (r: seq<seq<Filter>>)
    ensures clusterName == "" <==> |r| == 0
    ensures clusterName != "" ==> |r| == 2
    ensures forall i :: 0 <= i < |r| ==> |r[i]| == 2 && r[i][0].name == "tag-key" && r[i][1].name == "tag-value"
    ensures |r| == 2 ==> |r[0][0].values| == 3 && r[0][1].values == ["owned"]
    ensures |r| == 2 ==> forall v :: v in r[0][0].values ==> Strings.HasSuffix(v, "/" + clusterName)
    ensures |r| == 2 ==> r[1][0].values == ["eks:cluster-name"] && r[1][1].values == [clusterName]
  {
    if clusterName == "" then []
    else
      var owned := [
        Filter("tag-key", ["k8s.io/cluster-autoscaler/" + clusterName, "kubernetes.io/cluster/" + clusterName, "k8s.io/cluster/" + clusterName]),
        Filter("tag-value", ["owned"])];
      var managed := [Filter("tag-key", ["eks:cluster-name"]), Filter("tag-value", [clusterName])];
      Strings.HasSuffixOfConcat("k8s.io/cluster-autoscaler", "/" + clusterName);
      Strings.HasSuffixOfConcat("kubernetes.io/cluster", "/" + clusterName);
      Strings.HasSuffixOfConcat("k8s.io/cluster", "/" + clusterName);
      assert "k8s.io/cluster-autoscaler/" + clusterName == "k8s.io/cluster-autoscaler" + ("/" + clusterName);
      assert "kubernetes.io/cluster/" + clusterName == "kubernetes.io/cluster" + ("/" + clusterName);
      assert "k8s.io/cluster/" + clusterName == "k8s.io/cluster" + ("/" + clusterName);
      [owned, managed]
  }

  /**
    The describe loop as the code writes it: the request is built afresh on
    every iteration, so the next token is never sent and every request asks
    for the first page again. The loop only ends on a page without a next
    token or on an error; `fuel` bounds the requests, and None means the loop
    had not ended within that many.
  */
  function DescribeAsWritten(cloud: Cloud, h: seq<Call>, filters: seq<Filter>, fuel: nat): Option<Listing<AutoScalingGroup>>
    decreases fuel
  {
    var call := Api(AutoScalingGroups, Describe(filters, None));
    match cloud.autoScalingGroups(h, filters)
    case Failed(e) => Some(Listing([call], Failure(e)))
    case Last(items) => Some(Listing([call], Success(items)))
    case More(items, _, _) =>
      if fuel == 0 then None
      else
        match DescribeAsWritten(cloud, h + [call], filters, fuel - 1)
        case None => None
        case Some(l) => Some(Listing([call] + l.calls, Prepend(items, l.result)))
  }

  /** A cloud that has a second page of groups for every describe call that starts a listing. */
  const TwoPages: Cloud := Quiet.(autoScalingGroups := (h: seq<Call>, f: seq<Filter>) => More([], "next", Last([])))

  /** As written, a listing with a second page never ends, however many requests are allowed. */
  lemma {:induction false} DescribeAsWrittenNeverEnds(h: seq<Call>, filters: seq<Filter>, fuel: nat)
    ensures DescribeAsWritten(TwoPages, h, filters, fuel) == None
    decreases fuel
  {
    if fuel > 0 {
      DescribeAsWrittenNeverEnds(h + [Api(AutoScalingGroups, Describe(filters, None))], filters, fuel - 1);
    }
  }

  /** With the token sent, the same two-page listing ends after two requests, the second carrying the token. */
  lemma DescribeWithTokenEnds(h: seq<Call>, filters: seq<Filter>)
    ensures Listed(AutoScalingGroups, filters, TwoPages.autoScalingGroups(h, filters), All)
      == Listing([Api(AutoScalingGroups, Describe(filters, None)), Api(AutoScalingGroups, Describe(filters, Some("next")))], Success([]))
  {
    var first := Api(AutoScalingGroups, Describe(filters, None));
    var second := Api(AutoScalingGroups, Describe(filters, Some("next")));
    var p: Pages<AutoScalingGroup> := More([], "next", Last([]));
    assert TwoPages.autoScalingGroups(h, filters) == p;
    assert PageCalls(AutoScalingGroups, filters, p.rest, Some("next")) == [second];
    assert PageCalls(AutoScalingGroups, filters, p, None) == [first] + [second];
    assert [first] + [second] == [first, second];
    assert Select([], All<AutoScalingGroup>) == [];
    assert Collected(p.rest, All) == Success([]);
    assert Collected(p, All) == Prepend([], Success([]));
    var none: seq<AutoScalingGroup> := [];
    assert none + none == none;
    assert Listed(AutoScalingGroups, filters, p, All) == Listing(PageCalls(AutoScalingGroups, filters, p, None), Collected(p, All));
  }

  /** On a listing served in one page, the code as written and the corrected loop agree. */
  lemma DescribeOnePageAgrees(cloud: Cloud, h: seq<Call>, filters: seq<Filter>, fuel: nat)
    requires !cloud.autoScalingGroups(h, filters).More?
    ensures DescribeAsWritten(cloud, h, filters, fuel) == Some(Listed(AutoScalingGroups, filters, cloud.autoScalingGroups(h, filters), All))
  {
    var p := cloud.autoScalingGroups(h, filters);
    var call := Api(AutoScalingGroups, Describe(filters, None));
    assert PageCalls(AutoScalingGroups, filters, p, None) == [call] + [];
    assert [call] + [] == [call];
    if p.Last? {
      SelectAll(p.items);
      assert Collected(p, All) == Success(p.items);
    }
    assert Listed(AutoScalingGroups, filters, p, All) == Listing(PageCalls(AutoScalingGroups, filters, p, None), Collected(p, All));
  }

  /** describeAutoScalingGroups, with the next token sent: every group on every page, or the first describe error. */
  method DescribeAutoScalingGroups(cloud: Cloud, trace: seq<Call>, filters: seq<Filter>)
    returns (trace': seq<Call>, r: Result<seq<AutoScalingGroup>, Err>)
    ensures trace' == trace + Listed(AutoScalingGroups, filters, cloud.autoScalingGroups(trace, filters), All).calls
    ensures r == Listed(AutoScalingGroups, filters, cloud.autoScalingGroups(trace, filters), All).result
  {
    trace', r := Paginate(cloud, trace, cloud.autoScalingGroups(trace, filters), AutoScalingGroups, filters, All);
  }

  /** The describe passes over the given filter sets, in order, stopping at the first failing describe call. */
  function FilterPasses(cloud: Cloud, h: seq<Call>, filterSets: seq<seq<Filter>>): Listing<AutoScalingGroup>
    decreases |filterSets|
  {
    if filterSets == [] then Listing([], Success([]))
    else
      var n := |filterSets| - 1;
      var before := FilterPasses(cloud, h, filterSets[..n]);
      match before.result
      case Failure(_) => before
      case Success(found) =>
        var pass := Listed(AutoScalingGroups, filterSets[n], cloud.autoScalingGroups(h + before.calls, filterSets[n]), All);
        Listing(before.calls + pass.calls, Prepend(found, pass.result))
  }

  /** A pass after successful ones lists from where they left the trace and adds its groups after theirs. */
  lemma FilterPassesNext(cloud: Cloud, h: seq<Call>, filterSets: seq<seq<Filter>>, i: nat)
    requires i < |filterSets| && FilterPasses(cloud, h, filterSets[..i]).result.Success?
    ensures
      var before := FilterPasses(cloud, h, filterSets[..i]);
      var pass := Listed(AutoScalingGroups, filterSets[i], cloud.autoScalingGroups(h + before.calls, filterSets[i]), All);
      FilterPasses(cloud, h, filterSets[..i + 1]) == Listing(before.calls + pass.calls, Prepend(before.result.value, pass.result))
  {
    assert filterSets[..i + 1][..i] == filterSets[..i];
  }

  /** Once a pass has failed, the later filter sets add nothing. */
  lemma {:induction false} FilterPassesStuck(cloud: Cloud, h: seq<Call>, filterSets: seq<seq<Filter>>, i: nat)
    requires i <= |filterSets| && FilterPasses(cloud, h, filterSets[..i]).result.Failure?
    ensures FilterPasses(cloud, h, filterSets) == FilterPasses(cloud, h, filterSets[..i])
    decreases |filterSets| - i
  {
    if i < |filterSets| {
      assert filterSets[..i + 1][..i] == filterSets[..i];
      FilterPassesStuck(cloud, h, filterSets, i + 1);
    } else {
      assert filterSets[..i] == filterSets;
    }
  }

  /** The ARNs of a sequence of groups. */
  function Arns(gs: seq<AutoScalingGroup>): set<string>
  {
    set g | g in gs :: g.autoScalingGroupArn
  }

  /** The groups of gs in order, each ARN kept at its first occurrence only. */
  function FirstByArn(gs: seq<AutoScalingGroup>): seq<AutoScalingGroup>
    decreases |gs|
  {
    if gs == [] then []
    else
      var n := |gs| - 1;
      var kept := FirstByArn(gs[..n]);
      if gs[n].autoScalingGroupArn in Arns(kept) then kept else kept + [gs[n]]
  }

  /** The position of the first group of gs with the given ARN. */
  function FirstIndex(gs: seq<AutoScalingGroup>, arn: string): (i: nat)
    requires arn in Arns(gs)
    ensures i < |gs| && gs[i].autoScalingGroupArn == arn
    ensures forall j :: 0 <= j < i ==> gs[j].autoScalingGroupArn != arn
    decreases |gs|
  {
    if gs[0].autoScalingGroupArn == arn then 0
    else
      assert arn in Arns(gs[1..]) by {
        var g :| g in gs && g.autoScalingGroupArn == arn;
        assert g != gs[0];
        assert g in gs[1..];
      }
      1 + FirstIndex(gs[1..], arn)
  }

  /** The ARNs of the groups of gs, each at most once. */
  predicate DistinctArns(gs: seq<AutoScalingGroup>)
  {
    forall i, j :: 0 <= i < j < |gs| ==> gs[i].autoScalingGroupArn != gs[j].autoScalingGroupArn
  }

  /** De-duplicating by ARN keeps every ARN of the input, each exactly once, and only groups of the input. */
  lemma {:induction false} FirstByArnDistinct(gs: seq<AutoScalingGroup>)
    ensures DistinctArns(FirstByArn(gs))
    ensures Arns(FirstByArn(gs)) == Arns(gs)
    ensures forall g :: g in FirstByArn(gs) ==> g in gs
    decreases |gs|
  {
    if gs != [] {
      var n := |gs| - 1;
      var front := gs[..n];
      var kept := FirstByArn(front);
      FirstByArnDistinct(front);
      assert gs == front + [gs[n]];
      assert Arns(gs) == Arns(front) + {gs[n].autoScalingGroupArn};
      if gs[n].autoScalingGroupArn !in Arns(kept) {
        var r := kept + [gs[n]];
        assert Arns(r) == Arns(kept) + {gs[n].autoScalingGroupArn};
        forall i, j | 0 <= i < j < |r| ensures r[i].autoScalingGroupArn != r[j].autoScalingGroupArn {
          if j == |kept| {
            assert r[i] == kept[i] && kept[i] in kept;
          }
        }
      }
    }
  }

  /** g is the first group of gs with its ARN. */
  ghost predicate IsFirst(gs: seq<AutoScalingGroup>, g: AutoScalingGroup)
  {
    g.autoScalingGroupArn in Arns(gs) && g == gs[FirstIndex(gs, g.autoScalingGroupArn)]
  }

  /** Each group of `out` is the first group of gs with its ARN. */
  ghost predicate FirstOf(gs: seq<AutoScalingGroup>, out: seq<AutoScalingGroup>)
  {
    forall k :: 0 <= k < |out| ==> IsFirst(gs, out[k])
  }

  /** The groups of `out` come in the order their ARNs were first seen in gs. */
  ghost predicate SeenInOrder(gs: seq<AutoScalingGroup>, out: seq<AutoScalingGroup>)
    requires FirstOf(gs, out)
  {
    forall k, l :: 0 <= k < l < |out| ==>
      FirstIndex(gs, out[k].autoScalingGroupArn) < FirstIndex(gs, out[l].autoScalingGroupArn)
  }

  ghost predicate FirstSeen(gs: seq<AutoScalingGroup>, out: seq<AutoScalingGroup>)
  {
    FirstOf(gs, out) && SeenInOrder(gs, out)
  }

  /**
    Each group de-duplication keeps is the first group of the input with its
    ARN, and the groups kept come in the order their ARNs were first seen.
  */
  lemma {:induction false} FirstByArnFirstSeen(gs: seq<AutoScalingGroup>)
    ensures forall k :: 0 <= k < |FirstByArn(gs)| ==>
      FirstByArn(gs)[k].autoScalingGroupArn in Arns(gs) &&
      FirstByArn(gs)[k] == gs[FirstIndex(gs, FirstByArn(gs)[k].autoScalingGroupArn)]
    ensures forall k, l :: 0 <= k < l < |FirstByArn(gs)| ==>
      FirstIndex(gs, FirstByArn(gs)[k].autoScalingGroupArn) < FirstIndex(gs, FirstByArn(gs)[l].autoScalingGroupArn)
    decreases |gs|
  {
    if gs != [] {
      var n := |gs| - 1;
      var front := gs[..n];
      var kept := FirstByArn(front);
      FirstByArnFirstSeen(front);
      assert FirstSeen(front, kept);
      FirstSeenGrows(front, gs, kept);
      if gs[n].autoScalingGroupArn !in Arns(kept) {
        FirstByArnDistinct(front);
        FirstSeenAdds(gs, kept);
      }
      assert FirstSeen(gs, FirstByArn(gs));
    }
  }

  /** What was first seen in a prefix is still first seen there in the whole, before the prefix ends. */
  lemma FirstSeenGrows(front: seq<AutoScalingGroup>, gs: seq<AutoScalingGroup>, kept: seq<AutoScalingGroup>)
    requires front <= gs && FirstSeen(front, kept)
    ensures FirstSeen(gs, kept)
    ensures forall k :: 0 <= k < |kept| ==> FirstIndex(gs, kept[k].autoScalingGroupArn) < |front|
  {
    forall a | a in Arns(front) ensures a in Arns(gs) && FirstIndex(gs, a) == FirstIndex(front, a) {
      FirstIndexPrefix(front, gs, a);
    }
    forall k | 0 <= k < |kept|
      ensures IsFirst(gs, kept[k])
      ensures FirstIndex(gs, kept[k].autoScalingGroupArn) == FirstIndex(front, kept[k].autoScalingGroupArn)
    {
      assert IsFirst(front, kept[k]);
      var i := FirstIndex(front, kept[k].autoScalingGroupArn);
      assert front[i] == gs[i];
    }
  }

  /** A last group whose ARN is new is first seen last, after everything kept before it. */
  lemma FirstSeenAdds(gs: seq<AutoScalingGroup>, kept: seq<AutoScalingGroup>)
    requires |gs| > 0 && FirstSeen(gs, kept)
    requires forall k :: 0 <= k < |kept| ==> FirstIndex(gs, kept[k].autoScalingGroupArn) < |gs| - 1
    requires Arns(kept) == Arns(gs[..|gs| - 1]) && gs[|gs| - 1].autoScalingGroupArn !in Arns(kept)
    ensures FirstSeen(gs, kept + [gs[|gs| - 1]])
  {
    FirstIndexLast(gs, gs[|gs| - 1].autoScalingGroupArn);
    assert IsFirst(gs, gs[|gs| - 1]);
    FirstOfAdds(gs, kept);
    SeenInOrderAdds(gs, kept);
  }

  lemma FirstOfAdds(gs: seq<AutoScalingGroup>, kept: seq<AutoScalingGroup>)
    requires |gs| > 0 && FirstOf(gs, kept) && IsFirst(gs, gs[|gs| - 1])
    ensures FirstOf(gs, kept + [gs[|gs| - 1]])
  {
    var r := kept + [gs[|gs| - 1]];
    forall k | 0 <= k < |r|
      ensures IsFirst(gs, r[k])
    {
      if k < |kept| {
        assert r[k] == kept[k];
      }
    }
  }

  lemma SeenInOrderAdds(gs: seq<AutoScalingGroup>, kept: seq<AutoScalingGroup>)
    requires |gs| > 0 && FirstSeen(gs, kept) && FirstOf(gs, kept + [gs[|gs| - 1]])
    requires forall k :: 0 <= k < |kept| ==> FirstIndex(gs, kept[k].autoScalingGroupArn) < |gs| - 1
    requires FirstIndex(gs, gs[|gs| - 1].autoScalingGroupArn) == |gs| - 1
    ensures SeenInOrder(gs, kept + [gs[|gs| - 1]])
  {
    var n := |gs| - 1;
    var r := kept + [gs[n]];
    forall k, l | 0 <= k < l < |r|
      ensures FirstIndex(gs, r[k].autoScalingGroupArn) < FirstIndex(gs, r[l].autoScalingGroupArn)
    {
      assert r[k] == kept[k];
      if l < |kept| {
        assert r[l] == kept[l];
      } else {
        assert r[l] == gs[n];
      }
    }
  }

  /** An ARN that only the last group carries is first seen there. */
  lemma FirstIndexLast(gs: seq<AutoScalingGroup>, arn: string)
    requires |gs| > 0 && gs[|gs| - 1].autoScalingGroupArn == arn && arn !in Arns(gs[..|gs| - 1])
    ensures arn in Arns(gs) && FirstIndex(gs, arn) == |gs| - 1
  {
    assert gs[|gs| - 1] in gs;
    assert forall k :: 0 <= k < |gs| - 1 ==> gs[k] in gs[..|gs| - 1];
  }

  /** The first occurrence of an ARN in a prefix is its first occurrence in the whole. */
  lemma FirstIndexPrefix(front: seq<AutoScalingGroup>, gs: seq<AutoScalingGroup>, arn: string)
    requires front <= gs && arn in Arns(front)
    ensures arn in Arns(gs) && FirstIndex(gs, arn) == FirstIndex(front, arn)
  {
    var i := FirstIndex(front, arn);
    assert front[i] == gs[i] && gs[i] in gs;
    assert forall k :: 0 <= k < |front| ==> front[k] == gs[k];
  }

  /** The cluster's groups once every filter set's listing succeeded: each ARN once, first seen first. */
  function AsgListing(cloud: Cloud, h: seq<Call>, clusterName: string): Listing<AutoScalingGroup>
  {
    var passes := FilterPasses(cloud, h, AutoScalingFilters(clusterName));
    match passes.result
    case Failure(e) => Listing(passes.calls, Failure(e))
    case Success(found) => Listing(passes.calls, Success(FirstByArn(found)))
  }

  lemma ArnsSnoc(gs: seq<AutoScalingGroup>, g: AutoScalingGroup)
    ensures Arns(gs + [g]) == Arns(gs) + {g.autoScalingGroupArn}
  {
    assert forall x :: x in gs + [g] <==> x in gs || x == g;
  }

  /** The de-duplication step over one more listed group. */
  lemma FirstByArnSnoc(found: seq<AutoScalingGroup>, g: AutoScalingGroup)
    ensures FirstByArn(found + [g]) ==
      if g.autoScalingGroupArn in Arns(FirstByArn(found)) then FirstByArn(found) else FirstByArn(found) + [g]
  {
    assert (found + [g])[..|found|] == found;
  }

  /** The inner loop of listAutoScalingGroups: add each group of a page whose ARN has not been seen yet. */
  method KeepFirstSeen(groups: seq<AutoScalingGroup>, groupNames: set<string>, page: seq<AutoScalingGroup>, ghost found: seq<AutoScalingGroup>)
    returns (groups': seq<AutoScalingGroup>, groupNames': set<string>)
    requires groups == FirstByArn(found) && groupNames == Arns(groups)
    ensures groups' == FirstByArn(found + page) && groupNames' == Arns(groups')
  {
    groups', groupNames' := groups, groupNames;
    assert found + page[..0] == found;
    for j := 0 to |page|
      invariant groups' == FirstByArn(found + page[..j]) && groupNames' == Arns(groups')
    {
      assert found + page[..j + 1] == (found + page[..j]) + [page[j]];
      FirstByArnSnoc(found + page[..j], page[j]);
      if page[j].autoScalingGroupArn in groupNames' {
        continue;
      }
      ArnsSnoc(groups', page[j]);
      groups' := groups' + [page[j]];
      groupNames' := groupNames' + {page[j].autoScalingGroupArn};
    }
    assert page[..|page|] == page;
  }

  /**
    listAutoScalingGroups: describe with each filter set in turn, keeping a
    group only the first time its ARN is seen; any describe error aborts.
  */
  method ListAutoScalingGroups(cloud: Cloud, trace: seq<Call>, clusterName: string)
    returns (trace': seq<Call>, r: Result<seq<AutoScalingGroup>, Err>)
    ensures trace' == trace + AsgListing(cloud, trace, clusterName).calls
    ensures r == AsgListing(cloud, trace, clusterName).result
  {
    var filterSets := AutoScalingFilters(clusterName);
    var groups: seq<AutoScalingGroup> := [];
    var groupNames: set<string> := {};
    ghost var found: seq<AutoScalingGroup> := [];
    trace' := trace;
    for i := 0 to |filterSets|
      invariant trace' == trace + FilterPasses(cloud, trace, filterSets[..i]).calls
      invariant FilterPasses(cloud, trace, filterSets[..i]).result == Success(found)
      invariant groups == FirstByArn(found) && groupNames == Arns(groups)
    {
      ghost var before := FilterPasses(cloud, trace, filterSets[..i]);
      ghost var at := trace';
      FilterPassesNext(cloud, trace, filterSets, i);
      var described;
      trace', described := DescribeAutoScalingGroups(cloud, trace', filterSets[i]);
      ghost var pass := Listed(AutoScalingGroups, filterSets[i], cloud.autoScalingGroups(at, filterSets[i]), All);
      Joined(trace, at, trace', before.calls, pass.calls);
      if described.Failure? {
        FilterPassesStuck(cloud, trace, filterSets, i + 1);
        return trace', Failure(described.error);
      }
      var page := described.value;
      groups, groupNames := KeepFirstSeen(groups, groupNames, page, found);
      found := found + page;
    }
    assert filterSets[..|filterSets|] == filterSets;
    r := Success(groups);
  }
}
