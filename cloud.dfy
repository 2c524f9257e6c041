/**
  The cloud as the teardown drivers see it. Every call a driver makes is
  recorded in a call trace, and every answer the cloud gives is a function of
  the calls made before it. An act call (delete, detach, revoke, resize,
  release, wait) answers nil or an error. A listing answers a finite stream of
  pages.

  Aggregated errors (Go's multierr) are sequences of errors. The nil error is
  the empty sequence, and multierr.Append is concatenation, so appending a nil
  error changes nothing.
*/
module Cloud {
  import opened Wrappers
  import opened Sdk

  /** The errors the drivers tell apart. */
  datatype Err =
    | EksNotFound             // the cluster service's ResourceNotFoundException
    | ApiError(code: string)  // a generic API error carrying the service's error code
    | Other(message: string)  // any other failure: throttling, a dependency violation, a waiter timeout

  /** The driver that issued a call: the sixteen pipeline steps, the cluster task, and the unused v2 load balancer driver. */
  datatype Step =
    | Peerings | LoadBalancers | AutoScalingGroups | Instances | NetworkAcls | ElasticIps
    | NatGateways | InternetGateways | NetworkInterfaces | Subnets | SecurityGroups | VpnGateways
    | RouteTables | NodeGroups | Vpcs | CloudFormation | ClusterTask | LoadBalancersV2

  /** Position of a step in the teardown pipeline; the cluster task and the v2 driver come after all sixteen. */
  function Rank(s: Step): nat
  {
    match s
    case Peerings => 0
    case LoadBalancers => 1
    case AutoScalingGroups => 2
    case Instances => 3
    case NetworkAcls => 4
    case ElasticIps => 5
    case NatGateways => 6
    case InternetGateways => 7
    case NetworkInterfaces => 8
    case Subnets => 9
    case SecurityGroups => 10
    case VpnGateways => 11
    case RouteTables => 12
    case NodeGroups => 13
    case Vpcs => 14
    case CloudFormation => 15
    case ClusterTask => 16
    case LoadBalancersV2 => 17
  }

  /** The cloud operations the drivers issue. */
  datatype Op =
    | Describe(filters: seq<Filter>, token: Option<string>)  // one page of a listing
    | Delete(id: string)
    | Release(allocationId: Option<string>)
    | Detach(gatewayId: string, vpcId: string)
    | DetachInterface(attachmentId: string)
    | Resize(groupName: string)                               // desired, max and min capacity set to 0
    | Wait(instanceIds: seq<string>)                          // the instance-terminated waiter
    | Terminate(instanceIds: seq<string>)
    | RevokeIngress(groupId: string, ruleIds: seq<string>)
    | RevokeEgress(groupId: string, ruleIds: seq<string>)
    | DescribeCluster(name: string)
    | DeleteCluster(name: string)
    | ListNodegroups(clusterName: string, token: Option<string>)
    | DeleteNodegroup(clusterName: string, nodegroupName: string)
    | ListStacks(clusterName: string)
    | DeleteStacks(clusterName: string)

  /** One entry of the call trace: an API call tagged with its driver, or the retry loop's sleep. */
  datatype Call = Api(step: Step, op: Op) | Sleep

  /**
    The pages a listing is served: a failing describe call, a last page (no
    next token), or a page with a next token and the pages that follow it.
  */
  datatype Pages<T> =
    | Failed(err: Err)
    | Last(items: seq<T>)
    | More(items: seq<T>, token: string, rest: Pages<T>)

  /**
    The cloud's answers, as seen through one set of clients. Each field maps
    the calls made so far, and the request about to be made, to what the
    cloud answers: `answer` for act calls, the others for the listing or
    describe call that starts at that point. A listing's pages are fixed when
    the listing starts.
  */
  datatype Cloud = Cloud(
    answer: (seq<Call>, Call) -> Option<Err>,
    cluster: (seq<Call>, string) -> Result<Cluster, Err>,
    peerings: (seq<Call>, seq<Filter>) -> Pages<VpcPeeringConnection>,
    loadBalancers: seq<Call> -> Pages<LoadBalancerDescription>,
    loadBalancersV2: seq<Call> -> Pages<LoadBalancer>,
    autoScalingGroups: (seq<Call>, seq<Filter>) -> Pages<AutoScalingGroup>,
    reservations: (seq<Call>, seq<Filter>) -> Pages<Reservation>,
    terminate: (seq<Call>, seq<string>) -> Result<seq<InstanceStateChange>, Err>,
    networkAcls: (seq<Call>, seq<Filter>) -> Pages<NetworkAcl>,
    addresses: (seq<Call>, seq<Filter>) -> Result<seq<Address>, Err>,
    natGateways: (seq<Call>, seq<Filter>) -> Pages<NatGateway>,
    internetGateways: (seq<Call>, seq<Filter>) -> Pages<InternetGateway>,
    networkInterfaces: (seq<Call>, seq<Filter>) -> Pages<NetworkInterface>,
    subnets: (seq<Call>, seq<Filter>) -> Pages<Subnet>,
    securityGroups: (seq<Call>, seq<Filter>) -> Pages<SecurityGroup>,
    securityGroupRules: (seq<Call>, seq<Filter>) -> Pages<SecurityGroupRule>,
    vpnGateways: (seq<Call>, seq<Filter>) -> Result<seq<VpnGateway>, Err>,
    routeTables: (seq<Call>, seq<Filter>) -> Pages<RouteTable>,
    nodegroups: (seq<Call>, string) -> Pages<string>,
    stacks: (seq<Call>, string) -> Option<Err>)

  /** A cloud that answers every act call nil and serves every listing one empty page. */
  const Quiet: Cloud := Cloud(
    (h: seq<Call>, c: Call) => None,
    (h: seq<Call>, name: string) => Failure(EksNotFound),
    (h: seq<Call>, f: seq<Filter>) => Last([]),
    (h: seq<Call>) => Last([]),
    (h: seq<Call>) => Last([]),
    (h: seq<Call>, f: seq<Filter>) => Last([]),
    (h: seq<Call>, f: seq<Filter>) => Last([]),
    (h: seq<Call>, ids: seq<string>) => Success([]),
    (h: seq<Call>, f: seq<Filter>) => Last([]),
    (h: seq<Call>, f: seq<Filter>) => Success([]),
    (h: seq<Call>, f: seq<Filter>) => Last([]),
    (h: seq<Call>, f: seq<Filter>) => Last([]),
    (h: seq<Call>, f: seq<Filter>) => Last([]),
    (h: seq<Call>, f: seq<Filter>) => Last([]),
    (h: seq<Call>, f: seq<Filter>) => Last([]),
    (h: seq<Call>, f: seq<Filter>) => Last([]),
    (h: seq<Call>, f: seq<Filter>) => Success([]),
    (h: seq<Call>, f: seq<Filter>) => Last([]),
    (h: seq<Call>, name: string) => Last([]),
    (h: seq<Call>, name: string) => None)

  /** The calls a piece of driver code issues and the errors it records. */
  datatype Run = Run(calls: seq<Call>, errs: seq<Err>)

  /** One run followed by another. */
  function Then(a: Run, b: Run): Run
  {
    Run(a.calls + b.calls, a.errs + b.errs)
  }

  /** The nothing-done run. */
  const NoRun := Run([], [])

  /** multierr.Append of a single call's error: a nil error adds nothing. */
  function AsList(e: Option<Err>): (r: seq<Err>)
    ensures |r| <= 1
    ensures r == [] <==> e.None?
  {
    if e.Some? then [e.value] else []
  }

  /** Every call of the sequence is an API call issued by driver `s`. */
  predicate Tagged(calls: seq<Call>, s: Step)
  {
    forall i :: 0 <= i < |calls| ==> calls[i].Api? && calls[i].step == s
  }

  /** The trace never goes back to an earlier pipeline step. */
  predicate Ordered(calls: seq<Call>)
  {
    forall i, j :: 0 <= i < j < |calls| ==> calls[i].Api? && calls[j].Api? ==> Rank(calls[i].step) <= Rank(calls[j].step)
  }

  // ---------------------------------------------------------------------
  // Independent calls: one call per targeted item, none stopping the next
  // ---------------------------------------------------------------------

  /** The elements of xs that keep selects, in order. */
  function Select<T>(xs: seq<T>, keep: T -> bool): (r: seq<T>)
    ensures |r| <= |xs|
    ensures forall i :: 0 <= i < |r| ==> r[i] in xs && keep(r[i])
    ensures forall i :: 0 <= i < |xs| && keep(xs[i]) ==> xs[i] in r
    decreases |xs|
  {
    if xs == [] then []
    else
      var n := |xs| - 1;
      Select(xs[..n], keep) + (if keep(xs[n]) then [xs[n]] else [])
  }

  /** The calls issued for the items that `target` picks, in item order. */
  function Targets<T>(xs: seq<T>, target: T -> Option<Call>): seq<Call>
    decreases |xs|
  {
    if xs == [] then []
    else
      var n := |xs| - 1;
      Targets(xs[..n], target) + (if target(xs[n]).Some? then [target(xs[n]).value] else [])
  }

  /** The listing's calls then the act's calls, as one stretch of the trace. */
  lemma Joined(trace: seq<Call>, listed: seq<Call>, trace': seq<Call>, listCalls: seq<Call>, actCalls: seq<Call>)
    requires listed == trace + listCalls && trace' == listed + actCalls
    ensures trace' == trace + (listCalls + actCalls)
  {
  }

  /** The errors recorded when `calls` are issued one after the other from history h, every error kept and none stopping the rest. */
  function Failures(cloud: Cloud, h: seq<Call>, calls: seq<Call>): (r: seq<Err>)
    ensures |r| <= |calls|
    decreases |calls|
  {
    if calls == [] then []
    else
      var n := |calls| - 1;
      Failures(cloud, h, calls[..n]) + AsList(cloud.answer(h + calls[..n], calls[n]))
  }

  /** A call is targeted exactly when some item picks it. */
  lemma {:induction false} TargetsMember<T>(xs: seq<T>, target: T -> Option<Call>, c: Call)
    ensures c in Targets(xs, target) <==> exists x :: x in xs && target(x) == Some(c)
    decreases |xs|
  {
    if xs != [] {
      var n := |xs| - 1;
      TargetsMember(xs[..n], target, c);
      assert xs == xs[..n] + [xs[n]];
      if c in Targets(xs[..n], target) {
        var x :| x in xs[..n] && target(x) == Some(c);
        assert x in xs;
      }
      if exists x :: x in xs && target(x) == Some(c) {
        var x :| x in xs && target(x) == Some(c);
        assert x in xs[..n] || x == xs[n];
      }
    }
  }

  /** All targeted calls carry the driver's tag when every item's target does. */
  lemma {:induction false} TargetsTagged<T>(xs: seq<T>, target: T -> Option<Call>, s: Step)
    requires forall x :: x in xs && target(x).Some? ==> target(x).value.Api? && target(x).value.step == s
    ensures Tagged(Targets(xs, target), s)
    decreases |xs|
  {
    if xs != [] {
      var n := |xs| - 1;
      assert forall x :: x in xs[..n] ==> x in xs;
      TargetsTagged(xs[..n], target, s);
    }
  }

  /** Issuing independent calls records no error exactly when every call is answered nil. */
  lemma FailuresNone(cloud: Cloud, h: seq<Call>, calls: seq<Call>)
    ensures Failures(cloud, h, calls) == [] <==>
      forall i :: 0 <= i < |calls| ==> cloud.answer(h + calls[..i], calls[i]).None?
  {
    if Failures(cloud, h, calls) == [] {
      NoFailuresAllNil(cloud, h, calls);
    } else {
      FailureAnswered(cloud, h, calls);
    }
  }

  /** A prefix of a prefix is a prefix, and agrees with the whole where both are defined. */
  lemma PrefixOfPrefix<T>(s: seq<T>, n: nat, i: nat)
    requires i < n <= |s|
    ensures s[..n][..i] == s[..i] && s[..n][i] == s[i]
  {
  }

  lemma NoFailuresAllNil(cloud: Cloud, h: seq<Call>, calls: seq<Call>)
    requires Failures(cloud, h, calls) == []
    ensures forall i :: 0 <= i < |calls| ==> cloud.answer(h + calls[..i], calls[i]).None?
  {
    forall i | 0 <= i < |calls|
      ensures cloud.answer(h + calls[..i], calls[i]).None?
    {
      NilAt(cloud, h, calls, i);
    }
  }

  /** With no error recorded, the call at position i was answered nil. */
  lemma {:induction false} NilAt(cloud: Cloud, h: seq<Call>, calls: seq<Call>, i: nat)
    requires Failures(cloud, h, calls) == [] && i < |calls|
    ensures cloud.answer(h + calls[..i], calls[i]).None?
    decreases |calls|
  {
    var n := |calls| - 1;
    var front := calls[..n];
    assert calls == front + [calls[n]];
    FailuresSnoc(cloud, h, front, calls[n]);
    if i < n {
      NilAt(cloud, h, front, i);
      PrefixOfPrefix(calls, n, i);
    }
  }

  lemma {:induction false} FailureAnswered(cloud: Cloud, h: seq<Call>, calls: seq<Call>)
    requires Failures(cloud, h, calls) != []
    ensures exists i :: 0 <= i < |calls| && cloud.answer(h + calls[..i], calls[i]).Some?
    decreases |calls|
  {
    assert calls != [];
    var n := |calls| - 1;
    var front := calls[..n];
    assert calls == front + [calls[n]];
    FailuresSnoc(cloud, h, front, calls[n]);
    if Failures(cloud, h, front) != [] {
      FailureAnswered(cloud, h, front);
      var i :| 0 <= i < |front| && cloud.answer(h + front[..i], front[i]).Some?;
      PrefixOfPrefix(calls, n, i);
    } else {
      assert cloud.answer(h + calls[..n], calls[n]).Some?;
    }
  }

  /** Issuing calls a then b records a's errors followed by b's. */
  lemma {:induction false} FailuresAppend(cloud: Cloud, h: seq<Call>, a: seq<Call>, b: seq<Call>)
    ensures Failures(cloud, h, a + b) == Failures(cloud, h, a) + Failures(cloud, h + a, b)
    decreases |b|
  {
    if b == [] {
      assert a + b == a;
    } else {
      var n := |b| - 1;
      var front, c := b[..n], b[n];
      assert b == front + [c];
      assert a + b == (a + front) + [c];
      FailuresAppend(cloud, h, a, front);
      FailuresSnoc(cloud, h, a + front, c);
      FailuresSnoc(cloud, h + a, front, c);
      ConcatAssoc(h, a, front);
      var last := AsList(cloud.answer(h + (a + front), c));
      ConcatAssoc(Failures(cloud, h, a), Failures(cloud, h + a, front), last);
    }
  }

  lemma ConcatAssoc<T>(x: seq<T>, y: seq<T>, z: seq<T>)
    ensures x + (y + z) == (x + y) + z
  {
  }

  /** One more call records its own error, if any, after the earlier ones. */
  lemma FailuresSnoc(cloud: Cloud, h: seq<Call>, calls: seq<Call>, c: Call)
    ensures Failures(cloud, h, calls + [c]) == Failures(cloud, h, calls) + AsList(cloud.answer(h + calls, c))
  {
    assert (calls + [c])[..|calls|] == calls;
  }

  /**
    One call per item that `target` picks, in order, each answered by the
    cloud; every error is recorded and no failure stops the later items.
  */
  method IssueEach<T>(cloud: Cloud, trace: seq<Call>, xs: seq<T>, target: T -> Option<Call>)
    returns (trace': seq<Call>, errs: seq<Err>)
    ensures trace' == trace + Targets(xs, target)
    ensures errs == Failures(cloud, trace, Targets(xs, target))
  {
    trace', errs := trace, [];
    for i := 0 to |xs|
      invariant trace' == trace + Targets(xs[..i], target)
      invariant errs == Failures(cloud, trace, Targets(xs[..i], target))
    {
      assert xs[..i + 1][..i] == xs[..i];
      ghost var before := Targets(xs[..i], target);
      match target(xs[i])
      case Some(c) =>
        assert Targets(xs[..i + 1], target) == before + [c];
        var e := cloud.answer(trace', c);
        assert (before + [c])[..|before|] == before;
        assert Failures(cloud, trace, before + [c]) == Failures(cloud, trace, before) + AsList(cloud.answer(trace + before, c));
        trace' := trace' + [c];
        errs := errs + AsList(e);
      case None =>
        assert Targets(xs[..i + 1], target) == before;
    }
    assert xs[..|xs|] == xs;
  }

  // ---------------------------------------------------------------------
  // Per-item protocols: each item's calls depend on what came before
  // ---------------------------------------------------------------------

  /** Run `item` on every element of xs in order, each starting where the previous one left the trace. */
  function Each<T>(h: seq<Call>, xs: seq<T>, item: (seq<Call>, T) -> Run): Run
    decreases |xs|
  {
    if xs == [] then NoRun
    else
      var n := |xs| - 1;
      var r := Each(h, xs[..n], item);
      Then(r, item(h + r.calls, xs[n]))
  }

  /** Running one more item: the run so far, then that item started where the run left the trace. */
  lemma EachSnoc<T>(h: seq<Call>, xs: seq<T>, i: int, item: (seq<Call>, T) -> Run)
    requires 0 <= i < |xs|
    ensures Each(h, xs[..i + 1], item) == Then(Each(h, xs[..i], item), item(h + Each(h, xs[..i], item).calls, xs[i]))
  {
    assert xs[..i + 1][..i] == xs[..i];
  }

  /** The loop step of a per-item protocol: after item i has run where the earlier items left the trace, items 0..i have run. */
  lemma EachStep<T>(h: seq<Call>, xs: seq<T>, i: int, item: (seq<Call>, T) -> Run,
                    trace: seq<Call>, errs: seq<Err>, trace': seq<Call>, errs': seq<Err>)
    requires 0 <= i < |xs|
    requires trace == h + Each(h, xs[..i], item).calls && errs == Each(h, xs[..i], item).errs
    requires trace' == trace + item(trace, xs[i]).calls && errs' == errs + item(trace, xs[i]).errs
    ensures trace' == h + Each(h, xs[..i + 1], item).calls && errs' == Each(h, xs[..i + 1], item).errs
  {
    EachSnoc(h, xs, i, item);
  }

  /** A per-item run whose every item stays within driver `s` stays within `s`. */
  lemma {:induction false} EachTagged<T>(h: seq<Call>, xs: seq<T>, item: (seq<Call>, T) -> Run, s: Step)
    requires forall h': seq<Call>, x :: x in xs ==> Tagged(item(h', x).calls, s)
    ensures Tagged(Each(h, xs, item).calls, s)
    decreases |xs|
  {
    if xs != [] {
      var n := |xs| - 1;
      assert forall x :: x in xs[..n] ==> x in xs;
      EachTagged(h, xs[..n], item, s);
      assert xs[n] in xs;
    }
  }

  /** Item i of xs records no error, run after the items before it. */
  ghost predicate ItemClean<T>(h: seq<Call>, xs: seq<T>, item: (seq<Call>, T) -> Run, i: int)
    requires 0 <= i < |xs|
  {
    item(h + Each(h, xs[..i], item).calls, xs[i]).errs == []
  }

  /** A per-item run records no error exactly when no item records one. */
  lemma {:induction false} EachErrsNone<T>(h: seq<Call>, xs: seq<T>, item: (seq<Call>, T) -> Run)
    ensures Each(h, xs, item).errs == [] <==> forall i :: 0 <= i < |xs| ==> ItemClean(h, xs, item, i)
    decreases |xs|
  {
    if xs != [] {
      var n := |xs| - 1;
      var front := xs[..n];
      var r := Each(h, front, item);
      var last := item(h + r.calls, xs[n]);
      assert Each(h, xs, item).errs == r.errs + last.errs;
      EachErrsNone(h, front, item);
      assert ItemClean(h, xs, item, n) <==> last.errs == [];
      forall i | 0 <= i < n
        ensures ItemClean(h, front, item, i) <==> ItemClean(h, xs, item, i)
      {
        assert front[..i] == xs[..i];
      }
    }
  }

  // ---------------------------------------------------------------------
  // Paginated listings
  // ---------------------------------------------------------------------

  /** What a listing did: the describe calls it issued and the items it returned or the error that stopped it. */
  datatype Listing<T> = Listing(calls: seq<Call>, result: Result<seq<T>, Err>)

  /** The listing a paginated listing loop performs on the pages it is served. */
  function Listed<T>(step: Step, filters: seq<Filter>, pages: Pages<T>, keep: T -> bool): Listing<T>
  {
    Listing(PageCalls(step, filters, pages, None), Collected(pages, keep))
  }

  /** Every item the listing serves, page after page, up to the last page or the failure. */
  function Items<T>(p: Pages<T>): seq<T>
  {
    match p
    case Failed(_) => []
    case Last(items) => items
    case More(items, _, rest) => items + Items(rest)
  }

  /** Whether the listing ends in a failing describe call. */
  predicate Fails<T>(p: Pages<T>)
  {
    match p
    case Failed(_) => true
    case Last(_) => false
    case More(_, _, rest) => Fails(rest)
  }

  /** The error that ends a failing listing. */
  function FinalError<T>(p: Pages<T>): Err
    requires Fails(p)
  {
    match p
    case Failed(e) => e
    case More(_, _, rest) => FinalError(rest)
  }

  /** Prefix the items of a successful result. */
  function Prepend<T>(xs: seq<T>, r: Result<seq<T>, Err>): Result<seq<T>, Err>
  {
    match r
    case Success(ys) => Success(xs + ys)
    case Failure(e) => Failure(e)
  }

  lemma PrependTwice<T>(a: seq<T>, b: seq<T>, r: Result<seq<T>, Err>)
    ensures Prepend(a, Prepend(b, r)) == Prepend(a + b, r)
    ensures Prepend([], r) == r
  {
    if r.Success? {
      assert a + (b + r.value) == (a + b) + r.value;
      assert [] + r.value == r.value;
    }
  }

  /** What a listing loop returns: the kept items of every page in order, or the error that stopped it. */
  function Collected<T>(p: Pages<T>, keep: T -> bool): Result<seq<T>, Err>
  {
    match p
    case Failed(e) => Failure(e)
    case Last(items) => Success(Select(items, keep))
    case More(items, _, rest) => Prepend(Select(items, keep), Collected(rest, keep))
  }

  /** The describe calls a listing issues: one per page served, each carrying the token of the page before it. */
  function PageCalls<T>(step: Step, filters: seq<Filter>, p: Pages<T>, token: Option<string>): seq<Call>
  {
    [Api(step, Describe(filters, token))] + (if p.More? then PageCalls(step, filters, p.rest, Some(p.token)) else [])
  }

  /** The keep-everything selector of listings that do not filter. */
  function All<T>(x: T): bool
  {
    true
  }

  lemma {:induction false} SelectAppend<T>(a: seq<T>, b: seq<T>, keep: T -> bool)
    ensures Select(a + b, keep) == Select(a, keep) + Select(b, keep)
    decreases |b|
  {
    if b == [] {
      assert a + b == a;
    } else {
      var n := |b| - 1;
      assert (a + b)[..|a + b| - 1] == a + b[..n];
      assert (a + b)[|a + b| - 1] == b[n];
      SelectAppend(a, b[..n], keep);
    }
  }

  /** Keeping everything keeps the sequence as it is. */
  lemma {:induction false} SelectAll<T>(xs: seq<T>)
    ensures Select(xs, All) == xs
    decreases |xs|
  {
    if xs != [] {
      SelectAll(xs[..|xs| - 1]);
      assert xs[..|xs| - 1] + [xs[|xs| - 1]] == xs;
    }
  }

  /**
    A listing either returns the error of the describe call that failed, or
    every served item that `keep` selects, in page order.
  */
  lemma {:induction false} CollectedMeaning<T>(p: Pages<T>, keep: T -> bool)
    ensures Fails(p) ==> Collected(p, keep) == Failure(FinalError(p))
    ensures !Fails(p) ==> Collected(p, keep) == Success(Select(Items(p), keep))
  {
    match p
    case Failed(_) =>
    case Last(_) =>
    case More(items, _, rest) =>
      CollectedMeaning(rest, keep);
      SelectAppend(items, Items(rest), keep);
  }

  /** A listing's describe calls all belong to its driver and carry its filters; the first carries the starting token. */
  lemma {:induction false} PageCallsShape<T>(step: Step, filters: seq<Filter>, p: Pages<T>, token: Option<string>)
    ensures Tagged(PageCalls(step, filters, p, token), step)
    ensures forall c :: c in PageCalls(step, filters, p, token) ==> c.Api? && c.op.Describe? && c.op.filters == filters
    ensures PageCalls(step, filters, p, token)[0] == Api(step, Describe(filters, token))
  {
    if p.More? {
      PageCallsShape(step, filters, p.rest, Some(p.token));
    }
  }

  /**
    A paginated listing loop: describe with the current token, collect the
    page's kept items, and follow the next token until a page has none. A
    failing describe call ends the loop with that error alone.
  */
  method Paginate<T>(cloud: Cloud, trace: seq<Call>, pages: Pages<T>, step: Step, filters: seq<Filter>, keep: T -> bool)
    returns (trace': seq<Call>, r: Result<seq<T>, Err>)
    ensures trace' == trace + PageCalls(step, filters, pages, None)
    ensures r == Collected(pages, keep)
  {
    var p := pages;
    var token: Option<string> := None;
    var acc: seq<T> := [];
    trace' := trace;
    PrependTwice(acc, acc, Collected(pages, keep));
    while true
      invariant trace' + PageCalls(step, filters, p, token) == trace + PageCalls(step, filters, pages, None)
      invariant Collected(pages, keep) == Prepend(acc, Collected(p, keep))
      decreases p
    {
      var call := Api(step, Describe(filters, token));
      ghost var before := trace';
      trace' := trace' + [call];
      match p
      case Failed(e) =>
        assert PageCalls(step, filters, p, token) == [call];
        return trace', Failure(e);
      case Last(items) =>
        assert PageCalls(step, filters, p, token) == [call];
        return trace', Success(acc + Select(items, keep));
      case More(items, next, rest) =>
        assert PageCalls(step, filters, p, token) == [call] + PageCalls(step, filters, rest, Some(next));
        assert before + ([call] + PageCalls(step, filters, rest, Some(next))) == trace' + PageCalls(step, filters, rest, Some(next));
        PrependTwice(acc, Select(items, keep), Collected(rest, keep));
        acc := acc + Select(items, keep);
        token := Some(next);
        p := rest;
    }
  }
}
