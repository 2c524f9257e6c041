/**
  The teardown driver (DeleteResources in pkg/aws/cleaner.go): one task per
  cluster of every account. A task looks the cluster up, runs the pipeline
  up to `tries` times with a sleep after every failed attempt, and deletes
  the cluster once an attempt, or no attempt at all, left no error. The run's
  error aggregates every task's error.

  The tasks run concurrently in the source; here they run one after the
  other on one trace, which is one of the interleavings the source allows
  at task granularity.
*/
module AwsCleaner {
  import opened Wrappers
  import opened Sdk
  import opened Cloud
  import opened Dto
  import AwsPipeline
  import AwsOrder
  import AwsEks
  import AwsClients

  // ---------------------------------------------------------------------
  // The retry loop
  // ---------------------------------------------------------------------

  /** One attempt of the loop: a run of the pipeline from the given history. */
  function Pipeline(cloud: Cloud, vpcId: string, clusterName: string): seq<Call> -> Run
  {
    (h: seq<Call>) => AwsPipeline.Teardown(cloud, vpcId, clusterName, h)
  }

  /** The attempt for each VPC a cluster can sit in. */
  function Pipelines(cloud: Cloud, clusterName: string): string -> seq<Call> -> Run
  {
    (vpcId: string) => Pipeline(cloud, vpcId, clusterName)
  }

  /**
    `pipelines` gives, for every VPC, the pipeline's run as its attempt. The
    link is stated on the pipeline's runs, so proofs about the loop see an
    attempt function and never the pipeline's definition.
  */
  ghost predicate Runs(pipelines: string -> seq<Call> -> Run, cloud: Cloud, clusterName: string)
  {
    forall vpcId, h {:trigger AwsPipeline.Teardown(cloud, vpcId, clusterName, h)} ::
      pipelines(vpcId)(h) == AwsPipeline.Teardown(cloud, vpcId, clusterName, h)
  }

  /** The pipeline's own attempts are its runs. */
  lemma PipelinesRun(cloud: Cloud, clusterName: string)
    ensures Runs(Pipelines(cloud, clusterName), cloud, clusterName)
  {
  }

  /** Every call of the sequence is an API call; none is a sleep. */
  predicate ApiOnly(calls: seq<Call>)
  {
    forall i :: 0 <= i < |calls| ==> calls[i].Api?
  }

  /**
    The retry loop from history h with at most n attempts left and `err`
    the error variable as it stands: an attempt that returns nil ends the
    loop; a failed attempt is followed by one sleep and the next attempt.
  */
  function Attempts(attempt: seq<Call> -> Run, h: seq<Call>, n: nat, err: seq<Err>): Run
    decreases n
  {
    if n == 0 then Run([], err)
    else
      var a := attempt(h);
      if a.errs == [] then Run(a.calls, [])
      else
        var rest := Attempts(attempt, h + a.calls + [Sleep], n - 1, a.errs);
        Run(a.calls + [Sleep] + rest.calls, rest.errs)
  }

  /** The error of each attempt the loop makes, in order. */
  function AttemptErrors(attempt: seq<Call> -> Run, h: seq<Call>, n: nat): seq<seq<Err>>
    decreases n
  {
    if n == 0 then []
    else
      var a := attempt(h);
      if a.errs == [] then [[]]
      else [a.errs] + AttemptErrors(attempt, h + a.calls + [Sleep], n - 1)
  }

  /**
    The loop makes at most n attempts and at least one when n > 0; every
    attempt but the last failed; it stops before n only at an attempt that
    returned nil; and the loop's error is the last attempt's, or the error
    it started with when it made none.
  */
  lemma {:induction false} AttemptsStop(attempt: seq<Call> -> Run, h: seq<Call>, n: nat, err: seq<Err>)
    ensures var tried := AttemptErrors(attempt, h, n);
      && |tried| <= n
      && (n > 0 ==> |tried| > 0)
      && (forall i :: 0 <= i < |tried| - 1 ==> tried[i] != [])
      && (|tried| < n ==> tried[|tried| - 1] == [])
      && Attempts(attempt, h, n, err).errs == (if tried == [] then err else tried[|tried| - 1])
    decreases n
  {
    if n > 0 {
      var a := attempt(h);
      if a.errs != [] {
        var h' := h + a.calls + [Sleep];
        var more := AttemptErrors(attempt, h', n - 1);
        AttemptsStop(attempt, h', n - 1, a.errs);
        var tried := [a.errs] + more;
        forall i | 0 <= i < |tried| - 1 ensures tried[i] != [] {
          if i > 0 {
            assert tried[i] == more[i - 1];
          }
        }
      }
    }
  }

  /** The number of sleeps in a trace. */
  function Sleeps(calls: seq<Call>): nat
    decreases |calls|
  {
    if calls == [] then 0
    else Sleeps(calls[..|calls| - 1]) + (if calls[|calls| - 1] == Sleep then 1 else 0)
  }

  lemma {:induction false} SleepsAppend(a: seq<Call>, b: seq<Call>)
    ensures Sleeps(a + b) == Sleeps(a) + Sleeps(b)
    decreases |b|
  {
    if b == [] {
      assert a + b == a;
    } else {
      var n := |b| - 1;
      assert (a + b)[..|a + b| - 1] == a + b[..n];
      SleepsAppend(a, b[..n]);
    }
  }

  lemma {:induction false} NoSleepsInApiCalls(calls: seq<Call>)
    requires ApiOnly(calls)
    ensures Sleeps(calls) == 0
    decreases |calls|
  {
    if calls != [] {
      NoSleepsInApiCalls(calls[..|calls| - 1]);
    }
  }

  /** When no attempt sleeps itself, the loop sleeps exactly once after each failed attempt, the last one included. */
  lemma {:induction false} AttemptsSleeps(attempt: seq<Call> -> Run, h: seq<Call>, n: nat, err: seq<Err>)
    requires forall h' :: ApiOnly(attempt(h').calls)
    ensures var tried := AttemptErrors(attempt, h, n);
      Sleeps(Attempts(attempt, h, n, err).calls) == |tried| - (if tried != [] && tried[|tried| - 1] == [] then 1 else 0)
    decreases n
  {
    if n > 0 {
      var a := attempt(h);
      NoSleepsInApiCalls(a.calls);
      if a.errs != [] {
        var h' := h + a.calls + [Sleep];
        var rest := Attempts(attempt, h', n - 1, a.errs);
        var more := AttemptErrors(attempt, h', n - 1);
        var tried := AttemptErrors(attempt, h, n);
        assert tried == [a.errs] + more;
        assert Attempts(attempt, h, n, err).calls == a.calls + [Sleep] + rest.calls;
        AttemptsSleeps(attempt, h', n - 1, a.errs);
        SleepsAppend(a.calls, [Sleep]);
        SleepsAppend(a.calls + [Sleep], rest.calls);
        assert Sleeps([Sleep]) == 1 by {
          assert [Sleep][..0] == [];
        }
        if more != [] {
          assert tried[|tried| - 1] == more[|more| - 1];
        }
      }
    }
  }

  /** A pipeline run issues API calls only, none of them the cluster task's. */
  lemma PipelineCalls(cloud: Cloud, vpcId: string, clusterName: string)
    ensures forall h :: ApiOnly(Pipeline(cloud, vpcId, clusterName)(h).calls)
    ensures forall h, c :: c in Pipeline(cloud, vpcId, clusterName)(h).calls ==> c.Api? && c.step != ClusterTask
  {
    forall h ensures ApiOnly(Pipeline(cloud, vpcId, clusterName)(h).calls)
      && forall c :: c in Pipeline(cloud, vpcId, clusterName)(h).calls ==> c.Api? && c.step != ClusterTask
    {
      AwsOrder.TeardownOrdered(cloud, vpcId, clusterName, h);
    }
  }

  /** A loop whose attempts never call the cluster task makes no such call either. */
  lemma {:induction false} AttemptsNoClusterCall(attempt: seq<Call> -> Run, h: seq<Call>, n: nat, err: seq<Err>)
    requires forall h', c :: c in attempt(h').calls ==> c.Api? && c.step != ClusterTask
    ensures forall c :: c in Attempts(attempt, h, n, err).calls ==> c == Sleep || c.step != ClusterTask
    decreases n
  {
    if n > 0 {
      var a := attempt(h);
      if a.errs != [] {
        AttemptsNoClusterCall(attempt, h + a.calls + [Sleep], n - 1, a.errs);
      }
    }
  }

  /** The attempts a tries count allows: tries itself, or none when it is not positive. */
  function Budget(tries: int): nat
  {
    if tries < 0 then 0 else tries
  }

  /**
    The retry loop of a task: `for try := 1; try <= tries; try++`, each
    attempt a fresh run of the pipeline; a nil result breaks out, any other
    is followed by a sleep.
  */
  method RetryTeardown(cloud: Cloud, trace: seq<Call>, vpcId: string, clusterName: string, tries: int,
                       ghost pipelines: string -> seq<Call> -> Run)
    returns (trace': seq<Call>, err: seq<Err>)
    requires Runs(pipelines, cloud, clusterName)
    ensures trace' == trace + Attempts(pipelines(vpcId), trace, Budget(tries), []).calls
    ensures err == Attempts(pipelines(vpcId), trace, Budget(tries), []).errs
  {
    ghost var attempt := pipelines(vpcId);
    ghost var target := Attempts(attempt, trace, Budget(tries), []);
    trace', err := trace, [];
    var try := 1;
    while try <= tries
      invariant 1 <= try <= Budget(tries) + 1
      invariant Remaining(attempt, trace, target, trace', Budget(tries) - (try - 1), err)
      decreases tries - try
    {
      ghost var at, olderr := trace', err;
      trace', err := Attempt(cloud, trace', vpcId, clusterName, pipelines);
      RetryStep(attempt, trace, target, at, Budget(tries) - (try - 1), olderr, trace', err);
      if err == [] {
        break;
      }
      trace' := trace' + [Sleep];
      try := try + 1;
    }
    if try > tries {
      RetryDone(attempt, trace, target, trace', err);
    }
  }

  /** One attempt: deleteVpcAndEks, seen by the loop as a run of its attempt function. */
  method Attempt(cloud: Cloud, trace: seq<Call>, vpcId: string, clusterName: string, ghost pipelines: string -> seq<Call> -> Run)
    returns (trace': seq<Call>, err: seq<Err>)
    requires Runs(pipelines, cloud, clusterName)
    ensures trace' == trace + pipelines(vpcId)(trace).calls
    ensures err == pipelines(vpcId)(trace).errs
  {
    trace', err := AwsPipeline.DeleteVpcAndEks(cloud, trace, vpcId, clusterName);
  }

  /** Where the loop stands: from trace' with n attempts left and error err, it still makes the rest of `target`. */
  ghost predicate Remaining(attempt: seq<Call> -> Run, trace: seq<Call>, target: Run, trace': seq<Call>, n: nat, err: seq<Err>)
  {
    trace + target.calls == trace' + Attempts(attempt, trace', n, err).calls
      && target.errs == Attempts(attempt, trace', n, err).errs
  }

  /** One attempt of the loop from where it stands: it ends the loop when nil, otherwise the loop goes on after a sleep. */
  lemma RetryStep(attempt: seq<Call> -> Run, trace: seq<Call>, target: Run, at: seq<Call>, n: nat, err: seq<Err>,
                  after: seq<Call>, err': seq<Err>)
    requires n > 0 && after == at + attempt(at).calls && err' == attempt(at).errs
    requires Remaining(attempt, trace, target, at, n, err)
    ensures err' == [] ==> after == trace + target.calls && target.errs == []
    ensures err' != [] ==> Remaining(attempt, trace, target, after + [Sleep], n - 1, err')
  {
  }

  /** A loop with no attempt left has made all of `target`. */
  lemma RetryDone(attempt: seq<Call> -> Run, trace: seq<Call>, target: Run, at: seq<Call>, err: seq<Err>)
    requires Remaining(attempt, trace, target, at, 0, err)
    ensures trace + target.calls == at && target.errs == err
  {
    assert at + [] == at;
  }

  // ---------------------------------------------------------------------
  // One cluster's task
  // ---------------------------------------------------------------------

  /**
    What one cluster's task does from history h: look the cluster up; a
    cluster that is not found is done, any other lookup error is the task's
    error; otherwise the retry loop over the cluster's VPC, and the cluster
    delete when the loop ended without error. `pipelines` gives the attempt
    on each VPC.
  */
  function TaskRun(cloud: Cloud, h: seq<Call>, clusterName: string, tries: int, pipelines: string -> seq<Call> -> Run): Run
  {
    var describe := AwsEks.DescribeClusterCall(clusterName);
    match AwsEks.ListEks(cloud, h, clusterName)
    case Failure(e) => Run([describe], if e == EksNotFound then [] else [e])
    case Success(cluster) =>
      var loop := Attempts(pipelines(cluster.vpcId), h + [describe], Budget(tries), []);
      if loop.errs != [] then Run([describe] + loop.calls, loop.errs)
      else
        var delete := AwsEks.DeleteClusterCall(clusterName);
        Run([describe] + loop.calls + [delete], AsList(AwsEks.DeleteEks(cloud, h + [describe] + loop.calls, clusterName)))
  }

  /** One cluster's task, as the goroutine DeleteResources starts for it. */
  method DeleteCluster(cloud: Cloud, trace: seq<Call>, clusterName: string, tries: int, ghost pipelines: string -> seq<Call> -> Run)
    returns (trace': seq<Call>, err: seq<Err>)
    requires Runs(pipelines, cloud, clusterName)
    ensures trace' == trace + TaskRun(cloud, trace, clusterName, tries, pipelines).calls
    ensures err == TaskRun(cloud, trace, clusterName, tries, pipelines).errs
  {
    var describe := AwsEks.DescribeClusterCall(clusterName);
    var cluster := AwsEks.ListEks(cloud, trace, clusterName);
    trace' := trace + [describe];
    if cluster.Failure? {
      if cluster.error == EksNotFound {
        return trace', [];
      }
      return trace', [cluster.error];
    }
    var vpcId := cluster.value.vpcId;
    trace', err := RetryTeardown(cloud, trace', vpcId, clusterName, tries, pipelines);
    if err == [] {
      var e := AwsEks.DeleteEks(cloud, trace', clusterName);
      trace' := trace' + [AwsEks.DeleteClusterCall(clusterName)];
      err := AsList(e);
    }
  }

  /** A cluster the lookup does not find is success, with nothing but the lookup issued; any other lookup error is the task's, as it came. */
  lemma TaskLookupFails(cloud: Cloud, h: seq<Call>, clusterName: string, tries: int)
    requires cloud.cluster(h, clusterName).Failure?
    ensures var e := cloud.cluster(h, clusterName).error;
      TaskRun(cloud, h, clusterName, tries, Pipelines(cloud, clusterName)) == Run([AwsEks.DescribeClusterCall(clusterName)], if e == EksNotFound then [] else [e])
  {
  }

  /**
    A found cluster is deleted exactly when the retry loop ended without
    error, so always when tries <= 0, and then the delete's error is the
    task's; when the loop failed, the task's error is its last attempt's.
  */
  lemma TaskDeletesCluster(cloud: Cloud, h: seq<Call>, clusterName: string, tries: int)
    requires cloud.cluster(h, clusterName).Success?
    ensures var r := TaskRun(cloud, h, clusterName, tries, Pipelines(cloud, clusterName));
      var describe := AwsEks.DescribeClusterCall(clusterName);
      var attempt := Pipeline(cloud, cloud.cluster(h, clusterName).value.vpcId, clusterName);
      var loop := Attempts(attempt, h + [describe], Budget(tries), []);
      var tried := AttemptErrors(attempt, h + [describe], Budget(tries));
      && (AwsEks.DeleteClusterCall(clusterName) in r.calls <==> loop.errs == [])
      && (loop.errs == [] <==> tried == [] || tried[|tried| - 1] == [])
      && (tries <= 0 ==> r.calls == [describe, AwsEks.DeleteClusterCall(clusterName)])
      && (loop.errs != [] ==> r.errs == tried[|tried| - 1])
      && (loop.errs == [] ==> r.errs == AsList(AwsEks.DeleteEks(cloud, h + [describe] + loop.calls, clusterName)))
  {
    var describe := AwsEks.DescribeClusterCall(clusterName);
    var attempt := Pipeline(cloud, cloud.cluster(h, clusterName).value.vpcId, clusterName);
    PipelineCalls(cloud, cloud.cluster(h, clusterName).value.vpcId, clusterName);
    AttemptsNoClusterCall(attempt, h + [describe], Budget(tries), []);
    AttemptsStop(attempt, h + [describe], Budget(tries), []);
  }

  // ---------------------------------------------------------------------
  // Every cluster of every account
  // ---------------------------------------------------------------------

  /** The task of one placed cluster, run through the clients cached for its account and region. */
  function TaskItem(clients: map<string, AwsClients.ClientSet>, through: AwsClients.ClientSet -> Cloud, tries: int)
    : (seq<Call>, Placed) -> Run
  {
    (h: seq<Call>, p: Placed) =>
      var key := AwsClients.KeyOf(p);
      if key in clients then TaskRun(through(clients[key]), h, p.resource.name, tries, Pipelines(through(clients[key]), p.resource.name)) else NoRun
  }

  /** Every placed cluster has clients cached, as InitClientsMap leaves the cache when it succeeds. */
  predicate Ready(clients: map<string, AwsClients.ClientSet>, accounts: seq<Account>)
  {
    forall p :: p in Placements(accounts) ==> AwsClients.KeyOf(p) in clients
  }

  /** Account i's row sits right after the rows before it, and its keys are cached. */
  lemma RowReady(clients: map<string, AwsClients.ClientSet>, accounts: seq<Account>, i: nat)
    requires Ready(clients, accounts) && i < |accounts|
    ensures Placements(accounts[..i + 1]) == Placements(accounts[..i]) + Row(accounts[i])
    ensures forall j :: 0 <= j < |accounts[i].resources| ==>
      AwsClients.ClientKey(accounts[i].name, accounts[i].resources[j].location) in clients
  {
    PlacementsSnoc(accounts, i);
    var front := Placements(accounts[..i]);
    var xs := Placements(accounts[..i + 1]);
    PlacementsConcat(accounts[..i + 1], accounts[i + 1..]);
    assert accounts[..i + 1] + accounts[i + 1..] == accounts;
    var all := Placements(accounts);
    assert all[..|xs|] == xs;
    forall j | 0 <= j < |accounts[i].resources|
      ensures AwsClients.ClientKey(accounts[i].name, accounts[i].resources[j].location) in clients
    {
      var p := Row(accounts[i])[j];
      assert p == xs[|front| + j] == all[|front| + j];
      assert AwsClients.KeyOf(p) in clients;
    }
  }

  /** The item of a placed cluster whose clients are cached is that cluster's task through those clients. */
  lemma ItemIsTask(clients: map<string, AwsClients.ClientSet>, through: AwsClients.ClientSet -> Cloud, tries: int,
                   h: seq<Call>, p: Placed)
    requires AwsClients.KeyOf(p) in clients
    ensures var cloud := through(clients[AwsClients.KeyOf(p)]);
      TaskItem(clients, through, tries)(h, p) == TaskRun(cloud, h, p.resource.name, tries, Pipelines(cloud, p.resource.name))
  {
  }

  /** Growing a per-item run by the next element of a row appended to the items already run. */
  lemma EachGrow<T>(h: seq<Call>, done: seq<T>, row: seq<T>, j: nat, item: (seq<Call>, T) -> Run,
                    trace: seq<Call>, errs: seq<Err>, trace': seq<Call>, errs': seq<Err>)
    requires j < |row|
    requires trace == h + Each(h, done + row[..j], item).calls && errs == Each(h, done + row[..j], item).errs
    requires trace' == trace + item(trace, row[j]).calls && errs' == errs + item(trace, row[j]).errs
    ensures trace' == h + Each(h, done + row[..j + 1], item).calls && errs' == Each(h, done + row[..j + 1], item).errs
  {
    var xs := done + row;
    assert xs[..|done| + j] == done + row[..j];
    assert xs[..|done| + j + 1] == done + row[..j + 1];
    EachStep(h, xs, |done| + j, item, trace, errs, trace', errs');
  }

  /**
    DeleteResources: one task per resource of every account, each with the
    clients cached for its account and region; the run's error gathers every
    task's error, and no task's failure stops another.
  */
  method DeleteResources(clients: map<string, AwsClients.ClientSet>, through: AwsClients.ClientSet -> Cloud,
                         trace: seq<Call>, accounts: seq<Account>, tries: int)
    returns (trace': seq<Call>, errs: seq<Err>)
    requires Ready(clients, accounts)
    ensures trace' == trace + Each(trace, Placements(accounts), TaskItem(clients, through, tries)).calls
    ensures errs == Each(trace, Placements(accounts), TaskItem(clients, through, tries)).errs
  {
    trace', errs := trace, [];
    for i := 0 to |accounts|
      invariant trace' == trace + Each(trace, Placements(accounts[..i]), TaskItem(clients, through, tries)).calls
      invariant errs == Each(trace, Placements(accounts[..i]), TaskItem(clients, through, tries)).errs
    {
      RowReady(clients, accounts, i);
      trace', errs := DeleteAccount(clients, through, trace, Placements(accounts[..i]), trace', errs, accounts[i], tries);
    }
    assert accounts[..|accounts|] == accounts;
  }

  /** The inner loop of DeleteResources: one task per resource of one account, after the tasks already started. */
  method DeleteAccount(clients: map<string, AwsClients.ClientSet>, through: AwsClients.ClientSet -> Cloud,
                       ghost h: seq<Call>, ghost done: seq<Placed>,
                       trace: seq<Call>, errs: seq<Err>, account: Account, tries: int)
    returns (trace': seq<Call>, errs': seq<Err>)
    requires forall j :: 0 <= j < |account.resources| ==> AwsClients.ClientKey(account.name, account.resources[j].location) in clients
    requires trace == h + Each(h, done, TaskItem(clients, through, tries)).calls
    requires errs == Each(h, done, TaskItem(clients, through, tries)).errs
    ensures trace' == h + Each(h, done + Row(account), TaskItem(clients, through, tries)).calls
    ensures errs' == Each(h, done + Row(account), TaskItem(clients, through, tries)).errs
  {
    ghost var item := TaskItem(clients, through, tries);
    ghost var row := Row(account);
    assert done + row[..0] == done;
    trace', errs' := trace, errs;
    for j := 0 to |account.resources|
      invariant trace' == h + Each(h, done + row[..j], item).calls
      invariant errs' == Each(h, done + row[..j], item).errs
    {
      var resource := account.resources[j];
      var key := AwsClients.ClientKey(account.name, resource.location);
      var cls := clients[key];
      PipelinesRun(through(cls), resource.name);
      var next, taskErrs := DeleteCluster(through(cls), trace', resource.name, tries, Pipelines(through(cls), resource.name));
      ItemIsTask(clients, through, tries, trace', row[j]);
      EachGrow(h, done, row, j, item, trace', errs', next, errs' + taskErrs);
      trace', errs' := next, errs' + taskErrs;
    }
    assert row[..|account.resources|] == row;
  }

  /** Every error of a per-item run is the error of some item, run where the items before it left the trace. */
  lemma {:induction false} RunErrorSource<T>(h: seq<Call>, xs: seq<T>, item: (seq<Call>, T) -> Run, e: Err)
    requires e in Each(h, xs, item).errs
    ensures exists i :: 0 <= i < |xs| && e in item(h + Each(h, xs[..i], item).calls, xs[i]).errs
    decreases |xs|
  {
    var n := |xs| - 1;
    var front := xs[..n];
    var r := Each(h, front, item);
    if e in r.errs {
      RunErrorSource(h, front, item, e);
      var i :| 0 <= i < |front| && e in item(h + Each(h, front[..i], item).calls, front[i]).errs;
      assert front[..i] == xs[..i];
    } else {
      assert e in item(h + Each(h, xs[..n], item).calls, xs[n]).errs;
    }
  }

  /** Every error of every item is kept in the run's error: no item's failure hides another's. */
  lemma {:induction false} RunErrorKept<T>(h: seq<Call>, xs: seq<T>, item: (seq<Call>, T) -> Run, i: nat, e: Err)
    requires i < |xs| && e in item(h + Each(h, xs[..i], item).calls, xs[i]).errs
    ensures e in Each(h, xs, item).errs
    decreases |xs|
  {
    var n := |xs| - 1;
    var front := xs[..n];
    if i < n {
      assert front[..i] == xs[..i];
      RunErrorKept(h, front, item, i, e);
    }
  }
}
