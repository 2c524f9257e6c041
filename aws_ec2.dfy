/**
  The instance driver of the teardown (pkg/aws/ec2.go): terminate every
  instance of the VPC that is not terminated yet, in one batch, and wait for
  the ones still terminating; list the VPC's reservations; and map decoded
  instances to report resources, owner tag included.
*/
module AwsEc2 {
  import opened Wrappers
  import opened Sdk
  import opened Cloud
  import opened Dto
  import AwsVpc
  import AwsReport

  // ---------------------------------------------------------------------
  // Terminating instances
  // ---------------------------------------------------------------------

  /** A state that is known and is `terminated`. */
  predicate IsTerminated(state: Option<InstanceState>)
  {
    state.Some? && state.value.name == Terminated
  }

  /** The ids of the instances that have one and are not known to be terminated, in order. */
  function LiveIds(instances: seq<Instance>): seq<string>
    decreases |instances|
  {
    if instances == [] then []
    else
      var n := |instances| - 1;
      var x := instances[n];
      LiveIds(instances[..n]) + (if x.instanceId.Some? && !IsTerminated(x.state) then [x.instanceId.value] else [])
  }

  /** The terminate candidates: the live instance ids of every reservation, reservation by reservation. */
  function Candidates(reservations: seq<Reservation>): seq<string>
    decreases |reservations|
  {
    if reservations == [] then []
    else
      var n := |reservations| - 1;
      Candidates(reservations[..n]) + LiveIds(reservations[n].instances)
  }

  /** The ids of the terminate answer's instances that have one and are not reported terminated, in order. */
  function StillTerminating(changes: seq<InstanceStateChange>): seq<string>
    decreases |changes|
  {
    if changes == [] then []
    else
      var n := |changes| - 1;
      var c := changes[n];
      StillTerminating(changes[..n]) + (if c.instanceId.Some? && !IsTerminated(c.currentState) then [c.instanceId.value] else [])
  }

  /**
    What terminateInstancesInReservations does from history h: nothing when
    there is no candidate; otherwise one terminate of all candidates, whose
    failure is the result; then, when the answer still lists terminating
    instances, one wait over exactly those, whose error is the result.
  */
  function TerminateRun(cloud: Cloud, h: seq<Call>, reservations: seq<Reservation>): Run
  {
    var ids := Candidates(reservations);
    if |ids| == 0 then NoRun
    else
      var terminate := Api(Instances, Terminate(ids));
      match cloud.terminate(h, ids)
      case Failure(e) => Run([terminate], [e])
      case Success(changes) =>
        var waiting := StillTerminating(changes);
        if |waiting| == 0 then Run([terminate], [])
        else
          var wait := Api(Instances, Wait(waiting));
          Run([terminate, wait], AsList(cloud.answer(h + [terminate], wait)))
  }

  /** The live ids of one reservation's instances, appended to those found so far. */
  method AppendLiveIds(ids: seq<string>, instances: seq<Instance>) returns (ids': seq<string>)
    ensures ids' == ids + LiveIds(instances)
  {
    ids' := ids;
    for j := 0 to |instances|
      invariant ids' == ids + LiveIds(instances[..j])
    {
      assert instances[..j + 1][..j] == instances[..j];
      var x := instances[j];
      if x.instanceId.None? {
        continue;
      }
      if x.state.Some? && x.state.value.name == Terminated {
        continue;
      }
      ids' := ids' + [x.instanceId.value];
    }
    assert instances[..|instances|] == instances;
  }

  /** The first loop of terminateInstancesInReservations: every live instance id, reservation by reservation. */
  method NonTerminatedInstanceIds(reservations: seq<Reservation>) returns (ids: seq<string>)
    ensures ids == Candidates(reservations)
  {
    ids := [];
    for i := 0 to |reservations|
      invariant ids == Candidates(reservations[..i])
    {
      assert reservations[..i + 1][..i] == reservations[..i];
      ids := AppendLiveIds(ids, reservations[i].instances);
    }
    assert reservations[..|reservations|] == reservations;
  }

  /** The second loop of terminateInstancesInReservations: the ids of the instances still terminating. */
  method TerminatingInstanceIds(changes: seq<InstanceStateChange>) returns (ids: seq<string>)
    ensures ids == StillTerminating(changes)
  {
    ids := [];
    for i := 0 to |changes|
      invariant ids == StillTerminating(changes[..i])
    {
      assert changes[..i + 1][..i] == changes[..i];
      var c := changes[i];
      if c.instanceId.None? {
        continue;
      }
      if c.currentState.Some? && c.currentState.value.name == Terminated {
        continue;
      }
      ids := ids + [c.instanceId.value];
    }
    assert changes[..|changes|] == changes;
  }

  /** terminateInstancesInReservations: terminate the live instances in one batch, then wait for the ones still terminating. */
  method TerminateInstancesInReservations(cloud: Cloud, trace: seq<Call>, reservations: seq<Reservation>)
    returns (trace': seq<Call>, err: Option<Err>)
    ensures trace' == trace + TerminateRun(cloud, trace, reservations).calls
    ensures AsList(err) == TerminateRun(cloud, trace, reservations).errs
  {
    var ids := NonTerminatedInstanceIds(reservations);
    if |ids| == 0 {
      return trace + [], None;
    }
    var terminate := Api(Instances, Terminate(ids));
    var output := cloud.terminate(trace, ids);
    trace' := trace + [terminate];
    if output.Failure? {
      return trace', Some(output.error);
    }
    var waiting := TerminatingInstanceIds(output.value);
    if |waiting| == 0 {
      return trace', None;
    }
    var wait := Api(Instances, Wait(waiting));
    err := cloud.answer(trace', wait);
    trace' := trace' + [wait];
    assert [terminate] + [wait] == [terminate, wait];
  }

  /** An instance id is a terminate candidate exactly when some reservation holds an instance with that id not known to be terminated. */
  lemma {:induction false} CandidatesMeaning(reservations: seq<Reservation>, id: string)
    ensures id in Candidates(reservations) <==>
      exists r, x :: r in reservations && x in r.instances && x.instanceId == Some(id) && !IsTerminated(x.state)
    decreases |reservations|
  {
    if reservations != [] {
      var n := |reservations| - 1;
      CandidatesMeaning(reservations[..n], id);
      LiveIdsMeaning(reservations[n].instances, id);
      assert reservations == reservations[..n] + [reservations[n]];
      if id in Candidates(reservations[..n]) {
        var r, x :| r in reservations[..n] && x in r.instances && x.instanceId == Some(id) && !IsTerminated(x.state);
        assert r in reservations;
      }
      if exists r, x :: r in reservations && x in r.instances && x.instanceId == Some(id) && !IsTerminated(x.state) {
        var r, x :| r in reservations && x in r.instances && x.instanceId == Some(id) && !IsTerminated(x.state);
        assert r in reservations[..n] || r == reservations[n];
      }
    }
  }

  lemma {:induction false} LiveIdsMeaning(instances: seq<Instance>, id: string)
    ensures id in LiveIds(instances) <==> exists x :: x in instances && x.instanceId == Some(id) && !IsTerminated(x.state)
    decreases |instances|
  {
    if instances != [] {
      var n := |instances| - 1;
      LiveIdsMeaning(instances[..n], id);
      assert instances == instances[..n] + [instances[n]];
      if id in LiveIds(instances[..n]) {
        var x :| x in instances[..n] && x.instanceId == Some(id) && !IsTerminated(x.state);
        assert x in instances;
      }
      if exists x :: x in instances && x.instanceId == Some(id) && !IsTerminated(x.state) {
        var x :| x in instances && x.instanceId == Some(id) && !IsTerminated(x.state);
        assert x in instances[..n] || x == instances[n];
      }
    }
  }

  /**
    The terminate protocol: no call at all without a candidate; otherwise the
    first call terminates exactly the candidates; a failed terminate is the
    result and nothing follows it; a wait follows exactly when the terminate
    succeeded and still reports instances terminating, and its error is then
    the result; with nothing left terminating the result is nil.
  */
  lemma TerminateProtocol(cloud: Cloud, h: seq<Call>, reservations: seq<Reservation>)
    ensures
      var ids := Candidates(reservations);
      var r := TerminateRun(cloud, h, reservations);
      var answer := cloud.terminate(h, ids);
      && (r.calls == [] <==> |ids| == 0)
      && (|ids| > 0 ==> r.calls[0] == Api(Instances, Terminate(ids)))
      && (|ids| > 0 && answer.Failure? ==> r == Run([Api(Instances, Terminate(ids))], [answer.error]))
      && (|r.calls| == 2 <==> |ids| > 0 && answer.Success? && |StillTerminating(answer.value)| > 0)
      && (|r.calls| == 2 ==>
            r.calls[1] == Api(Instances, Wait(StillTerminating(answer.value))) &&
            r.errs == AsList(cloud.answer(h + [r.calls[0]], r.calls[1])))
      && (|ids| > 0 && answer.Success? && |StillTerminating(answer.value)| == 0 ==> r.errs == [])
      && |r.errs| <= 1
  {
  }

  /** The filter listReservations describes with. */
  function ReservationFilter(vpcId: string): seq<Filter>
  {
    AwsVpc.Ec2VpcFilter(vpcId)
  }

  /** listReservations: the reservations of every page, following the token, or the first describe error. */
  method ListReservations(cloud: Cloud, trace: seq<Call>, vpcId: string)
    returns (trace': seq<Call>, r: Result<seq<Reservation>, Err>)
    ensures trace' == trace + Listed(Instances, ReservationFilter(vpcId), cloud.reservations(trace, ReservationFilter(vpcId)), All).calls
    ensures r == Listed(Instances, ReservationFilter(vpcId), cloud.reservations(trace, ReservationFilter(vpcId)), All).result
  {
    trace', r := Paginate(cloud, trace, cloud.reservations(trace, ReservationFilter(vpcId)), Instances, ReservationFilter(vpcId), All);
  }

  /** A reservation listing returns every reservation served, page after page, or the error of the describe call that failed. */
  lemma ReservationListing(pages: Pages<Reservation>)
    ensures Fails(pages) ==> Collected(pages, All) == Failure(FinalError(pages))
    ensures !Fails(pages) ==> Collected(pages, All) == Success(Items(pages))
  {
    CollectedMeaning(pages, All);
    SelectAll(Items(pages));
  }

  // ---------------------------------------------------------------------
  // Report resources
  // ---------------------------------------------------------------------

  /** The value of the first tag keyed exactly "owner", or "" when there is none. */
  function OwnerTag(tags: seq<KeyValue>): string
    decreases |tags|
  {
    if tags == [] then ""
    else if tags[0].key == "owner" then tags[0].value
    else OwnerTag(tags[1..])
  }

  /** The owner tag is the first tag keyed "owner", and "" when no tag is. */
  lemma {:induction false} OwnerTagMeaning(tags: seq<KeyValue>)
    ensures (forall i :: 0 <= i < |tags| ==> tags[i].key != "owner") ==> OwnerTag(tags) == ""
    ensures forall i :: 0 <= i < |tags| && tags[i].key == "owner" && (forall j :: 0 <= j < i ==> tags[j].key != "owner") ==>
      OwnerTag(tags) == tags[i].value
    decreases |tags|
  {
    if tags != [] {
      OwnerTagMeaning(tags[1..]);
      assert forall i :: 1 <= i < |tags| ==> tags[1..][i - 1] == tags[i];
    }
  }

  /** The tag loop of ParseEC2: stop at the first tag keyed "owner" and take its value. */
  method FindOwner(tags: seq<KeyValue>) returns (owner: string)
    ensures owner == OwnerTag(tags)
  {
    owner := "";
    var i := 0;
    while i < |tags|
      invariant 0 <= i <= |tags|
      invariant OwnerTag(tags) == OwnerTag(tags[i..])
    {
      assert tags[i..][1..] == tags[i + 1..];
      if tags[i].key == "owner" {
        owner := tags[i].value;
        break;
      }
      i := i + 1;
    }
  }

  /** The report resource of one instance: its "<id> [<type>]" name, the region, its owner tag, its launch time. */
  function Ec2Resource(region: string, vm: AwsReport.Ec2Vm): Resource
  {
    Resource(AwsReport.Ec2Name(vm.instanceId, vm.instanceType), region, OwnerTag(vm.tags), vm.launchTime)
  }

  /** ParseEC2: one resource per instance, in order; a decode error is returned as it came. */
  method ParseEC2(region: string, content: Decoded<AwsReport.Ec2Vm>) returns (r: Decoded<Resource>)
    ensures content.Failure? ==> r == Failure(content.error)
    ensures content.Success? ==> r.Success? && |r.value| == |content.value|
    ensures content.Success? ==> forall i :: 0 <= i < |content.value| ==> r.value[i] == Ec2Resource(region, content.value[i])
  {
    if content.Failure? {
      return Failure(content.error);
    }
    var vms := content.value;
    var result: seq<Resource> := [];
    for i := 0 to |vms|
      invariant |result| == i
      invariant forall k :: 0 <= k < i ==> result[k] == Ec2Resource(region, vms[k])
    {
      var owner := FindOwner(vms[i].tags);
      result := result + [Resource(AwsReport.Ec2Name(vms[i].instanceId, vms[i].instanceType), region, owner, vms[i].launchTime)];
    }
    r := Success(result);
  }

  /** ParseEC2 and the report mapper EC2 agree on every field but the owner, which only ParseEC2 fills in. */
  lemma ParseEC2AgreesWithEc2(region: string, vms: seq<AwsReport.Ec2Vm>)
    ensures var mapped := AwsReport.Ec2(region, Success(vms)).value;
      forall i :: 0 <= i < |vms| ==> Ec2Resource(region, vms[i]) == mapped[i].(owner := OwnerTag(vms[i].tags))
  {
  }
}
