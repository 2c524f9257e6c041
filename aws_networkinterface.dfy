/** The network interface driver of the teardown (pkg/aws/networkinterface.go): detach, then delete. */
module AwsNetworkInterface {
  import opened Wrappers
  import opened Sdk
  import opened Cloud
  import AwsVpc

  /** The interface has an attachment with an id, so it gets a detach first. */
  predicate Attached(n: NetworkInterface)
  {
    n.attachment.Some? && n.attachment.value.attachmentId.Some?
  }

  /**
    What one interface gets, starting from history h: nothing without an id;
    a detach when it is attached, a failed detach being recorded and ending
    there; then the delete, right after the detach with no wait in between.
  */
  function InterfaceRun(cloud: Cloud, h: seq<Call>, n: NetworkInterface): Run
  {
    if n.networkInterfaceId.None? then NoRun
    else
      var delete := Api(NetworkInterfaces, Delete(n.networkInterfaceId.value));
      if Attached(n) then
        var detach := Api(NetworkInterfaces, DetachInterface(n.attachment.value.attachmentId.value));
        var e := cloud.answer(h, detach);
        if e.Some? then Run([detach], [e.value])
        else Run([detach, delete], AsList(cloud.answer(h + [detach], delete)))
      else Run([delete], AsList(cloud.answer(h, delete)))
  }

  function InterfaceItem(cloud: Cloud): (seq<Call>, NetworkInterface) -> Run
  {
    (h: seq<Call>, n: NetworkInterface) => InterfaceRun(cloud, h, n)
  }

  /** One pass of deleteNetworkInterfaces' loop: detach the interface when attached, then delete it. */
  method DeleteNetworkInterface(cloud: Cloud, trace: seq<Call>, n: NetworkInterface)
    returns (trace': seq<Call>, errs: seq<Err>)
    ensures trace' == trace + InterfaceRun(cloud, trace, n).calls
    ensures errs == InterfaceRun(cloud, trace, n).errs
  {
    if n.networkInterfaceId.None? {
      assert trace + [] == trace;
      return trace, [];
    }
    trace', errs := trace, [];
    if n.attachment.Some? && n.attachment.value.attachmentId.Some? {
      var detach := Api(NetworkInterfaces, DetachInterface(n.attachment.value.attachmentId.value));
      var err := cloud.answer(trace', detach);
      trace', errs := trace' + [detach], AsList(err);
      if err.Some? {
        return;
      }
    }
    var delete := Api(NetworkInterfaces, Delete(n.networkInterfaceId.value));
    var err := cloud.answer(trace', delete);
    assert trace' + [delete] == trace + InterfaceRun(cloud, trace, n).calls;
    trace', errs := trace' + [delete], errs + AsList(err);
  }

  /** deleteNetworkInterfaces: every interface in turn, one interface's failure never stopping the next. */
  method DeleteNetworkInterfaces(cloud: Cloud, trace: seq<Call>, interfaces: seq<NetworkInterface>)
    returns (trace': seq<Call>, errs: seq<Err>)
    ensures trace' == trace + Each(trace, interfaces, InterfaceItem(cloud)).calls
    ensures errs == Each(trace, interfaces, InterfaceItem(cloud)).errs
  {
    trace', errs := trace, [];
    for i := 0 to |interfaces|
      invariant trace' == trace + Each(trace, interfaces[..i], InterfaceItem(cloud)).calls
      invariant errs == Each(trace, interfaces[..i], InterfaceItem(cloud)).errs
    {
      assert InterfaceItem(cloud)(trace', interfaces[i]) == InterfaceRun(cloud, trace', interfaces[i]);
      var next, interfaceErrs := DeleteNetworkInterface(cloud, trace', interfaces[i]);
      EachStep(trace, interfaces, i, InterfaceItem(cloud), trace', errs, next, errs + interfaceErrs);
      trace', errs := next, errs + interfaceErrs;
    }
    assert interfaces[..|interfaces|] == interfaces;
  }

  /**
    An interface with an id is detached exactly when it is attached, and
    deleted exactly when it is not attached or its detach is answered nil; a
    detach failure is the one error it records.
  */
  lemma InterfaceProtocol(cloud: Cloud, h: seq<Call>, n: NetworkInterface)
    requires n.networkInterfaceId.Some?
    ensures
      var r := InterfaceRun(cloud, h, n);
      var delete := Api(NetworkInterfaces, Delete(n.networkInterfaceId.value));
      && ((exists c :: c in r.calls && c.op.DetachInterface?) <==> Attached(n))
      && (delete in r.calls <==>
            !Attached(n) || cloud.answer(h, Api(NetworkInterfaces, DetachInterface(n.attachment.value.attachmentId.value))).None?)
      && (delete in r.calls ==> r.calls[|r.calls| - 1] == delete && |r.calls| <= 2)
      && (delete !in r.calls ==> |r.errs| == 1)
  {
    var r := InterfaceRun(cloud, h, n);
    if Attached(n) {
      assert r.calls[0] in r.calls;
    } else {
      assert r.calls[0] in r.calls;
    }
  }

  /** listNetworkInterfaces: every interface of the VPC, page after page, or the first describe error. */
  method ListNetworkInterfaces(cloud: Cloud, trace: seq<Call>, vpcId: string)
    returns (trace': seq<Call>, r: Result<seq<NetworkInterface>, Err>)
    ensures trace' == trace + Listed(NetworkInterfaces, AwsVpc.Ec2VpcFilter(vpcId), cloud.networkInterfaces(trace, AwsVpc.Ec2VpcFilter(vpcId)), All).calls
    ensures r == Listed(NetworkInterfaces, AwsVpc.Ec2VpcFilter(vpcId), cloud.networkInterfaces(trace, AwsVpc.Ec2VpcFilter(vpcId)), All).result
  {
    var filters := AwsVpc.Ec2VpcFilter(vpcId);
    trace', r := Paginate(cloud, trace, cloud.networkInterfaces(trace, filters), NetworkInterfaces, filters, All);
  }
}
