/**
  Turning decoded custodian output into report resources for the compute
  service's instances and the managed cluster service's clusters
  (pkg/aws/aws.go). The decoding itself is outside the model: each mapper
  takes the decoded records, or the decoder's error.
*/
module AwsReport {
  import opened Wrappers
  import opened Dto

  /** A managed cluster as the custodian output lists it. */
  datatype EksCluster = EksCluster(name: string, createdAt: Time)

  /** An instance as the custodian output lists it. */
  datatype Ec2Vm = Ec2Vm(instanceId: string, launchTime: Time, instanceType: string, tags: seq<KeyValue>)

  /** An instance's report name, "<id> [<type>]": the id, a space, the type in square brackets. */
  function Ec2Name(instanceId: string, instanceType: string): (name: string)
    ensures |name| == |instanceId| + |instanceType| + 3
    ensures name[..|instanceId|] == instanceId
    ensures name[|instanceId|..|instanceId| + 2] == " ["
    ensures name[|instanceId| + 2..|name| - 1] == instanceType
    ensures name[|name| - 1] == ']'
  {
    instanceId + " [" + instanceType + "]"
  }

  /** Two instances share a report name only when they share id and type, provided ids hold no space. */
  lemma Ec2NameInjective(id1: string, type1: string, id2: string, type2: string)
    requires ' ' !in id1 && ' ' !in id2
    requires Ec2Name(id1, type1) == Ec2Name(id2, type2)
    ensures id1 == id2 && type1 == type2
  {
    var n := Ec2Name(id1, type1);
    var m := if |id1| <= |id2| then |id1| else |id2|;
    assert n[m] == ' ';
    assert forall k :: 0 <= k < |id1| ==> n[k] == id1[k] && id1[k] in id1;
    assert forall k :: 0 <= k < |id2| ==> n[k] == id2[k] && id2[k] in id2;
    assert id1 == n[..|id1|] == id2;
  }

  /** EKS: one resource per cluster, in order, named as the cluster, located in the region, created when it was. */
  function Eks(region: string, content: Decoded<EksCluster>): (r: Decoded<Resource>)
    ensures content.Failure? ==> r == Failure(content.error)
    ensures content.Success? ==> r.Success? && |r.value| == |content.value|
    ensures content.Success? ==> forall i :: 0 <= i < |content.value| ==>
      r.value[i] == Resource(content.value[i].name, region, "", content.value[i].createdAt)
  {
    match content
    case Failure(e) => Failure(e)
    case Success(clusters) =>
      Success(seq(|clusters|, i requires 0 <= i < |clusters| => Resource(clusters[i].name, region, "", clusters[i].createdAt)))
  }

  /**
    EC2: one resource per instance, in order, named "<id> [<type>]", located
    in the region, created at launch, with no owner whatever the tags say.
  */
  function Ec2(region: string, content: Decoded<Ec2Vm>): (r: Decoded<Resource>)
    ensures content.Failure? ==> r == Failure(content.error)
    ensures content.Success? ==> r.Success? && |r.value| == |content.value|
    ensures content.Success? ==> forall i :: 0 <= i < |content.value| ==>
      r.value[i] == Resource(Ec2Name(content.value[i].instanceId, content.value[i].instanceType), region, "", content.value[i].launchTime)
  {
    match content
    case Failure(e) => Failure(e)
    case Success(vms) =>
      Success(seq(|vms|, i requires 0 <= i < |vms| => Resource(Ec2Name(vms[i].instanceId, vms[i].instanceType), region, "", vms[i].launchTime)))
  }
}
