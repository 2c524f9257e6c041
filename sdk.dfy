/**
  The cloud SDK records the teardown drivers read, reduced to the fields the
  drivers look at. A pointer field that may be nil is an Option; a field the
  code dereferences without a nil check is a plain value.
*/
module Sdk {
  import opened Wrappers

  /** A describe-call filter: a filter name and the values it matches. */
  datatype Filter = Filter(name: string, values: seq<string>)

  // Compute service (EC2)

  datatype VpcInfo = VpcInfo(vpcId: Option<string>)

  datatype VpcPeeringConnection = VpcPeeringConnection(
    vpcPeeringConnectionId: Option<string>,
    accepterVpcInfo: Option<VpcInfo>,
    requesterVpcInfo: Option<VpcInfo>)

  datatype InstanceStateName = Pending | Running | ShuttingDown | Terminated | Stopping | Stopped

  datatype InstanceState = InstanceState(name: InstanceStateName)

  datatype Instance = Instance(instanceId: Option<string>, state: Option<InstanceState>)

  datatype Reservation = Reservation(instances: seq<Instance>)

  /** One entry of the TerminateInstances answer. */
  datatype InstanceStateChange = InstanceStateChange(instanceId: Option<string>, currentState: Option<InstanceState>)

  datatype AttachmentStatus = Attaching | Attached | Detaching | Detached

  /** A gateway's attachment to a VPC (internet gateways and VPN gateways share this shape). */
  datatype Attachment = Attachment(state: AttachmentStatus, vpcId: Option<string>)

  datatype InternetGateway = InternetGateway(internetGatewayId: Option<string>, attachments: seq<Attachment>)

  datatype VpnGateway = VpnGateway(vpnGatewayId: Option<string>, vpcAttachments: seq<Attachment>)

  datatype NetworkInterfaceAttachment = NetworkInterfaceAttachment(attachmentId: Option<string>)

  datatype NetworkInterface = NetworkInterface(
    networkInterfaceId: Option<string>,
    attachment: Option<NetworkInterfaceAttachment>)

  datatype Subnet = Subnet(subnetId: Option<string>, vpcId: Option<string>)

  datatype RouteTable = RouteTable(routeTableId: Option<string>, vpcId: Option<string>)

  datatype NetworkAcl = NetworkAcl(networkAclId: Option<string>, vpcId: Option<string>, isDefault: Option<bool>)

  datatype NatGateway = NatGateway(natGatewayId: Option<string>, vpcId: Option<string>)

  datatype Address = Address(allocationId: Option<string>)

  datatype SecurityGroup = SecurityGroup(groupId: Option<string>, groupName: Option<string>, vpcId: Option<string>)

  datatype SecurityGroupRule = SecurityGroupRule(
    securityGroupRuleId: Option<string>,
    groupId: Option<string>,
    isEgress: Option<bool>)

  // Load balancing (classic and v2)

  datatype LoadBalancerDescription = LoadBalancerDescription(loadBalancerName: Option<string>, vpcId: Option<string>)

  datatype LoadBalancer = LoadBalancer(loadBalancerArn: Option<string>, vpcId: Option<string>)

  // Auto scaling

  datatype AutoScalingInstance = AutoScalingInstance(instanceId: Option<string>)

  /** The ARN is dereferenced unchecked by the listing, so it is always present here. */
  datatype AutoScalingGroup = AutoScalingGroup(
    autoScalingGroupName: Option<string>,
    autoScalingGroupArn: string,
    desiredCapacity: Option<int>,
    maxSize: Option<int>,
    minSize: Option<int>,
    instances: seq<AutoScalingInstance>)

  // Managed clusters (EKS)

  /** The VPC id is dereferenced unchecked by the cluster task, so it is always present here. */
  datatype Cluster = Cluster(vpcId: string)
}
