# cloud-custodian-helper: the EKS/VPC teardown and the report pipeline, in Dafny

This project models the core of cloud-custodian-helper, a tool that turns
cloud-custodian policy output into a report. The report is then used to
notify resource owners on Slack and to tear down the EKS clusters it lists.

**The teardown (`pkg/aws`).** `DeleteResources` starts one task per cluster
of every account. A task does four things:

- It looks the cluster up. A cluster that is not found counts as done.
- It runs `deleteVpcAndEks` up to `tries` times over the cluster's VPC, sleeping after every failed attempt.
- It deletes the cluster once an attempt returns no error.
- The run's error gathers every task's error.

`deleteVpcAndEks` walks sixteen resource kinds in a fixed order: VPC
peerings, classic load balancers, auto scaling groups, instances, network
ACLs, elastic IPs, NAT gateways, internet gateways, network interfaces,
subnets, security groups, VPN gateways, route tables, node groups, the VPC,
and the CloudFormation stack. Each kind is listed, then acted on. A listing
failure ends the attempt with that error alone. An act failure is recorded
and the next kind runs.

Each kind has its own protocol:

- auto scaling groups are resized to zero, waited for, then deleted;
- instances get one batch terminate, then a wait for the ones still terminating;
- internet and VPN gateways are detached from this VPC before their delete;
- network interfaces are detached before their delete;
- a security group's rules are revoked before the group is deleted;
- node groups, the VPC and the cluster treat "not found" as deleted.

**The report side.** Several parts turn custodian output into a report and
then into Slack messages:

- `pkg/parser` selects `<account>/<region>/<policy>/resources.json` files, maps each through the parser of its resource type, merges the resources per account and orders them by creation time.
- `pkg/aws/aws.go`, `pkg/aws/eks.go`, `pkg/aws/ec2.go`, `pkg/aws/s3.go` and `pkg/gcp` are those per-type parsers.
- `pkg/aws/clients.go` caches one client set per `account:region`.
- `pkg/slack` routes each resource to its owner's channel, renders one table per account, and splits long tables into messages that fit Slack's limit.

**How the cloud is modelled.** The cloud is a value of the datatype
`Cloud.Cloud`. Every answer it gives (a page of a listing, the error of an
act call) is a function of the history of calls issued before it. A retry
can therefore see a different world than the attempt before it. Every
operation that talks to the cloud is a method. It takes the trace of calls
so far and returns the extended trace and its errors. The method is proved
equal to a function of the history: `Each`, `Targets`, `Failures`, `Listed`,
`Teardown` and `TaskRun`. Lemmas then state what those functions promise.
The errors of `multierr.Append` are a sequence: nil is `[]` and appending is `+`.

Behaviours of the code worth knowing:

- The v2 load balancer driver (`loadbalancerv2.go`) is never called by `deleteVpcAndEks`. It is modelled on its own, and `AwsOrder.TeardownOrdered` proves that no attempt issues one of its calls.
- A listing failure returns only the listing's error. The act errors recorded earlier in the attempt are dropped (`AwsOrder.TeardownErrors`).
- The cluster is looked up once per task. Every retry works on that first VPC id.
- The loop sleeps after every failed attempt, the last one included (`AwsCleaner.AttemptsSleeps`).
- With `tries <= 0` no attempt runs, and the cluster is deleted straight away (`AwsCleaner.TaskDeletesCluster`).
- `deleteVpnGateways` drops the errors of its detaches. A gateway whose detach failed is skipped without a recorded error (`AwsVpnGateway.VpnDeleteIffDetached`).
- `deleteSecurityGroups` ignores a failed rule listing and still deletes the group (`AwsSecurityGroup.RuleListingFailureIgnored`).
- Two loops misbehave as written: the auto scaling group describe never sends its next-page token, and the node group delete loop can return a not-found it meant to skip. Both are modelled as written and corrected (see Findings). The pipeline is built from the corrected loops, so on those two inputs it describes the intended program. The first four lines of "## Left out" say what that leaves out.

## Model

| member | source | states |
|---|---|---|
| AwsCleaner.DeleteResources | pkg/aws/cleaner.go:13-50 | one task per resource of every account, in order, each through the clients cached for its `account:region`; the run's trace and error are those of `Each` over all placed clusters |
| AwsCleaner.DeleteAccount | pkg/aws/cleaner.go:16-47 | the inner loop: the tasks of one account's resources follow the tasks already started |
| AwsCleaner.RowReady | pkg/aws/cleaner.go:15-18 | once the cache covers every placed cluster, each resource of account i finds its `account:region` key in the cache, and account i's resources come right after the earlier accounts' |
| AwsCleaner.ItemIsTask | pkg/aws/cleaner.go:17-20 | the task run for a placed cluster is that cluster's task, run through the clients stored under its key |
| AwsCleaner.DeleteCluster | pkg/aws/cleaner.go:20-46 | one task: lookup, retry loop, then the cluster delete, as `TaskRun` |
| AwsCleaner.TaskLookupFails | pkg/aws/cleaner.go:23-30 | a lookup failure issues nothing but the lookup; not-found is success, any other error is the task's error as it came |
| AwsCleaner.TaskDeletesCluster | pkg/aws/cleaner.go:33-45 | the cluster delete is issued iff the retry loop ended without error, and so always when `tries <= 0`; a failed loop leaves its last attempt's error as the task's error; otherwise the task's error is the delete's error, with not-found counted as success |
| AwsCleaner.RetryTeardown | pkg/aws/cleaner.go:33-40 | the `for try := 1; try <= tries` loop: a fresh attempt each time, a nil attempt breaks out, any other attempt is followed by a sleep; equal to `Attempts` |
| AwsCleaner.Attempt | pkg/aws/cleaner.go:35 | one attempt is one run of `deleteVpcAndEks` from the current trace |
| AwsCleaner.AttemptsStop | pkg/aws/cleaner.go:33-40 | at most `tries` attempts, at least one when `tries > 0`; every attempt but the last failed; the loop stops early only at a nil attempt; the loop's error is the last attempt's |
| AwsCleaner.AttemptsSleeps | pkg/aws/cleaner.go:33-40 | the loop sleeps exactly once after each failed attempt, the last included, and never after the nil one |
| AwsCleaner.PipelineCalls | pkg/aws/cleaner.go:52-190 | an attempt issues only API calls, and none of them is the cluster lookup or the cluster delete |
| AwsCleaner.AttemptsNoClusterCall | pkg/aws/cleaner.go:33-40 | the retry loop never issues the task's own cluster calls |
| AwsCleaner.PipelinesRun | pkg/aws/cleaner.go:35 | the attempt function of every VPC is the pipeline's run on that VPC |
| AwsCleaner.RunErrorSource | pkg/aws/cleaner.go:49 | every error of the run is the error of some task, run where the earlier tasks left the trace |
| AwsCleaner.RunErrorKept | pkg/aws/cleaner.go:49 | every task's error is kept in the run's error: no task's failure hides another's |
| AwsPipeline.DeleteVpcAndEks | pkg/aws/cleaner.go:52-190 | the sixteen list-then-act blocks in order; a listing error returns that error alone, an act error is appended and the next kind runs; equal to `Teardown` |
| AwsPipeline.StageStep | pkg/aws/cleaner.go:52-190 | the kinds' fixed order: position k of the pipeline is the kind of rank k |
| AwsPipeline.DeletePeeringsKind | pkg/aws/cleaner.go:55-62 | the peering block: its listing stops the pipeline on failure, its deletes' errors are recorded |
| AwsPipeline.DeleteLoadBalancersKind | pkg/aws/cleaner.go:64-71 | the classic load balancer block, as above |
| AwsPipeline.DeleteAutoScalingGroupsKind | pkg/aws/cleaner.go:73-80 | the auto scaling group block, as above |
| AwsPipeline.DeleteInstancesKind | pkg/aws/cleaner.go:82-89 | the reservation block, as above |
| AwsPipeline.DeleteNetworkAclsKind | pkg/aws/cleaner.go:91-98 | the network ACL block, as above |
| AwsPipeline.DeleteElasticIpsKind | pkg/aws/cleaner.go:100-107 | the elastic IP block, as above |
| AwsPipeline.DeleteNatGatewaysKind | pkg/aws/cleaner.go:109-116 | the NAT gateway block, as above |
| AwsPipeline.DeleteInternetGatewaysKind | pkg/aws/cleaner.go:118-125 | the internet gateway block, as above |
| AwsPipeline.DeleteNetworkInterfacesKind | pkg/aws/cleaner.go:127-134 | the network interface block, as above |
| AwsPipeline.DeleteSubnetsKind | pkg/aws/cleaner.go:136-143 | the subnet block, as above |
| AwsPipeline.DeleteSecurityGroupsKind | pkg/aws/cleaner.go:145-152 | the security group block, as above |
| AwsPipeline.DeleteVpnGatewaysKind | pkg/aws/cleaner.go:154-161 | the VPN gateway block, as above |
| AwsPipeline.DeleteRouteTablesKind | pkg/aws/cleaner.go:163-170 | the route table block, as above |
| AwsPipeline.DeleteNodeGroupsKind | pkg/aws/cleaner.go:172-175 | the node group block: its error, even a listing error, is appended and never stops the pipeline |
| AwsPipeline.DeleteVpcKind | pkg/aws/cleaner.go:177-180 | the VPC block: one delete, its error appended unless the VPC is already gone |
| AwsPipeline.DeleteStacksKind | pkg/aws/cleaner.go:182-188 | the stack block: a failed stack lookup stops the pipeline; otherwise the stack delete's error is appended |
| AwsOrder.TeardownOrdered | pkg/aws/cleaner.go:52-190 | the calls of an attempt visit the kinds in their fixed order, never going back, and none is a v2 load balancer call or a cluster task call |
| AwsOrder.FromOrdered | pkg/aws/cleaner.go:52-190 | the pipeline from kind k on issues only calls of kinds k and later, in order |
| AwsOrder.StageTagged | pkg/aws/cleaner.go:52-190 | every call a kind issues belongs to that kind |
| AwsOrder.PeeringStageTagged | pkg/aws/cleaner.go:55-62 | the peering block's calls are all peering calls |
| AwsOrder.LoadBalancerStageTagged | pkg/aws/cleaner.go:64-71 | the load balancer block's calls are all load balancer calls |
| AwsOrder.AutoScalingStageTagged | pkg/aws/cleaner.go:73-80 | the auto scaling block's calls, waits included, are all auto scaling calls |
| AwsOrder.InstanceStageTagged | pkg/aws/cleaner.go:82-89 | the instance block's calls are all instance calls |
| AwsOrder.NetworkAclStageTagged | pkg/aws/cleaner.go:91-98 | the network ACL block's calls are all network ACL calls |
| AwsOrder.ElasticIpStageTagged | pkg/aws/cleaner.go:100-107 | the elastic IP block's calls are all elastic IP calls |
| AwsOrder.NatGatewayStageTagged | pkg/aws/cleaner.go:109-116 | the NAT gateway block's calls are all NAT gateway calls |
| AwsOrder.InternetGatewayStageTagged | pkg/aws/cleaner.go:118-125 | the internet gateway block's calls are all internet gateway calls |
| AwsOrder.NetworkInterfaceStageTagged | pkg/aws/cleaner.go:127-134 | the network interface block's calls are all network interface calls |
| AwsOrder.SubnetStageTagged | pkg/aws/cleaner.go:136-143 | the subnet block's calls are all subnet calls |
| AwsOrder.SecurityGroupStageTagged | pkg/aws/cleaner.go:145-152 | the security group block's calls, rule listings and revokes included, are all security group calls |
| AwsOrder.VpnGatewayStageTagged | pkg/aws/cleaner.go:154-161 | the VPN gateway block's calls are all VPN gateway calls |
| AwsOrder.RouteTableStageTagged | pkg/aws/cleaner.go:163-170 | the route table block's calls are all route table calls |
| AwsOrder.HaltStopsLater | pkg/aws/cleaner.go:56-59 | a listing failure at kind j leaves every later kind untouched: no call of a later kind is issued |
| AwsOrder.HaltAfter | pkg/aws/cleaner.go:52-190 | the kind a listing failure is reported at is the starting kind or a later one |
| AwsOrder.FromErrors | pkg/aws/cleaner.go:52-190 | the pipeline's error is the first listing failure alone, or else the errors so far followed by every kind's act errors in order |
| AwsOrder.TeardownErrors | pkg/aws/cleaner.go:52-190 | an attempt returns nil iff no listing failed and no act failed; a listing failure is returned alone |
| AwsOrder.QuietTeardownClean | pkg/aws/cleaner.go:52-190 | against a cloud that answers every call nil and lists nothing, an attempt returns nil |
| AwsOrder.RankedKinds | pkg/aws/cleaner.go:52-190 | calls ranked among the sixteen kinds are API calls of pipeline kinds |
| AwsVpc.DeleteVpc | pkg/aws/vpc.go:13-23 | nil iff the delete answered nil or `InvalidVpcID.NotFound`; any other error is returned as it came |
| AwsVpc.Ec2VpcFilter | pkg/aws/vpc.go:75-82 | one filter, `vpc-id`, holding only the VPC id |
| AwsVpc.DeleteVpcPeeringConnections | pkg/aws/vpc.go:25-46 | one delete per targeted connection, in order, every error kept |
| AwsVpc.PeeringDeletes | pkg/aws/vpc.go:26-43 | a delete is issued exactly for the connections that have an id and the VPC on the accepter or requester side |
| AwsVpc.ListVpcPeeringConnections | pkg/aws/vpc.go:48-73 | every accepter-side page, then every requester-side page, each side following its token; any failure aborts |
| AwsVpc.PeeringListingMeaning | pkg/aws/vpc.go:48-73 | a failed first side returns its error after its own calls; otherwise the result is the second side's error or the items of both sides, accepter first |
| AwsVpc.PassesNext | pkg/aws/vpc.go:51-71 | a side listed after successful ones starts where they left the trace and adds its items after theirs |
| AwsVpc.PassesStuck | pkg/aws/vpc.go:62-64 | once a side has failed, the later sides add nothing |
| AwsLoadBalancer.DeleteLoadBalancers | pkg/aws/loadbalancer.go:11-22 | one delete per named load balancer, every error kept, none stopping the rest |
| AwsLoadBalancer.LoadBalancerDeletes | pkg/aws/loadbalancer.go:12-19 | a delete is issued exactly for the load balancers that have a name |
| AwsLoadBalancer.ListLoadBalancers | pkg/aws/loadbalancer.go:24-43 | an unfiltered describe, following the marker, keeping the VPC's load balancers; the first error aborts |
| AwsLoadBalancer.InVpcListing | pkg/aws/loadbalancer.go:32-37 | a successful listing holds only load balancers of the VPC, and every served one of the VPC |
| AwsLoadBalancerV2.DeleteLoadBalancersV2 | pkg/aws/loadbalancerv2.go:12-23 | one delete per load balancer with an ARN, every error kept |
| AwsLoadBalancerV2.LoadBalancerV2Deletes | pkg/aws/loadbalancerv2.go:13-20 | a delete is issued exactly for the load balancers that have an ARN |
| AwsLoadBalancerV2.ListLoadBalancersV2 | pkg/aws/loadbalancerv2.go:25-45 | the VPC's load balancers of every page, following the marker; the first error aborts |
| AwsAutoScalingGroup.DeleteAutoScalingGroups | pkg/aws/autoscalinggroup.go:20-67 | every named group in turn; one group's failure never stops the next |
| AwsAutoScalingGroup.AsgProtocol | pkg/aws/autoscalinggroup.go:25-64 | a resize is issued iff a capacity is non-zero; a wait is issued iff an instance has an id, and it waits for exactly those ids; the delete is issued iff there is nothing to wait for or the wait succeeded; a failed wait adds its error after the resize's |
| AwsAutoScalingGroup.ResizeGroup | pkg/aws/autoscalinggroup.go:26-36 | the resize step of one group's turn |
| AwsAutoScalingGroup.WaitAndDelete | pkg/aws/autoscalinggroup.go:44-64 | the wait step, then the delete unless the wait failed |
| AwsAutoScalingGroup.InstanceIds | pkg/aws/autoscalinggroup.go:38-43 | the id list the waiter gets: every present instance id, in order |
| AwsAutoScalingGroup.NonNilIdsMeaning | pkg/aws/autoscalinggroup.go:38-44 | the id list holds exactly the ids the instances carry, and is empty iff no instance has one |
| AwsAutoScalingGroup.ListAutoScalingGroups | pkg/aws/autoscalinggroup.go:69-86 | one describe pass per filter set; a failed pass aborts; groups are kept once per ARN, first seen first |
| AwsAutoScalingGroup.KeepFirstSeen | pkg/aws/autoscalinggroup.go:77-83 | the inner loop adds each group whose ARN is new, and the ARN set stays that of the kept groups |
| AwsAutoScalingGroup.FirstByArnDistinct | pkg/aws/autoscalinggroup.go:77-83 | de-duplication keeps every ARN listed, each exactly once, and only groups that were listed |
| AwsAutoScalingGroup.FirstByArnFirstSeen | pkg/aws/autoscalinggroup.go:77-83 | each kept group is the first listed with its ARN, and kept groups are in the order their ARNs first appear |
| AwsAutoScalingGroup.FirstIndex | pkg/aws/autoscalinggroup.go:78 | the position of the first group with an ARN: it has that ARN and no group before it does |
| AwsAutoScalingGroup.FilterPassesNext | pkg/aws/autoscalinggroup.go:72-76 | a pass after successful ones lists from where they left the trace and adds its groups after theirs |
| AwsAutoScalingGroup.FilterPassesStuck | pkg/aws/autoscalinggroup.go:73-76 | once a pass has failed, the later filter sets add nothing |
| AwsAutoScalingGroup.AutoScalingFilters | pkg/aws/autoscalinggroup.go:88-113 | no filter set for an empty cluster name; otherwise two sets: the three cluster tag keys with value `owned`, then `eks:cluster-name` with the cluster name |
| AwsAutoScalingGroup.DescribeAutoScalingGroups | pkg/aws/autoscalinggroup.go:115-131 | with the next token sent, every group on every page, or the first describe error |
| AwsAutoScalingGroup.DescribeAsWrittenNeverEnds | pkg/aws/autoscalinggroup.go:117-130 | as written, a listing with a second page never ends |
| AwsAutoScalingGroup.DescribeWithTokenEnds | pkg/aws/autoscalinggroup.go:117-130 | with the token sent, the same two-page listing ends after two requests, the second carrying the token |
| AwsAutoScalingGroup.DescribeOnePageAgrees | pkg/aws/autoscalinggroup.go:117-130 | on a one-page listing the loop as written and the corrected loop agree |
| AwsEc2.TerminateInstancesInReservations | pkg/aws/ec2.go:61-121 | terminate the live instances in one batch, then wait for the ones still terminating |
| AwsEc2.TerminateProtocol | pkg/aws/ec2.go:61-121 | nothing is issued iff no instance is live; the terminate is first and names exactly the live ids; a failed terminate is the only error; a wait follows iff some instance is still terminating, and waits for those; at most one error |
| AwsEc2.NonTerminatedInstanceIds | pkg/aws/ec2.go:63-74 | the first loop: every live instance id, reservation by reservation |
| AwsEc2.AppendLiveIds | pkg/aws/ec2.go:65-73 | one reservation's live ids appended to those found so far |
| AwsEc2.CandidatesMeaning | pkg/aws/ec2.go:63-74 | an id is a terminate candidate iff some reservation holds an instance with that id that is not known to be terminated |
| AwsEc2.LiveIdsMeaning | pkg/aws/ec2.go:65-73 | an id is live in a reservation iff an instance there carries it and is not known to be terminated |
| AwsEc2.TerminatingInstanceIds | pkg/aws/ec2.go:90-99 | the second loop: the ids of the instances the terminate left still terminating |
| AwsEc2.ListReservations | pkg/aws/ec2.go:43-59 | the reservations of every page of the VPC's listing, following the token, or the first error |
| AwsEc2.ReservationListing | pkg/aws/ec2.go:48-58 | a listing returns every reservation served, page after page, or the error of the describe that failed |
| AwsEc2.ParseEC2 | pkg/aws/ec2.go:14-41 | one resource per instance, in order, named `<id> [<type>]`, with its owner tag; a decode error is returned as it came |
| AwsEc2.FindOwner | pkg/aws/ec2.go:26-32 | the tag loop stops at the first tag keyed `owner` |
| AwsEc2.OwnerTagMeaning | pkg/aws/ec2.go:26-32 | the owner is the value of the first tag keyed exactly `owner`, and "" when there is none |
| AwsEc2.ParseEC2AgreesWithEc2 | pkg/aws/ec2.go:14-41 | ParseEC2 and the report mapper EC2 agree on every field but the owner |
| AwsNetworkAcl.DeleteNetworkAcls | pkg/aws/networkacl.go:11-26 | one delete per ACL of the VPC, every error kept |
| AwsNetworkAcl.NetworkAclDeletes | pkg/aws/networkacl.go:12-23 | a delete is issued exactly for the ACLs that have an id and belong to the VPC |
| AwsNetworkAcl.ListNonDefaultNetworkAcls | pkg/aws/networkacl.go:28-48 | the non-default ACLs of every page, or the first error |
| AwsNetworkAcl.NonDefaultListing | pkg/aws/networkacl.go:38-42 | a successful listing holds exactly the served ACLs not marked default |
| AwsElasticIp.ReleaseElasticIps | pkg/aws/elasticip.go:12-20 | one release per address, every error kept |
| AwsElasticIp.ReleasesAll | pkg/aws/elasticip.go:13-18 | every address is released once, in order, with no skip for a missing allocation id |
| AwsElasticIp.ElasticIpFilter | pkg/aws/elasticip.go:23-28 | one filter, `tag:Name`, matching the cluster name followed by `*` |
| AwsElasticIp.ListElasticIps | pkg/aws/elasticip.go:22-36 | one describe, without pagination: its addresses or its error |
| AwsNatGateway.DeleteNatGateways | pkg/aws/natgateway.go:11-22 | one delete per gateway with an id, every error kept |
| AwsNatGateway.NatGatewayDeletes | pkg/aws/natgateway.go:12-19 | a delete is issued exactly for the gateways that have an id |
| AwsNatGateway.ListNatGateways | pkg/aws/natgateway.go:24-40 | every gateway of every page of the VPC's listing, or the first error |
| AwsInternetGateway.DeleteInternetGateways | pkg/aws/internetgateway.go:12-44 | every gateway in turn; one gateway's failure never stops the next |
| AwsInternetGateway.DeleteInternetGateway | pkg/aws/internetgateway.go:14-41 | one gateway: its detaches, then its delete unless a detach failed |
| AwsInternetGateway.GatewayDetachTargets | pkg/aws/internetgateway.go:19-30 | a detach is issued exactly for the attachments to this VPC that are neither detaching nor detached |
| AwsInternetGateway.DetachesOnly | pkg/aws/internetgateway.go:27-30 | every detach of a gateway is a detach from this VPC; the delete is never among them |
| AwsInternetGateway.GatewayDeleteIffDetached | pkg/aws/internetgateway.go:19-41 | the delete is issued iff every detach succeeded; otherwise the gateway's error is the non-empty list of detach errors; after a delete, its error is the gateway's |
| AwsInternetGateway.ListInternetGateways | pkg/aws/internetgateway.go:46-67 | every gateway attached to the VPC, page after page, or the first error |
| AwsNetworkInterface.DeleteNetworkInterfaces | pkg/aws/networkinterface.go:11-34 | every interface in turn; one interface's failure never stops the next |
| AwsNetworkInterface.DeleteNetworkInterface | pkg/aws/networkinterface.go:13-31 | one interface: detach it when attached, then delete it unless the detach failed |
| AwsNetworkInterface.InterfaceProtocol | pkg/aws/networkinterface.go:16-31 | a detach is issued iff the interface is attached; the delete is issued iff it was not attached or the detach succeeded, and is then the last call; without a delete there is exactly one error |
| AwsNetworkInterface.ListNetworkInterfaces | pkg/aws/networkinterface.go:36-52 | every interface of the VPC, page after page, or the first error |
| AwsSubnet.DeleteSubnets | pkg/aws/subnet.go:12-26 | one delete per subnet of the VPC, every error kept |
| AwsSubnet.SubnetDeletes | pkg/aws/subnet.go:13-23 | a delete is issued exactly for the subnets that have an id and belong to the VPC |
| AwsSubnet.ListSubnets | pkg/aws/subnet.go:28-49 | every subnet of every page, or the first error |
| AwsSecurityGroup.DeleteSecurityGroups | pkg/aws/securitygroup.go:11-33 | every group of the VPC in turn; one group's failure never stops the next |
| AwsSecurityGroup.DeleteSecurityGroup | pkg/aws/securitygroup.go:13-30 | one group: list its rules, revoke them, then delete the group unless a revoke failed |
| AwsSecurityGroup.RevokeAndDelete | pkg/aws/securitygroup.go:21-30 | the part of the loop body after the rules are listed |
| AwsSecurityGroup.GroupDeleteIffRevoked | pkg/aws/securitygroup.go:20-30 | the delete is issued iff every revoke succeeded; otherwise the group's error is the non-empty list of revoke errors |
| AwsSecurityGroup.RevokeFailedRun | pkg/aws/securitygroup.go:22-25 | a failed revoke ends the group's turn after the revokes, with their errors |
| AwsSecurityGroup.RevokedRun | pkg/aws/securitygroup.go:21-29 | when every revoke succeeds, the group's turn ends with its delete |
| AwsSecurityGroup.RuleListingFailureIgnored | pkg/aws/securitygroup.go:20-30 | a failed rule listing is not recorded, and the group is deleted all the same |
| AwsSecurityGroup.NoDeleteBefore | pkg/aws/securitygroup.go:20-26 | neither the rule listing nor the revokes contain a delete |
| AwsSecurityGroup.ListNonDefaultSecurityGroups | pkg/aws/securitygroup.go:35-56 | the non-default groups of every page, or the first error |
| AwsSecurityGroup.NotDefaultListing | pkg/aws/securitygroup.go:45-50 | a successful listing holds exactly the served groups not named `default` |
| AwsSecurityGroupRule.DeleteSecurityGroupRules | pkg/aws/securitygrouprule.go:12-43 | at most one ingress revoke, then at most one egress revoke, each error kept |
| AwsSecurityGroupRule.Revoke | pkg/aws/securitygrouprule.go:29-40 | one revoke call, its error appended to the ones before |
| AwsSecurityGroupRule.RevokesIssued | pkg/aws/securitygrouprule.go:28-41 | at most two revokes; an ingress revoke iff some counted rule is ingress; an egress revoke iff some counted rule is egress |
| AwsSecurityGroupRule.SplitRules | pkg/aws/securitygrouprule.go:13-27 | the group's rules with an id, split by direction, in order; a rule with no direction counts as ingress |
| AwsSecurityGroupRule.SideNonEmpty | pkg/aws/securitygrouprule.go:13-28 | a direction's list is non-empty iff some counted rule goes that way |
| AwsSecurityGroupRule.SideIds | pkg/aws/securitygrouprule.go:31 | the ids revoked on one side are exactly the ids of that side's rules |
| AwsSecurityGroupRule.SecurityGroupRuleIds | pkg/aws/securitygrouprule.go:68-76 | the present ids, in input order |
| AwsSecurityGroupRule.RuleIdsMeaning | pkg/aws/securitygrouprule.go:68-76 | the id list holds exactly the ids the rules carry, one per rule that has one |
| AwsSecurityGroupRule.ListSecurityGroupRules | pkg/aws/securitygrouprule.go:45-66 | every rule of the group, page after page, or the first error |
| AwsVpnGateway.DeleteVpnGateways | pkg/aws/vpngateway.go:12-41 | every gateway in turn; one gateway's failure never stops the next |
| AwsVpnGateway.DeleteVpnGateway | pkg/aws/vpngateway.go:14-38 | one gateway: its detaches, then its delete unless a detach failed |
| AwsVpnGateway.VpnDeleteIffDetached | pkg/aws/vpngateway.go:17-38 | the delete is issued iff every detach succeeded; a failed detach records no error; after a delete, its error is the gateway's |
| AwsVpnGateway.ListVpnGateways | pkg/aws/vpngateway.go:43-56 | one describe, without pagination: its gateways or its error |
| AwsRouteTable.DeleteRouteTables | pkg/aws/routetable.go:12-26 | one delete per table of the VPC, every error kept |
| AwsRouteTable.RouteTableDeletes | pkg/aws/routetable.go:13-23 | a delete is issued exactly for the tables that have an id and belong to the VPC |
| AwsRouteTable.ListRouteTables | pkg/aws/routetable.go:28-49 | every table of every page, or the first error |
| AwsNodegroups.DeleteClusterNodeGroups | pkg/aws/nodegroups.go:10-25 | list the cluster's node groups, then delete each in turn, with a group that is already gone counted as deleted |
| AwsNodegroups.DeleteNodegroups | pkg/aws/nodegroups.go:15-24 | the delete loop: stops at the first error that is not not-found |
| AwsNodegroups.NodegroupDeletesOrder | pkg/aws/nodegroups.go:15-24 | the deletes address a prefix of the groups, in list order; at most one error; with no error, every group is addressed |
| AwsNodegroups.NodegroupDeletesClean | pkg/aws/nodegroups.go:15-24 | every delete before the last was settled; the loop reports no error iff every group's delete was settled |
| AwsNodegroups.NodegroupDeletesFailure | pkg/aws/nodegroups.go:20-21 | a reported error is the answer to the last delete issued, and that answer is not a not-found |
| AwsNodegroups.ListFailureStops | pkg/aws/nodegroups.go:11-14 | a listing failure other than not-found is the result, and no node group is deleted |
| AwsNodegroups.ListClusterNodeGroups | pkg/aws/nodegroups.go:27-48 | the names of every page, following the token |
| AwsNodegroups.NodegroupListingMeaning | pkg/aws/nodegroups.go:27-48 | a not-found listing is an empty success; the loop also stops at an empty page; with no empty page, one call per page and every name served, or the error of the failed call |
| AwsNodegroups.RawListingMeaning | pkg/aws/nodegroups.go:30-46 | the loop before not-found handling: one call per page, every name served, or the failed call's error |
| AwsNodegroups.RawCallsAreLists | pkg/aws/nodegroups.go:31-34 | the listing issues only node group list calls |
| AwsNodegroups.LastNotFoundReported | pkg/aws/nodegroups.go:15-24 | as written, deleting a single node group that is already gone reports not-found; the corrected loop reports nothing |
| AwsNodegroups.AsWrittenDiffersOnlyByNotFound | pkg/aws/nodegroups.go:15-24 | the loop as written issues the same calls as the corrected one; the two differ only where the written one reports a final not-found and the corrected one reports nothing |
| AwsEks.ListEks | pkg/aws/eks.go:35-43 | the described cluster, or the lookup's error as it came |
| AwsEks.DeleteEks | pkg/aws/eks.go:45-53 | nil iff the delete answered nil or not-found; any other error as it came |
| AwsEks.ParseEKS | pkg/aws/eks.go:16-33 | the same mapping as the report parser EKS |
| AwsReport.Eks | pkg/aws/aws.go:10-27 | one resource per cluster, in order, located in the region and with no owner; a decode error is returned as it came |
| AwsReport.Ec2 | pkg/aws/aws.go:29-47 | one resource per instance, in order, named `<id> [<type>]`, in the region; a decode error is returned as it came |
| AwsReport.Ec2Name | pkg/aws/aws.go:41 | the name is the id, a space, then the type in square brackets |
| AwsReport.Ec2NameInjective | pkg/aws/aws.go:41 | two instances share a name only when they share id and type, when ids hold no space |
| AwsS3.ParseS3 | pkg/aws/s3.go:16-51 | one resource per bucket located in the region, in order, with its owner tag; a decode error is returned as it came |
| AwsS3.S3ResourcesMeaning | pkg/aws/s3.go:27-48 | a resource is reported iff it is the resource of a bucket located in the region |
| AwsS3.S3ResourcesInRegion | pkg/aws/s3.go:28-44 | every reported resource is located in the region asked for |
| AwsS3.S3ResourcesAppend | pkg/aws/s3.go:27-49 | mapping buckets a then b is mapping a, then mapping b |
| AwsS3.ScanTags | pkg/aws/s3.go:33-41 | the tag loop: every tag is read, and a later match overwrites an earlier one |
| AwsS3.TagValueMeaning | pkg/aws/s3.go:34-41 | with no matching key the value is ""; otherwise it is the value of a matching tag with no match after it |
| AwsS3.TagKeyCaseInsensitive | pkg/aws/s3.go:35 | tag keys match without regard to case |
| AwsClients.ClientRegistry.InitClientsMap | pkg/aws/clients.go:26-47 | every pair visited in order; a pair already cached is skipped; the first configuration error aborts |
| AwsClients.ClientRegistry.constructor | pkg/aws/clients.go:24 | the cache starts empty |
| AwsClients.PopulateKeeps | pkg/aws/clients.go:30 | an entry already in the cache is never replaced |
| AwsClients.PopulateCovers | pkg/aws/clients.go:26-47 | with no configuration error, every visited pair has an entry |
| AwsClients.PopulateBuilds | pkg/aws/clients.go:30-42 | every new entry is built from the configuration of a visited pair, for that account and region |
| AwsClients.PopulateFails | pkg/aws/clients.go:32-35 | a failure is the configuration error of a visited pair |
| AwsClients.PopulateAppend | pkg/aws/clients.go:27-45 | visiting a then b is visiting a and, unless that failed, b from where a left the cache |
| AwsClients.ClientKey | pkg/aws/clients.go:49-51 | the account, a colon, then the region |
| AwsClients.ClientKeyInjective | pkg/aws/clients.go:49-51 | two keys agree only for the same pair, when account names hold no colon |
| Cloud.IssueEach | pkg/aws/loadbalancer.go:11-22 | the per-item act loop: one call per targeted item, in order, every error kept, no failure stopping the rest |
| Cloud.TargetsMember | pkg/aws/loadbalancer.go:12-19 | a call is issued exactly when some item targets it |
| Cloud.FailuresNone | pkg/aws/loadbalancer.go:16-19 | independent calls record no error iff every call is answered nil |
| Cloud.FailuresAppend | pkg/aws/cleaner.go:60-62 | issuing calls a then b records a's errors followed by b's |
| Cloud.Paginate | pkg/aws/subnet.go:37-48 | the pagination loop: one describe per page, the first carrying no token, every kept item in order, or the failed call's error |
| Cloud.CollectedMeaning | pkg/aws/subnet.go:38-48 | a listing yields the selected items of every page, or the error of the page that failed |
| Cloud.PageCallsShape | pkg/aws/subnet.go:38-42 | a listing's calls are describes of its driver carrying its filters, the first with no token |
| Cloud.Select | pkg/aws/loadbalancer.go:32-37 | the kept items are items of the input that pass the filter, and every input item that passes is kept |
| Cloud.EachErrsNone | pkg/aws/internetgateway.go:12-44 | a per-item loop records no error iff no item records one |
| Cloud.AsList | pkg/aws/cleaner.go:60-62 | appending one call's error adds nothing iff the error is nil, else exactly that error |
| Dto.Row | pkg/aws/cleaner.go:16-17 | one entry per resource of the account, in order, paired with the account's name |
| Dto.PlacementsMeaning | pkg/aws/cleaner.go:15-17 | the nested loop visits exactly the (account, resource) pairs of the input |
| Dto.PlacementsConcat | pkg/aws/cleaner.go:15-16 | the pairs of two account lists are the first list's pairs, then the second's |
| Parser.ParserFor | pkg/parser/parser.go:18-24 | a parser exists exactly for `eks`, `ec2`, `gke`, `gce` and `arg` |
| Parser.ResourcesFromFile | pkg/parser/parser.go:91-101 | an unsupported type fails with `unsupported resource type` before any file is read; otherwise the file's parse |
| Parser.UnsupportedReadsNothing | pkg/parser/parser.go:92-95 | an unsupported type fails the same way whatever the files hold |
| Parser.AccountRegion | pkg/parser/parser.go:119-124 | the account and region are whole path segments |
| Parser.ReportLayout | pkg/parser/parser.go:49 | a path `<root>/<account>/<region>/<policy>/resources.json` is selected, and gives back its account and region |
| Parser.SelectedPathSegments | pkg/parser/parser.go:49 | a selected path's last two segments are the policy and `resources.json` |
| Parser.SplitReportPath | pkg/parser/parser.go:121 | a path ending in a policy's report suffix splits into the front's segments, the policy and the file name |
| Parser.LoadAllMeaning | pkg/parser/parser.go:59-64 | the report fails iff some file fails, with the first failing file's error; otherwise one parse per file, in order |
| Parser.LoadAllPrefix | pkg/parser/parser.go:62-64 | a failure among the first k files is the failure of the whole |
| Parser.MergeMeaning | pkg/parser/parser.go:65-73 | an account is in the map iff some file gave it a resource; its resources are those of its files, in file order |
| Parser.MergeNames | pkg/parser/parser.go:69-73 | every map entry is stored under its own name |
| Parser.ReportFromFiles | pkg/parser/parser.go:57-80 | the first file error fails the report; otherwise the type, the policy and every merged account, in map order |
| Parser.AccountsFromMap | pkg/parser/parser.go:103-109 | every account of the map, each once, in some iteration order |
| Parser.AccountsDistinct | pkg/parser/parser.go:103-109 | the report names each account once, and names exactly the map's accounts |
| Parser.SortedAccount | pkg/parser/parser.go:84-87 | the same account, its resources a creation-ordered permutation |
| Parser.SortResources | pkg/parser/parser.go:82-89 | every account of the array, in place, has its resources ordered by creation time |
| ResourceOrder.SortByCreated | pkg/parser/parser.go:85-87 | the result is ordered by creation time and is a permutation of the input |
| ResourceOrder.Insert | pkg/slack/slack.go:114-116 | inserting into an ordered sequence keeps it ordered and adds exactly one element |
| ResourceOrder.SortOrdered | pkg/slack/slack.go:114-116 | an already ordered sequence is left as it is |
| ResourceOrder.SortIdempotent | pkg/parser/parser.go:85-87 | sorting twice is sorting once |
| Gcp.Gke | pkg/gcp/gcp.go:10-28 | one resource per cluster, in order, at the cluster's own location, with no owner; a decode error is returned as it came |
| Gcp.ParseGKE | pkg/gcp/gcp.go:10-28 | the loop computes the GKE mapping |
| Gcp.Gce | pkg/gcp/gcp.go:30-48 | one resource per machine, in order, at its normalised zone; a decode error is returned as it came |
| Gcp.ParseGCE | pkg/gcp/gcp.go:30-48 | the loop computes the GCE mapping |
| Gcp.NormalizeZone | pkg/gcp/gcp.go:50-57 | the result holds no `/` and ends the zone; a zone without `/` is unchanged; otherwise a `/` comes right before the result |
| Gcp.NormalizeZoneOfUrl | pkg/gcp/gcp.go:49-57 | a zone URL `.../zones/<name>` normalises to the name |
| Gcp.NormalizeZoneIdempotent | pkg/gcp/gcp.go:50-57 | normalising a normalised zone changes nothing |
| Strings.Split | pkg/gcp/gcp.go:51 | splitting yields at least one piece, none holding the separator |
| Strings.JoinSplit | pkg/slack/slack.go:145 | joining the pieces with the separator gives back the string |
| Strings.SplitJoin | pkg/slack/slack.go:145 | splitting pieces joined by a separator they do not hold gives back the pieces |
| Strings.Lower | pkg/slack/slack.go:91 | lower-casing keeps the length and maps each character |
| Slack.SplitMessage | pkg/slack/slack.go:141-159 | the builder loop over the lines, cutting whenever the builder grows past the threshold; equal to `SplitPieces` |
| Slack.SplitPiecesMeaning | pkg/slack/slack.go:141-159 | a message within the limit is sent whole; a longer one is cut into non-empty pieces that spell the message followed by a newline, all but the last past the threshold |
| Slack.FillMeaning | pkg/slack/slack.go:146-152 | the pieces and the builder spell the terminated lines; every cut piece is past the threshold; the builder never is |
| Slack.TerminatedJoin | pkg/slack/slack.go:145-147 | lines each followed by a newline are the lines joined by newlines, plus one final newline |
| Slack.Terminated | pkg/slack/slack.go:147 | each line with the newline the builder writes after it |
| Slack.GroupSlackMessage | pkg/slack/slack.go:87-107 | every resource of every account, in order, appended under its channel and account; equal to `Group` |
| Slack.GroupAccount | pkg/slack/slack.go:90-104 | the inner loop over one account's resources |
| Slack.Append | pkg/slack/slack.go:95-103 | the channel's map and the account's list are created when absent, and the list grows by the resource |
| Slack.Route | pkg/slack/slack.go:91-94 | the member's channel when the lower-cased owner is a member, the default channel otherwise |
| Slack.GroupMeaning | pkg/slack/slack.go:87-107 | a channel lists an account iff some resource of that account routes there; the list is exactly those resources, in order; no channel has an empty map |
| Slack.RoutedContains | pkg/slack/slack.go:91-103 | every resource lands under its owner's channel and its own account |
| Slack.RoutedOnlyThere | pkg/slack/slack.go:91-103 | a resource listed under a channel and an account is a resource of that account whose owner routes to that channel |
| Slack.GroupSnoc | pkg/slack/slack.go:89-104 | one more resource is added under its owner's channel and its account |
| Slack.PrepareSlackMessage | pkg/slack/slack.go:109-126 | one entry per channel of the groups; each channel's messages are its accounts' messages, every account once, in some iteration order |
| Slack.PrepareChannel | pkg/slack/slack.go:111-123 | one channel: every account's messages, every account once, in some iteration order |
| Slack.PrepareAccount | pkg/slack/slack.go:113-122 | one account: sort by creation, render the table, split it, wrap each piece |
| Slack.ChannelMessagesSnoc | pkg/slack/slack.go:113-123 | one more account visited: its messages follow the earlier ones |
| Slack.NormalizeDTO | pkg/slack/slack.go:128-139 | the loop computes `Lines` |
| Slack.Lines | pkg/slack/slack.go:128-139 | one row per resource, in order, numbered from 1, with its region, name and creation time |
| Slack.Payload | pkg/slack/slack.go:120 | the account in bold, a code block holding the piece; 11 characters longer than the two together |
| Slack.PayloadInjective | pkg/slack/slack.go:120 | the account and the piece can be read back from a payload when account names hold no `*` |
| Slack.Payloads | pkg/slack/slack.go:119-122 | one payload per piece, in order |

## Left out

- AwsPipeline.DeleteVpcAndEks: built from the corrected auto scaling group describe and the corrected node group delete loop. It therefore does not capture that the source's attempt never returns when the auto scaling group describe has a second page (autoscalinggroup.go:118 rebuilds the request, so the token set at line 129 is never sent). Nor does it capture that the source's attempt reports a not-found when the cluster's last listed node group is already gone (nodegroups.go:24). The same holds for `AwsPipeline.Teardown` and every lemma about it. Reason: an attempt that never returns has no result to compose, and the corrected loops are the intended behaviour. The as-written behaviours are proved separately by `AwsAutoScalingGroup.DescribeAsWrittenNeverEnds` and `AwsNodegroups.LastNotFoundReported`.
- AwsPipeline.DeleteAutoScalingGroupsKind: its listing sends the next-page token, so it returns on a multi-page describe where the source's block never returns. Reason: a listing that never returns has no value to compose; the divergence is proved on its own by `AwsAutoScalingGroup.DescribeAsWrittenNeverEnds`.
- AwsPipeline.DeleteNodeGroupsKind: it appends the corrected loop's error, so it records nothing when the last listed node group is already gone, where the source's block appends that not-found. Reason: the corrected loop is the intended behaviour; `AwsNodegroups.AsWrittenDiffersOnlyByNotFound` proves this is the only difference.
- AwsAutoScalingGroup.ListAutoScalingGroups: its describe passes send the next-page token, so it returns on a multi-page describe where the source's listing never returns. Reason as for `DeleteAutoScalingGroupsKind`.
- Concurrency: `DeleteResources` starts its tasks as goroutines. Here they run one after the other on one trace. That is one interleaving at task granularity. Interleavings within a task are not modelled.
- Sleep durations, waiter timeouts and backoff: a sleep is one `Sleep` call in the trace. A waiter is one `Wait` call whose answer is its outcome.
- Logging, and the `fmt.Printf` in `listLoadBalancersV2`: output only. Its nil dereference is listed below.
- Context cancellation: not modelled.
- Reading files, JSON decoding and the YAML members file: file contents arrive already decoded, as a `Decoded` value or through the `Loader` parameter.
- `readSlackMembers` and `notifySlack`: I/O against the Slack API. The members map is a parameter, and sending is not modelled.
- `persistReport`, `jsonToBytes` and the directory walk of `resourceFiles`: I/O. The path test `resourceFiles` applies is modelled (`Parser.ReportLayout`). The `Parse` wiring that calls these functions in sequence is not modelled as a method of its own.
- `tableprinter.Print`: the `Render` parameter stands for it.
- Time values: a creation time is an integer instant. `Format("2006-01-02")` is not modelled.
- `date.ParseOrDefault` and the S3 expiry: `ScanTags` reads the expiry tag, but the report resource carries no expiry field, so the value goes nowhere.
- `azure.RG`, `pkg/cleaner`, `pkg/cloud`, `pkg/converter`, `pkg/slack/notify.go`, `pkg/date` and `cmd`: outside this model. The `arg` type is accepted by `Parser.ParserFor` and is parsed by the loader.
- `listCloudFormationStacks` and `deleteCloudFormation`: their file is not part of this model. The stack block calls them as two oracle calls.
- Map iteration order: Go's order is unspecified. `AccountsFromMap`, `PrepareChannel` and `PrepareSlackMessage` promise every key exactly once, in some order.
- `sort.Slice` is not stable, so the source fixes no order among resources created at the same instant. `ResourceOrder.SortByCreated` picks one such order, and its contract promises only that the result is ordered by creation time and is a permutation of the input.
- `Strings.Lower`: it maps ASCII letters only. `strings.ToLower` also folds other Unicode letters.
- `utf8.RuneCountInString`: the model counts characters. The source counts runes, which is the same when a `char` is one rune.
- `Parser.AccountRegion`: it requires at least four path segments. The source panics on a shorter path (parser.go:123 indexes `parts[l-4]`). `resourceFiles` can select such a path: a report directory `d` holding `d/<policy>/resources.json` gives a selected path of three segments. The model excludes that layout.
- `Parser.ReportFromFiles`: its `Addressable(files)` requirement excludes the same layout, every file path having at least four segments. On a shallower layout the source panics.
- Nil pointer dereferences: the source dereferences some optional fields without a nil check. These are `*group.AutoScalingGroupARN` (autoscalinggroup.go:78, 82), `*cluster.ResourcesVpcConfig.VpcId` (cleaner.go:31, also when `ResourcesVpcConfig` itself is nil) and `*loadBalancer.LoadBalancerName` (loadbalancerv2.go:37). The source panics when one of them is nil. The model makes the ARN and the VPC id plain values and leaves the log line out, so these panics are not modelled. Reason: a panic ends the whole program, and the model's results have no case for it.
- `AwsCleaner.DeleteResources`: it requires every placed cluster's key in the cache, as `InitClientsMap` leaves it when it succeeds. With a missing key the source would dereference a nil client.

## Findings

| source | as written | input that shows it | evidently intended | confidence | as-written member | corrected member |
|---|---|---|---|---|---|---|
| pkg/aws/autoscalinggroup.go:117-130 | `input` is rebuilt at the top of every pass, so the `NextToken` set at the end of a pass is thrown away | a group listing served in two pages: every request asks for the first page again, and the loop never ends | send the next token, so the second request fetches the second page | not executed | AwsAutoScalingGroup.DescribeAsWrittenNeverEnds | AwsAutoScalingGroup.DescribeAutoScalingGroups |
| pkg/aws/nodegroups.go:15-24 | the final `return err` returns the last delete's error, even when it was the not-found the loop skipped | a cluster with one listed node group that is already gone: the delete answers not-found, and the not-found is returned | a node group already gone counts as deleted, and the loop returns nil | not executed | AwsNodegroups.LastNotFoundReported | AwsNodegroups.DeleteClusterNodeGroups |
