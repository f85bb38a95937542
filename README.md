# grapes fleet orchestration, modelled in Dafny

grapes deploys a fleet of containerised services on AWS from YAML configuration files. One
fleet is a set of resources:

- an ECS cluster;
- a task-definition family, whose newest ACTIVE revision is the one that runs;
- an ECS service;
- a load balancer with a target group and listeners;
- an EC2 auto-scaling group with its launch configuration;
- application auto-scaling of the service's task count;
- optionally, an SQS queue.

The project models the scripts that create, upgrade and destroy these resources:

- `create_or_update_cluster`, `upgrade_cluster` and `destroy_cluster`;
- the AWS clients they drive (ECS, ELB, auto scaling, application auto scaling, SQS, EC2);
- the configuration getters that name every resource;
- the run options;
- the YAML preprocessing of `import_file:` lines;
- the `!AwsCustomFunction` tag, with the custom functions it calls.

**Provider.** AWS is not part of the repository. It is modelled as one object, `Provider.Cloud`,
with three parts:

- `st`: the resources the orchestrator creates and reads back, one record per service.
  The ECS record holds the ACTIVE revisions (newest first) and the INACTIVE ones, the next
  revision number, the service and the cluster.
- `obs`: finite queues of the answers that change behind the orchestrator's back. These are
  running and desired task counts, target health, lingering auto-scaling groups, service
  statuses, drain states, and pages of tasks, instances and reservations.
- `trace`: every provider call, in order.

A wait loop of the source polls until a condition holds. In the model it consumes `obs` and
states where it stopped. When the queue runs out first, the wait ends with `Exhausted`, which
stands for "still polling". Provider calls on a missing resource raise `NotFound`; creates
succeed.

**Configuration.** A configuration is the loaded dictionary (`map<string, Value>`). Every getter
returns a `Result` whose failure is the KeyError or TypeError the Python getter raises.
The clients work on `Descriptor.Fleet`, a record of every getter's result. `Descriptor.Resolve`
builds it once, starting with the component names `log_component_names` evaluates.

**Structure.** The clients are classes over the shared `Cloud`, with `modifies` clauses. Their
methods state the new provider state and the calls they made. The pure parts are functions
with lemmas about them: the names, requests, parsing and the text the custom functions build.

## Model

| member | source | states |
|---|---|---|
| ServiceConfig.NewConfig | scripts/service_config.py:24-35 | The configuration is accepted exactly when ecs_cluster_name, region and prefix are all present; otherwise the KeyError names the first missing one in that order |
| ServiceConfig.LStrip | scripts/service_config.py:72 | The result is a suffix of the input that does not start with the stripped character, and only that character was removed |
| ServiceConfig.RStrip | scripts/service_config.py:72 | The result is a prefix of the input that does not end with the stripped character, and only that character was removed |
| ServiceConfig.CreateNameWithSeparator | scripts/service_config.py:65-73 | Neither end of the name is a hyphen |
| ServiceConfig.CreateNameWithSeparatorTrims | scripts/service_config.py:69-72 | The name is a slice of the hyphen-joined parts, and everything cut off on either side of it is hyphens |
| ServiceConfig.CreateName | scripts/service_config.py:75-80 | The name is the parts concatenated with no separator: their join with the empty separator |
| ServiceConfig.NameFromConfiguredList | scripts/service_config.py:65-73 | A configured list of strings names the hyphen-joined, stripped form of those strings |
| ServiceConfig.NameGettersJoinConfiguredList | scripts/service_config.py:83-132 | The cluster, service, load balancer, target group and EC2 names are the hyphen-joined, stripped form of their configured top-level lists |
| ServiceConfig.NestedNameGettersJoinConfiguredList | scripts/service_config.py:112-129 | The group, launch configuration, alarm name and alarm action are the hyphen-joined, stripped form of their configured nested lists |
| ServiceConfig.TaskDefinitionNameJoinsConfiguredList | scripts/service_config.py:216-221 | The task-definition name is the hyphen-joined, stripped form of the container definition's name list |
| ServiceConfig.CreateNameKeepsInteriorHyphens | scripts/service_config.py:69-73 | Empty leading and trailing parts vanish but an empty interior part leaves a double hyphen: ["", "web", "", "prod", ""] names "web--prod" |
| ServiceConfig.CreateNameOfCleanJoin | scripts/service_config.py:65-73 | When the join neither starts nor ends with a hyphen, the name is the join itself |
| ServiceConfig.TruthySuffixed | scripts/service_config.py:40-57 | get_prefix_str and get_service_type_str give the value followed by one hyphen when it is truthy, "" when it is falsy, and raise when the key is missing |
| ServiceConfig.DefaultingGetters | scripts/service_config.py:134-245 | Each of the ten getters with a default returns the configured value when its key is present and its default otherwise (t2.micro, None for sqs, 5, 30, [] for listeners, bridge, True for public IPs, None for stickiness, drain and idle timeouts); none of them fails |
| ServiceConfig.CpuThresholdAsWritten | scripts/service_config.py:236-240 | The threshold check as the operator precedence evaluates it: a value above 100 becomes 70, every other value is returned unchanged |
| ServiceConfig.CpuThreshold | scripts/service_config.py:236-240 | The intended check: the result always lies in 1..100; a value already in that range is kept and every other value becomes 70 |
| ServiceConfig.CpuThresholdZeroPassesThrough | scripts/service_config.py:238-239 | A threshold of 0 comes out of the written check as 0, where the intended check gives 70 |
| ServiceConfig.CpuThresholdVersionsAgreeAboveZero | scripts/service_config.py:238-239 | The written and the intended checks give the same result exactly for the positive thresholds |
| ServiceConfig.GetAutoScaleCpuThreshold | scripts/service_config.py:236-240 | Built on the corrected check CpuThreshold (see Findings). A missing auto_scale_group.cpu_threshold fails with the lookup's error. An int in 1..100 is returned unchanged; every other int becomes 70 |
| ServiceConfig.CpuThresholdGetterAsSourceAboveZero | scripts/service_config.py:236-240 | For every positive configured threshold the getter returns what the source's check returns |
| ServiceConfig.GetAutoScaleParams | scripts/service_config.py:247-254 | Succeeds exactly when all six auto_scale_group entries are present (and min, max, desired are ints), each result being the configured value. Otherwise the error is that of the first missing entry in the order min, max, desired, availability_zones, vpc_zone_identifier, default_cooldown |
| Descriptor.Resolve | scripts/service_config.py:175-190 | The fleet descriptor exists exactly when the nine component names that log_component_names evaluates can all be built; each of its fields equals its getter's result or the configured value. Otherwise the error is the first failing name's, in the order get_named_components builds them |
| Options.SettingsOf | scripts/options.py:16-20 | Each run option is the command-line attribute when present; otherwise dry_run, destroy and normalize_tasks default to False and wait_for_healthy_targets to True |
| Options.Registry.constructor | scripts/options.py:2 | Before create_options runs there are no options |
| Options.Registry.CreateOptions | scripts/options.py:5-7 | After create_options the current options are those read from the given arguments, whatever was there before |
| Text.IntToString | scripts/aws_client_elb.py:60 | str() of an int: a leading minus exactly for negative numbers, followed by the digits of the magnitude |
| Text.NatToStringRoundTrip | scripts/aws_client_elb.py:246 | str() of a natural number reads back as that number, so two ports never share a string |
| Text.BoolToLowerString | scripts/aws_client_elb.py:269 | str(b).lower() is "true" for True and "false" for False |
| Text.Lower | scripts/aws_client_elb.py:269 | lower() keeps the length, maps upper-case ASCII letters to lower case and leaves every other character |
| Text.Words | scripts/arg_parser.py:43 | split() yields non-empty words with no whitespace in them |
| Text.WordsAcrossSpace | scripts/arg_parser.py:43 | Splitting text that contains a space gives the words before the space followed by the words after it |
| Text.IntToStringNoSpace | aws_custom_functions.py:33 | str() of a port number contains no whitespace, so it stays within one word of a command line |
| Wrappers.Swallow | scripts/aws_client_app_auto_scaling.py:41-43 | A bare except turns every raised error into a normal return; a run that is still waiting is passed on unchanged |
| Preprocess.IncludedFile | scripts/arg_parser.py:43-44 | The included file is the second word of the line; a line with fewer words is an IndexError |
| Preprocess.ReadLines | scripts/arg_parser.py:45 | Opening a file yields its lines when it exists and fails when it does not |
| Preprocess.ExpandLine | scripts/arg_parser.py:41-55 | A line that does not start with the prefix is written as it is; an import writes a newline, the Begin banner, a newline, the file's lines, a newline, the End banner and a newline |
| Preprocess.PreprocessLines | scripts/arg_parser.py:40-55 | The loop writes exactly Expand of the input: each line's writes follow the previous line's, and the first import that cannot be read ends the run with its error |
| Preprocess.ExpandStopsAt | scripts/arg_parser.py:40-55 | When a line cannot be expanded and all lines before it can, the whole run fails with that line's error |
| Preprocess.ExpandOne | scripts/arg_parser.py:40-55 | Expanding a single line gives that line's own expansion |
| Preprocess.ExpandAppend | scripts/arg_parser.py:40-55 | The output for a + b is the output for a followed by the output for b, and an error in a (or else in b) is the error of the whole |
| Preprocess.ExpandWithoutImports | scripts/arg_parser.py:54-55 | A document without import lines is copied unchanged and in order |
| Preprocess.IndentedImportIsCopied | scripts/arg_parser.py:41 | An import line indented by a space is not an import: it is copied as it is |
| Preprocess.IncludedFileOfImportLine | scripts/arg_parser.py:42-44 | "import_file: <name>" followed by spaces or a newline names exactly <name> when the name has no whitespace |
| Preprocess.ImportsAreNotNested | scripts/arg_parser.py:49-50 | An included file that itself holds an import line is copied with that line left in place: inclusion is one level deep |
| Preprocess.Basename | scripts/arg_parser.py:37 | The base name contains no '/' and is a suffix of the path, so it is what follows the last '/' |
| Preprocess.OutfileSuffix | scripts/arg_parser.py:37 | The output file's suffix is a hyphen followed by the input's base name |
| Preprocess.OutfileSuffixOfPath | scripts/arg_parser.py:37 | A file name with no '/' in a directory gives the suffix "-" plus that name, whatever the directory |
| Preprocess.BasenameOfPath | scripts/arg_parser.py:37 | The base name of dir + "/" + name is name whenever name has no '/' |
| AppAutoScaling.ResourceId | scripts/aws_client_app_auto_scaling.py:26-27 | The resource id is "service/", then the cluster name, a '/' and the service name |
| AppAutoScaling.ResourceIdRoundTrip | scripts/aws_client_app_auto_scaling.py:26-27 | When the cluster name has no '/', the resource id parses back to exactly that cluster and service |
| AppAutoScaling.Registered | scripts/aws_client_app_auto_scaling.py:29-43 | Registering a scalable target sets its bounds when the service exists, and otherwise changes nothing |
| AppAutoScaling.PolicyPut | scripts/aws_client_app_auto_scaling.py:63-83 | The policy step sets the policy's target to the configured CPU threshold exactly when the threshold can be read and a scalable target exists |
| AppAutoScaling.SetEcsScalingParameters | scripts/aws_client_app_auto_scaling.py:29-43 | The call registers the service's resource id with the given min and max; the resulting state is Registered, and an error is logged, not raised |
| AppAutoScaling.RegisterEcsTarget | scripts/aws_client_app_auto_scaling.py:45-47 | Registers the configured min and max; when they cannot be read, nothing happens and the error is raised |
| AppAutoScaling.DeregisterEcsTarget | scripts/aws_client_app_auto_scaling.py:49-61 | The scalable target is gone afterwards and the deregister call is made; errors are not raised |
| AppAutoScaling.PolicyCalls | scripts/aws_client_app_auto_scaling.py:63-83 | With a readable threshold, the one put_scaling_policy call names the auto-scaling group, targets that threshold and has a scale-out cooldown of 200; otherwise there is no call |
| AppAutoScaling.PutEcsScalingPolicy | scripts/aws_client_app_auto_scaling.py:63-83 | Makes exactly PolicyCalls and leaves the state PolicyPut; a failure inside the handler is logged |
| AppAutoScaling.DeleteEcsScalingPolicy | scripts/aws_client_app_auto_scaling.py:85-98 | The policy is gone afterwards; errors are not raised |
| AppAutoScaling.CreateEcsAutoscaling | scripts/aws_client_app_auto_scaling.py:100-102 | The configured bounds are registered before the policy is put; with a service, the scalable target has exactly those bounds |
| AppAutoScaling.UpdateEcsAutoscalingParameters | scripts/aws_client_app_auto_scaling.py:104-106 | The given bounds are registered, then the policy is put; with a service, the scalable target has exactly those bounds |
| AppAutoScaling.DestroyEcsAutoscaling | scripts/aws_client_app_auto_scaling.py:108-110 | The policy is deleted before the target is deregistered, and neither remains |
| AutoScaling.EffectivePolicy | scripts/aws_client_auto_scaling.py:214-234 | An empty termination policy means "Default"; any other policy is passed on as given |
| AutoScaling.UserData | scripts/aws_client_auto_scaling.py:128-129 | The user data is the bash script that appends ECS_CLUSTER=<cluster> to /etc/ecs/ecs.config |
| AutoScaling.UserDataRoundTrip | scripts/aws_client_auto_scaling.py:128-129 | The cluster can be read back from the user data: instances join exactly the cluster it was built for |
| AutoScaling.UserDataInjective | scripts/aws_client_auto_scaling.py:128-129 | Different clusters get different user data |
| AutoScaling.LaunchConfigRequest | scripts/aws_client_auto_scaling.py:120-130 | The request exists exactly when the AMI, SSH key, security groups and IAM role are configured. It carries those, the instance type and public-IP flag (defaults applied), and the user data for the fleet's cluster |
| AutoScaling.GetOrCreateLaunchConfiguration | scripts/aws_client_auto_scaling.py:109-132 | An existing launch configuration is kept unchanged with one describe call; otherwise it is created from LaunchConfigRequest after the describe |
| AutoScaling.DeleteLaunchConfiguration | scripts/aws_client_auto_scaling.py:100-107 | The launch configuration is gone afterwards and no error is raised |
| AutoScaling.CapacitySet | scripts/aws_client_auto_scaling.py:214-234 | After a capacity update the service has the new desired count, its task definition changes only when a deployment is forced, and the group has the new sizing and effective policy |
| AutoScaling.UpdateServiceAutoScaleCount | scripts/aws_client_auto_scaling.py:134-144 | Only the service's desired count changes, to the given value; a missing service raises |
| AutoScaling.UpdateCapacityTo | scripts/aws_client_auto_scaling.py:214-234 | The service's count is updated before the group, and the group gets the given sizing, configured zones, subnets and cooldown, and the effective policy. A missing service or group raises |
| AutoScaling.UpdateCapacityAndTaskDefinition | scripts/aws_client_auto_scaling.py:179-212 | A forced deployment moves the service to the family's latest revision with the new count, then the group is resized without touching its cooldown |
| AutoScaling.SetCapacityToZero | scripts/aws_client_auto_scaling.py:236-240 | The service and the group are at zero with the Default policy |
| AutoScaling.UpdateCapacity | scripts/aws_client_auto_scaling.py:242-247 | The configured sizing is applied with the Default policy; unreadable sizing raises before any call |
| AutoScaling.UpdateTag | scripts/aws_client_auto_scaling.py:28-41 | The group's Name tag is the cluster name, propagated at launch |
| AutoScaling.GetOrCreateAutoScalingGroup | scripts/aws_client_auto_scaling.py:68-98 | The target group comes first. Afterwards the group exists with the configured sizing, the Default policy and the cluster's Name tag, whether it was resized or created and attached to the target group |
| AutoScaling.DeleteAutoScalingGroup | scripts/aws_client_auto_scaling.py:43-66 | The group is deleted and describe is polled until it reports no group. The wait stops at the first empty answer, or ends Exhausted when none comes; errors are logged |
| AutoScaling.UpdateAutoScalePolicy | scripts/aws_client_auto_scaling.py:146-165 | The group's CPU target-tracking policy targets the threshold GetAutoScaleCpuThreshold reads (the corrected check, so in 1..100); an unreadable threshold raises before the call |
| AutoScale.GroupWithPolicy | scripts/auto_scale.py:26-27 | The scaling policy is put only once the group exists, and it succeeds only on an existing group |
| AutoScale.GroupPolicyAndAppScaling | scripts/auto_scale.py:26-29 | Group, policy, then application auto scaling; the group ends at the configured sizing and a service's scalable target at the configured bounds |
| AutoScale.CreateAutoScalingAndLaunchConfiguration | scripts/auto_scale.py:23-29 | Launch configuration first, then group, policy and application auto scaling. A step that raises ends the procedure, and on success the group has the configured sizing |
| AutoScale.DeleteAutoScalingAndLaunchConfiguration | scripts/auto_scale.py:32-37 | Application auto scaling is removed first, then the group, then the launch configuration; it stops early only when the deletion wait's answers run out. The ECS state and the load balancer are untouched |
| AutoScale.TeardownTraceShaped | scripts/auto_scale.py:32-37 | Whatever the number of polls, the teardown's calls are the policy, target and group deletions, then only group polls, then the launch configuration deletion last |
| Sqs.QueueName | scripts/aws_client_sqs.py:32 | The queue name is the hyphen-joined configured sqs value, for a string or a list of strings; any other value is a TypeError in the model (a mapping too, see Left out) |
| Sqs.QueueNameOfParts | scripts/aws_client_sqs.py:32 | A queue configured as a list of strings is named by their hyphen join with the hyphens at both ends stripped |
| Sqs.QueueNameOfCleanParts | scripts/aws_client_sqs.py:32 | When the hyphen join of the parts neither starts nor ends with a hyphen, the queue name is exactly that join |
| Sqs.GrantFor | scripts/aws_client_sqs.py:78-84 | The permission is labelled with the queue name, names the configured accounts and grants every action |
| Sqs.Granted | scripts/aws_client_sqs.py:78-84 | Granting adds the permission to an existing queue and changes nothing without one |
| Sqs.SetSqsPermissions | scripts/aws_client_sqs.py:56-87 | add_permission is called with the queue URL, the queue name as label, the accounts and '*'; missing accounts raise before the call |
| Sqs.GrantOn | scripts/aws_client_sqs.py:79-84 | With the accounts configured, exactly one add_permission call adds the permission to the queue; without them nothing is called and nothing changes |
| Sqs.CreateSqs | scripts/aws_client_sqs.py:31-38 | The queue is created under its name, then the permission is granted on the URL the create returned; with no accounts configured the queue exists without it |
| Sqs.CreateNamedSqs | scripts/aws_client_sqs.py:34-38 | Afterwards a queue of the given name exists; its newest permission is the grant exactly when the accounts are configured; the load balancer and ECS state are untouched |
| Sqs.MaybeCreateSqs | scripts/sqs.py:26-31 | The queue is created exactly when sqs is configured; otherwise no call is made and nothing changes |
| Sqs.DeleteSqs | scripts/aws_client_sqs.py:40-54 | Afterwards no queue of that name exists. A name that cannot be built raises; every provider error is caught |
| Sqs.DeleteNamedSqs | scripts/aws_client_sqs.py:43-54 | The URL lookup is always made; the delete call follows only when a queue of that name exists, and a failed lookup changes nothing |
| Ec2.RunningFilters | scripts/aws_client_ec2.py:63-75 | The filters select instances in state running whose Name tag is the fleet's EC2 name |
| Ec2.InstanceIdsComplete | scripts/aws_client_ec2.py:76-82 | There is one id per instance, reservation by reservation, and an id is listed exactly when some reservation holds an instance with it |
| Ec2.CollectIds | scripts/aws_client_ec2.py:76-82 | The nested loops return InstanceIds of the reservations |
| Ec2.GetRunningInstanceIds | scripts/aws_client_ec2.py:62-82 | One describe call with RunningFilters, returning the ids of every instance of every reservation it answered |
| Ec2.Field | scripts/aws_client_ec2.py:92-95 | Reading a key yields its value when the instance has it and a KeyError naming the key otherwise |
| Ec2.FirstInstance | scripts/aws_client_ec2.py:90-97 | The instance read is the first instance of the first reservation; none when the first reservation is empty or there is none |
| Ec2.AddressesOf | scripts/aws_client_ec2.py:84-98 | Corrected reading: each of the public DNS name, public IP, private DNS name and private IP comes from its own field; all "" without an instance |
| Ec2.AddressesAsWrittenSwapped | scripts/aws_client_ec2.py:94-95 | The written and corrected versions fail alike and agree on the private names. As written, the public DNS slot holds the public IP and the public IP slot is always "" |
| Ec2.AddressesAsWrittenLosesPublicDns | scripts/aws_client_ec2.py:94-95 | For an instance with DNS name ec2-host and address 1.2.3.4, the written code reports 1.2.3.4 as the DNS name and "" as the address |
| Ec2.GetIpDnsInfo | scripts/aws_client_ec2.py:84-98 | One describe call for the id, returning the corrected AddressesOf its answer (see Findings; the source's own result is AddressesAsWritten) |
| Ecs.FirstMatchingActiveService | scripts/aws_client_ecs.py:18-26 | A service is found exactly when the first described service is ACTIVE, and it is that service |
| Ecs.AnyInactive | scripts/aws_client_ecs.py:378-390 | The service counts as inactive exactly when some described status is INACTIVE |
| Ecs.TargetIdsEach | scripts/aws_client_ecs.py:165-169 | The i-th listed id is the id of the i-th health description |
| Ecs.TargetMapKeys | scripts/aws_client_ecs.py:165-171 | The map's keys are exactly the described target ids |
| Ecs.TargetMapLast | scripts/aws_client_ecs.py:170 | An id maps to its last description in the response |
| Ecs.HealthyCount | scripts/aws_client_ecs.py:273-278 | The healthy count never exceeds the number of targets; it equals it when all are healthy and is 0 when none is |
| Ecs.ScaleOutSize | scripts/aws_client_ecs.py:247 | The scale-out size is at least 3 and at least twice the original desired count, and it is one of those two |
| Ecs.PagedCallsCover | scripts/aws_client_ecs.py:56-74 | Every item of every page listed gets its per-item call |
| Ecs.Older | scripts/aws_client_ecs.py:350-351 | The revisions to deregister are all ACTIVE revisions except the newest, in order |
| Ecs.Pruned | scripts/aws_client_ecs.py:342-357 | At most one revision stays ACTIVE; what stays followed by the older ones is the old ACTIVE list; the older ones are appended to INACTIVE; nothing else changes |
| Ecs.DeregisterCalls | scripts/aws_client_ecs.py:87-90 | One deregister_task_definition call per revision, in order |
| Ecs.NamedContainerShape | scripts/aws_client_ecs.py:315-326 | The container definition succeeds exactly when it is a mapping whose name and image can be joined. The name is the hyphen-joined stripped name, the image the concatenated image, every other entry kept |
| Ecs.ContainerNamedAfterFamily | scripts/aws_client_ecs.py:319-323 | The registered container's name is exactly the task-definition family name the configuration gives |
| Ecs.ContainerPort | scripts/aws_client_ecs.py:374 | The port is the containerPort of the first port mapping; missing or malformed mappings are an error |
| Ecs.InactiveTaskArnsMembers | scripts/aws_client_ecs.py:202-204 | An ARN is reported exactly when some running task with that ARN is on an INACTIVE revision |
| Ecs.NoInactiveNoTasks | scripts/aws_client_ecs.py:188-189 | With no INACTIVE revision no task is reported |
| Ecs.EcsCluster.constructor | scripts/aws_client_ecs.py:33-35 | A new client has no cluster and no registered task definition |
| Ecs.EcsCluster.CreateCluster | scripts/aws_client_ecs.py:37-45 | The cluster is active afterwards and the client keeps its status; one create_cluster call |
| Ecs.EcsCluster.StopEach | scripts/aws_client_ecs.py:64-70 | One stop_task call per listed task, in order |
| Ecs.EcsCluster.StopTasks | scripts/aws_client_ecs.py:47-77 | Pages are listed until one carries no nextToken, and every task of every listed page is stopped; the provider state is untouched |
| Ecs.EcsCluster.StopPage | scripts/aws_client_ecs.py:59-74 | One round lists the next page and stops each of its tasks in order, reporting whether a nextToken follows; with no page left it fails and changes nothing |
| Ecs.EcsCluster.DeregisterEachInstance | scripts/aws_client_ecs.py:103-107 | One deregister call per listed container instance, in order |
| Ecs.EcsCluster.DeregisterContainerInstance | scripts/aws_client_ecs.py:94-112 | Instances are listed and deregistered until a response carries no nextToken; errors are logged and dropped |
| Ecs.EcsCluster.DeleteCluster | scripts/aws_client_ecs.py:114-123 | The cluster is gone afterwards and no error is raised |
| Ecs.EcsCluster.DeregisterEach | scripts/aws_client_ecs.py:352-355 | Each revision after the kept ones becomes INACTIVE in order and the kept ones stay ACTIVE |
| Ecs.EcsCluster.DeregisterTaskDefinition | scripts/aws_client_ecs.py:79-92 | Every ACTIVE revision of the family becomes INACTIVE, newest first; without a family name the error is raised |
| Ecs.EcsCluster.DeleteAllButLatestTaskd | scripts/aws_client_ecs.py:342-357 | The provider state becomes Pruned of the old one, with one listing call and then DeregisterCalls of the older revisions |
| Ecs.EcsCluster.GetRunningTargets | scripts/aws_client_ecs.py:158-171 | The result is the target ids in order and the id to last-description map of one describe_target_health answer |
| Ecs.EcsCluster.GetInactiveRunningTasks | scripts/aws_client_ecs.py:173-205 | The ARNs of the running tasks on INACTIVE revisions, in order; tasks are listed only when INACTIVE revisions exist, and nothing is stopped |
| Ecs.FilterInactive | scripts/aws_client_ecs.py:202-204 | The ARNs of exactly the described tasks whose revision is INACTIVE, in their order |
| Ecs.EcsCluster.CreateTaskd | scripts/aws_client_ecs.py:315-340 | A new revision is registered with the named container and becomes the family's newest ACTIVE revision; the client keeps it |
| Ecs.EcsCluster.WaitTaskCount | scripts/aws_client_ecs.py:255-265 | The task-count wait stops on the first answer satisfying its exit condition, or ends Exhausted when none does |
| Ecs.EcsCluster.WaitTargets | scripts/aws_client_ecs.py:272-285 | The target wait stops on the first health answer satisfying its exit condition, or ends Exhausted when none does |
| Ecs.EcsCluster.GetOrCreateLb | scripts/aws_client_ecs.py:359-376 | The load balancer forwards to the target group, and the binding carries that group's ARN and the registered container's name and first port |
| Ecs.EcsCluster.CreateService | scripts/aws_client_ecs.py:437-470 | The service is ACTIVE on the registered revision. An existing service keeps its desired count and is updated; a new one is created with the configured desired count and ECS role |
| Ecs.EcsCluster.DeleteService | scripts/aws_client_ecs.py:392-421 | The load balancer and target group are deleted before anything else. Then capacity is zeroed and the service deleted; when blocking, the wait runs until INACTIVE. Errors of that block are dropped |
| Ecs.EcsCluster.ZeroAndDelete | scripts/aws_client_ecs.py:403-421 | Capacity goes to zero before the service is deleted, with no load-balancer call; a raised error ends the block and is dropped |
| Ecs.EcsCluster.WaitInactive | scripts/aws_client_ecs.py:414-418 | The wait stops on the first status list with an INACTIVE entry, or ends Exhausted when none has one |
| Ecs.EcsCluster.ResizeTo | scripts/aws_client_ecs.py:292-293 | The service runs the given count on the same revision, the group has the given sizing and effective policy, and nothing is deregistered |
| Ecs.EcsCluster.LocateTargets | scripts/aws_client_ecs.py:210-212 | The target group is the first one behind the fleet's load balancer, and its current targets are read once |
| Ecs.EcsCluster.PrepareUpgrade | scripts/aws_client_ecs.py:207-222 | The original sizing is read, then every ACTIVE revision but the newest is pruned; nothing is resized |
| Ecs.PruneCallsResizeNothing | scripts/aws_client_ecs.py:207-222 | Listing the ACTIVE revisions and deregistering some of them never resizes the service, the group or the scaling bounds |
| Ecs.EcsCluster.NormalizeTasks | scripts/aws_client_ecs.py:226-244 | With normalize_tasks the group returns to the original sizing with OldestInstance and the wait stops at the first count with running equal to desired. Without it nothing is called, no answer is read and nothing changes |
| Ecs.EcsCluster.Grow | scripts/aws_client_ecs.py:246-254 | The first call sets the scaling bounds to [n, n]; then the latest revision is deployed with n tasks and the group at n. Target health is never polled |
| Ecs.EcsCluster.ScaleOut | scripts/aws_client_ecs.py:246-285 | The fleet grows to ScaleOutSize of the original desired count; the wait stops at the first count with running >= desired. With wait_for_healthy_targets it then stops at the first answer with that many healthy targets. Without it no health poll is made and no health answer is read |
| Ecs.EcsCluster.Restore | scripts/aws_client_ecs.py:311-313 | The scaling bounds return to the original min and max, then the service and group return to the original sizing with the Default policy |
| Ecs.EcsCluster.ResizeOldest | scripts/aws_client_ecs.py:287-293 | The tasks on INACTIVE revisions are reported, then the fleet resizes to the original sizing with OldestInstance |
| Ecs.EcsCluster.WaitHealthy | scripts/aws_client_ecs.py:268-285 | With wait_for_healthy_targets it stops at the first answer with at least n healthy targets. Without it nothing is called and no answer is read |
| Ecs.EcsCluster.Shrink | scripts/aws_client_ecs.py:287-309 | After ResizeOldest, the wait stops at the first answer with at most the original desired count of targets, consuming exactly the answers it read |
| Ecs.EcsCluster.ScaleIn | scripts/aws_client_ecs.py:287-313 | Shrink, then Restore: the fleet ends at the original sizing with the Default policy, and the target wait stopped as in Shrink |
| Ecs.EcsCluster.ScaleOutAndIn | scripts/aws_client_ecs.py:246-313 | ScaleOut, then ScaleIn: the fleet ends on the latest revision at the original sizing with Default. The first call sets the bounds to [n, n], and the waits stopped as ScaleWaitsObserved says |
| Ecs.EcsCluster.UpgradeSteps | scripts/aws_client_ecs.py:224-313 | The optional normalisation, then ScaleOutAndIn. Without normalize_tasks the scale-out's first call is the first call made. Every wait stopped at its first satisfying answer, as UpgradeWaitsObserved says |
| Ecs.EcsCluster.RollingUpgradeService | scripts/aws_client_ecs.py:207-313 | On success the service runs the latest revision at the original desired count, and group and bounds are back at the original sizing with Default. Only the newest revision stays ACTIVE; nothing is resized before pruning or deregistered after it. Without options the upgrade fails. Without normalize_tasks the scale-out's first call directly follows the pruning. Each wait stopped at its first satisfying answer: the health wait only with wait_for_healthy_targets, the target waits reading after the answer the target lookup consumed |
| Elb.FirstLbDetails | scripts/aws_client_elb.py:24-40 | Details are found exactly when the lookup succeeded with at least one load balancer: the first one's ARN and DNS name; otherwise (None, None) |
| Elb.FirstMatchingTargetGroup | scripts/aws_client_elb.py:42-50 | A target group is found exactly when there is one, and it is the first |
| Elb.LbAttributes | scripts/aws_client_elb.py:52-61 | No attribute without an idle timeout; otherwise the single idle_timeout.timeout_seconds attribute with the timeout's text |
| Elb.LbRequest | scripts/aws_client_elb.py:70-87 | The request has Name, Type, Subnets and Scheme from the configuration, plus SecurityGroups exactly when the type is not network; missing type, subnets or groups are errors |
| Elb.ModifyTgRequest | scripts/aws_client_elb.py:219-236 | Modifying names the group's ARN, the interval and healthy threshold. TCP adds the unhealthy threshold and any other protocol the health-check path, never both |
| Elb.CreateTgRequest | scripts/aws_client_elb.py:237-263 | The request carries name, protocol, port and VPC; the health check uses the traffic protocol and the port as a string. TCP adds the unhealthy threshold, other protocols the path |
| Elb.TgAttributes | scripts/aws_client_elb.py:266-291 | Stickiness adds exactly three attributes (enabled, lb_cookie, 120 seconds), a drain timeout the deregistration delay; nothing else |
| Elb.StickinessFlagText | scripts/aws_client_elb.py:268-274 | A configured stickiness flag is sent as "true" or "false" |
| Elb.Certificates | scripts/aws_client_elb.py:177-183 | No certificate when cert_arn is None; otherwise exactly that one |
| Elb.ParseAltListener | scripts/aws_client_elb.py:175-188 | A listener entry is read exactly when it is a mapping with cert_arn, protocol and port, and yields those three |
| Elb.AltListenerEntries | scripts/aws_client_elb.py:172-175 | None gives no entries and a list its items |
| Elb.ParseAltListenersEach | scripts/aws_client_elb.py:172-195 | Reading all entries succeeds exactly when each one reads, and then yields each entry's reading at its position |
| Elb.ParseFailsFromPrefix | scripts/aws_client_elb.py:172-195 | Once some prefix of the entries fails to read, so does the whole list |
| Elb.AltListenerRecordsEach | scripts/aws_client_elb.py:184-195 | Each alternate entry becomes one listener at its position, forwarding to the target group with the entry's protocol, port and certificates |
| Elb.ElbClient.constructor | scripts/aws_client_elb.py:15-22 | A new client caches no load balancer, target group or listener ARN |
| Elb.ElbClient.GetLbDetails | scripts/aws_client_elb.py:24-40 | The ARN and DNS name of the configured load balancer, or (None, None) when there is none; nothing changes |
| Elb.ElbClient.GetFirstMatchingTargetGroup | scripts/aws_client_elb.py:42-50 | The first target group of the load balancer, or None; a missing ARN is rejected |
| Elb.ElbClient.UpdateLoadBalancerSettings | scripts/aws_client_elb.py:52-68 | The idle timeout is set exactly when one is configured |
| Elb.ElbClient.CreateLoadBalancer | scripts/aws_client_elb.py:70-98 | The load balancer exists afterwards with the name from LbRequest, and its ARN is cached |
| Elb.ElbClient.CreateOrUpdateTargetGroup | scripts/aws_client_elb.py:207-304 | The configured target group exists afterwards, modified when it existed and created otherwise; its attributes are set when there are any |
| Elb.ElbClient.CreateAltListeners | scripts/aws_client_elb.py:172-195 | One listener per configured entry in order; an entry missing a key stops the loop, keeping the listeners before it |
| Elb.ElbClient.CreateLoadBalancerListeners | scripts/aws_client_elb.py:152-205 | The main listener and one per alternate entry, all forwarding to the target group; the cached listener ARN holds the load balancer's ARN |
| Elb.ElbClient.GetOrCreateLoadBalancer | scripts/aws_client_elb.py:143-147 | The configured load balancer's ARN, creating it when the lookup finds none |
| Elb.ElbClient.CreateLbAndFriends | scripts/aws_client_elb.py:138-150 | Afterwards the load balancer exists and forwards to the configured target group |
| Elb.ElbClient.DeleteLbAndFriends | scripts/aws_client_elb.py:100-136 | The load balancer and its listeners are gone when it existed, then the configured target group; a missing target group is only logged |
| Elb.ElbClient.GetLbAndTg | scripts/aws_client_elb.py:312-316 | The load balancer's ARN and its first target group's ARN; no target group is a TypeError |
| Elb.ElbClient.RemoveInstancesAsWritten | scripts/aws_client_elb.py:318-351 | As written, the first 'draining' answer ends the call with NameError for the missing time import. On success the deregistrations made are exactly the instances, in order, from the first target group |
| Elb.ElbClient.DrainEachAsWritten | scripts/aws_client_elb.py:320-351 | The as-written loop: each instance deregistered in order; a 'draining' answer is the NameError |
| Elb.ElbClient.RemoveInstances | scripts/aws_client_elb.py:318-357 | Each instance is deregistered and polled until it stops draining: exactly one "done" answer per instance, the last answer consumed being one. On success the deregistrations made are exactly the instances, in order, from the load balancer's first target group |
| Elb.ElbClient.DrainEach | scripts/aws_client_elb.py:320-357 | The loop: each instance deregistered from the group in order, each wait ending on a "done" answer |
| Cluster.PrunedKeepsNewest | scripts/cluster.py:42-45 | When the upgrade revision is the newest ACTIVE one, pruning leaves exactly that revision ACTIVE |
| Cluster.ServiceStep | scripts/cluster.py:44 | create_service on a registered revision ends with the call that puts the service on it, and the ACTIVE revisions are untouched |
| Cluster.NewRevisionInService | scripts/cluster.py:42-44 | A new revision is registered and becomes the newest ACTIVE one, and the service is then created or updated onto it |
| Cluster.UpgradeTo | scripts/cluster.py:45 | When the rolling upgrade succeeds, the given revision is the only ACTIVE one and the fleet is at its configured sizing |
| Cluster.QueueStep | scripts/cluster.py:25 | The queue step makes only SQS calls, none without a configured queue, and leaves revisions untouched |
| Cluster.ClusterAndService | scripts/cluster.py:27-30 | The cluster is created, then a revision is registered, then the service calls end on that revision |
| Cluster.ScalingStep | scripts/cluster.py:32 | The auto-scaling calls start with the launch-configuration lookup, and the group ends at the configured sizing |
| Cluster.ServiceAndScaling | scripts/cluster.py:27-32 | On success, Deployed holds: cluster, new revision, service calls ending on that revision, then scaling calls from the launch-configuration lookup, the group at the configured sizing |
| Cluster.CreateOrUpdateCluster | scripts/cluster.py:19-32 | The queue calls (all SQS, none without a queue) come first. On success Deployed follows them: cluster, new revision, service on it, then auto scaling at the configured sizing |
| Cluster.UpgradeCluster | scripts/cluster.py:34-46 | On success the new revision is the only ACTIVE one, and the service runs the latest revision at the configured desired count. The group and bounds are at the configured sizing with Default; without options it fails |
| Cluster.StopAndDeregister | scripts/cluster.py:56-57 | Tasks are stopped page by page, then container instances deregistered page by page; the provider state is unchanged |
| Cluster.RetireRevisions | scripts/cluster.py:59-60 | Every ACTIVE revision becomes INACTIVE and the cluster is gone; only a missing task-definition name raises; the load balancer is untouched |
| Cluster.QueueDeletionStep | scripts/cluster.py:63-66 | The queue is deleted only when asked, starting with its URL lookup; nothing but the queue changes |
| Cluster.TeardownStep | scripts/cluster.py:62-66 | Auto scaling is torn down with calls shaped as TeardownShaped, then the queue is deleted only when asked; the ECS state and the load balancer are untouched |
| Cluster.RetireAndTeardown | scripts/cluster.py:59-66 | Revisions are retired and the cluster deleted, then auto scaling is torn down in TeardownShaped order and the queue deleted when asked; the load balancer is untouched |
| Cluster.ServiceDeletionStep | scripts/cluster.py:58 | The service deletion makes its load balancer calls first and none after them; the fleet's load balancer is gone afterwards and the ACTIVE revisions are untouched |
| Cluster.DestroyCluster | scripts/cluster.py:49-66 | Tasks are stopped, instances deregistered, the service and its load balancer deleted (load balancer calls first, none after), then revisions retired and the cluster deleted, auto scaling removed in TeardownShaped order, and the queue when asked. On success the fleet's load balancer is gone. A raising step ends it |
| CustomFunctions.LoadFleet | scripts/arg_parser.py:61-67 | Loading another fleet's configuration yields its descriptor, or raises when the file cannot be loaded |
| CustomFunctions.AudioVideoLbAddress | aws_custom_functions.py:10-33 | The audio server's load balancer and port, then the video server's. A missing load balancer raises, naming the server, unless the run destroys or is dry; the audio server is checked first |
| CustomFunctions.PortRangeCommandLine | aws_custom_functions.py:35-44 | The port-range command line is the plain command line followed by -min_port=30000 -max_port=65535 |
| CustomFunctions.NginxConfigLocationRoundTrip | aws_custom_functions.py:91-92 | The image tag can be read back from the nginx configuration location built for a bucket |
| CustomFunctions.CommandLineWords | aws_custom_functions.py:54-55 | When no part has whitespace, the command line splits into the env flag, -as=<lb>:<port> and -vs=<lb>:<port> |
| CustomFunctions.PortRangeCommandLineWords | aws_custom_functions.py:42-43 | The port-range command line has the plain one's words followed by exactly the two port arguments |
| CustomFunctions.MissingLbWrittenAsNone | aws_custom_functions.py:17-19 | In a destroy or dry run, a fleet without a load balancer still yields a command line, its address written as None |
| CustomFunctions.NginxGeneration | aws_custom_functions.py:69-89 | The generator gets the template, tag, region, bucket and five configuration files; the upload happens exactly when the run neither destroys nor is dry |
| CustomFunctions.CustomFunctionsMap | aws_custom_functions.py:94-103 | The map has exactly the five function names, each naming its function |
| CustomFunctions.CustomFunctionsMapComplete | aws_custom_functions.py:94-103 | Every custom function is in the map under its own name, so no two share a name |
| CustomFunctions.AwsCustomFunctions.constructor | aws_custom_functions.py:6 | A new object has no environment |
| CustomFunctions.AwsCustomFunctions.SetEnv | aws_custom_functions.py:7-8 | Afterwards the environment is the given configuration |
| CustomFunctions.AwsCustomFunctions.CmdlineEnvFlag | aws_custom_functions.py:43 | The flag is the environment's cmdline_env_flag as text; no environment is an AttributeError and a missing key a KeyError |
| CustomFunctions.AwsCustomFunctions.Invoke | aws_custom_functions.py:35-92 | A call with the wrong number of arguments is a TypeError. Otherwise each function gives what its definition builds, command lines looking up load balancers before reading the flag |
| CustomFunctions.RtcAndMixdownAgree | aws_custom_functions.py:46-67 | The RTC and mixdown command lines are equal for every input |
| CustomTag.CallOf | scripts/yaml_with_custom_extn.py:22-32 | A non-empty sequence node gives its first item as the name and the rest as arguments, in order; any other node gives no name and no arguments |
| CustomTag.Resolve | scripts/yaml_with_custom_extn.py:34-42 | A name resolves exactly when it is mapped, to its mapped function. An unmapped name raises, naming it; no name is a TypeError |
| CustomTag.BoundFunctionsMap | aws_custom_functions.py:94-103 | The bound map has exactly the custom-function names, each bound to that method of the given object |
| CustomTag.TagRegistry.constructor | scripts/yaml_with_custom_extn.py:19-20 | Initially there is no configuration and the function map is empty |
| CustomTag.TagRegistry.RegisterMapping | scripts/yaml_with_custom_extn.py:44-48 | The configuration is always recorded; the map is replaced only when one is given |
| CustomTag.AwsCustomFunction.constructor | scripts/yaml_with_custom_extn.py:22-32 | The node's name and arguments are what CallOf reads off it, and there is no value yet |
| CustomTag.AwsCustomFunction.Repr | scripts/yaml_with_custom_extn.py:34-42 | A successful mapped call sets value to its result. A resolution or call failure is returned and value is left as it was |
| CustomTag.ToYaml | scripts/yaml_with_custom_extn.py:55-59 | Dumping succeeds exactly when the node resolves and its call succeeds, giving a plain str-tagged scalar holding the call's result |
| CustomTag.ScalarNodeNeverResolves | scripts/yaml_with_custom_extn.py:24-27 | A scalar node has no name, so evaluating it always fails with a TypeError |
| CustomTag.NginxLocationNode | scripts/yaml_with_custom_extn.py:35-37 | A node naming get_nginx_config_location() with a bucket and tag evaluates to that bucket's nginx configuration location |
| CustomTag.UnmappedNameRaises | scripts/yaml_with_custom_extn.py:40-42 | A node naming an unmapped function raises, naming the function |

## Left out

- boto3 and AWS itself. Each provider call is one method of `Provider.Cloud` that records the call and updates a deliberately simple state. Throttling, eventual consistency, the exact response shapes and the error codes are not modelled.
- `time.sleep` and wall-clock time. A wait loop polls a finite queue of observed answers instead; when the answers run out, the wait ends with `Exhausted` rather than polling forever.
- Logging (`logger.py` and every `log` call), and `pretty_print_json`, `dump` and `pprint`.
- The `__main__` entry scripts and their argument parsing (`main.py`, `scripts/ec2.py`, `scripts/elb.py`, `scripts/sqs.py` and `scripts/auto_scale.py` below line 39, `arg_parser.create_parser` and `parse`). Loading YAML into a dictionary is not modelled either: a configuration arrives as its loaded dictionary, and a file that cannot be loaded is an input of `CustomFunctions.LoadFleet`.
- The thin wrappers `aws_client.py`, `aws_client_api_gateway.py` and `aws_client_cloudwatch_alarm.py`, and `api_create.py`: they only forward to boto3.
- The YAML library's registration of the constructor and representer (`load_config_with_custom_extension`, `load_config_with_extension`, `from_yaml`). A node arrives as its `value`.
- `generate_nginx_conf` and `service_env` are not part of this model. `CustomFunctions.NginxGeneration` states only the request made to the generator.
- `get_env`, `get_lb_scheme` and `get_listener_info` are called but not defined on `Config`. The lb scheme and the listener ports are inputs, and the SQS log line that reads `get_env` is dropped.
- `Text.Words` separates on the ASCII whitespace characters only; the Unicode whitespace that `str.split` also splits on is not modelled.
- `CustomTag.AwsCustomFunction.Repr` does not model the text `__repr__` returns, since `to_yaml` discards it; only the effect on `value` is modelled.
- `Ecs.EcsCluster.DeregisterContainerInstance` reads the next observed page on each listing. The source never passes `nextToken` back and would list the same first page forever while the provider keeps answering with a token; that non-termination is not modelled.
- `Ecs.EcsCluster.StopTasks` ends when the observed pages run out, as `Exhausted`, where the source would keep listing.
- A configuration getter that raises in the middle of a procedure is modelled through the `Fleet` descriptor: its error surfaces where the model uses the value. Calls the source would have made before the same getter ran earlier are sometimes absent in the model.
- `Ec2.GetIpDnsInfo` writes the source's two loops, each of which breaks after its first iteration, as reads of the first instance of the first reservation.
- Ec2.GetIpDnsInfo: returns the corrected `AddressesOf`, not what the source returns. The source loses the public DNS name and leaves the public IP empty (see Findings). That as-written result is `Ec2.AddressesAsWritten`, and `Ec2.AddressesAsWrittenSwapped` relates the two.
- ServiceConfig.GetAutoScaleCpuThreshold: applies the corrected range check `CpuThreshold`. For a configured 0 or a negative value it gives 70, where the source returns the value itself (see Findings). `CpuThresholdGetterAsSourceAboveZero` proves the two agree for every positive value.
- AutoScaling.UpdateAutoScalePolicy: targets the corrected threshold, so for a configured 0 or a negative value it targets 70 where the source passes the value on.
- AppAutoScaling.PolicyCalls: targets the corrected threshold too, with the same difference from the source for 0 and negative values.
- AppAutoScaling.PutEcsScalingPolicy: makes `PolicyCalls`, so the same difference applies.
- GetAutoScaleParams: min, max or desired that is not an int is a TypeError here. The source returns the raw value, and the failure comes later, where the value is used.
- ServiceConfig.NameParts: a configured mapping is a TypeError here, where Python's `str.join` iterates a dict and joins its keys in insertion order. A Dafny `map` keeps no insertion order, so that result is not modelled. This reaches every name getter through `NameFrom`, `Sqs.QueueName` and `Ecs.NamedContainer`.
- ServiceConfig.PyStr: renders a list or a map as "". Python's `str` would give its repr; the model uses `PyStr` only where the source formats scalar configuration values.
- `EC2Client.create_ec2_instances`, `EC2Client.terminate_instances`, `EcsCluster._terminate_instance`, `EcsCluster.get_instances_for_target_group`, `AutoScalingClient.assign_load_balancer` and `ElbClient.getTargetGroupArn` are not called by the create, upgrade or destroy procedures and are not modelled.
- `Ecs.EcsCluster.WaitTaskCount`, `Ecs.EcsCluster.WaitTargets` and `Ecs.EcsCluster.WaitInactive` state the first satisfying answer and the number of answers consumed, not the time elapsed.
- Integers are unbounded; Python's are too, so no wrap-around is involved.

## Findings

| source | as written | input that shows it | evidently intended | confidence | as-written member | corrected member |
|---|---|---|---|---|---|---|
| scripts/service_config.py:238 | `threshold <= 0 \| threshold > 100` parses as `threshold <= (0 \| threshold) > 100`, which for an int is just `threshold > 100` | cpu_threshold 0 (or any negative value) is returned unchanged | a threshold outside 1..100 becomes 70 | not executed | ServiceConfig.CpuThresholdZeroPassesThrough | ServiceConfig.CpuThreshold |
| scripts/aws_client_ec2.py:94-95 | public_dns is assigned PublicDnsName and then overwritten by PublicIpAddress; public_ip stays "" | an instance with PublicDnsName "ec2-host" and PublicIpAddress "1.2.3.4" returns ("1.2.3.4", "", ...) | public_dns = PublicDnsName, public_ip = PublicIpAddress | not executed | Ec2.AddressesAsWrittenLosesPublicDns | Ec2.AddressesOf |
| scripts/aws_client_elb.py:347 | `time.sleep(30)` in a module that imports only aws_client, boto3 and ClientError (lines 6-8) | remove_instances on an instance whose first drain poll answers 'draining' raises NameError | sleep and poll again until the instance stops draining | not executed | Elb.ElbClient.RemoveInstancesAsWritten | Elb.ElbClient.RemoveInstances |
