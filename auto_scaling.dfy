/** The EC2 Auto Scaling client (scripts/aws_client_auto_scaling.py): the fleet's launch
    configuration and auto-scaling group, the capacity updates the rolling upgrade drives,
    and the group's CPU target-tracking policy. Capacity updates set the ECS service's
    desired count first and then resize the group; none of them catches an error. */
module AutoScaling {
  import opened Wrappers
  import opened ServiceConfig
  import opened Descriptor
  import opened Provider
  import opened Elb

  /** The termination policy a capacity update passes: "" stands for "Default". */
  function EffectivePolicy(p: string): (r: string)
    ensures r != ""
    ensures p != "" ==> r == p
    ensures p == "" ==> r == "Default"
  {
    if p == "" then "Default" else p
  }

  // ---------------------------------------------------------------------------
  // Launch configuration

  const UserDataHead := "#!/bin/bash \n echo ECS_CLUSTER="
  const UserDataTail := " >> /etc/ecs/ecs.config"

  /** The user data of a new launch configuration: it joins the instance to the cluster. */
  function UserData(cluster: string): (r: string)
    ensures |r| == |UserDataHead| + |cluster| + |UserDataTail|
    ensures r[..|UserDataHead|] == UserDataHead && r[|r| - |UserDataTail|..] == UserDataTail
  {
    UserDataHead + cluster + UserDataTail
  }

  /** The cluster a user-data script joins, when it has the shape UserData writes. */
  function UserDataCluster(u: string): Option<string> {
    if |u| >= |UserDataHead| + |UserDataTail| && u[..|UserDataHead|] == UserDataHead
       && u[|u| - |UserDataTail|..] == UserDataTail
    then Some(u[|UserDataHead|..|u| - |UserDataTail|])
    else None
  }

  /** The user data names exactly the cluster it was built for. */
  lemma UserDataRoundTrip(cluster: string)
    ensures UserDataCluster(UserData(cluster)) == Some(cluster)
  {
    var u := UserData(cluster);
    assert u[|UserDataHead|..|u| - |UserDataTail|] == cluster;
  }

  /** Different clusters get different user data. */
  lemma UserDataInjective(a: string, b: string)
    requires UserData(a) == UserData(b)
    ensures a == b
  {
    UserDataRoundTrip(a);
    UserDataRoundTrip(b);
  }

  /** The create_launch_configuration arguments, read in argument order: the AMI, SSH key,
      security groups and instance role are required; the instance type and the public-IP
      flag have defaults. */
  function LaunchConfigRequest(f: Fleet): (r: Result<map<string, Value>>)
    ensures r.Success? <==> f.ami.Success? && f.sshKey.Success? && f.securityGroups.Success? && f.ec2IamRole.Success?
    ensures f.ami.Failure? ==> r == Failure(f.ami.error)
    ensures r.Success? ==>
      && r.value.Keys == {"LaunchConfigurationName", "ImageId", "KeyName", "SecurityGroups", "IamInstanceProfile",
                          "InstanceType", "AssociatePublicIpAddress", "UserData"}
      && r.value["LaunchConfigurationName"] == VStr(f.launchConfigName)
      && r.value["ImageId"] == f.ami.value
      && r.value["InstanceType"] == f.instanceType
      && r.value["AssociatePublicIpAddress"] == f.publicIp
      && r.value["UserData"] == VStr(UserData(f.cluster))
  {
    var ami :- f.ami;
    var key :- f.sshKey;
    var groups :- f.securityGroups;
    var role :- f.ec2IamRole;
    Success(map["LaunchConfigurationName" := VStr(f.launchConfigName), "ImageId" := ami, "KeyName" := key,
                "SecurityGroups" := groups, "IamInstanceProfile" := role, "InstanceType" := f.instanceType,
                "AssociatePublicIpAddress" := f.publicIp, "UserData" := VStr(UserData(f.cluster))])
  }

  /** get_or_create_launch_configuration: an existing configuration is kept as it is;
      otherwise one is created from LaunchConfigRequest. */
  method GetOrCreateLaunchConfiguration(cloud: Cloud, f: Fleet) returns (o: Outcome)
    modifies cloud
    ensures old(cloud.st).scaling.launchConfig.Some? ==>
      o.Pass? && cloud.st == old(cloud.st) && cloud.trace == old(cloud.trace) + [DescribeLaunchConfigurations(f.launchConfigName)]
    ensures old(cloud.st).scaling.launchConfig.None? ==> (o.Pass? <==> LaunchConfigRequest(f).Success?)
    ensures old(cloud.st).scaling.launchConfig.None? && o.Pass? ==>
      && cloud.st == old(cloud.st).(scaling := old(cloud.st).scaling.(launchConfig := Some(LaunchConfigRequest(f).value)))
      && cloud.trace == old(cloud.trace) + [DescribeLaunchConfigurations(f.launchConfigName),
                                            CreateLaunchConfiguration(LaunchConfigRequest(f).value)]
    ensures o.Fail? ==> cloud.st == old(cloud.st)
    ensures old(cloud.trace) <= cloud.trace
    ensures cloud.obs == old(cloud.obs)
  {
    var found := cloud.CallDescribeLaunchConfigurations(f.launchConfigName);
    if found {
      return Pass;
    }
    :- Need(LaunchConfigRequest(f));
    cloud.CallCreateLaunchConfiguration(LaunchConfigRequest(f).value);
    o := Pass;
  }

  /** delete_launch_configuration: every error is logged and dropped. */
  method DeleteLaunchConfiguration(cloud: Cloud, f: Fleet)
    modifies cloud
    ensures cloud.st == old(cloud.st).(scaling := old(cloud.st).scaling.(launchConfig := None))
    ensures cloud.obs == old(cloud.obs)
    ensures cloud.trace == old(cloud.trace) + [Call.DeleteLaunchConfiguration(f.launchConfigName)]
  {
    var _ := cloud.CallDeleteLaunchConfiguration(f.launchConfigName);
  }

  // ---------------------------------------------------------------------------
  // Capacity

  /** The state after a capacity update of the service and the group: the service's desired
      count and, when a deployment is forced, its task definition; the group resized. */
  function CapacitySet(st: ProviderState, desired: int, td: Option<TaskDefRef>, g: Asg): (r: ProviderState)
    requires st.ecs.service.Some?
    ensures r.ecs.service.Some? && r.ecs.service.value.desiredCount == desired
    ensures r.ecs.service.value.taskDefinition == if td.Some? then td.value else st.ecs.service.value.taskDefinition
    ensures r.ecs.service.value.status == st.ecs.service.value.status
    ensures r.scaling.asg == Some(g)
    ensures r.ecs.active == st.ecs.active && r.app == st.app && r.elb == st.elb && r.queue == st.queue
  {
    var s := st.ecs.service.value;
    var s' := if td.Some? then s.(taskDefinition := td.value, desiredCount := desired) else s.(desiredCount := desired);
    st.(ecs := st.ecs.(service := Some(s')), scaling := st.scaling.(asg := Some(g)))
  }

  /** update_service_auto_scale_count: the service's desired count. */
  method UpdateServiceAutoScaleCount(cloud: Cloud, f: Fleet, desired: int) returns (o: Outcome)
    modifies cloud
    ensures o.Pass? <==> old(cloud.st).ecs.service.Some?
    ensures o.Pass? ==>
      cloud.st == old(cloud.st).(ecs := old(cloud.st).ecs.(service := Some(old(cloud.st).ecs.service.value.(desiredCount := desired))))
    ensures o.Fail? ==> cloud.st == old(cloud.st)
    ensures cloud.obs == old(cloud.obs)
    ensures cloud.trace == old(cloud.trace) + [UpdateServiceDesiredCount(f.cluster, f.service, desired)]
  {
    o := cloud.CallUpdateServiceDesiredCount(f.cluster, f.service, desired);
  }

  /** update_capacity_to(min, max, desired, policy): the service's desired count first, then
      the group with that sizing, the configured zones, subnets and cooldown, and the
      effective termination policy. Any failure is raised. */
  method UpdateCapacityTo(cloud: Cloud, f: Fleet, minSize: int, maxSize: int, desired: int, policy: string)
    returns (o: Outcome)
    modifies cloud
    ensures o.Pass? <==> old(cloud.st).ecs.service.Some? && f.asParams.Success? && old(cloud.st).scaling.asg.Some?
    ensures o.Pass? ==>
      cloud.st == CapacitySet(old(cloud.st), desired, None,
                              Resized(old(cloud.st).scaling.asg.value, f.launchConfigName, Capacity(minSize, maxSize, desired),
                                      Some(f.asParams.value.cooldown), f.asParams.value.vpcZoneIdentifier,
                                      f.asParams.value.zones, EffectivePolicy(policy)))
    ensures o.Pass? ==>
      cloud.trace == old(cloud.trace) + [UpdateServiceDesiredCount(f.cluster, f.service, desired),
                                         UpdateAutoScalingGroup(f.asName, f.launchConfigName, Capacity(minSize, maxSize, desired),
                                                                Some(f.asParams.value.cooldown),
                                                                f.asParams.value.vpcZoneIdentifier, f.asParams.value.zones,
                                                                [EffectivePolicy(policy)])]
    ensures old(cloud.st).ecs.service.None? ==> cloud.st == old(cloud.st)
    ensures cloud.st.elb == old(cloud.st).elb && cloud.st.app == old(cloud.st).app && cloud.st.ecs.active == old(cloud.st).ecs.active
    ensures cloud.st.ecs.nextRevision == old(cloud.st).ecs.nextRevision
    ensures cloud.obs == old(cloud.obs)
    ensures old(cloud.trace) <= cloud.trace
    ensures forall i :: |old(cloud.trace)| <= i < |cloud.trace| ==>
              cloud.trace[i].UpdateServiceDesiredCount? || cloud.trace[i].UpdateAutoScalingGroup?
    ensures old(cloud.st).ecs.service.Some? ==>
              cloud.st.ecs.service.Some? && cloud.st.ecs.service.value.desiredCount == desired
  {
    o := UpdateServiceAutoScaleCount(cloud, f, desired);
    if o.Fail? {
      return;
    }
    :- Need(f.asParams);
    var p := f.asParams.value;
    o := cloud.CallUpdateAutoScalingGroup(f.asName, f.launchConfigName, Capacity(minSize, maxSize, desired),
                                          Some(p.cooldown), p.vpcZoneIdentifier, p.zones, [EffectivePolicy(policy)]);
  }

  /** update_capacity_and_task_definition(min, max, desired, policy): a forced deployment of
      the family's latest revision with the new desired count (maximumPercent 200,
      minimumHealthyPercent 100), then the group resized without touching its cooldown. */
  method UpdateCapacityAndTaskDefinition(cloud: Cloud, f: Fleet, minSize: int, maxSize: int, desired: int, policy: string)
    returns (o: Outcome)
    modifies cloud
    ensures o.Pass? <==>
      f.asParams.Success? && f.taskDefName.Success? && old(cloud.st).ecs.service.Some? && old(cloud.st).scaling.asg.Some?
    ensures o.Pass? ==>
      cloud.st == CapacitySet(old(cloud.st), desired, Some(Latest(f.taskDefName.value)),
                              Resized(old(cloud.st).scaling.asg.value, f.launchConfigName, Capacity(minSize, maxSize, desired),
                                      None, f.asParams.value.vpcZoneIdentifier, f.asParams.value.zones,
                                      EffectivePolicy(policy)))
    ensures o.Pass? ==>
      cloud.trace == old(cloud.trace) + [UpdateServiceDeployment(f.cluster, f.service, Latest(f.taskDefName.value), desired,
                                                                 true, 200, 100),
                                         UpdateAutoScalingGroup(f.asName, f.launchConfigName, Capacity(minSize, maxSize, desired),
                                                                None, f.asParams.value.vpcZoneIdentifier, f.asParams.value.zones,
                                                                [EffectivePolicy(policy)])]
    ensures f.asParams.Failure? || f.taskDefName.Failure? ==> cloud.st == old(cloud.st) && cloud.trace == old(cloud.trace)
    ensures cloud.st.elb == old(cloud.st).elb && cloud.st.app == old(cloud.st).app && cloud.st.ecs.active == old(cloud.st).ecs.active
    ensures cloud.obs == old(cloud.obs)
    ensures old(cloud.trace) <= cloud.trace
    ensures forall i :: |old(cloud.trace)| <= i < |cloud.trace| ==>
              cloud.trace[i].UpdateServiceDeployment? || cloud.trace[i].UpdateAutoScalingGroup?
  {
    o := Need(f.asParams);
    if o.Fail? {
      return;
    }
    :- Need(f.taskDefName);
    var p := f.asParams.value;
    o := cloud.CallUpdateServiceDeployment(f.cluster, f.service, Latest(f.taskDefName.value), desired, true, 200, 100);
    if o.Fail? {
      return;
    }
    o := cloud.CallUpdateAutoScalingGroup(f.asName, f.launchConfigName, Capacity(minSize, maxSize, desired),
                                          None, p.vpcZoneIdentifier, p.zones, [EffectivePolicy(policy)]);
  }

  /** set_capacity_to_zero: update_capacity_to(0, 0, 0, ""). */
  method SetCapacityToZero(cloud: Cloud, f: Fleet) returns (o: Outcome)
    modifies cloud
    ensures o.Pass? <==> old(cloud.st).ecs.service.Some? && f.asParams.Success? && old(cloud.st).scaling.asg.Some?
    ensures o.Pass? ==> cloud.st.ecs.service.Some? && cloud.st.scaling.asg.Some?
                        && cloud.st.ecs.service.value.desiredCount == 0
                        && cloud.st.scaling.asg.value.capacity == Capacity(0, 0, 0)
                        && cloud.st.scaling.asg.value.terminationPolicy == "Default"
    ensures old(cloud.st).ecs.service.None? ==> cloud.st == old(cloud.st)
    ensures cloud.st.elb == old(cloud.st).elb && cloud.st.app == old(cloud.st).app && cloud.st.ecs.active == old(cloud.st).ecs.active
    ensures cloud.st.ecs.nextRevision == old(cloud.st).ecs.nextRevision
    ensures cloud.obs == old(cloud.obs)
    ensures old(cloud.trace) <= cloud.trace
  {
    o := UpdateCapacityTo(cloud, f, 0, 0, 0, "");
  }

  /** update_capacity: update_capacity_to with the configured sizing and policy "". The
      sizing is read before any call. */
  method UpdateCapacity(cloud: Cloud, f: Fleet) returns (o: Outcome)
    modifies cloud
    ensures o.Pass? <==> f.asParams.Success? && old(cloud.st).ecs.service.Some? && old(cloud.st).scaling.asg.Some?
    ensures o.Pass? ==>
      var p := f.asParams.value;
      && cloud.st.ecs.service.Some? && cloud.st.scaling.asg.Some?
      && cloud.st.ecs.service.value.desiredCount == p.desired
      && cloud.st.scaling.asg.value == Resized(old(cloud.st).scaling.asg.value, f.launchConfigName,
                                               Capacity(p.minSize, p.maxSize, p.desired), Some(p.cooldown),
                                               p.vpcZoneIdentifier, p.zones, "Default")
    ensures f.asParams.Failure? ==> cloud.st == old(cloud.st) && cloud.trace == old(cloud.trace)
    ensures cloud.st.elb == old(cloud.st).elb && cloud.st.app == old(cloud.st).app && cloud.st.ecs.active == old(cloud.st).ecs.active
    ensures cloud.obs == old(cloud.obs)
    ensures old(cloud.trace) <= cloud.trace
  {
    o := Need(f.asParams);
    if o.Fail? {
      return;
    }
    var p := f.asParams.value;
    o := UpdateCapacityTo(cloud, f, p.minSize, p.maxSize, p.desired, "");
  }

  // ---------------------------------------------------------------------------
  // The group

  /** update_tag: the group's Name tag is the cluster name, propagated at launch. */
  method UpdateTag(cloud: Cloud, f: Fleet)
    modifies cloud
    ensures old(cloud.st).scaling.asg.Some? ==>
      cloud.st == old(cloud.st).(scaling := old(cloud.st).scaling.(asg := Some(old(cloud.st).scaling.asg.value.(nameTag := Some(f.cluster)))))
    ensures old(cloud.st).scaling.asg.None? ==> cloud.st == old(cloud.st)
    ensures cloud.obs == old(cloud.obs)
    ensures cloud.trace == old(cloud.trace) + [CreateOrUpdateTags(f.asName, "Name", f.cluster, true)]
  {
    cloud.CallCreateOrUpdateTags(f.asName, "Name", f.cluster);
  }

  /** A group at the fleet's configured sizing: capacity, launch configuration, cooldown,
      zones and subnets as configured, the Default termination policy and the cluster's
      Name tag. */
  ghost predicate AtConfiguredSizing(g: Asg, f: Fleet) {
    && f.asParams.Success?
    && var p := f.asParams.value;
       && g.capacity == Capacity(p.minSize, p.maxSize, p.desired)
       && g.launchConfig == f.launchConfigName
       && g.terminationPolicy == "Default"
       && g.cooldown == p.cooldown && g.zones == p.zones && g.vpcZoneIdentifier == p.vpcZoneIdentifier
       && g.nameTag == Some(f.cluster)
  }

  /** The branch of get_or_create_auto_scaling_group for an existing group: update_capacity,
      then the Name tag. The group keeps its target groups. */
  method ResizeAndTag(cloud: Cloud, f: Fleet) returns (o: Outcome)
    requires cloud.st.scaling.asg.Some?
    modifies cloud
    ensures o.Pass? ==>
      && cloud.st.scaling.asg.Some? && AtConfiguredSizing(cloud.st.scaling.asg.value, f)
      && cloud.st.scaling.asg.value.targetGroups == old(cloud.st).scaling.asg.value.targetGroups
    ensures cloud.st.app == old(cloud.st).app
    ensures cloud.obs == old(cloud.obs)
    ensures old(cloud.trace) <= cloud.trace
  {
    o := UpdateCapacity(cloud, f);
    if o.Fail? {
      return;
    }
    UpdateTag(cloud, f);
  }

  /** The branch of get_or_create_auto_scaling_group for a missing group: create it at the
      configured sizing, attached to the target group, then tag it. */
  method CreateGroup(cloud: Cloud, f: Fleet, tgArn: string) returns (o: Outcome)
    modifies cloud
    ensures o.Pass? <==> f.asParams.Success?
    ensures o.Pass? ==>
      && cloud.st.scaling.asg.Some? && AtConfiguredSizing(cloud.st.scaling.asg.value, f)
      && cloud.st.scaling.asg.value.targetGroups == [tgArn]
    ensures cloud.st.elb == old(cloud.st).elb && cloud.st.app == old(cloud.st).app
    ensures cloud.obs == old(cloud.obs)
    ensures old(cloud.trace) <= cloud.trace
  {
    o := Need(f.asParams);
    if o.Fail? {
      return;
    }
    var p := f.asParams.value;
    cloud.CallCreateAutoScalingGroup(f.asName, f.launchConfigName, Capacity(p.minSize, p.maxSize, p.desired),
                                     p.vpcZoneIdentifier, p.zones, p.cooldown, [tgArn]);
    UpdateTag(cloud, f);
  }

  /** get_or_create_auto_scaling_group: the target group is created or updated first; an
      existing group is then resized to the configured capacity and tagged, a missing one is
      created with that capacity, attached to the target group, and tagged. Either way the
      group ends up with the configured sizing, the Default termination policy and the
      cluster's Name tag. */
  method GetOrCreateAutoScalingGroup(cloud: Cloud, f: Fleet) returns (o: Outcome)
    modifies cloud
    ensures o.Pass? ==> cloud.st.scaling.asg.Some? && AtConfiguredSizing(cloud.st.scaling.asg.value, f)
    ensures o.Pass? && old(cloud.st).scaling.asg.None? ==>
      cloud.st.elb.tg.Some? && cloud.st.scaling.asg.value.targetGroups == [cloud.st.elb.tg.value.arn]
    ensures o.Pass? && old(cloud.st).scaling.asg.Some? ==>
      cloud.st.scaling.asg.value.targetGroups == old(cloud.st).scaling.asg.value.targetGroups
    ensures cloud.st.app == old(cloud.st).app
    ensures cloud.obs == old(cloud.obs)
    ensures old(cloud.trace) <= cloud.trace
  {
    var elb := new ElbClient(cloud, f);
    var tg := elb.CreateOrUpdateTargetGroup();
    if tg.Failure? {
      return Fail(tg.error);
    }
    var found := cloud.CallDescribeAutoScalingGroups(f.asName);
    if found {
      o := ResizeAndTag(cloud, f);
    } else {
      o := CreateGroup(cloud, f, tg.value.arn);
    }
  }

  /** The describe answer a deletion wait stops on: no group left. */
  predicate Gone(groups: seq<string>) {
    |groups| == 0
  }

  /** delete_auto_scaling_group: delete the group, then poll until describe reports no group;
      every raised error is logged and dropped, so the call only ends early when the polled
      answers run out. `polls` answers were consumed, and the wait stopped on the first that
      reported no group. */
  method DeleteAutoScalingGroup(cloud: Cloud, f: Fleet) returns (o: Outcome, polls: nat)
    modifies cloud
    ensures o.Pass? || o.error.Exhausted?
    ensures cloud.st == old(cloud.st).(scaling := old(cloud.st).scaling.(asg := None, asgPolicyTarget := None))
    ensures old(cloud.st).scaling.asg.None? ==> polls == 0 && o.Pass?
    ensures polls <= |old(cloud.obs).lingeringGroups|
    ensures cloud.obs == old(cloud.obs).(lingeringGroups := old(cloud.obs).lingeringGroups[polls..])
    ensures old(cloud.st).scaling.asg.Some? && o.Pass? ==> StoppedAt(old(cloud.obs).lingeringGroups, polls, Gone)
    ensures o.Fail? ==> NeverDone(old(cloud.obs).lingeringGroups, Gone) && polls == |old(cloud.obs).lingeringGroups|
    ensures cloud.trace == old(cloud.trace) + [Call.DeleteAutoScalingGroup(f.asName, true)]
                           + Repeat(DescribeAutoScalingGroups(f.asName), polls)
  {
    polls := 0;
    var deleted := cloud.CallDeleteAutoScalingGroup(f.asName);
    if deleted.Fail? {
      return Pass, 0;
    }
    ghost var answers := cloud.obs.lingeringGroups;
    ghost var t0 := cloud.trace;
    while true
      invariant polls <= |answers|
      invariant cloud.st == old(cloud.st).(scaling := old(cloud.st).scaling.(asg := None, asgPolicyTarget := None))
      invariant cloud.obs == old(cloud.obs).(lingeringGroups := answers[polls..])
      invariant answers == old(cloud.obs).lingeringGroups
      invariant forall i :: 0 <= i < polls ==> !Gone(answers[i])
      invariant cloud.trace == t0 + Repeat(DescribeAutoScalingGroups(f.asName), polls)
      decreases |answers| - polls
    {
      var r := cloud.PollLingeringGroups(f.asName);
      if r.Failure? {
        return Swallow(Fail(r.error)), polls;
      }
      assert r.value == answers[polls];
      assert answers[polls + 1..] == answers[polls..][1..];
      polls := polls + 1;
      if Gone(r.value) {
        return Pass, polls;
      }
    }
  }

  /** update_auto_scale_policy: a CPU target-tracking policy on the group (cooldown 200,
      warm-up 10) targeting the configured threshold; the threshold is read before the call. */
  method UpdateAutoScalePolicy(cloud: Cloud, f: Fleet) returns (o: Outcome)
    modifies cloud
    ensures o.Pass? <==> f.cpuThreshold.Success? && old(cloud.st).scaling.asg.Some?
    ensures o.Pass? ==> cloud.st == old(cloud.st).(scaling := old(cloud.st).scaling.(asgPolicyTarget := Some(f.cpuThreshold.value)))
    ensures o.Fail? ==> cloud.st == old(cloud.st)
    ensures f.cpuThreshold.Success? ==>
      cloud.trace == old(cloud.trace) + [PutAsgScalingPolicy(f.asName, f.cpuThreshold.value, 200, 10)]
    ensures f.cpuThreshold.Failure? ==> cloud.trace == old(cloud.trace)
    ensures cloud.obs == old(cloud.obs)
  {
    o := Need(f.cpuThreshold);
    if o.Fail? {
      return;
    }
    o := cloud.CallPutAsgScalingPolicy(f.asName, f.cpuThreshold.value, 200, 10);
  }
}
