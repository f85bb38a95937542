/** The auto-scaling setup and teardown procedures (scripts/auto_scale.py): the launch
    configuration, the group and its policy, and the service's application auto scaling,
    created and deleted in a fixed order. */
module AutoScale {
  import opened Wrappers
  import opened Descriptor
  import opened Provider
  import AutoScaling
  import AppAutoScaling

  /** The group and then its scaling policy: the policy call is made only once the group
      exists, and it succeeds only on an existing group. `asgCalls` are the group's calls. */
  method GroupWithPolicy(cloud: Cloud, f: Fleet) returns (o: Outcome, ghost asgCalls: seq<Call>)
    modifies cloud
    ensures old(cloud.trace) <= cloud.trace
    ensures o.Pass? ==> f.asParams.Success? && f.cpuThreshold.Success?
    ensures o.Pass? ==>
      var p := f.asParams.value;
      && cloud.trace == old(cloud.trace) + asgCalls + [PutAsgScalingPolicy(f.asName, f.cpuThreshold.value, 200, 10)]
      && cloud.st.scaling.asg.Some?
      && cloud.st.scaling.asg.value.capacity == Capacity(p.minSize, p.maxSize, p.desired)
      && cloud.st.scaling.asg.value.launchConfig == f.launchConfigName
      && cloud.st.scaling.asgPolicyTarget == Some(f.cpuThreshold.value)
  {
    ghost var t1 := cloud.trace;
    o := AutoScaling.GetOrCreateAutoScalingGroup(cloud, f);
    asgCalls := cloud.trace[|t1|..];
    if o.Fail? {
      return;
    }
    assert cloud.trace == t1 + asgCalls;
    o := AutoScaling.UpdateAutoScalePolicy(cloud, f);
  }

  /** Everything after the launch configuration: the group, its policy, then the
      application auto scaling of the service. */
  method GroupPolicyAndAppScaling(cloud: Cloud, f: Fleet) returns (o: Outcome, ghost asgCalls: seq<Call>)
    modifies cloud
    ensures old(cloud.trace) <= cloud.trace
    ensures o.Pass? ==> f.asParams.Success? && f.cpuThreshold.Success?
    ensures o.Pass? ==>
      var p := f.asParams.value;
      && cloud.trace == old(cloud.trace) + asgCalls
                        + [PutAsgScalingPolicy(f.asName, f.cpuThreshold.value, 200, 10),
                           RegisterScalableTarget(AppAutoScaling.ResourceId(f.cluster, f.service), p.minSize, p.maxSize)]
                        + AppAutoScaling.PolicyCalls(f)
      && cloud.st.scaling.asg.Some?
      && cloud.st.scaling.asg.value.capacity == Capacity(p.minSize, p.maxSize, p.desired)
      && cloud.st.scaling.asg.value.launchConfig == f.launchConfigName
      && cloud.st.scaling.asgPolicyTarget == Some(f.cpuThreshold.value)
      && (cloud.st.ecs.service.Some? ==>
            && cloud.st.app.scalableTarget == Some(ScalableTarget(p.minSize, p.maxSize))
            && cloud.st.app.appPolicyTarget == Some(f.cpuThreshold.value))
  {
    o, asgCalls := GroupWithPolicy(cloud, f);
    if o.Fail? {
      return;
    }
    ghost var st2 := cloud.st;
    o := AppAutoScaling.CreateEcsAutoscaling(cloud, f);
    assert cloud.st.scaling == st2.scaling;
  }

  /** create_auto_scaling_and_launch_configuration: the launch configuration first, then the
      group, then the group's scaling policy, and the application auto scaling last. A step
      that raises ends the procedure. `lcCalls` and `asgCalls` are the calls of the first two
      steps. */
  method CreateAutoScalingAndLaunchConfiguration(cloud: Cloud, f: Fleet)
    returns (o: Outcome, ghost lcCalls: seq<Call>, ghost asgCalls: seq<Call>)
    modifies cloud
    ensures old(cloud.trace) <= cloud.trace
    ensures o.Pass? ==> f.asParams.Success? && f.cpuThreshold.Success?
    ensures o.Pass? ==>
      var p := f.asParams.value;
      && |lcCalls| > 0 && lcCalls[0] == DescribeLaunchConfigurations(f.launchConfigName)
      && cloud.trace == old(cloud.trace) + lcCalls + asgCalls
                        + [PutAsgScalingPolicy(f.asName, f.cpuThreshold.value, 200, 10),
                           RegisterScalableTarget(AppAutoScaling.ResourceId(f.cluster, f.service), p.minSize, p.maxSize)]
                        + AppAutoScaling.PolicyCalls(f)
      && cloud.st.scaling.asg.Some?
      && cloud.st.scaling.asg.value.capacity == Capacity(p.minSize, p.maxSize, p.desired)
      && cloud.st.scaling.asg.value.launchConfig == f.launchConfigName
      && cloud.st.scaling.asgPolicyTarget == Some(f.cpuThreshold.value)
      && (cloud.st.ecs.service.Some? ==>
            && cloud.st.app.scalableTarget == Some(ScalableTarget(p.minSize, p.maxSize))
            && cloud.st.app.appPolicyTarget == Some(f.cpuThreshold.value))
  {
    asgCalls := [];
    ghost var t0 := cloud.trace;
    o := AutoScaling.GetOrCreateLaunchConfiguration(cloud, f);
    lcCalls := cloud.trace[|t0|..];
    if o.Fail? {
      return;
    }
    assert cloud.trace == t0 + lcCalls;
    o, asgCalls := GroupPolicyAndAppScaling(cloud, f);
  }

  /** The calls of a completed auto scaling teardown: the scaling policy, the scalable
      target and the group are deleted in that order, the group is polled until it is gone,
      and the launch configuration is deleted last. */
  ghost predicate TeardownShaped(t: seq<Call>, f: Fleet) {
    && |t| >= 4
    && t[0] == DeleteAppScalingPolicy(f.asName, AppAutoScaling.ResourceId(f.cluster, f.service))
    && t[1] == DeregisterScalableTarget(AppAutoScaling.ResourceId(f.cluster, f.service))
    && t[2] == Call.DeleteAutoScalingGroup(f.asName, true)
    && (forall i :: 3 <= i < |t| - 1 ==> t[i] == DescribeAutoScalingGroups(f.asName))
    && t[|t| - 1] == Call.DeleteLaunchConfiguration(f.launchConfigName)
  }

  /** The teardown's own trace, with any number of polls, has that shape. */
  lemma TeardownTraceShaped(f: Fleet, polls: nat, t: seq<Call>)
    requires t == [DeleteAppScalingPolicy(f.asName, AppAutoScaling.ResourceId(f.cluster, f.service)),
                   DeregisterScalableTarget(AppAutoScaling.ResourceId(f.cluster, f.service)),
                   Call.DeleteAutoScalingGroup(f.asName, true)]
                  + Repeat(DescribeAutoScalingGroups(f.asName), polls)
                  + [Call.DeleteLaunchConfiguration(f.launchConfigName)]
    ensures TeardownShaped(t, f)
  {
    forall i | 3 <= i < |t| - 1 ensures t[i] == DescribeAutoScalingGroups(f.asName) {
      assert t[i] == Repeat(DescribeAutoScalingGroups(f.asName), polls)[i - 3];
    }
  }

  /** delete_auto_scaling_and_launch_configuration: the application auto scaling first, then
      the group (waiting until it is gone), then the launch configuration. Nothing in it
      raises; the model stops only when the deletion wait's answers run out. */
  method DeleteAutoScalingAndLaunchConfiguration(cloud: Cloud, f: Fleet) returns (o: Outcome, ghost polls: nat, ghost calls: seq<Call>)
    modifies cloud
    ensures cloud.trace == old(cloud.trace) + calls
    ensures o.Pass? || o.error.Exhausted?
    ensures polls <= |old(cloud.obs).lingeringGroups|
    ensures o.Pass? ==>
      && cloud.st == old(cloud.st).(app := old(cloud.st).app.(appPolicyTarget := None, scalableTarget := None),
                                    scaling := ScalingState(None, None, None))
      && calls == [DeleteAppScalingPolicy(f.asName, AppAutoScaling.ResourceId(f.cluster, f.service)),
                   DeregisterScalableTarget(AppAutoScaling.ResourceId(f.cluster, f.service)),
                   Call.DeleteAutoScalingGroup(f.asName, true)]
                  + Repeat(DescribeAutoScalingGroups(f.asName), polls)
                  + [Call.DeleteLaunchConfiguration(f.launchConfigName)]
    ensures o.Fail? ==> cloud.st.scaling.launchConfig == old(cloud.st).scaling.launchConfig
    ensures cloud.st.ecs == old(cloud.st).ecs && cloud.st.elb == old(cloud.st).elb
  {
    ghost var head := [DeleteAppScalingPolicy(f.asName, AppAutoScaling.ResourceId(f.cluster, f.service)),
                       DeregisterScalableTarget(AppAutoScaling.ResourceId(f.cluster, f.service)),
                       Call.DeleteAutoScalingGroup(f.asName, true)];
    ghost var t0 := cloud.trace;
    AppAutoScaling.DestroyEcsAutoscaling(cloud, f);
    o, polls := AutoScaling.DeleteAutoScalingGroup(cloud, f);
    calls := head + Repeat(DescribeAutoScalingGroups(f.asName), polls);
    assert cloud.trace == t0 + calls;
    if o.Fail? {
      return;
    }
    AutoScaling.DeleteLaunchConfiguration(cloud, f);
    calls := calls + [Call.DeleteLaunchConfiguration(f.launchConfigName)];
  }
}
