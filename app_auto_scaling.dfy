/** The Application Auto Scaling client (scripts/aws_client_app_auto_scaling.py): registers the
    ECS service's desired count as a scalable target and attaches a CPU target-tracking
    policy to it. The four helpers catch every provider error and log it, so none of them
    reports a failure; only reading the auto-scaling parameters, which happens outside the
    handler in the register step, can raise. */
module AppAutoScaling {
  import opened Wrappers
  import opened ServiceConfig
  import opened Descriptor
  import opened Provider

  const ScaleOutCooldown: int := 200

  /** _build_resource_id: "service/<cluster>/<service>". */
  function ResourceId(cluster: string, service: string): (r: string)
    ensures |r| == 9 + |cluster| + |service|
    ensures r[..8] == "service/"
  {
    "service/" + cluster + "/" + service
  }

  /** Position of the first `c` in `s`. */
  function IndexOf(s: string, c: char): (r: Option<nat>)
    ensures r.Some? ==> r.value < |s| && s[r.value] == c && c !in s[..r.value]
    ensures r.None? ==> c !in s
  {
    if s == [] then None
    else if s[0] == c then Some(0)
    else
      var rest := IndexOf(s[1..], c);
      if rest.Some? then
        assert s[..rest.value + 1] == [s[0]] + s[1..][..rest.value];
        Some(rest.value + 1)
      else None
  }

  /** Reads a resource id back into its cluster and service names. */
  function ParseResourceId(r: string): Option<(string, string)> {
    if |r| < 8 || r[..8] != "service/" then None
    else
      var rest := r[8..];
      var slash := IndexOf(rest, '/');
      if slash.None? then None else Some((rest[..slash.value], rest[slash.value + 1..]))
  }

  lemma {:induction false} IndexOfAfter(cluster: string, tail: string)
    requires '/' !in cluster
    ensures IndexOf(cluster + "/" + tail, '/') == Some(|cluster|)
    decreases |cluster|
  {
    var s := cluster + "/" + tail;
    if cluster != [] {
      assert s[1..] == cluster[1..] + "/" + tail;
      IndexOfAfter(cluster[1..], tail);
    }
  }

  /** The resource id names its cluster and service unambiguously as long as the cluster
      name holds no '/': the id is read back into exactly those two names. */
  lemma ResourceIdRoundTrip(cluster: string, service: string)
    requires '/' !in cluster
    ensures ParseResourceId(ResourceId(cluster, service)) == Some((cluster, service))
  {
    var r := ResourceId(cluster, service);
    assert r[8..] == cluster + "/" + service;
    IndexOfAfter(cluster, service);
    var rest := r[8..];
    assert rest[..|cluster|] == cluster;
    assert rest[|cluster| + 1..] == service;
  }

  /** The state after a register_scalable_target call: it takes effect when the service exists. */
  function Registered(st: ProviderState, minCapacity: int, maxCapacity: int): (r: ProviderState)
    ensures st.ecs.service.Some? ==> r.app.scalableTarget == Some(ScalableTarget(minCapacity, maxCapacity))
    ensures st.ecs.service.None? ==> r == st
    ensures r.ecs == st.ecs && r.scaling == st.scaling && r.elb == st.elb && r.queue == st.queue
    ensures r.app.appPolicyTarget == st.app.appPolicyTarget
  {
    if st.ecs.service.Some? then st.(app := st.app.(scalableTarget := Some(ScalableTarget(minCapacity, maxCapacity)))) else st
  }

  /** The state after the policy step: the configured CPU threshold becomes the policy target
      when the threshold can be read and a scalable target exists. */
  function PolicyPut(st: ProviderState, f: Fleet): (r: ProviderState)
    ensures f.cpuThreshold.Success? && st.app.scalableTarget.Some? ==> r.app.appPolicyTarget == Some(f.cpuThreshold.value)
    ensures f.cpuThreshold.Failure? || st.app.scalableTarget.None? ==> r == st
    ensures r.app.scalableTarget == st.app.scalableTarget
    ensures r.ecs == st.ecs && r.scaling == st.scaling && r.elb == st.elb && r.queue == st.queue
  {
    if f.cpuThreshold.Success? && st.app.scalableTarget.Some? then st.(app := st.app.(appPolicyTarget := Some(f.cpuThreshold.value)))
    else st
  }

  /** _set_ecs_scaling_parameters: register the service with the given bounds; errors are logged. */
  method SetEcsScalingParameters(cloud: Cloud, f: Fleet, minCapacity: int, maxCapacity: int)
    modifies cloud
    ensures cloud.st == Registered(old(cloud.st), minCapacity, maxCapacity) && cloud.obs == old(cloud.obs)
    ensures cloud.trace == old(cloud.trace) + [RegisterScalableTarget(ResourceId(f.cluster, f.service), minCapacity, maxCapacity)]
  {
    var _ := cloud.CallRegisterScalableTarget(ResourceId(f.cluster, f.service), minCapacity, maxCapacity);
  }

  /** _register_ecs_target: the configured min and max. */
  method RegisterEcsTarget(cloud: Cloud, f: Fleet) returns (o: Outcome)
    modifies cloud
    ensures o.Pass? <==> f.asParams.Success?
    ensures o.Pass? ==> cloud.st == Registered(old(cloud.st), f.asParams.value.minSize, f.asParams.value.maxSize)
    ensures o.Pass? ==> cloud.trace == old(cloud.trace) + [RegisterScalableTarget(ResourceId(f.cluster, f.service),
                                                                                  f.asParams.value.minSize, f.asParams.value.maxSize)]
    ensures o.Fail? ==> cloud.st == old(cloud.st) && cloud.trace == old(cloud.trace)
    ensures cloud.obs == old(cloud.obs)
  {
    if f.asParams.Failure? {
      return Fail(f.asParams.error);
    }
    var p := f.asParams.value;
    SetEcsScalingParameters(cloud, f, p.minSize, p.maxSize);
    o := Pass;
  }

  /** _deregister_ecs_target; errors are logged. */
  method DeregisterEcsTarget(cloud: Cloud, f: Fleet)
    modifies cloud
    ensures cloud.st == old(cloud.st).(app := old(cloud.st).app.(scalableTarget := None)) && cloud.obs == old(cloud.obs)
    ensures cloud.trace == old(cloud.trace) + [DeregisterScalableTarget(ResourceId(f.cluster, f.service))]
  {
    var _ := cloud.CallDeregisterScalableTarget(ResourceId(f.cluster, f.service));
  }

  /** The put_scaling_policy call of the policy step, when the threshold can be read. */
  function PolicyCalls(f: Fleet): (calls: seq<Call>)
    ensures |calls| <= 1
    ensures calls != [] <==> f.cpuThreshold.Success?
    ensures calls != [] ==> calls[0].PutAppScalingPolicy? && calls[0].targetValue == f.cpuThreshold.value
                            && calls[0].scaleOutCooldown == ScaleOutCooldown
  {
    if f.cpuThreshold.Success?
    then [PutAppScalingPolicy(f.asName, ResourceId(f.cluster, f.service), f.cpuThreshold.value, ScaleOutCooldown)]
    else []
  }

  /** _put_ecs_scaling_policy: a target-tracking policy named after the auto-scaling group,
      targeting the configured CPU threshold with a scale-out cooldown of 200. Reading the
      threshold happens inside the handler too, so a missing threshold only skips the call. */
  method PutEcsScalingPolicy(cloud: Cloud, f: Fleet)
    modifies cloud
    ensures cloud.st == PolicyPut(old(cloud.st), f) && cloud.obs == old(cloud.obs)
    ensures cloud.trace == old(cloud.trace) + PolicyCalls(f)
  {
    if f.cpuThreshold.Success? {
      var _ := cloud.CallPutAppScalingPolicy(f.asName, ResourceId(f.cluster, f.service),
                                             f.cpuThreshold.value, ScaleOutCooldown);
    }
  }

  /** _delete_ecs_scaling_policy; errors are logged. */
  method DeleteEcsScalingPolicy(cloud: Cloud, f: Fleet)
    modifies cloud
    ensures cloud.st == old(cloud.st).(app := old(cloud.st).app.(appPolicyTarget := None)) && cloud.obs == old(cloud.obs)
    ensures cloud.trace == old(cloud.trace) + [DeleteAppScalingPolicy(f.asName, ResourceId(f.cluster, f.service))]
  {
    var _ := cloud.CallDeleteAppScalingPolicy(f.asName, ResourceId(f.cluster, f.service));
  }

  /** create_ecs_autoscaling: register the configured bounds, then put the policy. */
  method CreateEcsAutoscaling(cloud: Cloud, f: Fleet) returns (o: Outcome)
    modifies cloud
    ensures o.Pass? <==> f.asParams.Success?
    ensures o.Pass? ==>
      cloud.st == PolicyPut(Registered(old(cloud.st), f.asParams.value.minSize, f.asParams.value.maxSize), f)
    ensures o.Pass? ==>
      cloud.trace == old(cloud.trace) + [RegisterScalableTarget(ResourceId(f.cluster, f.service),
                                                                f.asParams.value.minSize, f.asParams.value.maxSize)]
                                      + PolicyCalls(f)
    ensures o.Fail? ==> cloud.st == old(cloud.st) && cloud.trace == old(cloud.trace)
    ensures cloud.obs == old(cloud.obs)
  {
    o := RegisterEcsTarget(cloud, f);
    if o.Pass? {
      PutEcsScalingPolicy(cloud, f);
    }
  }

  /** update_ecs_autoscaling_parameters(min, max): register exactly those bounds, then put
      the policy. */
  method UpdateEcsAutoscalingParameters(cloud: Cloud, f: Fleet, minCapacity: int, maxCapacity: int)
    modifies cloud
    ensures cloud.st == PolicyPut(Registered(old(cloud.st), minCapacity, maxCapacity), f)
    ensures cloud.obs == old(cloud.obs)
    ensures cloud.trace == old(cloud.trace) + [RegisterScalableTarget(ResourceId(f.cluster, f.service),
                                                                      minCapacity, maxCapacity)]
                                            + PolicyCalls(f)
  {
    SetEcsScalingParameters(cloud, f, minCapacity, maxCapacity);
    PutEcsScalingPolicy(cloud, f);
  }

  /** destroy_ecs_autoscaling: the policy is deleted before the target is deregistered. */
  method DestroyEcsAutoscaling(cloud: Cloud, f: Fleet)
    modifies cloud
    ensures cloud.st == old(cloud.st).(app := old(cloud.st).app.(appPolicyTarget := None, scalableTarget := None))
    ensures cloud.obs == old(cloud.obs)
    ensures cloud.trace == old(cloud.trace) + [DeleteAppScalingPolicy(f.asName, ResourceId(f.cluster, f.service)),
                                               DeregisterScalableTarget(ResourceId(f.cluster, f.service))]
  {
    DeleteEcsScalingPolicy(cloud, f);
    DeregisterEcsTarget(cloud, f);
  }
}
