/** The Fleet Resource Provider the clients talk to through boto3, as abstract state.

    `st` holds the fleet's resources as the orchestrator creates, updates and reads them
    back. `obs` holds finite queues of the values a convergence wait polls (task counts,
    target health, groups still being deleted, ...): those change behind the orchestrator's
    back, so each poll consumes the next observation, and a wait that runs out of
    observations ends with `Exhausted`. `trace` records every provider call, in order.
    ARNs and queue URLs are modelled as the resource name behind a kind prefix. */
module Provider {
  import opened Wrappers
  import opened ServiceConfig

  // ---------------------------------------------------------------------------
  // Provider-side records

  datatype Capacity = Capacity(minSize: int, maxSize: int, desired: int)

  datatype Asg = Asg(
    capacity: Capacity,
    launchConfig: string,
    cooldown: Value,
    vpcZoneIdentifier: Value,
    zones: Value,
    terminationPolicy: string,
    targetGroups: seq<string>,
    nameTag: Option<string>)

  /** The group after update_auto_scaling_group: the given sizing, launch configuration,
      subnets, zones and termination policy; the cooldown only when one is passed. Its target
      groups and tags are kept. */
  function Resized(g: Asg, lc: string, cap: Capacity, cooldown: Option<Value>, vpc: Value, zones: Value,
                   policy: string): (r: Asg)
    ensures r.capacity == cap && r.launchConfig == lc && r.terminationPolicy == policy
    ensures r.vpcZoneIdentifier == vpc && r.zones == zones
    ensures r.cooldown == if cooldown.Some? then cooldown.value else g.cooldown
    ensures r.targetGroups == g.targetGroups && r.nameTag == g.nameTag
  {
    g.(capacity := cap, launchConfig := lc, cooldown := if cooldown.Some? then cooldown.value else g.cooldown,
       vpcZoneIdentifier := vpc, zones := zones, terminationPolicy := policy)
  }

  /** The task definition a service runs: one revision, or the family's latest ACTIVE one. */
  datatype TaskDefRef = Revision(revision: nat) | Latest(family: string)

  datatype LbBinding = LbBinding(targetGroupArn: string, containerName: Value, containerPort: Value)

  datatype Service = Service(status: string, taskDefinition: TaskDefRef, desiredCount: int)

  datatype Task = Task(arn: string, revision: nat)

  datatype ScalableTarget = ScalableTarget(minCapacity: int, maxCapacity: int)

  datatype Attribute = Attribute(key: string, value: string)

  datatype Lb = Lb(name: string, arn: string, dns: string)

  datatype Tg = Tg(name: string, arn: string)

  datatype Listener = Listener(lbArn: string, protocol: Value, port: Value, certificates: seq<Value>, targetGroupArn: string)

  datatype Queue = Queue(name: string, url: string, permissions: seq<Permission>)

  datatype Permission = Permission(permissionLabel: string, accounts: Value, actions: seq<string>)

  /** One entry of describe_target_health: the target's id and its TargetHealth.State. */
  datatype TargetHealth = TargetHealth(id: string, state: string)

  /** One page of a listing call: the items and whether the response carried a nextToken. */
  datatype Page = Page(items: seq<string>, nextToken: Option<string>)

  datatype Instance = Instance(
    instanceId: string,
    privateDnsName: Option<string>, privateIpAddress: Option<string>,
    publicDnsName: Option<string>, publicIpAddress: Option<string>)

  datatype Reservation = Reservation(instances: seq<Instance>)

  /** ECS: the cluster, the fleet's task-definition family, its service and running tasks. */
  datatype EcsState = EcsState(
    clusterActive: bool,
    active: seq<nat>,        // ACTIVE revisions of the fleet's task-definition family, newest first
    inactive: seq<nat>,      // INACTIVE (deregistered) revisions
    nextRevision: nat,
    service: Option<Service>,
    runningTasks: seq<Task>)

  /** EC2 Auto Scaling: the group, its launch configuration and its target-tracking policy. */
  datatype ScalingState = ScalingState(
    asg: Option<Asg>,
    launchConfig: Option<map<string, Value>>,
    asgPolicyTarget: Option<int>)

  /** Application Auto Scaling: the service's scalable target and its policy. */
  datatype AppScalingState = AppScalingState(
    scalableTarget: Option<ScalableTarget>,
    appPolicyTarget: Option<int>)

  /** Elastic Load Balancing v2: the load balancer, the target group and the listeners. */
  datatype ElbState = ElbState(
    lb: Option<Lb>,
    lbAttributes: seq<Attribute>,
    tg: Option<Tg>,
    tgSettings: map<string, Value>,
    tgAttributes: seq<Attribute>,
    listeners: seq<Listener>)

  datatype ProviderState = ProviderState(
    ecs: EcsState,
    scaling: ScalingState,
    app: AppScalingState,
    elb: ElbState,
    queue: Option<Queue>)

  datatype Observations = Observations(
    taskCounts: seq<(int, int)>,          // describe_services: (runningCount, desiredCount)
    serviceStatuses: seq<seq<string>>,    // describe_services: statuses while awaiting INACTIVE
    targetHealth: seq<seq<TargetHealth>>, // describe_target_health of the whole target group
    drainStates: seq<seq<TargetHealth>>,  // describe_target_health of one deregistered target
    lingeringGroups: seq<seq<string>>,    // describe_auto_scaling_groups after the delete call
    taskPages: seq<Page>,                 // list_tasks pages while stopping tasks
    instancePages: seq<Page>,             // list_container_instances responses
    reservations: seq<seq<Reservation>>)  // describe_instances responses

  /** The provider calls the modelled code issues, with the arguments that matter. */
  datatype Call =
    // ECS
    | CreateCluster(cluster: string)
    | DeleteCluster(cluster: string)
    | ListContainerInstances(cluster: string)
    | DeregisterContainerInstance(cluster: string, instance: string)
    | RegisterTaskDefinition(family: string, networkMode: Value, container: map<string, Value>)
    | ListTaskDefinitions(family: string, status: string)
    | DeregisterTaskDefinition(revision: nat)
    | DescribeServices(cluster: string, service: string)
    | CreateService(cluster: string, service: string, desiredCount: int, taskDefinition: TaskDefRef,
                    role: Value, binding: LbBinding)
    | UpdateServiceTaskDefinition(cluster: string, service: string, taskDefinition: TaskDefRef)
    | UpdateServiceDesiredCount(cluster: string, service: string, desiredCount: int)
    | UpdateServiceDeployment(cluster: string, service: string, taskDefinition: TaskDefRef,
                              desiredCount: int, forceNewDeployment: bool,
                              maximumPercent: int, minimumHealthyPercent: int)
    | DeleteService(cluster: string, service: string)
    | ListTasks(cluster: string, serviceFilter: Option<string>)
    | StopTask(cluster: string, task: string)
    | DescribeTasks(cluster: string, tasks: seq<string>)
    // Auto Scaling
    | DescribeAutoScalingGroups(group: string)
    | CreateAutoScalingGroup(group: string, launchConfig: string, capacity: Capacity,
                             vpcZoneIdentifier: Value, zones: Value, cooldown: Value,
                             targetGroups: seq<string>)
    | UpdateAutoScalingGroup(group: string, launchConfig: string, capacity: Capacity,
                             defaultCooldown: Option<Value>, vpcZoneIdentifier: Value, zones: Value,
                             terminationPolicies: seq<string>)
    | CreateOrUpdateTags(group: string, key: string, value: string, propagateAtLaunch: bool)
    | DeleteAutoScalingGroup(group: string, forceDelete: bool)
    | DescribeLaunchConfigurations(name: string)
    | CreateLaunchConfiguration(request: map<string, Value>)
    | DeleteLaunchConfiguration(name: string)
    | PutAsgScalingPolicy(group: string, targetValue: int, policyCooldown: int, warmup: int)
    // Application Auto Scaling
    | RegisterScalableTarget(resourceId: string, minCapacity: int, maxCapacity: int)
    | DeregisterScalableTarget(resourceId: string)
    | PutAppScalingPolicy(policyName: string, resourceId: string, targetValue: int, scaleOutCooldown: int)
    | DeleteAppScalingPolicy(policyName: string, resourceId: string)
    // Elastic Load Balancing v2
    | DescribeLoadBalancers(name: string)
    | CreateLoadBalancer(request: map<string, Value>)
    | ModifyLoadBalancerAttributes(lbArn: string, attributes: seq<Attribute>)
    | DescribeTargetGroupsByName(name: string)
    | DescribeTargetGroupsByLb(lbArn: string)
    | CreateTargetGroup(request: map<string, Value>)
    | ModifyTargetGroup(request: map<string, Value>)
    | ModifyTargetGroupAttributes(tgArn: string, attributes: seq<Attribute>)
    | CreateListener(lbArn: string, protocol: Value, port: Value, certificates: Option<seq<Value>>, tgArn: string)
    | DescribeListeners(lbArn: string)
    | DeleteListener(listenerLb: string, port: Value)
    | DeleteLoadBalancer(lbArn: string)
    | DeleteTargetGroup(tgArn: string)
    | DescribeTargetHealth(tgArn: string, target: Option<string>)
    | DeregisterTargets(tgArn: string, targetId: string)
    // SQS
    | CreateQueue(name: string)
    | AddPermission(queueUrl: string, permissionLabel: string, accounts: Value, actions: seq<string>)
    | GetQueueUrl(name: string)
    | DeleteQueue(queueUrl: string)
    // EC2
    | DescribeInstances(filters: seq<(string, seq<string>)>, instanceIds: seq<string>)


  /** A call to the Elastic Load Balancing API. */
  predicate ElbCall(c: Call) {
    || c.DescribeLoadBalancers? || c.CreateLoadBalancer? || c.ModifyLoadBalancerAttributes?
    || c.DescribeTargetGroupsByName? || c.DescribeTargetGroupsByLb? || c.CreateTargetGroup?
    || c.ModifyTargetGroup? || c.ModifyTargetGroupAttributes? || c.CreateListener? || c.DescribeListeners?
    || c.DeleteListener? || c.DeleteLoadBalancer? || c.DeleteTargetGroup? || c.DescribeTargetHealth?
    || c.DeregisterTargets?
  }

  // ---------------------------------------------------------------------------
  // Convergence waits

  /** A wait that polled `n` observations of `s` stopped at the first one satisfying `done`. */
  ghost predicate StoppedAt<T>(s: seq<T>, n: nat, done: T -> bool) {
    && 1 <= n <= |s|
    && done(s[n - 1])
    && forall i :: 0 <= i < n - 1 ==> !done(s[i])
  }

  /** No observation of `s` satisfies `done`: a wait over them never stops. */
  ghost predicate NeverDone<T>(s: seq<T>, done: T -> bool) {
    forall i :: 0 <= i < |s| ==> !done(s[i])
  }

  /** `c`, `n` times: the calls of `n` polls. */
  function Repeat(c: Call, n: nat): (r: seq<Call>)
    ensures |r| == n
    ensures forall i :: 0 <= i < n ==> r[i] == c
  {
    if n == 0 then [] else Repeat(c, n - 1) + [c]
  }

  // ---------------------------------------------------------------------------
  // Task-definition revisions

  ghost predicate StrictlyDecreasing(s: seq<nat>) {
    forall i, j :: 0 <= i < j < |s| ==> s[i] > s[j]
  }

  /** `s` without `x`. */
  function Remove(s: seq<nat>, x: nat): (r: seq<nat>)
    ensures x !in r
    ensures forall y :: y in r <==> y in s && y != x
  {
    if s == [] then []
    else if s[0] == x then Remove(s[1..], x)
    else [s[0]] + Remove(s[1..], x)
  }

  /** Removing the head of a list without duplicates leaves the tail. */
  lemma {:induction false} RemoveAbsent(s: seq<nat>, x: nat)
    requires x !in s
    ensures Remove(s, x) == s
  {
    if s != [] {
      RemoveAbsent(s[1..], x);
    }
  }

  /** Deregistering the second-newest revision of [head] + rest leaves [head] + rest[1..]. */
  lemma RemoveSecond(head: nat, rest: seq<nat>)
    requires rest != []
    requires StrictlyDecreasing([head] + rest)
    ensures Remove([head] + rest, rest[0]) == [head] + rest[1..]
  {
    var s := [head] + rest;
    assert s[1..] == rest;
    assert rest[0] !in rest[1..] by {
      forall k | 0 <= k < |rest[1..]| ensures rest[1..][k] != rest[0] {
        assert s[1] > s[k + 2];
      }
    }
    RemoveAbsent(rest[1..], rest[0]);
  }

  /** Revisions are numbered by the provider, newest first. */
  ghost predicate RevisionsValid(st: ProviderState) {
    && StrictlyDecreasing(st.ecs.active)
    && (forall i :: 0 <= i < |st.ecs.active| ==> st.ecs.active[i] < st.ecs.nextRevision)
  }

  lemma {:induction false} RemovePreservesOrder(s: seq<nat>, x: nat)
    requires StrictlyDecreasing(s)
    ensures StrictlyDecreasing(Remove(s, x))
    ensures forall y :: y in Remove(s, x) ==> y in s
  {
    if s != [] {
      RemovePreservesOrder(s[1..], x);
      var r := Remove(s[1..], x);
      if s[0] != x {
        forall i, j | 0 <= i < j < |[s[0]] + r| ensures ([s[0]] + r)[i] > ([s[0]] + r)[j] {
          if i == 0 {
            assert ([s[0]] + r)[j] in s[1..];
          }
        }
      }
    }
  }

  /** The response describe_services gives for the fleet's service. */
  function DescribedServices(st: ProviderState): seq<Service> {
    if st.ecs.service.Some? then [st.ecs.service.value] else []
  }

  /** Some listener of the load balancer forwards to the target group. */
  ghost predicate Forwards(e: ElbState, lbArn: string, tgArn: string) {
    exists i :: 0 <= i < |e.listeners| && e.listeners[i].lbArn == lbArn && e.listeners[i].targetGroupArn == tgArn
  }

  lemma ForwardsByListener(e: ElbState, pre: seq<Listener>, l: Listener, post: seq<Listener>)
    requires e.listeners == pre + [l] + post
    ensures Forwards(e, l.lbArn, l.targetGroupArn)
  {
    assert e.listeners[|pre|] == l;
  }

  /** Target groups describe_target_groups reports for a load balancer: the fleet's target
      group, once a listener of that load balancer forwards to it. */
  function TargetGroupsOf(st: ProviderState, lbArn: string): (r: seq<Tg>)
    ensures r != [] <==> st.elb.tg.Some? && Forwards(st.elb, lbArn, st.elb.tg.value.arn)
    ensures r != [] ==> r == [st.elb.tg.value]
  {
    if st.elb.tg.Some? && exists i :: 0 <= i < |st.elb.listeners| && st.elb.listeners[i].lbArn == lbArn
                                   && st.elb.listeners[i].targetGroupArn == st.elb.tg.value.arn
    then [st.elb.tg.value]
    else []
  }

  function TaskArns(ts: seq<Task>): (arns: seq<string>)
    ensures |arns| == |ts|
    ensures forall i :: 0 <= i < |ts| ==> arns[i] == ts[i].arn
  {
    if ts == [] then [] else [ts[0].arn] + TaskArns(ts[1..])
  }

  function ListenerCerts(certs: Option<seq<Value>>): seq<Value> {
    if certs.Some? then certs.value else []
  }

  // ---------------------------------------------------------------------------
  // The provider

  class Cloud {
    var st: ProviderState
    var obs: Observations
    var trace: seq<Call>

    ghost predicate Valid()
      reads this
    {
      RevisionsValid(st)
    }

    constructor (st0: ProviderState, obs0: Observations)
      requires RevisionsValid(st0)
      ensures Valid() && st == st0 && obs == obs0 && trace == []
    {
      st, obs, trace := st0, obs0, [];
    }

    // ----- ECS ----------------------------------------------------------------

    method CallCreateCluster(name: string)
      modifies this
      ensures st == old(st).(ecs := old(st).ecs.(clusterActive := true)) && obs == old(obs)
      ensures trace == old(trace) + [CreateCluster(name)]
    {
      st := st.(ecs := st.ecs.(clusterActive := true));
      trace := trace + [CreateCluster(name)];
    }

    method CallDeleteCluster(name: string) returns (o: Outcome)
      modifies this
      ensures o.Pass? <==> old(st).ecs.clusterActive
      ensures st == old(st).(ecs := old(st).ecs.(clusterActive := false)) && obs == old(obs)
      ensures trace == old(trace) + [DeleteCluster(name)]
    {
      o := if st.ecs.clusterActive then Pass else Fail(NotFound("cluster " + name));
      st := st.(ecs := st.ecs.(clusterActive := false));
      trace := trace + [DeleteCluster(name)];
    }

    method CallListContainerInstances(name: string) returns (r: Result<Page>)
      modifies this
      ensures old(obs).instancePages == [] ==> r == Failure(Exhausted("list_container_instances"))
      ensures old(obs).instancePages == [] ==> obs == old(obs) && trace == old(trace)
      ensures old(obs).instancePages != [] ==>
                && r == Success(old(obs).instancePages[0])
                && obs == old(obs).(instancePages := old(obs).instancePages[1..])
                && trace == old(trace) + [ListContainerInstances(name)]
      ensures st == old(st)
    {
      if obs.instancePages == [] {
        r := Failure(Exhausted("list_container_instances"));
      } else {
        r := Success(obs.instancePages[0]);
        obs := obs.(instancePages := obs.instancePages[1..]);
        trace := trace + [ListContainerInstances(name)];
      }
    }

    method CallDeregisterContainerInstance(cluster: string, instance: string)
      modifies this
      ensures st == old(st) && obs == old(obs)
      ensures trace == old(trace) + [DeregisterContainerInstance(cluster, instance)]
    {
      trace := trace + [DeregisterContainerInstance(cluster, instance)];
    }

    /** Registering gives the family a new revision, newer than every existing one. */
    method CallRegisterTaskDefinition(family: string, networkMode: Value, container: map<string, Value>)
      returns (revision: nat)
      requires Valid()
      modifies this
      ensures Valid()
      ensures revision == old(st).ecs.nextRevision
      ensures st == old(st).(ecs := old(st).ecs.(active := [revision] + old(st).ecs.active, nextRevision := revision + 1))
      ensures obs == old(obs)
      ensures trace == old(trace) + [RegisterTaskDefinition(family, networkMode, container)]
    {
      revision := st.ecs.nextRevision;
      st := st.(ecs := st.ecs.(active := [revision] + st.ecs.active, nextRevision := revision + 1));
      trace := trace + [RegisterTaskDefinition(family, networkMode, container)];
    }

    method CallListTaskDefinitions(family: string, status: string) returns (revisions: seq<nat>)
      modifies this
      ensures revisions == if status == "ACTIVE" then st.ecs.active else st.ecs.inactive
      ensures st == old(st) && obs == old(obs)
      ensures trace == old(trace) + [ListTaskDefinitions(family, status)]
    {
      revisions := if status == "ACTIVE" then st.ecs.active else st.ecs.inactive;
      trace := trace + [ListTaskDefinitions(family, status)];
    }

    /** Deregistering an ACTIVE revision makes it INACTIVE; any other revision is an error. */
    method CallDeregisterTaskDefinition(revision: nat) returns (o: Outcome)
      requires Valid()
      modifies this
      ensures Valid()
      ensures o.Pass? <==> revision in old(st).ecs.active
      ensures o.Pass? ==> st == old(st).(ecs := old(st).ecs.(active := Remove(old(st).ecs.active, revision),
                                         inactive := old(st).ecs.inactive + [revision]))
      ensures o.Fail? ==> st == old(st)
      ensures obs == old(obs)
      ensures trace == old(trace) + [DeregisterTaskDefinition(revision)]
    {
      if revision in st.ecs.active {
        RemovePreservesOrder(st.ecs.active, revision);
        var r := Remove(st.ecs.active, revision);
        forall i | 0 <= i < |r| ensures r[i] < st.ecs.nextRevision {
          assert r[i] in st.ecs.active;
        }
        st := st.(ecs := st.ecs.(active := Remove(st.ecs.active, revision), inactive := st.ecs.inactive + [revision]));
        o := Pass;
      } else {
        o := Fail(NotFound("task definition"));
      }
      trace := trace + [DeregisterTaskDefinition(revision)];
    }

    method CallDescribeServices(cluster: string, service: string) returns (services: seq<Service>)
      modifies this
      ensures services == DescribedServices(st)
      ensures st == old(st) && obs == old(obs)
      ensures trace == old(trace) + [DescribeServices(cluster, service)]
    {
      services := DescribedServices(st);
      trace := trace + [DescribeServices(cluster, service)];
    }

    /** describe_services polled for (runningCount, desiredCount). */
    method PollTaskCount(cluster: string, service: string) returns (r: Result<(int, int)>)
      modifies this
      ensures old(obs).taskCounts == [] ==> r == Failure(Exhausted("describe_services"))
      ensures old(obs).taskCounts == [] ==> obs == old(obs) && trace == old(trace)
      ensures old(obs).taskCounts != [] ==>
                && r == Success(old(obs).taskCounts[0])
                && obs == old(obs).(taskCounts := old(obs).taskCounts[1..])
                && trace == old(trace) + [DescribeServices(cluster, service)]
      ensures st == old(st)
    {
      if obs.taskCounts == [] {
        r := Failure(Exhausted("describe_services"));
      } else {
        r := Success(obs.taskCounts[0]);
        obs := obs.(taskCounts := obs.taskCounts[1..]);
        trace := trace + [DescribeServices(cluster, service)];
      }
    }

    /** describe_services polled for the statuses of the services it lists. */
    method PollServiceStatuses(cluster: string, service: string) returns (r: Result<seq<string>>)
      modifies this
      ensures old(obs).serviceStatuses == [] ==> r == Failure(Exhausted("describe_services"))
      ensures old(obs).serviceStatuses == [] ==> obs == old(obs) && trace == old(trace)
      ensures old(obs).serviceStatuses != [] ==>
                && r == Success(old(obs).serviceStatuses[0])
                && obs == old(obs).(serviceStatuses := old(obs).serviceStatuses[1..])
                && trace == old(trace) + [DescribeServices(cluster, service)]
      ensures st == old(st)
    {
      if obs.serviceStatuses == [] {
        r := Failure(Exhausted("describe_services"));
      } else {
        r := Success(obs.serviceStatuses[0]);
        obs := obs.(serviceStatuses := obs.serviceStatuses[1..]);
        trace := trace + [DescribeServices(cluster, service)];
      }
    }

    method CallCreateService(cluster: string, service: string, desired: int, td: TaskDefRef,
                             role: Value, binding: LbBinding)
      modifies this
      ensures st == old(st).(ecs := old(st).ecs.(service := Some(Service("ACTIVE", td, desired))))
      ensures obs == old(obs)
      ensures trace == old(trace) + [CreateService(cluster, service, desired, td, role, binding)]
    {
      st := st.(ecs := st.ecs.(service := Some(Service("ACTIVE", td, desired))));
      trace := trace + [CreateService(cluster, service, desired, td, role, binding)];
    }

    /** update_service raises unless the service exists. */
    method CallUpdateServiceTaskDefinition(cluster: string, service: string, td: TaskDefRef)
      returns (o: Outcome)
      modifies this
      ensures o.Pass? <==> old(st).ecs.service.Some?
      ensures o.Pass? ==> st == old(st).(ecs := old(st).ecs.(service := Some(old(st).ecs.service.value.(taskDefinition := td))))
      ensures o.Fail? ==> st == old(st)
      ensures obs == old(obs)
      ensures trace == old(trace) + [UpdateServiceTaskDefinition(cluster, service, td)]
    {
      if st.ecs.service.Some? {
        st := st.(ecs := st.ecs.(service := Some(st.ecs.service.value.(taskDefinition := td))));
        o := Pass;
      } else {
        o := Fail(NotFound("service " + service));
      }
      trace := trace + [UpdateServiceTaskDefinition(cluster, service, td)];
    }

    method CallUpdateServiceDesiredCount(cluster: string, service: string, desired: int)
      returns (o: Outcome)
      modifies this
      ensures o.Pass? <==> old(st).ecs.service.Some?
      ensures o.Pass? ==> st == old(st).(ecs := old(st).ecs.(service := Some(old(st).ecs.service.value.(desiredCount := desired))))
      ensures o.Fail? ==> st == old(st)
      ensures obs == old(obs)
      ensures trace == old(trace) + [UpdateServiceDesiredCount(cluster, service, desired)]
    {
      if st.ecs.service.Some? {
        st := st.(ecs := st.ecs.(service := Some(st.ecs.service.value.(desiredCount := desired))));
        o := Pass;
      } else {
        o := Fail(NotFound("service " + service));
      }
      trace := trace + [UpdateServiceDesiredCount(cluster, service, desired)];
    }

    method CallUpdateServiceDeployment(cluster: string, service: string, td: TaskDefRef, desired: int,
                                       force: bool, maximumPercent: int, minimumHealthyPercent: int)
      returns (o: Outcome)
      modifies this
      ensures o.Pass? <==> old(st).ecs.service.Some?
      ensures o.Pass? ==> st == old(st).(ecs := old(st).ecs.(service := Some(old(st).ecs.service.value.(taskDefinition := td,
                                                                                desiredCount := desired))))
      ensures o.Fail? ==> st == old(st)
      ensures obs == old(obs)
      ensures trace == old(trace) + [UpdateServiceDeployment(cluster, service, td, desired, force,
                                                              maximumPercent, minimumHealthyPercent)]
    {
      if st.ecs.service.Some? {
        st := st.(ecs := st.ecs.(service := Some(st.ecs.service.value.(taskDefinition := td, desiredCount := desired))));
        o := Pass;
      } else {
        o := Fail(NotFound("service " + service));
      }
      trace := trace + [UpdateServiceDeployment(cluster, service, td, desired, force,
                                                maximumPercent, minimumHealthyPercent)];
    }

    method CallDeleteService(cluster: string, service: string) returns (o: Outcome)
      modifies this
      ensures o.Pass? <==> old(st).ecs.service.Some?
      ensures st == old(st).(ecs := old(st).ecs.(service := None)) && obs == old(obs)
      ensures trace == old(trace) + [DeleteService(cluster, service)]
    {
      o := if st.ecs.service.Some? then Pass else Fail(NotFound("service " + service));
      st := st.(ecs := st.ecs.(service := None));
      trace := trace + [DeleteService(cluster, service)];
    }

    /** list_tasks, one page per call, while stopping the service's tasks. */
    method PollTaskPage(cluster: string, service: string) returns (r: Result<Page>)
      modifies this
      ensures old(obs).taskPages == [] ==> r == Failure(Exhausted("list_tasks"))
      ensures old(obs).taskPages == [] ==> obs == old(obs) && trace == old(trace)
      ensures old(obs).taskPages != [] ==>
                && r == Success(old(obs).taskPages[0])
                && obs == old(obs).(taskPages := old(obs).taskPages[1..])
                && trace == old(trace) + [ListTasks(cluster, Some(service))]
      ensures st == old(st)
    {
      if obs.taskPages == [] {
        r := Failure(Exhausted("list_tasks"));
      } else {
        r := Success(obs.taskPages[0]);
        obs := obs.(taskPages := obs.taskPages[1..]);
        trace := trace + [ListTasks(cluster, Some(service))];
      }
    }

    method CallStopTask(cluster: string, task: string)
      modifies this
      ensures st == old(st) && obs == old(obs)
      ensures trace == old(trace) + [StopTask(cluster, task)]
    {
      trace := trace + [StopTask(cluster, task)];
    }

    /** list_tasks of the cluster's RUNNING tasks. */
    method CallListRunningTasks(cluster: string) returns (arns: seq<string>)
      modifies this
      ensures arns == TaskArns(st.ecs.runningTasks)
      ensures st == old(st) && obs == old(obs)
      ensures trace == old(trace) + [ListTasks(cluster, None)]
    {
      arns := TaskArns(st.ecs.runningTasks);
      trace := trace + [ListTasks(cluster, None)];
    }

    method CallDescribeTasks(cluster: string, arns: seq<string>) returns (tasks: seq<Task>)
      modifies this
      ensures tasks == st.ecs.runningTasks
      ensures st == old(st) && obs == old(obs)
      ensures trace == old(trace) + [DescribeTasks(cluster, arns)]
    {
      tasks := st.ecs.runningTasks;
      trace := trace + [DescribeTasks(cluster, arns)];
    }

    // ----- Auto Scaling ---------------------------------------------------------

    method CallDescribeAutoScalingGroups(group: string) returns (exists_: bool)
      modifies this
      ensures exists_ == st.scaling.asg.Some?
      ensures st == old(st) && obs == old(obs)
      ensures trace == old(trace) + [DescribeAutoScalingGroups(group)]
    {
      exists_ := st.scaling.asg.Some?;
      trace := trace + [DescribeAutoScalingGroups(group)];
    }

    /** describe_auto_scaling_groups polled after the delete call: the groups still listed. */
    method PollLingeringGroups(group: string) returns (r: Result<seq<string>>)
      modifies this
      ensures old(obs).lingeringGroups == [] ==> r == Failure(Exhausted("describe_auto_scaling_groups"))
      ensures old(obs).lingeringGroups == [] ==> obs == old(obs) && trace == old(trace)
      ensures old(obs).lingeringGroups != [] ==>
                && r == Success(old(obs).lingeringGroups[0])
                && obs == old(obs).(lingeringGroups := old(obs).lingeringGroups[1..])
                && trace == old(trace) + [DescribeAutoScalingGroups(group)]
      ensures st == old(st)
    {
      if obs.lingeringGroups == [] {
        r := Failure(Exhausted("describe_auto_scaling_groups"));
      } else {
        r := Success(obs.lingeringGroups[0]);
        obs := obs.(lingeringGroups := obs.lingeringGroups[1..]);
        trace := trace + [DescribeAutoScalingGroups(group)];
      }
    }

    method CallCreateAutoScalingGroup(group: string, lc: string, cap: Capacity, vpc: Value, zones: Value,
                                      cooldown: Value, tgs: seq<string>)
      modifies this
      ensures st == old(st).(scaling := old(st).scaling.(asg := Some(Asg(cap, lc, cooldown, vpc, zones, "Default", tgs, None))))
      ensures obs == old(obs)
      ensures trace == old(trace) + [CreateAutoScalingGroup(group, lc, cap, vpc, zones, cooldown, tgs)]
    {
      st := st.(scaling := st.scaling.(asg := Some(Asg(cap, lc, cooldown, vpc, zones, "Default", tgs, None))));
      trace := trace + [CreateAutoScalingGroup(group, lc, cap, vpc, zones, cooldown, tgs)];
    }

    /** update_auto_scaling_group raises unless the group exists; an omitted DefaultCooldown
        keeps the group's cooldown. */
    method CallUpdateAutoScalingGroup(group: string, lc: string, cap: Capacity, cooldown: Option<Value>,
                                      vpc: Value, zones: Value, policies: seq<string>)
      returns (o: Outcome)
      requires |policies| == 1
      modifies this
      ensures o.Pass? <==> old(st).scaling.asg.Some?
      ensures o.Pass? ==>
        st == old(st).(scaling := old(st).scaling.(asg := Some(Resized(old(st).scaling.asg.value, lc, cap, cooldown,
                                                                         vpc, zones, policies[0]))))
      ensures o.Fail? ==> st == old(st)
      ensures obs == old(obs)
      ensures trace == old(trace) + [UpdateAutoScalingGroup(group, lc, cap, cooldown, vpc, zones, policies)]
    {
      if st.scaling.asg.Some? {
        var g := st.scaling.asg.value;
        st := st.(scaling := st.scaling.(asg := Some(Resized(g, lc, cap, cooldown, vpc, zones, policies[0]))));
        o := Pass;
      } else {
        o := Fail(NotFound("auto scaling group " + group));
      }
      trace := trace + [UpdateAutoScalingGroup(group, lc, cap, cooldown, vpc, zones, policies)];
    }

    method CallCreateOrUpdateTags(group: string, key: string, value: string)
      modifies this
      ensures st == old(st).(scaling := old(st).scaling.(asg := if old(st).scaling.asg.Some? then Some(old(st).scaling.asg.value.(nameTag := Some(value)))
                                    else None))
      ensures obs == old(obs)
      ensures trace == old(trace) + [CreateOrUpdateTags(group, key, value, true)]
    {
      st := st.(scaling := st.scaling.(asg := if st.scaling.asg.Some? then Some(st.scaling.asg.value.(nameTag := Some(value))) else None));
      trace := trace + [CreateOrUpdateTags(group, key, value, true)];
    }

    method CallDeleteAutoScalingGroup(group: string) returns (o: Outcome)
      modifies this
      ensures o.Pass? <==> old(st).scaling.asg.Some?
      ensures st == old(st).(scaling := old(st).scaling.(asg := None, asgPolicyTarget := None)) && obs == old(obs)
      ensures trace == old(trace) + [DeleteAutoScalingGroup(group, true)]
    {
      o := if st.scaling.asg.Some? then Pass else Fail(NotFound("auto scaling group " + group));
      st := st.(scaling := st.scaling.(asg := None, asgPolicyTarget := None));
      trace := trace + [DeleteAutoScalingGroup(group, true)];
    }

    method CallDescribeLaunchConfigurations(name: string) returns (exists_: bool)
      modifies this
      ensures exists_ == st.scaling.launchConfig.Some?
      ensures st == old(st) && obs == old(obs)
      ensures trace == old(trace) + [DescribeLaunchConfigurations(name)]
    {
      exists_ := st.scaling.launchConfig.Some?;
      trace := trace + [DescribeLaunchConfigurations(name)];
    }

    method CallCreateLaunchConfiguration(request: map<string, Value>)
      modifies this
      ensures st == old(st).(scaling := old(st).scaling.(launchConfig := Some(request))) && obs == old(obs)
      ensures trace == old(trace) + [CreateLaunchConfiguration(request)]
    {
      st := st.(scaling := st.scaling.(launchConfig := Some(request)));
      trace := trace + [CreateLaunchConfiguration(request)];
    }

    method CallDeleteLaunchConfiguration(name: string) returns (o: Outcome)
      modifies this
      ensures o.Pass? <==> old(st).scaling.launchConfig.Some?
      ensures st == old(st).(scaling := old(st).scaling.(launchConfig := None)) && obs == old(obs)
      ensures trace == old(trace) + [DeleteLaunchConfiguration(name)]
    {
      o := if st.scaling.launchConfig.Some? then Pass else Fail(NotFound("launch configuration " + name));
      st := st.(scaling := st.scaling.(launchConfig := None));
      trace := trace + [DeleteLaunchConfiguration(name)];
    }

    method CallPutAsgScalingPolicy(group: string, target: int, cooldown: int, warmup: int)
      returns (o: Outcome)
      modifies this
      ensures o.Pass? <==> old(st).scaling.asg.Some?
      ensures o.Pass? ==> st == old(st).(scaling := old(st).scaling.(asgPolicyTarget := Some(target)))
      ensures o.Fail? ==> st == old(st)
      ensures obs == old(obs)
      ensures trace == old(trace) + [PutAsgScalingPolicy(group, target, cooldown, warmup)]
    {
      if st.scaling.asg.Some? {
        st := st.(scaling := st.scaling.(asgPolicyTarget := Some(target)));
        o := Pass;
      } else {
        o := Fail(NotFound("auto scaling group " + group));
      }
      trace := trace + [PutAsgScalingPolicy(group, target, cooldown, warmup)];
    }

    // ----- Application Auto Scaling ---------------------------------------------

    /** Registering a scalable target raises unless the ECS service exists. */
    method CallRegisterScalableTarget(resourceId: string, minCapacity: int, maxCapacity: int)
      returns (o: Outcome)
      modifies this
      ensures o.Pass? <==> old(st).ecs.service.Some?
      ensures o.Pass? ==> st == old(st).(app := old(st).app.(scalableTarget := Some(ScalableTarget(minCapacity, maxCapacity))))
      ensures o.Fail? ==> st == old(st)
      ensures obs == old(obs)
      ensures trace == old(trace) + [RegisterScalableTarget(resourceId, minCapacity, maxCapacity)]
    {
      if st.ecs.service.Some? {
        st := st.(app := st.app.(scalableTarget := Some(ScalableTarget(minCapacity, maxCapacity))));
        o := Pass;
      } else {
        o := Fail(NotFound("ECS service " + resourceId));
      }
      trace := trace + [RegisterScalableTarget(resourceId, minCapacity, maxCapacity)];
    }

    method CallDeregisterScalableTarget(resourceId: string) returns (o: Outcome)
      modifies this
      ensures o.Pass? <==> old(st).app.scalableTarget.Some?
      ensures st == old(st).(app := old(st).app.(scalableTarget := None)) && obs == old(obs)
      ensures trace == old(trace) + [DeregisterScalableTarget(resourceId)]
    {
      o := if st.app.scalableTarget.Some? then Pass else Fail(NotFound("scalable target " + resourceId));
      st := st.(app := st.app.(scalableTarget := None));
      trace := trace + [DeregisterScalableTarget(resourceId)];
    }

    /** A scaling policy needs a registered scalable target. */
    method CallPutAppScalingPolicy(policy: string, resourceId: string, target: int, scaleOutCooldown: int)
      returns (o: Outcome)
      modifies this
      ensures o.Pass? <==> old(st).app.scalableTarget.Some?
      ensures o.Pass? ==> st == old(st).(app := old(st).app.(appPolicyTarget := Some(target)))
      ensures o.Fail? ==> st == old(st)
      ensures obs == old(obs)
      ensures trace == old(trace) + [PutAppScalingPolicy(policy, resourceId, target, scaleOutCooldown)]
    {
      if st.app.scalableTarget.Some? {
        st := st.(app := st.app.(appPolicyTarget := Some(target)));
        o := Pass;
      } else {
        o := Fail(NotFound("scalable target " + resourceId));
      }
      trace := trace + [PutAppScalingPolicy(policy, resourceId, target, scaleOutCooldown)];
    }

    method CallDeleteAppScalingPolicy(policy: string, resourceId: string) returns (o: Outcome)
      modifies this
      ensures o.Pass? <==> old(st).app.appPolicyTarget.Some?
      ensures st == old(st).(app := old(st).app.(appPolicyTarget := None)) && obs == old(obs)
      ensures trace == old(trace) + [DeleteAppScalingPolicy(policy, resourceId)]
    {
      o := if st.app.appPolicyTarget.Some? then Pass else Fail(NotFound("scaling policy " + policy));
      st := st.(app := st.app.(appPolicyTarget := None));
      trace := trace + [DeleteAppScalingPolicy(policy, resourceId)];
    }

    // ----- Elastic Load Balancing -------------------------------------------------

    /** describe_load_balancers by name raises LoadBalancerNotFound when there is none. */
    method CallDescribeLoadBalancers(name: string) returns (r: Result<seq<Lb>>)
      modifies this
      ensures r == if st.elb.lb.Some? && st.elb.lb.value.name == name then Success([st.elb.lb.value])
                   else Failure(NotFound("load balancer " + name))
      ensures st == old(st) && obs == old(obs)
      ensures trace == old(trace) + [DescribeLoadBalancers(name)]
    {
      r := if st.elb.lb.Some? && st.elb.lb.value.name == name then Success([st.elb.lb.value])
           else Failure(NotFound("load balancer " + name));
      trace := trace + [DescribeLoadBalancers(name)];
    }

    method CallCreateLoadBalancer(name: string, request: map<string, Value>) returns (lb: Lb)
      modifies this
      ensures lb == Lb(name, "loadbalancer/" + name, name + ".elb")
      ensures st == old(st).(elb := old(st).elb.(lb := Some(lb))) && obs == old(obs)
      ensures trace == old(trace) + [CreateLoadBalancer(request)]
    {
      lb := Lb(name, "loadbalancer/" + name, name + ".elb");
      st := st.(elb := st.elb.(lb := Some(lb)));
      trace := trace + [CreateLoadBalancer(request)];
    }

    method CallModifyLoadBalancerAttributes(arn: string, attrs: seq<Attribute>)
      modifies this
      ensures st == old(st).(elb := old(st).elb.(lbAttributes := attrs)) && obs == old(obs)
      ensures trace == old(trace) + [ModifyLoadBalancerAttributes(arn, attrs)]
    {
      st := st.(elb := st.elb.(lbAttributes := attrs));
      trace := trace + [ModifyLoadBalancerAttributes(arn, attrs)];
    }

    /** describe_target_groups by name raises TargetGroupNotFound when there is none. */
    method CallDescribeTargetGroupsByName(name: string) returns (r: Result<seq<Tg>>)
      modifies this
      ensures r == if st.elb.tg.Some? && st.elb.tg.value.name == name then Success([st.elb.tg.value])
                   else Failure(NotFound("target group " + name))
      ensures st == old(st) && obs == old(obs)
      ensures trace == old(trace) + [DescribeTargetGroupsByName(name)]
    {
      r := if st.elb.tg.Some? && st.elb.tg.value.name == name then Success([st.elb.tg.value])
           else Failure(NotFound("target group " + name));
      trace := trace + [DescribeTargetGroupsByName(name)];
    }

    /** describe_target_groups by load balancer; boto3 rejects a missing (None) ARN. */
    method CallDescribeTargetGroupsByLb(lbArn: Option<string>) returns (r: Result<seq<Tg>>)
      modifies this
      ensures lbArn.None? ==> r == Failure(Raised("Parameter validation failed: LoadBalancerArn"))
      ensures lbArn.None? ==> st == old(st) && obs == old(obs) && trace == old(trace)
      ensures lbArn.Some? ==> r == Success(TargetGroupsOf(st, lbArn.value)) && st == old(st)
                              && obs == old(obs)
                              && trace == old(trace) + [DescribeTargetGroupsByLb(lbArn.value)]
    {
      if lbArn.None? {
        r := Failure(Raised("Parameter validation failed: LoadBalancerArn"));
      } else {
        r := Success(TargetGroupsOf(st, lbArn.value));
        trace := trace + [DescribeTargetGroupsByLb(lbArn.value)];
      }
    }

    method CallCreateTargetGroup(name: string, request: map<string, Value>) returns (tg: Tg)
      modifies this
      ensures tg == Tg(name, "targetgroup/" + name)
      ensures st == old(st).(elb := old(st).elb.(tg := Some(tg), tgSettings := request)) && obs == old(obs)
      ensures trace == old(trace) + [CreateTargetGroup(request)]
    {
      tg := Tg(name, "targetgroup/" + name);
      st := st.(elb := st.elb.(tg := Some(tg), tgSettings := request));
      trace := trace + [CreateTargetGroup(request)];
    }

    /** modify_target_group on the existing target group; the response lists it. */
    method CallModifyTargetGroup(existing: Tg, request: map<string, Value>) returns (tg: Tg)
      modifies this
      ensures tg == existing
      ensures st == old(st).(elb := old(st).elb.(tgSettings := old(st).elb.tgSettings + request)) && obs == old(obs)
      ensures trace == old(trace) + [ModifyTargetGroup(request)]
    {
      tg := existing;
      st := st.(elb := st.elb.(tgSettings := st.elb.tgSettings + request));
      trace := trace + [ModifyTargetGroup(request)];
    }

    method CallModifyTargetGroupAttributes(arn: string, attrs: seq<Attribute>)
      modifies this
      ensures st == old(st).(elb := old(st).elb.(tgAttributes := attrs)) && obs == old(obs)
      ensures trace == old(trace) + [ModifyTargetGroupAttributes(arn, attrs)]
    {
      st := st.(elb := st.elb.(tgAttributes := attrs));
      trace := trace + [ModifyTargetGroupAttributes(arn, attrs)];
    }

    method CallCreateListener(lbArn: string, protocol: Value, port: Value, certs: Option<seq<Value>>,
                              tgArn: string)
      modifies this
      ensures st == old(st).(elb := old(st).elb.(listeners := old(st).elb.listeners
                                          + [Listener(lbArn, protocol, port, ListenerCerts(certs), tgArn)]))
      ensures obs == old(obs)
      ensures trace == old(trace) + [CreateListener(lbArn, protocol, port, certs, tgArn)]
    {
      st := st.(elb := st.elb.(listeners := st.elb.listeners + [Listener(lbArn, protocol, port, ListenerCerts(certs), tgArn)]));
      trace := trace + [CreateListener(lbArn, protocol, port, certs, tgArn)];
    }

    method CallDescribeListeners(lbArn: string) returns (listeners: seq<Listener>)
      modifies this
      ensures listeners == st.elb.listeners
      ensures st == old(st) && obs == old(obs)
      ensures trace == old(trace) + [DescribeListeners(lbArn)]
    {
      listeners := st.elb.listeners;
      trace := trace + [DescribeListeners(lbArn)];
    }

    method CallDeleteListener(l: Listener)
      modifies this
      ensures st == old(st) && obs == old(obs)
      ensures trace == old(trace) + [DeleteListener(l.lbArn, l.port)]
    {
      trace := trace + [DeleteListener(l.lbArn, l.port)];
    }

    method CallDeleteLoadBalancer(arn: string)
      modifies this
      ensures st == old(st).(elb := old(st).elb.(lb := None, listeners := [], lbAttributes := [])) && obs == old(obs)
      ensures trace == old(trace) + [DeleteLoadBalancer(arn)]
    {
      st := st.(elb := st.elb.(lb := None, listeners := [], lbAttributes := []));
      trace := trace + [DeleteLoadBalancer(arn)];
    }

    method CallDeleteTargetGroup(arn: string)
      modifies this
      ensures st == old(st).(elb := old(st).elb.(tg := None, tgSettings := map[], tgAttributes := [])) && obs == old(obs)
      ensures trace == old(trace) + [DeleteTargetGroup(arn)]
    {
      st := st.(elb := st.elb.(tg := None, tgSettings := map[], tgAttributes := []));
      trace := trace + [DeleteTargetGroup(arn)];
    }

    /** describe_target_health of the whole target group. */
    method PollTargetHealth(tgArn: string) returns (r: Result<seq<TargetHealth>>)
      modifies this
      ensures old(obs).targetHealth == [] ==> r == Failure(Exhausted("describe_target_health"))
      ensures old(obs).targetHealth == [] ==> obs == old(obs) && trace == old(trace)
      ensures old(obs).targetHealth != [] ==>
                && r == Success(old(obs).targetHealth[0])
                && obs == old(obs).(targetHealth := old(obs).targetHealth[1..])
                && trace == old(trace) + [DescribeTargetHealth(tgArn, None)]
      ensures st == old(st)
    {
      if obs.targetHealth == [] {
        r := Failure(Exhausted("describe_target_health"));
      } else {
        r := Success(obs.targetHealth[0]);
        obs := obs.(targetHealth := obs.targetHealth[1..]);
        trace := trace + [DescribeTargetHealth(tgArn, None)];
      }
    }

    /** describe_target_health of one target that is being deregistered. */
    method PollDrainState(tgArn: string, id: string) returns (r: Result<seq<TargetHealth>>)
      modifies this
      ensures old(obs).drainStates == [] ==> r == Failure(Exhausted("describe_target_health"))
      ensures old(obs).drainStates == [] ==> obs == old(obs) && trace == old(trace)
      ensures old(obs).drainStates != [] ==>
                && r == Success(old(obs).drainStates[0])
                && obs == old(obs).(drainStates := old(obs).drainStates[1..])
                && trace == old(trace) + [DescribeTargetHealth(tgArn, Some(id))]
      ensures st == old(st)
    {
      if obs.drainStates == [] {
        r := Failure(Exhausted("describe_target_health"));
      } else {
        r := Success(obs.drainStates[0]);
        obs := obs.(drainStates := obs.drainStates[1..]);
        trace := trace + [DescribeTargetHealth(tgArn, Some(id))];
      }
    }

    method CallDeregisterTargets(tgArn: string, id: string)
      modifies this
      ensures st == old(st) && obs == old(obs)
      ensures trace == old(trace) + [DeregisterTargets(tgArn, id)]
    {
      trace := trace + [DeregisterTargets(tgArn, id)];
    }

    // ----- SQS --------------------------------------------------------------------

    /** create_queue is idempotent by name and returns the queue's URL. */
    method CallCreateQueue(name: string) returns (url: string)
      modifies this
      ensures url == "queue/" + name
      ensures st == old(st).(queue := if old(st).queue.Some? && old(st).queue.value.name == name
                                      then old(st).queue else Some(Queue(name, url, [])))
      ensures obs == old(obs)
      ensures trace == old(trace) + [CreateQueue(name)]
    {
      url := "queue/" + name;
      st := st.(queue := if st.queue.Some? && st.queue.value.name == name then st.queue
                         else Some(Queue(name, url, [])));
      trace := trace + [CreateQueue(name)];
    }

    method CallAddPermission(url: string, permissionLabel: string, accounts: Value, actions: seq<string>)
      modifies this
      ensures st == old(st).(queue := if old(st).queue.Some?
                                      then Some(old(st).queue.value.(permissions := old(st).queue.value.permissions
                                                                     + [Permission(permissionLabel, accounts, actions)]))
                                      else None)
      ensures obs == old(obs)
      ensures trace == old(trace) + [AddPermission(url, permissionLabel, accounts, actions)]
    {
      st := st.(queue := if st.queue.Some?
                         then Some(st.queue.value.(permissions := st.queue.value.permissions
                                                   + [Permission(permissionLabel, accounts, actions)]))
                         else None);
      trace := trace + [AddPermission(url, permissionLabel, accounts, actions)];
    }

    /** get_queue_url raises QueueDoesNotExist when there is no such queue. */
    method CallGetQueueUrl(name: string) returns (r: Result<Option<string>>)
      modifies this
      ensures r == if st.queue.Some? && st.queue.value.name == name then Success(Some(st.queue.value.url))
                   else Failure(NotFound("queue " + name))
      ensures st == old(st) && obs == old(obs)
      ensures trace == old(trace) + [GetQueueUrl(name)]
    {
      r := if st.queue.Some? && st.queue.value.name == name then Success(Some(st.queue.value.url))
           else Failure(NotFound("queue " + name));
      trace := trace + [GetQueueUrl(name)];
    }

    method CallDeleteQueue(url: string)
      modifies this
      ensures st == old(st).(queue := None) && obs == old(obs)
      ensures trace == old(trace) + [DeleteQueue(url)]
    {
      st := st.(queue := None);
      trace := trace + [DeleteQueue(url)];
    }

    // ----- EC2 --------------------------------------------------------------------

    /** describe_instances: its reservations are the next observation. */
    method PollInstances(filters: seq<(string, seq<string>)>, ids: seq<string>)
      returns (r: Result<seq<Reservation>>)
      modifies this
      ensures old(obs).reservations == [] ==> r == Failure(Exhausted("describe_instances"))
      ensures old(obs).reservations == [] ==> obs == old(obs) && trace == old(trace)
      ensures old(obs).reservations != [] ==>
                && r == Success(old(obs).reservations[0])
                && obs == old(obs).(reservations := old(obs).reservations[1..])
                && trace == old(trace) + [DescribeInstances(filters, ids)]
      ensures st == old(st)
    {
      if obs.reservations == [] {
        r := Failure(Exhausted("describe_instances"));
      } else {
        r := Success(obs.reservations[0]);
        obs := obs.(reservations := obs.reservations[1..]);
        trace := trace + [DescribeInstances(filters, ids)];
      }
    }
  }
}
