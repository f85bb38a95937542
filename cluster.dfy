/** The cluster procedures (scripts/cluster.py): create or update the whole fleet, upgrade
    it, and destroy it, each a fixed sequence of client steps. A step that raises ends the
    procedure. The order is stated on the provider call trace: each procedure's trace is
    the concatenation of its steps' calls, in program order. */
module Cluster {
  import opened Wrappers
  import opened Descriptor
  import opened Provider
  import opened Ecs
  import Sqs
  import AutoScale
  import Elb
  import Options

  /** The revision a fleet is upgraded to is the only ACTIVE one afterwards: pruning a list
      that starts with it keeps exactly it. */
  lemma PrunedKeepsNewest(st: ProviderState, rev: nat)
    requires st.ecs.active != [] && st.ecs.active[0] == rev
    ensures Pruned(st).ecs.active == [rev]
  {
    var r := Pruned(st).ecs.active;
    assert r + Older(st.ecs.active) == [rev] + Older(st.ecs.active);
    assert |r| == 1;
    assert r[0] == (r + Older(st.ecs.active))[0];
  }

  /** The service calls end with the call that puts the service on revision `rev`: it is
      created on it, or the existing service is updated onto it. */
  ghost predicate OnRevision(fleet: Fleet, rev: nat, serviceCalls: seq<Call>) {
    && |serviceCalls| > 0
    && var last := serviceCalls[|serviceCalls| - 1];
       || (last.CreateService? && last.taskDefinition == Revision(rev))
       || last == UpdateServiceTaskDefinition(fleet.cluster, fleet.service, Revision(rev))
  }

  /** After the calls `before`, the fleet's named container is registered as a new revision of
      its family, and then come `serviceCalls`. */
  ghost predicate RegisteredThen(fleet: Fleet, before: seq<Call>, trace: seq<Call>, serviceCalls: seq<Call>) {
    && fleet.taskDefName.Success? && NamedContainer(fleet.containerDefinition).Success?
    && trace == before + [RegisterTaskDefinition(fleet.taskDefName.value, fleet.networkMode,
                                                 NamedContainer(fleet.containerDefinition).value)]
                + serviceCalls
  }

  /** create_service on a registered revision `rev`: its calls end with the one that puts
      the service on `rev`, and the ACTIVE revisions are untouched. */
  method ServiceStep(ecs: EcsCluster, ghost rev: nat) returns (o: Outcome, ghost serviceCalls: seq<Call>)
    requires ecs.taskDef.Some? && ecs.taskDef.value.revision == rev
    requires ecs.cloud.Valid()
    modifies ecs.cloud
    ensures ecs.cloud.Valid()
    ensures ecs.cloud.trace == old(ecs.cloud.trace) + serviceCalls
    ensures ecs.cloud.st.ecs.active == old(ecs.cloud.st).ecs.active
    ensures ecs.cloud.st.ecs.nextRevision == old(ecs.cloud.st).ecs.nextRevision
    ensures o.Pass? ==> OnRevision(ecs.fleet, rev, serviceCalls)
  {
    var cloud := ecs.cloud;
    ghost var t0 := cloud.trace;
    o := ecs.CreateService();
    serviceCalls := cloud.trace[|t0|..];
    assert cloud.trace == t0 + serviceCalls;
    if o.Pass? {
      assert serviceCalls[|serviceCalls| - 1] == cloud.trace[|cloud.trace| - 1];
    }
    assert RevisionsValid(cloud.st);
  }

  /** A new task definition revision, then the service pointed at it (created when no
      ACTIVE service exists, updated otherwise). */
  method NewRevisionInService(ecs: EcsCluster) returns (o: Outcome, ghost serviceCalls: seq<Call>)
    requires ecs.cloud.Valid()
    modifies ecs, ecs.cloud
    ensures old(ecs.cloud.trace) <= ecs.cloud.trace
    ensures o.Pass? ==>
      && RegisteredThen(ecs.fleet, old(ecs.cloud.trace), ecs.cloud.trace, serviceCalls)
      && OnRevision(ecs.fleet, old(ecs.cloud.st).ecs.nextRevision, serviceCalls)
      && ecs.cloud.Valid()
      && ecs.cloud.st.ecs.active != [] && ecs.cloud.st.ecs.active[0] == old(ecs.cloud.st).ecs.nextRevision
  {
    serviceCalls := [];
    o := ecs.CreateTaskd();
    if o.Fail? {
      return;
    }
    o, serviceCalls := ServiceStep(ecs, old(ecs.cloud.st).ecs.nextRevision);
  }

  /** The rolling upgrade of a service whose newest ACTIVE revision is `rev`: on success that
      revision is the only ACTIVE one and the fleet is back at its configured sizing. */
  method UpgradeTo(ecs: EcsCluster, opts: Option<Options.Settings>, ghost rev: nat)
    returns (o: Outcome, ghost upgradeCalls: seq<Call>)
    requires ecs.cloud.Valid()
    requires ecs.cloud.st.ecs.active != [] && ecs.cloud.st.ecs.active[0] == rev
    modifies ecs.cloud
    ensures ecs.cloud.trace == old(ecs.cloud.trace) + upgradeCalls
    ensures o.Pass? ==>
      && ecs.fleet.taskDefName.Success? && ecs.fleet.asParams.Success?
      && var p := ecs.fleet.asParams.value;
         && ecs.cloud.st.ecs.active == [rev]
         && ecs.cloud.st.ecs.service.Some?
         && ecs.cloud.st.ecs.service.value.taskDefinition == Latest(ecs.fleet.taskDefName.value)
         && ecs.cloud.st.ecs.service.value.desiredCount == p.desired
         && ecs.cloud.st.scaling.asg.Some?
         && ecs.cloud.st.scaling.asg.value.capacity == Capacity(p.minSize, p.maxSize, p.desired)
         && ecs.cloud.st.scaling.asg.value.terminationPolicy == "Default"
         && ecs.cloud.st.app.scalableTarget == Some(ScalableTarget(p.minSize, p.maxSize))
    ensures opts.None? ==> o.Fail?
  {
    var cloud := ecs.cloud;
    ghost var st0 := cloud.st;
    ghost var t0 := cloud.trace;
    ghost var pruneEnd, growStart, waits;
    o, pruneEnd, growStart, waits := ecs.RollingUpgradeService(opts);
    upgradeCalls := cloud.trace[|t0|..];
    assert cloud.trace == t0 + upgradeCalls;
    PrunedKeepsNewest(st0, rev);
  }

  /** The queue step of create_or_update_cluster: its calls are all SQS calls, none when
      no queue is configured, and the task-definition revisions are untouched. */
  method QueueStep(cloud: Cloud, fleet: Fleet) returns (o: Outcome, ghost sqsCalls: seq<Call>)
    requires cloud.Valid()
    modifies cloud
    ensures cloud.Valid()
    ensures cloud.trace == old(cloud.trace) + sqsCalls
    ensures forall c :: c in sqsCalls ==> Sqs.QueueCall(c)
    ensures fleet.sqs.VNone? ==> sqsCalls == [] && o.Pass?
    ensures cloud.st.ecs == old(cloud.st).ecs
  {
    ghost var t0 := cloud.trace;
    o := Sqs.MaybeCreateSqs(cloud, fleet);
    sqsCalls := cloud.trace[|t0|..];
    assert cloud.trace == t0 + sqsCalls;
    forall c | c in sqsCalls ensures Sqs.QueueCall(c) {
      var k :| 0 <= k < |sqsCalls| && sqsCalls[k] == c;
      assert c == cloud.trace[|t0| + k];
    }
  }

  /** The cluster, then a new revision and the service on it. */
  method ClusterAndService(cloud: Cloud, fleet: Fleet) returns (o: Outcome, ghost serviceCalls: seq<Call>)
    requires cloud.Valid()
    modifies cloud
    ensures old(cloud.trace) <= cloud.trace
    ensures o.Pass? ==>
      && RegisteredThen(fleet, old(cloud.trace) + [Call.CreateCluster(fleet.cluster)], cloud.trace, serviceCalls)
      && OnRevision(fleet, old(cloud.st).ecs.nextRevision, serviceCalls)
  {
    var ecs := new EcsCluster(cloud, fleet);
    ecs.CreateCluster();
    assert cloud.trace == old(cloud.trace) + [Call.CreateCluster(fleet.cluster)];
    assert cloud.st.ecs.active == old(cloud.st).ecs.active;
    assert cloud.st.ecs.nextRevision == old(cloud.st).ecs.nextRevision;
    assert cloud.Valid();
    o, serviceCalls := NewRevisionInService(ecs);
  }

  /** The auto scaling step of create_or_update_cluster: its calls start by looking up the
      launch configuration, and it leaves the group at the configured sizing. */
  method ScalingStep(cloud: Cloud, fleet: Fleet) returns (o: Outcome, ghost scalingCalls: seq<Call>)
    modifies cloud
    ensures cloud.trace == old(cloud.trace) + scalingCalls
    ensures o.Pass? ==>
      && fleet.asParams.Success?
      && |scalingCalls| > 0 && scalingCalls[0] == DescribeLaunchConfigurations(fleet.launchConfigName)
      && var p := fleet.asParams.value;
         && cloud.st.scaling.asg.Some?
         && cloud.st.scaling.asg.value.capacity == Capacity(p.minSize, p.maxSize, p.desired)
         && (cloud.st.ecs.service.Some? ==> cloud.st.app.scalableTarget == Some(ScalableTarget(p.minSize, p.maxSize)))
  {
    ghost var t0 := cloud.trace;
    ghost var lcCalls, asgCalls;
    o, lcCalls, asgCalls := AutoScale.CreateAutoScalingAndLaunchConfiguration(cloud, fleet);
    scalingCalls := cloud.trace[|t0|..];
    assert cloud.trace == t0 + scalingCalls;
    if o.Pass? {
      assert scalingCalls[0] == lcCalls[0];
    }
  }

  /** What the ECS and auto scaling part of create_or_update_cluster leaves behind, from a
      trace `before` and a next revision number `rev`: the cluster and the new revision are
      created, then come the service calls, ending in a create or an update onto that
      revision, then the auto scaling calls, starting with the launch configuration lookup;
      the group is at the configured sizing and, with a service, so is its scalable target. */
  ghost predicate Deployed(fleet: Fleet, rev: nat, before: seq<Call>, trace: seq<Call>, st: ProviderState,
                           serviceCalls: seq<Call>, scalingCalls: seq<Call>)
  {
    && fleet.asParams.Success?
    && |scalingCalls| > 0 && scalingCalls[0] == DescribeLaunchConfigurations(fleet.launchConfigName)
    && |scalingCalls| <= |trace| && trace[|trace| - |scalingCalls|..] == scalingCalls
    && RegisteredThen(fleet, before + [Call.CreateCluster(fleet.cluster)], trace[..|trace| - |scalingCalls|], serviceCalls)
    && OnRevision(fleet, rev, serviceCalls)
    && (var p := fleet.asParams.value;
        && st.scaling.asg.Some?
        && st.scaling.asg.value.capacity == Capacity(p.minSize, p.maxSize, p.desired)
        && (st.ecs.service.Some? ==> st.app.scalableTarget == Some(ScalableTarget(p.minSize, p.maxSize))))
  }

  /** The ECS and auto scaling part of create_or_update_cluster: the cluster, a new task
      definition revision, the service on that revision, then the auto scaling. */
  method ServiceAndScaling(cloud: Cloud, fleet: Fleet)
    returns (o: Outcome, ghost serviceCalls: seq<Call>, ghost scalingCalls: seq<Call>)
    requires cloud.Valid()
    modifies cloud
    ensures old(cloud.trace) <= cloud.trace
    ensures o.Pass? ==>
      Deployed(fleet, old(cloud.st).ecs.nextRevision, old(cloud.trace), cloud.trace, cloud.st, serviceCalls, scalingCalls)
  {
    scalingCalls := [];
    o, serviceCalls := ClusterAndService(cloud, fleet);
    if o.Fail? {
      return;
    }
    ghost var t2 := cloud.trace;
    o, scalingCalls := ScalingStep(cloud, fleet);
    assert cloud.trace == t2 + scalingCalls;
  }

  /** create_or_update_cluster: the queue (when one is configured), its calls all SQS calls,
      then the cluster, a new task definition revision, the service on that revision and
      the auto scaling, as Deployed states. */
  method CreateOrUpdateCluster(cloud: Cloud, fleet: Fleet)
    returns (o: Outcome, ghost sqsCalls: seq<Call>, ghost serviceCalls: seq<Call>, ghost scalingCalls: seq<Call>)
    requires cloud.Valid()
    modifies cloud
    ensures old(cloud.trace) <= cloud.trace
    ensures o.Pass? ==>
      && (forall c :: c in sqsCalls ==> Sqs.QueueCall(c))
      && (fleet.sqs.VNone? ==> sqsCalls == [])
      && Deployed(fleet, old(cloud.st).ecs.nextRevision, old(cloud.trace) + sqsCalls, cloud.trace, cloud.st,
                  serviceCalls, scalingCalls)
  {
    serviceCalls, scalingCalls := [], [];
    o, sqsCalls := QueueStep(cloud, fleet);
    if o.Fail? {
      return;
    }
    o, serviceCalls, scalingCalls := ServiceAndScaling(cloud, fleet);
  }

  /** upgrade_cluster: register a new task definition revision, point the service at it,
      then run the rolling upgrade. On success the new revision is the only ACTIVE one, the
      service runs the family's latest revision at the configured desired count, and the
      group is back at its configured sizing with the Default termination policy. */
  method UpgradeCluster(cloud: Cloud, fleet: Fleet, opts: Option<Options.Settings>)
    returns (o: Outcome, ghost serviceCalls: seq<Call>, ghost upgradeCalls: seq<Call>)
    requires cloud.Valid()
    modifies cloud
    ensures old(cloud.trace) <= cloud.trace
    ensures o.Pass? ==>
      && fleet.taskDefName.Success? && fleet.asParams.Success?
      && NamedContainer(fleet.containerDefinition).Success?
      && cloud.trace == old(cloud.trace)
                        + [RegisterTaskDefinition(fleet.taskDefName.value, fleet.networkMode,
                                                  NamedContainer(fleet.containerDefinition).value)]
                        + serviceCalls + upgradeCalls
    ensures o.Pass? ==>
      var p := fleet.asParams.value;
      && cloud.st.ecs.active == [old(cloud.st).ecs.nextRevision]
      && cloud.st.ecs.service.Some?
      && cloud.st.ecs.service.value.taskDefinition == Latest(fleet.taskDefName.value)
      && cloud.st.ecs.service.value.desiredCount == p.desired
      && cloud.st.scaling.asg.Some?
      && cloud.st.scaling.asg.value.capacity == Capacity(p.minSize, p.maxSize, p.desired)
      && cloud.st.scaling.asg.value.terminationPolicy == "Default"
      && cloud.st.app.scalableTarget == Some(ScalableTarget(p.minSize, p.maxSize))
    ensures opts.None? ==> o.Fail?
  {
    upgradeCalls := [];
    var ecs := new EcsCluster(cloud, fleet);
    o, serviceCalls := NewRevisionInService(ecs);
    if o.Fail? {
      return;
    }
    o, upgradeCalls := UpgradeTo(ecs, opts, old(cloud.st).ecs.nextRevision);
  }

  /** The first two steps of destroy_cluster: stop the service's tasks page by page, then
      deregister the cluster's container instances page by page. Nothing in the provider's
      state changes; `taskPages` and `instancePages` are the pages each step listed. */
  method StopAndDeregister(ecs: EcsCluster) returns (o: Outcome, ghost taskPages: nat, ghost instancePages: nat)
    modifies ecs.cloud
    ensures ecs.cloud.st == old(ecs.cloud.st)
    ensures old(ecs.cloud.trace) <= ecs.cloud.trace
    ensures o.Pass? ==>
      && taskPages <= |old(ecs.cloud.obs).taskPages|
      && instancePages <= |old(ecs.cloud.obs).instancePages|
      && ecs.cloud.trace == old(ecs.cloud.trace)
           + PagedCalls(ListTasks(ecs.fleet.cluster, Some(ecs.fleet.service)), StopTaskOf(ecs.fleet.cluster),
                        old(ecs.cloud.obs).taskPages[..taskPages])
           + PagedCalls(ListContainerInstances(ecs.fleet.cluster), DeregisterInstanceOf(ecs.fleet.cluster),
                        old(ecs.cloud.obs).instancePages[..instancePages])
      && StoppedAt(old(ecs.cloud.obs).taskPages, taskPages, LastPage)
      && StoppedAt(old(ecs.cloud.obs).instancePages, instancePages, LastPage)
    ensures o.Fail? ==> o.error.Exhausted?
  {
    instancePages := 0;
    o, taskPages := ecs.StopTasks();
    if o.Fail? {
      return;
    }
    o, instancePages := ecs.DeregisterContainerInstance();
  }

  /** deregister_task_definition then delete_cluster: every ACTIVE revision becomes INACTIVE,
      oldest last, and the cluster is gone. Only a missing task definition name raises. */
  method RetireRevisions(ecs: EcsCluster) returns (o: Outcome)
    requires ecs.cloud.Valid()
    modifies ecs.cloud
    ensures ecs.cloud.Valid()
    ensures o.Pass? <==> ecs.fleet.taskDefName.Success?
    ensures o.Pass? ==>
      var e := old(ecs.cloud.st).ecs;
      && ecs.cloud.st == old(ecs.cloud.st).(ecs := e.(active := [], inactive := e.inactive + e.active, clusterActive := false))
      && ecs.cloud.trace == old(ecs.cloud.trace) + [ListTaskDefinitions(ecs.fleet.taskDefName.value, "ACTIVE")]
                            + DeregisterCalls(e.active) + [Call.DeleteCluster(ecs.fleet.cluster)]
    ensures o.Fail? ==> ecs.cloud.st == old(ecs.cloud.st) && ecs.cloud.trace == old(ecs.cloud.trace)
    ensures ecs.cloud.st.elb == old(ecs.cloud.st).elb
  {
    o := ecs.DeregisterTaskDefinition();
    if o.Fail? {
      return;
    }
    ecs.DeleteCluster();
  }

  /** The queue step of destroy_cluster: delete_sqs when `destroySqs` asks for it, nothing
      otherwise. Only the queue may change. */
  method QueueDeletionStep(cloud: Cloud, fleet: Fleet, destroySqs: bool) returns (o: Outcome, ghost sqsCalls: seq<Call>)
    modifies cloud
    ensures cloud.trace == old(cloud.trace) + sqsCalls
    ensures cloud.st == old(cloud.st).(queue := cloud.st.queue)
    ensures !destroySqs ==> sqsCalls == [] && o.Pass?
    ensures o.Pass? && destroySqs ==>
      && Sqs.QueueName(fleet).Success?
      && |sqsCalls| > 0 && sqsCalls[0] == GetQueueUrl(Sqs.QueueName(fleet).value)
      && (cloud.st.queue.Some? ==> cloud.st.queue.value.name != Sqs.QueueName(fleet).value)
  {
    o, sqsCalls := Pass, [];
    if !destroySqs {
      return;
    }
    ghost var t0 := cloud.trace;
    o := Sqs.DeleteSqs(cloud, fleet);
    sqsCalls := cloud.trace[|t0|..];
    assert cloud.trace == t0 + sqsCalls;
  }

  /** The last steps of destroy_cluster: the auto scaling teardown, then the queue when
      `destroySqs` asks for it. The ECS state and the load balancer are untouched. */
  method TeardownStep(cloud: Cloud, fleet: Fleet, destroySqs: bool)
    returns (o: Outcome, ghost teardownCalls: seq<Call>, ghost sqsCalls: seq<Call>)
    modifies cloud
    ensures cloud.trace == old(cloud.trace) + teardownCalls + sqsCalls
    ensures cloud.st.ecs == old(cloud.st).ecs && cloud.st.elb == old(cloud.st).elb
    ensures !destroySqs ==> sqsCalls == []
    ensures o.Pass? ==>
      && AutoScale.TeardownShaped(teardownCalls, fleet)
      && cloud.st.scaling == ScalingState(None, None, None)
      && cloud.st.app.scalableTarget.None? && cloud.st.app.appPolicyTarget.None?
    ensures o.Pass? && destroySqs ==>
      && Sqs.QueueName(fleet).Success?
      && |sqsCalls| > 0 && sqsCalls[0] == GetQueueUrl(Sqs.QueueName(fleet).value)
      && (cloud.st.queue.Some? ==> cloud.st.queue.value.name != Sqs.QueueName(fleet).value)
  {
    sqsCalls := [];
    ghost var polls;
    o, polls, teardownCalls := AutoScale.DeleteAutoScalingAndLaunchConfiguration(cloud, fleet);
    if o.Fail? {
      return;
    }
    AutoScale.TeardownTraceShaped(fleet, polls, teardownCalls);
    ghost var st1 := cloud.st;
    assert st1.scaling == ScalingState(None, None, None);
    o, sqsCalls := QueueDeletionStep(cloud, fleet, destroySqs);
    assert cloud.st == st1.(queue := cloud.st.queue);
  }

  /** The steps of destroy_cluster after the service is gone: retire every revision, delete
      the cluster, tear down the auto scaling and, when asked, the queue. The service is left
      as it was. */
  method RetireAndTeardown(ecs: EcsCluster, destroySqs: bool)
    returns (o: Outcome, ghost teardownCalls: seq<Call>, ghost sqsCalls: seq<Call>)
    requires ecs.cloud.Valid()
    modifies ecs.cloud
    ensures old(ecs.cloud.trace) <= ecs.cloud.trace
    ensures ecs.cloud.st.elb == old(ecs.cloud.st).elb
    ensures !destroySqs ==> sqsCalls == []
    ensures o.Pass? ==>
      var e := old(ecs.cloud.st).ecs;
      && ecs.fleet.taskDefName.Success?
      && AutoScale.TeardownShaped(teardownCalls, ecs.fleet)
      && ecs.cloud.trace == old(ecs.cloud.trace) + [ListTaskDefinitions(ecs.fleet.taskDefName.value, "ACTIVE")]
                            + DeregisterCalls(e.active) + [Call.DeleteCluster(ecs.fleet.cluster)]
                            + teardownCalls + sqsCalls
      && ecs.cloud.st.ecs == e.(active := [], inactive := e.inactive + e.active, clusterActive := false)
      && ecs.cloud.st.scaling == ScalingState(None, None, None)
      && ecs.cloud.st.app.scalableTarget.None? && ecs.cloud.st.app.appPolicyTarget.None?
    ensures o.Pass? && destroySqs ==>
      && Sqs.QueueName(ecs.fleet).Success?
      && (ecs.cloud.st.queue.Some? ==> ecs.cloud.st.queue.value.name != Sqs.QueueName(ecs.fleet).value)
  {
    teardownCalls, sqsCalls := [], [];
    o := RetireRevisions(ecs);
    if o.Fail? {
      return;
    }
    o, teardownCalls, sqsCalls := TeardownStep(ecs.cloud, ecs.fleet, destroySqs);
  }

  /** The service step of destroy_cluster: _delete_service, blocking until the service is
      INACTIVE. Its load balancer calls come first and none follows them; the load balancer
      is gone afterwards and the ACTIVE revisions are untouched. */
  method ServiceDeletionStep(ecs: EcsCluster) returns (o: Outcome, ghost serviceCalls: seq<Call>, ghost lbCalls: nat)
    requires ecs.cloud.Valid()
    modifies ecs.cloud
    ensures ecs.cloud.Valid()
    ensures o.Pass? || o.error.Exhausted?
    ensures ecs.cloud.trace == old(ecs.cloud.trace) + serviceCalls
    ensures lbCalls <= |serviceCalls|
    ensures forall i :: 0 <= i < lbCalls ==> ElbCall(serviceCalls[i])
    ensures forall i :: lbCalls <= i < |serviceCalls| ==> !ElbCall(serviceCalls[i])
    ensures Elb.LbOf(old(ecs.cloud.st), ecs.fleet.lbName).Some? ==> ecs.cloud.st.elb.lb.None?
    ensures ecs.cloud.st.ecs.active == old(ecs.cloud.st).ecs.active
    ensures old(ecs.cloud.st).ecs.service.Some? && ecs.fleet.asParams.Success? && old(ecs.cloud.st).scaling.asg.Some? ==>
      ecs.cloud.st.ecs.service.None?
  {
    ghost var t0 := ecs.cloud.trace;
    ghost var lbDone, polls;
    o, lbDone, polls := ecs.DeleteService(true);
    serviceCalls := ecs.cloud.trace[|t0|..];
    lbCalls := lbDone - |t0|;
    assert ecs.cloud.trace == t0 + serviceCalls;
    forall i | 0 <= i < lbCalls ensures ElbCall(serviceCalls[i]) {
      assert serviceCalls[i] == ecs.cloud.trace[|t0| + i];
    }
    forall i | lbCalls <= i < |serviceCalls| ensures !ElbCall(serviceCalls[i]) {
      assert serviceCalls[i] == ecs.cloud.trace[|t0| + i];
    }
  }

  /** destroy_cluster: stop the tasks, deregister the container instances, delete the
      service (and its load balancer, waiting for INACTIVE), retire every task definition
      revision, delete the cluster, tear down the auto scaling, and delete the queue when
      `destroySqs` is set. A step that raises ends the procedure. */
  method DestroyCluster(cloud: Cloud, fleet: Fleet, destroySqs: bool)
    returns (o: Outcome, ghost taskPages: nat, ghost instancePages: nat, ghost serviceCalls: seq<Call>,
             ghost lbCalls: nat, ghost teardownCalls: seq<Call>, ghost sqsCalls: seq<Call>)
    requires cloud.Valid()
    modifies cloud
    ensures old(cloud.trace) <= cloud.trace
    ensures o.Pass? ==>
      && fleet.taskDefName.Success?
      && taskPages <= |old(cloud.obs).taskPages| && instancePages <= |old(cloud.obs).instancePages|
      && cloud.trace == old(cloud.trace)
           + PagedCalls(ListTasks(fleet.cluster, Some(fleet.service)), StopTaskOf(fleet.cluster),
                        old(cloud.obs).taskPages[..taskPages])
           + PagedCalls(ListContainerInstances(fleet.cluster), DeregisterInstanceOf(fleet.cluster),
                        old(cloud.obs).instancePages[..instancePages])
           + serviceCalls
           + [ListTaskDefinitions(fleet.taskDefName.value, "ACTIVE")] + DeregisterCalls(old(cloud.st).ecs.active)
           + [Call.DeleteCluster(fleet.cluster)]
           + teardownCalls + sqsCalls
    ensures o.Pass? ==>
      var e := cloud.st.ecs;
      var retired := old(cloud.st).ecs.active;
      && e.active == [] && !e.clusterActive
      && |retired| <= |e.inactive| && e.inactive[|e.inactive| - |retired|..] == retired
      && cloud.st.scaling == ScalingState(None, None, None)
      && cloud.st.app.scalableTarget.None? && cloud.st.app.appPolicyTarget.None?
    ensures o.Pass? && old(cloud.st).ecs.service.Some? && fleet.asParams.Success? && old(cloud.st).scaling.asg.Some? ==>
      cloud.st.ecs.service.None?
    // the service deletion makes its load balancer calls first, then waits without any
    ensures o.Pass? ==>
      && lbCalls <= |serviceCalls|
      && (forall i :: 0 <= i < lbCalls ==> ElbCall(serviceCalls[i]))
      && (forall i :: lbCalls <= i < |serviceCalls| ==> !ElbCall(serviceCalls[i]))
    ensures o.Pass? && Elb.LbOf(old(cloud.st), fleet.lbName).Some? ==> cloud.st.elb.lb.None?
    ensures o.Pass? ==> AutoScale.TeardownShaped(teardownCalls, fleet)
    ensures !destroySqs ==> sqsCalls == []
    ensures o.Pass? && destroySqs ==>
      && Sqs.QueueName(fleet).Success?
      && (cloud.st.queue.Some? ==> cloud.st.queue.value.name != Sqs.QueueName(fleet).value)
  {
    serviceCalls, lbCalls, teardownCalls, sqsCalls := [], 0, [], [];
    var ecs := new EcsCluster(cloud, fleet);
    o, taskPages, instancePages := StopAndDeregister(ecs);
    if o.Fail? {
      return;
    }
    o, serviceCalls, lbCalls := ServiceDeletionStep(ecs);
    if o.Fail? {
      return;
    }
    ghost var e2 := cloud.st.ecs;
    o, teardownCalls, sqsCalls := RetireAndTeardown(ecs, destroySqs);
    if o.Pass? {
      assert cloud.st.ecs.inactive == e2.inactive + old(cloud.st).ecs.active;
    }
  }
}
