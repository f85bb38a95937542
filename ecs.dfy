/** The ECS client (scripts/aws_client_ecs.py): the fleet's cluster, its task-definition
    family and its service, and the rolling upgrade that moves the fleet onto the newest
    task definition by scaling out, waiting for the new tasks, and scaling back in. */
module Ecs {
  import opened Wrappers
  import opened ServiceConfig
  import opened Descriptor
  import opened Provider
  import opened Elb
  import AutoScaling
  import AppAutoScaling
  import Options

  // ---------------------------------------------------------------------------
  // Describe responses

  /** get_first_matching_active_service on a describe_services response. */
  function FirstMatchingActiveService(services: seq<Service>): (r: Option<Service>)
    ensures r.Some? <==> |services| > 0 && services[0].status == "ACTIVE"
    ensures r.Some? ==> r.value == services[0]
  {
    if |services| > 0 && services[0].status == "ACTIVE" then Some(services[0]) else None
  }

  /** is_service_inactive on the statuses describe_services lists: some service is INACTIVE. */
  function AnyInactive(statuses: seq<string>): (r: bool)
    ensures r <==> "INACTIVE" in statuses
  {
    if statuses == [] then false
    else statuses[0] == "INACTIVE" || AnyInactive(statuses[1..])
  }

  // ---------------------------------------------------------------------------
  // Targets of the target group

  /** The target ids of a describe_target_health response, in order. */
  function TargetIds(ds: seq<TargetHealth>): (ids: seq<string>)
    ensures |ids| == |ds|
  {
    if ds == [] then [] else TargetIds(ds[..|ds| - 1]) + [ds[|ds| - 1].id]
  }

  lemma {:induction false} TargetIdsEach(ds: seq<TargetHealth>)
    ensures forall i :: 0 <= i < |ds| ==> TargetIds(ds)[i] == ds[i].id
  {
    if ds != [] {
      TargetIdsEach(ds[..|ds| - 1]);
    }
  }

  /** The id -> description map of a response: a later description of an id replaces an
      earlier one. */
  function TargetMap(ds: seq<TargetHealth>): (m: map<string, TargetHealth>)
  {
    if ds == [] then map[] else TargetMap(ds[..|ds| - 1])[ds[|ds| - 1].id := ds[|ds| - 1]]
  }

  /** The map holds exactly the ids of the response. */
  lemma {:induction false} TargetMapKeys(ds: seq<TargetHealth>)
    ensures TargetMap(ds).Keys == set i | 0 <= i < |ds| :: ds[i].id
  {
    if ds != [] {
      var front := ds[..|ds| - 1];
      TargetMapKeys(front);
      assert forall i :: 0 <= i < |front| ==> front[i] == ds[i];
    }
  }

  /** An id maps to its last description in the response. */
  lemma {:induction false} TargetMapLast(ds: seq<TargetHealth>, i: nat)
    requires i < |ds|
    requires forall j :: i < j < |ds| ==> ds[j].id != ds[i].id
    ensures ds[i].id in TargetMap(ds) && TargetMap(ds)[ds[i].id] == ds[i]
  {
    if i < |ds| - 1 {
      var front := ds[..|ds| - 1];
      TargetMapLast(front, i);
    }
  }

  /** The number of targets whose health state is 'healthy'. */
  function HealthyCount(m: map<string, TargetHealth>): (n: nat)
    ensures n <= |m|
    ensures (forall k :: k in m ==> m[k].state == "healthy") ==> n == |m|
    ensures (forall k :: k in m ==> m[k].state != "healthy") ==> n == 0
  {
    var healthy := set k | k in m && m[k].state == "healthy";
    assert healthy <= m.Keys;
    SubsetCard(healthy, m.Keys);
    assert (forall k :: k in m ==> m[k].state == "healthy") ==> healthy == m.Keys;
    assert (forall k :: k in m ==> m[k].state != "healthy") ==> healthy == {};
    |healthy|
  }

  lemma {:induction false} SubsetCard<T>(a: set<T>, b: set<T>)
    requires a <= b
    ensures |a| <= |b|
    decreases |b|
  {
    if a != {} {
      var x :| x in a;
      SubsetCard(a - {x}, b - {x});
    }
  }

  /** The health wait's exit: at least `n` targets are healthy. */
  function HealthyAtLeast(n: int): (done: map<string, TargetHealth> -> bool)
  {
    m => HealthyCount(m) >= n
  }

  /** The scale-in wait's exit: the target count reached `n` or dropped below it. */
  function AtMostTargets(n: int): (done: map<string, TargetHealth> -> bool)
  {
    m => |m| <= n
  }

  // ---------------------------------------------------------------------------
  // Task counts

  /** The normalisation wait's exit: runningCount equals desiredCount. */
  predicate Settled(c: (int, int)) {
    c.0 == c.1
  }

  /** The scale-out wait's exit: runningCount reached desiredCount. */
  predicate CaughtUp(c: (int, int)) {
    c.0 >= c.1
  }

  /** The scale-out size: twice the original desired count, and at least 3 tasks. */
  function ScaleOutSize(desired: int): (n: int)
    ensures n >= 3 && n >= 2 * desired && n >= desired
    ensures n == 3 || n == 2 * desired
  {
    if desired * 2 > 3 then desired * 2 else 3
  }

  // ---------------------------------------------------------------------------
  // Paged listings

  /** `each` of the items, in order. */
  function ItemCalls(each: string -> Call, items: seq<string>): (r: seq<Call>)
    ensures |r| == |items|
  {
    if items == [] then [] else ItemCalls(each, items[..|items| - 1]) + [each(items[|items| - 1])]
  }

  lemma {:induction false} ItemCallsEach(each: string -> Call, items: seq<string>)
    ensures forall i :: 0 <= i < |items| ==> ItemCalls(each, items)[i] == each(items[i])
  {
    if items != [] {
      ItemCallsEach(each, items[..|items| - 1]);
    }
  }

  /** The calls of a paged listing: per page its listing call, then `each` of its items. */
  function PagedCalls(list: Call, each: string -> Call, pages: seq<Page>): (r: seq<Call>)
  {
    if pages == [] then []
    else PagedCalls(list, each, pages[..|pages| - 1]) + [list] + ItemCalls(each, pages[|pages| - 1].items)
  }

  /** Listing one more page appends its listing call and its items' calls. */
  lemma PagedCallsNext(list: Call, each: string -> Call, pages: seq<Page>, n: nat)
    requires n < |pages|
    ensures PagedCalls(list, each, pages[..n + 1]) == PagedCalls(list, each, pages[..n]) + [list] + ItemCalls(each, pages[n].items)
  {
    assert pages[..n + 1][..n] == pages[..n];
  }

  /** Every item of every page listed gets its call. */
  lemma {:induction false} PagedCallsCover(list: Call, each: string -> Call, pages: seq<Page>, p: nat, k: nat)
    requires p < |pages| && k < |pages[p].items|
    ensures each(pages[p].items[k]) in PagedCalls(list, each, pages)
  {
    var last := |pages| - 1;
    if p == last {
      ItemCallsEach(each, pages[p].items);
      assert ItemCalls(each, pages[p].items)[k] == each(pages[p].items[k]);
    } else {
      PagedCallsCover(list, each, pages[..last], p, k);
    }
  }

  /** A listing ends with the page that carries no nextToken. */
  predicate LastPage(p: Page) {
    p.nextToken.None?
  }

  function StopTaskOf(cluster: string): (each: string -> Call)
  {
    task => StopTask(cluster, task)
  }

  function DeregisterInstanceOf(cluster: string): (each: string -> Call)
  {
    instance => DeregisterContainerInstance(cluster, instance)
  }

  // ---------------------------------------------------------------------------
  // Task definitions

  /** Deregistering the newest of the revisions after `keep` leaves `keep` and the rest. */
  lemma {:induction false} RemoveAfter(keep: seq<nat>, s: seq<nat>)
    requires s != [] && StrictlyDecreasing(keep + s)
    ensures Remove(keep + s, s[0]) == keep + s[1..]
  {
    var all := keep + s;
    if keep == [] {
      assert all == s;
      assert s[0] !in s[1..] by {
        forall k | 0 <= k < |s[1..]| ensures s[1..][k] != s[0] {
          assert s[0] > s[k + 1];
        }
      }
      RemoveAbsent(s[1..], s[0]);
    } else {
      assert all[0] > all[|keep|];
      assert all[1..] == keep[1..] + s;
      assert StrictlyDecreasing(keep[1..] + s) by {
        forall i, j | 0 <= i < j < |keep[1..] + s| ensures (keep[1..] + s)[i] > (keep[1..] + s)[j] {
          assert (keep[1..] + s)[i] == all[i + 1] && (keep[1..] + s)[j] == all[j + 1];
        }
      }
      RemoveAfter(keep[1..], s);
      assert [keep[0]] + (keep[1..] + s[1..]) == keep + s[1..];
    }
  }

  /** The ACTIVE revisions delete_all_but_latest_taskd deregisters: all but the newest. */
  function Older(active: seq<nat>): (r: seq<nat>)
    ensures active != [] ==> active == [active[0]] + r
    ensures active == [] ==> r == []
  {
    if active == [] then [] else active[1..]
  }

  /** The provider state after delete_all_but_latest_taskd: at most the newest revision stays
      ACTIVE, and the older ones move, newest first, to the end of the INACTIVE list. */
  function Pruned(st: ProviderState): (r: ProviderState)
    ensures |r.ecs.active| <= 1
    ensures r.ecs.active + Older(st.ecs.active) == st.ecs.active
    ensures r == st.(ecs := st.ecs.(active := r.ecs.active, inactive := st.ecs.inactive + Older(st.ecs.active)))
  {
    st.(ecs := st.ecs.(active := if st.ecs.active == [] then [] else [st.ecs.active[0]],
                       inactive := st.ecs.inactive + Older(st.ecs.active)))
  }

  /** deregister_task_definition of each revision, in order. */
  function DeregisterCalls(revisions: seq<nat>): (r: seq<Call>)
    ensures |r| == |revisions|
    ensures forall i :: 0 <= i < |revisions| ==> r[i] == DeregisterTaskDefinition(revisions[i])
  {
    if revisions == [] then [] else DeregisterCalls(revisions[..|revisions| - 1]) + [DeregisterTaskDefinition(revisions[|revisions| - 1])]
  }

  lemma DeregisterCallsSnoc(revisions: seq<nat>, i: nat)
    requires i < |revisions|
    ensures DeregisterCalls(revisions[..i + 1]) == DeregisterCalls(revisions[..i]) + [DeregisterTaskDefinition(revisions[i])]
  {
    assert revisions[..i + 1][..i] == revisions[..i];
  }

  /** The strings of a configured name or image: a list of strings, or a string's characters. */
  function NamePartsOf(container: map<string, Value>, key: string): Result<seq<string>> {
    var v :- Get(container, key);
    NameParts(v)
  }

  /** create_taskd's container definition: the configured one with its name hyphen-joined
      and stripped, and its image concatenated; every other entry is kept. */
  function NamedContainer(cd: Result<Value>): Result<map<string, Value>>
  {
    var v :- cd;
    if !v.VMap? then Failure(AttributeError("object has no attribute 'update'"))
    else
      var name :- NamePartsOf(v.m, "name");
      var image :- NamePartsOf(v.m, "image");
      Success(v.m["name" := VStr(CreateNameWithSeparator(name))]["image" := VStr(CreateName(image))])
  }

  /** What NamedContainer gives: it succeeds exactly on a mapping whose name and image both
      read as name parts, and then only those two entries are replaced. */
  lemma NamedContainerShape(cd: Result<Value>)
    ensures NamedContainer(cd).Success? ==> cd.Success? && cd.value.VMap?
    ensures NamedContainer(cd).Success? ==>
      && NamePartsOf(cd.value.m, "name").Success? && NamePartsOf(cd.value.m, "image").Success?
      && NamedContainer(cd).value
         == cd.value.m["name" := VStr(CreateNameWithSeparator(NamePartsOf(cd.value.m, "name").value))]
                      ["image" := VStr(CreateName(NamePartsOf(cd.value.m, "image").value))]
    ensures NamedContainer(cd).Failure? <==>
      || cd.Failure? || !cd.value.VMap?
      || NamePartsOf(cd.value.m, "name").Failure? || NamePartsOf(cd.value.m, "image").Failure?
  {
    if cd.Failure? {
      assert NamedContainer(cd).Failure?;
    } else if !cd.value.VMap? {
      assert NamedContainer(cd).Failure?;
    } else {
      var m := cd.value.m;
      var name := NamePartsOf(m, "name");
      var image := NamePartsOf(m, "image");
      if name.Failure? {
        assert NamedContainer(cd).Failure?;
      } else if image.Failure? {
        assert NamedContainer(cd).Failure?;
      } else {
        NamedContainerValue(m, name.value, image.value);
      }
    }
  }

  lemma NamedContainerValue(m: map<string, Value>, name: seq<string>, image: seq<string>)
    requires NamePartsOf(m, "name") == Success(name) && NamePartsOf(m, "image") == Success(image)
    ensures NamedContainer(Success(VMap(m)))
            == Success(m["name" := VStr(CreateNameWithSeparator(name))]["image" := VStr(CreateName(image))])
  {
  }

  /** The container of the registered task definition is named after the family: its name
      is exactly the task-definition name the configuration gives. */
  lemma ContainerNamedAfterFamily(c: Config)
    requires NamedContainer(Get(c.state, "container_definition")).Success?
    ensures GetTaskDefinitionName(c).Success?
    ensures NamedContainer(Get(c.state, "container_definition")).value["name"] == VStr(GetTaskDefinitionName(c).value)
  {
    var cd := Get(c.state, "container_definition");
    assert cd.Success? && cd.value.VMap?;
    var m := cd.value.m;
    var parts := NamePartsOf(m, "name");
    assert parts.Success? && "name" in m;
    assert GetIn(c.state, "container_definition", "name") == Success(m["name"]);
    assert NameParts(m["name"]) == parts;
    var name := CreateNameWithSeparator(parts.value);
    assert GetTaskDefinitionName(c) == Success(name);
    var image := CreateName(NamePartsOf(m, "image").value);
    assert |"name"| != |"image"|;
    var named := m["name" := VStr(name)]["image" := VStr(image)];
    assert NamedContainer(cd) == Success(named);
    UpdatedKeyKept(m, "name", VStr(name), "image", VStr(image));
  }

  lemma UpdatedKeyKept(m: map<string, Value>, a: string, x: Value, b: string, y: Value)
    requires a != b
    ensures m[a := x][b := y][a] == x
  {
  }

  /** container['portMappings'][0]['containerPort'] */
  function ContainerPort(container: map<string, Value>): (r: Result<Value>)
    ensures r.Success? ==>
      && "portMappings" in container && container["portMappings"].VList? && |container["portMappings"].items| > 0
      && container["portMappings"].items[0].VMap? && "containerPort" in container["portMappings"].items[0].m
      && r.value == container["portMappings"].items[0].m["containerPort"]
  {
    var mappings :- Get(container, "portMappings");
    if !mappings.VList? then Failure(TypeError("portMappings is not a list"))
    else if |mappings.items| == 0 then Failure(IndexError("list index out of range"))
    else if !mappings.items[0].VMap? then Failure(TypeError("port mapping is not subscriptable"))
    else Get(mappings.items[0].m, "containerPort")
  }

  // ---------------------------------------------------------------------------
  // Ordering of the rolling upgrade's calls

  /** A call that deregisters a task-definition revision. */
  predicate Deregisters(c: Call) {
    c.DeregisterTaskDefinition?
  }

  /** A call that changes the service's or the group's sizing or the scaling bounds. */
  predicate Resizes(c: Call) {
    c.UpdateServiceDesiredCount? || c.UpdateServiceDeployment? || c.UpdateAutoScalingGroup? || c.RegisterScalableTarget?
  }

  ghost predicate NoResizeIn(t: seq<Call>, from: nat, to: nat) {
    forall i :: from <= i < to && i < |t| ==> !Resizes(t[i])
  }

  ghost predicate NoDeregisterIn(t: seq<Call>, from: nat, to: nat) {
    forall i :: from <= i < to && i < |t| ==> !Deregisters(t[i])
  }

  /** Appending calls keeps what held of a finished stretch of the trace. */
  lemma NoResizeKept(t1: seq<Call>, t2: seq<Call>, from: nat, to: nat)
    requires t1 <= t2 && to <= |t1| && NoResizeIn(t1, from, to)
    ensures NoResizeIn(t2, from, to)
  {
    forall i | from <= i < to && i < |t2| ensures !Resizes(t2[i]) {
      assert t2[i] == t1[i];
    }
  }

  /** Two adjacent stretches without deregistration make one. */
  lemma NoDeregisterJoined(t1: seq<Call>, t2: seq<Call>, from: nat)
    requires t1 <= t2 && from <= |t1|
    requires NoDeregisterIn(t1, from, |t1|) && NoDeregisterIn(t2, |t1|, |t2|)
    ensures NoDeregisterIn(t2, from, |t2|)
  {
    forall i | from <= i < |t2| ensures !Deregisters(t2[i]) {
      if i < |t1| {
        assert t2[i] == t1[i];
      }
    }
  }

  /** A run of one call polls no target health unless that call does. */
  lemma RepeatNoHealthPoll(t: seq<Call>, c: Call, k: nat)
    requires !c.DescribeTargetHealth?
    ensures NoHealthPollIn(t + Repeat(c, k), |t|, |t| + k)
  {
    forall i | |t| <= i < |t| + k ensures !(t + Repeat(c, k))[i].DescribeTargetHealth? {
      assert (t + Repeat(c, k))[i] == Repeat(c, k)[i - |t|];
    }
  }

  /** How many answers each wait of a rolling upgrade consumed: the normalisation's task
      counts, the scale-out's task counts, the healthy-target poll and the scale-in's
      target poll. */
  datatype UpgradeWaits = UpgradeWaits(norm: nat, count: nat, health: nat, shrink: nat)

  /** Where the waits of the scale-out and the scale-in stopped, given the task counts
      `tc` and the target-health answers `th` they were served in order: the task-count
      wait at the first runningCount >= desiredCount; the health wait (only with
      `waitHealthy`, and reading nothing otherwise) at the first answer with at least
      ScaleOutSize(desired) healthy targets; the scale-in at the first of the remaining
      answers with at most `desired` targets. */
  ghost predicate ScaleWaitsObserved(waitHealthy: bool, desired: int, tc: seq<(int, int)>,
                                     th: seq<seq<TargetHealth>>, count: nat, health: nat, shrink: nat)
  {
    var n := ScaleOutSize(desired);
    && StoppedAt(tc, count, CaughtUp)
    && (waitHealthy ==>
          && 1 <= health <= |th| && HealthyCount(TargetMap(th[health - 1])) >= n
          && forall i :: 0 <= i < health - 1 ==> HealthyCount(TargetMap(th[i])) < n)
    && (!waitHealthy ==> health == 0)
    && health <= |th|
    && var rest := th[health..];
       && 1 <= shrink <= |rest| && |TargetMap(rest[shrink - 1])| <= desired
       && forall i :: 0 <= i < shrink - 1 ==> |TargetMap(rest[i])| > desired
  }

  /** Where each wait of a rolling upgrade stopped: the normalisation (only with
      normalize_tasks, and reading nothing otherwise) at the first runningCount ==
      desiredCount, and the scale-out's and scale-in's waits as ScaleWaitsObserved says, on
      the task counts after those. */
  ghost predicate UpgradeWaitsObserved(s: Options.Settings, desired: int, tc: seq<(int, int)>,
                                       th: seq<seq<TargetHealth>>, w: UpgradeWaits)
  {
    && (s.normalizeTasks ==> StoppedAt(tc, w.norm, Settled))
    && (!s.normalizeTasks ==> w.norm == 0)
    && w.norm <= |tc|
    && ScaleWaitsObserved(s.waitForHealthyTargets, desired, tc[w.norm..], th, w.count, w.health, w.shrink)
  }

  /** No poll of the target group's health in the stretch [from, to) of the trace. */
  ghost predicate NoHealthPollIn(t: seq<Call>, from: nat, to: nat) {
    forall i :: from <= i < to && i < |t| ==> !t[i].DescribeTargetHealth?
  }

  /** Two adjacent stretches without a health poll make one. */
  lemma NoHealthPollJoined(t1: seq<Call>, t2: seq<Call>, from: nat)
    requires t1 <= t2 && from <= |t1|
    requires NoHealthPollIn(t1, from, |t1|) && NoHealthPollIn(t2, |t1|, |t2|)
    ensures NoHealthPollIn(t2, from, |t2|)
  {
    forall i | from <= i < |t2| ensures !t2[i].DescribeTargetHealth? {
      if i < |t1| {
        assert t2[i] == t1[i];
      }
    }
  }

  /** Two adjacent stretches without a resize make one. */
  lemma NoResizeJoined(t1: seq<Call>, t2: seq<Call>, from: nat)
    requires t1 <= t2 && from <= |t1|
    requires NoResizeIn(t1, from, |t1|) && NoResizeIn(t2, |t1|, |t2|)
    ensures NoResizeIn(t2, from, |t2|)
  {
    forall i | from <= i < |t2| ensures !Resizes(t2[i]) {
      if i < |t1| {
        assert t2[i] == t1[i];
      }
    }
  }

  /** Listing the revisions and then only deregistering some resizes nothing. */
  lemma PruneCallsResizeNothing(t: seq<Call>, family: string, d: seq<Call>)
    requires forall k :: 0 <= k < |d| ==> Deregisters(d[k])
    ensures NoResizeIn(t + [ListTaskDefinitions(family, "ACTIVE")] + d, |t|, |t| + 1 + |d|)
  {
    var a := t + [ListTaskDefinitions(family, "ACTIVE")];
    forall i | |t| <= i < |t| + 1 + |d| && i < |a + d| ensures !Resizes((a + d)[i]) {
      if i < |a| {
        assert (a + d)[i] == a[i];
      } else {
        assert (a + d)[i] == d[i - |a|];
      }
    }
  }

  /** auto_scale_group.desired, the desired count a new service starts with. */
  function ConfiguredDesired(f: Fleet): Result<Value> {
    GetIn(f.config.state, "auto_scale_group", "desired")
  }

  /** The registered task definition create_taskd keeps: its revision and container. */
  datatype TaskDef = TaskDef(revision: nat, container: map<string, Value>)

  /** Tasks whose task definition is INACTIVE: their ARNs, in order. */
  function InactiveTaskArns(tasks: seq<Task>, inactive: seq<nat>): (arns: seq<string>)
    ensures |arns| <= |tasks|
  {
    if tasks == [] then []
    else
      var last := tasks[|tasks| - 1];
      InactiveTaskArns(tasks[..|tasks| - 1], inactive) + (if last.revision in inactive then [last.arn] else [])
  }

  /** An ARN is reported exactly when some running task with that ARN is on an INACTIVE
      revision. */
  lemma {:induction false} InactiveTaskArnsMembers(tasks: seq<Task>, inactive: seq<nat>, a: string)
    ensures a in InactiveTaskArns(tasks, inactive) <==>
            exists i :: 0 <= i < |tasks| && tasks[i].arn == a && tasks[i].revision in inactive
  {
    if tasks != [] {
      var front := tasks[..|tasks| - 1];
      InactiveTaskArnsMembers(front, inactive, a);
      if exists i :: 0 <= i < |front| && front[i].arn == a && front[i].revision in inactive {
        var i :| 0 <= i < |front| && front[i].arn == a && front[i].revision in inactive;
        assert tasks[i] == front[i];
      }
    }
  }

  /** No INACTIVE revision, no report. */
  lemma {:induction false} NoInactiveNoTasks(tasks: seq<Task>)
    ensures InactiveTaskArns(tasks, []) == []
  {
    if tasks != [] {
      NoInactiveNoTasks(tasks[..|tasks| - 1]);
    }
  }

  /** The loop of get_inactive_running_tasks: the ARN of every described task whose
      revision is INACTIVE, in order. */
  method FilterInactive(tasks: seq<Task>, inactive: seq<nat>) returns (found: seq<string>)
    ensures found == InactiveTaskArns(tasks, inactive)
  {
    found := [];
    var i := 0;
    while i < |tasks|
      invariant i <= |tasks|
      invariant found == InactiveTaskArns(tasks[..i], inactive)
    {
      assert tasks[..i + 1][..i] == tasks[..i];
      if tasks[i].revision in inactive {
        found := found + [tasks[i].arn];
      }
      i := i + 1;
    }
    assert tasks[..i] == tasks;
  }

  // ---------------------------------------------------------------------------
  // The client

  class EcsCluster {
    const cloud: Cloud
    const fleet: Fleet
    var clusterStatus: Option<string>
    var taskDef: Option<TaskDef>

    constructor (cloud: Cloud, fleet: Fleet)
      ensures this.cloud == cloud && this.fleet == fleet
      ensures clusterStatus.None? && taskDef.None?
    {
      this.cloud, this.fleet := cloud, fleet;
      clusterStatus, taskDef := None, None;
    }

    /** create_cluster: creates the cluster (or returns the existing one) and keeps it. */
    method CreateCluster()
      modifies this, cloud
      ensures clusterStatus == Some("ACTIVE") && taskDef == old(taskDef)
      ensures cloud.st == old(cloud.st).(ecs := old(cloud.st).ecs.(clusterActive := true))
      ensures cloud.obs == old(cloud.obs)
      ensures cloud.trace == old(cloud.trace) + [Call.CreateCluster(fleet.cluster)]
    {
      cloud.CallCreateCluster(fleet.cluster);
      clusterStatus := Some("ACTIVE");
    }

    /** StopTask for each task, in order. */
    method StopEach(tasks: seq<string>)
      modifies cloud
      ensures cloud.st == old(cloud.st) && cloud.obs == old(cloud.obs)
      ensures cloud.trace == old(cloud.trace) + ItemCalls(StopTaskOf(fleet.cluster), tasks)
    {
      var k := 0;
      while k < |tasks|
        invariant k <= |tasks|
        invariant cloud.st == old(cloud.st) && cloud.obs == old(cloud.obs)
        invariant cloud.trace == old(cloud.trace) + ItemCalls(StopTaskOf(fleet.cluster), tasks[..k])
      {
        cloud.CallStopTask(fleet.cluster, tasks[k]);
        assert tasks[..k + 1][..k] == tasks[..k];
        k := k + 1;
      }
      assert tasks[..k] == tasks;
    }

    /** _stop_tasks: list the service's RUNNING tasks page by page, stopping every task of
        each page, until a page carries no nextToken. `pages` pages were listed. */
    method StopTasks() returns (o: Outcome, ghost pages: nat)
      modifies cloud
      ensures cloud.st == old(cloud.st)
      ensures pages <= |old(cloud.obs).taskPages|
      ensures cloud.obs == old(cloud.obs).(taskPages := old(cloud.obs).taskPages[pages..])
      ensures cloud.trace == old(cloud.trace) + PagedCalls(ListTasks(fleet.cluster, Some(fleet.service)),
                                                            StopTaskOf(fleet.cluster), old(cloud.obs).taskPages[..pages])
      ensures o.Pass? ==> StoppedAt(old(cloud.obs).taskPages, pages, LastPage)
      ensures o.Fail? ==> o.error.Exhausted? && NeverDone(old(cloud.obs).taskPages, LastPage)
    {
      ghost var all := cloud.obs.taskPages;
      ghost var o0 := cloud.obs;
      ghost var t0 := cloud.trace;
      ghost var list := ListTasks(fleet.cluster, Some(fleet.service));
      pages := 0;
      var more := true;
      while more
        invariant pages <= |all|
        invariant cloud.st == old(cloud.st)
        invariant cloud.obs == o0.(taskPages := all[pages..])
        invariant cloud.trace == t0 + PagedCalls(list, StopTaskOf(fleet.cluster), all[..pages])
        invariant more ==> forall i :: 0 <= i < pages ==> !LastPage(all[i])
        invariant !more ==> StoppedAt(all, pages, LastPage)
        decreases |all| - pages
      {
        var r := StopPage(all, pages);
        if r.Failure? {
          return Fail(r.error), pages;
        }
        PagedCallsNext(list, StopTaskOf(fleet.cluster), all, pages);
        pages := pages + 1;
        more := r.value;
      }
      o := Pass;
    }

    /** One round of _stop_tasks: list the next page of RUNNING tasks (the `done`-th of
        `all`) and stop each of its tasks; the result says whether a nextToken follows. */
    method StopPage(ghost all: seq<Page>, ghost done: nat) returns (r: Result<bool>)
      requires done <= |all| && cloud.obs.taskPages == all[done..]
      modifies cloud
      ensures cloud.st == old(cloud.st)
      ensures done == |all| ==>
                r == Failure(Exhausted("list_tasks")) && cloud.obs == old(cloud.obs) && cloud.trace == old(cloud.trace)
      ensures done < |all| ==>
                && r == Success(all[done].nextToken.Some?)
                && cloud.obs == old(cloud.obs).(taskPages := all[done + 1..])
                && cloud.trace == old(cloud.trace) + [ListTasks(fleet.cluster, Some(fleet.service))]
                                                   + ItemCalls(StopTaskOf(fleet.cluster), all[done].items)
    {
      var polled := cloud.PollTaskPage(fleet.cluster, fleet.service);
      if polled.Failure? {
        return Failure(polled.error);
      }
      assert all[done..][1..] == all[done + 1..];
      StopEach(polled.value.items);
      r := Success(polled.value.nextToken.Some?);
    }

    /** DeregisterContainerInstance for each instance, in order. */
    method DeregisterEachInstance(instances: seq<string>)
      modifies cloud
      ensures cloud.st == old(cloud.st) && cloud.obs == old(cloud.obs)
      ensures cloud.trace == old(cloud.trace) + ItemCalls(DeregisterInstanceOf(fleet.cluster), instances)
    {
      var k := 0;
      while k < |instances|
        invariant k <= |instances|
        invariant cloud.st == old(cloud.st) && cloud.obs == old(cloud.obs)
        invariant cloud.trace == old(cloud.trace) + ItemCalls(DeregisterInstanceOf(fleet.cluster), instances[..k])
      {
        cloud.CallDeregisterContainerInstance(fleet.cluster, instances[k]);
        assert instances[..k + 1][..k] == instances[..k];
        k := k + 1;
      }
      assert instances[..k] == instances;
    }

    /** deregister_container_instance: list the cluster's container instances and deregister
        each, until a response carries no nextToken. Errors are logged and dropped. */
    method DeregisterContainerInstance() returns (o: Outcome, ghost pages: nat)
      modifies cloud
      ensures o.Pass? || o.error.Exhausted?
      ensures cloud.st == old(cloud.st)
      ensures pages <= |old(cloud.obs).instancePages|
      ensures cloud.obs == old(cloud.obs).(instancePages := old(cloud.obs).instancePages[pages..])
      ensures cloud.trace == old(cloud.trace) + PagedCalls(ListContainerInstances(fleet.cluster),
                                                            DeregisterInstanceOf(fleet.cluster), old(cloud.obs).instancePages[..pages])
      ensures o.Pass? ==> StoppedAt(old(cloud.obs).instancePages, pages, LastPage)
      ensures o.Fail? ==> NeverDone(old(cloud.obs).instancePages, LastPage)
    {
      ghost var all := cloud.obs.instancePages;
      ghost var o0 := cloud.obs;
      ghost var t0 := cloud.trace;
      ghost var list := ListContainerInstances(fleet.cluster);
      pages := 0;
      while true
        invariant pages <= |all|
        invariant cloud.st == old(cloud.st)
        invariant cloud.obs == o0.(instancePages := all[pages..])
        invariant cloud.trace == t0 + PagedCalls(list, DeregisterInstanceOf(fleet.cluster), all[..pages])
        invariant forall i :: 0 <= i < pages ==> !LastPage(all[i])
        decreases |all| - pages
      {
        var r := cloud.CallListContainerInstances(fleet.cluster);
        if r.Failure? {
          return Swallow(Fail(r.error)), pages;
        }
        var page := r.value;
        DeregisterEachInstance(page.items);
        PagedCallsNext(list, DeregisterInstanceOf(fleet.cluster), all, pages);
        pages := pages + 1;
        if LastPage(page) {
          return Pass, pages;
        }
      }
    }

    /** delete_cluster: errors are logged and dropped. */
    method DeleteCluster()
      modifies cloud
      ensures cloud.st == old(cloud.st).(ecs := old(cloud.st).ecs.(clusterActive := false))
      ensures cloud.obs == old(cloud.obs)
      ensures cloud.trace == old(cloud.trace) + [Call.DeleteCluster(fleet.cluster)]
    {
      var _ := cloud.CallDeleteCluster(fleet.cluster);
    }

    /** deregister_task_definition of each of `revisions`, the older end of the ACTIVE list
        after `keep`: they become INACTIVE in order and `keep` stays ACTIVE. */
    method DeregisterEach(keep: seq<nat>, revisions: seq<nat>)
      requires cloud.Valid() && cloud.st.ecs.active == keep + revisions
      modifies cloud
      ensures cloud.Valid()
      ensures cloud.st == old(cloud.st).(ecs := old(cloud.st).ecs.(active := keep, inactive := old(cloud.st).ecs.inactive + revisions))
      ensures cloud.obs == old(cloud.obs)
      ensures cloud.trace == old(cloud.trace) + DeregisterCalls(revisions)
    {
      ghost var s0 := cloud.st;
      var i := 0;
      while i < |revisions|
        invariant i <= |revisions|
        invariant cloud.Valid()
        invariant cloud.st == s0.(ecs := s0.ecs.(active := keep + revisions[i..], inactive := s0.ecs.inactive + revisions[..i]))
        invariant cloud.obs == old(cloud.obs)
        invariant cloud.trace == old(cloud.trace) + DeregisterCalls(revisions[..i])
      {
        DeregisterNext(keep, revisions[i..]);
        assert revisions[i..][1..] == revisions[i + 1..];
        assert (s0.ecs.inactive + revisions[..i]) + [revisions[i]] == s0.ecs.inactive + revisions[..i + 1];
        DeregisterCallsSnoc(revisions, i);
        i := i + 1;
      }
      assert revisions[..i] == revisions;
      assert keep + revisions[i..] == keep;
    }

    /** One deregister_task_definition call of the loop: the first revision after the kept
        ones becomes INACTIVE. */
    method DeregisterNext(keep: seq<nat>, rest: seq<nat>)
      requires cloud.Valid() && rest != [] && cloud.st.ecs.active == keep + rest
      modifies cloud
      ensures cloud.Valid()
      ensures cloud.st == old(cloud.st).(ecs := old(cloud.st).ecs.(active := keep + rest[1..],
                                                                 inactive := old(cloud.st).ecs.inactive + [rest[0]]))
      ensures cloud.obs == old(cloud.obs)
      ensures cloud.trace == old(cloud.trace) + [Call.DeregisterTaskDefinition(rest[0])]
    {
      RemoveAfter(keep, rest);
      assert rest[0] in cloud.st.ecs.active;
      var _ := cloud.CallDeregisterTaskDefinition(rest[0]);
    }

    /** deregister_task_definition: every ACTIVE revision of the family, newest first, becomes
        INACTIVE. */
    method DeregisterTaskDefinition() returns (o: Outcome)
      requires cloud.Valid()
      modifies cloud
      ensures cloud.Valid()
      ensures o.Pass? <==> fleet.taskDefName.Success?
      ensures o.Pass? ==>
        && cloud.st == old(cloud.st).(ecs := old(cloud.st).ecs.(active := [],
                                                                 inactive := old(cloud.st).ecs.inactive + old(cloud.st).ecs.active))
        && cloud.trace == old(cloud.trace) + [ListTaskDefinitions(fleet.taskDefName.value, "ACTIVE")]
                                           + DeregisterCalls(old(cloud.st).ecs.active)
      ensures o.Fail? ==> cloud.st == old(cloud.st) && cloud.trace == old(cloud.trace)
      ensures cloud.obs == old(cloud.obs)
    {
      o := Need(fleet.taskDefName);
      if o.Fail? {
        return;
      }
      var revisions := cloud.CallListTaskDefinitions(fleet.taskDefName.value, "ACTIVE");
      assert [] + revisions == revisions;
      DeregisterEach([], revisions);
      o := Pass;
    }

    /** delete_all_but_latest_taskd: every ACTIVE revision but the newest becomes INACTIVE. */
    method DeleteAllButLatestTaskd() returns (o: Outcome)
      requires cloud.Valid()
      modifies cloud
      ensures cloud.Valid()
      ensures o.Pass? <==> fleet.taskDefName.Success?
      ensures o.Pass? ==>
        && cloud.st == Pruned(old(cloud.st))
        && cloud.trace == old(cloud.trace) + [ListTaskDefinitions(fleet.taskDefName.value, "ACTIVE")]
                                           + DeregisterCalls(Older(old(cloud.st).ecs.active))
      ensures o.Fail? ==> cloud.st == old(cloud.st) && cloud.trace == old(cloud.trace)
      ensures cloud.obs == old(cloud.obs)
    {
      o := Need(fleet.taskDefName);
      if o.Fail? {
        return;
      }
      var revisions := cloud.CallListTaskDefinitions(fleet.taskDefName.value, "ACTIVE");
      if |revisions| == 0 {
        assert cloud.st.ecs.inactive + [] == cloud.st.ecs.inactive;
        assert cloud.st.ecs == cloud.st.ecs.(active := [], inactive := cloud.st.ecs.inactive + []);
        return Pass;
      }
      ghost var st0 := cloud.st;
      assert revisions == [revisions[0]] + revisions[1..];
      DeregisterEach([revisions[0]], revisions[1..]);
      assert Older(revisions) == revisions[1..];
      assert Pruned(st0) == st0.(ecs := st0.ecs.(active := [revisions[0]], inactive := st0.ecs.inactive + revisions[1..]));
      o := Pass;
    }

    /** _get_running_targets: describe the target group's health and collect the target
        ids in order, with each id's (last) description. */
    method GetRunningTargets(tgArn: string) returns (r: Result<(seq<string>, map<string, TargetHealth>)>)
      modifies cloud
      ensures cloud.st == old(cloud.st)
      ensures old(cloud.obs).targetHealth == [] ==>
        r == Failure(Exhausted("describe_target_health")) && cloud.obs == old(cloud.obs) && cloud.trace == old(cloud.trace)
      ensures old(cloud.obs).targetHealth != [] ==>
        && r == Success((TargetIds(old(cloud.obs).targetHealth[0]), TargetMap(old(cloud.obs).targetHealth[0])))
        && cloud.obs == old(cloud.obs).(targetHealth := old(cloud.obs).targetHealth[1..])
        && cloud.trace == old(cloud.trace) + [DescribeTargetHealth(tgArn, None)]
    {
      var described := cloud.PollTargetHealth(tgArn);
      if described.Failure? {
        return Failure(described.error);
      }
      var ds := described.value;
      var ids := [];
      var m := map[];
      var i := 0;
      while i < |ds|
        invariant i <= |ds|
        invariant ids == TargetIds(ds[..i]) && m == TargetMap(ds[..i])
      {
        assert ds[..i + 1][..i] == ds[..i];
        ids := ids + [ds[i].id];
        m := m[ds[i].id := ds[i]];
        i := i + 1;
      }
      assert ds[..i] == ds;
      r := Success((ids, m));
    }

    /** _get_inactive_running_tasks: the RUNNING tasks of the cluster whose task definition is
        INACTIVE. They are only reported; none is stopped. Without INACTIVE revisions no task
        is listed. */
    method GetInactiveRunningTasks() returns (r: Result<seq<string>>)
      modifies cloud
      ensures cloud.st == old(cloud.st) && cloud.obs == old(cloud.obs)
      ensures fleet.taskDefName.Failure? ==> r == Failure(fleet.taskDefName.error) && cloud.trace == old(cloud.trace)
      ensures fleet.taskDefName.Success? ==>
        && r == Success(InactiveTaskArns(old(cloud.st).ecs.runningTasks, old(cloud.st).ecs.inactive))
        && cloud.trace == old(cloud.trace) + [ListTaskDefinitions(fleet.taskDefName.value, "INACTIVE")]
                          + (if old(cloud.st).ecs.inactive == [] then []
                             else [ListTasks(fleet.cluster, None),
                                   DescribeTasks(fleet.cluster, TaskArns(old(cloud.st).ecs.runningTasks))])
    {
      if fleet.taskDefName.Failure? {
        return Failure(fleet.taskDefName.error);
      }
      var inactive := cloud.CallListTaskDefinitions(fleet.taskDefName.value, "INACTIVE");
      if |inactive| == 0 {
        NoInactiveNoTasks(cloud.st.ecs.runningTasks);
        return Success([]);
      }
      var arns := cloud.CallListRunningTasks(fleet.cluster);
      var tasks := cloud.CallDescribeTasks(fleet.cluster, arns);
      var found := FilterInactive(tasks, inactive);
      r := Success(found);
    }

    /** create_taskd: register the named container as a new revision of the family and keep
        it. The new revision is the family's newest. */
    method CreateTaskd() returns (o: Outcome)
      requires cloud.Valid()
      modifies this, cloud
      ensures cloud.Valid()
      ensures o.Pass? <==>
        fleet.containerDefinition.Success? && fleet.taskDefName.Success? && NamedContainer(fleet.containerDefinition).Success?
      ensures o.Pass? ==>
        && taskDef == Some(TaskDef(old(cloud.st).ecs.nextRevision, NamedContainer(fleet.containerDefinition).value))
        && cloud.st == old(cloud.st).(ecs := old(cloud.st).ecs.(active := [old(cloud.st).ecs.nextRevision] + old(cloud.st).ecs.active,
                                                                 nextRevision := old(cloud.st).ecs.nextRevision + 1))
        && cloud.trace == old(cloud.trace) + [RegisterTaskDefinition(fleet.taskDefName.value, fleet.networkMode,
                                                                     NamedContainer(fleet.containerDefinition).value)]
      ensures o.Pass? ==> forall i :: 1 <= i < |cloud.st.ecs.active| ==> cloud.st.ecs.active[i] < taskDef.value.revision
      ensures o.Fail? ==> cloud.st == old(cloud.st) && cloud.trace == old(cloud.trace) && taskDef == old(taskDef)
      ensures cloud.obs == old(cloud.obs) && clusterStatus == old(clusterStatus)
    {
      o := Need(fleet.containerDefinition);
      if o.Fail? {
        return;
      }
      :- Need(fleet.taskDefName);
      var container := NamedContainer(fleet.containerDefinition);
      :- Need(container);
      Register(fleet.taskDefName.value, container.value);
      o := Pass;
    }

    /** The register_task_definition step of create_taskd: the container becomes a new
        revision of the family, which the client keeps. */
    method Register(family: string, container: map<string, Value>)
      requires cloud.Valid()
      modifies this, cloud
      ensures cloud.Valid()
      ensures taskDef == Some(TaskDef(old(cloud.st).ecs.nextRevision, container))
      ensures cloud.st == old(cloud.st).(ecs := old(cloud.st).ecs.(active := [old(cloud.st).ecs.nextRevision] + old(cloud.st).ecs.active,
                                                                   nextRevision := old(cloud.st).ecs.nextRevision + 1))
      ensures cloud.trace == old(cloud.trace) + [RegisterTaskDefinition(family, fleet.networkMode, container)]
      ensures forall i :: 1 <= i < |cloud.st.ecs.active| ==> cloud.st.ecs.active[i] < taskDef.value.revision
      ensures cloud.obs == old(cloud.obs) && clusterStatus == old(clusterStatus)
    {
      var revision := cloud.CallRegisterTaskDefinition(family, fleet.networkMode, container);
      taskDef := Some(TaskDef(revision, container));
    }

    /** _get_task_count polled until `done` holds of (runningCount, desiredCount): the
        first answer is read before the loop, each further one inside it. */
    method WaitTaskCount(done: ((int, int)) -> bool) returns (o: Outcome, ghost polls: nat)
      modifies cloud
      ensures cloud.st == old(cloud.st)
      ensures polls <= |old(cloud.obs).taskCounts|
      ensures cloud.obs == old(cloud.obs).(taskCounts := old(cloud.obs).taskCounts[polls..])
      ensures cloud.trace == old(cloud.trace) + Repeat(DescribeServices(fleet.cluster, fleet.service), polls)
      ensures o.Pass? ==> StoppedAt(old(cloud.obs).taskCounts, polls, done)
      ensures o.Fail? ==> o.error.Exhausted? && NeverDone(old(cloud.obs).taskCounts, done)
    {
      ghost var all := cloud.obs.taskCounts;
      ghost var o0 := cloud.obs;
      ghost var t0 := cloud.trace;
      var r := cloud.PollTaskCount(fleet.cluster, fleet.service);
      if r.Failure? {
        return Fail(r.error), 0;
      }
      polls := 1;
      var count := r.value;
      while !done(count)
        invariant 1 <= polls <= |all|
        invariant count == all[polls - 1]
        invariant forall i :: 0 <= i < polls - 1 ==> !done(all[i])
        invariant cloud.st == old(cloud.st)
        invariant cloud.obs == o0.(taskCounts := all[polls..])
        invariant cloud.trace == t0 + Repeat(DescribeServices(fleet.cluster, fleet.service), polls)
        decreases |all| - polls
      {
        r := cloud.PollTaskCount(fleet.cluster, fleet.service);
        if r.Failure? {
          return Fail(r.error), polls;
        }
        assert all[polls + 1..] == all[polls..][1..];
        count := r.value;
        polls := polls + 1;
      }
      o := Pass;
    }

    /** _get_running_targets polled until `done` holds of the id -> description map. */
    method WaitTargets(tgArn: string, done: map<string, TargetHealth> -> bool) returns (o: Outcome, ghost polls: nat)
      modifies cloud
      ensures cloud.st == old(cloud.st)
      ensures polls <= |old(cloud.obs).targetHealth|
      ensures cloud.obs == old(cloud.obs).(targetHealth := old(cloud.obs).targetHealth[polls..])
      ensures cloud.trace == old(cloud.trace) + Repeat(DescribeTargetHealth(tgArn, None), polls)
      ensures o.Pass? ==>
        && 1 <= polls && done(TargetMap(old(cloud.obs).targetHealth[polls - 1]))
        && forall i :: 0 <= i < polls - 1 ==> !done(TargetMap(old(cloud.obs).targetHealth[i]))
      ensures o.Fail? ==>
        o.error.Exhausted? && forall i :: 0 <= i < |old(cloud.obs).targetHealth| ==> !done(TargetMap(old(cloud.obs).targetHealth[i]))
    {
      ghost var all := cloud.obs.targetHealth;
      ghost var o0 := cloud.obs;
      ghost var t0 := cloud.trace;
      polls := 0;
      while true
        invariant polls <= |all|
        invariant forall i :: 0 <= i < polls ==> !done(TargetMap(all[i]))
        invariant cloud.st == old(cloud.st)
        invariant cloud.obs == o0.(targetHealth := all[polls..])
        invariant cloud.trace == t0 + Repeat(DescribeTargetHealth(tgArn, None), polls)
        decreases |all| - polls
      {
        var r := GetRunningTargets(tgArn);
        if r.Failure? {
          return Fail(r.error), polls;
        }
        assert all[polls + 1..] == all[polls..][1..];
        polls := polls + 1;
        if done(r.value.1) {
          return Pass, polls;
        }
      }
    }

    /** get_or_create_lb: create or update the load balancer, its target group and its
        listeners, then bind the target group to the registered task definition's container
        name and first container port. */
    method GetOrCreateLb() returns (r: Result<LbBinding>)
      modifies cloud
      ensures r.Success? ==>
        && taskDef.Some?
        && cloud.st.elb.tg.Some? && cloud.st.elb.tg.value.name == fleet.tgName
        && LbOf(cloud.st, fleet.lbName).Some?
        && Forwards(cloud.st.elb, LbOf(cloud.st, fleet.lbName).value.arn, cloud.st.elb.tg.value.arn)
        && r.value.targetGroupArn == cloud.st.elb.tg.value.arn
        && "name" in taskDef.value.container && r.value.containerName == taskDef.value.container["name"]
        && ContainerPort(taskDef.value.container).Success?
        && r.value.containerPort == ContainerPort(taskDef.value.container).value
      ensures taskDef.None? ==> r.Failure?
      ensures cloud.st == old(cloud.st).(elb := cloud.st.elb)
      ensures cloud.obs == old(cloud.obs)
      ensures old(cloud.trace) <= cloud.trace
    {
      var elb := new ElbClient(cloud, fleet);
      var made := elb.CreateLbAndFriends();
      if made.Fail? {
        return Failure(made.error);
      }
      var arn, _ := elb.GetLbDetails();
      // Once create_lb_and_friends succeeded the load balancer exists and forwards to the
      // target group, so neither lookup can come back empty.
      var found := elb.GetFirstMatchingTargetGroup(arn);
      assert found.Success? && found.value.Some?;
      var tg := found.value.value;
      if taskDef.None? {
        return Failure(AttributeError("'EcsCluster' object has no attribute 'task_def'"));
      }
      var container := taskDef.value.container;
      var name :- Get(container, "name");
      var port :- ContainerPort(container);
      r := Success(LbBinding(tg.arn, name, port));
    }

    /** create_service: bind the load balancer, then create the service with the configured
        desired count, the ECS role and the registered revision when no ACTIVE service
        exists, or move the existing service onto the registered revision. */
    method CreateService() returns (o: Outcome)
      modifies cloud
      ensures o.Pass? ==>
        && taskDef.Some? && cloud.st.ecs.service.Some?
        && cloud.st.ecs.service.value.status == "ACTIVE"
        && cloud.st.ecs.service.value.taskDefinition == Revision(taskDef.value.revision)
        && cloud.st.elb.tg.Some? && |cloud.trace| > |old(cloud.trace)|
      ensures o.Pass? && old(cloud.st).ecs.service.Some? && old(cloud.st).ecs.service.value.status == "ACTIVE" ==>
        && cloud.st.ecs.service.value.desiredCount == old(cloud.st).ecs.service.value.desiredCount
        && cloud.trace[|cloud.trace| - 1] == UpdateServiceTaskDefinition(fleet.cluster, fleet.service, Revision(taskDef.value.revision))
      ensures o.Pass? && !(old(cloud.st).ecs.service.Some? && old(cloud.st).ecs.service.value.status == "ACTIVE") ==>
        && ConfiguredDesired(fleet).Success? && ConfiguredDesired(fleet).value.VInt? && fleet.ecsRole.Success?
        && cloud.st.ecs.service.value.desiredCount == ConfiguredDesired(fleet).value.i
        && var last := cloud.trace[|cloud.trace| - 1];
           && last.CreateService? && last.taskDefinition == Revision(taskDef.value.revision)
           && last.desiredCount == ConfiguredDesired(fleet).value.i && last.role == fleet.ecsRole.value
           && last.binding.targetGroupArn == cloud.st.elb.tg.value.arn
      ensures taskDef.None? ==> o.Fail?
      ensures cloud.st.ecs.active == old(cloud.st).ecs.active && cloud.st.ecs.nextRevision == old(cloud.st).ecs.nextRevision
      ensures cloud.st.scaling == old(cloud.st).scaling
      ensures cloud.st.app == old(cloud.st).app && cloud.st.queue == old(cloud.st).queue
      ensures cloud.obs == old(cloud.obs)
      ensures old(cloud.trace) <= cloud.trace
    {
      var bound := GetOrCreateLb();
      if bound.Failure? {
        return Fail(bound.error);
      }
      var binding := bound.value;
      var services := cloud.CallDescribeServices(fleet.cluster, fleet.service);
      var service := FirstMatchingActiveService(services);
      if service.None? {
        :- Need(ConfiguredDesired(fleet));
        :- Need(fleet.ecsRole);
        var desired, role := ConfiguredDesired(fleet).value, fleet.ecsRole.value;
        if !desired.VInt? {
          return Fail(Raised("Parameter validation failed: desiredCount"));
        }
        cloud.CallCreateService(fleet.cluster, fleet.service, desired.i, Revision(taskDef.value.revision), role, binding);
        o := Pass;
      } else {
        o := cloud.CallUpdateServiceTaskDefinition(fleet.cluster, fleet.service, Revision(taskDef.value.revision));
      }
    }

    /** _delete_service(blocking): delete the load balancer and its target group first; then,
        inside one try, zero the capacity, delete the service and, when blocking, poll until
        describe_services reports it INACTIVE. Every error of the try is logged and dropped.
        `lbDone` is where the load-balancer calls end and `polls` how many answers the wait
        read. */
    method DeleteService(blocking: bool) returns (o: Outcome, ghost lbDone: nat, ghost polls: nat)
      modifies cloud
      ensures o.Pass? || o.error.Exhausted?
      ensures LbOf(old(cloud.st), fleet.lbName).Some? ==> cloud.st.elb.lb.None?
      ensures old(cloud.st).ecs.service.Some? && fleet.asParams.Success? && old(cloud.st).scaling.asg.Some? ==>
        && cloud.st.ecs.service.None? && cloud.st.scaling.asg.Some?
        && cloud.st.scaling.asg.value.capacity == Capacity(0, 0, 0)
      ensures old(cloud.st).ecs.service.Some? && !(fleet.asParams.Success? && old(cloud.st).scaling.asg.Some?) ==>
        cloud.st.ecs.service.Some? && cloud.st.ecs.service.value.desiredCount == 0
      ensures old(cloud.st).ecs.service.None? ==> cloud.st.ecs == old(cloud.st).ecs && cloud.st.scaling == old(cloud.st).scaling
      ensures cloud.st.ecs.active == old(cloud.st).ecs.active && cloud.st.ecs.nextRevision == old(cloud.st).ecs.nextRevision
      ensures cloud.st.app == old(cloud.st).app
      ensures old(cloud.trace) <= cloud.trace && |old(cloud.trace)| <= lbDone <= |cloud.trace|
      ensures forall i :: |old(cloud.trace)| <= i < lbDone ==> ElbCall(cloud.trace[i])
      ensures forall i :: lbDone <= i < |cloud.trace| ==> !ElbCall(cloud.trace[i])
      ensures polls <= |old(cloud.obs).serviceStatuses|
      ensures cloud.obs == old(cloud.obs).(serviceStatuses := old(cloud.obs).serviceStatuses[polls..])
      ensures !blocking ==> polls == 0
      ensures blocking && o.Pass? && old(cloud.st).ecs.service.Some? && fleet.asParams.Success? && old(cloud.st).scaling.asg.Some? ==>
        StoppedAt(old(cloud.obs).serviceStatuses, polls, AnyInactive)
      ensures o.Fail? ==> NeverDone(old(cloud.obs).serviceStatuses, AnyInactive)
    {
      var elb := new ElbClient(cloud, fleet);
      elb.DeleteLbAndFriends();
      lbDone := |cloud.trace|;
      o, polls := ZeroAndDelete(blocking);
    }

    /** The try block of _delete_service: zero the capacity, delete the service and, when
        blocking, wait for INACTIVE; a raised error ends the block and is dropped. None of
        these calls is a load-balancer call. */
    method ZeroAndDelete(blocking: bool) returns (o: Outcome, ghost polls: nat)
      modifies cloud
      ensures o.Pass? || o.error.Exhausted?
      ensures old(cloud.st).ecs.service.Some? && fleet.asParams.Success? && old(cloud.st).scaling.asg.Some? ==>
        && cloud.st.ecs.service.None? && cloud.st.scaling.asg.Some?
        && cloud.st.scaling.asg.value.capacity == Capacity(0, 0, 0)
      ensures old(cloud.st).ecs.service.Some? && !(fleet.asParams.Success? && old(cloud.st).scaling.asg.Some?) ==>
        cloud.st.ecs.service.Some? && cloud.st.ecs.service.value.desiredCount == 0
      ensures old(cloud.st).ecs.service.None? ==> cloud.st.ecs == old(cloud.st).ecs && cloud.st.scaling == old(cloud.st).scaling
      ensures cloud.st.ecs.active == old(cloud.st).ecs.active && cloud.st.ecs.nextRevision == old(cloud.st).ecs.nextRevision
      ensures cloud.st.app == old(cloud.st).app && cloud.st.elb == old(cloud.st).elb
      ensures old(cloud.trace) <= cloud.trace
      ensures forall i :: |old(cloud.trace)| <= i < |cloud.trace| ==> !ElbCall(cloud.trace[i])
      ensures polls <= |old(cloud.obs).serviceStatuses|
      ensures cloud.obs == old(cloud.obs).(serviceStatuses := old(cloud.obs).serviceStatuses[polls..])
      ensures !blocking ==> polls == 0
      ensures blocking && o.Pass? && old(cloud.st).ecs.service.Some? && fleet.asParams.Success? && old(cloud.st).scaling.asg.Some? ==>
        StoppedAt(old(cloud.obs).serviceStatuses, polls, AnyInactive)
      ensures o.Fail? ==> NeverDone(old(cloud.obs).serviceStatuses, AnyInactive)
    {
      polls := 0;
      var zeroed := AutoScaling.UpdateCapacityTo(cloud, fleet, 0, 0, 0, "");
      if zeroed.Fail? {
        return Pass, polls;
      }
      var deleted := cloud.CallDeleteService(fleet.cluster, fleet.service);
      if blocking {
        o, polls := WaitInactive();
        o := Swallow(o);
      } else {
        o := Pass;
      }
    }

    /** The blocking wait of _delete_service: is_service_inactive polled until it holds. */
    method WaitInactive() returns (o: Outcome, ghost polls: nat)
      modifies cloud
      ensures cloud.st == old(cloud.st)
      ensures polls <= |old(cloud.obs).serviceStatuses|
      ensures cloud.obs == old(cloud.obs).(serviceStatuses := old(cloud.obs).serviceStatuses[polls..])
      ensures cloud.trace == old(cloud.trace) + Repeat(DescribeServices(fleet.cluster, fleet.service), polls)
      ensures o.Pass? ==> StoppedAt(old(cloud.obs).serviceStatuses, polls, AnyInactive)
      ensures o.Fail? ==> o.error.Exhausted? && NeverDone(old(cloud.obs).serviceStatuses, AnyInactive)
    {
      ghost var all := cloud.obs.serviceStatuses;
      ghost var o0 := cloud.obs;
      ghost var t0 := cloud.trace;
      polls := 0;
      while true
        invariant polls <= |all|
        invariant forall i :: 0 <= i < polls ==> !AnyInactive(all[i])
        invariant cloud.st == old(cloud.st)
        invariant cloud.obs == o0.(serviceStatuses := all[polls..])
        invariant cloud.trace == t0 + Repeat(DescribeServices(fleet.cluster, fleet.service), polls)
        decreases |all| - polls
      {
        var r := cloud.PollServiceStatuses(fleet.cluster, fleet.service);
        if r.Failure? {
          return Fail(r.error), polls;
        }
        assert all[polls + 1..] == all[polls..][1..];
        assert Repeat(DescribeServices(fleet.cluster, fleet.service), polls + 1)
            == Repeat(DescribeServices(fleet.cluster, fleet.service), polls) + [DescribeServices(fleet.cluster, fleet.service)];
        polls := polls + 1;
        if AnyInactive(r.value) {
          return Pass, polls;
        }
      }
    }

    // -------------------------------------------------------------------------
    // rolling_upgrade_service, phase by phase

    /** update_capacity_to(min, max, desired, policy) as the upgrade sees it: on success the
        service runs `desired` tasks of the same task definition and the group has the given
        sizing and the effective policy; revisions, scaling bounds and observations are
        untouched, and nothing is deregistered. */
    method ResizeTo(minSize: int, maxSize: int, desired: int, policy: string) returns (o: Outcome)
      modifies cloud
      ensures o.Pass? ==>
        && old(cloud.st).ecs.service.Some? && cloud.st.ecs.service.Some?
        && cloud.st.ecs.service.value.desiredCount == desired
        && cloud.st.ecs.service.value.taskDefinition == old(cloud.st).ecs.service.value.taskDefinition
        && cloud.st.scaling.asg.Some? && cloud.st.scaling.asg.value.capacity == Capacity(minSize, maxSize, desired)
        && cloud.st.scaling.asg.value.terminationPolicy == AutoScaling.EffectivePolicy(policy)
      ensures cloud.st.ecs.active == old(cloud.st).ecs.active && cloud.st.app == old(cloud.st).app
      ensures cloud.obs == old(cloud.obs)
      ensures old(cloud.trace) <= cloud.trace
      ensures NoDeregisterIn(cloud.trace, |old(cloud.trace)|, |cloud.trace|)
    {
      o := AutoScaling.UpdateCapacityTo(cloud, fleet, minSize, maxSize, desired, policy);
    }

    /** The target group of the fleet's load balancer and the targets it holds before the
        upgrade; the ARN of the target group is what the waits poll. */
    method LocateTargets() returns (r: Result<string>)
      modifies cloud
      ensures cloud.st == old(cloud.st)
      ensures r.Success? ==>
        && LbOf(old(cloud.st), fleet.lbName).Some?
        && TargetGroupsOf(old(cloud.st), LbOf(old(cloud.st), fleet.lbName).value.arn) != []
        && r.value == TargetGroupsOf(old(cloud.st), LbOf(old(cloud.st), fleet.lbName).value.arn)[0].arn
        && old(cloud.obs).targetHealth != [] && cloud.obs == old(cloud.obs).(targetHealth := old(cloud.obs).targetHealth[1..])
      ensures old(cloud.trace) <= cloud.trace
      ensures NoResizeIn(cloud.trace, |old(cloud.trace)|, |cloud.trace|)
    {
      var elb := new ElbClient(cloud, fleet);
      var lbAndTg :- elb.GetLbAndTg();
      var tgArn := lbAndTg.1;
      var targets :- GetRunningTargets(tgArn);
      r := Success(tgArn);
    }

    /** The first steps of rolling_upgrade_service: the target group behind the load
        balancer, its current targets, the original sizing, and the pruning of every ACTIVE
        revision but the newest. Nothing is resized. */
    method PrepareUpgrade() returns (r: Result<string>)
      requires cloud.Valid()
      modifies cloud
      ensures cloud.Valid()
      ensures r.Success? ==> fleet.asParams.Success? && fleet.taskDefName.Success? && cloud.st == Pruned(old(cloud.st))
      ensures r.Success? ==>
        old(cloud.obs).targetHealth != [] && cloud.obs == old(cloud.obs).(targetHealth := old(cloud.obs).targetHealth[1..])
      ensures old(cloud.trace) <= cloud.trace
      ensures NoResizeIn(cloud.trace, |old(cloud.trace)|, |cloud.trace|)
    {
      var tgArn :- LocateTargets();
      if fleet.asParams.Failure? {
        return Failure(fleet.asParams.error);
      }
      ghost var t1 := cloud.trace;
      ghost var active := cloud.st.ecs.active;
      var pruned := DeleteAllButLatestTaskd();
      if pruned.Fail? {
        return Failure(pruned.error);
      }
      PruneCallsResizeNothing(t1, fleet.taskDefName.value, DeregisterCalls(Older(active)));
      NoResizeJoined(t1, cloud.trace, |old(cloud.trace)|);
      r := Success(tgArn);
    }

    /** Step 2 of rolling_upgrade_service, taken only when `normalize` (the normalize_tasks
        option) is set: the group back to the original sizing with the OldestInstance
        termination policy, then a wait until runningCount equals desiredCount. Without
        the option nothing is called and nothing changes. */
    method NormalizeTasks(normalize: bool) returns (o: Outcome, ghost polls: nat)
      requires fleet.asParams.Success?
      modifies cloud
      ensures !normalize ==>
        o.Pass? && polls == 0 && cloud.st == old(cloud.st) && cloud.obs == old(cloud.obs) && cloud.trace == old(cloud.trace)
      ensures normalize && o.Pass? ==>
        var p := fleet.asParams.value;
        && cloud.st.ecs.service.Some? && cloud.st.ecs.service.value.desiredCount == p.desired
        && cloud.st.scaling.asg.Some? && cloud.st.scaling.asg.value.capacity == Capacity(p.minSize, p.maxSize, p.desired)
        && cloud.st.scaling.asg.value.terminationPolicy == "OldestInstance"
        && StoppedAt(old(cloud.obs).taskCounts, polls, Settled)
      ensures polls <= |old(cloud.obs).taskCounts|
      ensures cloud.obs == old(cloud.obs).(taskCounts := old(cloud.obs).taskCounts[polls..])
      ensures cloud.st.ecs.active == old(cloud.st).ecs.active && cloud.st.app == old(cloud.st).app
      ensures old(cloud.trace) <= cloud.trace
      ensures NoDeregisterIn(cloud.trace, |old(cloud.trace)|, |cloud.trace|)
    {
      var p := fleet.asParams.value;
      polls := 0;
      if !normalize {
        return Pass, 0;
      }
      o := ResizeTo(p.minSize, p.maxSize, p.desired, "OldestInstance");
      if o.Fail? {
        return;
      }
      o, polls := WaitTaskCount(Settled);
    }

    /** The resizing step of the scale-out: the scaling bounds at [n, n], then a forced
        deployment of the family's latest revision with n tasks and the group at n. */
    method Grow(n: int) returns (o: Outcome)
      requires fleet.asParams.Success?
      modifies cloud
      ensures o.Pass? ==>
        && fleet.taskDefName.Success?
        && cloud.st.ecs.service.Some? && cloud.st.ecs.service.value.desiredCount == n
        && cloud.st.ecs.service.value.taskDefinition == Latest(fleet.taskDefName.value)
        && cloud.st.scaling.asg.Some? && cloud.st.scaling.asg.value.capacity == Capacity(n, n, n)
        && cloud.st.app.scalableTarget == Some(ScalableTarget(n, n))
      ensures cloud.st.ecs.active == old(cloud.st).ecs.active && cloud.obs == old(cloud.obs)
      ensures old(cloud.trace) <= cloud.trace
      ensures |old(cloud.trace)| < |cloud.trace|
      ensures cloud.trace[|old(cloud.trace)|] == RegisterScalableTarget(AppAutoScaling.ResourceId(fleet.cluster, fleet.service), n, n)
      ensures NoDeregisterIn(cloud.trace, |old(cloud.trace)|, |cloud.trace|)
      ensures NoHealthPollIn(cloud.trace, |old(cloud.trace)|, |cloud.trace|)
    {
      ghost var t0 := cloud.trace;
      AppAutoScaling.UpdateEcsAutoscalingParameters(cloud, fleet, n, n);
      ghost var t1 := cloud.trace;
      assert NoHealthPollIn(t1, |t0|, |t1|) by {
        forall i | |t0| < i < |t1| ensures !t1[i].DescribeTargetHealth? {
          assert t1[i] == AppAutoScaling.PolicyCalls(fleet)[i - |t0| - 1];
        }
      }
      o := AutoScaling.UpdateCapacityAndTaskDefinition(cloud, fleet, n, n, n, "");
      NoDeregisterJoined(t1, cloud.trace, |t0|);
      NoHealthPollJoined(t1, cloud.trace, |t0|);
      assert cloud.trace[|t0|] == t1[|t0|];
    }

    /** Scale out onto the newest revision: Grow to ScaleOutSize of the original desired
        count, wait until runningCount reaches desiredCount and, when asked, until that many
        targets are healthy. */
    method ScaleOut(tgArn: string, waitHealthy: bool) returns (o: Outcome, ghost countPolls: nat, ghost healthPolls: nat)
      requires fleet.asParams.Success?
      modifies cloud
      ensures o.Pass? ==>
        var n := ScaleOutSize(fleet.asParams.value.desired);
        && fleet.taskDefName.Success?
        && cloud.st.ecs.service.Some? && cloud.st.ecs.service.value.desiredCount == n
        && cloud.st.ecs.service.value.taskDefinition == Latest(fleet.taskDefName.value)
        && cloud.st.scaling.asg.Some? && cloud.st.scaling.asg.value.capacity == Capacity(n, n, n)
        && cloud.st.app.scalableTarget == Some(ScalableTarget(n, n))
        && StoppedAt(old(cloud.obs).taskCounts, countPolls, CaughtUp)
      ensures o.Pass? && waitHealthy ==>
        var health := old(cloud.obs).targetHealth;
        var n := ScaleOutSize(fleet.asParams.value.desired);
        && 1 <= healthPolls <= |health|
        && HealthyCount(TargetMap(health[healthPolls - 1])) >= n
        && forall i :: 0 <= i < healthPolls - 1 ==> HealthyCount(TargetMap(health[i])) < n
      ensures !waitHealthy ==> healthPolls == 0 && NoHealthPollIn(cloud.trace, |old(cloud.trace)|, |cloud.trace|)
      ensures countPolls <= |old(cloud.obs).taskCounts| && healthPolls <= |old(cloud.obs).targetHealth|
      ensures cloud.obs == old(cloud.obs).(taskCounts := old(cloud.obs).taskCounts[countPolls..],
                                           targetHealth := old(cloud.obs).targetHealth[healthPolls..])
      ensures cloud.st.ecs.active == old(cloud.st).ecs.active
      ensures old(cloud.trace) <= cloud.trace
      ensures |old(cloud.trace)| < |cloud.trace|
      ensures cloud.trace[|old(cloud.trace)|] ==
                RegisterScalableTarget(AppAutoScaling.ResourceId(fleet.cluster, fleet.service),
                                       ScaleOutSize(fleet.asParams.value.desired), ScaleOutSize(fleet.asParams.value.desired))
      ensures NoDeregisterIn(cloud.trace, |old(cloud.trace)|, |cloud.trace|)
    {
      var n := ScaleOutSize(fleet.asParams.value.desired);
      ghost var t0 := cloud.trace;
      countPolls, healthPolls := 0, 0;
      o := Grow(n);
      if o.Fail? {
        return;
      }
      ghost var t1 := cloud.trace;
      o, countPolls := WaitTaskCount(CaughtUp);
      NoDeregisterJoined(t1, cloud.trace, |t0|);
      RepeatNoHealthPoll(t1, DescribeServices(fleet.cluster, fleet.service), countPolls);
      NoHealthPollJoined(t1, cloud.trace, |t0|);
      assert cloud.trace[|t0|] == t1[|t0|];
      if o.Fail? {
        return;
      }
      ghost var t2 := cloud.trace;
      o, healthPolls := WaitHealthy(tgArn, n, waitHealthy);
      NoDeregisterJoined(t2, cloud.trace, |t0|);
      assert cloud.trace[|t0|] == t2[|t0|];
    }

    /** Step 4 of rolling_upgrade_service: only with wait_for_healthy_targets (`waitHealthy`),
        poll the target group until at least `n` targets are healthy; otherwise nothing is
        called and no answer is read. */
    method WaitHealthy(tgArn: string, n: int, waitHealthy: bool) returns (o: Outcome, ghost polls: nat)
      modifies cloud
      ensures !waitHealthy ==>
        o.Pass? && polls == 0 && cloud.obs == old(cloud.obs) && cloud.trace == old(cloud.trace)
      ensures o.Pass? && waitHealthy ==>
        var health := old(cloud.obs).targetHealth;
        && 1 <= polls <= |health|
        && HealthyCount(TargetMap(health[polls - 1])) >= n
        && forall i :: 0 <= i < polls - 1 ==> HealthyCount(TargetMap(health[i])) < n
      ensures cloud.st == old(cloud.st)
      ensures polls <= |old(cloud.obs).targetHealth|
      ensures cloud.obs == old(cloud.obs).(targetHealth := old(cloud.obs).targetHealth[polls..])
      ensures old(cloud.trace) <= cloud.trace
      ensures NoDeregisterIn(cloud.trace, |old(cloud.trace)|, |cloud.trace|)
    {
      if !waitHealthy {
        assert old(cloud.obs).targetHealth[0..] == old(cloud.obs).targetHealth;
        return Pass, 0;
      }
      o, polls := WaitTargets(tgArn, HealthyAtLeast(n));
    }

    /** The last step of rolling_upgrade_service: the scaling bounds back at the original
        minimum and maximum, then the service and the group at the original sizing with the
        Default termination policy. */
    method Restore() returns (o: Outcome)
      requires fleet.asParams.Success?
      modifies cloud
      ensures o.Pass? ==>
        var p := fleet.asParams.value;
        && cloud.st.ecs.service.Some? && old(cloud.st).ecs.service.Some?
        && cloud.st.ecs.service.value.desiredCount == p.desired
        && cloud.st.ecs.service.value.taskDefinition == old(cloud.st).ecs.service.value.taskDefinition
        && cloud.st.scaling.asg.Some? && cloud.st.scaling.asg.value.capacity == Capacity(p.minSize, p.maxSize, p.desired)
        && cloud.st.scaling.asg.value.terminationPolicy == "Default"
        && cloud.st.app.scalableTarget == Some(ScalableTarget(p.minSize, p.maxSize))
      ensures cloud.st.ecs.active == old(cloud.st).ecs.active && cloud.obs == old(cloud.obs)
      ensures old(cloud.trace) <= cloud.trace
      ensures NoDeregisterIn(cloud.trace, |old(cloud.trace)|, |cloud.trace|)
    {
      var p := fleet.asParams.value;
      AppAutoScaling.UpdateEcsAutoscalingParameters(cloud, fleet, p.minSize, p.maxSize);
      ghost var t1 := cloud.trace;
      o := ResizeTo(p.minSize, p.maxSize, p.desired, "");
      NoDeregisterJoined(t1, cloud.trace, |old(cloud.trace)|);
    }

    /** Report the tasks still running on INACTIVE revisions, then resize to the original
        sizing with the OldestInstance termination policy. */
    method ResizeOldest() returns (o: Outcome)
      requires fleet.asParams.Success?
      modifies cloud
      ensures o.Pass? ==>
        var p := fleet.asParams.value;
        && cloud.st.ecs.service.Some? && old(cloud.st).ecs.service.Some?
        && cloud.st.ecs.service.value.taskDefinition == old(cloud.st).ecs.service.value.taskDefinition
        && cloud.st.scaling.asg.Some? && cloud.st.scaling.asg.value.capacity == Capacity(p.minSize, p.maxSize, p.desired)
        && cloud.st.scaling.asg.value.terminationPolicy == "OldestInstance"
      ensures cloud.st.ecs.active == old(cloud.st).ecs.active && cloud.obs == old(cloud.obs)
      ensures old(cloud.trace) <= cloud.trace
      ensures NoDeregisterIn(cloud.trace, |old(cloud.trace)|, |cloud.trace|)
    {
      var p := fleet.asParams.value;
      var inactive := GetInactiveRunningTasks();
      if inactive.Failure? {
        return Fail(inactive.error);
      }
      ghost var t1 := cloud.trace;
      o := ResizeTo(p.minSize, p.maxSize, p.desired, "OldestInstance");
      NoDeregisterJoined(t1, cloud.trace, |old(cloud.trace)|);
    }

    /** The first half of the scale-in: report the tasks still on INACTIVE revisions, resize
        to the original sizing with the OldestInstance termination policy, and wait until
        the target group holds at most the original desired count of targets. */
    method Shrink(tgArn: string) returns (o: Outcome, ghost polls: nat)
      requires fleet.asParams.Success?
      modifies cloud
      ensures o.Pass? ==>
        var p := fleet.asParams.value;
        && cloud.st.ecs.service.Some? && old(cloud.st).ecs.service.Some?
        && cloud.st.ecs.service.value.taskDefinition == old(cloud.st).ecs.service.value.taskDefinition
        && cloud.st.scaling.asg.Some? && cloud.st.scaling.asg.value.capacity == Capacity(p.minSize, p.maxSize, p.desired)
        && cloud.st.scaling.asg.value.terminationPolicy == "OldestInstance"
      ensures o.Pass? ==>
        var health := old(cloud.obs).targetHealth;
        && 1 <= polls <= |health|
        && |TargetMap(health[polls - 1])| <= fleet.asParams.value.desired
        && forall i :: 0 <= i < polls - 1 ==> |TargetMap(health[i])| > fleet.asParams.value.desired
      ensures polls <= |old(cloud.obs).targetHealth|
      ensures cloud.obs == old(cloud.obs).(targetHealth := old(cloud.obs).targetHealth[polls..])
      ensures cloud.st.ecs.active == old(cloud.st).ecs.active
      ensures old(cloud.trace) <= cloud.trace
      ensures NoDeregisterIn(cloud.trace, |old(cloud.trace)|, |cloud.trace|)
    {
      var p := fleet.asParams.value;
      polls := 0;
      assert old(cloud.obs).targetHealth[0..] == old(cloud.obs).targetHealth;
      o := ResizeOldest();
      if o.Fail? {
        return;
      }
      ghost var t1 := cloud.trace;
      o, polls := WaitTargets(tgArn, AtMostTargets(p.desired));
      NoDeregisterJoined(t1, cloud.trace, |old(cloud.trace)|);
    }

    /** Scale back in: Shrink, then Restore. */
    method ScaleIn(tgArn: string) returns (o: Outcome, ghost polls: nat)
      requires fleet.asParams.Success?
      modifies cloud
      ensures o.Pass? ==>
        var p := fleet.asParams.value;
        && cloud.st.ecs.service.Some? && old(cloud.st).ecs.service.Some?
        && cloud.st.ecs.service.value.desiredCount == p.desired
        && cloud.st.ecs.service.value.taskDefinition == old(cloud.st).ecs.service.value.taskDefinition
        && cloud.st.scaling.asg.Some? && cloud.st.scaling.asg.value.capacity == Capacity(p.minSize, p.maxSize, p.desired)
        && cloud.st.scaling.asg.value.terminationPolicy == "Default"
        && cloud.st.app.scalableTarget == Some(ScalableTarget(p.minSize, p.maxSize))
      ensures o.Pass? ==>
        var health := old(cloud.obs).targetHealth;
        && 1 <= polls <= |health|
        && |TargetMap(health[polls - 1])| <= fleet.asParams.value.desired
        && forall i :: 0 <= i < polls - 1 ==> |TargetMap(health[i])| > fleet.asParams.value.desired
      ensures polls <= |old(cloud.obs).targetHealth|
      ensures cloud.obs == old(cloud.obs).(targetHealth := old(cloud.obs).targetHealth[polls..])
      ensures cloud.st.ecs.active == old(cloud.st).ecs.active
      ensures old(cloud.trace) <= cloud.trace
      ensures NoDeregisterIn(cloud.trace, |old(cloud.trace)|, |cloud.trace|)
    {
      o, polls := Shrink(tgArn);
      if o.Fail? {
        return;
      }
      ghost var t1 := cloud.trace;
      o := Restore();
      NoDeregisterJoined(t1, cloud.trace, |old(cloud.trace)|);
    }

    /** Steps 2 to 5 of rolling_upgrade_service, once the revisions are pruned: the optional
        normalisation, the scale-out (its first call at `growStart`, right after the
        normalisation's calls and so right at the start when normalize_tasks is off), the
        optional wait for healthy targets, and the scale-in. `w` counts the answers each
        wait consumed, and UpgradeWaitsObserved says where each wait stopped. */
    method UpgradeSteps(tgArn: string, s: Options.Settings) returns (o: Outcome, ghost growStart: nat, ghost w: UpgradeWaits)
      requires fleet.asParams.Success?
      modifies cloud
      ensures o.Pass? ==>
        && fleet.taskDefName.Success?
        && var p := fleet.asParams.value;
           && cloud.st.ecs.service.Some? && cloud.st.scaling.asg.Some?
           && cloud.st.ecs.service.value.desiredCount == p.desired
           && cloud.st.ecs.service.value.taskDefinition == Latest(fleet.taskDefName.value)
           && cloud.st.scaling.asg.value.capacity == Capacity(p.minSize, p.maxSize, p.desired)
           && cloud.st.scaling.asg.value.terminationPolicy == "Default"
           && cloud.st.app.scalableTarget == Some(ScalableTarget(p.minSize, p.maxSize))
      ensures o.Pass? ==>
        var n := ScaleOutSize(fleet.asParams.value.desired);
        && growStart < |cloud.trace|
        && cloud.trace[growStart] == RegisterScalableTarget(AppAutoScaling.ResourceId(fleet.cluster, fleet.service), n, n)
        && UpgradeWaitsObserved(s, fleet.asParams.value.desired, old(cloud.obs).taskCounts, old(cloud.obs).targetHealth, w)
      ensures old(cloud.trace) <= cloud.trace && |old(cloud.trace)| <= growStart <= |cloud.trace|
      ensures !s.normalizeTasks ==> growStart == |old(cloud.trace)|
      ensures cloud.st.ecs.active == old(cloud.st).ecs.active
      ensures NoDeregisterIn(cloud.trace, |old(cloud.trace)|, |cloud.trace|)
    {
      ghost var t0 := cloud.trace;
      w := UpgradeWaits(0, 0, 0, 0);
      ghost var normPolls: nat;
      o, normPolls := NormalizeTasks(s.normalizeTasks);
      growStart := |cloud.trace|;
      if o.Fail? {
        return;
      }
      ghost var t1 := cloud.trace;
      ghost var countPolls: nat, healthPolls: nat, shrinkPolls: nat;
      o, countPolls, healthPolls, shrinkPolls := ScaleOutAndIn(tgArn, s.waitForHealthyTargets);
      NoDeregisterJoined(t1, cloud.trace, |t0|);
      w := UpgradeWaits(normPolls, countPolls, healthPolls, shrinkPolls);
    }

    /** Steps 3 to 5 of rolling_upgrade_service: ScaleOut, then ScaleIn. */
    method ScaleOutAndIn(tgArn: string, waitHealthy: bool)
      returns (o: Outcome, ghost countPolls: nat, ghost healthPolls: nat, ghost shrinkPolls: nat)
      requires fleet.asParams.Success?
      modifies cloud
      ensures o.Pass? ==>
        && fleet.taskDefName.Success?
        && var p := fleet.asParams.value;
           && cloud.st.ecs.service.Some? && cloud.st.scaling.asg.Some?
           && cloud.st.ecs.service.value.desiredCount == p.desired
           && cloud.st.ecs.service.value.taskDefinition == Latest(fleet.taskDefName.value)
           && cloud.st.scaling.asg.value.capacity == Capacity(p.minSize, p.maxSize, p.desired)
           && cloud.st.scaling.asg.value.terminationPolicy == "Default"
           && cloud.st.app.scalableTarget == Some(ScalableTarget(p.minSize, p.maxSize))
      ensures o.Pass? ==>
        ScaleWaitsObserved(waitHealthy, fleet.asParams.value.desired, old(cloud.obs).taskCounts,
                           old(cloud.obs).targetHealth, countPolls, healthPolls, shrinkPolls)
      ensures old(cloud.trace) <= cloud.trace && |old(cloud.trace)| < |cloud.trace|
      ensures cloud.trace[|old(cloud.trace)|] ==
                RegisterScalableTarget(AppAutoScaling.ResourceId(fleet.cluster, fleet.service),
                                       ScaleOutSize(fleet.asParams.value.desired), ScaleOutSize(fleet.asParams.value.desired))
      ensures cloud.st.ecs.active == old(cloud.st).ecs.active
      ensures NoDeregisterIn(cloud.trace, |old(cloud.trace)|, |cloud.trace|)
    {
      ghost var t0 := cloud.trace;
      shrinkPolls := 0;
      o, countPolls, healthPolls := ScaleOut(tgArn, waitHealthy);
      if o.Fail? {
        return;
      }
      ghost var t1 := cloud.trace;
      o, shrinkPolls := ScaleIn(tgArn);
      NoDeregisterJoined(t1, cloud.trace, |t0|);
      assert cloud.trace[|t0|] == t1[|t0|];
    }

    /** rolling_upgrade_service: prune the task definitions, optionally normalise the task
        count, scale out onto the newest revision, wait for it, and scale back in. When it
        completes the service runs the family's latest revision at the original desired
        count, the group and the scaling bounds are back at the original sizing with the
        Default termination policy, at most one revision is ACTIVE, and every deregistration
        came before the first resize (`pruneEnd` separates them). Without normalize_tasks
        the scale-out is the first thing after the pruning; each wait stopped at the first
        answer that met its condition (the target-health answers after the one
        LocateTargets read). */
    method RollingUpgradeService(opts: Option<Options.Settings>)
      returns (o: Outcome, ghost pruneEnd: nat, ghost growStart: nat, ghost w: UpgradeWaits)
      requires cloud.Valid()
      modifies cloud
      ensures o.Pass? ==>
        && fleet.asParams.Success? && fleet.taskDefName.Success?
        && var p := fleet.asParams.value;
           && cloud.st.ecs.service.Some? && cloud.st.scaling.asg.Some?
           && cloud.st.ecs.service.value.desiredCount == p.desired
           && cloud.st.ecs.service.value.taskDefinition == Latest(fleet.taskDefName.value)
           && cloud.st.scaling.asg.value.capacity == Capacity(p.minSize, p.maxSize, p.desired)
           && cloud.st.scaling.asg.value.terminationPolicy == "Default"
           && cloud.st.app.scalableTarget == Some(ScalableTarget(p.minSize, p.maxSize))
           && cloud.st.ecs.active == Pruned(old(cloud.st)).ecs.active
      ensures o.Pass? ==> |cloud.st.ecs.active| <= 1
      ensures |old(cloud.trace)| <= pruneEnd <= growStart <= |cloud.trace| && old(cloud.trace) <= cloud.trace
      ensures NoResizeIn(cloud.trace, |old(cloud.trace)|, pruneEnd)
      ensures o.Pass? ==> NoDeregisterIn(cloud.trace, pruneEnd, |cloud.trace|)
      ensures opts.None? ==> o.Fail?
      ensures opts.Some? && !opts.value.normalizeTasks ==> growStart == pruneEnd
      ensures o.Pass? ==>
        && opts.Some? && fleet.asParams.Success?
        && var n := ScaleOutSize(fleet.asParams.value.desired);
           && growStart < |cloud.trace|
           && cloud.trace[growStart] == RegisterScalableTarget(AppAutoScaling.ResourceId(fleet.cluster, fleet.service), n, n)
           && old(cloud.obs).targetHealth != []
           && UpgradeWaitsObserved(opts.value, fleet.asParams.value.desired, old(cloud.obs).taskCounts,
                                   old(cloud.obs).targetHealth[1..], w)
    {
      w := UpgradeWaits(0, 0, 0, 0);
      var prepared := PrepareUpgrade();
      pruneEnd := |cloud.trace|;
      growStart := pruneEnd;
      if prepared.Failure? {
        return Fail(prepared.error), pruneEnd, growStart, w;
      }
      var tgArn := prepared.value;
      ghost var t1 := cloud.trace;
      if opts.None? {
        return Fail(AttributeError("'NoneType' object has no attribute 'normalize_tasks'")), pruneEnd, growStart, w;
      }
      o, growStart, w := UpgradeSteps(tgArn, opts.value);
      NoResizeKept(t1, cloud.trace, |old(cloud.trace)|, pruneEnd);
      NoDeregisterJoined(t1, cloud.trace, pruneEnd);
    }
  }
}
