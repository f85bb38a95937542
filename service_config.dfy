/** The fleet configuration (scripts/service_config.py): a read-only dictionary loaded from
    the configuration document, with getters that derive resource names and fall back to
    defaults. Every getter is a pure function of the dictionary; a missing key is the
    KeyError the source raises. */
module ServiceConfig {
  import opened Wrappers
  import Text

  /** The values a loaded configuration document can hold. */
  datatype Value =
    | VNone
    | VBool(b: bool)
    | VInt(i: int)
    | VStr(s: string)
    | VList(items: seq<Value>)
    | VMap(m: map<string, Value>)

  /** Python truthiness. */
  predicate Truthy(v: Value) {
    match v
    case VNone => false
    case VBool(b) => b
    case VInt(i) => i != 0
    case VStr(s) => s != []
    case VList(xs) => xs != []
    case VMap(m) => m != map[]
  }

  /** Python's str() of a scalar value; containers are rendered as an empty string. */
  function PyStr(v: Value): string {
    match v
    case VNone => "None"
    case VBool(b) => if b then "True" else "False"
    case VInt(i) => Text.IntToString(i)
    case VStr(s) => s
    case _ => ""
  }

  datatype Config = Config(state: map<string, Value>)

  const RequiredKeys: seq<string> := ["ecs_cluster_name", "region", "prefix"]

  function MissingKeyMessage(k: string): string {
    "Missing required " + k + " name in config file"
  }

  /** Config.__init__: keep the dictionary, after checking the required keys in the order
      ecs_cluster_name, region, prefix; the first one missing is named in the KeyError. */
  function NewConfig(state: map<string, Value>): (r: Result<Config>)
    ensures r.Success? <==> "ecs_cluster_name" in state && "region" in state && "prefix" in state
    ensures r.Success? ==> r.value.state == state
    ensures "ecs_cluster_name" !in state ==>
              r == Failure(KeyError(MissingKeyMessage("ecs_cluster_name")))
    ensures "ecs_cluster_name" in state && "region" !in state ==>
              r == Failure(KeyError(MissingKeyMessage("region")))
    ensures "ecs_cluster_name" in state && "region" in state && "prefix" !in state ==>
              r == Failure(KeyError(MissingKeyMessage("prefix")))
  {
    if "ecs_cluster_name" !in state then Failure(KeyError(MissingKeyMessage("ecs_cluster_name")))
    else if "region" !in state then Failure(KeyError(MissingKeyMessage("region")))
    else if "prefix" !in state then Failure(KeyError(MissingKeyMessage("prefix")))
    else Success(Config(state))
  }

  // ---------------------------------------------------------------------------
  // Dictionary access

  /** state[key] */
  function Get(state: map<string, Value>, key: string): Result<Value> {
    if key in state then Success(state[key]) else Failure(KeyError(key))
  }

  /** state[outer][inner]: the outer value must be a dictionary. */
  function GetIn(state: map<string, Value>, outer: string, inner: string): Result<Value> {
    var v :- Get(state, outer);
    if v.VMap? then Get(v.m, inner) else Failure(TypeError(outer + " is not subscriptable"))
  }

  /** state.get(key, default) */
  function GetOr(state: map<string, Value>, key: string, default: Value): Value {
    if key in state then state[key] else default
  }

  // ---------------------------------------------------------------------------
  // Names

  /** sep.join(parts) */
  function Join(parts: seq<string>, sep: string): (r: string)
  {
    if parts == [] then ""
    else if |parts| == 1 then parts[0]
    else parts[0] + sep + Join(parts[1..], sep)
  }

  /** s.lstrip(c) */
  function LStrip(s: string, c: char): (r: string)
    ensures |r| <= |s| && r == s[|s| - |r|..]
    ensures forall i :: 0 <= i < |s| - |r| ==> s[i] == c
    ensures r == [] || r[0] != c
  {
    if s != [] && s[0] == c then LStrip(s[1..], c) else s
  }

  /** s.rstrip(c) */
  function RStrip(s: string, c: char): (r: string)
    ensures |r| <= |s| && r == s[..|r|]
    ensures forall i :: |r| <= i < |s| ==> s[i] == c
    ensures r == [] || r[|r| - 1] != c
  {
    if s != [] && s[|s| - 1] == c then RStrip(s[..|s| - 1], c) else s
  }

  /** `r` is `j[lo..hi]`, and everything of `j` outside that slice is a hyphen. */
  ghost predicate TrimmedSlice(j: string, r: string, lo: int, hi: int) {
    && 0 <= lo <= hi <= |j| && r == j[lo..hi]
    && (forall p :: 0 <= p < lo ==> j[p] == '-')
    && (forall p :: hi <= p < |j| ==> j[p] == '-')
  }

  /** Config.create_name_with_separator: hyphen-join, then strip leading and trailing hyphens. */
  function CreateNameWithSeparator(parts: seq<string>): (r: string)
    ensures r == [] || (r[0] != '-' && r[|r| - 1] != '-')
  {
    RStrip(LStrip(Join(parts, "-"), '-'), '-')
  }

  /** The name is the joined parts with only hyphens removed at its two ends. */
  lemma CreateNameWithSeparatorTrims(parts: seq<string>)
    ensures exists lo, hi :: TrimmedSlice(Join(parts, "-"), CreateNameWithSeparator(parts), lo, hi)
  {
    var j := Join(parts, "-");
    var l := LStrip(j, '-');
    var r := RStrip(l, '-');
    StripIsTrimmedSlice(j, l, r);
    assert TrimmedSlice(j, CreateNameWithSeparator(parts), |j| - |l|, |j| - |l| + |r|);
  }

  /** Stripping hyphens from both ends of `j` (first `l`, then `r`) leaves a slice of it with
      only hyphens cut off. */
  lemma StripIsTrimmedSlice(j: string, l: string, r: string)
    requires |l| <= |j| && l == j[|j| - |l|..] && forall i :: 0 <= i < |j| - |l| ==> j[i] == '-'
    requires |r| <= |l| && r == l[..|r|] && forall i :: |r| <= i < |l| ==> l[i] == '-'
    ensures TrimmedSlice(j, r, |j| - |l|, |j| - |l| + |r|)
  {
    var lo := |j| - |l|;
    var hi := lo + |r|;
    assert r == j[lo..hi];
    forall p | hi <= p < |j|
      ensures j[p] == '-'
    {
      assert j[p] == l[p - lo];
    }
  }

  /** Config.create_name: plain concatenation, the join with the empty separator. */
  function CreateName(parts: seq<string>): (r: string)
    ensures r == Join(parts, "")
  {
    if parts == [] then ""
    else
      var rest := CreateName(parts[1..]);
      if |parts| == 1 then
        assert rest == "";
        parts[0] + rest
      else
        assert parts[0] + "" + rest == parts[0] + rest;
        parts[0] + rest
  }

  /** The items of a list, all of which must be strings. */
  function StrItems(xs: seq<Value>): Result<seq<string>> {
    if xs == [] then Success([])
    else if xs[0].VStr? then
      var rest :- StrItems(xs[1..]);
      Success([xs[0].s] + rest)
    else Failure(TypeError("sequence item: expected str instance"))
  }

  /** The characters of a string, each as a one-character string. */
  function Chars(s: string): seq<string> {
    if s == [] then [] else [[s[0]]] + Chars(s[1..])
  }

  /** The strings '-'.join iterates over: a list of strings, or the characters of a string.
      Any other value is a TypeError here; for a mapping Python would iterate its keys in
      insertion order, which a map does not keep (see Left out). */
  function NameParts(v: Value): Result<seq<string>> {
    match v
    case VStr(s) => Success(Chars(s))
    case VList(xs) => StrItems(xs)
    case _ => Failure(TypeError("can only join an iterable"))
  }

  /** A configured list of names, as the document holds it. */
  function StrValues(parts: seq<string>): seq<Value> {
    if parts == [] then [] else [VStr(parts[0])] + StrValues(parts[1..])
  }

  lemma {:induction false} StrItemsOfStrValues(parts: seq<string>)
    ensures StrItems(StrValues(parts)) == Success(parts)
  {
    if parts != [] {
      StrItemsOfStrValues(parts[1..]);
      var xs := StrValues(parts);
      assert xs[0] == VStr(parts[0]) && xs[1..] == StrValues(parts[1..]);
      assert parts == [parts[0]] + parts[1..];
    }
  }

  function NameFrom(v: Result<Value>): Result<string> {
    var val :- v;
    var parts :- NameParts(val);
    Success(CreateNameWithSeparator(parts))
  }

  function GetEcsClusterName(c: Config): Result<string> { NameFrom(Get(c.state, "ecs_cluster_name")) }
  function GetEcsServiceName(c: Config): Result<string> { NameFrom(Get(c.state, "ecs_service_name")) }
  function GetLbName(c: Config): Result<string> { NameFrom(Get(c.state, "lb_name")) }
  function GetTgName(c: Config): Result<string> { NameFrom(Get(c.state, "tg_name")) }
  function GetEc2Name(c: Config): Result<string> { NameFrom(Get(c.state, "ec2_name")) }
  function GetAsName(c: Config): Result<string> { NameFrom(GetIn(c.state, "auto_scale_group", "name")) }
  function GetLaunchConfigName(c: Config): Result<string> {
    NameFrom(GetIn(c.state, "auto_scale_group", "launch_config_name"))
  }
  function GetAlarmName(c: Config): Result<string> { NameFrom(GetIn(c.state, "alarm", "name")) }
  function GetAlarmAction(c: Config): Result<string> { NameFrom(GetIn(c.state, "alarm", "alarm_action")) }
  /** The container definition's name doubles as the task-definition family name. */
  function GetTaskDefinitionName(c: Config): Result<string> {
    NameFrom(GetIn(c.state, "container_definition", "name"))
  }

  /** A name read from a configured list of strings is that list hyphen-joined and stripped. */
  lemma NameFromConfiguredList(v: Result<Value>, parts: seq<string>)
    requires v == Success(VList(StrValues(parts)))
    ensures NameFrom(v) == Success(CreateNameWithSeparator(parts))
  {
    StrItemsOfStrValues(parts);
    assert NameParts(v.value) == Success(parts);
  }

  /** Every top-level resource-name getter (cluster, service, load balancer, target group,
      EC2 name) is create_name_with_separator of the list configured under its key. */
  lemma NameGettersJoinConfiguredList(c: Config, key: string, parts: seq<string>)
    requires key == "ecs_cluster_name" || key == "ecs_service_name" || key == "lb_name" || key == "tg_name"
             || key == "ec2_name"
    requires key in c.state && c.state[key] == VList(StrValues(parts))
    ensures key == "ecs_cluster_name" ==> GetEcsClusterName(c) == Success(CreateNameWithSeparator(parts))
    ensures key == "ecs_service_name" ==> GetEcsServiceName(c) == Success(CreateNameWithSeparator(parts))
    ensures key == "lb_name" ==> GetLbName(c) == Success(CreateNameWithSeparator(parts))
    ensures key == "tg_name" ==> GetTgName(c) == Success(CreateNameWithSeparator(parts))
    ensures key == "ec2_name" ==> GetEc2Name(c) == Success(CreateNameWithSeparator(parts))
  {
    NameFromConfiguredList(Get(c.state, key), parts);
  }

  /** Every nested resource-name getter (group, launch configuration, alarm name and action,
      and the task-definition family taken from container_definition['name']) is
      create_name_with_separator of the list configured under its section and key. */
  lemma NestedNameGettersJoinConfiguredList(c: Config, section: string, key: string, parts: seq<string>)
    requires (section == "auto_scale_group" && (key == "name" || key == "launch_config_name"))
             || (section == "alarm" && (key == "name" || key == "alarm_action"))
    requires section in c.state && c.state[section].VMap?
    requires key in c.state[section].m && c.state[section].m[key] == VList(StrValues(parts))
    ensures section == "auto_scale_group" && key == "name" ==> GetAsName(c) == Success(CreateNameWithSeparator(parts))
    ensures section == "auto_scale_group" && key == "launch_config_name" ==>
      GetLaunchConfigName(c) == Success(CreateNameWithSeparator(parts))
    ensures section == "alarm" && key == "name" ==> GetAlarmName(c) == Success(CreateNameWithSeparator(parts))
    ensures section == "alarm" && key == "alarm_action" ==> GetAlarmAction(c) == Success(CreateNameWithSeparator(parts))
  {
    NameFromConfiguredList(GetIn(c.state, section, key), parts);
  }

  /** The task-definition name is the hyphen-joined, stripped form of the container
      definition's configured name list. */
  lemma TaskDefinitionNameJoinsConfiguredList(c: Config, parts: seq<string>)
    requires "container_definition" in c.state && c.state["container_definition"].VMap?
    requires "name" in c.state["container_definition"].m
    requires c.state["container_definition"].m["name"] == VList(StrValues(parts))
    ensures GetTaskDefinitionName(c) == Success(CreateNameWithSeparator(parts))
  {
    NameFromConfiguredList(GetIn(c.state, "container_definition", "name"), parts);
  }

  /** Stripping drops the empty leading and trailing parts but keeps an interior double hyphen. */
  lemma CreateNameKeepsInteriorHyphens()
    ensures CreateNameWithSeparator(["", "web", "", "prod", ""]) == "web--prod"
  {
    JoinCons("prod", [""], "-");
    JoinCons("", ["prod", ""], "-");
    JoinCons("web", ["", "prod", ""], "-");
    JoinCons("", ["web", "", "prod", ""], "-");
    assert Join(["", "web", "", "prod", ""], "-") == "-web--prod-";
    LStripOne("-web--prod-", "web--prod-");
    RStripOne("web--prod-", "web--prod");
  }

  lemma JoinCons(a: string, rest: seq<string>, sep: string)
    requires rest != []
    ensures Join([a] + rest, sep) == a + sep + Join(rest, sep)
  {
    assert ([a] + rest)[1..] == rest;
  }

  lemma LStripOne(s: string, t: string)
    requires |s| >= 2 && s[0] == '-' && s[1] != '-' && t == s[1..]
    ensures LStrip(s, '-') == t
  {
  }

  lemma RStripOne(s: string, t: string)
    requires |s| >= 2 && s[|s| - 1] == '-' && s[|s| - 2] != '-' && t == s[..|s| - 1]
    ensures RStrip(s, '-') == t
  {
  }

  /** A name whose joined form neither starts nor ends with a hyphen is the join itself. */
  lemma {:induction false} CreateNameOfCleanJoin(parts: seq<string>)
    requires var j := Join(parts, "-"); j != [] && j[0] != '-' && j[|j| - 1] != '-'
    ensures CreateNameWithSeparator(parts) == Join(parts, "-")
  {
    var j := Join(parts, "-");
    assert LStrip(j, '-') == j;
    assert RStrip(j, '-') == j;
  }

  /** get_prefix_str / get_service_type_str: the value plus a hyphen when truthy, else ''. */
  function TruthySuffixed(v: Result<Value>): (r: Result<string>)
    ensures v.Failure? ==> r.Failure?
    ensures v.Success? && !Truthy(v.value) ==> r == Success("")
    ensures v.Success? && v.value.VStr? && Truthy(v.value) ==> r == Success(v.value.s + "-")
  {
    var val :- v;
    if !Truthy(val) then Success("")
    else if val.VStr? then Success(val.s + "-")
    else Failure(TypeError("unsupported operand type(s) for +"))
  }

  function GetPrefixStr(c: Config): Result<string> { TruthySuffixed(Get(c.state, "prefix")) }
  function GetServiceTypeStr(c: Config): Result<string> { TruthySuffixed(Get(c.state, "service_type")) }

  // ---------------------------------------------------------------------------
  // Defaulting getters

  function GetInstanceType(c: Config): Value { GetOr(c.state, "instance_type", VStr("t2.micro")) }
  function GetSqs(c: Config): Value { GetOr(c.state, "sqs", VNone) }
  function GetHealthyThreshold(c: Config): Value { GetOr(c.state, "tg_healthy_threshold", VInt(5)) }
  function GetHealthCheckInterval(c: Config): Value { GetOr(c.state, "tg_health_check_interval", VInt(30)) }
  function GetAltListenerInfos(c: Config): Value { GetOr(c.state, "lb_listeners", VList([])) }
  function GetTaskDefNetworkMode(c: Config): Value { GetOr(c.state, "task_def_network_mode", VStr("bridge")) }
  function GetLaunchEc2WithPublicIp(c: Config): Value { GetOr(c.state, "launch_ec2_with_public_ip", VBool(true)) }
  function GetTgStickiness(c: Config): Value { GetOr(c.state, "tg_stickiness", VNone) }
  function GetTgDrainTimeout(c: Config): Value { GetOr(c.state, "tg_connection_drain_timeout", VNone) }
  function GetLbTimeouts(c: Config): Value { GetOr(c.state, "lb_idle_timeout", VNone) }

  /** Each defaulting getter returns the configured value when present and its default
      otherwise; none of them can fail. */
  lemma DefaultingGetters(c: Config)
    ensures "instance_type" !in c.state ==> GetInstanceType(c) == VStr("t2.micro")
    ensures "sqs" !in c.state ==> GetSqs(c) == VNone
    ensures "tg_healthy_threshold" !in c.state ==> GetHealthyThreshold(c) == VInt(5)
    ensures "tg_health_check_interval" !in c.state ==> GetHealthCheckInterval(c) == VInt(30)
    ensures "lb_listeners" !in c.state ==> GetAltListenerInfos(c) == VList([])
    ensures "task_def_network_mode" !in c.state ==> GetTaskDefNetworkMode(c) == VStr("bridge")
    ensures "launch_ec2_with_public_ip" !in c.state ==> GetLaunchEc2WithPublicIp(c) == VBool(true)
    ensures "tg_stickiness" !in c.state ==> GetTgStickiness(c) == VNone
    ensures "tg_connection_drain_timeout" !in c.state ==> GetTgDrainTimeout(c) == VNone
    ensures "lb_idle_timeout" !in c.state ==> GetLbTimeouts(c) == VNone
    ensures "instance_type" in c.state ==> GetInstanceType(c) == c.state["instance_type"]
    ensures "sqs" in c.state ==> GetSqs(c) == c.state["sqs"]
    ensures "tg_healthy_threshold" in c.state ==> GetHealthyThreshold(c) == c.state["tg_healthy_threshold"]
    ensures "tg_health_check_interval" in c.state ==> GetHealthCheckInterval(c) == c.state["tg_health_check_interval"]
    ensures "lb_listeners" in c.state ==> GetAltListenerInfos(c) == c.state["lb_listeners"]
    ensures "task_def_network_mode" in c.state ==> GetTaskDefNetworkMode(c) == c.state["task_def_network_mode"]
    ensures "launch_ec2_with_public_ip" in c.state ==> GetLaunchEc2WithPublicIp(c) == c.state["launch_ec2_with_public_ip"]
    ensures "tg_stickiness" in c.state ==> GetTgStickiness(c) == c.state["tg_stickiness"]
    ensures "tg_connection_drain_timeout" in c.state ==> GetTgDrainTimeout(c) == c.state["tg_connection_drain_timeout"]
    ensures "lb_idle_timeout" in c.state ==> GetLbTimeouts(c) == c.state["lb_idle_timeout"]
  {
  }

  // ---------------------------------------------------------------------------
  // CPU threshold

  /** get_auto_scale_cpu_threshold as written: `threshold <= 0 | threshold > 100`.
      `|` binds tighter than the comparisons, so this is the chain
      `threshold <= (0 | threshold) > 100`; for an int, `0 | threshold` is `threshold`. */
  function CpuThresholdAsWritten(threshold: int): (r: int)
    ensures threshold > 100 ==> r == 70
    ensures threshold <= 100 ==> r == threshold
  {
    var bitOr := threshold;  // 0 | threshold
    if threshold <= bitOr && bitOr > 100 then 70 else threshold
  }

  /** The intended check `threshold <= 0 or threshold > 100`: out-of-range values become 70. */
  function CpuThreshold(threshold: int): (r: int)
    ensures 0 < r <= 100
    ensures 0 < threshold <= 100 ==> r == threshold
    ensures threshold <= 0 || threshold > 100 ==> r == 70
  {
    if threshold <= 0 || threshold > 100 then 70 else threshold
  }

  /** A threshold of 0 passes through the written check unchanged, where 70 was intended. */
  lemma CpuThresholdZeroPassesThrough()
    ensures CpuThresholdAsWritten(0) == 0
    ensures CpuThreshold(0) == 70
    ensures exists t :: CpuThresholdAsWritten(t) != CpuThreshold(t)
  {
    assert CpuThresholdAsWritten(0) != CpuThreshold(0);
  }

  /** The two versions agree exactly on the thresholds above zero. */
  lemma CpuThresholdVersionsAgreeAboveZero(t: int)
    ensures CpuThresholdAsWritten(t) == CpuThreshold(t) <==> t > 0
  {
  }

  /** get_auto_scale_cpu_threshold with the intended range check (see CpuThreshold): the
      configured value when it lies in 1..100, 70 otherwise. */
  function GetAutoScaleCpuThreshold(c: Config): (r: Result<int>)
    ensures r.Success? ==> 0 < r.value <= 100
    ensures r.Success? <==> GetIn(c.state, "auto_scale_group", "cpu_threshold").Success?
                            && GetIn(c.state, "auto_scale_group", "cpu_threshold").value.VInt?
    ensures GetIn(c.state, "auto_scale_group", "cpu_threshold").Failure? ==>
              r == Failure(GetIn(c.state, "auto_scale_group", "cpu_threshold").error)
    ensures r.Success? && 0 < GetIn(c.state, "auto_scale_group", "cpu_threshold").value.i <= 100 ==>
              r.value == GetIn(c.state, "auto_scale_group", "cpu_threshold").value.i
  {
    var v :- GetIn(c.state, "auto_scale_group", "cpu_threshold");
    if v.VInt? then Success(CpuThreshold(v.i)) else Failure(TypeError("cpu_threshold"))
  }

  /** The getter returns what the source returns for every positive configured threshold;
      they differ only on 0 and the negative values (CpuThresholdZeroPassesThrough). */
  lemma CpuThresholdGetterAsSourceAboveZero(c: Config, t: int)
    requires GetIn(c.state, "auto_scale_group", "cpu_threshold") == Success(VInt(t))
    requires t > 0
    ensures GetAutoScaleCpuThreshold(c) == Success(CpuThresholdAsWritten(t))
  {
    CpuThresholdVersionsAgreeAboveZero(t);
  }


  // ---------------------------------------------------------------------------
  // Auto-scaling parameters

  /** (min, max, desired, availability_zones, vpc_zone_identifier, default_cooldown) */
  datatype AutoScaleParams = AutoScaleParams(
    minSize: int, maxSize: int, desired: int,
    zones: Value, vpcZoneIdentifier: Value, cooldown: Value)

  function AsInt(v: Value, what: string): Result<int> {
    if v.VInt? then Success(v.i) else Failure(TypeError(what))
  }

  /** auto_scale_group[key], as get_auto_scale_params reads it. */
  function AsgEntry(c: Config, key: string): Result<Value> {
    GetIn(c.state, "auto_scale_group", key)
  }

  /** Every entry get_auto_scale_params reads is present and min, max and desired are ints. */
  predicate AutoScaleParamsReadable(c: Config) {
    && AsgEntry(c, "min").Success? && AsgEntry(c, "max").Success? && AsgEntry(c, "desired").Success?
    && AsgEntry(c, "availability_zones").Success? && AsgEntry(c, "vpc_zone_identifier").Success?
    && AsgEntry(c, "default_cooldown").Success?
    && AsgEntry(c, "min").value.VInt? && AsgEntry(c, "max").value.VInt? && AsgEntry(c, "desired").value.VInt?
  }

  /** get_auto_scale_params: the six auto_scale_group entries, read in the order min, max,
      desired, availability_zones, vpc_zone_identifier, default_cooldown, so the first one
      missing is the error. */
  function GetAutoScaleParams(c: Config): (r: Result<AutoScaleParams>)
    ensures r.Success? <==> AutoScaleParamsReadable(c)
    ensures r.Success? ==>
      && AsgEntry(c, "min") == Success(VInt(r.value.minSize))
      && AsgEntry(c, "max") == Success(VInt(r.value.maxSize))
      && AsgEntry(c, "desired") == Success(VInt(r.value.desired))
      && AsgEntry(c, "availability_zones") == Success(r.value.zones)
      && AsgEntry(c, "vpc_zone_identifier") == Success(r.value.vpcZoneIdentifier)
      && AsgEntry(c, "default_cooldown") == Success(r.value.cooldown)
    ensures AsgEntry(c, "min").Failure? ==> r == Failure(AsgEntry(c, "min").error)
    ensures AsgEntry(c, "min").Success? && AsgEntry(c, "max").Failure? ==> r == Failure(AsgEntry(c, "max").error)
    ensures AsgEntry(c, "min").Success? && AsgEntry(c, "max").Success? && AsgEntry(c, "desired").Failure? ==>
              r == Failure(AsgEntry(c, "desired").error)
    ensures AsgEntry(c, "min").Success? && AsgEntry(c, "max").Success? && AsgEntry(c, "desired").Success?
            && AsgEntry(c, "availability_zones").Failure? ==>
              r == Failure(AsgEntry(c, "availability_zones").error)
    ensures AsgEntry(c, "min").Success? && AsgEntry(c, "max").Success? && AsgEntry(c, "desired").Success?
            && AsgEntry(c, "availability_zones").Success? && AsgEntry(c, "vpc_zone_identifier").Failure? ==>
              r == Failure(AsgEntry(c, "vpc_zone_identifier").error)
    ensures AsgEntry(c, "min").Success? && AsgEntry(c, "max").Success? && AsgEntry(c, "desired").Success?
            && AsgEntry(c, "availability_zones").Success? && AsgEntry(c, "vpc_zone_identifier").Success?
            && AsgEntry(c, "default_cooldown").Failure? ==>
              r == Failure(AsgEntry(c, "default_cooldown").error)
  {
    var mn :- AsgEntry(c, "min");
    var mx :- AsgEntry(c, "max");
    var d :- AsgEntry(c, "desired");
    var z :- AsgEntry(c, "availability_zones");
    var vpc :- AsgEntry(c, "vpc_zone_identifier");
    var cd :- AsgEntry(c, "default_cooldown");
    var mnI :- AsInt(mn, "min");
    var mxI :- AsInt(mx, "max");
    var dI :- AsInt(d, "desired");
    Success(AutoScaleParams(mnI, mxI, dI, z, vpc, cd))
  }
}
