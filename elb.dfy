/** The Elastic Load Balancing client (scripts/aws_client_elb.py): looks up, creates and
    deletes the fleet's load balancer, its target group and its listeners, and drains
    instances out of the target group. The request payloads are pure functions of the
    descriptor; the client object caches the ARNs it last worked with. */
module Elb {
  import opened Wrappers
  import opened ServiceConfig
  import opened Descriptor
  import opened Provider
  import Text

  // ---------------------------------------------------------------------------
  // Lookups

  /** The load balancer describe_load_balancers(Names=[name]) finds. */
  function LbOf(st: ProviderState, name: string): Option<Lb> {
    if st.elb.lb.Some? && st.elb.lb.value.name == name then st.elb.lb else None
  }

  /** get_lb_details on a describe response: the first load balancer's ARN and DNS name,
      or (None, None) when the lookup raised or found nothing. */
  function FirstLbDetails(r: Result<seq<Lb>>): (d: (Option<string>, Option<string>))
    ensures d.0.Some? <==> r.Success? && |r.value| > 0
    ensures d.0.Some? ==> d == (Some(r.value[0].arn), Some(r.value[0].dns))
    ensures d.0.None? ==> d.1.None?
  {
    if r.Success? && |r.value| > 0 then (Some(r.value[0].arn), Some(r.value[0].dns)) else (None, None)
  }

  /** get_first_matching_target_group on a describe response: the first one, if any. */
  function FirstMatchingTargetGroup(tgs: seq<Tg>): (r: Option<Tg>)
    ensures r.Some? <==> |tgs| > 0
    ensures r.Some? ==> r.value == tgs[0]
  {
    if |tgs| > 0 then Some(tgs[0]) else None
  }

  // ---------------------------------------------------------------------------
  // Request payloads

  /** update_load_balancer_settings: an idle-timeout attribute only when one is configured. */
  function LbAttributes(idleTimeout: Value): (r: seq<Attribute>)
    ensures r == [] <==> idleTimeout == VNone
    ensures idleTimeout != VNone ==>
      r == [Attribute("idle_timeout.timeout_seconds", PyStr(idleTimeout))]
  {
    if idleTimeout != VNone then [Attribute("idle_timeout.timeout_seconds", PyStr(idleTimeout))] else []
  }

  /** create_load_balancer's keyword arguments: a network load balancer is created without
      security groups, every other type with them. */
  function LbRequest(f: Fleet): (r: Result<map<string, Value>>)
    ensures r.Success? <==>
      f.lbType.Success? && f.subnets.Success? && (f.lbType.value == VStr("network") || f.securityGroups.Success?)
    ensures r.Success? ==>
      && ("SecurityGroups" in r.value <==> f.lbType.value != VStr("network"))
      && r.value.Keys == {"Name", "Type", "Subnets", "Scheme"} + (if "SecurityGroups" in r.value then {"SecurityGroups"} else {})
      && r.value["Name"] == VStr(f.lbName)
      && r.value["Type"] == f.lbType.value
      && r.value["Subnets"] == f.subnets.value
      && r.value["Scheme"] == f.lbScheme
      && ("SecurityGroups" in r.value ==> r.value["SecurityGroups"] == f.securityGroups.value)
  {
    var lbType :- f.lbType;
    var subnets :- f.subnets;
    if lbType == VStr("network") then
      Success(map["Name" := VStr(f.lbName), "Type" := lbType, "Subnets" := subnets, "Scheme" := f.lbScheme])
    else
      var groups :- f.securityGroups;
      Success(map["Name" := VStr(f.lbName), "Type" := lbType, "Subnets" := subnets,
                  "SecurityGroups" := groups, "Scheme" := f.lbScheme])
  }

  /** modify_target_group's keyword arguments for an existing target group. */
  function ModifyTgRequest(tgArn: string, protocol: Value, path: Value, threshold: Value, interval: Value)
    : (r: map<string, Value>)
    ensures r.Keys == {"TargetGroupArn", "HealthCheckIntervalSeconds", "HealthyThresholdCount"}
                      + (if protocol == VStr("TCP") then {"UnhealthyThresholdCount"} else {"HealthCheckPath"})
    ensures r["TargetGroupArn"] == VStr(tgArn)
    ensures r["HealthCheckIntervalSeconds"] == interval && r["HealthyThresholdCount"] == threshold
    ensures protocol == VStr("TCP") ==>
      "HealthCheckPath" !in r && r["UnhealthyThresholdCount"] == r["HealthyThresholdCount"]
    ensures protocol != VStr("TCP") ==>
      r["HealthCheckPath"] == path && "UnhealthyThresholdCount" !in r
  {
    if protocol == VStr("TCP") then
      map["TargetGroupArn" := VStr(tgArn), "HealthCheckIntervalSeconds" := interval,
          "HealthyThresholdCount" := threshold, "UnhealthyThresholdCount" := threshold]
    else
      map["TargetGroupArn" := VStr(tgArn), "HealthCheckPath" := path,
          "HealthCheckIntervalSeconds" := interval, "HealthyThresholdCount" := threshold]
  }

  /** create_target_group's keyword arguments: the health check probes the traffic port
      (as a string) with the traffic protocol. */
  function CreateTgRequest(name: string, protocol: Value, port: Value, vpc: Value, path: Value,
                           threshold: Value, interval: Value): (r: map<string, Value>)
    ensures r.Keys == {"Name", "Protocol", "Port", "VpcId", "HealthCheckProtocol", "HealthCheckPort",
                       "HealthCheckIntervalSeconds", "HealthyThresholdCount"}
                      + (if protocol == VStr("TCP") then {"UnhealthyThresholdCount"} else {"HealthCheckPath"})
    ensures r["Name"] == VStr(name) && r["Protocol"] == protocol && r["Port"] == port && r["VpcId"] == vpc
    ensures r["HealthCheckProtocol"] == protocol && r["HealthCheckPort"] == VStr(PyStr(port))
    ensures r["HealthCheckIntervalSeconds"] == interval && r["HealthyThresholdCount"] == threshold
    ensures protocol == VStr("TCP") ==>
      "HealthCheckPath" !in r && r["UnhealthyThresholdCount"] == r["HealthyThresholdCount"]
    ensures protocol != VStr("TCP") ==>
      r["HealthCheckPath"] == path && "UnhealthyThresholdCount" !in r
  {
    if protocol == VStr("TCP") then
      map["Name" := VStr(name), "Protocol" := protocol, "Port" := port, "VpcId" := vpc,
          "HealthCheckProtocol" := protocol, "HealthCheckPort" := VStr(PyStr(port)),
          "HealthCheckIntervalSeconds" := interval, "HealthyThresholdCount" := threshold,
          "UnhealthyThresholdCount" := threshold]
    else
      map["Name" := VStr(name), "Protocol" := protocol, "Port" := port, "VpcId" := vpc,
          "HealthCheckProtocol" := protocol, "HealthCheckPort" := VStr(PyStr(port)),
          "HealthCheckPath" := path, "HealthCheckIntervalSeconds" := interval,
          "HealthyThresholdCount" := threshold]
  }

  const StickinessDuration: string := "120"

  /** The target-group attributes: stickiness adds three entries (enabled, lb_cookie, a
      duration of 120), a drain timeout adds the deregistration delay. */
  function TgAttributes(stickiness: Value, drainTimeout: Value): (r: seq<Attribute>)
    ensures |r| == (if stickiness != VNone then 3 else 0) + (if drainTimeout != VNone then 1 else 0)
    ensures stickiness != VNone ==>
      r[..3] == [Attribute("stickiness.enabled", Text.Lower(PyStr(stickiness))),
                 Attribute("stickiness.type", "lb_cookie"),
                 Attribute("stickiness.lb_cookie.duration_seconds", StickinessDuration)]
    ensures drainTimeout != VNone ==>
      r[|r| - 1] == Attribute("deregistration_delay.timeout_seconds", PyStr(drainTimeout))
  {
    var sticky := if stickiness != VNone then
                    [Attribute("stickiness.enabled", Text.Lower(PyStr(stickiness))),
                     Attribute("stickiness.type", "lb_cookie"),
                     Attribute("stickiness.lb_cookie.duration_seconds", StickinessDuration)]
                  else [];
    var drain := if drainTimeout != VNone
                 then [Attribute("deregistration_delay.timeout_seconds", PyStr(drainTimeout))] else [];
    sticky + drain
  }

  /** A configured stickiness flag is sent as Python prints it, lower-cased. */
  lemma StickinessFlagText(b: bool)
    ensures TgAttributes(VBool(b), VNone)[0].value == (if b then "true" else "false")
  {
    var s := if b then "True" else "False";
    assert PyStr(VBool(b)) == s;
    assert Text.Lower(s) == Text.BoolToLowerString(b);
  }

  /** An alternate listener entry of the configuration. */
  datatype AltListener = AltListener(certArn: Value, protocol: Value, port: Value)

  /** An alternate listener's certificates: none when cert_arn is None. */
  function Certificates(certArn: Value): (r: seq<Value>)
    ensures r == [] <==> certArn == VNone
    ensures certArn != VNone ==> r == [certArn]
  {
    if certArn != VNone then [certArn] else []
  }

  /** Reading one configured listener: cert_arn first, then protocol and port. */
  function ParseAltListener(v: Value): (r: Result<AltListener>)
    ensures r.Success? <==> v.VMap? && "cert_arn" in v.m && "protocol" in v.m && "port" in v.m
    ensures r.Success? ==> r.value == AltListener(v.m["cert_arn"], v.m["protocol"], v.m["port"])
  {
    if !v.VMap? then Failure(TypeError("listener entries must be mappings"))
    else
      var cert :- Get(v.m, "cert_arn");
      var protocol :- Get(v.m, "protocol");
      var port :- Get(v.m, "port");
      Success(AltListener(cert, protocol, port))
  }

  /** The entries `for listener in alt_listeners` visits: None is skipped, a list gives its
      items, an empty string or mapping gives nothing; any other value fails on its first entry. */
  function AltListenerEntries(v: Value): (r: Result<seq<Value>>)
    ensures v == VNone ==> r == Success([])
    ensures v.VList? ==> r == Success(v.items)
  {
    match v
    case VNone => Success([])
    case VList(items) => Success(items)
    case VStr(s) => if s == [] then Success([]) else Failure(TypeError("string indices must be integers"))
    case VMap(m) => if m == map[] then Success([]) else Failure(TypeError("string indices must be integers"))
    case _ => Failure(TypeError("object is not iterable"))
  }

  /** Every configured entry, read in order; the first bad entry is the error. */
  function ParseAltListeners(items: seq<Value>): (r: Result<seq<AltListener>>)
    ensures r.Success? ==> |r.value| == |items|
  {
    if items == [] then Success([])
    else
      var init :- ParseAltListeners(items[..|items| - 1]);
      var last :- ParseAltListener(items[|items| - 1]);
      Success(init + [last])
  }

  /** Reading the entries succeeds exactly when every entry reads, and then yields each
      entry's reading at its position. */
  lemma {:induction false} ParseAltListenersEach(items: seq<Value>)
    ensures ParseAltListeners(items).Success? <==> forall i :: 0 <= i < |items| ==> ParseAltListener(items[i]).Success?
    ensures ParseAltListeners(items).Success? ==>
      forall i :: 0 <= i < |items| ==> ParseAltListener(items[i]) == Success(ParseAltListeners(items).value[i])
  {
    if items != [] {
      var init := items[..|items| - 1];
      ParseAltListenersEach(init);
      assert forall i :: 0 <= i < |init| ==> init[i] == items[i];
    }
  }

  /** Once a prefix of the entries fails to read, so does the whole list. */
  lemma {:induction false} ParseFailsFromPrefix(items: seq<Value>, n: nat)
    requires n <= |items| && ParseAltListeners(items[..n]).Failure?
    ensures ParseAltListeners(items).Failure?
    decreases |items| - n
  {
    if n == |items| {
      assert items[..n] == items;
    } else {
      var init := items[..|items| - 1];
      assert init[..n] == items[..n];
      ParseFailsFromPrefix(init, n);
    }
  }

  function ListenerRecord(lbArn: string, tgArn: string, a: AltListener): Listener {
    Listener(lbArn, a.protocol, a.port, Certificates(a.certArn), tgArn)
  }

  /** The listeners the alternate entries create, all forwarding to the target group. */
  function AltListenerRecords(lbArn: string, tgArn: string, ps: seq<AltListener>): (r: seq<Listener>)
    ensures |r| == |ps|
  {
    if ps == [] then [] else AltListenerRecords(lbArn, tgArn, ps[..|ps| - 1]) + [ListenerRecord(lbArn, tgArn, ps[|ps| - 1])]
  }

  /** Every alternate entry becomes one listener, at its position, forwarding to the target
      group with the entry's protocol, port and certificates. */
  lemma {:induction false} AltListenerRecordsEach(lbArn: string, tgArn: string, ps: seq<AltListener>)
    ensures forall i :: 0 <= i < |ps| ==>
      AltListenerRecords(lbArn, tgArn, ps)[i] == Listener(lbArn, ps[i].protocol, ps[i].port, Certificates(ps[i].certArn), tgArn)
  {
    if ps != [] {
      AltListenerRecordsEach(lbArn, tgArn, ps[..|ps| - 1]);
    }
  }

  /** Reading one more entry extends the readings of the entries before it. */
  lemma ParseExtends(items: seq<Value>, i: nat, parsed: seq<AltListener>, a: AltListener)
    requires i < |items| && ParseAltListeners(items[..i]) == Success(parsed)
    requires ParseAltListener(items[i]) == Success(a)
    ensures ParseAltListeners(items[..i + 1]) == Success(parsed + [a])
  {
    assert items[..i + 1][..i] == items[..i];
  }

  /** An entry that does not read makes the whole list fail. */
  lemma ParseStops(items: seq<Value>, i: nat)
    requires i < |items| && ParseAltListeners(items[..i]).Success?
    requires ParseAltListener(items[i]).Failure?
    ensures ParseAltListeners(items).Failure?
  {
    assert items[..i + 1][..i] == items[..i];
    ParseFailsFromPrefix(items, i + 1);
  }

  /** One more reading adds its listener at the end. */
  lemma RecordsExtend(lbArn: string, tgArn: string, ps: seq<AltListener>, a: AltListener)
    ensures AltListenerRecords(lbArn, tgArn, ps + [a]) == AltListenerRecords(lbArn, tgArn, ps) + [ListenerRecord(lbArn, tgArn, a)]
  {
    assert (ps + [a])[..|ps|] == ps;
  }

  // ---------------------------------------------------------------------------
  // Draining

  /** A drain poll is over when no health description comes back or the state is not
      'draining'. */
  predicate DrainDone(d: seq<TargetHealth>) {
    d == [] || d[0].state != "draining"
  }

  /** How many drain polls of `s` ended an instance's wait. */
  function DoneCount(s: seq<seq<TargetHealth>>): (n: nat)
    ensures n <= |s|
  {
    if s == [] then 0 else DoneCount(s[..|s| - 1]) + (if DrainDone(s[|s| - 1]) then 1 else 0)
  }

  /** Counting one more drain poll adds one exactly when it ended a wait. */
  lemma DoneCountStep(s: seq<seq<TargetHealth>>, n: nat)
    requires n < |s|
    ensures DoneCount(s[..n + 1]) == DoneCount(s[..n]) + (if DrainDone(s[n]) then 1 else 0)
  {
    assert s[..n + 1][..n] == s[..n];
  }

  const TimeNotImported := NameError("name 'time' is not defined")

  /** The (target group, target) pairs of the deregister_targets calls in `t`, in order. */
  function Deregistrations(t: seq<Call>): (d: seq<(string, string)>)
    ensures |d| <= |t|
  {
    if t == [] then []
    else
      var c := t[|t| - 1];
      Deregistrations(t[..|t| - 1]) + (if c.DeregisterTargets? then [(c.tgArn, c.targetId)] else [])
  }

  /** The calls of `t` from position `from` on deregister, from target group `tg`, the
      first `i` of `ids` in order and nothing else. */
  ghost predicate DeregisteredFirst(t: seq<Call>, from: nat, tg: string, ids: seq<string>, i: nat) {
    && from <= |t| && i <= |ids|
    && var d := Deregistrations(t[from..]);
       |d| == i && forall k :: 0 <= k < i ==> d[k] == (tg, ids[k])
  }

  /** A stretch without deregistrations lists none. */
  lemma {:induction false} NoDeregistrations(t: seq<Call>)
    requires forall k :: 0 <= k < |t| ==> !t[k].DeregisterTargets?
    ensures Deregistrations(t) == []
  {
    if t != [] {
      NoDeregistrations(t[..|t| - 1]);
    }
  }

  /** One more call appends its pair when it deregisters. */
  lemma DeregistrationsSnoc(t: seq<Call>, from: nat, c: Call)
    requires from <= |t|
    ensures Deregistrations((t + [c])[from..])
            == Deregistrations(t[from..]) + (if c.DeregisterTargets? then [(c.tgArn, c.targetId)] else [])
  {
    var u := (t + [c])[from..];
    assert u[..|u| - 1] == t[from..];
  }

  /** Deregistering the next target of `ids` extends the deregistered prefix by one. */
  lemma DeregisterNextTarget(t: seq<Call>, from: nat, tg: string, ids: seq<string>, i: nat)
    requires i < |ids| && DeregisteredFirst(t, from, tg, ids, i)
    ensures DeregisteredFirst(t + [DeregisterTargets(tg, ids[i])], from, tg, ids, i + 1)
  {
    DeregistrationsSnoc(t, from, DeregisterTargets(tg, ids[i]));
  }

  /** Any other call leaves the deregistered prefix as it is. */
  lemma OtherCallKeeps(t: seq<Call>, from: nat, tg: string, ids: seq<string>, i: nat, c: Call)
    requires !c.DeregisterTargets? && DeregisteredFirst(t, from, tg, ids, i)
    ensures DeregisteredFirst(t + [c], from, tg, ids, i)
  {
    DeregistrationsSnoc(t, from, c);
  }

  // ---------------------------------------------------------------------------
  // The client

  class ElbClient {
    const cloud: Cloud
    const fleet: Fleet
    var lbArn: Option<string>
    var tgArn: Option<string>
    var listenerArn: Option<string>

    constructor (cloud: Cloud, fleet: Fleet)
      ensures this.cloud == cloud && this.fleet == fleet
      ensures lbArn.None? && tgArn.None? && listenerArn.None?
    {
      this.cloud, this.fleet := cloud, fleet;
      lbArn, tgArn, listenerArn := None, None, None;
    }

    /** get_lb_details: the ARN and DNS name of the configured load balancer, or
        (None, None) when there is none. */
    method GetLbDetails() returns (arn: Option<string>, dns: Option<string>)
      modifies cloud
      ensures LbOf(cloud.st, fleet.lbName).Some? ==>
        arn == Some(LbOf(cloud.st, fleet.lbName).value.arn) && dns == Some(LbOf(cloud.st, fleet.lbName).value.dns)
      ensures LbOf(cloud.st, fleet.lbName).None? ==> arn.None? && dns.None?
      ensures cloud.st == old(cloud.st) && cloud.obs == old(cloud.obs)
      ensures cloud.trace == old(cloud.trace) + [DescribeLoadBalancers(fleet.lbName)]
    {
      var r := cloud.CallDescribeLoadBalancers(fleet.lbName);
      var d := FirstLbDetails(r);
      arn, dns := d.0, d.1;
    }

    /** get_first_matching_target_group: the first target group of the load balancer, or
        None; a missing ARN is rejected by the provider call. */
    method GetFirstMatchingTargetGroup(arn: Option<string>) returns (r: Result<Option<Tg>>)
      modifies cloud
      ensures arn.None? ==> r == Failure(Raised("Parameter validation failed: LoadBalancerArn"))
      ensures arn.None? ==> cloud.trace == old(cloud.trace)
      ensures arn.Some? ==> r == Success(FirstMatchingTargetGroup(TargetGroupsOf(cloud.st, arn.value)))
                            && cloud.trace == old(cloud.trace) + [DescribeTargetGroupsByLb(arn.value)]
      ensures cloud.st == old(cloud.st) && cloud.obs == old(cloud.obs)
    {
      var tgs :- cloud.CallDescribeTargetGroupsByLb(arn);
      r := Success(FirstMatchingTargetGroup(tgs));
    }

    /** update_load_balancer_settings: set the idle timeout when one is configured. */
    method UpdateLoadBalancerSettings() returns (o: Outcome)
      modifies cloud
      ensures fleet.lbIdleTimeout == VNone ==> o.Pass? && cloud.st == old(cloud.st)
      ensures fleet.lbIdleTimeout != VNone ==>
        (o.Pass? <==> LbOf(old(cloud.st), fleet.lbName).Some?)
      ensures fleet.lbIdleTimeout != VNone && o.Pass? ==>
        cloud.st == old(cloud.st).(elb := old(cloud.st).elb.(lbAttributes := LbAttributes(fleet.lbIdleTimeout)))
      ensures o.Fail? ==> cloud.st == old(cloud.st)
      ensures cloud.obs == old(cloud.obs)
      ensures old(cloud.trace) <= cloud.trace
    {
      var arn, _ := GetLbDetails();
      var attributes := LbAttributes(fleet.lbIdleTimeout);
      o := Pass;
      if |attributes| > 0 {
        if arn.None? {
          o := Fail(Raised("Parameter validation failed: LoadBalancerArn"));
        } else {
          cloud.CallModifyLoadBalancerAttributes(arn.value, attributes);
        }
      }
    }

    /** create_load_balancer: create it from LbRequest and cache its ARN. */
    method CreateLoadBalancer() returns (r: Result<Lb>)
      modifies this, cloud
      ensures r.Success? <==> LbRequest(fleet).Success?
      ensures r.Success? ==> r.value.name == fleet.lbName && lbArn == Some(r.value.arn)
      ensures r.Success? ==> cloud.st == old(cloud.st).(elb := old(cloud.st).elb.(lb := Some(r.value)))
                             && cloud.trace == old(cloud.trace) + [Call.CreateLoadBalancer(LbRequest(fleet).value)]
      ensures r.Failure? ==> cloud.st == old(cloud.st) && cloud.trace == old(cloud.trace) && lbArn == old(lbArn)
      ensures cloud.obs == old(cloud.obs)
      ensures tgArn == old(tgArn) && listenerArn == old(listenerArn)
    {
      var request :- LbRequest(fleet);
      var lb := cloud.CallCreateLoadBalancer(fleet.lbName, request);
      lbArn := Some(lb.arn);
      r := Success(lb);
    }

    /** create_or_update_target_group: modify the configured target group when it exists,
        create it otherwise, then set its attributes when there are any. */
    method CreateOrUpdateTargetGroup() returns (r: Result<Tg>)
      modifies this, cloud
      ensures r.Success? ==> fleet.tgProtocol.Success? && fleet.healthCheckPort.Success? && fleet.healthCheckPath.Success?
      ensures r.Success? ==> cloud.st.elb.tg == Some(r.value) && r.value.name == fleet.tgName && tgArn == Some(r.value.arn)
      ensures r.Success? && old(cloud.st).elb.tg.Some? && old(cloud.st).elb.tg.value.name == fleet.tgName ==>
        && r.value == old(cloud.st).elb.tg.value
        && cloud.st.elb.tgSettings == old(cloud.st).elb.tgSettings
                                  + ModifyTgRequest(r.value.arn, fleet.tgProtocol.value, fleet.healthCheckPath.value,
                                                    fleet.healthyThreshold, fleet.healthCheckInterval)
      ensures r.Success? && !(old(cloud.st).elb.tg.Some? && old(cloud.st).elb.tg.value.name == fleet.tgName) ==>
        && fleet.vpc.Success?
        && cloud.st.elb.tgSettings == CreateTgRequest(fleet.tgName, fleet.tgProtocol.value, fleet.healthCheckPort.value,
                                                  fleet.vpc.value, fleet.healthCheckPath.value,
                                                  fleet.healthyThreshold, fleet.healthCheckInterval)
      ensures r.Success? ==>
        cloud.st.elb.tgAttributes == (if TgAttributes(fleet.stickiness, fleet.drainTimeout) != []
                                  then TgAttributes(fleet.stickiness, fleet.drainTimeout)
                                  else old(cloud.st).elb.tgAttributes)
      ensures r.Success? ==>
        cloud.st == old(cloud.st).(elb := old(cloud.st).elb.(tg := cloud.st.elb.tg, tgSettings := cloud.st.elb.tgSettings,
                                                             tgAttributes := cloud.st.elb.tgAttributes))
      ensures r.Failure? ==> cloud.st == old(cloud.st)
      ensures cloud.obs == old(cloud.obs)
      ensures lbArn == old(lbArn) && listenerArn == old(listenerArn)
      ensures old(cloud.trace) <= cloud.trace
    {
      var protocol :- fleet.tgProtocol;
      var port :- fleet.healthCheckPort;
      var path :- fleet.healthCheckPath;
      var tg :- UpsertTargetGroup(protocol, port, path);
      var attributes := TgAttributes(fleet.stickiness, fleet.drainTimeout);
      if |attributes| > 0 {
        cloud.CallModifyTargetGroupAttributes(tg.arn, attributes);
      }
      tgArn := Some(tg.arn);
      r := Success(tg);
    }

    /** The describe-then-modify-or-create part of create_or_update_target_group: an existing
        group of the configured name gets the modify request, otherwise one is created. Only
        the target group and its settings change. */
    method UpsertTargetGroup(protocol: Value, port: Value, path: Value) returns (r: Result<Tg>)
      modifies cloud
      ensures r.Success? ==> cloud.st.elb.tg == Some(r.value) && r.value.name == fleet.tgName
      ensures r.Success? && old(cloud.st).elb.tg.Some? && old(cloud.st).elb.tg.value.name == fleet.tgName ==>
        && r.value == old(cloud.st).elb.tg.value
        && cloud.st.elb.tgSettings == old(cloud.st).elb.tgSettings
                                  + ModifyTgRequest(r.value.arn, protocol, path, fleet.healthyThreshold, fleet.healthCheckInterval)
      ensures r.Success? && !(old(cloud.st).elb.tg.Some? && old(cloud.st).elb.tg.value.name == fleet.tgName) ==>
        && fleet.vpc.Success?
        && cloud.st.elb.tgSettings == CreateTgRequest(fleet.tgName, protocol, port, fleet.vpc.value, path,
                                                  fleet.healthyThreshold, fleet.healthCheckInterval)
      ensures cloud.st == old(cloud.st).(elb := old(cloud.st).elb.(tg := cloud.st.elb.tg, tgSettings := cloud.st.elb.tgSettings))
      ensures r.Failure? ==> cloud.st == old(cloud.st)
      ensures cloud.obs == old(cloud.obs)
      ensures old(cloud.trace) <= cloud.trace
    {
      var threshold, interval := fleet.healthyThreshold, fleet.healthCheckInterval;
      var described := cloud.CallDescribeTargetGroupsByName(fleet.tgName);
      var tg;
      if described.Success? && |described.value| > 0 {
        tg := cloud.CallModifyTargetGroup(described.value[0],
                                          ModifyTgRequest(described.value[0].arn, protocol, path, threshold, interval));
      } else {
        var vpc :- fleet.vpc;
        tg := cloud.CallCreateTargetGroup(fleet.tgName,
                                          CreateTgRequest(fleet.tgName, protocol, port, vpc, path, threshold, interval));
      }
      r := Success(tg);
    }

    /** The alternate listeners of create_load_balancer_listeners, one per configured entry in
        order; an entry missing a key stops the loop with the listeners before it created. */
    method CreateAltListeners(lb: string, tgArn: string, items: seq<Value>) returns (o: Outcome)
      modifies cloud
      ensures o.Pass? <==> ParseAltListeners(items).Success?
      ensures o.Pass? ==>
        cloud.st.elb.listeners == old(cloud.st).elb.listeners + AltListenerRecords(lb, tgArn, ParseAltListeners(items).value)
      ensures cloud.st == old(cloud.st).(elb := old(cloud.st).elb.(listeners := cloud.st.elb.listeners))
      ensures cloud.obs == old(cloud.obs)
      ensures old(cloud.trace) <= cloud.trace
    {
      ghost var base := cloud.st.elb.listeners;
      var parsed: seq<AltListener> := [];
      var i := 0;
      while i < |items|
        invariant 0 <= i <= |items|
        invariant ParseAltListeners(items[..i]) == Success(parsed)
        invariant cloud.st == old(cloud.st).(elb := old(cloud.st).elb.(listeners := base + AltListenerRecords(lb, tgArn, parsed)))
        invariant cloud.obs == old(cloud.obs)
        invariant old(cloud.trace) <= cloud.trace
      {
        var entry := ParseAltListener(items[i]);
        if entry.Failure? {
          ParseStops(items, i);
          return Fail(entry.error);
        }
        var a := entry.value;
        cloud.CallCreateListener(lb, a.protocol, a.port, Some(Certificates(a.certArn)), tgArn);
        ParseExtends(items, i, parsed, a);
        RecordsExtend(lb, tgArn, parsed, a);
        parsed := parsed + [a];
        i := i + 1;
      }
      assert items[..i] == items;
      o := Pass;
    }

    /** create_load_balancer_listeners: the main listener, then one per configured alternate
        listener, all forwarding to the target group. The cached listener ARN ends up
        holding the load balancer's ARN, which is what the response field read holds. */
    method CreateLoadBalancerListeners(lb: string, tg: Tg) returns (o: Outcome)
      modifies this, cloud
      ensures lbArn == Some(lb) && tgArn == Some(tg.arn)
      ensures o.Pass? <==>
        && fleet.lbPort.Success? && fleet.tgProtocol.Success?
        && AltListenerEntries(fleet.altListeners).Success?
        && ParseAltListeners(AltListenerEntries(fleet.altListeners).value).Success?
      ensures o.Pass? ==>
        && cloud.st.elb.listeners == old(cloud.st).elb.listeners
             + [Listener(lb, fleet.tgProtocol.value, fleet.lbPort.value, [], tg.arn)]
             + AltListenerRecords(lb, tg.arn, ParseAltListeners(AltListenerEntries(fleet.altListeners).value).value)
        && listenerArn == Some(lb)
      ensures o.Fail? ==> listenerArn == old(listenerArn)
      ensures cloud.st == old(cloud.st).(elb := old(cloud.st).elb.(listeners := cloud.st.elb.listeners))
      ensures cloud.obs == old(cloud.obs)
      ensures old(cloud.trace) <= cloud.trace
    {
      lbArn := Some(lb);
      tgArn := Some(tg.arn);
      :- Need(fleet.lbPort);
      :- Need(fleet.tgProtocol);
      cloud.CallCreateListener(lb, fleet.tgProtocol.value, fleet.lbPort.value, None, tg.arn);
      :- Need(AltListenerEntries(fleet.altListeners));
      o := CreateAltListeners(lb, tg.arn, AltListenerEntries(fleet.altListeners).value);
      if o.Pass? {
        listenerArn := Some(lb);
      }
    }

    /** The first half of create_lb_and_friends: the configured load balancer's ARN, creating
        the load balancer when the lookup finds none. */
    method GetOrCreateLoadBalancer() returns (r: Result<string>)
      modifies this, cloud
      ensures LbOf(old(cloud.st), fleet.lbName).Some? ==>
        r == Success(LbOf(old(cloud.st), fleet.lbName).value.arn) && cloud.st == old(cloud.st)
      ensures r.Failure? <==> LbOf(old(cloud.st), fleet.lbName).None? && LbRequest(fleet).Failure?
      ensures r.Success? ==> LbOf(cloud.st, fleet.lbName).Some? && LbOf(cloud.st, fleet.lbName).value.arn == r.value
      ensures cloud.st == old(cloud.st).(elb := old(cloud.st).elb.(lb := cloud.st.elb.lb))
      ensures cloud.obs == old(cloud.obs)
      ensures old(cloud.trace) <= cloud.trace
      ensures forall i :: |old(cloud.trace)| <= i < |cloud.trace| ==> ElbCall(cloud.trace[i])
    {
      var arn, _ := GetLbDetails();
      if arn.Some? {
        return Success(arn.value);
      }
      var created :- CreateLoadBalancer();
      r := Success(created.arn);
    }

    /** create_lb_and_friends: reuse or create the load balancer, apply its settings, create
        or update the target group, and put the listeners on it. Afterwards the load
        balancer forwards to the configured target group. */
    method CreateLbAndFriends() returns (o: Outcome)
      modifies this, cloud
      ensures o.Pass? ==>
        && LbOf(cloud.st, fleet.lbName).Some?
        && cloud.st.elb.tg.Some? && cloud.st.elb.tg.value.name == fleet.tgName
        && TargetGroupsOf(cloud.st, LbOf(cloud.st, fleet.lbName).value.arn) == [cloud.st.elb.tg.value]
      ensures LbOf(old(cloud.st), fleet.lbName).Some? ==> cloud.st.elb.lb == old(cloud.st).elb.lb
      ensures cloud.st == old(cloud.st).(elb := cloud.st.elb)
      ensures cloud.obs == old(cloud.obs)
      ensures old(cloud.trace) <= cloud.trace
    {
      var lb := GetOrCreateLoadBalancer();
      if lb.Failure? {
        return Fail(lb.error);
      }
      var arn := Some(lb.value);
      o := UpdateLoadBalancerSettings();
      if o.Fail? {
        return;
      }
      var tg := CreateOrUpdateTargetGroup();
      if tg.Failure? {
        return Fail(tg.error);
      }
      ghost var before := cloud.st.elb.listeners;
      o := CreateLoadBalancerListeners(arn.value, tg.value);
      if o.Pass? {
        ForwardsByListener(cloud.st.elb, before,
                           Listener(arn.value, fleet.tgProtocol.value, fleet.lbPort.value, [], tg.value.arn),
                           AltListenerRecords(arn.value, tg.value.arn,
                                              ParseAltListeners(AltListenerEntries(fleet.altListeners).value).value));
      }
    }

    /** delete_lb_and_friends: delete the load balancer's listeners and the load balancer when
        it exists, then the configured target group; a missing target group is only logged. */
    method DeleteLbAndFriends()
      modifies cloud
      ensures LbOf(old(cloud.st), fleet.lbName).Some? ==> cloud.st.elb.lb.None? && cloud.st.elb.listeners == []
      ensures LbOf(old(cloud.st), fleet.lbName).None? ==>
        cloud.st.elb.lb == old(cloud.st).elb.lb && cloud.st.elb.listeners == old(cloud.st).elb.listeners
      ensures old(cloud.st).elb.tg.Some? && old(cloud.st).elb.tg.value.name == fleet.tgName ==> cloud.st.elb.tg.None?
      ensures !(old(cloud.st).elb.tg.Some? && old(cloud.st).elb.tg.value.name == fleet.tgName) ==> cloud.st.elb.tg == old(cloud.st).elb.tg
      ensures cloud.st == old(cloud.st).(elb := old(cloud.st).elb.(lb := cloud.st.elb.lb, listeners := cloud.st.elb.listeners, lbAttributes := cloud.st.elb.lbAttributes,
                                         tg := cloud.st.elb.tg, tgSettings := cloud.st.elb.tgSettings, tgAttributes := cloud.st.elb.tgAttributes))
      ensures cloud.obs == old(cloud.obs)
      ensures old(cloud.trace) <= cloud.trace
      ensures forall i :: |old(cloud.trace)| <= i < |cloud.trace| ==> ElbCall(cloud.trace[i])
    {
      var arn, _ := GetLbDetails();
      if arn.Some? {
        var listeners := cloud.CallDescribeListeners(arn.value);
        var i := 0;
        while i < |listeners|
          invariant 0 <= i <= |listeners|
          invariant cloud.st == old(cloud.st) && cloud.obs == old(cloud.obs)
          invariant old(cloud.trace) <= cloud.trace
          invariant forall k :: |old(cloud.trace)| <= k < |cloud.trace| ==> ElbCall(cloud.trace[k])
        {
          cloud.CallDeleteListener(listeners[i]);
          i := i + 1;
        }
        cloud.CallDeleteLoadBalancer(arn.value);
      }
      var described := cloud.CallDescribeTargetGroupsByName(fleet.tgName);
      if described.Success? {
        var tgs := described.value;
        var i := 0;
        while i < |tgs|
          invariant 0 <= i <= |tgs|
          invariant tgs == [old(cloud.st).elb.tg.value]
          invariant i == 0 ==> cloud.st.elb.tg == old(cloud.st).elb.tg
          invariant i > 0 ==> cloud.st.elb.tg.None?
          invariant cloud.st.elb.lb == (if arn.Some? then None else old(cloud.st).elb.lb)
          invariant cloud.st.elb.listeners == (if arn.Some? then [] else old(cloud.st).elb.listeners)
          invariant cloud.st == old(cloud.st).(elb := old(cloud.st).elb.(lb := cloud.st.elb.lb, listeners := cloud.st.elb.listeners, lbAttributes := cloud.st.elb.lbAttributes,
                                               tg := cloud.st.elb.tg, tgSettings := cloud.st.elb.tgSettings, tgAttributes := cloud.st.elb.tgAttributes))
          invariant cloud.obs == old(cloud.obs)
          invariant old(cloud.trace) <= cloud.trace
          invariant forall k :: |old(cloud.trace)| <= k < |cloud.trace| ==> ElbCall(cloud.trace[k])
        {
          cloud.CallDeleteTargetGroup(tgs[i].arn);
          i := i + 1;
        }
      }
    }

    /** get_lb_and_tg: the load balancer's ARN and the ARN of its first target group; no
        target group is the TypeError of subscripting None. */
    method GetLbAndTg() returns (r: Result<(Option<string>, string)>)
      modifies cloud
      ensures r.Failure? ==> !r.error.Exhausted?
      ensures r.Success? <==> LbOf(old(cloud.st), fleet.lbName).Some?
                              && TargetGroupsOf(old(cloud.st), LbOf(old(cloud.st), fleet.lbName).value.arn) != []
      ensures r.Success? ==>
        r.value == (Some(LbOf(old(cloud.st), fleet.lbName).value.arn),
                    TargetGroupsOf(old(cloud.st), LbOf(old(cloud.st), fleet.lbName).value.arn)[0].arn)
      ensures cloud.st == old(cloud.st) && cloud.obs == old(cloud.obs)
      ensures cloud.trace == old(cloud.trace) + [DescribeLoadBalancers(fleet.lbName)]
                             + (if LbOf(old(cloud.st), fleet.lbName).Some?
                                then [DescribeTargetGroupsByLb(LbOf(old(cloud.st), fleet.lbName).value.arn)] else [])
    {
      var arn, _ := GetLbDetails();
      var tg :- GetFirstMatchingTargetGroup(arn);
      if tg.None? {
        return Failure(TypeError("'NoneType' object is not subscriptable"));
      }
      r := Success((arn, tg.value.arn));
    }

    /** _remove_instances(instances, blocking=True) as written: while an instance is still
        draining the code calls time.sleep, but the module never imports time, so the first
        'draining' answer ends the call with a NameError. */
    method RemoveInstancesAsWritten(instances: seq<string>) returns (o: Outcome)
      modifies cloud
      ensures o.Pass? ==> forall k :: 0 <= k < |old(cloud.obs).drainStates| - |cloud.obs.drainStates|
                                      ==> DrainDone(old(cloud.obs).drainStates[k])
      ensures instances != [] && old(cloud.obs).drainStates != [] && !DrainDone(old(cloud.obs).drainStates[0])
              && LbOf(old(cloud.st), fleet.lbName).Some?
              && TargetGroupsOf(old(cloud.st), LbOf(old(cloud.st), fleet.lbName).value.arn) != []
              ==> o == Fail(TimeNotImported)
      ensures cloud.st == old(cloud.st)
      ensures o.Pass? ==>
        && LbOf(old(cloud.st), fleet.lbName).Some?
        && TargetGroupsOf(old(cloud.st), LbOf(old(cloud.st), fleet.lbName).value.arn) != []
        && DeregisteredFirst(cloud.trace, |old(cloud.trace)|,
                             TargetGroupsOf(old(cloud.st), LbOf(old(cloud.st), fleet.lbName).value.arn)[0].arn,
                             instances, |instances|)
    {
      ghost var t0 := cloud.trace;
      var lbTg := GetLbAndTg();
      :- Need(lbTg);
      NoDeregistrations(cloud.trace[|t0|..]);
      o := DrainEachAsWritten(lbTg.value.1, instances, |t0|);
    }

    /** The loop of _remove_instances as written, over the target group `tg`: the calls from
        `from` on have deregistered nothing yet. */
    method DrainEachAsWritten(tg: string, instances: seq<string>, ghost from: nat) returns (o: Outcome)
      requires DeregisteredFirst(cloud.trace, from, tg, instances, 0)
      modifies cloud
      ensures o.Pass? ==> forall k :: 0 <= k < |old(cloud.obs).drainStates| - |cloud.obs.drainStates|
                                      ==> DrainDone(old(cloud.obs).drainStates[k])
      ensures instances != [] && old(cloud.obs).drainStates != [] && !DrainDone(old(cloud.obs).drainStates[0])
              ==> o == Fail(TimeNotImported)
      ensures cloud.st == old(cloud.st)
      ensures o.Pass? ==> DeregisteredFirst(cloud.trace, from, tg, instances, |instances|)
    {
      ghost var drains := cloud.obs.drainStates;
      var i := 0;
      while i < |instances|
        invariant 0 <= i <= |instances|
        invariant cloud.st == old(cloud.st)
        invariant DeregisteredFirst(cloud.trace, from, tg, instances, i)
        invariant |cloud.obs.drainStates| <= |drains| && cloud.obs.drainStates == drains[|drains| - |cloud.obs.drainStates|..]
        invariant forall k :: 0 <= k < |drains| - |cloud.obs.drainStates| ==> DrainDone(drains[k])
        invariant i == 0 ==> cloud.obs.drainStates == drains
        invariant i > 0 ==> |cloud.obs.drainStates| < |drains|
        invariant drains == old(cloud.obs).drainStates
      {
        DeregisterNextTarget(cloud.trace, from, tg, instances, i);
        cloud.CallDeregisterTargets(tg, instances[i]);
        ghost var t1 := cloud.trace;
        var polled := cloud.PollDrainState(tg, instances[i]);
        if polled.Failure? {
          return Fail(polled.error);
        }
        OtherCallKeeps(t1, from, tg, instances, i + 1, DescribeTargetHealth(tg, Some(instances[i])));
        if !DrainDone(polled.value) {
          return Fail(TimeNotImported);
        }
        i := i + 1;
      }
      o := Pass;
    }

    /** remove_instances with the intended behaviour: each instance is deregistered from the
        load balancer's first target group, in order, and its drain state polled until it is
        no longer draining. Every instance's wait ends on a poll whose answer is "done", so
        the done answers consumed are exactly one per instance and the last one consumed is
        a done answer. */
    method RemoveInstances(instances: seq<string>) returns (o: Outcome)
      modifies cloud
      ensures cloud.st == old(cloud.st)
      ensures |cloud.obs.drainStates| <= |old(cloud.obs).drainStates|
      ensures o.Pass? ==>
        var used := old(cloud.obs).drainStates[..|old(cloud.obs).drainStates| - |cloud.obs.drainStates|];
        && DoneCount(used) == |instances|
        && (used != [] ==> DrainDone(used[|used| - 1]))
      ensures o.Fail? && o.error.Exhausted? ==> cloud.obs.drainStates == []
      ensures o.Pass? ==>
        && LbOf(old(cloud.st), fleet.lbName).Some?
        && TargetGroupsOf(old(cloud.st), LbOf(old(cloud.st), fleet.lbName).value.arn) != []
        && DeregisteredFirst(cloud.trace, |old(cloud.trace)|,
                             TargetGroupsOf(old(cloud.st), LbOf(old(cloud.st), fleet.lbName).value.arn)[0].arn,
                             instances, |instances|)
    {
      ghost var t0 := cloud.trace;
      var lbTg := GetLbAndTg();
      :- Need(lbTg);
      NoDeregistrations(cloud.trace[|t0|..]);
      o := DrainEach(lbTg.value.1, instances, |t0|);
    }

    /** The loop of remove_instances over the target group `tg`: the calls from `from` on
        have deregistered nothing yet. */
    method DrainEach(tg: string, instances: seq<string>, ghost from: nat) returns (o: Outcome)
      requires DeregisteredFirst(cloud.trace, from, tg, instances, 0)
      modifies cloud
      ensures cloud.st == old(cloud.st)
      ensures |cloud.obs.drainStates| <= |old(cloud.obs).drainStates|
      ensures o.Pass? ==>
        var used := old(cloud.obs).drainStates[..|old(cloud.obs).drainStates| - |cloud.obs.drainStates|];
        && DoneCount(used) == |instances|
        && (used != [] ==> DrainDone(used[|used| - 1]))
      ensures o.Fail? ==> o.error.Exhausted? && cloud.obs.drainStates == []
      ensures o.Pass? ==> DeregisteredFirst(cloud.trace, from, tg, instances, |instances|)
    {
      ghost var drains := cloud.obs.drainStates;
      ghost var used: nat := 0;
      var i := 0;
      while i < |instances|
        invariant 0 <= i <= |instances|
        invariant cloud.st == old(cloud.st)
        invariant DeregisteredFirst(cloud.trace, from, tg, instances, i)
        invariant drains == old(cloud.obs).drainStates
        invariant used <= |drains| && cloud.obs.drainStates == drains[used..]
        invariant DoneCount(drains[..used]) == i
        invariant 0 < used ==> DrainDone(drains[used - 1])
      {
        DeregisterNextTarget(cloud.trace, from, tg, instances, i);
        cloud.CallDeregisterTargets(tg, instances[i]);
        var done := false;
        while !done
          invariant cloud.st == old(cloud.st)
          invariant DeregisteredFirst(cloud.trace, from, tg, instances, i + 1)
          invariant used <= |drains| && cloud.obs.drainStates == drains[used..]
          invariant DoneCount(drains[..used]) == i + (if done then 1 else 0)
          invariant done ==> 0 < used && DrainDone(drains[used - 1])
          decreases |cloud.obs.drainStates|, if done then 0 else 1
        {
          ghost var t1 := cloud.trace;
          var polled := cloud.PollDrainState(tg, instances[i]);
          if polled.Failure? {
            return Fail(polled.error);
          }
          OtherCallKeeps(t1, from, tg, instances, i + 1, DescribeTargetHealth(tg, Some(instances[i])));
          DoneCountStep(drains, used);
          used := used + 1;
          done := DrainDone(polled.value);
        }
        i := i + 1;
      }
      assert |drains| - |cloud.obs.drainStates| == used;
      o := Pass;
    }
  }
}
