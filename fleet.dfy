/** The fleet descriptor the clients work from: the configuration with its resource names
    resolved. Every cluster procedure starts by logging the named components
    (Config.log_component_names), which evaluates all nine name getters, so a configuration
    whose names cannot be built fails before any provider call. Every other setting is read
    when a client needs it: a required key that is missing is kept as the KeyError its
    getter raises, and surfaces at the point of use. */
module Descriptor {
  import opened Wrappers
  import opened ServiceConfig

  datatype Fleet = Fleet(
    config: Config,
    // names, resolved up front
    cluster: string,
    service: string,
    lbName: string,
    tgName: string,
    asName: string,
    launchConfigName: string,
    alarmName: string,
    alarmAction: string,
    ec2Name: string,
    // required settings, read when used
    taskDefName: Result<string>,
    containerDefinition: Result<Value>,
    asParams: Result<AutoScaleParams>,
    cpuThreshold: Result<int>,
    lbType: Result<Value>,
    subnets: Result<Value>,
    securityGroups: Result<Value>,
    vpc: Result<Value>,
    tgProtocol: Result<Value>,
    lbPort: Result<Value>,
    healthCheckPort: Result<Value>,
    healthCheckPath: Result<Value>,
    ami: Result<Value>,
    sshKey: Result<Value>,
    ec2IamRole: Result<Value>,
    ecsRole: Result<Value>,
    sqsAccount: Result<Value>,
    // settings with defaults
    instanceType: Value,
    publicIp: Value,
    networkMode: Value,
    healthyThreshold: Value,
    healthCheckInterval: Value,
    stickiness: Value,
    drainTimeout: Value,
    altListeners: Value,
    lbIdleTimeout: Value,
    sqs: Value,
    // the load-balancer scheme, which the configuration class has no getter for
    lbScheme: Value)

  /** The descriptor of a configuration: names first, in the order the component log
      evaluates them, then every other setting as its getter returns it. */
  function Resolve(c: Config, lbScheme: Value): (r: Result<Fleet>)
    ensures r.Success? <==>
      && GetEcsClusterName(c).Success? && GetEcsServiceName(c).Success? && GetLbName(c).Success?
      && GetTgName(c).Success? && GetAsName(c).Success? && GetLaunchConfigName(c).Success?
      && GetAlarmName(c).Success? && GetAlarmAction(c).Success? && GetEc2Name(c).Success?
    ensures r.Success? ==>
      && r.value.config == c
      && r.value.cluster == GetEcsClusterName(c).value
      && r.value.service == GetEcsServiceName(c).value
      && r.value.lbName == GetLbName(c).value
      && r.value.tgName == GetTgName(c).value
      && r.value.asName == GetAsName(c).value
      && r.value.launchConfigName == GetLaunchConfigName(c).value
      && r.value.alarmName == GetAlarmName(c).value
      && r.value.alarmAction == GetAlarmAction(c).value
      && r.value.ec2Name == GetEc2Name(c).value
    ensures r.Success? ==>
      && r.value.taskDefName == GetTaskDefinitionName(c)
      && r.value.containerDefinition == Get(c.state, "container_definition")
      && r.value.asParams == GetAutoScaleParams(c)
      && r.value.cpuThreshold == GetAutoScaleCpuThreshold(c)
      && r.value.lbType == Get(c.state, "lb_type")
      && r.value.subnets == Get(c.state, "subnets")
      && r.value.securityGroups == Get(c.state, "security_groups")
      && r.value.vpc == Get(c.state, "vpc")
      && r.value.tgProtocol == Get(c.state, "tg_protocol")
      && r.value.lbPort == Get(c.state, "lb_port")
      && r.value.healthCheckPort == Get(c.state, "tg_health_check_port")
      && r.value.healthCheckPath == Get(c.state, "tg_health_check_path")
      && r.value.ami == Get(c.state, "ami")
      && r.value.sshKey == Get(c.state, "sshkey")
      && r.value.ec2IamRole == Get(c.state, "ec2_iam_role")
      && r.value.ecsRole == Get(c.state, "ecs_role")
      && r.value.sqsAccount == Get(c.state, "sqs_account")
    ensures r.Success? ==>
      && r.value.instanceType == GetInstanceType(c)
      && r.value.publicIp == GetLaunchEc2WithPublicIp(c)
      && r.value.networkMode == GetTaskDefNetworkMode(c)
      && r.value.healthyThreshold == GetHealthyThreshold(c)
      && r.value.healthCheckInterval == GetHealthCheckInterval(c)
      && r.value.stickiness == GetTgStickiness(c)
      && r.value.drainTimeout == GetTgDrainTimeout(c)
      && r.value.altListeners == GetAltListenerInfos(c)
      && r.value.lbIdleTimeout == GetLbTimeouts(c)
      && r.value.sqs == GetSqs(c)
      && r.value.lbScheme == lbScheme
    // the first name that cannot be built, in the order get_named_components builds them
    ensures GetEcsClusterName(c).Failure? ==> r == Failure(GetEcsClusterName(c).error)
    ensures (GetEcsClusterName(c).Success? && GetEcsServiceName(c).Failure?) ==>
              r == Failure(GetEcsServiceName(c).error)
    ensures (GetEcsClusterName(c).Success? && GetEcsServiceName(c).Success? && GetLbName(c).Failure?) ==>
              r == Failure(GetLbName(c).error)
    ensures (GetEcsClusterName(c).Success? && GetEcsServiceName(c).Success? && GetLbName(c).Success?
             && GetTgName(c).Failure?) ==>
              r == Failure(GetTgName(c).error)
    ensures (GetEcsClusterName(c).Success? && GetEcsServiceName(c).Success? && GetLbName(c).Success?
             && GetTgName(c).Success? && GetAsName(c).Failure?) ==>
              r == Failure(GetAsName(c).error)
    ensures (GetEcsClusterName(c).Success? && GetEcsServiceName(c).Success? && GetLbName(c).Success?
             && GetTgName(c).Success? && GetAsName(c).Success? && GetLaunchConfigName(c).Failure?) ==>
              r == Failure(GetLaunchConfigName(c).error)
    ensures (GetEcsClusterName(c).Success? && GetEcsServiceName(c).Success? && GetLbName(c).Success?
             && GetTgName(c).Success? && GetAsName(c).Success? && GetLaunchConfigName(c).Success?
             && GetAlarmName(c).Failure?) ==>
              r == Failure(GetAlarmName(c).error)
    ensures (GetEcsClusterName(c).Success? && GetEcsServiceName(c).Success? && GetLbName(c).Success?
             && GetTgName(c).Success? && GetAsName(c).Success? && GetLaunchConfigName(c).Success?
             && GetAlarmName(c).Success? && GetAlarmAction(c).Failure?) ==>
              r == Failure(GetAlarmAction(c).error)
    ensures (GetEcsClusterName(c).Success? && GetEcsServiceName(c).Success? && GetLbName(c).Success?
             && GetTgName(c).Success? && GetAsName(c).Success? && GetLaunchConfigName(c).Success?
             && GetAlarmName(c).Success? && GetAlarmAction(c).Success? && GetEc2Name(c).Failure?) ==>
              r == Failure(GetEc2Name(c).error)
  {
    var cluster :- GetEcsClusterName(c);
    var service :- GetEcsServiceName(c);
    var lb :- GetLbName(c);
    var tg :- GetTgName(c);
    var asg :- GetAsName(c);
    var lc :- GetLaunchConfigName(c);
    var alarm :- GetAlarmName(c);
    var action :- GetAlarmAction(c);
    var ec2 :- GetEc2Name(c);
    Success(Fleet(
      c, cluster, service, lb, tg, asg, lc, alarm, action, ec2,
      GetTaskDefinitionName(c), Get(c.state, "container_definition"), GetAutoScaleParams(c),
      GetAutoScaleCpuThreshold(c),
      Get(c.state, "lb_type"), Get(c.state, "subnets"), Get(c.state, "security_groups"),
      Get(c.state, "vpc"), Get(c.state, "tg_protocol"), Get(c.state, "lb_port"),
      Get(c.state, "tg_health_check_port"), Get(c.state, "tg_health_check_path"),
      Get(c.state, "ami"), Get(c.state, "sshkey"), Get(c.state, "ec2_iam_role"),
      Get(c.state, "ecs_role"), Get(c.state, "sqs_account"),
      GetInstanceType(c), GetLaunchEc2WithPublicIp(c), GetTaskDefNetworkMode(c),
      GetHealthyThreshold(c), GetHealthCheckInterval(c), GetTgStickiness(c), GetTgDrainTimeout(c),
      GetAltListenerInfos(c), GetLbTimeouts(c), GetSqs(c),
      lbScheme))
  }
}
