/** The EC2 client (scripts/aws_client_ec2.py): lists the fleet's running instances and
    reads one instance's addresses from describe_instances. */
module Ec2 {
  import opened Wrappers
  import opened Descriptor
  import opened Provider

  /** The describe_instances filters of get_running_instance_ids: instances in state
      `running` whose Name tag is the fleet's EC2 name. */
  function RunningFilters(ec2Name: string): (r: seq<(string, seq<string>)>)
    ensures |r| == 2
    ensures r[0] == ("instance-state-name", ["running"]) && r[1] == ("tag:Name", [ec2Name])
  {
    [("instance-state-name", ["running"]), ("tag:Name", [ec2Name])]
  }

  /** The InstanceIds of a list of instances, in order. */
  function IdsOf(insts: seq<Instance>): (r: seq<string>)
    ensures |r| == |insts|
    ensures forall k :: 0 <= k < |insts| ==> r[k] == insts[k].instanceId
  {
    if insts == [] then [] else [insts[0].instanceId] + IdsOf(insts[1..])
  }

  lemma {:induction false} IdsOfAppend(a: seq<Instance>, b: seq<Instance>)
    ensures IdsOf(a + b) == IdsOf(a) + IdsOf(b)
  {
  }

  /** Every reservation's instance ids, reservation by reservation, in response order. */
  function InstanceIds(rs: seq<Reservation>): seq<string> {
    if rs == [] then [] else IdsOf(rs[0].instances) + InstanceIds(rs[1..])
  }

  /** The number of instances over all reservations. */
  function InstanceCount(rs: seq<Reservation>): nat {
    if rs == [] then 0 else |rs[0].instances| + InstanceCount(rs[1..])
  }

  lemma {:induction false} InstanceIdsAppend(a: seq<Reservation>, b: seq<Reservation>)
    ensures InstanceIds(a + b) == InstanceIds(a) + InstanceIds(b)
  {
    if a == [] {
      assert a + b == b;
    } else {
      assert (a + b)[1..] == a[1..] + b;
      InstanceIdsAppend(a[1..], b);
    }
  }

  /** Flattening loses and invents nothing: one id per instance, and an id is listed
      exactly when some reservation holds an instance with that id. */
  lemma {:induction false} InstanceIdsComplete(rs: seq<Reservation>)
    ensures |InstanceIds(rs)| == InstanceCount(rs)
    ensures forall id :: id in InstanceIds(rs) <==>
              exists r, k :: 0 <= r < |rs| && 0 <= k < |rs[r].instances| && rs[r].instances[k].instanceId == id
  {
    if rs != [] {
      InstanceIdsComplete(rs[1..]);
      forall id
        ensures id in InstanceIds(rs) <==>
                exists r, k :: 0 <= r < |rs| && 0 <= k < |rs[r].instances| && rs[r].instances[k].instanceId == id
      {
        if id in IdsOf(rs[0].instances) {
          var k :| 0 <= k < |IdsOf(rs[0].instances)| && IdsOf(rs[0].instances)[k] == id;
          assert rs[0].instances[k].instanceId == id;
        }
        if exists r, k :: 0 <= r < |rs| && 0 <= k < |rs[r].instances| && rs[r].instances[k].instanceId == id {
          var r, k :| 0 <= r < |rs| && 0 <= k < |rs[r].instances| && rs[r].instances[k].instanceId == id;
          if r == 0 {
            assert IdsOf(rs[0].instances)[k] == id;
          } else {
            assert rs[1..][r - 1] == rs[r];
          }
        }
        if id in InstanceIds(rs[1..]) {
          var r, k :| 0 <= r < |rs[1..]| && 0 <= k < |rs[1..][r].instances| && rs[1..][r].instances[k].instanceId == id;
          assert rs[r + 1] == rs[1..][r];
        }
      }
    }
  }

  /** The loops of get_running_instance_ids: append each instance's id, reservation by
      reservation. */
  method CollectIds(rs: seq<Reservation>) returns (ids: seq<string>)
    ensures ids == InstanceIds(rs)
  {
    ids := [];
    for i := 0 to |rs|
      invariant ids == InstanceIds(rs[..i])
    {
      var insts := rs[i].instances;
      for j := 0 to |insts|
        invariant ids == InstanceIds(rs[..i]) + IdsOf(insts[..j])
      {
        IdsOfSnoc(insts, j);
        ids := ids + [insts[j].instanceId];
      }
      assert insts[..|insts|] == insts;
      InstanceIdsSnoc(rs, i);
    }
    assert rs[..|rs|] == rs;
  }

  lemma IdsOfSnoc(insts: seq<Instance>, j: nat)
    requires j < |insts|
    ensures IdsOf(insts[..j + 1]) == IdsOf(insts[..j]) + [insts[j].instanceId]
  {
    assert insts[..j + 1] == insts[..j] + [insts[j]];
    IdsOfAppend(insts[..j], [insts[j]]);
  }

  lemma InstanceIdsSnoc(rs: seq<Reservation>, i: nat)
    requires i < |rs|
    ensures InstanceIds(rs[..i + 1]) == InstanceIds(rs[..i]) + IdsOf(rs[i].instances)
  {
    assert rs[..i + 1] == rs[..i] + [rs[i]];
    InstanceIdsAppend(rs[..i], [rs[i]]);
    assert [rs[i]][1..] == [];
    assert InstanceIds([rs[i]]) == IdsOf(rs[i].instances) + InstanceIds([]);
  }

  /** get_running_instance_ids: describe the running instances carrying the fleet's Name
      tag, then collect the ids of every instance of every reservation. */
  method GetRunningInstanceIds(cloud: Cloud, fleet: Fleet) returns (r: Result<seq<string>>)
    modifies cloud
    ensures old(cloud.obs).reservations == [] ==> r == Failure(Exhausted("describe_instances"))
    ensures old(cloud.obs).reservations != [] ==>
              && r == Success(InstanceIds(old(cloud.obs).reservations[0]))
              && cloud.trace == old(cloud.trace) + [DescribeInstances(RunningFilters(fleet.ec2Name), [])]
    ensures cloud.st == old(cloud.st)
  {
    var rs :- cloud.PollInstances(RunningFilters(fleet.ec2Name), []);
    var ids := CollectIds(rs);
    r := Success(ids);
  }

  // ---------------------------------------------------------------------------
  // Addresses of one instance

  /** (public_dns, public_ip, private_dns, private_ip), as get_ip_dns_info returns them. */
  datatype Addresses = Addresses(publicDns: string, publicIp: string, privateDns: string, privateIp: string)

  /** A response key read with `j[key]`: a KeyError when the instance lacks it. */
  function Field(v: Option<string>, key: string): (r: Result<string>)
    ensures r.Success? <==> v.Some?
    ensures r.Success? ==> r.value == v.value
    ensures r.Failure? ==> r.error == KeyError(key)
  {
    if v.Some? then Success(v.value) else Failure(KeyError(key))
  }

  /** The instance get_ip_dns_info reads: the first instance of the first reservation; both
      loops break after their first iteration. */
  function FirstInstance(rs: seq<Reservation>): (r: Option<Instance>)
    ensures r.Some? <==> |rs| > 0 && |rs[0].instances| > 0
    ensures r.Some? ==> r.value == rs[0].instances[0]
  {
    if |rs| > 0 && |rs[0].instances| > 0 then Some(rs[0].instances[0]) else None
  }

  /** get_ip_dns_info as written: the public DNS name is read and then overwritten by the
      public IP address, and the public IP stays "". Keys are read in source order. */
  function AddressesAsWritten(rs: seq<Reservation>): Result<Addresses> {
    match FirstInstance(rs)
    case None => Success(Addresses("", "", "", ""))
    case Some(j) =>
      var privateDns :- Field(j.privateDnsName, "PrivateDnsName");
      var privateIp :- Field(j.privateIpAddress, "PrivateIpAddress");
      var _ :- Field(j.publicDnsName, "PublicDnsName");
      var publicIp :- Field(j.publicIpAddress, "PublicIpAddress");
      Success(Addresses(publicIp, "", privateDns, privateIp))
  }

  /** get_ip_dns_info as evidently intended: each of the four names gets its own field. */
  function AddressesOf(rs: seq<Reservation>): (r: Result<Addresses>)
    ensures FirstInstance(rs).None? ==> r == Success(Addresses("", "", "", ""))
    ensures FirstInstance(rs).Some? ==>
      var j := FirstInstance(rs).value;
      && (r.Success? <==> j.privateDnsName.Some? && j.privateIpAddress.Some? && j.publicDnsName.Some? && j.publicIpAddress.Some?)
      && (r.Success? ==> r.value == Addresses(j.publicDnsName.value, j.publicIpAddress.value,
                                              j.privateDnsName.value, j.privateIpAddress.value))
  {
    match FirstInstance(rs)
    case None => Success(Addresses("", "", "", ""))
    case Some(j) =>
      var privateDns :- Field(j.privateDnsName, "PrivateDnsName");
      var privateIp :- Field(j.privateIpAddress, "PrivateIpAddress");
      var publicDns :- Field(j.publicDnsName, "PublicDnsName");
      var publicIp :- Field(j.publicIpAddress, "PublicIpAddress");
      Success(Addresses(publicDns, publicIp, privateDns, privateIp))
  }

  /** The two versions fail alike and agree on the private names; as written, the public
      DNS slot carries the public IP and the public IP slot is always empty. */
  lemma AddressesAsWrittenSwapped(rs: seq<Reservation>)
    ensures AddressesAsWritten(rs).Success? <==> AddressesOf(rs).Success?
    ensures AddressesAsWritten(rs).Failure? ==> AddressesAsWritten(rs) == AddressesOf(rs)
    ensures AddressesAsWritten(rs).Success? ==>
      var w, c := AddressesAsWritten(rs).value, AddressesOf(rs).value;
      && w.publicIp == ""
      && w.publicDns == c.publicIp
      && w.privateDns == c.privateDns && w.privateIp == c.privateIp
  {
  }

  /** An instance with a public name and address: as written, its DNS name is lost and its
      address is reported as the DNS name. */
  lemma AddressesAsWrittenLosesPublicDns()
    ensures
      var j := Instance("i-1", Some("ip-10-0-0-1"), Some("10.0.0.1"), Some("ec2-host"), Some("1.2.3.4"));
      var rs := [Reservation([j])];
      && AddressesAsWritten(rs) == Success(Addresses("1.2.3.4", "", "ip-10-0-0-1", "10.0.0.1"))
      && AddressesOf(rs) == Success(Addresses("ec2-host", "1.2.3.4", "ip-10-0-0-1", "10.0.0.1"))
  {
    var j := Instance("i-1", Some("ip-10-0-0-1"), Some("10.0.0.1"), Some("ec2-host"), Some("1.2.3.4"));
    assert FirstInstance([Reservation([j])]) == Some(j);
  }

  /** get_ip_dns_info(id): describe that one instance and read its four addresses (with
      the public name and address each in its own slot); all "" when nothing is found. */
  method GetIpDnsInfo(cloud: Cloud, id: string) returns (r: Result<Addresses>)
    modifies cloud
    ensures old(cloud.obs).reservations == [] ==> r == Failure(Exhausted("describe_instances"))
    ensures old(cloud.obs).reservations != [] ==>
              && r == AddressesOf(old(cloud.obs).reservations[0])
              && cloud.trace == old(cloud.trace) + [DescribeInstances([], [id])]
    ensures cloud.st == old(cloud.st)
  {
    var rs :- cloud.PollInstances([], [id]);
    var publicDns, publicIp, privateDns, privateIp := "", "", "", "";
    if |rs| > 0 && |rs[0].instances| > 0 {
      var j := rs[0].instances[0];
      privateDns :- Field(j.privateDnsName, "PrivateDnsName");
      privateIp :- Field(j.privateIpAddress, "PrivateIpAddress");
      publicDns :- Field(j.publicDnsName, "PublicDnsName");
      publicIp :- Field(j.publicIpAddress, "PublicIpAddress");
    }
    r := Success(Addresses(publicDns, publicIp, privateDns, privateIp));
  }
}
