/** The SQS client (scripts/aws_client_sqs.py): creates the fleet's queue when one is
    configured, grants the configured accounts every action on it, and deletes it. */
module Sqs {
  import opened Wrappers
  import opened ServiceConfig
  import opened Descriptor
  import opened Provider

  /** create_name_with_separator(get_sqs()): the queue name every operation uses. A
      configured `sqs` that is neither a string nor a list of strings is a TypeError here
      (a mapping included, whose keys Python would join). */
  function QueueName(f: Fleet): (r: Result<string>)
    ensures r.Success? <==> NameParts(f.sqs).Success?
    ensures r.Success? ==> r.value == CreateNameWithSeparator(NameParts(f.sqs).value)
  {
    var parts :- NameParts(f.sqs);
    Success(CreateNameWithSeparator(parts))
  }

  /** A queue configured as a list of name parts is named by those parts, hyphen-joined
      with the hyphens at both ends stripped. */
  lemma QueueNameOfParts(f: Fleet, parts: seq<string>)
    requires f.sqs == VList(StrValues(parts))
    ensures QueueName(f) == Success(CreateNameWithSeparator(parts))
  {
    StrItemsOfStrValues(parts);
  }

  /** When the joined parts neither start nor end with a hyphen, nothing is stripped: the
      queue name is the plain join. */
  lemma QueueNameOfCleanParts(f: Fleet, parts: seq<string>)
    requires f.sqs == VList(StrValues(parts))
    requires var j := Join(parts, "-"); j != [] && j[0] != '-' && j[|j| - 1] != '-'
    ensures QueueName(f) == Success(Join(parts, "-"))
  {
    QueueNameOfParts(f, parts);
    CreateNameOfCleanJoin(parts);
  }

  /** The calls an SQS step makes. */
  predicate QueueCall(c: Call) {
    c.CreateQueue? || c.AddPermission? || c.GetQueueUrl? || c.DeleteQueue?
  }

  /** The permission set_sqs_permissions grants: every action, labelled with the queue name. */
  function GrantFor(qname: string, accounts: Value): (p: Permission)
    ensures p.actions == ["*"] && p.permissionLabel == qname && p.accounts == accounts
  {
    Permission(qname, accounts, ["*"])
  }

  /** The queue state after `p` is granted on it (no queue: nothing to grant on). */
  function Granted(q: Option<Queue>, p: Permission): (r: Option<Queue>)
    ensures r.Some? <==> q.Some?
    ensures r.Some? ==> r.value.name == q.value.name && r.value.url == q.value.url
                        && r.value.permissions == q.value.permissions + [p]
  {
    if q.Some? then Some(q.value.(permissions := q.value.permissions + [p])) else None
  }

  /** set_sqs_permissions(qurl): add_permission with the queue name as label, the
      configured accounts and Actions ['*']. A missing `sqs_account` raises before the call. */
  method SetSqsPermissions(cloud: Cloud, fleet: Fleet, qurl: string) returns (o: Outcome)
    modifies cloud
    ensures o.Pass? <==> QueueName(fleet).Success? && fleet.sqsAccount.Success?
    ensures QueueName(fleet).Failure? ==> o == Fail(QueueName(fleet).error)
    ensures QueueName(fleet).Success? && fleet.sqsAccount.Failure? ==> o == Fail(fleet.sqsAccount.error)
    ensures o.Fail? ==> cloud.st == old(cloud.st) && cloud.obs == old(cloud.obs) && cloud.trace == old(cloud.trace)
    ensures o.Pass? ==>
      var p := GrantFor(QueueName(fleet).value, fleet.sqsAccount.value);
      && cloud.trace == old(cloud.trace) + [AddPermission(qurl, p.permissionLabel, p.accounts, p.actions)]
      && cloud.st == old(cloud.st).(queue := Granted(old(cloud.st).queue, p))
      && cloud.obs == old(cloud.obs)
  {
    o := Need(QueueName(fleet));
    if o.Fail? {
      return;
    }
    o := GrantOn(cloud, QueueName(fleet).value, fleet.sqsAccount, qurl);
  }

  /** The body of set_sqs_permissions once the queue name `qname` is known. */
  method GrantOn(cloud: Cloud, qname: string, accounts: Result<Value>, qurl: string) returns (o: Outcome)
    modifies cloud
    ensures o.Pass? <==> accounts.Success?
    ensures accounts.Failure? ==>
              o == Fail(accounts.error) && cloud.st == old(cloud.st) && cloud.trace == old(cloud.trace)
    ensures o.Pass? ==>
      var p := GrantFor(qname, accounts.value);
      && cloud.trace == old(cloud.trace) + [AddPermission(qurl, qname, accounts.value, ["*"])]
      && cloud.st == old(cloud.st).(queue := Granted(old(cloud.st).queue, p))
    ensures cloud.obs == old(cloud.obs)
  {
    if accounts.Failure? {
      return Fail(accounts.error);
    }
    var p := GrantFor(qname, accounts.value);
    cloud.CallAddPermission(qurl, p.permissionLabel, p.accounts, p.actions);
    o := Pass;
  }

  /** create_sqs: create the queue under its name, then grant the permission on the URL the
      create call returned (set_sqs_permissions builds the same name again). When the
      accounts are missing the queue exists without it. */
  method CreateSqs(cloud: Cloud, fleet: Fleet) returns (o: Outcome)
    modifies cloud
    ensures o.Pass? <==> QueueName(fleet).Success? && fleet.sqsAccount.Success?
    ensures QueueName(fleet).Failure? ==>
              o == Fail(QueueName(fleet).error) && cloud.st == old(cloud.st) && cloud.trace == old(cloud.trace)
    ensures QueueName(fleet).Success? && fleet.sqsAccount.Failure? ==>
              && o == Fail(fleet.sqsAccount.error)
              && cloud.st.queue.Some? && cloud.st.queue.value.name == QueueName(fleet).value
              && cloud.trace == old(cloud.trace) + [CreateQueue(QueueName(fleet).value)]
    ensures o.Pass? ==>
      var qname := QueueName(fleet).value;
      var p := GrantFor(qname, fleet.sqsAccount.value);
      && cloud.st.queue.Some? && cloud.st.queue.value.name == qname
      && |cloud.st.queue.value.permissions| > 0
      && cloud.st.queue.value.permissions[|cloud.st.queue.value.permissions| - 1] == p
      && cloud.trace == old(cloud.trace) + [CreateQueue(qname), AddPermission("queue/" + qname, qname, p.accounts, ["*"])]
    ensures cloud.obs == old(cloud.obs)
    ensures cloud.st.ecs == old(cloud.st).ecs && cloud.st.elb == old(cloud.st).elb
  {
    var name := QueueName(fleet);
    if name.Failure? {
      return Fail(name.error);
    }
    o := CreateNamedSqs(cloud, name.value, fleet.sqsAccount);
  }

  /** The body of create_sqs once the queue name `qname` is known. */
  method CreateNamedSqs(cloud: Cloud, qname: string, accounts: Result<Value>) returns (o: Outcome)
    modifies cloud
    ensures o.Pass? <==> accounts.Success?
    ensures accounts.Failure? ==> o == Fail(accounts.error)
    ensures cloud.st.queue.Some? && cloud.st.queue.value.name == qname
    ensures accounts.Failure? ==> cloud.trace == old(cloud.trace) + [CreateQueue(qname)]
    ensures o.Pass? ==>
      var p := GrantFor(qname, accounts.value);
      && |cloud.st.queue.value.permissions| > 0
      && cloud.st.queue.value.permissions[|cloud.st.queue.value.permissions| - 1] == p
      && cloud.trace == old(cloud.trace) + [CreateQueue(qname), AddPermission("queue/" + qname, qname, p.accounts, ["*"])]
    ensures cloud.obs == old(cloud.obs)
    ensures cloud.st.ecs == old(cloud.st).ecs && cloud.st.elb == old(cloud.st).elb
  {
    var url := cloud.CallCreateQueue(qname);
    ghost var q1 := cloud.st.queue.value;
    ghost var t1 := cloud.trace;
    o := GrantOn(cloud, qname, accounts, url);
    if o.Pass? {
      ghost var p := GrantFor(qname, accounts.value);
      assert cloud.st.queue == Some(q1.(permissions := q1.permissions + [p]));
      assert cloud.trace == t1 + [AddPermission(url, qname, p.accounts, ["*"])];
    }
  }

  /** maybe_create_sqs: create the queue only when `sqs` is configured (get_sqs() is not
      None); otherwise make no call. */
  method MaybeCreateSqs(cloud: Cloud, fleet: Fleet) returns (o: Outcome)
    modifies cloud
    ensures fleet.sqs.VNone? ==>
              o.Pass? && cloud.st == old(cloud.st) && cloud.obs == old(cloud.obs) && cloud.trace == old(cloud.trace)
    ensures !fleet.sqs.VNone? && o.Pass? ==>
              QueueName(fleet).Success? && cloud.st.queue.Some? && cloud.st.queue.value.name == QueueName(fleet).value
    ensures old(cloud.trace) <= cloud.trace
    ensures forall i :: |old(cloud.trace)| <= i < |cloud.trace| ==> QueueCall(cloud.trace[i])
    ensures cloud.obs == old(cloud.obs)
    ensures cloud.st.ecs == old(cloud.st).ecs && cloud.st.elb == old(cloud.st).elb
  {
    if !fleet.sqs.VNone? {
      o := CreateSqs(cloud, fleet);
    } else {
      o := Pass;
    }
  }

  /** delete_sqs: look up the queue URL by name and delete that queue. The name is built
      outside the try block, so a name that cannot be joined raises; every provider error
      after that (no such queue) is caught and logged. */
  method DeleteSqs(cloud: Cloud, fleet: Fleet) returns (o: Outcome)
    modifies cloud
    ensures o.Pass? <==> QueueName(fleet).Success?
    ensures o.Fail? ==> cloud.st == old(cloud.st) && cloud.trace == old(cloud.trace)
    ensures o.Pass? ==>
      var qname := QueueName(fleet).value;
      var q := old(cloud.st).queue;
      if q.Some? && q.value.name == qname then
        && cloud.st == old(cloud.st).(queue := None)
        && cloud.trace == old(cloud.trace) + [GetQueueUrl(qname), DeleteQueue(q.value.url)]
      else
        && cloud.st == old(cloud.st)
        && cloud.trace == old(cloud.trace) + [GetQueueUrl(qname)]
    ensures o.Pass? ==> cloud.st.queue.Some? ==> cloud.st.queue.value.name != QueueName(fleet).value
    ensures cloud.st == old(cloud.st).(queue := cloud.st.queue)
    ensures cloud.obs == old(cloud.obs)
  {
    var name := QueueName(fleet);
    if name.Failure? {
      return Fail(name.error);
    }
    DeleteNamedSqs(cloud, name.value);
    o := Pass;
  }

  /** The body of delete_sqs once the queue name `qname` is known: a lookup that finds no
      queue is swallowed, so only a queue of that name is deleted. */
  method DeleteNamedSqs(cloud: Cloud, qname: string)
    modifies cloud
    ensures
      var q := old(cloud.st).queue;
      if q.Some? && q.value.name == qname then
        && cloud.st == old(cloud.st).(queue := None)
        && cloud.trace == old(cloud.trace) + [GetQueueUrl(qname), DeleteQueue(q.value.url)]
      else
        && cloud.st == old(cloud.st)
        && cloud.trace == old(cloud.trace) + [GetQueueUrl(qname)]
    ensures cloud.obs == old(cloud.obs)
  {
    var response := cloud.CallGetQueueUrl(qname);
    if response.Success? && response.value.Some? {
      cloud.CallDeleteQueue(response.value.value);
    }
  }
}
