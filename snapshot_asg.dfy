/** The Lambda that snapshots the one in-service instance of an Auto Scaling
    group, tags the new image, and points a CloudFormation stack parameter
    at it. */
module SnapshotAsg {
  import opened Wrappers
  import opened SnapshotCommon

  // ---------------------------------------------------------------------
  // find_asg_instances
  // ---------------------------------------------------------------------

  datatype AsgInstance = AsgInstance(instanceId: string, lifecycleState: string)

  datatype AutoScalingGroup = AutoScalingGroup(instances: seq<AsgInstance>)

  predicate InService(i: AsgInstance) { i.lifecycleState == "InService" }

  /** The ids of the in-service instances, in the order of the group. */
  function InServiceIds(instances: seq<AsgInstance>): seq<string> {
    if instances == [] then []
    else
      var last := instances[|instances| - 1];
      InServiceIds(instances[..|instances| - 1]) + (if InService(last) then [last.instanceId] else [])
  }

  /** The filter keeps the order: over two runs of instances it gives the
      ids of the first run, then those of the second. */
  lemma {:induction false} InServiceIdsAppend(a: seq<AsgInstance>, b: seq<AsgInstance>)
    ensures InServiceIds(a + b) == InServiceIds(a) + InServiceIds(b)
  {
    if b == [] {
      assert a + b == a;
    } else {
      assert (a + b)[..|a + b| - 1] == a + b[..|b| - 1];
      InServiceIdsAppend(a, b[..|b| - 1]);
    }
  }

  /** An id is returned exactly when some in-service instance has it. */
  lemma {:induction false} InServiceIdsMembers(instances: seq<AsgInstance>, id: string)
    ensures id in InServiceIds(instances) <==>
      exists i :: 0 <= i < |instances| && instances[i].instanceId == id && InService(instances[i])
  {
    if instances != [] {
      var init := instances[..|instances| - 1];
      InServiceIdsMembers(init, id);
      if exists i :: 0 <= i < |init| && init[i].instanceId == id && InService(init[i]) {
        var i :| 0 <= i < |init| && init[i].instanceId == id && InService(init[i]);
        assert instances[i] == init[i];
      }
      if exists i :: 0 <= i < |instances| && instances[i].instanceId == id && InService(instances[i]) {
        var i :| 0 <= i < |instances| && instances[i].instanceId == id && InService(instances[i]);
        if i < |init| {
          assert init[i] == instances[i];
        }
      }
    }
  }

  /** No more ids than instances. */
  lemma {:induction false} InServiceIdsLength(instances: seq<AsgInstance>)
    ensures |InServiceIds(instances)| <= |instances|
  {
    if instances != [] {
      InServiceIdsLength(instances[..|instances| - 1]);
    }
  }

  datatype AsgError =
    | MissingEnvironment
    | BadEvent
    | GroupNotFound
    | NoInstanceInService
    | TooManyInstancesInService
    | StackNotFound

  /** The loop over the instances of the first group the describe call
      returns; no group at all is an `IndexError`, re-raised. */
  method FindAsgInstances(groups: seq<AutoScalingGroup>) returns (r: Result<seq<string>, AsgError>)
    ensures groups == [] ==> r == Failure(GroupNotFound)
    ensures groups != [] ==> r == Success(InServiceIds(groups[0].instances))
  {
    if groups == [] {
      return Failure(GroupNotFound);
    }
    var instances := groups[0].instances;
    var ids: seq<string> := [];
    for i := 0 to |instances|
      invariant ids == InServiceIds(instances[..i])
    {
      assert instances[..i + 1][..i] == instances[..i];
      if instances[i].lifecycleState == "InService" {
        ids := ids + [instances[i].instanceId];
      }
    }
    assert instances[..|instances|] == instances;
    return Success(ids);
  }

  // ---------------------------------------------------------------------
  // create_image
  // ---------------------------------------------------------------------

  /** The tags every image starts with, in this order.  Their keys are
      distinct and never `Name` or `StackName`, so the optional tags that
      follow cannot override them. */
  function FixedTags(snapshotTimestamp: string, instanceId: string, asgName: string): (r: seq<Tag>)
    ensures DistinctKeys(r)
    ensures forall i :: 0 <= i < |r| ==> r[i].key != "Name" && r[i].key != "StackName"
  {
    [Tag("SnapshotTimestamp", snapshotTimestamp), Tag("InstanceId", instanceId), Tag("AsgName", asgName)]
  }

  /** The tag list of the image: the three fixed tags, then `Name` and
      `StackName` when the instance has them. */
  method ImageTags(snapshotTimestamp: string, instanceId: string, asgName: string, tags: map<string, string>)
    returns (imageTags: seq<Tag>)
    ensures imageTags == FixedTags(snapshotTimestamp, instanceId, asgName) + OptionalTags(tags)
    ensures 3 <= |imageTags| <= 5
    ensures imageTags[0] == Tag("SnapshotTimestamp", snapshotTimestamp)
    ensures imageTags[1] == Tag("InstanceId", instanceId)
    ensures imageTags[2] == Tag("AsgName", asgName)
  {
    imageTags := AppendOptionalTags(FixedTags(snapshotTimestamp, instanceId, asgName), tags);
  }

  /** The tags of an image read back as a dictionary: its timestamp, instance
      and group, and the instance's name and stack name exactly when it had them. */
  lemma ImageTagsDictionary(snapshotTimestamp: string, instanceId: string, asgName: string, tags: map<string, string>)
    ensures var m := TagMap(FixedTags(snapshotTimestamp, instanceId, asgName) + OptionalTags(tags));
      && "SnapshotTimestamp" in m && m["SnapshotTimestamp"] == snapshotTimestamp
      && "InstanceId" in m && m["InstanceId"] == instanceId
      && "AsgName" in m && m["AsgName"] == asgName
      && ("Name" in m <==> NameKey in tags)
      && ("StackName" in m <==> StackNameKey in tags)
  {
    var fixed := FixedTags(snapshotTimestamp, instanceId, asgName);
    ImageTagsReadBack(fixed, tags);
    assert fixed[0].key == "SnapshotTimestamp" && fixed[1].key == "InstanceId" && fixed[2].key == "AsgName";
  }

  /** The `create_image` call: named after the group and the timestamp,
      described by the instance's name, stack name or id and the date,
      and rebooting the instance unless the event said not to. */
  function CreateImageCall(asgName: string, instanceId: string, snapshotTime: nat, date: string,
                           reboot: bool, tags: map<string, string>): ApiCall {
    CreateImage(instanceId, asgName + "_" + DecimalString(snapshotTime), DescriptionBase(tags, instanceId) + " " + date, !reboot)
  }

  // ---------------------------------------------------------------------
  // update_cfn_stack
  // ---------------------------------------------------------------------

  /** `updated` is `params` with the parameter named `key` given `value`:
      same length, same order, every other parameter untouched.  The
      matching entry is rebuilt from its key and the new value alone. */
  predicate ParametersRewritten(params: seq<Parameter>, updated: seq<Parameter>, key: string, value: string) {
    && |updated| == |params|
    && forall i :: 0 <= i < |params| ==>
         updated[i] == if params[i].key != key then params[i] else Parameter(key, value, None)
  }

  /** The loop that builds `params_new`. */
  method RewriteParameters(params: seq<Parameter>, imageIdParam: string, imageId: string) returns (paramsNew: seq<Parameter>)
    ensures ParametersRewritten(params, paramsNew, imageIdParam, imageId)
    ensures forall i :: 0 <= i < |params| ==> paramsNew[i].key == params[i].key
    ensures forall i :: 0 <= i < |params| && params[i].key == imageIdParam ==> paramsNew[i].value == imageId
  {
    paramsNew := [];
    for i := 0 to |params|
      invariant |paramsNew| == i
      invariant forall k :: 0 <= k < i ==>
        paramsNew[k] == if params[k].key != imageIdParam then params[k] else Parameter(imageIdParam, imageId, None)
    {
      if params[i].key != imageIdParam {
        paramsNew := paramsNew + [params[i]];
      } else {
        paramsNew := paramsNew + [Parameter(imageIdParam, imageId, None)];
      }
    }
  }

  /** Rewriting twice with the same key and value changes nothing more. */
  lemma RewriteIdempotent(params: seq<Parameter>, once: seq<Parameter>, twice: seq<Parameter>, key: string, value: string)
    requires ParametersRewritten(params, once, key, value)
    requires ParametersRewritten(once, twice, key, value)
    ensures twice == once
  {
    assert forall i :: 0 <= i < |once| ==> twice[i] == once[i];
  }

  // ---------------------------------------------------------------------
  // lambda_handler
  // ---------------------------------------------------------------------

  /** The environment variables `asg_name`, `cfn_stack_name` and `cfn_ami_parameter`. */
  datatype AsgEnvironment = AsgEnvironment(asgName: Option<string>, cfnStackName: Option<string>, cfnAmiParameter: Option<string>)

  predicate EnvironmentSet(env: AsgEnvironment) {
    env.asgName.Some? && env.cfnStackName.Some? && env.cfnAmiParameter.Some?
  }

  /** What the services and the clock answer during one invocation: the
      Auto Scaling groups described, the instance described, the id of the
      image created, the parameters of the stack (`None` when they cannot
      be read), the snapshot time in seconds since the epoch and the date
      written into the description. */
  datatype AsgResponses = AsgResponses(
    groups: seq<AutoScalingGroup>,
    reservations: seq<Reservation>,
    createdImageId: string,
    stackParameters: Option<seq<Parameter>>,
    snapshotTime: nat,
    date: string)

  /** The checks before an image is made: the environment is set, the event
      carries a usable `reboot`, and the group has exactly one instance in service. */
  predicate Proceeds(env: AsgEnvironment, event: map<string, JsonValue>, responses: AsgResponses) {
    && EnvironmentSet(env)
    && RebootRequested(event).Some?
    && responses.groups != []
    && |InServiceIds(responses.groups[0].instances)| == 1
  }

  /** One invocation: the calls that change something in AWS, in order, and
      the image id returned or the error raised.  An error after the image
      was made leaves the calls already made in place. */
  method Handler(env: AsgEnvironment, event: map<string, JsonValue>, responses: AsgResponses)
    returns (calls: seq<ApiCall>, r: Result<string, AsgError>)
    ensures !EnvironmentSet(env) ==> calls == [] && r == Failure(MissingEnvironment)
    ensures EnvironmentSet(env) && RebootRequested(event).None? ==> calls == [] && r == Failure(BadEvent)
    ensures EnvironmentSet(env) && RebootRequested(event).Some? && responses.groups == [] ==>
      calls == [] && r == Failure(GroupNotFound)
    ensures EnvironmentSet(env) && RebootRequested(event).Some? && responses.groups != [] ==>
      (|InServiceIds(responses.groups[0].instances)| == 0 ==> calls == [] && r == Failure(NoInstanceInService)) &&
      (|InServiceIds(responses.groups[0].instances)| > 1 ==> calls == [] && r == Failure(TooManyInstancesInService))
    ensures r.Success? ==> Proceeds(env, event, responses) && r.value == responses.createdImageId
    ensures Proceeds(env, event, responses) ==>
      var instanceId := InServiceIds(responses.groups[0].instances)[0];
      var tags := InstanceTags(responses.reservations);
      && |calls| >= 2
      && calls[0] == CreateImageCall(env.asgName.value, instanceId, responses.snapshotTime, responses.date, RebootRequested(event).value, tags)
      && calls[1] == CreateTags([responses.createdImageId],
           FixedTags(DecimalString(responses.snapshotTime), instanceId, env.asgName.value) + OptionalTags(tags))
    ensures Proceeds(env, event, responses) && responses.stackParameters.None? ==> |calls| == 2 && r == Failure(StackNotFound)
    ensures Proceeds(env, event, responses) && responses.stackParameters.Some? ==>
      && |calls| == 3 && r == Success(responses.createdImageId)
      && calls[2].UpdateStack?
      && calls[2].stackName == env.cfnStackName.value
      && calls[2].usePreviousTemplate
      && calls[2].capabilities == ["CAPABILITY_IAM"]
      && ParametersRewritten(responses.stackParameters.value, calls[2].parameters, env.cfnAmiParameter.value, responses.createdImageId)
  {
    calls := [];
    if !EnvironmentSet(env) {
      return [], Failure(MissingEnvironment);
    }
    var asgName, cfnStackName, cfnAmiParameter := env.asgName.value, env.cfnStackName.value, env.cfnAmiParameter.value;
    var reboot := RebootRequested(event);
    if reboot.None? {
      return [], Failure(BadEvent);
    }
    var found := FindAsgInstances(responses.groups);
    if found.Failure? {
      return [], Failure(found.error);
    }
    var ids := found.value;
    if |ids| < 1 {
      return [], Failure(NoInstanceInService);
    }
    if |ids| > 1 {
      return [], Failure(TooManyInstancesInService);
    }
    var instanceId := ids[0];

    // create_image
    var snapshotTimestamp := DecimalString(responses.snapshotTime);
    var tags := InstanceTags(responses.reservations);
    calls := calls + [CreateImageCall(asgName, instanceId, responses.snapshotTime, responses.date, reboot.value, tags)];
    var imageId := responses.createdImageId;
    var imageTags := ImageTags(snapshotTimestamp, instanceId, asgName, tags);
    calls := calls + [CreateTags([imageId], imageTags)];

    // update_cfn_stack
    if responses.stackParameters.None? {
      return calls, Failure(StackNotFound);
    }
    var paramsNew := RewriteParameters(responses.stackParameters.value, cfnAmiParameter, imageId);
    calls := calls + [UpdateStack(cfnStackName, true, paramsNew, ["CAPABILITY_IAM"])];
    r := Success(imageId);
  }
}
