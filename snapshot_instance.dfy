/** The Lambda that snapshots one instance, named by an environment variable,
    and tags the new image. */
module SnapshotInstance {
  import opened Wrappers
  import opened SnapshotCommon

  /** The tags every image starts with, in this order.  Their keys are
      distinct and never `Name` or `StackName`, so the optional tags that
      follow cannot override them. */
  function FixedTags(snapshotTimestamp: string, instanceId: string): (r: seq<Tag>)
    ensures DistinctKeys(r)
    ensures forall i :: 0 <= i < |r| ==> r[i].key != "Name" && r[i].key != "StackName"
  {
    [Tag("SnapshotTimestamp", snapshotTimestamp), Tag("InstanceId", instanceId)]
  }

  /** The tag list of the image: the two fixed tags, then `Name` and
      `StackName` when the instance has them. */
  method ImageTags(snapshotTimestamp: string, instanceId: string, tags: map<string, string>)
    returns (imageTags: seq<Tag>)
    ensures imageTags == FixedTags(snapshotTimestamp, instanceId) + OptionalTags(tags)
    ensures 2 <= |imageTags| <= 4
    ensures imageTags[0] == Tag("SnapshotTimestamp", snapshotTimestamp)
    ensures imageTags[1] == Tag("InstanceId", instanceId)
  {
    imageTags := AppendOptionalTags(FixedTags(snapshotTimestamp, instanceId), tags);
  }

  /** The tags of an image read back as a dictionary: its timestamp and
      instance, and the instance's name and stack name exactly when it had them. */
  lemma ImageTagsDictionary(snapshotTimestamp: string, instanceId: string, tags: map<string, string>)
    ensures var m := TagMap(FixedTags(snapshotTimestamp, instanceId) + OptionalTags(tags));
      && "SnapshotTimestamp" in m && m["SnapshotTimestamp"] == snapshotTimestamp
      && "InstanceId" in m && m["InstanceId"] == instanceId
      && "AsgName" !in m
      && ("Name" in m <==> NameKey in tags)
      && ("StackName" in m <==> StackNameKey in tags)
  {
    var fixed := FixedTags(snapshotTimestamp, instanceId);
    ImageTagsReadBack(fixed, tags);
    TagMapConcat(fixed, OptionalTags(tags));
    OptionalTagsMap(tags);
    TagMapMissing(fixed, "AsgName");
  }

  /** The log line of the image tags can be split back into their
      `Key=Value` texts, in order, when the instance's name and stack name
      hold no space. */
  lemma TagLogLine(snapshotTime: nat, instanceId: string, tags: map<string, string>)
    requires NoSpace(instanceId)
    requires NameKey in tags ==> NoSpace(tags[NameKey])
    requires StackNameKey in tags ==> NoSpace(tags[StackNameKey])
    ensures var imageTags := FixedTags(DecimalString(snapshotTime), instanceId) + OptionalTags(tags);
      SplitSpace(TagLogString(imageTags)) == seq(|imageTags|, i requires 0 <= i < |imageTags| => TagText(imageTags[i]))
  {
    var imageTags := FixedTags(DecimalString(snapshotTime), instanceId) + OptionalTags(tags);
    var opt := OptionalTags(tags);
    var ts := DecimalString(snapshotTime);
    assert NoSpace(ts) by {
      assert forall k :: 0 <= k < |ts| ==> IsDigit(ts[k]);
    }
    forall i | 0 <= i < |imageTags| ensures NoSpace(imageTags[i].key) && NoSpace(imageTags[i].value) {
      if i == 0 {
        assert imageTags[i] == Tag("SnapshotTimestamp", ts);
      } else if i == 1 {
        assert imageTags[i] == Tag("InstanceId", instanceId);
      } else {
        assert imageTags[i] == opt[i - 2];
      }
    }
    TagLogStringSplits(imageTags);
  }

  /** The `create_image` call: named after the instance and the timestamp,
      described by the instance's name, stack name or id and the date, and
      rebooting the instance unless the event said not to. */
  function CreateImageCall(instanceId: string, snapshotTime: nat, date: string, reboot: bool, tags: map<string, string>): ApiCall {
    CreateImage(instanceId, instanceId + "_" + DecimalString(snapshotTime), DescriptionBase(tags, instanceId) + " " + date, !reboot)
  }

  datatype InstanceError = MissingEnvironment | BadEvent

  /** What the services and the clock answer during one invocation: the
      instance described, the id of the image created, the snapshot time in
      seconds since the epoch and the date written into the description. */
  datatype InstanceResponses = InstanceResponses(
    reservations: seq<Reservation>,
    createdImageId: string,
    snapshotTime: nat,
    date: string)

  /** One invocation, given the `instance_id` environment variable: the calls
      that change something in AWS, in order, and the image id returned or
      the error raised.  Both checks come before any image is made. */
  method Handler(instanceIdVar: Option<string>, event: map<string, JsonValue>, responses: InstanceResponses)
    returns (calls: seq<ApiCall>, r: Result<string, InstanceError>)
    ensures instanceIdVar.None? ==> calls == [] && r == Failure(MissingEnvironment)
    ensures instanceIdVar.Some? && RebootRequested(event).None? ==> calls == [] && r == Failure(BadEvent)
    ensures r.Success? <==> instanceIdVar.Some? && RebootRequested(event).Some?
    ensures r.Success? ==>
      var instanceId := instanceIdVar.value;
      var tags := InstanceTags(responses.reservations);
      && r.value == responses.createdImageId
      && calls == [
           CreateImageCall(instanceId, responses.snapshotTime, responses.date, RebootRequested(event).value, tags),
           CreateTags([responses.createdImageId], FixedTags(DecimalString(responses.snapshotTime), instanceId) + OptionalTags(tags))]
  {
    if instanceIdVar.None? {
      return [], Failure(MissingEnvironment);
    }
    var instanceId := instanceIdVar.value;
    var reboot := RebootRequested(event);
    if reboot.None? {
      return [], Failure(BadEvent);
    }

    // create_image
    var snapshotTimestamp := DecimalString(responses.snapshotTime);
    var tags := InstanceTags(responses.reservations);
    calls := [CreateImageCall(instanceId, responses.snapshotTime, responses.date, reboot.value, tags)];
    var imageId := responses.createdImageId;
    var imageTags := ImageTags(snapshotTimestamp, instanceId, tags);
    calls := calls + [CreateTags([imageId], imageTags)];
    r := Success(imageId);
  }
}
