/** The Lambda that deregisters the images of an Auto Scaling group whose
    snapshot timestamp is older than a retention period. */
module SnapshotRemover {
  import opened Wrappers
  import opened SnapshotCommon
  import SnapshotAsg

  /** An image as `describe_images` returns it; `tags` is `None` when the
      image has no `Tags` entry. */
  datatype Image = Image(imageId: string, tags: Option<seq<Tag>>)

  const TimestampKey: string := "SnapshotTimestamp"

  /** The `try` block of the loop: the image's `SnapshotTimestamp` tag read
      as an integer, or `None` when there are no tags, no such tag, or the
      value is not an integer. */
  function ImageTimestamp(image: Image): (r: Option<int>)
    ensures r.Some? <==>
      image.tags.Some? && TimestampKey in TagMap(image.tags.value) && ParseInt(TagMap(image.tags.value)[TimestampKey]).Some?
    ensures r.Some? ==> r == ParseInt(TagMap(image.tags.value)[TimestampKey])
  {
    if image.tags.None? then None
    else
      var tags := TagMap(image.tags.value);
      if TimestampKey !in tags then None else ParseInt(tags[TimestampKey])
  }

  /** What the loop does with one image. */
  datatype Decision = Skip | Deregister | Retain

  /** An image is deregistered exactly when its timestamp is strictly below
      the cutoff, retained exactly when it is at or above it, and skipped
      when it has no usable timestamp. */
  function Decide(image: Image, oldestTimestamp: int): (d: Decision)
    ensures d == Skip <==> ImageTimestamp(image).None?
    ensures d == Deregister <==> ImageTimestamp(image).Some? && ImageTimestamp(image).value < oldestTimestamp
    ensures d == Retain <==> ImageTimestamp(image).Some? && ImageTimestamp(image).value >= oldestTimestamp
  {
    match ImageTimestamp(image)
    case None => Skip
    case Some(t) => if t < oldestTimestamp then Deregister else Retain
  }

  /** A later cutoff deregisters every image an earlier one did, and keeps
      only images an earlier one kept. */
  lemma DecideMonotone(image: Image, earlier: int, later: int)
    requires earlier <= later
    ensures Decide(image, earlier) == Deregister ==> Decide(image, later) == Deregister
    ensures Decide(image, later) == Retain ==> Decide(image, earlier) == Retain
  {
  }

  /** The ids of the images the loop treats with decision `d`, in order. */
  function Selected(images: seq<Image>, oldestTimestamp: int, d: Decision): seq<string> {
    if images == [] then []
    else
      var last := images[|images| - 1];
      Selected(images[..|images| - 1], oldestTimestamp, d) + (if Decide(last, oldestTimestamp) == d then [last.imageId] else [])
  }

  /** Images are taken one at a time, in order: over two runs of images the
      selection is that of the first run, then that of the second. */
  lemma {:induction false} SelectedAppend(a: seq<Image>, b: seq<Image>, oldestTimestamp: int, d: Decision)
    ensures Selected(a + b, oldestTimestamp, d) == Selected(a, oldestTimestamp, d) + Selected(b, oldestTimestamp, d)
  {
    if b == [] {
      assert a + b == a;
    } else {
      assert (a + b)[..|a + b| - 1] == a + b[..|b| - 1];
      SelectedAppend(a, b[..|b| - 1], oldestTimestamp, d);
    }
  }

  /** An id is selected exactly when some image with that id gets that decision. */
  lemma {:induction false} SelectedMembers(images: seq<Image>, oldestTimestamp: int, d: Decision, id: string)
    ensures id in Selected(images, oldestTimestamp, d) <==>
      exists i :: 0 <= i < |images| && images[i].imageId == id && Decide(images[i], oldestTimestamp) == d
  {
    if images != [] {
      var init := images[..|images| - 1];
      SelectedMembers(init, oldestTimestamp, d, id);
      if exists i :: 0 <= i < |init| && init[i].imageId == id && Decide(init[i], oldestTimestamp) == d {
        var i :| 0 <= i < |init| && init[i].imageId == id && Decide(init[i], oldestTimestamp) == d;
        assert images[i] == init[i];
      }
      if exists i :: 0 <= i < |images| && images[i].imageId == id && Decide(images[i], oldestTimestamp) == d {
        var i :| 0 <= i < |images| && images[i].imageId == id && Decide(images[i], oldestTimestamp) == d;
        if i < |init| {
          assert init[i] == images[i];
        }
      }
    }
  }

  /** Every image is skipped, deregistered or retained, and only one of them. */
  lemma {:induction false} SelectedPartition(images: seq<Image>, oldestTimestamp: int)
    ensures |Selected(images, oldestTimestamp, Skip)| + |Selected(images, oldestTimestamp, Deregister)|
          + |Selected(images, oldestTimestamp, Retain)| == |images|
  {
    if images != [] {
      SelectedPartition(images[..|images| - 1], oldestTimestamp);
    }
  }

  /** The number of images with a usable timestamp. */
  function CountTimestamped(images: seq<Image>): nat {
    if images == [] then 0
    else CountTimestamped(images[..|images| - 1]) + (if ImageTimestamp(images[|images| - 1]).Some? then 1 else 0)
  }

  /** The images with a usable timestamp are the ones deregistered or retained. */
  lemma {:induction false} TimestampedSplit(images: seq<Image>, oldestTimestamp: int)
    ensures |Selected(images, oldestTimestamp, Deregister)| + |Selected(images, oldestTimestamp, Retain)| == CountTimestamped(images)
  {
    if images != [] {
      TimestampedSplit(images[..|images| - 1], oldestTimestamp);
    }
  }

  /** The loop of `deregister_old_images`: the ids deregistered and the ids
      retained, in the order of the images. */
  method DeregisterOldImages(images: seq<Image>, oldestTimestamp: int)
    returns (deregistered: seq<string>, retained: seq<string>)
    ensures deregistered == Selected(images, oldestTimestamp, Deregister)
    ensures retained == Selected(images, oldestTimestamp, Retain)
  {
    deregistered, retained := [], [];
    for i := 0 to |images|
      invariant deregistered == Selected(images[..i], oldestTimestamp, Deregister)
      invariant retained == Selected(images[..i], oldestTimestamp, Retain)
    {
      assert images[..i + 1][..i] == images[..i];
      var image := images[i];
      if image.tags.None? {
        continue;
      }
      var tags := TagMap(image.tags.value);
      if TimestampKey !in tags {
        continue;
      }
      var parsed := ParseInt(tags[TimestampKey]);
      if parsed.None? {
        continue;
      }
      var snapshotTimestamp := parsed.value;
      if snapshotTimestamp < oldestTimestamp {
        deregistered := deregistered + [image.imageId];
      } else {
        retained := retained + [image.imageId];
      }
    }
    assert images[..|images|] == images;
  }

  /** An image made by the snapshot Lambda of an Auto Scaling group at time
      `t` is deregistered exactly when `t` is before the cutoff, and
      retained otherwise: its timestamp tag always reads back. */
  lemma AsgImageDecision(imageId: string, t: nat, instanceId: string, asgName: string,
                         instanceTags: map<string, string>, oldestTimestamp: int)
    ensures var image := Image(imageId, Some(SnapshotAsg.FixedTags(DecimalString(t), instanceId, asgName) + OptionalTags(instanceTags)));
      Decide(image, oldestTimestamp) == if t < oldestTimestamp then Deregister else Retain
  {
    SnapshotAsg.ImageTagsDictionary(DecimalString(t), instanceId, asgName, instanceTags);
    ParseDecimalString(t);
  }

  /** `int(time.mktime((datetime.now() - timedelta(days=retain_days)).timetuple()))`,
      with `now` the clock read as seconds since the epoch, as
      `int(time.mktime(datetime.now().timetuple()))` gives them.  Going back
      `retain_days` local days is going back `retain_days * 86400` seconds
      when the local offset from UTC is the same at both ends (always so
      under UTC). */
  function Cutoff(now: int, retainDays: int): int {
    now - retainDays * 86400
  }

  /** The largest number of days a `timedelta` can hold. */
  const MaxTimedeltaDays: int := 999999999

  /** 0001-01-01 00:00:00 and 9999-12-31 23:59:59, the range of a `datetime`. */
  const MinDatetimeSeconds: int := -62135596800
  const MaxDatetimeSeconds: int := 253402300799

  /** `timedelta(days=retain_days)` can be built, and subtracting it from
      now stays within years 1 to 9999; otherwise an `OverflowError` is raised. */
  predicate CutoffRepresentable(now: int, retainDays: int) {
    && -MaxTimedeltaDays <= retainDays <= MaxTimedeltaDays
    && MinDatetimeSeconds <= Cutoff(now, retainDays) <= MaxDatetimeSeconds
  }

  /** The `deregister_image` calls, one per id, in order. */
  function DeregisterCalls(ids: seq<string>): seq<ApiCall> {
    seq(|ids|, i requires 0 <= i < |ids| => DeregisterImage(ids[i]))
  }

  /** The calls of a run are `deregister_image` calls only, and one names an
      image exactly when some image with that id has a timestamp strictly
      below the cutoff. */
  lemma DeregisteredExactly(images: seq<Image>, oldestTimestamp: int, id: string)
    ensures var calls := DeregisterCalls(Selected(images, oldestTimestamp, Deregister));
      && (forall k :: 0 <= k < |calls| ==> calls[k].DeregisterImage?)
      && (DeregisterImage(id) in calls <==>
           exists i :: 0 <= i < |images| && images[i].imageId == id &&
             ImageTimestamp(images[i]).Some? && ImageTimestamp(images[i]).value < oldestTimestamp)
  {
    var ids := Selected(images, oldestTimestamp, Deregister);
    var calls := DeregisterCalls(ids);
    SelectedMembers(images, oldestTimestamp, Deregister, id);
    if id in ids {
      var j :| 0 <= j < |ids| && ids[j] == id;
      assert calls[j] == DeregisterImage(id);
    }
    if DeregisterImage(id) in calls {
      var j :| 0 <= j < |calls| && calls[j] == DeregisterImage(id);
      assert ids[j] == id;
    }
  }

  /** A variable is unset; `retain_days` is not an integer; the cutoff is
      outside the range of dates. */
  datatype RemoverError = MissingEnvironment | RetainDaysNotInteger | CutoffOutOfRange

  /** One invocation, given the environment variables `asg_name` and
      `retain_days`, the clock and the images described: the calls that
      change something in AWS and the error raised, if any.  A missing
      variable, a `retain_days` that is not an integer, or a cutoff outside
      the range of dates fails before any image is examined. */
  method Handler(asgName: Option<string>, retainDays: Option<string>, now: int, images: seq<Image>)
    returns (calls: seq<ApiCall>, error: Option<RemoverError>)
    ensures error == Some(MissingEnvironment) <==> asgName.None? || retainDays.None?
    ensures error == Some(RetainDaysNotInteger) <==>
      asgName.Some? && retainDays.Some? && ParseInt(retainDays.value).None?
    ensures error == Some(CutoffOutOfRange) <==>
      asgName.Some? && retainDays.Some? && ParseInt(retainDays.value).Some? &&
      !CutoffRepresentable(now, ParseInt(retainDays.value).value)
    ensures error.Some? ==> calls == []
    ensures error.None? ==>
      calls == DeregisterCalls(Selected(images, Cutoff(now, ParseInt(retainDays.value).value), Deregister))
  {
    if asgName.None? || retainDays.None? {
      return [], Some(MissingEnvironment);
    }
    var days := ParseInt(retainDays.value);
    if days.None? {
      return [], Some(RetainDaysNotInteger);
    }
    if !CutoffRepresentable(now, days.value) {
      return [], Some(CutoffOutOfRange);
    }
    var oldestTimestamp := Cutoff(now, days.value);
    var deregistered, retained := DeregisterOldImages(images, oldestTimestamp);
    calls := DeregisterCalls(deregistered);
    error := None;
  }
}
