/** What the snapshot Lambdas share: EC2 tags and the dictionaries built from
    them, the choice of an image description, the `reboot` flag of the
    event, the decimal timestamps written into tags and read back from them,
    and the records of the API calls the Lambdas make.

    Every AWS response is an input value and every AWS call an output
    record: nothing here talks to a service. */
module SnapshotCommon {
  import opened Wrappers

  // ---------------------------------------------------------------------
  // Tags
  // ---------------------------------------------------------------------

  datatype Tag = Tag(key: string, value: string)

  const NameKey: string := "Name"
  const StackNameKey: string := "aws:cloudformation:stack-name"

  /** `{item['Key']: item['Value'] for item in tags}`: a later tag with a key
      overrides an earlier one with the same key. */
  function TagMap(tags: seq<Tag>): map<string, string> {
    if tags == [] then map[]
    else
      var last := tags[|tags| - 1];
      TagMap(tags[..|tags| - 1])[last.key := last.value]
  }

  /** The dictionary has exactly the keys of the tags. */
  lemma {:induction false} TagMapKeys(tags: seq<Tag>, k: string)
    ensures k in TagMap(tags) <==> exists i :: 0 <= i < |tags| && tags[i].key == k
  {
    if tags != [] {
      var init := tags[..|tags| - 1];
      TagMapKeys(init, k);
      if exists i :: 0 <= i < |init| && init[i].key == k {
        var i :| 0 <= i < |init| && init[i].key == k;
        assert tags[i].key == k;
      }
      if exists i :: 0 <= i < |tags| && tags[i].key == k {
        var i :| 0 <= i < |tags| && tags[i].key == k;
        if i < |init| {
          assert init[i].key == k;
        }
      }
    }
  }

  /** A key no tag has is not in the dictionary. */
  lemma TagMapMissing(tags: seq<Tag>, k: string)
    requires forall i :: 0 <= i < |tags| ==> tags[i].key != k
    ensures k !in TagMap(tags)
  {
    TagMapKeys(tags, k);
  }

  /** A key maps to the value of the last tag that has it. */
  lemma {:induction false} TagMapLast(tags: seq<Tag>, i: nat)
    requires i < |tags|
    requires forall j :: i < j < |tags| ==> tags[j].key != tags[i].key
    ensures tags[i].key in TagMap(tags) && TagMap(tags)[tags[i].key] == tags[i].value
  {
    if i < |tags| - 1 {
      var init := tags[..|tags| - 1];
      assert init[i] == tags[i];
      TagMapLast(init, i);
    }
  }

  /** One instance in a `describe_instances` response; `tags` is `None` when
      the instance has no `Tags` entry. */
  datatype InstanceRecord = InstanceRecord(tags: Option<seq<Tag>>)

  datatype Reservation = Reservation(instances: seq<InstanceRecord>)

  /** The tag dictionary of the first instance of the first reservation;
      when that cannot be read, the exception is swallowed and the
      dictionary stays empty. */
  function InstanceTags(reservations: seq<Reservation>): map<string, string> {
    if |reservations| > 0 && |reservations[0].instances| > 0 && reservations[0].instances[0].tags.Some?
    then TagMap(reservations[0].instances[0].tags.value)
    else map[]
  }

  /** The start of an image description: the `Name` tag, else the
      CloudFormation stack-name tag, else the instance id. */
  function DescriptionBase(tags: map<string, string>, instanceId: string): string {
    if NameKey in tags then tags[NameKey]
    else if StackNameKey in tags then tags[StackNameKey]
    else instanceId
  }

  /** The description base read from an instance's tag list: the value of
      its last `Name` tag if it has one, else that of its last stack-name
      tag, else the instance id. */
  lemma DescriptionPriority(tags: seq<Tag>, instanceId: string, i: nat)
    requires i < |tags|
    requires forall j :: i < j < |tags| ==> tags[j].key != tags[i].key
    ensures tags[i].key == NameKey ==> DescriptionBase(TagMap(tags), instanceId) == tags[i].value
    ensures tags[i].key == StackNameKey && (forall j :: 0 <= j < |tags| ==> tags[j].key != NameKey) ==>
      DescriptionBase(TagMap(tags), instanceId) == tags[i].value
  {
    TagMapLast(tags, i);
    TagMapKeys(tags, NameKey);
  }

  /** When no tag in the instance's list is `Name` or the stack-name tag,
      the description falls back to the instance id. */
  lemma DescriptionFallback(tags: seq<Tag>, instanceId: string)
    requires forall j :: 0 <= j < |tags| ==> tags[j].key != NameKey && tags[j].key != StackNameKey
    ensures DescriptionBase(TagMap(tags), instanceId) == instanceId
  {
    TagMapKeys(tags, NameKey);
    TagMapKeys(tags, StackNameKey);
  }

  /** An instance without a `Tags` entry has an empty tag dictionary. */
  lemma UntaggedInstance(reservations: seq<Reservation>)
    requires |reservations| > 0 && |reservations[0].instances| > 0
    requires reservations[0].instances[0].tags.None?
    ensures InstanceTags(reservations) == map[]
  {
  }

  // ---------------------------------------------------------------------
  // Image tags
  // ---------------------------------------------------------------------

  /** The tags appended after the fixed ones: `Name` if the instance has a
      `Name` tag, then `StackName` if it has a stack-name tag. */
  function OptionalTags(tags: map<string, string>): (r: seq<Tag>)
    ensures |r| == (if NameKey in tags then 1 else 0) + (if StackNameKey in tags then 1 else 0)
    ensures forall k :: 0 <= k < |r| ==> r[k].key == "Name" || r[k].key == "StackName"
  {
    (if NameKey in tags then [Tag("Name", tags[NameKey])] else []) +
    (if StackNameKey in tags then [Tag("StackName", tags[StackNameKey])] else [])
  }

  /** The two conditional `append`s after the fixed tags of an image. */
  method AppendOptionalTags(fixed: seq<Tag>, tags: map<string, string>) returns (imageTags: seq<Tag>)
    ensures imageTags == fixed + OptionalTags(tags)
    ensures |imageTags| == |fixed| + (if NameKey in tags then 1 else 0) + (if StackNameKey in tags then 1 else 0)
  {
    imageTags := fixed;
    if NameKey in tags {
      imageTags := imageTags + [Tag("Name", tags[NameKey])];
    }
    if StackNameKey in tags {
      imageTags := imageTags + [Tag("StackName", tags[StackNameKey])];
    }
  }

  predicate DistinctKeys(tags: seq<Tag>) {
    forall i, j :: 0 <= i < j < |tags| ==> tags[i].key != tags[j].key
  }

  /** The dictionary of two tag lists one after the other is that of the
      first, overridden by that of the second. */
  lemma {:induction false} TagMapConcat(a: seq<Tag>, b: seq<Tag>)
    ensures TagMap(a + b) == TagMap(a) + TagMap(b)
  {
    if b == [] {
      assert a + b == a;
    } else {
      var init := b[..|b| - 1];
      assert (a + b)[..|a + b| - 1] == a + init;
      TagMapConcat(a, init);
    }
  }

  /** Reading back the tags of an image: with fixed tags of distinct keys
      other than `Name` and `StackName`, the tag dictionary of the image gives
      each fixed tag its value, and has `Name` and `StackName` exactly when
      the instance had the corresponding tag, with its value. */
  lemma ImageTagsReadBack(fixed: seq<Tag>, tags: map<string, string>)
    requires DistinctKeys(fixed)
    requires forall i :: 0 <= i < |fixed| ==> fixed[i].key != "Name" && fixed[i].key != "StackName"
    ensures forall i :: 0 <= i < |fixed| ==>
      fixed[i].key in TagMap(fixed + OptionalTags(tags)) && TagMap(fixed + OptionalTags(tags))[fixed[i].key] == fixed[i].value
    ensures "Name" in TagMap(fixed + OptionalTags(tags)) <==> NameKey in tags
    ensures NameKey in tags ==> TagMap(fixed + OptionalTags(tags))["Name"] == tags[NameKey]
    ensures "StackName" in TagMap(fixed + OptionalTags(tags)) <==> StackNameKey in tags
    ensures StackNameKey in tags ==> TagMap(fixed + OptionalTags(tags))["StackName"] == tags[StackNameKey]
  {
    TagMapConcat(fixed, OptionalTags(tags));
    OptionalTagsMap(tags);
    forall i | 0 <= i < |fixed|
      ensures fixed[i].key in TagMap(fixed) && TagMap(fixed)[fixed[i].key] == fixed[i].value
    {
      TagMapLast(fixed, i);
    }
    TagMapMissing(fixed, "Name");
    TagMapMissing(fixed, "StackName");
  }

  /** The dictionary of the optional tags. */
  lemma OptionalTagsMap(tags: map<string, string>)
    ensures "Name" in TagMap(OptionalTags(tags)) <==> NameKey in tags
    ensures NameKey in tags ==> TagMap(OptionalTags(tags))["Name"] == tags[NameKey]
    ensures "StackName" in TagMap(OptionalTags(tags)) <==> StackNameKey in tags
    ensures StackNameKey in tags ==> TagMap(OptionalTags(tags))["StackName"] == tags[StackNameKey]
    ensures forall k :: k in TagMap(OptionalTags(tags)) ==> k == "Name" || k == "StackName"
  {
    var name := if NameKey in tags then [Tag("Name", tags[NameKey])] else [];
    var stack := if StackNameKey in tags then [Tag("StackName", tags[StackNameKey])] else [];
    TagMapConcat(name, stack);
    assert TagMap(name) == if NameKey in tags then map["Name" := tags[NameKey]] else map[] by {
      if NameKey in tags {
        assert name[..0] == [];
      }
    }
    assert TagMap(stack) == if StackNameKey in tags then map["StackName" := tags[StackNameKey]] else map[] by {
      if StackNameKey in tags {
        assert stack[..0] == [];
      }
    }
  }

  /** `'%(Key)s=%(Value)s' % tag` */
  function TagText(t: Tag): string { t.key + "=" + t.value }

  /** `' '.join(items)` */
  function JoinSpace(items: seq<string>): string {
    if |items| == 0 then ""
    else if |items| == 1 then items[0]
    else items[0] + " " + JoinSpace(items[1..])
  }

  /** The tag line written to the log: the `Key=Value` texts of the tags,
      in order, separated by single spaces. */
  function TagLogString(tags: seq<Tag>): string {
    JoinSpace(seq(|tags|, i requires 0 <= i < |tags| => TagText(tags[i])))
  }

  /** `s.split(' ')`: the pieces between single spaces. */
  function SplitSpace(s: string): (r: seq<string>)
    ensures |r| > 0
  {
    if s == [] then [""]
    else if s[0] == ' ' then [""] + SplitSpace(s[1..])
    else
      var rest := SplitSpace(s[1..]);
      [[s[0]] + rest[0]] + rest[1..]
  }

  predicate NoSpace(s: string) { forall k :: 0 <= k < |s| ==> s[k] != ' ' }

  lemma {:induction false} SplitNoSpace(a: string)
    requires NoSpace(a)
    ensures SplitSpace(a) == [a]
  {
    if a != [] {
      SplitNoSpace(a[1..]);
      assert [a[0]] + a[1..] == a;
    }
  }

  lemma {:induction false} SplitAfterWord(a: string, b: string)
    requires NoSpace(a)
    ensures SplitSpace(a + " " + b) == [a] + SplitSpace(b)
  {
    if a == [] {
      assert a + " " + b == [' '] + b;
      assert ([' '] + b)[1..] == b;
    } else {
      assert (a + " " + b)[0] == a[0];
      assert (a + " " + b)[1..] == a[1..] + " " + b;
      SplitAfterWord(a[1..], b);
      assert [a[0]] + a[1..] == a;
    }
  }

  /** Splitting a joined line at its spaces gives back the pieces, when no
      piece holds a space. */
  lemma {:induction false} SplitJoin(items: seq<string>)
    requires |items| > 0
    requires forall i :: 0 <= i < |items| ==> NoSpace(items[i])
    ensures SplitSpace(JoinSpace(items)) == items
  {
    if |items| == 1 {
      SplitNoSpace(items[0]);
    } else {
      SplitJoin(items[1..]);
      SplitAfterWord(items[0], JoinSpace(items[1..]));
      assert [items[0]] + items[1..] == items;
    }
  }

  /** The tag line can be split back into the `Key=Value` texts of the tags,
      in list order, when no key and no value holds a space. */
  lemma TagLogStringSplits(tags: seq<Tag>)
    requires |tags| > 0
    requires forall i :: 0 <= i < |tags| ==> NoSpace(tags[i].key) && NoSpace(tags[i].value)
    ensures SplitSpace(TagLogString(tags)) == seq(|tags|, i requires 0 <= i < |tags| => TagText(tags[i]))
  {
    var texts := seq(|tags|, i requires 0 <= i < |tags| => TagText(tags[i]));
    forall i | 0 <= i < |texts| ensures NoSpace(texts[i]) {
      assert texts[i] == tags[i].key + "=" + tags[i].value;
    }
    SplitJoin(texts);
  }

  // ---------------------------------------------------------------------
  // Decimal timestamps
  // ---------------------------------------------------------------------

  predicate IsDigit(c: char) { '0' <= c <= '9' }

  predicate AllDigits(s: string) { forall k :: 0 <= k < |s| ==> IsDigit(s[k]) }

  function DigitChar(d: nat): (c: char)
    requires d < 10
    ensures IsDigit(c) && DigitValue(c) == d
  {
    (('0' as int) + d) as char
  }

  /** `strftime('%s')`: the seconds since the epoch, in decimal. */
  function DecimalString(n: nat): (s: string)
    ensures |s| > 0 && AllDigits(s)
    ensures n == 0 ==> s == "0"
    ensures n > 0 ==> s[0] != '0'
  {
    if n < 10 then [DigitChar(n)] else DecimalString(n / 10) + [DigitChar(n % 10)]
  }

  function DigitValue(c: char): nat
    requires IsDigit(c)
  {
    (c as int) - ('0' as int)
  }

  /** The value of a string of decimal digits. */
  function DigitsValue(s: string): nat
    requires AllDigits(s)
  {
    if s == [] then 0
    else DigitsValue(s[..|s| - 1]) * 10 + DigitValue(s[|s| - 1])
  }

  /** `int(s)` on an optional sign followed by decimal digits; `None` where
      `int` raises. */
  function ParseInt(s: string): Option<int> {
    if |s| > 0 && AllDigits(s) then Some(DigitsValue(s))
    else if |s| > 1 && s[0] == '-' && AllDigits(s[1..]) then Some(-(DigitsValue(s[1..]) as int))
    else if |s| > 1 && s[0] == '+' && AllDigits(s[1..]) then Some(DigitsValue(s[1..]))
    else None
  }

  lemma {:induction false} DecimalStringValue(n: nat)
    ensures DigitsValue(DecimalString(n)) == n
  {
    if n >= 10 {
      DecimalStringValue(n / 10);
      var s := DecimalString(n);
      assert s[..|s| - 1] == DecimalString(n / 10);
    }
  }

  /** A timestamp written with `strftime('%s')` reads back as the same number. */
  lemma ParseDecimalString(n: nat)
    ensures ParseInt(DecimalString(n)) == Some(n)
  {
    DecimalStringValue(n);
  }

  // ---------------------------------------------------------------------
  // The event and the calls
  // ---------------------------------------------------------------------

  /** A value of the event JSON; `JOther` is a string, a float, `null`, a
      list or an object. */
  datatype JsonValue = JBool(b: bool) | JInt(i: int) | JOther

  /** `reboot = event.get('reboot', True)` followed by
      `assert(type(event['reboot']) in [bool, int])`: the key must be there
      and hold a boolean or an integer, whose truthiness says whether to
      reboot. */
  function RebootRequested(event: map<string, JsonValue>): (r: Option<bool>)
    ensures r.Some? <==> "reboot" in event && (event["reboot"].JBool? || event["reboot"].JInt?)
    ensures r == Some(false) <==> "reboot" in event && (event["reboot"] == JBool(false) || event["reboot"] == JInt(0))
  {
    if "reboot" !in event then None
    else
      match event["reboot"]
      case JBool(b) => Some(b)
      case JInt(i) => Some(i != 0)
      case JOther => None
  }

  /** A stack parameter as `describe_stacks` reports it. */
  datatype Parameter = Parameter(key: string, value: string, resolvedValue: Option<string>)

  /** The calls that change something in AWS, with their arguments. */
  datatype ApiCall =
    | CreateImage(instanceId: string, name: string, description: string, noReboot: bool)
    | CreateTags(resources: seq<string>, tags: seq<Tag>)
    | UpdateStack(stackName: string, usePreviousTemplate: bool, parameters: seq<Parameter>, capabilities: seq<string>)
    | DeregisterImage(imageId: string)
}
