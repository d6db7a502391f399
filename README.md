# AWS template and snapshot helpers, modelled in Dafny

This project models two parts of a small collection of AWS helper scripts.

The first is the template import pre-processor `import-files.py`. It reads
a CloudFormation template line by line. It drops comment lines and echoes
plain lines. A macro line `<prefix>%%{file}%%<suffix>` becomes the lines
of `file`. Each imported line is wrapped in the prefix and suffix, and its
double quotes are escaped. In JSON mode every imported line but the last
also gets a comma.

The second is the deterministic logic of three AWS Lambda functions:

- `lambda-snapshot-asg.py` images the single in-service instance of an
  Auto Scaling group. It tags the image and rewrites one parameter of a
  CloudFormation stack to the new image id.
- `lambda-snapshot-instance.py` images one named instance and tags the image.
- `lambda-snapshot-remover.py` deregisters the images of a group whose
  `SnapshotTimestamp` tag is older than a retention period.

Every AWS response is an input value. Every call that changes something in
AWS (`create_image`, `create_tags`, `update_stack`, `deregister_image`) is
an `ApiCall` record emitted in order. The clock gives its values as
parameters: seconds since the epoch, and the date text of the description.
Environment variables are `Option<string>` inputs.

Files:

- `wrappers.dfy`: `Option` and `Result`.
- `import_files.dfy`: module `ImportFiles`. It holds mode selection, line
  stripping, escaping, the hand-written matcher for the macro regular
  expression, and the per-line output as a specification. It also holds the
  imperative program (`ImportFile`, `ExpandLine`, `Process`, `Run`), proved
  against that specification.
- `snapshot_common.dfy`: module `SnapshotCommon`. It holds what the three
  Lambdas share:
  - the tag dictionary comprehension, the description choice and the
    optional image tags;
  - the tag log line and its splitting;
  - the decimal timestamp text and integer parsing;
  - the `reboot` event check and the API call records.
- `snapshot_asg.dfy`: module `SnapshotAsg`.
- `snapshot_instance.dfy`: module `SnapshotInstance`.
- `snapshot_remover.dfy`: module `SnapshotRemover`. It includes a lemma
  tying it to `SnapshotAsg`: an image the ASG Lambda made at time `t` is
  deregistered exactly when `t` is before the cutoff.

Where the code and its documentation disagree, the model follows the code:

- Lines starting with `#` are dropped, not echoed (import-files.py:58-60).
- Mode detection tests `endswith('yaml')`, `endswith('yml')` and
  `endswith('json')`, with no dot. So `fooyaml` selects YAML
  (import-files.py:46-48).
- The prefix of a macro is `[ \t"'-]+`: at least one character, not an
  optional run (import-files.py:61).
- The file name of a macro is the greedy `.*`. It runs from the first
  `%%{` to the last `}%%`. Since a suffix can hold neither `}` nor `%`, at
  most one decomposition fits a line, so greedy and lazy matching agree.
  `ImportFiles.MatchMacroComplete` proves this.

## Model

| member | source | states |
|---|---|---|
| ImportFiles.SelectMode | import-files.py:45-52 | An explicit flag wins. Otherwise a name ending in `yaml` or `yml` gives YAML, else one ending in `json` gives JSON, and any other name is an error. The error happens exactly when there is no flag and no such ending. |
| ImportFiles.YmlIsYaml | import-files.py:45-47 | A template named `*.yml` behaves exactly like one given `--yaml`. |
| ImportFiles.StripLineEnd | import-files.py:57 | The result is a prefix of the line. It does not end in `\n` or `\r`, and everything removed is `\n` or `\r`. |
| ImportFiles.Escape | import-files.py:76 | Every `"` in the result is preceded by a backslash. |
| ImportFiles.UnescapeEscape | import-files.py:76 | Escaping loses nothing: undoing `"` to `\"` gives the original text back, backslashes included. |
| ImportFiles.EscapeWithoutQuotes | import-files.py:76 | Text without `"` is not changed by escaping. |
| ImportFiles.EscapeAppend | import-files.py:76 | Escaping works character by character: it distributes over concatenation. |
| ImportFiles.PrefixRun | import-files.py:61 | The prefix group is the longest run of space, tab, `"`, `'` and `-` at the start of the line. |
| ImportFiles.LastBrace | import-files.py:61 | Finds the last `}` of the text, or reports that there is none. |
| ImportFiles.MatchBody | import-files.py:61 | A match splits the rest of the line into a file name without newline, `}%%`, and a suffix of `"`, `'` and `,` only. |
| ImportFiles.MatchBodyComplete | import-files.py:61 | Every such split is found. |
| ImportFiles.MatchMacro | import-files.py:61 | A match is a decomposition of the whole line into a non-empty prefix of allowed characters, `%%{`, a name, `}%%` and a suffix of allowed characters. |
| ImportFiles.MatchMacroComplete | import-files.py:61 | Every such decomposition is the one the matcher finds. So a line has at most one. |
| ImportFiles.MatchMacroSpec | import-files.py:61 | The pattern matches exactly when the line has such a decomposition. |
| ImportFiles.Imported | import-files.py:69-78 | A file of n lines gives n lines. Line i is prefix, escaped stripped line and suffix. All but the last also get the separator, which is `,` in JSON and nothing in YAML. |
| ImportFiles.Separator | import-files.py:73-74 | The separator after every imported line but the last is `,` in JSON mode and empty in YAML mode. `Imported` and `ExampleSeparators` prove its use. |
| ImportFiles.Wrap | import-files.py:75-76 | One imported line is the prefix, then the line stripped of its line ends with its quotes escaped, then the suffix. `Imported` states the result. |
| ImportFiles.LineOutput | import-files.py:57-78 | What one template line prints, or its error. It prints nothing for a comment, the stripped line for a non-macro, the expansion for a macro, and fails for a missing file. `PlainLineEchoed`, `MacroLineExpanded` and `MacroLineMissingFile` state each case. |
| ImportFiles.Expected | import-files.py:55-78 | What a whole template prints: the line outputs in order, up to the first failure. `ExpectedAppend`, `CommentLineDropped`, `NoMacroIdentity` and `MissingFileStops` state its properties, and `Process` is proved equal to it. |
| ImportFiles.PlainLineEchoed | import-files.py:57-64 | A non-comment line that is no macro is printed once, stripped of its line ends. |
| ImportFiles.MacroLineExpanded | import-files.py:65-78 | A macro line prints exactly the expansion of its file: as many lines as the file has, none for an empty file. |
| ImportFiles.MacroLineMissingFile | import-files.py:66-69 | A macro whose file does not exist fails with that file name. |
| ImportFiles.CommentLineDropped | import-files.py:58-60 | Removing a comment line from anywhere in a template changes nothing in the output, even if the line holds a macro. |
| ImportFiles.ExpectedAppend | import-files.py:55-78 | The output of a template is the in-order concatenation of the outputs of its pieces, up to the first failure. |
| ImportFiles.NoMacroIdentity | import-files.py:55-64 | A template without comments or macros comes out line for line unchanged, only stripped. |
| ImportFiles.MissingFileStops | import-files.py:55-69 | A missing file ends the run. The lines printed before it stay printed, and nothing after it is processed. |
| ImportFiles.ExpectedSingle | import-files.py:55-78 | A one-line template prints that line's output. |
| ImportFiles.ExampleSeparators | import-files.py:72-78 | A three-line file imported with indentation gets commas on the first two lines in JSON mode, and none in YAML mode. |
| ImportFiles.ExampleQuote | import-files.py:76 | In a quoted JSON string macro, the quotes of the imported line are escaped and the suffix `",` is kept. |
| ImportFiles.ImportFile | import-files.py:69-78 | The inner loop with its carried `l2_out` prints exactly `Imported`, where the last line has no separator. The truthiness test on `l2_out` equals a "not None" test, because the prefix is never empty. |
| ImportFiles.ImportedUnique | import-files.py:72-78 | Any list with the shape of the separator rule is the expansion. |
| ImportFiles.ExpandLine | import-files.py:57-78 | The body of the outer loop computes the line output: it drops a comment, echoes a plain line, expands a macro, or fails on a missing file. |
| ImportFiles.Process | import-files.py:54-78 | The outer loop prints exactly what the specification of the template says, and stops at the first missing file. |
| ImportFiles.ExpectedFailsOnFile | import-files.py:54-69 | A run over template lines can only fail on a file that does not exist. |
| ImportFiles.RunSpec | import-files.py:45-78 | The whole program as a function: it reports that the mode is undetermined exactly when neither the flags nor the file name give a mode. In that case nothing is printed. |
| ImportFiles.Run | import-files.py:45-78 | An undetermined mode fails before any line is printed. Otherwise the program prints the template's output in the mode selected. The outcome is exactly `RunSpec`. |
| SnapshotCommon.TagMap | lambda-snapshot-asg.py:41 | The dict comprehension over the tag items, where a later item overrides an earlier one. `TagMapKeys`, `TagMapLast`, `TagMapMissing` and `TagMapConcat` characterise it. |
| SnapshotCommon.InstanceTags | lambda-snapshot-asg.py:40-43 | The tag dictionary of the first instance of the first reservation. It is empty when there is none or it has no `Tags`. `UntaggedInstance` states the swallowed case. |
| SnapshotCommon.DescriptionBase | lambda-snapshot-asg.py:45-50 | The description start: `Name`, else the stack-name tag, else the instance id. `DescriptionPriority` and `DescriptionFallback` state it against the instance's tag list, and `UntaggedInstance` covers an instance without `Tags`. |
| SnapshotCommon.OptionalTags | lambda-snapshot-asg.py:62-65 | The tags after the fixed ones number one for each of the `Name` and stack-name tags present. They carry only the keys `Name` and `StackName`. |
| SnapshotCommon.TagLogString | lambda-snapshot-asg.py:68 | The `Key=Value` texts of the tags joined by single spaces. `TagLogStringSplits` states that it splits back. |
| SnapshotCommon.ParseInt | lambda-snapshot-remover.py:27 | `int()` on a tag or variable: an optional sign and decimal digits. `ParseDecimalString` states that it reads a written timestamp back. |
| SnapshotCommon.TagMapKeys | lambda-snapshot-asg.py:41 | A key is in the tag dictionary exactly when some tag has that key. |
| SnapshotCommon.TagMapLast | lambda-snapshot-asg.py:41 | The dictionary maps a key to the value of the last tag with that key. |
| SnapshotCommon.TagMapMissing | lambda-snapshot-instance.py:27 | A key no tag carries is not in the dictionary. |
| SnapshotCommon.TagMapConcat | lambda-snapshot-asg.py:41 | The dictionary of two tag lists in sequence is the first dictionary, overridden by the second. |
| SnapshotCommon.DescriptionPriority | lambda-snapshot-asg.py:45-50 | The description is the `Name` tag if present, else the `aws:cloudformation:stack-name` tag. |
| SnapshotCommon.DescriptionFallback | lambda-snapshot-instance.py:27-36 | When no item of the instance's tag list has the key `Name` or `aws:cloudformation:stack-name`, the description is the instance id. |
| SnapshotCommon.UntaggedInstance | lambda-snapshot-asg.py:40-43 | An instance without `Tags` gives an empty dictionary, so the instance id fallback applies. |
| SnapshotCommon.AppendOptionalTags | lambda-snapshot-asg.py:62-65 | After the fixed tags, it appends `Name` exactly when the instance has a `Name` tag, then `StackName` exactly when it has a stack-name tag. |
| SnapshotCommon.OptionalTagsMap | lambda-snapshot-instance.py:47-50 | The optional tags read back give `Name` and `StackName` exactly when present, with the instance's values, and no other key. |
| SnapshotCommon.ImageTagsReadBack | lambda-snapshot-asg.py:57-65 | The image tags read back as a dictionary hold every fixed tag with its value, and hold `Name` or `StackName` exactly when the instance had it. |
| SnapshotCommon.SplitSpace | lambda-snapshot-asg.py:68 | Python's `split(' ')`, the reference inverse of the join at this line. It always yields at least one piece. |
| SnapshotCommon.SplitJoin | lambda-snapshot-asg.py:68 | Splitting a space-joined list of space-free texts gives the list back. |
| SnapshotCommon.TagLogStringSplits | lambda-snapshot-instance.py:53 | The tag log line is the `Key=Value` texts of the tags, in order, joined by single spaces. When keys and values hold no space, splitting it gives them back. |
| SnapshotCommon.DigitChar | lambda-snapshot-asg.py:34 | A digit below ten becomes the character of that digit. |
| SnapshotCommon.DecimalString | lambda-snapshot-asg.py:34 | The timestamp text is a non-empty string of decimal digits without leading zeros, and `0` is `"0"`. With `DecimalStringValue` this fixes the text. |
| SnapshotCommon.DecimalStringValue | lambda-snapshot-asg.py:34 | The timestamp text has the value of the timestamp. |
| SnapshotCommon.ParseDecimalString | lambda-snapshot-remover.py:27 | Parsing a timestamp text gives the timestamp back. |
| SnapshotCommon.RebootRequested | lambda-snapshot-asg.py:93-98 | The event is accepted exactly when it has a `reboot` key holding a boolean or an integer. Rebooting is off exactly for `false` and `0`. |
| SnapshotAsg.InServiceIds | lambda-snapshot-asg.py:22-25 | The ids of the instances whose lifecycle state is `InService`, in group order. The three lemmas below characterise it. |
| SnapshotAsg.CreateImageCall | lambda-snapshot-asg.py:52-54 | The `create_image` call: named group `_` timestamp, described by the description base, a space and the date, with `NoReboot` the negation of `reboot`. `Handler` states that it is the first call. |
| SnapshotAsg.InServiceIdsAppend | lambda-snapshot-asg.py:22-25 | The filter keeps order: on two runs of instances it gives the ids of the first run, then those of the second. |
| SnapshotAsg.InServiceIdsMembers | lambda-snapshot-asg.py:22-25 | An id is returned exactly when an instance with that id is `InService`. |
| SnapshotAsg.InServiceIdsLength | lambda-snapshot-asg.py:22-25 | No more ids than instances. |
| SnapshotAsg.FindAsgInstances | lambda-snapshot-asg.py:17-28 | The loop returns the in-service ids of the first group. When no group is returned, it fails. |
| SnapshotAsg.FixedTags | lambda-snapshot-asg.py:57-61 | The three fixed tags have distinct keys, none of them `Name` or `StackName`, so no later tag overrides them. |
| SnapshotAsg.ImageTags | lambda-snapshot-asg.py:57-65 | The tags start with `SnapshotTimestamp`, `InstanceId`, `AsgName`, in that order. The optional tags follow, for three to five in all. |
| SnapshotAsg.ImageTagsDictionary | lambda-snapshot-asg.py:57-65 | The image tags read back give the timestamp, the instance and the group. They give `Name` and `StackName` exactly when the instance had them. |
| SnapshotAsg.RewriteParameters | lambda-snapshot-asg.py:75-80 | The new parameters have the same length and order. Every other parameter is unchanged, and the matching one gets the image id. |
| SnapshotAsg.RewriteIdempotent | lambda-snapshot-asg.py:75-80 | Rewriting again with the same key and id changes nothing. |
| SnapshotAsg.Handler | lambda-snapshot-asg.py:84-113 | The gates fail in order before any call: environment, `reboot`, group found, exactly one instance in service. Then comes `create_image`: named group `_` timestamp, with the description, and `NoReboot` the negation of `reboot`. Then `create_tags` on the new image, then `update_stack` with the rewritten parameters. An unreadable stack fails after the image is made. |
| SnapshotInstance.FixedTags | lambda-snapshot-instance.py:43-46 | The two fixed tags have distinct keys, none of them `Name` or `StackName`, so no later tag overrides them. |
| SnapshotInstance.ImageTags | lambda-snapshot-instance.py:43-50 | The tags start with `SnapshotTimestamp` and `InstanceId`. The optional tags follow, for two to four in all. |
| SnapshotInstance.ImageTagsDictionary | lambda-snapshot-instance.py:43-50 | The image tags read back give the timestamp and the instance, no group. They give `Name` and `StackName` exactly when the instance had them. |
| SnapshotInstance.TagLogLine | lambda-snapshot-instance.py:53 | The log line of the image tags splits back into their `Key=Value` texts, when the instance id and tag values hold no space. |
| SnapshotInstance.CreateImageCall | lambda-snapshot-instance.py:38-40 | The `create_image` call: named instance `_` timestamp, described by the description base, a space and the date, with `NoReboot` the negation of `reboot`. `Handler` states that it is the first call. |
| SnapshotInstance.Handler | lambda-snapshot-instance.py:58-74 | A missing `instance_id` or a bad `reboot` fails before any call. Otherwise it makes exactly two calls. The first is `create_image`, named instance `_` timestamp, with `NoReboot` the negation of `reboot`. The second is `create_tags` on the new image. The handler returns the new image's id. |
| SnapshotRemover.ImageTimestamp | lambda-snapshot-remover.py:25-29 | A timestamp is read exactly when the image has tags, a `SnapshotTimestamp` tag, and an integer value. |
| SnapshotRemover.Decide | lambda-snapshot-remover.py:25-34 | An image is deregistered exactly when its timestamp is below the cutoff. It is retained exactly when the timestamp is at or above it, and skipped exactly when there is no timestamp. |
| SnapshotRemover.DecideMonotone | lambda-snapshot-remover.py:30-34 | A later cutoff deregisters everything an earlier one did. |
| SnapshotRemover.Selected | lambda-snapshot-remover.py:24-34 | The ids of the images given one decision, in input order. The lemmas below characterise it, and `DeregisterOldImages` is proved equal to it. |
| SnapshotRemover.SelectedAppend | lambda-snapshot-remover.py:24-34 | Images are handled one at a time, in input order. So the deregistered list is an in-order subsequence of the input. |
| SnapshotRemover.SelectedMembers | lambda-snapshot-remover.py:24-34 | An id is deregistered (or retained, or skipped) exactly when an image with that id gets that decision. |
| SnapshotRemover.SelectedPartition | lambda-snapshot-remover.py:24-34 | Every image is skipped, deregistered or retained, and exactly one of them. |
| SnapshotRemover.TimestampedSplit | lambda-snapshot-remover.py:30-34 | Every image with a usable timestamp is deregistered or retained. |
| SnapshotRemover.DeregisterOldImages | lambda-snapshot-remover.py:24-34 | The loop, with its `continue`s, deregisters exactly the selected images and retains exactly the others with a timestamp, in order. |
| SnapshotRemover.AsgImageDecision | lambda-snapshot-remover.py:26-34 | An image the ASG Lambda made at time `t` is deregistered exactly when `t` is before the cutoff, and retained otherwise. |
| SnapshotRemover.Cutoff | lambda-snapshot-remover.py:16-17 | The cutoff is now minus `retain_days` days of 86400 seconds. `now` is in seconds since the epoch, in the form `mktime` gives. |
| SnapshotRemover.CutoffRepresentable | lambda-snapshot-remover.py:16 | The `timedelta` stays within 999999999 days, and the cutoff date stays within years 1 to 9999. |
| SnapshotRemover.DeregisteredExactly | lambda-snapshot-remover.py:30-32 | The calls of a run are `deregister_image` calls only. One names an image exactly when some image with that id has a timestamp strictly below the cutoff. |
| SnapshotRemover.Handler | lambda-snapshot-remover.py:36-44 | A missing variable (`MissingEnvironment`) fails before any image is examined, and so does a `retain_days` that is not an integer (`RetainDaysNotInteger`). So does a cutoff outside the `timedelta` or date range, the `OverflowError` of line 16. Otherwise the calls are exactly the `deregister_image` calls of the images older than the cutoff, in order. |

## Left out

- AWS itself. Each boto3 response is an input and each changing call is a
  record.
- AWS calls never raise. The only modelled service failures are an empty
  list of groups and an unreadable stack. In the source, a failing
  `deregister_image` (lambda-snapshot-remover.py:32) ends the loop
  early. A failing `create_image` or `create_tags` ends the handler early. The filters of `describe_images` (`tag:AsgName`, `tag-key`) are
  applied by the service, so their result is the input.
- The clock. `datetime.now()` and `strftime('%s')` become a number of
  seconds and its decimal text. The description date is an input string.
  `now` is the clock in seconds since the epoch, as `mktime` reads the
  local time back.
- `SnapshotRemover.Cutoff`: the cutoff is `now - retain_days * 86400`, which is exact only when the local offset from UTC is the same at both dates. Under UTC, the default zone of a Lambda, it always is. A daylight-saving change between the cutoff date and now shifts `mktime`'s result by the daylight-saving offset, and the model does not capture that shift.
- `SnapshotRemover.Handler`: `time.mktime`'s own platform limits are not modelled. The date range bounds of `CutoffRepresentable` are in seconds from 1970-01-01 00:00:00 UTC, so they ignore the local time-zone offset.
- Logging and `print` output of the Lambdas, including the retain message.
  That message reads `Name` and `CreationDate`, which images made by
  `create_image` always have.
- The process layer of `import-files.py`:
  - `argparse`;
  - opening and reading the files, where imports are a map from name to lines;
  - the standard error message and exit code of an unknown mode;
  - the unused `lineno` counter.
  With both `--json` and `--yaml`, the last one given is the flag.
- Encodings: a string is a sequence of characters, with no UTF-8 decoding.
- `SnapshotCommon.ParseInt`: accepts an optional sign and ASCII digits only. It is weaker than Python `int()`, which also takes surrounding whitespace, underscores and non-ASCII digits.
- `SnapshotCommon.RebootRequested`: the default `True` of `event.get` is never used, because the next line demands the key. JSON numbers with a fraction, and other types, are rejected.
- Tag items without `Key` or `Value`. The comprehension would raise, which `create_image` swallows and the remover treats as a skip. The model's tags always have both.
- The exception kinds and messages of the handlers. They are error values.
- `lambda-launcher-eip.py` and `lambda-launcher-dns.py`: they only sequence AWS calls.
