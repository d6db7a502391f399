/** The template import pre-processor: one forward pass over the lines of a
    JSON or YAML template that replaces every `%%{file}%%` macro line by the
    quoted lines of `file`.

    The template and each imported file are given as the lines `readlines()`
    returns (line terminators still attached); the files the macros may name
    are a map from file name to those lines, and a name missing from the map
    is a file that cannot be opened. */
module ImportFiles {
  import opened Wrappers

  datatype Mode = Json | Yaml

  datatype ImportError = ModeUndetermined | FileNotFound(name: string)

  /** What a run leaves behind: the lines printed to standard output, in
      order, and the error that stopped it, if any.  Output is streamed, so
      lines printed before an error stay printed. */
  datatype Outcome = Outcome(output: seq<string>, error: Option<ImportError>)

  // ---------------------------------------------------------------------
  // Mode selection
  // ---------------------------------------------------------------------

  predicate EndsWith(s: string, suffix: string) {
    |suffix| <= |s| && s[|s| - |suffix|..] == suffix
  }

  /** An explicit `--json`/`--yaml` (the last one given, as argparse stores
      both into one destination) wins; otherwise the name of the template
      decides, checked for `yaml`/`yml` before `json`.  The test is
      `endswith` on the bare word, so no dot is required. */
  function SelectMode(flag: Option<Mode>, fileName: string): (r: Result<Mode, ImportError>)
    ensures flag.Some? ==> r == Success(flag.value)
    ensures flag.None? ==>
      (r == Success(Yaml) <==> EndsWith(fileName, "yaml") || EndsWith(fileName, "yml"))
    ensures flag.None? ==>
      (r == Success(Json) <==>
        EndsWith(fileName, "json") && !EndsWith(fileName, "yaml") && !EndsWith(fileName, "yml"))
    ensures r.Failure? <==>
      flag.None? && !EndsWith(fileName, "yaml") && !EndsWith(fileName, "yml") && !EndsWith(fileName, "json")
    ensures r.Failure? ==> r.error == ModeUndetermined
  {
    match flag
    case Some(m) => Success(m)
    case None =>
      if EndsWith(fileName, "yaml") || EndsWith(fileName, "yml") then Success(Yaml)
      else if EndsWith(fileName, "json") then Success(Json)
      else Failure(ModeUndetermined)
  }

  // ---------------------------------------------------------------------
  // Line terminators, comments and escaping
  // ---------------------------------------------------------------------

  predicate IsLineEnd(c: char) { c == '\n' || c == '\r' }

  /** `rstrip('\n\r')`: removes every trailing newline and carriage return,
      and nothing else. */
  function StripLineEnd(s: string): (r: string)
    ensures r <= s
    ensures r == [] || !IsLineEnd(r[|r| - 1])
    ensures forall k :: |r| <= k < |s| ==> IsLineEnd(s[k])
  {
    if |s| > 0 && IsLineEnd(s[|s| - 1]) then StripLineEnd(s[..|s| - 1]) else s
  }

  predicate IsComment(line: string) { |line| > 0 && line[0] == '#' }

  /** `replace('"', '\\"')`: every double quote gets a backslash in front. */
  function Escape(s: string): (r: string)
    ensures forall k :: 0 <= k < |r| && r[k] == '"' ==> 0 < k && r[k - 1] == '\\'
  {
    if s == [] then []
    else (if s[0] == '"' then ['\\', '"'] else [s[0]]) + Escape(s[1..])
  }

  /** The inverse of `Escape`: `\"` becomes `"`, every other character,
      backslashes included, is kept. */
  function Unescape(s: string): string {
    if s == [] then []
    else if |s| >= 2 && s[0] == '\\' && s[1] == '"' then ['"'] + Unescape(s[2..])
    else [s[0]] + Unescape(s[1..])
  }

  /** Escaping loses nothing: the original imported line can be recovered. */
  lemma {:induction false} UnescapeEscape(s: string)
    ensures Unescape(Escape(s)) == s
  {
    if s != [] {
      UnescapeEscape(s[1..]);
      var t := Escape(s[1..]);
      if s[0] == '"' {
        assert Escape(s) == ['\\', '"'] + t;
        assert (['\\', '"'] + t)[2..] == t;
      } else {
        assert Escape(s) == [s[0]] + t;
        assert ([s[0]] + t)[1..] == t;
        // A quote in `t` is always preceded by a backslash inside `t`, so `t`
        // cannot start with one and `s[0]` never pairs with it.
        assert t == [] || t[0] != '"';
      }
    }
  }

  /** Escaping changes only double quotes: a line without one is kept as it is. */
  lemma {:induction false} EscapeWithoutQuotes(s: string)
    requires forall k :: 0 <= k < |s| ==> s[k] != '"'
    ensures Escape(s) == s
  {
    if s != [] {
      EscapeWithoutQuotes(s[1..]);
      assert [s[0]] + s[1..] == s;
    }
  }

  /** Escaping works character by character, so it distributes over concatenation. */
  lemma {:induction false} EscapeAppend(a: string, b: string)
    ensures Escape(a + b) == Escape(a) + Escape(b)
  {
    if a == [] {
      assert a + b == b;
    } else {
      assert (a + b)[0] == a[0];
      assert (a + b)[1..] == a[1..] + b;
      EscapeAppend(a[1..], b);
    }
  }

  // ---------------------------------------------------------------------
  // The macro pattern ^([ \t"'-]+)%%{(.*)}%%(["',]*)$
  // ---------------------------------------------------------------------

  predicate IsPrefixChar(c: char) { c == ' ' || c == '\t' || c == '"' || c == '\'' || c == '-' }

  predicate IsSuffixChar(c: char) { c == '"' || c == '\'' || c == ',' }

  /** The three groups of a macro match. */
  datatype Macro = Macro(prefix: string, fileName: string, suffix: string)

  /** `line` is matched, as a whole, by the macro pattern with these groups:
      a non-empty prefix of space, tab, quote, apostrophe and dash; `%%{`; a
      file name of any characters but a newline (`.` does not match one);
      `}%%`; and a suffix of quotes, apostrophes and commas.  `$` could also
      match before a final newline, but the line has been stripped of those. */
  predicate IsMacro(line: string, m: Macro) {
    && line == m.prefix + "%%{" + m.fileName + "}%%" + m.suffix
    && |m.prefix| > 0
    && (forall k :: 0 <= k < |m.prefix| ==> IsPrefixChar(m.prefix[k]))
    && (forall k :: 0 <= k < |m.fileName| ==> m.fileName[k] != '\n')
    && (forall k :: 0 <= k < |m.suffix| ==> IsSuffixChar(m.suffix[k]))
  }

  /** The length of the longest run of prefix characters `s` starts with. */
  function PrefixRun(s: string): (n: nat)
    ensures n <= |s|
    ensures forall k :: 0 <= k < n ==> IsPrefixChar(s[k])
    ensures n == |s| || !IsPrefixChar(s[n])
  {
    if s != [] && IsPrefixChar(s[0]) then 1 + PrefixRun(s[1..]) else 0
  }

  /** The position of the last `}` in `s`, if any. */
  function LastBrace(s: string): (r: Option<nat>)
    ensures r.Some? ==> r.value < |s| && s[r.value] == '}'
    ensures r.Some? ==> forall k :: r.value < k < |s| ==> s[k] != '}'
    ensures r.None? ==> forall k :: 0 <= k < |s| ==> s[k] != '}'
  {
    if s == [] then None
    else if s[|s| - 1] == '}' then Some(|s| - 1)
    else LastBrace(s[..|s| - 1])
  }

  predicate AllSuffixChars(s: string) { forall k :: 0 <= k < |s| ==> IsSuffixChar(s[k]) }

  predicate NoNewline(s: string) { forall k :: 0 <= k < |s| ==> s[k] != '\n' }

  /** The part of a macro line after `%%{`: the file name and the suffix.
      No suffix character is `}`, so the `}%%` that ends the file name is at
      the last `}`, which is where the greedy `.*` stops. */
  function MatchBody(body: string): (r: Option<(string, string)>)
    ensures r.Some? ==> body == r.value.0 + "}%%" + r.value.1
    ensures r.Some? ==> NoNewline(r.value.0) && AllSuffixChars(r.value.1)
  {
    match LastBrace(body)
    case None => None
    case Some(j) =>
      if j + 3 <= |body| && body[j..j + 3] == "}%%" && AllSuffixChars(body[j + 3..]) && NoNewline(body[..j])
      then
        assert body == body[..j] + body[j..j + 3] + body[j + 3..];
        Some((body[..j], body[j + 3..]))
      else None
  }

  lemma MatchBodyComplete(name: string, suffix: string)
    requires NoNewline(name) && AllSuffixChars(suffix)
    ensures MatchBody(name + "}%%" + suffix) == Some((name, suffix))
  {
    var body := name + "}%%" + suffix;
    forall k | |name| < k < |body| ensures body[k] != '}' {
      if k >= |name| + 3 {
        assert body[k] == suffix[k - |name| - 3];
      }
    }
    LastBraceAt(body, |name|);
    assert body[|name|..|name| + 3] == "}%%" && body[..|name|] == name && body[|name| + 3..] == suffix;
  }

  /** `re.match` of the macro pattern, by hand.  No prefix character is `%`,
      so the prefix is the whole leading run of prefix characters. */
  function MatchMacro(line: string): (r: Option<Macro>)
    ensures r.Some? ==> IsMacro(line, r.value)
  {
    var p := PrefixRun(line);
    if p == 0 || |line| < p + 3 || line[p..p + 3] != "%%{" then None
    else
      match MatchBody(line[p + 3..])
      case None => None
      case Some((name, suffix)) =>
        assert line == line[..p] + line[p..p + 3] + line[p + 3..];
        Some(Macro(line[..p], name, suffix))
  }

  /** The matcher finds every macro, and with the same groups: the groups of a
      matching line are unique, so the greedy file name of the pattern and a
      non-greedy one would capture the same text. */
  lemma MatchMacroComplete(line: string, m: Macro)
    requires IsMacro(line, m)
    ensures MatchMacro(line) == Some(m)
  {
    var P := m.prefix;
    var body := m.fileName + "}%%" + m.suffix;
    assert line == P + "%%{" + body;
    assert line[..|P|] == P && line[|P|..|P| + 3] == "%%{" && line[|P| + 3..] == body;
    PrefixRunStops(line, |P|);
    MatchBodyComplete(m.fileName, m.suffix);
  }

  lemma PrefixRunStops(s: string, n: nat)
    requires n < |s| && !IsPrefixChar(s[n])
    requires forall k :: 0 <= k < n ==> IsPrefixChar(s[k])
    ensures PrefixRun(s) == n
  {
  }

  lemma LastBraceAt(s: string, j: nat)
    requires j < |s| && s[j] == '}'
    requires forall k :: j < k < |s| ==> s[k] != '}'
    ensures LastBrace(s) == Some(j)
  {
  }

  /** A line matches the macro pattern exactly when the matcher returns its groups. */
  lemma MatchMacroSpec(line: string)
    ensures MatchMacro(line).Some? <==> exists m :: IsMacro(line, m)
  {
    if exists m :: IsMacro(line, m) {
      var m :| IsMacro(line, m);
      MatchMacroComplete(line, m);
    }
  }

  // ---------------------------------------------------------------------
  // Expanding one line
  // ---------------------------------------------------------------------

  /** `args.mode == 'json' and ',' or ''`: the separator written after
      every imported line but the last. */
  function Separator(mode: Mode): string {
    if mode == Json then "," else ""
  }

  /** One imported line, stripped, escaped and wrapped in the macro's prefix and suffix. */
  function Wrap(m: Macro, raw: string): string {
    m.prefix + Escape(StripLineEnd(raw)) + m.suffix
  }

  /** The lines a macro expands into, given the imported file's lines. */
  function Imported(m: Macro, mode: Mode, fileLines: seq<string>): (r: seq<string>)
    ensures |r| == |fileLines|
    ensures forall i :: 0 <= i < |fileLines| - 1 ==> r[i] == Wrap(m, fileLines[i]) + Separator(mode)
    ensures |fileLines| > 0 ==> r[|r| - 1] == Wrap(m, fileLines[|fileLines| - 1])
  {
    if |fileLines| == 0 then []
    else if |fileLines| == 1 then [Wrap(m, fileLines[0])]
    else [Wrap(m, fileLines[0]) + Separator(mode)] + Imported(m, mode, fileLines[1..])
  }

  /** What one template line prints: nothing for a comment (even one that
      holds a macro), the stripped line itself when it is no macro, the
      expansion of a macro, or the error of a macro whose file is missing. */
  function LineOutput(mode: Mode, files: map<string, seq<string>>, raw: string): Result<seq<string>, ImportError> {
    var line := StripLineEnd(raw);
    if IsComment(line) then Success([])
    else
      match MatchMacro(line)
      case None => Success([line])
      case Some(m) =>
        if m.fileName in files then Success(Imported(m, mode, files[m.fileName]))
        else Failure(FileNotFound(m.fileName))
  }

  /** A template line that is neither a comment nor a macro once stripped. */
  ghost predicate PlainLine(raw: string) {
    !IsComment(StripLineEnd(raw)) && forall m :: !IsMacro(StripLineEnd(raw), m)
  }

  /** A non-comment line that no macro decomposition fits is printed once, as it is after stripping. */
  lemma PlainLineEchoed(mode: Mode, files: map<string, seq<string>>, raw: string)
    requires PlainLine(raw)
    ensures LineOutput(mode, files, raw) == Success([StripLineEnd(raw)])
  {
  }

  /** A non-comment macro line prints exactly the expansion of its file:
      as many lines as the file has, none for an empty file. */
  lemma MacroLineExpanded(mode: Mode, files: map<string, seq<string>>, raw: string, m: Macro)
    requires !IsComment(StripLineEnd(raw)) && IsMacro(StripLineEnd(raw), m)
    requires m.fileName in files
    ensures LineOutput(mode, files, raw) == Success(Imported(m, mode, files[m.fileName]))
    ensures |LineOutput(mode, files, raw).value| == |files[m.fileName]|
  {
    MatchMacroComplete(StripLineEnd(raw), m);
  }

  /** A non-comment macro line naming a file that cannot be opened fails, printing nothing. */
  lemma MacroLineMissingFile(mode: Mode, files: map<string, seq<string>>, raw: string, m: Macro)
    requires !IsComment(StripLineEnd(raw)) && IsMacro(StripLineEnd(raw), m)
    requires m.fileName !in files
    ensures LineOutput(mode, files, raw) == Failure(FileNotFound(m.fileName))
  {
    MatchMacroComplete(StripLineEnd(raw), m);
  }

  // ---------------------------------------------------------------------
  // The whole pass
  // ---------------------------------------------------------------------

  /** Lines already printed, followed by what the rest of the run prints. */
  function Then(printed: seq<string>, rest: Outcome): Outcome {
    Outcome(printed + rest.output, rest.error)
  }

  /** What a run over the template lines prints: the outputs of the lines in
      order, up to the first line that fails. */
  function Expected(mode: Mode, files: map<string, seq<string>>, lines: seq<string>): Outcome {
    if lines == [] then Outcome([], None)
    else
      match LineOutput(mode, files, lines[0])
      case Failure(e) => Outcome([], Some(e))
      case Success(out) => Then(out, Expected(mode, files, lines[1..]))
  }

  /** A run over two pieces of a template is the run over the first piece,
      continued by the run over the second unless the first one failed. */
  lemma {:induction false} ExpectedAppend(mode: Mode, files: map<string, seq<string>>, a: seq<string>, b: seq<string>)
    ensures Expected(mode, files, a + b) ==
      (var ea := Expected(mode, files, a);
       if ea.error.Some? then ea else Then(ea.output, Expected(mode, files, b)))
  {
    if a == [] {
      assert a + b == b;
    } else {
      assert (a + b)[0] == a[0];
      assert (a + b)[1..] == a[1..] + b;
      var first := LineOutput(mode, files, a[0]);
      if first.Success? {
        ExpectedAppend(mode, files, a[1..], b);
        var rest := Expected(mode, files, a[1..]);
        assert Expected(mode, files, a) == Then(first.value, rest);
        if rest.error.None? {
          assert first.value + (rest.output + Expected(mode, files, b).output)
              == (first.value + rest.output) + Expected(mode, files, b).output;
        }
      }
    }
  }

  /** A comment line prints nothing wherever it stands, whatever it contains. */
  lemma CommentLineDropped(mode: Mode, files: map<string, seq<string>>, a: seq<string>, c: string, b: seq<string>)
    requires IsComment(StripLineEnd(c))
    ensures Expected(mode, files, a + [c] + b) == Expected(mode, files, a + b)
  {
    ExpectedAppend(mode, files, a, [c] + b);
    ExpectedAppend(mode, files, a, b);
    assert a + [c] + b == a + ([c] + b);
    assert ([c] + b)[1..] == b;
  }

  /** A template without comments and macros comes out unchanged, each line
      stripped of its line terminators. */
  lemma {:induction false} NoMacroIdentity(mode: Mode, files: map<string, seq<string>>, lines: seq<string>)
    requires forall i :: 0 <= i < |lines| ==> PlainLine(lines[i])
    ensures Expected(mode, files, lines) == Outcome(seq(|lines|, i requires 0 <= i < |lines| => StripLineEnd(lines[i])), None)
  {
    if lines != [] {
      var rest := lines[1..];
      assert forall i :: 0 <= i < |rest| ==> rest[i] == lines[i + 1];
      NoMacroIdentity(mode, files, rest);
      PlainLineEchoed(mode, files, lines[0]);
      var outs := seq(|lines|, i requires 0 <= i < |lines| => StripLineEnd(lines[i]));
      assert outs == [StripLineEnd(lines[0])] + seq(|rest|, i requires 0 <= i < |rest| => StripLineEnd(rest[i]));
    }
  }

  /** A missing file stops the run at its macro line: everything before it is
      printed, nothing for that line, nothing after it. */
  lemma MissingFileStops(mode: Mode, files: map<string, seq<string>>, a: seq<string>, raw: string, b: seq<string>, m: Macro)
    requires Expected(mode, files, a).error.None?
    requires !IsComment(StripLineEnd(raw)) && IsMacro(StripLineEnd(raw), m)
    requires m.fileName !in files
    ensures Expected(mode, files, a + [raw] + b) == Outcome(Expected(mode, files, a).output, Some(FileNotFound(m.fileName)))
  {
    MacroLineMissingFile(mode, files, raw, m);
    assert a + [raw] + b == a + ([raw] + b);
    ExpectedAppend(mode, files, a, [raw] + b);
  }

  // ---------------------------------------------------------------------
  // The program
  // ---------------------------------------------------------------------

  /** `if l2_out:` tests the truthiness of a string that may be `None`. */
  predicate Truthy(s: Option<string>) { s.Some? && s.value != "" }

  /** The inner loop: prints each imported line once the next one is seen, so
      that every line but the last gets the separator. */
  method ImportFile(m: Macro, mode: Mode, fileLines: seq<string>) returns (printed: seq<string>)
    requires |m.prefix| > 0
    ensures printed == Imported(m, mode, fileLines)
  {
    printed := [];
    var l2Out: Option<string> := None;
    for j := 0 to |fileLines|
      invariant l2Out.None? <==> j == 0
      invariant j > 0 ==> l2Out == Some(Wrap(m, fileLines[j - 1]))
      invariant |printed| == if j == 0 then 0 else j - 1
      invariant forall k :: 0 <= k < |printed| ==> printed[k] == Wrap(m, fileLines[k]) + Separator(mode)
    {
      if Truthy(l2Out) {
        printed := printed + [l2Out.value + Separator(mode)];
      }
      var l2 := StripLineEnd(fileLines[j]);
      l2Out := Some(m.prefix + Escape(l2) + m.suffix);
    }
    if Truthy(l2Out) {
      printed := printed + [l2Out.value];
    }
    ImportedUnique(m, mode, fileLines, printed);
  }

  /** A list of lines with the shape `Imported` promises is that list. */
  lemma ImportedUnique(m: Macro, mode: Mode, fileLines: seq<string>, printed: seq<string>)
    requires |printed| == |fileLines|
    requires forall k :: 0 <= k < |fileLines| - 1 ==> printed[k] == Wrap(m, fileLines[k]) + Separator(mode)
    requires |fileLines| > 0 ==> printed[|printed| - 1] == Wrap(m, fileLines[|fileLines| - 1])
    ensures printed == Imported(m, mode, fileLines)
  {
    var r := Imported(m, mode, fileLines);
    forall k | 0 <= k < |printed| ensures printed[k] == r[k] {
      if k < |fileLines| - 1 {
        assert r[k] == Wrap(m, fileLines[k]) + Separator(mode);
      }
    }
  }

  /** The body of the outer loop for one template line: skip a comment,
      echo a plain line, expand a macro, or fail on a missing file. */
  method ExpandLine(mode: Mode, files: map<string, seq<string>>, raw: string) returns (r: Result<seq<string>, ImportError>)
    ensures r == LineOutput(mode, files, raw)
  {
    var line := StripLineEnd(raw);
    if IsComment(line) {
      return Success([]);
    }
    var found := MatchMacro(line);
    if found.None? {
      return Success([line]);
    }
    var m := found.value;
    if m.fileName !in files {
      return Failure(FileNotFound(m.fileName));
    }
    var emitted := ImportFile(m, mode, files[m.fileName]);
    return Success(emitted);
  }

  /** The outer loop over the template, in the given mode: the lines are
      printed in order, up to the first line that fails. */
  method Process(mode: Mode, files: map<string, seq<string>>, lines: seq<string>) returns (printed: seq<string>, error: Option<ImportError>)
    ensures Outcome(printed, error) == Expected(mode, files, lines)
  {
    printed := [];
    error := None;
    for i := 0 to |lines|
      invariant Expected(mode, files, lines) == Then(printed, Expected(mode, files, lines[i..]))
    {
      ExpectedStep(mode, files, lines, i);
      var out := ExpandLine(mode, files, lines[i]);
      if out.Failure? {
        error := Some(out.error);
        return;
      }
      ThenAppend(printed, out.value, Expected(mode, files, lines[i + 1..]));
      printed := printed + out.value;
    }
    assert lines[|lines|..] == [];
  }

  /** Printing `a` and then `b` before an outcome is printing `a + b` before it. */
  lemma ThenAppend(a: seq<string>, b: seq<string>, rest: Outcome)
    ensures Then(a, Then(b, rest)) == Then(a + b, rest)
  {
    assert a + (b + rest.output) == (a + b) + rest.output;
  }

  /** One step of `Expected` on the remainder of the template from line `i`. */
  lemma ExpectedStep(mode: Mode, files: map<string, seq<string>>, lines: seq<string>, i: nat)
    requires i < |lines|
    ensures Expected(mode, files, lines[i..]) ==
      match LineOutput(mode, files, lines[i])
      case Failure(e) => Outcome([], Some(e))
      case Success(out) => Then(out, Expected(mode, files, lines[i + 1..]))
  {
    assert lines[i..][0] == lines[i];
    assert lines[i..][1..] == lines[i + 1..];
  }

  /** A run over template lines fails only on a missing file. */
  lemma {:induction false} ExpectedFailsOnFile(mode: Mode, files: map<string, seq<string>>, lines: seq<string>)
    ensures Expected(mode, files, lines).error.Some? ==> Expected(mode, files, lines).error.value.FileNotFound?
  {
    if lines != [] {
      ExpectedFailsOnFile(mode, files, lines[1..]);
    }
  }

  /** What the whole program prints for a template named `fileName`.  The
      mode error is raised exactly when no mode can be determined. */
  function RunSpec(flag: Option<Mode>, fileName: string, files: map<string, seq<string>>, lines: seq<string>): (r: Outcome)
    ensures r.error == Some(ModeUndetermined) <==> SelectMode(flag, fileName).Failure?
    ensures r.error == Some(ModeUndetermined) ==> r.output == []
  {
    match SelectMode(flag, fileName)
    case Failure(e) => Outcome([], Some(e))
    case Success(mode) =>
      ExpectedFailsOnFile(mode, files, lines);
      Expected(mode, files, lines)
  }

  /** The program: select the mode, then process the template.  An unknown
      mode is reported before any line is printed. */
  method Run(flag: Option<Mode>, fileName: string, files: map<string, seq<string>>, lines: seq<string>)
    returns (printed: seq<string>, error: Option<ImportError>)
    ensures SelectMode(flag, fileName).Failure? ==> printed == [] && error == Some(ModeUndetermined)
    ensures SelectMode(flag, fileName).Success? ==>
      Outcome(printed, error) == Expected(SelectMode(flag, fileName).value, files, lines)
    ensures Outcome(printed, error) == RunSpec(flag, fileName, files, lines)
  {
    var mode := SelectMode(flag, fileName);
    if mode.Failure? {
      return [], Some(mode.error);
    }
    printed, error := Process(mode.value, files, lines);
  }

  /** A template whose name ends in `.yml` behaves as under an explicit `--yaml`. */
  lemma YmlIsYaml(fileName: string, other: string, files: map<string, seq<string>>, lines: seq<string>)
    requires EndsWith(fileName, ".yml")
    ensures RunSpec(None, fileName, files, lines) == RunSpec(Some(Yaml), other, files, lines)
  {
    assert fileName[|fileName| - 3..] == fileName[|fileName| - 4..][1..];
  }

  // ---------------------------------------------------------------------
  // Worked examples
  // ---------------------------------------------------------------------

  /** A template of one line prints what that line prints. */
  lemma ExpectedSingle(mode: Mode, files: map<string, seq<string>>, raw: string)
    requires LineOutput(mode, files, raw).Success?
    ensures Expected(mode, files, [raw]) == Outcome(LineOutput(mode, files, raw).value, None)
  {
    assert [raw][1..] == [];
  }

  /** An indented macro over the file `f` with lines `a`, `b`, `c`: commas
      after all but the last line in JSON mode, none in YAML mode. */
  lemma ExampleSeparators()
    ensures Expected(Json, map["f" := ["a\n", "b\n", "c"]], ["  %%{f}%%\n"]) == Outcome(["  a,", "  b,", "  c"], None)
    ensures Expected(Yaml, map["f" := ["a\n", "b\n", "c"]], ["  %%{f}%%\n"]) == Outcome(["  a", "  b", "  c"], None)
  {
    var files := map["f" := ["a\n", "b\n", "c"]];
    var m := Macro("  ", "f", "");
    ExampleMacroLine("  %%{f}%%\n", "  %%{f}%%", m);
    ImportedLetters(m);
    MacroLineExpanded(Json, files, "  %%{f}%%\n", m);
    MacroLineExpanded(Yaml, files, "  %%{f}%%\n", m);
    ExpectedSingle(Json, files, "  %%{f}%%\n");
    ExpectedSingle(Yaml, files, "  %%{f}%%\n");
  }

  lemma ExampleMacroLine(raw: string, line: string, m: Macro)
    requires raw == "  %%{f}%%\n" && line == "  %%{f}%%" && m == Macro("  ", "f", "")
    ensures StripLineEnd(raw) == line && !IsComment(line) && IsMacro(line, m)
  {
    assert raw[..|raw| - 1] == line;
  }

  lemma ImportedLetters(m: Macro)
    requires m == Macro("  ", "f", "")
    ensures Imported(m, Json, ["a\n", "b\n", "c"]) == ["  a,", "  b,", "  c"]
    ensures Imported(m, Yaml, ["a\n", "b\n", "c"]) == ["  a", "  b", "  c"]
  {
    WrapLetters(m);
    var fl := ["a\n", "b\n", "c"];
    var j, y := Imported(m, Json, fl), Imported(m, Yaml, fl);
    assert j[0] == "  a," && j[1] == "  b," && j[2] == "  c";
    assert y[0] == "  a" && y[1] == "  b" && y[2] == "  c";
  }

  lemma WrapLetters(m: Macro)
    requires m == Macro("  ", "f", "")
    ensures Wrap(m, "a\n") == "  a" && Wrap(m, "b\n") == "  b" && Wrap(m, "c") == "  c"
  {
    assert "a\n"[..1] == "a" && "b\n"[..1] == "b";
    assert Escape("a") == "a" && Escape("b") == "b" && Escape("c") == "c";
  }

  /** A quote inside an imported line is escaped: the line `"x"` imported
      by `"%%{q}%%",` becomes `"\"x\"",`. */
  lemma ExampleQuote()
    ensures Expected(Json, map["q" := ["\"x\""]], ["\"%%{q}%%\","]) == Outcome(["\"\\\"x\\\"\","], None)
  {
    var files := map["q" := ["\"x\""]];
    var m := Macro("\"", "q", "\",");
    ExampleQuoteLine("\"%%{q}%%\",", m);
    assert Wrap(m, "\"x\"") == "\"\\\"x\\\"\"," by {
      assert Escape("\"x\"") == "\\\"x\\\"";
    }
    MacroLineExpanded(Json, files, "\"%%{q}%%\",", m);
    ExpectedSingle(Json, files, "\"%%{q}%%\",");
  }

  lemma ExampleQuoteLine(line: string, m: Macro)
    requires line == "\"%%{q}%%\"," && m == Macro("\"", "q", "\",")
    ensures StripLineEnd(line) == line && !IsComment(line) && IsMacro(line, m)
  {
  }
}
