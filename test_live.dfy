/** The `.env` loading of the live test script (`scripts/test-live.ts`) and the
    configuration it derives from the environment.

    The script reads `.env` once, line by line, and copies each `KEY=value` assignment into
    the process environment unless that variable already holds a non-empty value. The file
    may be missing, in which case nothing happens. The environment is the object
    `ProcessEnv`, whose one field the loading loop updates in place. */
module TestLive {
  import opened Wrappers
  import opened Text
  import PlexConfig

  /** What one line of the file assigns, if anything: after trimming the line, blank lines,
      comments (`#` first) and lines without `=` assign nothing; otherwise the key is the
      trimmed text before the first `=` and the value the trimmed rest, which may itself
      contain `=`. */
  function ParseLine(line: string): Option<(string, string)> {
    var t := Trim(line);
    if t == [] || t[0] == '#' then None
    else
      var eq := IndexOf(t, '=');
      if eq == -1 then None else Some((Trim(t[..eq]), Trim(t[eq + 1..])))
  }

  /** What `ParseLine` recognises: a trimmed line that is not blank, not a comment and holds
      an `=`; it splits at the first `=` and trims both sides. */
  lemma ParseLineMeaning(line: string)
    ensures var t := Trim(line);
            ParseLine(line).None? <==> t == [] || t[0] == '#' || '=' !in t
    ensures var t := Trim(line);
            ParseLine(line).Some? ==> exists i | 0 <= i < |t| ::
              t[i] == '=' && '=' !in t[..i] && ParseLine(line).value == (Trim(t[..i]), Trim(t[i + 1..]))
  {
  }

  /** The file may set `key`: it is not in the environment, or holds the empty string. */
  predicate MayWrite(env: map<string, string>, key: string) {
    key !in env || env[key] == ""
  }

  /** `key` set to `value` unless it already holds a non-empty value. */
  function SetUnlessSet(env: map<string, string>, key: string, value: string): (r: map<string, string>)
    ensures r.Keys == env.Keys + {key}
    ensures r[key] == if MayWrite(env, key) then value else env[key]
    ensures forall k | k in env && k != key :: r[k] == env[k]
  {
    if MayWrite(env, key) then env[key := value] else env
  }

  /** The environment after one parsed line: an assignment, or nothing. */
  function Assign(env: map<string, string>, a: Option<(string, string)>): map<string, string> {
    match a
    case None => env
    case Some(kv) => SetUnlessSet(env, kv.0, kv.1)
  }

  /** The environment after one line of the file. */
  function ApplyLine(env: map<string, string>, line: string): map<string, string> {
    Assign(env, ParseLine(line))
  }

  /** A line that parses to an assignment sets its key unless already set. */
  lemma ParsedLineSets(env: map<string, string>, line: string, key: string, value: string)
    requires ParseLine(line) == Some((key, value))
    ensures ApplyLine(env, line) == SetUnlessSet(env, key, value)
  {
  }

  /** The steps of the loop body for an assignment line give `ApplyLine`. */
  lemma AssignmentLineSets(env: map<string, string>, line: string, trimmed: string, eqIdx: int, key: string, value: string)
    requires trimmed == Trim(line) && trimmed != [] && trimmed[0] != '#'
    requires eqIdx == IndexOf(trimmed, '=') && eqIdx != -1
    requires key == Trim(trimmed[..eqIdx]) && value == Trim(trimmed[eqIdx + 1..])
    ensures ApplyLine(env, line) == SetUnlessSet(env, key, value)
  {
    assert ParseLine(line) == Some((key, value));
  }

  /** The environment after the given lines, in order. */
  function ApplyLines(env: map<string, string>, lines: seq<string>): map<string, string>
    decreases |lines|
  {
    if lines == [] then env else ApplyLine(ApplyLines(env, lines[..|lines| - 1]), lines[|lines| - 1])
  }

  /** The environment after loading `file` (`None`: the file could not be read). */
  function LoadedEnv(env: map<string, string>, file: Option<string>): map<string, string> {
    if file.None? then env else ApplyLines(env, Split(file.value, '\n'))
  }

  /** The process environment. */
  class ProcessEnv {
    var vars: map<string, string>

    constructor(initial: map<string, string>)
      ensures vars == initial
    {
      vars := initial;
    }

    /** Loads `.env` into the environment, given the file's text or `None` when reading it
        failed. */
    method LoadDotEnv(file: Option<string>)
      modifies this
      ensures vars == LoadedEnv(old(vars), file)
      ensures file.None? ==> vars == old(vars)
    {
      if file.None? {
        return;
      }
      var lines := Split(file.value, '\n');
      var i := 0;
      while i < |lines|
        invariant 0 <= i <= |lines|
        invariant vars == ApplyLines(old(vars), lines[..i])
      {
        assert lines[..i + 1][..i] == lines[..i];
        ApplyDotEnvLine(lines[i]);
        i := i + 1;
      }
      assert lines[..i] == lines;
    }

    /** One pass of the loop: skips blank, comment and `=`-less lines, and otherwise sets
        the key unless it already holds a non-empty value. */
    method ApplyDotEnvLine(line: string)
      modifies this
      ensures vars == ApplyLine(old(vars), line)
    {
      var env := vars;
      var trimmed := Trim(line);
      if trimmed == [] || trimmed[0] == '#' {
        SkippedLineLeavesEnv(env, line);
        return;
      }
      var eqIdx := IndexOf(trimmed, '=');
      if eqIdx == -1 {
        SkippedLineLeavesEnv(env, line);
        return;
      }
      var key := Trim(trimmed[..eqIdx]);
      var value := Trim(trimmed[eqIdx + 1..]);
      AssignmentLineSets(env, line, trimmed, eqIdx, key, value);
      if key !in env || env[key] == "" {
        env := env[key := value];
      }
      vars := env;
    }
  }

  // ---------------------------------------------------------------------------
  // Properties of the loader
  // ---------------------------------------------------------------------------

  /** Blank lines, comments and lines without `=` change nothing. */
  lemma SkippedLineLeavesEnv(env: map<string, string>, line: string)
    requires Trim(line) == [] || Trim(line)[0] == '#' || '=' !in Trim(line)
    ensures ApplyLine(env, line) == env
  {
  }

  /** The trimmed form of an assignment line: the padding around the line, and after `=`
      when the value is empty, goes. */
  lemma TrimAssignment(key: string, value: string, left: string, mid1: string, mid2: string, right: string)
    requires key != [] && !IsWhitespace(key[0])
    requires value == [] || (!IsWhitespace(value[0]) && !IsWhitespace(value[|value| - 1]))
    requires AllWhitespace(left) && AllWhitespace(mid2) && AllWhitespace(right)
    ensures Trim(left + key + mid1 + "=" + mid2 + value + right)
            == key + mid1 + "=" + (if value == [] then [] else mid2 + value)
  {
    var line := left + key + mid1 + "=" + mid2 + value + right;
    var body := key + mid1 + "=" + (if value == [] then [] else mid2 + value);
    if value == [] {
      AllWhitespaceConcat(mid2, right);
      assert line == left + body + (mid2 + right);
      TrimPadded(left, body, mid2 + right);
    } else {
      assert line == left + body + right;
      TrimPadded(left, body, right);
    }
  }

  /** A line whose trimmed text is `head=rest`, `head` free of `=` and not a comment,
      assigns the trimmed `rest` to the trimmed `head`. */
  lemma ParseAtFirstEquals(line: string, head: string, rest: string)
    requires Trim(line) == head + "=" + rest
    requires head != [] && head[0] != '#' && '=' !in head
    ensures ParseLine(line) == Some((Trim(head), Trim(rest)))
  {
    var t := Trim(line);
    assert t[0] == head[0];
    assert t == head + ['='] + rest;
    IndexOfFirst(head, '=', rest);
    assert t[..|head|] == head;
    assert t[|head| + 1..] == rest;
  }

  /** An assignment line reads back as its key and value, whatever whitespace surrounds the
      line and the first `=`; the value may hold further `=`, only the first one separates. */
  lemma ParseAssignment(key: string, value: string, left: string, mid1: string, mid2: string, right: string)
    requires key != [] && key[0] != '#' && '=' !in key
    requires !IsWhitespace(key[0]) && !IsWhitespace(key[|key| - 1])
    requires value == [] || (!IsWhitespace(value[0]) && !IsWhitespace(value[|value| - 1]))
    requires AllWhitespace(left) && AllWhitespace(mid1) && AllWhitespace(mid2) && AllWhitespace(right)
    ensures ParseLine(left + key + mid1 + "=" + mid2 + value + right) == Some((key, value))
  {
    var head := key + mid1;
    var rest := if value == [] then [] else mid2 + value;
    TrimAssignment(key, value, left, mid1, mid2, right);
    assert '=' !in head;
    ParseAtFirstEquals(left + key + mid1 + "=" + mid2 + value + right, head, rest);
    TrimPadded([], key, mid1);
    assert [] + key + mid1 == head;
    if value != [] {
      TrimPadded(mid2, value, []);
      assert mid2 + value + [] == rest;
    } else {
      TrimOfTrimmed([]);
    }
  }

  /** What each line assigns, in order. */
  function Parsed(lines: seq<string>): (r: seq<Option<(string, string)>>)
    ensures |r| == |lines|
    ensures forall j | 0 <= j < |lines| :: r[j] == ParseLine(lines[j])
    decreases |lines|
  {
    if lines == [] then [] else Parsed(lines[..|lines| - 1]) + [ParseLine(lines[|lines| - 1])]
  }

  /** The environment after the given parsed lines, in order. */
  function AssignAll(env: map<string, string>, parsed: seq<Option<(string, string)>>): map<string, string>
    decreases |parsed|
  {
    if parsed == [] then env else Assign(AssignAll(env, parsed[..|parsed| - 1]), parsed[|parsed| - 1])
  }

  /** Reading the lines one by one is parsing them all, then applying the assignments. */
  lemma {:induction false} ApplyLinesParsed(env: map<string, string>, lines: seq<string>)
    ensures ApplyLines(env, lines) == AssignAll(env, Parsed(lines))
    decreases |lines|
  {
    if lines != [] {
      var init := lines[..|lines| - 1];
      ApplyLinesParsed(env, init);
      var p := Parsed(lines);
      assert p[..|p| - 1] == Parsed(init);
    }
  }

  /** `a` assigns to `key`. */
  predicate AssignsTo(a: Option<(string, string)>, key: string) {
    a.Some? && a.value.0 == key
  }

  /** `line` assigns to `key`. */
  predicate Assigns(line: string, key: string) {
    AssignsTo(ParseLine(line), key)
  }

  /** A variable holding a non-empty value keeps it, whatever the assignments say. */
  lemma {:induction false} NonEmptyEntryKept(env: map<string, string>, parsed: seq<Option<(string, string)>>, key: string)
    requires key in env && env[key] != ""
    ensures key in AssignAll(env, parsed) && AssignAll(env, parsed)[key] == env[key]
    decreases |parsed|
  {
    if parsed != [] {
      NonEmptyEntryKept(env, parsed[..|parsed| - 1], key);
    }
  }

  /** A variable nothing assigns to is left exactly as it was, present or absent. */
  lemma {:induction false} UnmentionedKeyUnchanged(env: map<string, string>, parsed: seq<Option<(string, string)>>, key: string)
    requires forall i | 0 <= i < |parsed| :: !AssignsTo(parsed[i], key)
    ensures key in AssignAll(env, parsed) <==> key in env
    ensures key in env ==> AssignAll(env, parsed)[key] == env[key]
    decreases |parsed|
  {
    if parsed != [] {
      UnmentionedKeyUnchanged(env, parsed[..|parsed| - 1], key);
    }
  }

  /** Assignments of nothing but the empty string to `key` leave it writable. */
  lemma {:induction false} StaysWritable(env: map<string, string>, parsed: seq<Option<(string, string)>>, key: string)
    requires MayWrite(env, key)
    requires forall i | 0 <= i < |parsed| :: AssignsTo(parsed[i], key) ==> parsed[i].value.1 == ""
    ensures MayWrite(AssignAll(env, parsed), key)
    decreases |parsed|
  {
    if parsed != [] {
      StaysWritable(env, parsed[..|parsed| - 1], key);
    }
  }

  /** The first non-empty assignment to a variable that is unset or empty in the
      environment is the one that sticks. */
  lemma {:induction false} FirstNonEmptyAssignmentWins(env: map<string, string>, parsed: seq<Option<(string, string)>>, i: nat, key: string, value: string)
    requires MayWrite(env, key)
    requires i < |parsed| && parsed[i] == Some((key, value)) && value != ""
    requires forall j | 0 <= j < i :: AssignsTo(parsed[j], key) ==> parsed[j].value.1 == ""
    ensures key in AssignAll(env, parsed) && AssignAll(env, parsed)[key] == value
    decreases |parsed|
  {
    var init := parsed[..|parsed| - 1];
    if i == |parsed| - 1 {
      StaysWritable(env, init, key);
    } else {
      FirstNonEmptyAssignmentWins(env, init, i, key, value);
    }
  }

  /** Every variable the result holds either was already there or is assigned to. */
  lemma NewKeysAreAssigned(env: map<string, string>, parsed: seq<Option<(string, string)>>, key: string)
    requires key in AssignAll(env, parsed) && key !in env
    ensures exists i | 0 <= i < |parsed| :: AssignsTo(parsed[i], key)
  {
    if forall i | 0 <= i < |parsed| :: !AssignsTo(parsed[i], key) {
      UnmentionedKeyUnchanged(env, parsed, key);
    }
  }

  /** Loading `.env` never changes a variable that already holds a non-empty value. */
  lemma DotEnvNeverOverrides(env: map<string, string>, file: Option<string>, key: string)
    requires key in env && env[key] != ""
    ensures key in LoadedEnv(env, file) && LoadedEnv(env, file)[key] == env[key]
  {
    if file.Some? {
      var lines := Split(file.value, '\n');
      ApplyLinesParsed(env, lines);
      NonEmptyEntryKept(env, Parsed(lines), key);
    }
  }

  /** Loading `.env` leaves every variable no line of it assigns exactly as it was. */
  lemma DotEnvLeavesUnmentioned(env: map<string, string>, file: Option<string>, key: string)
    requires file.Some? ==> forall line | line in Split(file.value, '\n') :: !Assigns(line, key)
    ensures key in LoadedEnv(env, file) <==> key in env
    ensures key in env ==> LoadedEnv(env, file)[key] == env[key]
  {
    if file.Some? {
      var lines := Split(file.value, '\n');
      var parsed := Parsed(lines);
      forall i | 0 <= i < |parsed|
        ensures !AssignsTo(parsed[i], key)
      {
        assert lines[i] in lines;
      }
      ApplyLinesParsed(env, lines);
      UnmentionedKeyUnchanged(env, parsed, key);
    }
  }

  /** In `.env`, the first line giving a variable that is unset or empty in the environment
      a non-empty value decides it. */
  lemma DotEnvFirstAssignmentWins(env: map<string, string>, lines: seq<string>, i: nat, key: string, value: string)
    requires MayWrite(env, key)
    requires i < |lines| && ParseLine(lines[i]) == Some((key, value)) && value != ""
    requires forall j | 0 <= j < i :: Assigns(lines[j], key) ==> ParseLine(lines[j]).value.1 == ""
    ensures key in ApplyLines(env, lines) && ApplyLines(env, lines)[key] == value
  {
    ApplyLinesParsed(env, lines);
    FirstNonEmptyAssignmentWins(env, Parsed(lines), i, key, value);
  }

  // ---------------------------------------------------------------------------
  // The script's configuration
  // ---------------------------------------------------------------------------

  const TokenVar := "PLEX_TOKEN"
  const ServerUrlVar := "PLEX_SERVER_URL"
  const ClientIdentifierVar := "PLEX_CLIENT_IDENTIFIER"
  const DefaultClientIdentifier := "plaxe-test-script"
  const ScriptProduct := "Plaxe Test Script"
  const MissingVarsMessage := "Missing required env vars: PLEX_TOKEN, PLEX_SERVER_URL"

  /** A variable that is set to a non-empty value (`!value` is false): exactly one that
      the `.env` loader may not write. */
  predicate IsSet(env: map<string, string>, name: string) {
    !MayWrite(env, name)
  }

  /** The client configuration the script builds from the environment, or the message it
      exits with when the token or the server URL is missing or empty. The identifier falls
      back to its default only when the variable is absent (`??`); an empty one is kept. */
  function ScriptConfig(env: map<string, string>): (r: Result<PlexConfig.Config, string>)
    ensures r.Ok? <==> IsSet(env, TokenVar) && IsSet(env, ServerUrlVar)
    ensures r.Err? ==> r.error == MissingVarsMessage
    ensures r.Ok? ==> r.value.plexToken == env[TokenVar] && r.value.serverUrl == env[ServerUrlVar]
    ensures r.Ok? ==> r.value.plexToken != "" && r.value.serverUrl != ""
    ensures r.Ok? ==> r.value.product == ScriptProduct
    ensures r.Ok? && ClientIdentifierVar in env ==> r.value.clientIdentifier == env[ClientIdentifierVar]
    ensures r.Ok? && ClientIdentifierVar !in env ==> r.value.clientIdentifier == DefaultClientIdentifier
  {
    var identifier := if ClientIdentifierVar in env then env[ClientIdentifierVar] else DefaultClientIdentifier;
    if !IsSet(env, TokenVar) || !IsSet(env, ServerUrlVar) then Err(MissingVarsMessage)
    else Ok(PlexConfig.Config(env[TokenVar], env[ServerUrlVar], identifier, ScriptProduct))
  }

  /** Token and server URL already set in the environment survive `.env` loading, so the
      configuration carries them whatever the file says. */
  lemma EnvironmentBeatsDotEnv(env: map<string, string>, file: Option<string>)
    requires IsSet(env, TokenVar) && IsSet(env, ServerUrlVar)
    ensures var r := ScriptConfig(LoadedEnv(env, file));
            r.Ok? && r.value.plexToken == env[TokenVar] && r.value.serverUrl == env[ServerUrlVar]
  {
    DotEnvNeverOverrides(env, file, TokenVar);
    DotEnvNeverOverrides(env, file, ServerUrlVar);
  }

  /** `formatOption`: the value when present, `"(none)"` otherwise; `show` is how the
      value is rendered in the script's output. */
  function FormatOption<T>(opt: Option<T>, show: T -> string): (r: string)
    ensures opt.None? ==> r == "(none)"
    ensures opt.Some? ==> r == show(opt.value)
  {
    match opt
    case None => "(none)"
    case Some(v) => show(v)
  }

  /** Output tells options apart as long as `show` is injective and never prints
      `"(none)"`. */
  lemma FormatOptionInjective<T>(a: Option<T>, b: Option<T>, show: T -> string)
    requires forall x, y :: show(x) == show(y) ==> x == y
    requires forall x :: show(x) != "(none)"
    requires FormatOption(a, show) == FormatOption(b, show)
    ensures a == b
  {
  }

  /** A present value that prints as `"(none)"` cannot be told apart from an absent one. */
  lemma FormatOptionAmbiguous()
    ensures FormatOption(Some("(none)"), (s: string) => s) == FormatOption(None, (s: string) => s)
  {
  }
}
