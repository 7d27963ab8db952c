/**
  The configuration loader: the `.env` file's lines are added to the process
  environment without overriding what is already set, then each setting is
  read from the environment with a fixed default.

  The environment is an object holding a dictionary of variables, as
  `os.environ` is. The `.env` file is given as its lines, each as read (its
  line break included), or as `None` when there is no such file; opening and
  reading it are not part of this model.
*/
module Config {
  import opened Wrappers

  // ---------------------------------------------------------------------------
  // Lines of the .env file
  // ---------------------------------------------------------------------------

  /** Python's `str.isspace` for one character. */
  predicate IsSpace(c: char) {
    var n := c as int;
    (9 <= n <= 13) || (28 <= n <= 32) || n == 0x85 || n == 0xA0 || n == 0x1680
    || (0x2000 <= n <= 0x200A) || n == 0x2028 || n == 0x2029 || n == 0x202F || n == 0x205F || n == 0x3000
  }

  /** `s.lstrip()`. */
  function TrimStart(s: string): (r: string)
    ensures |r| <= |s| && r == s[|s| - |r|..]
  {
    if s != [] && IsSpace(s[0]) then TrimStart(s[1..]) else s
  }

  /** `s.rstrip()`. */
  function TrimEnd(s: string): (r: string)
    ensures |r| <= |s| && r == s[..|r|]
  {
    if s != [] && IsSpace(s[|s| - 1]) then TrimEnd(s[..|s| - 1]) else s
  }

  /** What `lstrip` cuts away is whitespace. */
  lemma {:induction false} TrimStartCutsSpace(s: string)
    ensures forall i :: 0 <= i < |s| - |TrimStart(s)| ==> IsSpace(s[i])
  {
    if s != [] && IsSpace(s[0]) {
      var rest := s[1..];
      TrimStartCutsSpace(rest);
      assert TrimStart(s) == TrimStart(rest);
      forall i | 0 < i < |s| - |TrimStart(s)|
        ensures IsSpace(s[i])
      {
        assert s[i] == rest[i - 1];
      }
    }
  }

  /** `lstrip` stops at the first character that is not whitespace. */
  lemma {:induction false} TrimStartStops(s: string)
    ensures TrimStart(s) == [] || !IsSpace(TrimStart(s)[0])
  {
    if s != [] && IsSpace(s[0]) {
      TrimStartStops(s[1..]);
    }
  }

  /** What `rstrip` cuts away is whitespace. */
  lemma {:induction false} TrimEndCutsSpace(s: string)
    ensures forall i :: |TrimEnd(s)| <= i < |s| ==> IsSpace(s[i])
  {
    if s != [] && IsSpace(s[|s| - 1]) {
      var rest := s[..|s| - 1];
      TrimEndCutsSpace(rest);
      assert TrimEnd(s) == TrimEnd(rest);
      forall i | |TrimEnd(s)| <= i < |s| - 1
        ensures IsSpace(s[i])
      {
        assert s[i] == rest[i];
      }
    }
  }

  /** `rstrip` stops at the last character that is not whitespace. */
  lemma {:induction false} TrimEndStops(s: string)
    ensures TrimEnd(s) == [] || !IsSpace(TrimEnd(s)[|TrimEnd(s)| - 1])
  {
    if s != [] && IsSpace(s[|s| - 1]) {
      TrimEndStops(s[..|s| - 1]);
    }
  }

  /** `s.strip()`: the stretch of `s` between its leading and its trailing whitespace. */
  function Strip(s: string): (r: string)
    ensures |r| <= |s|
  {
    TrimEnd(TrimStart(s))
  }

  /** Where the stripped line begins and ends in the line. */
  function StripStart(s: string): nat {
    |s| - |TrimStart(s)|
  }

  function StripEnd(s: string): nat {
    StripStart(s) + |Strip(s)|
  }

  /** A prefix of a suffix is a slice. */
  lemma PrefixOfSuffix(s: string, i: nat, r: string)
    requires i <= |s| && |r| <= |s| - i && r == s[i..][..|r|]
    ensures r == s[i..i + |r|]
  {
    forall k | 0 <= k < |r|
      ensures r[k] == s[i + k]
    {
      assert r[k] == s[i..][k];
    }
  }

  /** Stripping is the slice of the line between those two positions. */
  lemma StripIsSlice(s: string)
    ensures StripStart(s) <= StripEnd(s) <= |s| && Strip(s) == s[StripStart(s)..StripEnd(s)]
  {
    var t := TrimStart(s);
    var r := TrimEnd(t);
    var i := StripStart(s);
    assert t == s[i..];
    assert r == t[..|r|];
    PrefixOfSuffix(s, i, r);
  }

  /** Only whitespace is cut away on either side. */
  lemma StripCutsSpace(s: string)
    ensures forall k :: 0 <= k < StripStart(s) ==> IsSpace(s[k])
    ensures forall k :: StripEnd(s) <= k < |s| ==> IsSpace(s[k])
  {
    var t := TrimStart(s);
    TrimStartCutsSpace(s);
    TrimEndCutsSpace(t);
    forall k | StripEnd(s) <= k < |s|
      ensures IsSpace(s[k])
    {
      assert s[k] == t[k - StripStart(s)];
    }
  }

  /** The stripped line neither begins nor ends with whitespace. */
  lemma StripEndsAtText(s: string)
    ensures Strip(s) == [] || (!IsSpace(Strip(s)[0]) && !IsSpace(Strip(s)[|Strip(s)| - 1]))
  {
    var t := TrimStart(s);
    TrimStartStops(s);
    TrimEndStops(t);
    if Strip(s) != [] {
      assert Strip(s)[0] == t[0];
    }
  }

  /** Stripping twice is stripping once. */
  lemma StripIdempotent(s: string)
    ensures Strip(Strip(s)) == Strip(s)
  {
    var r := Strip(s);
    StripEndsAtText(s);
    if r != [] {
      assert TrimStart(r) == r;
      assert TrimEnd(r) == r;
    }
  }

  /** The index of the first `c` in `s`. */
  function FirstIndex(s: string, c: char): (i: nat)
    requires c in s
    ensures i < |s| && s[i] == c && c !in s[..i]
  {
    if s[0] == c then 0 else 1 + FirstIndex(s[1..], c)
  }

  /**
    A stripped line: a blank line, a comment (`#`) and a line without `=` give
    nothing; any other line is split at its first `=`.
  */
  function SplitLine(line: string): (p: Option<(string, string)>)
    ensures p.None? <==> line == [] || line[0] == '#' || '=' !in line
    ensures p.Some? ==> p.value.0 + ['='] + p.value.1 == line && '=' !in p.value.0
  {
    if line != [] && line[0] != '#' && '=' in line then
      var i := FirstIndex(line, '=');
      assert line == line[..i] + ['='] + line[i + 1..];
      Some((line[..i], line[i + 1..]))
    else None
  }

  /**
    One line of the file, stripped and split. Key and value are not stripped
    on their own.
  */
  function ParseLine(raw: string): (p: Option<(string, string)>)
    ensures p.None? <==> Strip(raw) == [] || Strip(raw)[0] == '#' || '=' !in Strip(raw)
    ensures p.Some? ==> p.value.0 + ['='] + p.value.1 == Strip(raw) && '=' !in p.value.0
  {
    SplitLine(Strip(raw))
  }

  /** The value keeps every `=` after the first. */
  lemma ValueMayHoldEquals()
    ensures SplitLine("A=b=c") == Some(("A", "b=c"))
  {
    assert "A=b=c"[1..] == "=b=c";
    assert "A=b=c"[..1] == "A" && "A=b=c"[2..] == "b=c";
  }

  /** Spaces around `=` stay in the key and in the value. */
  lemma SpacesAroundEqualsKept()
    ensures SplitLine("A = b") == Some(("A ", " b"))
  {
    assert "A = b"[1..] == " = b" && " = b"[1..] == "= b";
    assert "A = b"[..2] == "A " && "A = b"[3..] == " b";
  }

  // ---------------------------------------------------------------------------
  // The environment
  // ---------------------------------------------------------------------------

  /**
    Why setting a variable fails (CPython on a POSIX system): a NUL character
    in the name or the value, a name with `=`, an empty name.
  */
  datatype EnvError = EmbeddedNullByte | IllegalVariableName | InvalidArgument

  /** The error `os.environ[key] = value` raises, if any. */
  function PutEnvError(key: string, value: string): (e: Option<EnvError>)
    ensures e.None? <==> key != [] && '=' !in key && '\0' !in key && '\0' !in value
  {
    if '\0' in key || '\0' in value then Some(EmbeddedNullByte)
    else if '=' in key then Some(IllegalVariableName)
    else if key == [] then Some(InvalidArgument)
    else None
  }

  /** `os.environ.setdefault(key, value)`: the environment afterwards, and the error raised, if any. */
  function SetDefaultOn(vars: map<string, string>, key: string, value: string): (r: (map<string, string>, Option<EnvError>))
    ensures key in vars ==> r == (vars, None)
    ensures r.1.Some? ==> r.0 == vars
    ensures r.1.None? ==> r.0 == vars[key := if key in vars then vars[key] else value]
  {
    if key in vars then (vars, None)
    else
      var e := PutEnvError(key, value);
      if e.Some? then (vars, e) else (vars[key := value], None)
  }

  /** Adding one line of the file. */
  function LoadLine(vars: map<string, string>, line: string): (map<string, string>, Option<EnvError>) {
    match ParseLine(line)
    case None => (vars, None)
    case Some((key, value)) => SetDefaultOn(vars, key, value)
  }

  /** Adding the lines in order; the first error stops the loop, with the lines before it already added. */
  function LoadLines(vars: map<string, string>, lines: seq<string>): (r: (map<string, string>, Option<EnvError>)) {
    if lines == [] then (vars, None)
    else
      var before := LoadLines(vars, lines[..|lines| - 1]);
      if before.1.Some? then before else LoadLine(before.0, lines[|lines| - 1])
  }

  /** `load_env_file`: nothing happens without a file. */
  function LoadedFrom(vars: map<string, string>, file: Option<seq<string>>): (map<string, string>, Option<EnvError>) {
    if file.None? then (vars, None) else LoadLines(vars, file.value)
  }

  /** A variable already set is never overwritten, and no variable is removed. */
  lemma {:induction false} NeverOverwrites(vars: map<string, string>, lines: seq<string>)
    ensures forall k :: k in vars ==> k in LoadLines(vars, lines).0 && LoadLines(vars, lines).0[k] == vars[k]
  {
    if lines != [] {
      var front := lines[..|lines| - 1];
      var before := LoadLines(vars, front);
      NeverOverwrites(vars, front);
      if before.1.None? {
        forall k | k in vars
          ensures k in LoadLines(vars, lines).0 && LoadLines(vars, lines).0[k] == vars[k]
        {
          LoadLineKeeps(before.0, lines[|lines| - 1], k);
        }
      }
    }
  }

  /** Every variable the file adds comes from a line that names it. */
  lemma {:induction false} AddedFromALine(vars: map<string, string>, lines: seq<string>, k: string)
    requires k in LoadLines(vars, lines).0 && k !in vars
    ensures exists i :: 0 <= i < |lines| && ParseLine(lines[i]) == Some((k, LoadLines(vars, lines).0[k]))
  {
    var front := lines[..|lines| - 1];
    var before := LoadLines(vars, front);
    var last := lines[|lines| - 1];
    if k in before.0 {
      AddedFromALine(vars, front, k);
      var i :| 0 <= i < |front| && ParseLine(front[i]) == Some((k, before.0[k]));
      if before.1.None? {
        LoadLineKeeps(before.0, last, k);
      }
      assert lines[i] == front[i];
    } else {
      LoadLineAdds(before.0, last, k);
      assert ParseLine(lines[|lines| - 1]) == Some((k, LoadLines(vars, lines).0[k]));
    }
  }

  /** With no error, the first line that names a variable not already set decides its value. */
  lemma {:induction false} FirstOccurrenceWins(vars: map<string, string>, lines: seq<string>, i: nat, k: string, v: string)
    requires LoadLines(vars, lines).1.None?
    requires k !in vars
    requires i < |lines| && ParseLine(lines[i]) == Some((k, v))
    requires forall j :: 0 <= j < i ==> ParseLine(lines[j]).None? || ParseLine(lines[j]).value.0 != k
    ensures k in LoadLines(vars, lines).0 && LoadLines(vars, lines).0[k] == v
  {
    var front := lines[..|lines| - 1];
    var before := LoadLines(vars, front);
    assert before.1.None?;
    if i == |lines| - 1 {
      assert forall j :: 0 <= j < |front| ==> front[j] == lines[j];
      NotYetNamed(vars, front, k);
      assert LoadLines(vars, lines) == SetDefaultOn(before.0, k, v);
    } else {
      assert forall j :: 0 <= j <= i ==> front[j] == lines[j];
      FirstOccurrenceWins(vars, front, i, k, v);
      LoadLineKeeps(before.0, lines[|lines| - 1], k);
    }
  }

  /** One line never changes a variable already set. */
  lemma LoadLineKeeps(vars: map<string, string>, line: string, k: string)
    requires k in vars
    ensures k in LoadLine(vars, line).0 && LoadLine(vars, line).0[k] == vars[k]
  {
  }

  /** A variable one line adds is the one it names, with the value it gives. */
  lemma LoadLineAdds(vars: map<string, string>, line: string, k: string)
    requires k !in vars && k in LoadLine(vars, line).0
    ensures ParseLine(line) == Some((k, LoadLine(vars, line).0[k]))
  {
  }

  /** A line adds no variable but the one it names. */
  lemma LoadLineOthers(vars: map<string, string>, line: string, k: string)
    requires k !in vars
    requires ParseLine(line).None? || ParseLine(line).value.0 != k
    ensures k !in LoadLine(vars, line).0
  {
  }

  /** A variable that no line names is not added. */
  lemma {:induction false} NotYetNamed(vars: map<string, string>, lines: seq<string>, k: string)
    requires k !in vars
    requires forall j :: 0 <= j < |lines| ==> ParseLine(lines[j]).None? || ParseLine(lines[j]).value.0 != k
    ensures k !in LoadLines(vars, lines).0
  {
    if lines != [] {
      var front := lines[..|lines| - 1];
      assert forall j :: 0 <= j < |front| ==> front[j] == lines[j];
      NotYetNamed(vars, front, k);
      LoadLineOthers(LoadLines(vars, front).0, lines[|lines| - 1], k);
    }
  }

  /** Once a line raises, the lines after it are not read. */
  lemma {:induction false} ErrorStopsLoading(vars: map<string, string>, lines: seq<string>, i: nat)
    requires i <= |lines| && LoadLines(vars, lines[..i]).1.Some?
    ensures LoadLines(vars, lines) == LoadLines(vars, lines[..i])
  {
    if i < |lines| {
      var front := lines[..|lines| - 1];
      assert front[..i] == lines[..i];
      ErrorStopsLoading(vars, front, i);
    } else {
      assert lines[..i] == lines;
    }
  }

  /** The process environment, `os.environ`. */
  class Environ {
    var vars: map<string, string>

    constructor(vars: map<string, string>)
      ensures this.vars == vars
    {
      this.vars := vars;
    }

    /** `os.environ.setdefault(key, value)`. */
    method SetDefault(key: string, value: string) returns (error: Option<EnvError>)
      modifies this
      ensures (vars, error) == SetDefaultOn(old(vars), key, value)
    {
      error := None;
      if key in vars {
        return;
      }
      error := PutEnvError(key, value);
      if error.None? {
        vars := vars[key := value];
      }
    }

    /** `os.getenv(key, default)`. */
    function GetEnv(key: string, default: string): (v: string)
      reads this
      ensures key in vars ==> v == vars[key]
      ensures key !in vars ==> v == default
    {
      if key in vars then vars[key] else default
    }
  }

  /** One pass of `load_env_file`'s loop. */
  method LoadLineInto(env: Environ, line: string) returns (error: Option<EnvError>)
    modifies env
    ensures (env.vars, error) == LoadLine(old(env.vars), line)
  {
    error := None;
    var parsed := ParseLine(line);
    if parsed.Some? {
      error := env.SetDefault(parsed.value.0, parsed.value.1);
    }
  }

  /** `load_env_file`: the loop over the file's lines, which stops at the first error. */
  method LoadEnvFile(env: Environ, file: Option<seq<string>>) returns (error: Option<EnvError>)
    modifies env
    ensures (env.vars, error) == LoadedFrom(old(env.vars), file)
  {
    error := None;
    if file.None? {
      return;
    }
    var lines := file.value;
    var i := 0;
    while i < |lines| && error.None?
      invariant 0 <= i <= |lines|
      decreases |lines| - i
      invariant (env.vars, error) == LoadLines(old(env.vars), lines[..i])
    {
      assert lines[..i + 1][..i] == lines[..i];
      error := LoadLineInto(env, lines[i]);
      i := i + 1;
    }
    if error.Some? {
      ErrorStopsLoading(old(env.vars), lines, i);
    } else {
      assert lines[..i] == lines;
    }
  }

  // ---------------------------------------------------------------------------
  // The configuration
  // ---------------------------------------------------------------------------

  datatype Config = Config(
    awsEndpointUrl: string,
    awsAccessKeyId: string,
    awsSecretAccessKey: string,
    awsDefaultRegion: string,
    csvFilePath: string,
    s3BucketName: string)

  function Lookup(vars: map<string, string>, key: string, default: string): string {
    if key in vars then vars[key] else default
  }

  /** The settings read from the environment, each with its default. */
  function ConfigFrom(vars: map<string, string>): (c: Config)
    ensures "AWS_ENDPOINT_URL" in vars ==> c.awsEndpointUrl == vars["AWS_ENDPOINT_URL"]
    ensures "AWS_ACCESS_KEY_ID" in vars ==> c.awsAccessKeyId == vars["AWS_ACCESS_KEY_ID"]
    ensures "AWS_SECRET_ACCESS_KEY" in vars ==> c.awsSecretAccessKey == vars["AWS_SECRET_ACCESS_KEY"]
    ensures "AWS_DEFAULT_REGION" in vars ==> c.awsDefaultRegion == vars["AWS_DEFAULT_REGION"]
    ensures "CSV_FILE_PATH" in vars ==> c.csvFilePath == vars["CSV_FILE_PATH"]
    ensures "S3_BUCKET_NAME" in vars ==> c.s3BucketName == vars["S3_BUCKET_NAME"]
    ensures "AWS_ENDPOINT_URL" !in vars ==> c.awsEndpointUrl == "http://localstack:4566"
    ensures "AWS_ACCESS_KEY_ID" !in vars ==> c.awsAccessKeyId == "test"
    ensures "AWS_SECRET_ACCESS_KEY" !in vars ==> c.awsSecretAccessKey == "test"
    ensures "AWS_DEFAULT_REGION" !in vars ==> c.awsDefaultRegion == "us-east-1"
    ensures "CSV_FILE_PATH" !in vars ==> c.csvFilePath == "data-source.csv"
    ensures "S3_BUCKET_NAME" !in vars ==> c.s3BucketName == "shipments-bucket"
  {
    Config(
      Lookup(vars, "AWS_ENDPOINT_URL", "http://localstack:4566"),
      Lookup(vars, "AWS_ACCESS_KEY_ID", "test"),
      Lookup(vars, "AWS_SECRET_ACCESS_KEY", "test"),
      Lookup(vars, "AWS_DEFAULT_REGION", "us-east-1"),
      Lookup(vars, "CSV_FILE_PATH", "data-source.csv"),
      Lookup(vars, "S3_BUCKET_NAME", "shipments-bucket"))
  }

  /** With none of the variables set, every setting is its default. */
  lemma DefaultsWhenUnset(vars: map<string, string>)
    requires forall k :: k in vars ==> k !in {"AWS_ENDPOINT_URL", "AWS_ACCESS_KEY_ID", "AWS_SECRET_ACCESS_KEY",
                                            "AWS_DEFAULT_REGION", "CSV_FILE_PATH", "S3_BUCKET_NAME"}
    ensures ConfigFrom(vars) == Config("http://localstack:4566", "test", "test", "us-east-1", "data-source.csv", "shipments-bucket")
  {
  }

  /** `get_config` either raises the loader's error or reads the settings. */
  datatype ConfigResult = Loaded(config: Config) | Failed(error: EnvError)

  /** What `get_config` gives for an environment and a file. */
  function ConfigAfterLoad(vars: map<string, string>, file: Option<seq<string>>): ConfigResult {
    var loaded := LoadedFrom(vars, file);
    if loaded.1.Some? then Failed(loaded.1.value) else Loaded(ConfigFrom(loaded.0))
  }

  /** The six variables `get_config` reads. */
  predicate IsSettingName(key: string) {
    || key == "AWS_ENDPOINT_URL" || key == "AWS_ACCESS_KEY_ID" || key == "AWS_SECRET_ACCESS_KEY"
    || key == "AWS_DEFAULT_REGION" || key == "CSV_FILE_PATH" || key == "S3_BUCKET_NAME"
  }

  /** The setting read from the variable `key`. */
  function Setting(c: Config, key: string): string
    requires IsSettingName(key)
  {
    if key == "AWS_ENDPOINT_URL" then c.awsEndpointUrl
    else if key == "AWS_ACCESS_KEY_ID" then c.awsAccessKeyId
    else if key == "AWS_SECRET_ACCESS_KEY" then c.awsSecretAccessKey
    else if key == "AWS_DEFAULT_REGION" then c.awsDefaultRegion
    else if key == "CSV_FILE_PATH" then c.csvFilePath
    else c.s3BucketName
  }

  /** A setting already in the environment wins over the file. */
  lemma EnvironmentWins(vars: map<string, string>, lines: seq<string>, key: string)
    requires IsSettingName(key) && key in vars
    requires ConfigAfterLoad(vars, Some(lines)).Loaded?
    ensures Setting(ConfigAfterLoad(vars, Some(lines)).config, key) == vars[key]
  {
    NeverOverwrites(vars, lines);
  }

  /** A setting missing from the environment is taken from the file's first line that sets it. */
  lemma FileSuppliesMissing(vars: map<string, string>, lines: seq<string>, key: string, i: nat, value: string)
    requires IsSettingName(key) && key !in vars
    requires i < |lines| && ParseLine(lines[i]) == Some((key, value))
    requires forall j :: 0 <= j < i ==> ParseLine(lines[j]).None? || ParseLine(lines[j]).value.0 != key
    requires ConfigAfterLoad(vars, Some(lines)).Loaded?
    ensures Setting(ConfigAfterLoad(vars, Some(lines)).config, key) == value
  {
    FirstOccurrenceWins(vars, lines, i, key, value);
  }

  /** `get_config`: load the file into the environment, then read the settings. */
  method GetConfig(env: Environ, file: Option<seq<string>>) returns (r: ConfigResult)
    modifies env
    ensures r == ConfigAfterLoad(old(env.vars), file)
    ensures r.Loaded? ==> r.config == ConfigFrom(env.vars)
  {
    var error := LoadEnvFile(env, file);
    if error.Some? {
      return Failed(error.value);
    }
    r := Loaded(Config(
      env.GetEnv("AWS_ENDPOINT_URL", "http://localstack:4566"),
      env.GetEnv("AWS_ACCESS_KEY_ID", "test"),
      env.GetEnv("AWS_SECRET_ACCESS_KEY", "test"),
      env.GetEnv("AWS_DEFAULT_REGION", "us-east-1"),
      env.GetEnv("CSV_FILE_PATH", "data-source.csv"),
      env.GetEnv("S3_BUCKET_NAME", "shipments-bucket")));
  }
}
