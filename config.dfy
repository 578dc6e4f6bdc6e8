/**
 * Configuration: the environment, the fallback `.env` reader and the getters
 * with their defaults.
 *
 * The process environment is a map from names to values. When python-dotenv
 * is not installed, the `.env` file is read line by line and every
 * `KEY=value` line is written into the environment, later lines overwriting
 * earlier ones. The getters read the environment and fall back to fixed
 * defaults.
 */
module Config {
  import opened Wrappers
  import opened Strings
  import opened Json

  type Env = map<string, string>

  // ----- the .env fallback -----

  /** The position of the first `c` in `s`, or `|s|` when there is none. */
  function FindChar(s: string, c: char): (i: nat)
    ensures i <= |s|
    ensures forall j | 0 <= j < i :: s[j] != c
    ensures i < |s| ==> s[i] == c
    ensures i == |s| <==> c !in s
    decreases |s|
  {
    if s == [] then 0
    else if s[0] == c then 0
    else
      var i := FindChar(s[1..], c);
      assert forall j | 0 < j <= i :: s[j] == s[1..][j - 1];
      assert c in s[1..] ==> c in s;
      assert c in s && s[0] != c ==> c in s[1..];
      1 + i
  }

  /** The entry one line of the file gives: the line is stripped; empty lines,
      comments and lines without "=" give none; otherwise it is split at its
      first "=" (`line.split('=', 1)`). */
  function ParseLine(raw: string): Option<(string, string)> {
    var line := Strip(raw);
    if line != "" && !StartsWith(line, "#") && '=' in line then
      var i := FindChar(line, '=');
      Some((line[..i], line[i + 1..]))
    else None
  }

  /** Only stripped, non-empty, non-comment lines holding "=" give an entry; the
      key is everything before the first "=" and the value everything after it,
      so the value may itself hold "=". */
  lemma ParseLineRule(raw: string)
    ensures ParseLine(raw).Some? <==> Strip(raw) != "" && !StartsWith(Strip(raw), "#") && '=' in Strip(raw)
    ensures ParseLine(raw).Some? ==>
              var (k, v) := ParseLine(raw).value;
              k + "=" + v == Strip(raw) && '=' !in k
  {
    var line := Strip(raw);
    if ParseLine(raw).Some? {
      var i := FindChar(line, '=');
      assert line[..i] + "=" + line[i + 1..] == line;
    }
  }

  /** `os.environ[key] = value` refuses an empty name and NUL characters with a ValueError. */
  predicate Illegal(key: string, value: string) {
    key == "" || '\0' in key || '\0' in value
  }

  predicate IllegalLine(raw: string) {
    ParseLine(raw).Some? && Illegal(ParseLine(raw).value.0, ParseLine(raw).value.1)
  }

  /** The number of lines applied before the first one whose write raises. */
  function FirstIllegal(lines: seq<string>): (i: nat)
    ensures i <= |lines|
    ensures forall j | 0 <= j < i :: !IllegalLine(lines[j])
    ensures i < |lines| ==> IllegalLine(lines[i])
    decreases |lines|
  {
    if lines == [] then 0
    else if IllegalLine(lines[0]) then 0
    else
      var i := FirstIllegal(lines[1..]);
      assert forall j | 0 < j <= i && j < |lines| :: lines[j] == lines[1..][j - 1];
      1 + i
  }

  function ApplyLine(env: Env, raw: string): Env {
    match ParseLine(raw)
    case None => env
    case Some((k, v)) => env[k := v]
  }

  /** The environment after writing the entries of `lines`, first to last. */
  function ApplyAll(env: Env, lines: seq<string>): Env
    decreases |lines|
  {
    if lines == [] then env
    else ApplyLine(ApplyAll(env, lines[..|lines| - 1]), lines[|lines| - 1])
  }

  predicate SetsKey(raw: string, k: string) {
    ParseLine(raw).Some? && ParseLine(raw).value.0 == k
  }

  /** The last line that sets a key decides its value. */
  lemma {:induction false} LastWins(env: Env, lines: seq<string>, i: nat)
    requires i < |lines| && ParseLine(lines[i]).Some?
    requires forall j | i < j < |lines| :: !SetsKey(lines[j], ParseLine(lines[i]).value.0)
    ensures var (k, v) := ParseLine(lines[i]).value;
      k in ApplyAll(env, lines) && ApplyAll(env, lines)[k] == v
    decreases |lines|
  {
    var init := lines[..|lines| - 1];
    if i < |lines| - 1 {
      assert forall j | i < j < |init| :: init[j] == lines[j];
      LastWins(env, init, i);
    }
  }

  /** A key no line sets keeps whatever the environment had. */
  lemma {:induction false} Untouched(env: Env, lines: seq<string>, k: string)
    requires forall j | 0 <= j < |lines| :: !SetsKey(lines[j], k)
    ensures k in ApplyAll(env, lines) <==> k in env
    ensures k in env ==> ApplyAll(env, lines)[k] == env[k]
    decreases |lines|
  {
    if lines != [] {
      var init := lines[..|lines| - 1];
      assert forall j | 0 <= j < |init| :: init[j] == lines[j];
      Untouched(env, init, k);
    }
  }

  /** `os.environ`, which the `.env` reader writes and the getters read. */
  class Environment {
    var vars: Env

    constructor (vars: Env)
      ensures this.vars == vars
    {
      this.vars := vars;
    }

    /** The fallback reader over the lines of an existing `.env` file. A write
        that raises ends the reading, with the earlier lines already applied. */
    method LoadEnvFile(lines: seq<string>) returns (err: Option<Fault>)
      modifies this
      ensures vars == ApplyAll(old(vars), lines[..FirstIllegal(lines)])
      ensures err == (if FirstIllegal(lines) < |lines| then Some(ValueError) else None)
    {
      var i := 0;
      while i < |lines|
        invariant i <= FirstIllegal(lines)
        invariant vars == ApplyAll(old(vars), lines[..i])
      {
        assert lines[..i + 1][..i] == lines[..i];
        assert ApplyAll(old(vars), lines[..i + 1]) == ApplyLine(vars, lines[i]);
        var line := Strip(lines[i]);
        if line != "" && !StartsWith(line, "#") && '=' in line {
          var j := FindChar(line, '=');
          var key, value := line[..j], line[j + 1..];
          assert ParseLine(lines[i]) == Some((key, value));
          if key == "" || '\0' in key || '\0' in value {
            assert IllegalLine(lines[i]);
            return Some(ValueError);
          }
          vars := vars[key := value];
        } else {
          assert ParseLine(lines[i]).None?;
        }
        i := i + 1;
      }
      return None;
    }
  }

  // ----- getters -----

  /** `os.getenv(key, default)`. */
  function GetEnv(env: Env, key: string, default: string): (r: string)
    ensures key in env ==> r == env[key]
    ensures key !in env ==> r == default
  {
    if key in env then env[key] else default
  }

  function ServerHost(env: Env): string {
    GetEnv(env, "CODEBUDDY_HOST", "127.0.0.1")
  }

  /** `os.getenv("CODEBUDDY_PASSWORD")`: None when unset. */
  function ServerPassword(env: Env): (r: Option<string>)
    ensures r.Some? <==> "CODEBUDDY_PASSWORD" in env
    ensures r.Some? ==> r.value == env["CODEBUDDY_PASSWORD"]
  {
    if "CODEBUDDY_PASSWORD" in env then Some(env["CODEBUDDY_PASSWORD"]) else None
  }

  function ApiEndpoint(env: Env): string {
    GetEnv(env, "CODEBUDDY_API_ENDPOINT", "https://www.codebuddy.ai")
  }

  function CredsDir(env: Env): string {
    GetEnv(env, "CODEBUDDY_CREDS_DIR", ".codebuddy_creds")
  }

  function LogLevel(env: Env): string {
    GetEnv(env, "CODEBUDDY_LOG_LEVEL", "INFO")
  }

  /** Each getter gives the variable's value when it is set and its fixed default otherwise. */
  lemma GettersRule(env: Env)
    ensures ServerHost(env) == if "CODEBUDDY_HOST" in env then env["CODEBUDDY_HOST"] else "127.0.0.1"
    ensures ApiEndpoint(env) == if "CODEBUDDY_API_ENDPOINT" in env then env["CODEBUDDY_API_ENDPOINT"] else "https://www.codebuddy.ai"
    ensures CredsDir(env) == if "CODEBUDDY_CREDS_DIR" in env then env["CODEBUDDY_CREDS_DIR"] else ".codebuddy_creds"
    ensures LogLevel(env) == if "CODEBUDDY_LOG_LEVEL" in env then env["CODEBUDDY_LOG_LEVEL"] else "INFO"
  {
  }

  // ----- the model list -----

  /** The built-in model names, in order. */
  const DefaultModelNames: seq<string> :=
    ["claude-4.0", "claude-3.7", "gpt-5", "gpt-5-mini", "gpt-5-nano", "o4-mini",
     "gemini-2.5-flash", "gemini-2.5-pro", "auto-chat"]

  /** The default of `CODEBUDDY_MODELS`: the built-in names joined with commas,
      "claude-4.0,claude-3.7,...,auto-chat". */
  const DefaultModels: string := Join(DefaultModelNames, ",")

  function ModelsSetting(env: Env): string {
    GetEnv(env, "CODEBUDDY_MODELS", DefaultModels)
  }

  /** The setting split at every comma, each piece stripped. */
  function ModelList(setting: string): (r: seq<string>)
    ensures |r| == CountChar(setting, ',') + 1
    ensures forall i | 0 <= i < |r| :: ',' !in r[i]
  {
    var parts := Split(setting, ',');
    SplitCount(setting, ',');
    SplitPiecesLackSep(setting, ',');
    var r := seq(|parts|, i requires 0 <= i < |parts| => Strip(parts[i]));
    forall i | 0 <= i < |r| ensures ',' !in r[i] {
      var a, b := StripSpec(parts[i]);
      assert forall c | c in parts[i][a..b] :: c in parts[i];
    }
    r
  }

  /** `get_available_models`. */
  function AvailableModels(env: Env): seq<string> {
    ModelList(ModelsSetting(env))
  }

  /** Names free of commas and of surrounding whitespace, joined with commas,
      come back from the list as they were. */
  lemma ModelListRoundTrip(names: seq<string>)
    requires |names| >= 1
    requires forall i | 0 <= i < |names| :: ',' !in names[i] && Strip(names[i]) == names[i]
    ensures ModelList(Join(names, ",")) == names
  {
    SplitOfJoin(names, ',');
  }

  /** A name without commas that neither starts nor ends with whitespace. */
  lemma CleanName(name: string)
    requires ',' !in name && name != [] && !IsSpace(name[0]) && !IsSpace(name[|name| - 1])
    ensures ',' !in name && Strip(name) == name
  {
    StripKeeps(name);
  }

  /** With `CODEBUDDY_MODELS` unset the list is the nine built-in models. */
  lemma DefaultModelList(env: Env)
    requires "CODEBUDDY_MODELS" !in env
    ensures AvailableModels(env) == DefaultModelNames
  {
    var ns := DefaultModelNames;
    CleanName(ns[0]); CleanName(ns[1]); CleanName(ns[2]);
    CleanName(ns[3]); CleanName(ns[4]); CleanName(ns[5]);
    CleanName(ns[6]); CleanName(ns[7]); CleanName(ns[8]);
    ModelListRoundTrip(DefaultModelNames);
  }
}
