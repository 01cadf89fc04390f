/**
 * The productivity-cockpit bridge: a small HTTP server that finds the project
 * root, loads `.cockpit.json` with defaults, runs a whitelisted AI command-line
 * tool or calls an AI provider's HTTP API for `/api/exec`, writes files under
 * the project root for `/api/fs/write`, and binds to the next port when its
 * port is busy.
 *
 * Subprocesses, HTTP calls, environment variables, the file system and socket
 * binding are inputs: a `Host` answers each argv it is asked to run, a `Net`
 * answers each request, a `FileSystem` value holds directories and files.
 */
module Bridge {
  import opened Optional
  import opened Text
  import opened Maps

  // ===========================================================================
  // Paths and the file system
  // ===========================================================================

  /** An absolute path as its segments; `[]` is `/`. */
  type Path = seq<string>

  function Parent(p: Path): (r: Path)
    ensures |p| > 0 ==> r == p[..|p| - 1]
    ensures |p| == 0 ==> r == p
  {
    if |p| == 0 then p else p[..|p| - 1]
  }

  /** `str(path)`: segments joined with `/` after a leading `/`. */
  function PathText(p: Path): string {
    "/" + Join(p, "/")
  }

  datatype FileSystem = FileSystem(dirs: set<Path>, files: map<Path, string>)

  /** `Path.exists()`. */
  predicate Exists(fs: FileSystem, p: Path) {
    p in fs.dirs || p in fs.files
  }

  // ===========================================================================
  // get_project_root_static
  // ===========================================================================

  const ConfigName := ".cockpit.json"
  const RootSearchLevels := 6

  /** A directory holding `.git` or `.cockpit.json`. */
  predicate IsProjectRoot(fs: FileSystem, p: Path) {
    Exists(fs, p + [".git"]) || Exists(fs, p + [ConfigName])
  }

  /** The `k`-th ancestor of `p` (the root is its own parent). */
  function Ancestor(p: Path, k: nat): Path {
    if k == 0 then p else Ancestor(Parent(p), k - 1)
  }

  /** Examine `dir` and its next `levels - 1` ancestors; fall back to `cwd`. */
  function SearchRoot(fs: FileSystem, dir: Path, cwd: Path, levels: nat): Path
    decreases levels
  {
    if levels == 0 then cwd
    else if IsProjectRoot(fs, dir) then dir
    else SearchRoot(fs, Parent(dir), cwd, levels - 1)
  }

  /** Walk up from the bridge's own directory for at most six levels. */
  method GetProjectRoot(fs: FileSystem, installDir: Path, cwd: Path) returns (root: Path)
    ensures root == SearchRoot(fs, installDir, cwd, RootSearchLevels)
  {
    root := installDir;
    for i := 0 to RootSearchLevels
      invariant SearchRoot(fs, root, cwd, RootSearchLevels - i) == SearchRoot(fs, installDir, cwd, RootSearchLevels)
    {
      if IsProjectRoot(fs, root) {
        return;
      }
      root := Parent(root);
    }
    root := cwd;
  }

  /** The search returns the first marked directory among the first `levels` ancestors. */
  lemma {:induction false} SearchRootFindsFirst(fs: FileSystem, dir: Path, cwd: Path, levels: nat, k: nat)
    requires k < levels && IsProjectRoot(fs, Ancestor(dir, k))
    requires forall j :: 0 <= j < k ==> !IsProjectRoot(fs, Ancestor(dir, j))
    ensures SearchRoot(fs, dir, cwd, levels) == Ancestor(dir, k)
    decreases k
  {
    if k > 0 {
      assert !IsProjectRoot(fs, Ancestor(dir, 0));
      forall j | 0 <= j < k - 1
        ensures !IsProjectRoot(fs, Ancestor(Parent(dir), j))
      {
        assert Ancestor(dir, j + 1) == Ancestor(Parent(dir), j);
      }
      SearchRootFindsFirst(fs, Parent(dir), cwd, levels - 1, k - 1);
    }
  }

  /** With no marked directory among the first `levels` ancestors the search falls back to `cwd`. */
  lemma {:induction false} SearchRootFallsBack(fs: FileSystem, dir: Path, cwd: Path, levels: nat)
    requires forall k :: 0 <= k < levels ==> !IsProjectRoot(fs, Ancestor(dir, k))
    ensures SearchRoot(fs, dir, cwd, levels) == cwd
    decreases levels
  {
    if levels > 0 {
      assert !IsProjectRoot(fs, Ancestor(dir, 0));
      forall j | 0 <= j < levels - 1
        ensures !IsProjectRoot(fs, Ancestor(Parent(dir), j))
      {
        assert Ancestor(dir, j + 1) == Ancestor(Parent(dir), j);
      }
      SearchRootFallsBack(fs, Parent(dir), cwd, levels - 1);
    }
  }

  /** The search never fails: it yields `cwd` or a marked ancestor at most `levels - 1` steps up. */
  lemma {:induction false} SearchRootResult(fs: FileSystem, dir: Path, cwd: Path, levels: nat)
    ensures var r := SearchRoot(fs, dir, cwd, levels);
      r == cwd || exists k :: 0 <= k < levels && r == Ancestor(dir, k) && IsProjectRoot(fs, r)
    decreases levels
  {
    if levels > 0 && !IsProjectRoot(fs, dir) {
      SearchRootResult(fs, Parent(dir), cwd, levels - 1);
      var r := SearchRoot(fs, dir, cwd, levels);
      if r != cwd {
        var k :| 0 <= k < levels - 1 && r == Ancestor(Parent(dir), k) && IsProjectRoot(fs, r);
        assert r == Ancestor(dir, k + 1);
      }
    } else if levels > 0 {
      assert SearchRoot(fs, dir, cwd, levels) == Ancestor(dir, 0);
    }
  }

  // ===========================================================================
  // load_config
  // ===========================================================================

  /** The `ai` section of `.cockpit.json`: any JSON values under its keys. */
  type AiSection = map<string, Json>

  /** What `json.load` makes of the config file: not a JSON object with an object-valued `ai`, or that section. */
  datatype ConfigJson = Malformed | Parsed(ai: Option<AiSection>)

  /** The defaults, in the order `load_config` applies them. */
  const Defaults: seq<(string, Json)> :=
    [("mode", JStr("cli")), ("cli", JStr("claude")), ("args", JArr([])),
     ("provider", JStr("anthropic")), ("model", JStr(""))]

  const DefaultAi: AiSection :=
    map["mode" := JStr("cli"), "cli" := JStr("claude"), "args" := JArr([]),
        "provider" := JStr("anthropic"), "model" := JStr("")]

  /** With no `ai` section at all, `load_config` yields exactly the default section. */
  lemma DefaultsOfEmpty()
    ensures SetDefaults(map[], Defaults) == DefaultAi
  {
  }

  /** `load_config` on a section: the five `setdefault` calls in source order. */
  method ApplyDefaults(ai0: AiSection) returns (ai: AiSection)
    ensures ai == SetDefaults(ai0, Defaults)
  {
    ai := ai0;
    if "mode" !in ai { ai := ai["mode" := JStr("cli")]; }
    if "cli" !in ai { ai := ai["cli" := JStr("claude")]; }
    if "args" !in ai { ai := ai["args" := JArr([])]; }
    if "provider" !in ai { ai := ai["provider" := JStr("anthropic")]; }
    if "model" !in ai { ai := ai["model" := JStr("")]; }
  }

  /** Everything outside the process that the bridge consults. */
  datatype Env = Env(
    fs: FileSystem,
    installDir: Path,                  // the directory of the bridge script, resolved
    cwd: Path,
    readConfig: string -> ConfigJson,  // `json.load` of the config file's text
    vars: map<string, string>,         // `os.environ`
    host: Host,
    net: Net)

  function ProjectRoot(env: Env): Path {
    SearchRoot(env.fs, env.installDir, env.cwd, RootSearchLevels)
  }

  /** The `ai` section `load_config` returns, or `None` where it raises. */
  function ConfigFor(env: Env): Option<AiSection> {
    var path := ProjectRoot(env) + [ConfigName];
    if !Exists(env.fs, path) then Some(SetDefaults(map[], Defaults))
    else if path !in env.fs.files then None
    else match env.readConfig(env.fs.files[path])
      case Malformed => None
      case Parsed(ai) => Some(SetDefaults(ai.GetOr(map[]), Defaults))
  }

  method LoadConfig(env: Env) returns (cfg: Option<AiSection>)
    ensures cfg == ConfigFor(env)
    ensures !Exists(env.fs, ProjectRoot(env) + [ConfigName]) ==> cfg == Some(DefaultAi)
    ensures cfg.Some? ==> DefaultAi.Keys <= cfg.value.Keys
  {
    var root := GetProjectRoot(env.fs, env.installDir, env.cwd);
    var path := root + [ConfigName];
    var section: AiSection := map[];
    if Exists(env.fs, path) {
      if path !in env.fs.files {
        return None;
      }
      match env.readConfig(env.fs.files[path])
      case Malformed =>
        return None;
      case Parsed(ai) =>
        section := ai.GetOr(map[]);
    }
    var filled := ApplyDefaults(section);
    SetDefaultsFillsOnlyMissing(section, Defaults);
    assert KeysOf(Defaults) == DefaultAi.Keys by {
      assert Defaults[0].0 == "mode" && Defaults[1].0 == "cli" && Defaults[2].0 == "args";
      assert Defaults[3].0 == "provider" && Defaults[4].0 == "model";
    }
    DefaultsOfEmpty();
    cfg := Some(filled);
  }

  // ===========================================================================
  // Results of /api/exec and JSON values
  // ===========================================================================

  datatype Json =
    | JNull
    | JBool(b: bool)
    | JNum(n: int)
    | JStr(str: string)
    | JArr(elems: seq<Json>)
    | JObj(fields: map<string, Json>)

  /** Python truthiness, as `x or default` tests it. */
  predicate Truthy(v: Json) {
    match v
    case JNull => false
    case JBool(b) => b
    case JNum(n) => n != 0
    case JStr(s) => s != ""
    case JArr(xs) => |xs| > 0
    case JObj(m) => |m| > 0
  }

  /** Lists and dicts: `x in some_set` raises `TypeError` on them. */
  predicate Unhashable(v: Json) {
    v.JArr? || v.JObj?
  }

  /** The `TypeError` message of a membership test on an unhashable value. */
  function UnhashableMessage(v: Json): string
    requires Unhashable(v)
  {
    "unhashable type: '" + PyTypeName(v) + "'"
  }

  /** `str(v)` for a scalar, as an f-string renders it. */
  function ScalarText(v: Json): (r: string)
    requires !Unhashable(v)
    ensures v.JStr? ==> r == v.str
  {
    match v
    case JNull => "None"
    case JBool(b) => if b then "True" else "False"
    case JNum(n) => IntToString(n)
    case JStr(s) => s
  }

  /**
   * What `exec_cli` / `exec_api` return: an `{"error": ...}` dict, the
   * `{"stdout", "stderr", "exit_code"}` dict, or `Aborted` when an exception
   * escapes them.
   */
  datatype ExecResult =
    | Error(msg: string)
    | Output(stdout: Json, stderr: string, exitCode: int)
    | Aborted(reason: string)

  // ===========================================================================
  // exec_cli
  // ===========================================================================

  const AllowedClis: set<string> := {"claude", "gemini", "copilot", "codex", "ollama"}

  /** `sorted(ALLOWED_CLIS)`. */
  const AllowedClisSorted: seq<string> := ["claude", "codex", "copilot", "gemini", "ollama"]

  lemma AllowedClisSortedIsSorted()
    ensures StrictlySorted(AllowedClisSorted)
    ensures (set c | c in AllowedClisSorted) == AllowedClis
  {
    assert LexLess("claude", "codex") by { assert LexLess("laude", "odex"); }
    assert LexLess("codex", "copilot") by { assert LexLess("odex", "opilot") by { assert LexLess("dex", "pilot"); } }
  }

  /** The outcome of `subprocess.run` on one argv. */
  datatype RunOutcome =
    | Completed(stdout: string, stderr: string, code: int)
    | Missing                 // FileNotFoundError
    | Raised(message: string) // any other exception (a non-string argument among them), as `str(e)`

  /** The platform and `subprocess.run`, which receives the argv list exactly as the bridge builds it. */
  datatype Host = Host(windows: bool, run: seq<Json> -> RunOutcome)

  /** The result and every argv handed to `subprocess.run`, in order. */
  datatype CliRun = CliRun(result: ExecResult, spawned: seq<seq<Json>>)

  function WhitelistError(cli: string): string {
    "CLI '" + cli + "' not in whitelist. Allowed: " + Join(AllowedClisSorted, ", ")
  }

  /** A CLI name that passes `cli_name in ALLOWED_CLIS`. */
  predicate Whitelisted(cli: Json) {
    cli.JStr? && cli.str in AllowedClis
  }

  /**
   * `exec_cli(cli_name, args)`. A list or dict as the name makes the
   * whitelist test raise; any other value outside the whitelist is refused by
   * name before anything runs.
   */
  function ExecCli(host: Host, cli: Json, args: seq<Json>): (r: CliRun)
    ensures Unhashable(cli) ==> r == CliRun(Aborted(UnhashableMessage(cli)), [])
    ensures !Unhashable(cli) && !Whitelisted(cli) ==> r == CliRun(Error(WhitelistError(ScalarText(cli))), [])
    ensures Whitelisted(cli) ==> 1 <= |r.spawned| <= 2
    ensures Whitelisted(cli) && !r.result.Aborted? ==>
      var argv := r.spawned[|r.spawned| - 1];
      |argv| == |args| + 1 && (argv[0] == cli || argv[0] == JStr(cli.str + ".cmd")) && argv[1..] == args
    ensures !host.windows && Whitelisted(cli) ==> !r.result.Aborted? && r.spawned == [[cli] + args]
    ensures r.result.Output? ==> var argv := r.spawned[|r.spawned| - 1];
      host.run(argv).Completed? && r.result == Output(JStr(host.run(argv).stdout), host.run(argv).stderr, host.run(argv).code)
  {
    if Unhashable(cli) then CliRun(Aborted(UnhashableMessage(cli)), [])
    else if !Whitelisted(cli) then CliRun(Error(WhitelistError(ScalarText(cli))), [])
    else
      var probe := [cli, JStr("--version")];
      if host.windows && host.run(probe).Raised? then CliRun(Aborted(host.run(probe).message), [probe])
      else
        var cmd := if host.windows && host.run(probe).Missing? then cli.str + ".cmd" else cli.str;
        var argv := [JStr(cmd)] + args;
        var spawned := (if host.windows then [probe] else []) + [argv];
        match host.run(argv)
        case Completed(out, err, code) => CliRun(Output(JStr(out), err, code), spawned)
        case Missing => CliRun(Error("Command '" + cmd + "' not found. Make sure it is installed and on your PATH."), spawned)
        case Raised(m) => CliRun(Error(m), spawned)
  }

  /**
   * A non-zero exit status is returned as data, never as an error, on every
   * platform: whenever the argv finally spawned completes, the result is its
   * `Output` with that exit code. Only a Windows `--version` probe that raises
   * ends the call before the run.
   */
  lemma ExitCodeIsData(host: Host, cli: string, args: seq<Json>)
    requires cli in AllowedClis
    requires !(host.windows && host.run([JStr(cli), JStr("--version")]).Raised?)
    ensures var r := ExecCli(host, JStr(cli), args); var argv := r.spawned[|r.spawned| - 1];
      host.run(argv).Completed? ==> r.result.Output? && r.result.exitCode == host.run(argv).code
  {
  }

  // ===========================================================================
  // exec_api
  // ===========================================================================

  datatype Provider = Anthropic | OpenAI | Google | Ollama

  function ProviderName(p: Provider): string {
    match p
    case Anthropic => "anthropic"
    case OpenAI => "openai"
    case Google => "google"
    case Ollama => "ollama"
  }

  /** `sorted(providers)`. */
  const ProviderNames: seq<string> := ["anthropic", "google", "ollama", "openai"]

  /** The registry lookup `providers[name]`. */
  function ProviderNamed(name: string): (r: Option<Provider>)
    ensures r.Some? <==> name in ProviderNames
    ensures r.Some? ==> ProviderName(r.value) == name
  {
    if name == "anthropic" then Some(Anthropic)
    else if name == "openai" then Some(OpenAI)
    else if name == "google" then Some(Google)
    else if name == "ollama" then Some(Ollama)
    else None
  }

  lemma ProviderNamesListed(p: Provider)
    ensures ProviderName(p) in ProviderNames
    ensures ProviderNamed(ProviderName(p)) == Some(p)
    ensures StrictlySorted(ProviderNames)
  {
    assert LexLess("ollama", "openai") by { assert LexLess("llama", "penai"); }
  }

  /** The environment variable holding the provider's key; Ollama needs none. */
  function EnvKey(p: Provider): Option<string> {
    match p
    case Anthropic => Some("ANTHROPIC_API_KEY")
    case OpenAI => Some("OPENAI_API_KEY")
    case Google => Some("GOOGLE_API_KEY")
    case Ollama => None
  }

  /** The model used when the caller's model is empty (`model or ...`). */
  function DefaultModel(p: Provider): string {
    match p
    case Anthropic => "claude-sonnet-4-5-20250929"
    case OpenAI => "gpt-4o"
    case Google => "gemini-2.0-flash"
    case Ollama => "llama3.1:8b"
  }

  /** `model or <default>`: a falsy model (null, false, 0, "", [] or {}) is replaced by the provider's default. */
  function EffectiveModel(p: Provider, model: Json): Json {
    if Truthy(model) then model else JStr(DefaultModel(p))
  }

  /**
   * `str(model or "gemini-2.0-flash")`, as `format` renders it into the URL;
   * `show` is Python's `str` of a list or dict.
   */
  function FormatModel(show: Json -> string, model: Json): string {
    if !Truthy(model) then "gemini-2.0-flash"
    else if Unhashable(model) then show(model)
    else ScalarText(model)
  }

  const GoogleUrlHead := "https://generativelanguage.googleapis.com/v1beta/models/"
  const GoogleUrlTail := ":generateContent"

  /** The registry URL after `format(model=...)`; only Google's has a `{model}` field. */
  function Endpoint(p: Provider, modelText: string): string {
    match p
    case Anthropic => "https://api.anthropic.com/v1/messages"
    case OpenAI => "https://api.openai.com/v1/chat/completions"
    case Google => GoogleUrlHead + modelText + GoogleUrlTail
    case Ollama => "http://localhost:11434/api/generate"
  }

  datatype ApiRequest = ApiRequest(url: string, headers: map<string, string>, body: Json)

  function UserMessage(prompt: Json): Json {
    JObj(map["role" := JStr("user"), "content" := prompt])
  }

  /** The request body's object fields, or the empty map. */
  function FieldsOf(j: Json): map<string, Json> {
    if j.JObj? then j.fields else map[]
  }

  /** The prompt a request body carries, read back in each provider's format. */
  function PromptOf(p: Provider, body: Json): Option<Json> {
    var f := FieldsOf(body);
    match p
    case Ollama =>
      if "prompt" in f then Some(f["prompt"]) else None
    case Google =>
      if "contents" in f && f["contents"].JArr? && |f["contents"].elems| > 0 then
        var c := FieldsOf(f["contents"].elems[0]);
        if "parts" in c && c["parts"].JArr? && |c["parts"].elems| > 0 then
          var part := FieldsOf(c["parts"].elems[0]);
          if "text" in part then Some(part["text"]) else None
        else None
      else None
    case _ =>
      if "messages" in f && f["messages"].JArr? && |f["messages"].elems| > 0 then
        var m := FieldsOf(f["messages"].elems[0]);
        if "content" in m then Some(m["content"]) else None
      else None
  }

  /** The model a request names: the text inside the URL for Google, the body's `model` otherwise. */
  function ModelOf(p: Provider, req: ApiRequest): Option<Json> {
    if p == Google then
      if StartsWith(req.url, GoogleUrlHead) && |GoogleUrlHead| + |GoogleUrlTail| <= |req.url|
      then Some(JStr(req.url[|GoogleUrlHead|..|req.url| - |GoogleUrlTail|])) else None
    else
      var f := FieldsOf(req.body);
      if "model" in f then Some(f["model"]) else None
  }

  /** The credential header a request carries, if any. */
  function KeySent(p: Provider, req: ApiRequest): Option<string> {
    match p
    case Anthropic => if "x-api-key" in req.headers then Some(req.headers["x-api-key"]) else None
    case Google => if "x-goog-api-key" in req.headers then Some(req.headers["x-goog-api-key"]) else None
    case OpenAI =>
      if "Authorization" in req.headers && StartsWith(req.headers["Authorization"], "Bearer ")
      then Some(req.headers["Authorization"][7..]) else None
    case Ollama => None
  }

  /** The URL `exec_api` formats and the registry's `build_request`. */
  function BuildRequest(show: Json -> string, p: Provider, key: string, model: Json, prompt: Json): (r: ApiRequest)
    ensures PromptOf(p, r.body) == Some(prompt)
    ensures ModelOf(p, r) == Some(if p == Google then JStr(FormatModel(show, model)) else EffectiveModel(p, model))
    ensures model.JStr? ==> ModelOf(p, r) == Some(EffectiveModel(p, model))
    ensures KeySent(p, r) == (if EnvKey(p).Some? then Some(key) else None)
    ensures "Content-Type" in r.headers && r.headers["Content-Type"] == "application/json"
  {
    var json := "application/json";
    var url := Endpoint(p, FormatModel(show, model));
    match p
    case Anthropic =>
      ApiRequest(url,
        map["Content-Type" := json, "x-api-key" := key, "anthropic-version" := "2023-06-01"],
        JObj(map["model" := EffectiveModel(p, model), "max_tokens" := JNum(1024),
                 "messages" := JArr([UserMessage(prompt)])]))
    case OpenAI =>
      ApiRequest(url,
        map["Content-Type" := json, "Authorization" := "Bearer " + key],
        JObj(map["model" := EffectiveModel(p, model), "messages" := JArr([UserMessage(prompt)])]))
    case Google =>
      ApiRequest(url,
        map["Content-Type" := json, "x-goog-api-key" := key],
        JObj(map["contents" := JArr([JObj(map["parts" := JArr([JObj(map["text" := prompt])])])])]))
    case Ollama =>
      ApiRequest(url,
        map["Content-Type" := json],
        JObj(map["model" := EffectiveModel(p, model), "prompt" := prompt, "stream" := JBool(false)]))
  }

  /** A falsy model, whatever its JSON type, is sent as the provider's default model. */
  lemma FalsyModelIsDefault(show: Json -> string, p: Provider, key: string, model: Json, prompt: Json)
    requires !Truthy(model)
    ensures ModelOf(p, BuildRequest(show, p, key, model, prompt)) == Some(JStr(DefaultModel(p)))
  {
  }

  /** A Python expression's value, or the text of the exception it raises. */
  datatype Eval = Got(value: Json) | Threw(message: string)

  function PyTypeName(v: Json): string {
    match v
    case JNull => "NoneType"
    case JBool(_) => "bool"
    case JNum(_) => "int"
    case JStr(_) => "str"
    case JArr(_) => "list"
    case JObj(_) => "dict"
  }

  /** `v.get(key, default)`. */
  function PyGet(v: Eval, key: string, default: Json): (r: Eval)
    ensures v.Threw? ==> r == v
    ensures v.Got? && v.value.JObj? ==> r == Got(if key in v.value.fields then v.value.fields[key] else default)
    ensures v.Got? && !v.value.JObj? ==> r.Threw?
  {
    match v
    case Threw(_) => v
    case Got(JObj(f)) => Got(if key in f then f[key] else default)
    case Got(x) => Threw("'" + PyTypeName(x) + "' object has no attribute 'get'")
  }

  /** `v[0]`. */
  /** The message of the `IndexError` raised by `[0]` on an empty list. */
  const IndexOutOfRange := "list index out of range"

  function PyFirst(v: Eval): (r: Eval)
    ensures v.Got? && v.value.JArr? ==> (r.Got? <==> |v.value.elems| > 0)
    ensures v.Got? && v.value == JArr([]) ==> r == Threw(IndexOutOfRange)
  {
    match v
    case Threw(_) => v
    case Got(JArr(xs)) => if |xs| > 0 then Got(xs[0]) else Threw(IndexOutOfRange)
    case Got(JStr(s)) => if |s| > 0 then Got(JStr([s[0]])) else Threw("string index out of range")
    case Got(JObj(_)) => Threw("0")
    case Got(x) => Threw("'" + PyTypeName(x) + "' object is not subscriptable")
  }

  const NoDict := JObj(map[])
  const ListOfNoDict := JArr([JObj(map[])])

  /** The registry's `parse_response`. */
  function ParseResponse(p: Provider, data: Json): (r: Eval)
    ensures !data.JObj? ==> r.Threw?
    ensures data == JObj(map[]) ==> r == Got(JStr(""))
  {
    var d := Got(data);
    match p
    case Anthropic => PyGet(PyFirst(PyGet(d, "content", ListOfNoDict)), "text", JStr(""))
    case OpenAI => PyGet(PyGet(PyFirst(PyGet(d, "choices", ListOfNoDict)), "message", NoDict), "content", JStr(""))
    case Google =>
      PyGet(PyFirst(PyGet(PyGet(PyFirst(PyGet(d, "candidates", ListOfNoDict)), "content", NoDict), "parts", ListOfNoDict)),
            "text", JStr(""))
    case Ollama => PyGet(d, "response", JStr(""))
  }

  /** The top-level list a provider's reply is read through (Ollama has none). */
  function ListKey(p: Provider): string {
    match p
    case Anthropic => "content"
    case OpenAI => "choices"
    case Google => "candidates"
    case Ollama => "response"
  }

  /** A present but empty top-level list raises, where a missing one reads as "". */
  lemma ParseEmptyListRaises(p: Provider)
    requires p != Ollama
    ensures ParseResponse(p, JObj(map[ListKey(p) := JArr([])])) == Threw(IndexOutOfRange)
  {
  }

  /** The text of a well-formed Anthropic reply is its first content block's `text`. */
  lemma ParseAnthropicText(block: map<string, Json>, rest: seq<Json>, t: Json)
    requires "text" in block && block["text"] == t
    ensures ParseResponse(Anthropic, JObj(map["content" := JArr([JObj(block)] + rest)])) == Got(t)
  {
  }

  /** The text of a well-formed OpenAI reply is its first choice's `message.content`. */
  lemma ParseOpenAIText(message: map<string, Json>, choice: map<string, Json>, rest: seq<Json>, t: Json)
    requires "content" in message && message["content"] == t
    requires "message" in choice && choice["message"] == JObj(message)
    ensures ParseResponse(OpenAI, JObj(map["choices" := JArr([JObj(choice)] + rest)])) == Got(t)
  {
  }

  /** The text of a well-formed Google reply is the first part's `text` of the first candidate's `content`. */
  lemma ParseGoogleText(part: map<string, Json>, parts: seq<Json>, content: map<string, Json>,
                        candidate: map<string, Json>, rest: seq<Json>, t: Json)
    requires "text" in part && part["text"] == t
    requires "parts" in content && content["parts"] == JArr([JObj(part)] + parts)
    requires "content" in candidate && candidate["content"] == JObj(content)
    ensures ParseResponse(Google, JObj(map["candidates" := JArr([JObj(candidate)] + rest)])) == Got(t)
  {
  }

  /** The text of an Ollama reply is its `response` field, and a reply without one reads as "". */
  lemma ParseOllamaText(fields: map<string, Json>)
    ensures ParseResponse(Ollama, JObj(fields)) == Got(if "response" in fields then fields["response"] else JStr(""))
  {
  }

  /** `urlopen` on one request: a reply body, an `HTTPError`, or another failure. */
  datatype HttpOutcome = Replied(body: string) | HttpError(code: int, errorBody: string) | Failed(reason: string)

  /** The network, `json.loads` of the decoded reply body, and Python's `str` of a list or dict. */
  datatype Net = Net(post: ApiRequest -> HttpOutcome, decode: string -> Eval, show: Json -> string)

  datatype ApiRun = ApiRun(result: ExecResult, sent: seq<ApiRequest>)

  function ApiKeyOf(vars: map<string, string>, p: Provider): string {
    match EnvKey(p)
    case None => ""
    case Some(k) => if k in vars then vars[k] else ""
  }

  /** The registry entry a provider value selects; a list or dict never gets this far. */
  function ProviderOf(provider: Json): Option<Provider> {
    if provider.JStr? then ProviderNamed(provider.str) else None
  }

  function UnknownProvider(provider: Json): string
    requires !Unhashable(provider)
  {
    "Unknown provider '" + ScalarText(provider) + "'. Supported: " + Join(ProviderNames, ", ")
  }

  /**
   * `exec_api(provider, model, prompt)`. A list or dict as the provider makes
   * `provider not in providers` raise out of the function.
   */
  function ExecApi(net: Net, vars: map<string, string>, provider: Json, model: Json, prompt: Json): (r: ApiRun)
    ensures Unhashable(provider) ==> r == ApiRun(Aborted(UnhashableMessage(provider)), [])
    ensures !Unhashable(provider) && ProviderOf(provider).None? ==> r == ApiRun(Error(UnknownProvider(provider)), [])
    ensures ProviderOf(provider).Some? && EnvKey(ProviderOf(provider).value).Some? && ApiKeyOf(vars, ProviderOf(provider).value) == "" ==>
      r == ApiRun(Error("Set " + EnvKey(ProviderOf(provider).value).value + " environment variable for " + provider.str + " API access."), [])
    ensures ProviderOf(provider).Some? && (EnvKey(ProviderOf(provider).value).None? || ApiKeyOf(vars, ProviderOf(provider).value) != "") ==>
      var p := ProviderOf(provider).value;
      r.sent == [BuildRequest(net.show, p, ApiKeyOf(vars, p), model, prompt)]
    ensures provider == JStr("ollama") ==> |r.sent| == 1
    ensures |r.sent| <= 1 && (!Unhashable(provider) ==> !r.result.Aborted?)
    ensures r.result.Output? ==>
      |r.sent| == 1 && net.post(r.sent[0]).Replied? && r.result.stderr == "" && r.result.exitCode == 0
      && ProviderOf(provider).Some? && net.decode(net.post(r.sent[0]).body).Got?
      && ParseResponse(ProviderOf(provider).value, net.decode(net.post(r.sent[0]).body).value) == Got(r.result.stdout)
    ensures |r.sent| == 1 && net.post(r.sent[0]).HttpError? ==>
      var e := net.post(r.sent[0]);
      r.result == Error(provider.str + " API error (" + IntToString(e.code) + "): " + e.errorBody)
    ensures |r.sent| == 1 && net.post(r.sent[0]).Failed? ==>
      r.result == Error(provider.str + " API call failed: " + net.post(r.sent[0]).reason)
    ensures |r.sent| == 1 && net.post(r.sent[0]).Replied? && net.decode(net.post(r.sent[0]).body).Threw? ==>
      r.result == Error(provider.str + " API call failed: " + net.decode(net.post(r.sent[0]).body).message)
    ensures |r.sent| == 1 && net.post(r.sent[0]).Replied? && net.decode(net.post(r.sent[0]).body).Got? ==>
      ProviderOf(provider).Some? &&
      var parsed := ParseResponse(ProviderOf(provider).value, net.decode(net.post(r.sent[0]).body).value);
      r.result == (if parsed.Got? then Output(parsed.value, "", 0) else Error(provider.str + " API call failed: " + parsed.message))
  {
    if Unhashable(provider) then ApiRun(Aborted(UnhashableMessage(provider)), [])
    else match ProviderOf(provider)
    case None => ApiRun(Error(UnknownProvider(provider)), [])
    case Some(p) =>
      var name := provider.str;
      var key := ApiKeyOf(vars, p);
      if EnvKey(p).Some? && key == "" then
        ApiRun(Error("Set " + EnvKey(p).value + " environment variable for " + name + " API access."), [])
      else
        var req := BuildRequest(net.show, p, key, model, prompt);
        var failed := name + " API call failed: ";
        var result := match net.post(req)
          case HttpError(code, body) => Error(name + " API error (" + IntToString(code) + "): " + body)
          case Failed(reason) => Error(failed + reason)
          case Replied(raw) =>
            match net.decode(raw)
            case Threw(m) => Error(failed + m)
            case Got(data) =>
              match ParseResponse(p, data)
              case Threw(m) => Error(failed + m)
              case Got(text) => Output(text, "", 0);
        ApiRun(result, [req])
  }

  /** A reply the provider's parser raises on is reported as a failed call carrying the exception text. */
  lemma ParseFailureIsCallFailure(net: Net, vars: map<string, string>, p: Provider, model: Json, prompt: Json, data: Json, m: string)
    requires EnvKey(p).None? || ApiKeyOf(vars, p) != ""
    requires net.post(BuildRequest(net.show, p, ApiKeyOf(vars, p), model, prompt)).Replied?
    requires net.decode(net.post(BuildRequest(net.show, p, ApiKeyOf(vars, p), model, prompt)).body) == Got(data)
    requires ParseResponse(p, data) == Threw(m)
    ensures ExecApi(net, vars, JStr(ProviderName(p)), model, prompt).result
      == Error(ProviderName(p) + " API call failed: " + m)
  {
    ProviderNamesListed(p);
  }

  /** An empty reply list surfaces as a failed call, not as empty output. */
  lemma EmptyListIsCallFailure(net: Net, vars: map<string, string>, p: Provider, model: Json, prompt: Json, raw: string)
    requires p != Ollama && ApiKeyOf(vars, p) != ""
    requires net.post(BuildRequest(net.show, p, ApiKeyOf(vars, p), model, prompt)) == Replied(raw)
    requires net.decode(raw) == Got(JObj(map[ListKey(p) := JArr([])]))
    ensures ExecApi(net, vars, JStr(ProviderName(p)), model, prompt).result
      == Error(ProviderName(p) + " API call failed: " + IndexOutOfRange)
  {
    ParseEmptyListRaises(p);
    ParseFailureIsCallFailure(net, vars, p, model, prompt, JObj(map[ListKey(p) := JArr([])]), IndexOutOfRange);
  }

  // ===========================================================================
  // do_POST
  // ===========================================================================

  /** The parsed request body: unreadable, a JSON value that is not an object, or its fields. */
  datatype Body = Unreadable(detail: string) | NotObject | Fields(fields: map<string, Json>)

  datatype PostRequest = PostRequest(path: string, body: Body)

  /** `Dropped`: an exception escaped the handler, so no reply is sent. */
  datatype Reply = Ok(payload: Json) | ServerError(message: string) | Forbidden | NotFound | Dropped

  function Status(r: Reply): Option<int> {
    match r
    case Ok(_) => Some(200)
    case ServerError(_) => Some(500)
    case Forbidden => Some(403)
    case NotFound => Some(404)
    case Dropped => None
  }

  datatype PostOutcome = PostOutcome(reply: Reply, fs: FileSystem, spawned: seq<seq<Json>>, sent: seq<ApiRequest>)

  /** `f.get(k, default)` on a JSON object. */
  function Field(f: map<string, Json>, k: string, default: Json): Json {
    if k in f then f[k] else default
  }

  /** The reply for an `exec_cli` / `exec_api` result. */
  function ReplyFor(r: ExecResult): (reply: Reply)
    ensures r.Error? <==> reply.ServerError?
    ensures r.Output? <==> reply.Ok?
  {
    match r
    case Error(m) => ServerError(m)
    case Output(out, err, code) => Ok(JObj(map["stdout" := out, "stderr" := JStr(err), "exit_code" := JNum(code)]))
    case Aborted(_) => Dropped
  }

  /** The mode `/api/exec` runs in: the request's, else the config's. */
  function ModeOf(ai: AiSection, f: map<string, Json>): Json
    requires "mode" in ai
  {
    Field(f, "mode", ai["mode"])
  }

  /**
   * `/api/exec` on a loaded section. The config's `args` is concatenated with
   * `[prompt]` before `exec_cli` runs, which raises unless it is a list.
   */
  function RouteExec(env: Env, ai: AiSection, f: map<string, Json>): PostOutcome
    requires DefaultAi.Keys <= ai.Keys
  {
    var prompt := Field(f, "prompt", JStr(""));
    if ModeOf(ai, f) == JStr("api") then
      var run := ExecApi(env.net, env.vars, Field(f, "provider", ai["provider"]), Field(f, "model", ai["model"]), prompt);
      PostOutcome(ReplyFor(run.result), env.fs, [], run.sent)
    else if !ai["args"].JArr? then PostOutcome(Dropped, env.fs, [], [])
    else
      var run := ExecCli(env.host, Field(f, "cli", ai["cli"]), ai["args"].elems + [prompt]);
      PostOutcome(ReplyFor(run.result), env.fs, run.spawned, [])
  }

  /** Resolve `root / rel` lexically: `..` climbs (the root is its own parent), `.` and empty segments vanish. */
  function Normalise(acc: Path, segs: seq<string>): Path
    decreases |segs|
  {
    if segs == [] then acc
    else if segs[0] == "" || segs[0] == "." then Normalise(acc, segs[1..])
    else if segs[0] == ".." then Normalise(Parent(acc), segs[1..])
    else Normalise(acc + [segs[0]], segs[1..])
  }

  function ResolvePath(root: Path, rel: string): Path {
    Normalise(if StartsWith(rel, "/") then [] else root, Split(rel, '/'))
  }

  /** The containment the write guard means: `full` is `root` or lies below it, segment by segment. */
  predicate WithinRoot(root: Path, full: Path) {
    root <= full
  }

  /** The shallowest existing file among the proper ancestors `full[..k]`, `k >= from`. */
  function FirstFileAncestor(fs: FileSystem, full: Path, from: nat): (r: Option<nat>)
    requires from <= |full|
    ensures r.Some? ==> from <= r.value < |full| && full[..r.value] in fs.files
    ensures r.Some? ==> forall k :: from <= k < r.value ==> full[..k] !in fs.files
    ensures r.None? ==> forall k :: from <= k < |full| ==> full[..k] !in fs.files
    decreases |full| - from
  {
    if from == |full| then None
    else if full[..from] in fs.files then Some(from)
    else FirstFileAncestor(fs, full, from + 1)
  }

  function Quoted(p: Path): string {
    "'" + PathText(p) + "'"
  }

  /** The `TypeError` text of `write()` given something other than a string. */
  function WriteTypeError(content: Json): string {
    "write() argument must be str, not " + (if content.JNull? then "None" else PyTypeName(content))
  }

  /**
   * `os.makedirs(full.parent, exist_ok=True)` then `open(full, "w").write(content)`;
   * `open` truncates the file before a non-string `content` makes `write` raise.
   */
  function WriteFile(fs: FileSystem, full: Path, content: Json): (r: (Reply, FileSystem))
    ensures r.1.files.Keys == fs.files.Keys || r.1.files.Keys == fs.files.Keys + {full}
    ensures forall p :: p in fs.files && p != full ==> r.1.files[p] == fs.files[p]
    ensures r.0.Ok? ==> content.JStr? && r.1.files == fs.files[full := content.str] && full !in fs.dirs
    ensures !content.JStr? ==> !r.0.Ok?
    ensures r.1.files == fs.files || r.1.files == fs.files[full := if content.JStr? then content.str else ""]
    ensures fs.dirs <= r.1.dirs
    ensures FirstFileAncestor(fs, full, 0).Some? ==> r.0.ServerError? && r == (r.0, fs)
    ensures FirstFileAncestor(fs, full, 0).None? ==> forall k :: 0 <= k < |full| ==> full[..k] in r.1.dirs
    ensures content.JStr? && FirstFileAncestor(fs, full, 0).None? && full !in fs.dirs ==>
      r.0 == Ok(JObj(map["success" := JBool(true)])) && r.1.files == fs.files[full := content.str]
  {
    match FirstFileAncestor(fs, full, 0)
    case Some(k) =>
      if k == |full| - 1 then (ServerError("[Errno 17] File exists: " + Quoted(full[..k])), fs)
      else (ServerError("[Errno 20] Not a directory: " + Quoted(full[..k + 1])), fs)
    case None =>
      var fs1 := FileSystem(fs.dirs + (set k | 0 <= k < |full| :: full[..k]), fs.files);
      if full in fs1.dirs then (ServerError("[Errno 21] Is a directory: " + Quoted(full)), fs1)
      else if content.JStr? then (Ok(JObj(map["success" := JBool(true)])), FileSystem(fs1.dirs, fs1.files[full := content.str]))
      else (ServerError(WriteTypeError(content)), FileSystem(fs1.dirs, fs1.files[full := ""]))
  }

  /**
   * `/api/fs/write`. A missing or non-string `path` makes `project_root / rel_path`
   * raise; the containment test is the segment-wise one (see the write guard below).
   */
  function RouteWrite(env: Env, f: map<string, Json>): PostOutcome {
    if "path" !in f || !f["path"].JStr? then PostOutcome(Dropped, env.fs, [], [])
    else
      var root := ProjectRoot(env);
      var full := ResolvePath(root, f["path"].str);
      if !WithinRoot(root, full) then PostOutcome(Forbidden, env.fs, [], [])
      else
        var w := WriteFile(env.fs, full, Field(f, "content", JNull));
        PostOutcome(w.0, w.1, [], [])
  }

  function HandlePost(env: Env, req: PostRequest): (o: PostOutcome)
    ensures req.body.Unreadable? ==> o == PostOutcome(ServerError("Invalid JSON: " + req.body.detail), env.fs, [], [])
    ensures req.path != "/api/fs/write" ==> o.fs == env.fs
    ensures req.path != "/api/exec" ==> o.spawned == [] && o.sent == []
    ensures req.path != "/api/exec" && req.path != "/api/fs/write" && !req.body.Unreadable? ==> o.reply == NotFound
    ensures o.reply == Forbidden ==> o.fs == env.fs
  {
    match req.body
    case Unreadable(detail) => PostOutcome(ServerError("Invalid JSON: " + detail), env.fs, [], [])
    case NotObject =>
      if req.path == "/api/exec" || req.path == "/api/fs/write" then PostOutcome(Dropped, env.fs, [], [])
      else PostOutcome(NotFound, env.fs, [], [])
    case Fields(f) =>
      if req.path == "/api/exec" then
        match ConfigFor(env)
        case None => PostOutcome(Dropped, env.fs, [], [])
        case Some(ai) =>
          ConfigHasDefaultKeys(env);
          RouteExec(env, ai, f)
      else if req.path == "/api/fs/write" then RouteWrite(env, f)
      else PostOutcome(NotFound, env.fs, [], [])
  }

  /** Every section `load_config` returns holds all five default keys. */
  lemma ConfigHasDefaultKeys(env: Env)
    ensures ConfigFor(env).Some? ==> DefaultAi.Keys <= ConfigFor(env).value.Keys
  {
    assert KeysOf(Defaults) == DefaultAi.Keys by {
      assert Defaults[0].0 == "mode" && Defaults[1].0 == "cli" && Defaults[2].0 == "args";
      assert Defaults[3].0 == "provider" && Defaults[4].0 == "model";
    }
    SetDefaultsFillsOnlyMissing(map[], Defaults);
    if ConfigFor(env).Some? {
      var path := ProjectRoot(env) + [ConfigName];
      if Exists(env.fs, path) {
        var ai := env.readConfig(env.fs.files[path]).ai.GetOr(map[]);
        SetDefaultsFillsOnlyMissing(ai, Defaults);
      }
    }
  }

  // ---------------------------------------------------------------------------
  // Properties of the routing
  // ---------------------------------------------------------------------------

  /** With a loaded configuration, `/api/exec` is routed on that configuration's section. */
  lemma ExecUsesConfig(env: Env, f: map<string, Json>, ai: AiSection)
    requires ConfigFor(env) == Some(ai)
    ensures DefaultAi.Keys <= ai.Keys
    ensures HandlePost(env, PostRequest("/api/exec", Fields(f))) == RouteExec(env, ai, f)
  {
    ConfigHasDefaultKeys(env);
  }

  /**
   * Outside `api` mode `/api/exec` runs the request's CLI, else the config's,
   * with the config's arguments followed by the prompt, and answers 500 exactly
   * for an error result.
   */
  lemma ExecRunsCli(env: Env, f: map<string, Json>, ai: AiSection, args: seq<Json>)
    requires ConfigFor(env) == Some(ai) && "mode" in ai && "cli" in ai && "args" in ai
    requires ModeOf(ai, f) != JStr("api") && ai["args"] == JArr(args)
    ensures var o := HandlePost(env, PostRequest("/api/exec", Fields(f)));
      var run := ExecCli(env.host, Field(f, "cli", ai["cli"]), args + [Field(f, "prompt", JStr(""))]);
      o.spawned == run.spawned && o.sent == [] && o.fs == env.fs && o.reply == ReplyFor(run.result)
      && (o.reply.ServerError? <==> run.result.Error?)
  {
    ExecUsesConfig(env, f, ai);
  }

  /** Outside `api` mode, a config `args` that is not a list makes the handler raise: no reply, nothing run. */
  lemma ExecNeedsListArgs(env: Env, f: map<string, Json>, ai: AiSection)
    requires ConfigFor(env) == Some(ai) && "mode" in ai && "args" in ai
    requires ModeOf(ai, f) != JStr("api") && !ai["args"].JArr?
    ensures HandlePost(env, PostRequest("/api/exec", Fields(f))) == PostOutcome(Dropped, env.fs, [], [])
  {
    ExecUsesConfig(env, f, ai);
  }

  /** The prompt is the last argument of the command a whitelisted CLI runs. */
  lemma PromptIsLastArgument(host: Host, cli: string, args: seq<Json>, prompt: Json)
    requires cli in AllowedClis
    ensures var run := ExecCli(host, JStr(cli), args + [prompt]);
      !run.result.Aborted? ==> var argv := run.spawned[|run.spawned| - 1]; argv[|argv| - 1] == prompt
  {
    var run := ExecCli(host, JStr(cli), args + [prompt]);
    if !run.result.Aborted? {
      var argv := run.spawned[|run.spawned| - 1];
      assert |argv| == |args| + 2 && argv[1..] == args + [prompt];
      assert argv[|argv| - 1] == (args + [prompt])[|args|];
    }
  }

  /**
   * In `api` mode `/api/exec` calls the request's provider and model, else the
   * config's, whatever their JSON types, and spawns nothing.
   */
  lemma ExecCallsApiInApiMode(env: Env, f: map<string, Json>, ai: AiSection)
    requires ConfigFor(env) == Some(ai) && "mode" in ai && "provider" in ai && "model" in ai
    requires ModeOf(ai, f) == JStr("api")
    ensures var o := HandlePost(env, PostRequest("/api/exec", Fields(f)));
      var run := ExecApi(env.net, env.vars, Field(f, "provider", ai["provider"]), Field(f, "model", ai["model"]), Field(f, "prompt", JStr("")));
      o.spawned == [] && o.sent == run.sent && o.fs == env.fs && o.reply == ReplyFor(run.result)
  {
    ExecUsesConfig(env, f, ai);
  }

  /**
   * A write whose resolved path leaves the project root is answered 403 and
   * writes nothing (the segment-wise containment the guard is meant to test).
   */
  lemma WriteOutsideRootForbidden(env: Env, f: map<string, Json>)
    requires "path" in f && f["path"].JStr?
    requires !WithinRoot(ProjectRoot(env), ResolvePath(ProjectRoot(env), f["path"].str))
    ensures HandlePost(env, PostRequest("/api/fs/write", Fields(f))) == PostOutcome(Forbidden, env.fs, [], [])
  {
  }

  /** No request changes a file outside the project root, and no file disappears. */
  lemma WritesStayInsideRoot(env: Env, req: PostRequest)
    ensures var o := HandlePost(env, req);
      env.fs.files.Keys <= o.fs.files.Keys
      && forall p :: p in o.fs.files && (p !in env.fs.files || o.fs.files[p] != env.fs.files[p])
           ==> WithinRoot(ProjectRoot(env), p)
  {
    var o := HandlePost(env, req);
    if req.path == "/api/fs/write" && req.body.Fields? && "path" in req.body.fields && req.body.fields["path"].JStr? {
      var root := ProjectRoot(env);
      var f := req.body.fields;
      var full := ResolvePath(root, f["path"].str);
      if WithinRoot(root, full) {
        var w := WriteFile(env.fs, full, Field(f, "content", JNull));
        assert o.fs == w.1;
        forall p | p in o.fs.files && (p !in env.fs.files || o.fs.files[p] != env.fs.files[p])
          ensures WithinRoot(root, p)
        {
          assert p == full;
        }
      }
    }
  }

  /** A successful write had a string path and content, and stores the content at the resolved path only. */
  lemma WriteStoresContent(env: Env, f: map<string, Json>)
    ensures var o := HandlePost(env, PostRequest("/api/fs/write", Fields(f)));
      o.reply.Ok? ==>
        "path" in f && f["path"].JStr? && "content" in f && f["content"].JStr?
        && o.fs.files == env.fs.files[ResolvePath(ProjectRoot(env), f["path"].str) := f["content"].str]
  {
  }

  /**
   * A write of string content to a path inside the root, whose proper ancestors
   * are no files and which is no directory, succeeds: its parents exist afterwards
   * and the content is stored there.
   */
  lemma ValidWriteSucceeds(env: Env, f: map<string, Json>)
    requires "path" in f && f["path"].JStr? && "content" in f && f["content"].JStr?
    requires var full := ResolvePath(ProjectRoot(env), f["path"].str);
      WithinRoot(ProjectRoot(env), full) && FirstFileAncestor(env.fs, full, 0).None? && full !in env.fs.dirs
    ensures var o := HandlePost(env, PostRequest("/api/fs/write", Fields(f)));
      var full := ResolvePath(ProjectRoot(env), f["path"].str);
      o.reply == Ok(JObj(map["success" := JBool(true)]))
      && o.fs.files == env.fs.files[full := f["content"].str]
      && (forall k :: 0 <= k < |full| ==> full[..k] in o.fs.dirs)
      && o.spawned == [] && o.sent == []
  {
  }

  // ---------------------------------------------------------------------------
  // The write guard as written
  // ---------------------------------------------------------------------------

  /** The guard the handler applies: the resolved path's text starts with the root's text. */
  predicate WriteGuardAsWritten(root: Path, full: Path) {
    StartsWith(PathText(full), PathText(root))
  }

  lemma {:induction false} JoinPrefix(a: seq<string>, b: seq<string>, sep: string)
    requires a <= b
    ensures StartsWith(Join(b, sep), Join(a, sep))
    decreases |a|
  {
    if |a| == 1 {
      assert Join(b, sep) == b[0] + (Join(b, sep)[|b[0]|..]);
    } else if |a| > 1 {
      JoinPrefix(a[1..], b[1..], sep);
      var rest := Join(b[1..], sep);
      assert Join(b, sep) == a[0] + sep + rest;
      assert rest == Join(a[1..], sep) + rest[|Join(a[1..], sep)|..];
      assert Join(b, sep) == Join(a, sep) + rest[|Join(a[1..], sep)|..];
    }
  }

  /** Every path the intended containment accepts also passes the guard as written. */
  lemma WithinRootPassesAsWritten(root: Path, full: Path)
    requires WithinRoot(root, full)
    ensures WriteGuardAsWritten(root, full)
  {
    JoinPrefix(root, full, "/");
  }

  /** Joining keeps a prefix when the lists agree up to a last element that `b` only extends. */
  lemma {:induction false} JoinPrefixLast(a: seq<string>, b: seq<string>, sep: string)
    requires 0 < |a| <= |b|
    requires a[..|a| - 1] == b[..|a| - 1]
    requires StartsWith(b[|a| - 1], a[|a| - 1])
    ensures StartsWith(Join(b, sep), Join(a, sep))
    decreases |a|
  {
    if |a| == 1 {
      assert Join(b, sep) == b[0] + (Join(b, sep)[|b[0]|..]);
    } else {
      assert a[1..][..|a| - 2] == a[..|a| - 1][1..];
      assert b[1..][..|a| - 2] == b[..|a| - 1][1..];
      assert a[0] == a[..|a| - 1][0];
      assert b[0] == b[..|a| - 1][0];
      JoinPrefixLast(a[1..], b[1..], sep);
      var rest := Join(b[1..], sep);
      assert a[0] == b[0];
      assert Join(b, sep) == a[0] + sep + rest;
      assert rest == Join(a[1..], sep) + rest[|Join(a[1..], sep)|..];
      assert Join(b, sep) == Join(a, sep) + rest[|Join(a[1..], sep)|..];
    }
  }

  /** `../<sibling>/<file>` is relative and splits into its three segments. */
  lemma SiblingSegments(sibling: string, file: string)
    requires '/' !in sibling && '/' !in file
    ensures !StartsWith("../" + sibling + "/" + file, "/")
    ensures Split("../" + sibling + "/" + file, '/') == ["..", sibling, file]
  {
    var tail := sibling + ['/'] + file;
    RegroupParent(sibling, file);
    SplitNoSeparator(file, '/');
    SplitAtFirst(sibling, file, '/');
    assert '/' !in "..";
    SplitAtFirst("..", tail, '/');
  }

  /** `../<a>/<b>` is `..`, a separator, and `<a>/<b>`, and does not start with `/`. */
  lemma RegroupParent(a: string, b: string)
    ensures "../" + a + "/" + b == ".." + ['/'] + (a + ['/'] + b)
    ensures !StartsWith("../" + a + "/" + b, "/")
  {
    assert "../" == ".." + ['/'] && "/" == ['/'];
    var rel := "../" + a + "/" + b;
    assert rel[0] == '.';
  }

  /** Climbing out of `name` and descending into `sibling`, then `file`. */
  lemma SiblingNormalises(parent: Path, name: string, sibling: string, file: string)
    requires sibling != "" && sibling != "." && sibling != ".."
    requires file != "" && file != "." && file != ".."
    ensures Normalise(parent + [name], ["..", sibling, file]) == parent + [sibling, file]
  {
    var segs := ["..", sibling, file];
    assert segs[1..] == [sibling, file] && segs[1..][1..] == [file];
    assert Parent(parent + [name]) == parent;
    assert Normalise(parent + [sibling], [file]) == parent + [sibling, file];
  }

  /** `../<sibling>/<file>` resolves to `<sibling>/<file>` beside `name`. */
  lemma SiblingResolves(parent: Path, name: string, sibling: string, file: string)
    requires '/' !in sibling && '/' !in file
    requires sibling != "" && sibling != "." && sibling != ".."
    requires file != "" && file != "." && file != ".."
    ensures ResolvePath(parent + [name], "../" + sibling + "/" + file) == parent + [sibling, file]
  {
    SiblingSegments(sibling, file);
    SiblingNormalises(parent, name, sibling, file);
  }

  /**
   * The guard as written lets a write escape into a sibling directory whose
   * name extends the root's: under root `parent/name`, the relative path
   * `../<name><suffix>/<file>` resolves to `parent/<name><suffix>/<file>`,
   * outside the root, yet its text starts with the root's text (for example
   * root `/w/proj` and `../proj-evil/x`).
   */
  lemma AsWrittenGuardAdmitsSibling(parent: Path, name: string, suffix: string, file: string)
    requires name != "" && suffix != "" && file != ""
    requires '/' !in name && '/' !in suffix && '/' !in file
    requires name + suffix != ".." && file != "." && file != ".."
    ensures var root := parent + [name];
      var full := ResolvePath(root, "../" + (name + suffix) + "/" + file);
      full == parent + [name + suffix, file] && WriteGuardAsWritten(root, full) && !WithinRoot(root, full)
  {
    var root := parent + [name];
    var sibling := name + suffix;
    var full := parent + [sibling, file];
    SiblingResolves(parent, name, sibling, file);
    assert StartsWith(sibling, name) by { assert sibling[..|name|] == name; }
    JoinPrefixLast(root, full, "/");
    assert !WithinRoot(root, full) by { assert |full[|parent|]| != |root[|parent|]|; }
  }

  // ===========================================================================
  // run_server
  // ===========================================================================

  /**
   * How serving ends: bound to a port, an `OSError` other than "address in
   * use" re-raised at a port, the `OverflowError` that `bind` raises for a
   * port outside 0..65535, which the handler's `except OSError` does not catch,
   * or a `load_config` that raises once the port is bound (a malformed
   * `.cockpit.json` raises `ValueError`; one that cannot be opened raises an
   * `OSError` whose errno is not "address in use", which is re-raised).
   */
  datatype ServeResult =
    | Serving(port: int)
    | BindRaised(port: int, errno: int)
    | PortOverflow(port: int)
    | ConfigRaised(port: int)

  const MaxPort := 65535

  /** "Address already in use" on Linux (98) and Windows (10048). */
  predicate AddressInUse(errno: int) {
    errno == 98 || errno == 10048
  }

  /**
   * Where serving ends when started at `port`; `failures` maps each port whose
   * bind fails to its errno, and `configLoads` says whether `load_config` returns.
   */
  function StartFrom(failures: map<int, int>, port: int, configLoads: bool): ServeResult
    decreases MaxPort + 1 - port
  {
    if port < 0 || port > MaxPort then PortOverflow(port)
    else if port !in failures then (if configLoads then Serving(port) else ConfigRaised(port))
    else if !AddressInUse(failures[port]) then BindRaised(port, failures[port])
    else StartFrom(failures, port + 1, configLoads)
  }

  /** `run_server(port)`: retry at the next port while the port is in use, then load the configuration. */
  method RunServer(env: Env, failures: map<int, int>, start: int) returns (r: ServeResult)
    ensures r == StartFrom(failures, start, ConfigFor(env).Some?)
  {
    var port := start;
    while 0 <= port <= MaxPort && port in failures && AddressInUse(failures[port])
      invariant StartFrom(failures, port, ConfigFor(env).Some?) == StartFrom(failures, start, ConfigFor(env).Some?)
      decreases MaxPort + 1 - port
    {
      port := port + 1;
    }
    if port < 0 || port > MaxPort {
      r := PortOverflow(port);
    } else if port in failures {
      r := BindRaised(port, failures[port]);
    } else {
      var config := LoadConfig(env);
      if config.None? {
        r := ConfigRaised(port);
      } else {
        r := Serving(port);
      }
    }
  }

  /**
   * Serving ends at the first port at or after `start` that binds, fails for
   * another reason, or is out of range; every port skipped was in range and in
   * use. A bound port serves iff the configuration loads.
   */
  lemma {:induction false} StartFromSkipsOnlyBusyPorts(failures: map<int, int>, start: int, configLoads: bool)
    ensures var r := StartFrom(failures, start, configLoads);
      r.port >= start
      && (forall q :: start <= q < r.port ==> 0 <= q <= MaxPort && q in failures && AddressInUse(failures[q]))
      && (r.Serving? || r.ConfigRaised? ==> 0 <= r.port <= MaxPort && r.port !in failures)
      && (r.Serving? ==> configLoads)
      && (r.ConfigRaised? ==> !configLoads)
      && (r.BindRaised? ==> 0 <= r.port <= MaxPort && r.port in failures && failures[r.port] == r.errno && !AddressInUse(r.errno))
      && (r.PortOverflow? ==> r.port == (if start < 0 || start > MaxPort then start else MaxPort + 1))
    decreases MaxPort + 1 - start
  {
    if 0 <= start <= MaxPort && start in failures && AddressInUse(failures[start]) {
      StartFromSkipsOnlyBusyPorts(failures, start + 1, configLoads);
    }
  }
}
