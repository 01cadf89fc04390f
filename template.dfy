/**
 * The repo-structure template renderer: variables are layered (values given
 * on the command line, then values detected from git and the project files,
 * then fixed defaults, then derived values), conditional blocks
 * `{{#NAME}}...{{/NAME}}` and `{{#^NAME}}...{{/NAME}}` are eliminated until
 * nothing changes, and a single pass replaces each `{{NAME}}` by its value.
 *
 * What git and the file probes report is an input: a `Detected` record for the
 * variable values and a `Probes` record for the HAS_* / IS_* conditions.
 */
module Template {
  import opened Optional
  import opened Text
  import opened Maps

  type Vars = map<string, string>

  /** `d.get(k, default)`. */
  function Get(v: Vars, k: string, default: string): string {
    if k in v then v[k] else default
  }

  // ===========================================================================
  // Remote-URL parsing (get_project_name, get_github_username)
  // ===========================================================================

  const GithubHost := "github.com"

  /** The maximal run of characters other than `c` at the start of `s`. */
  function RunWithout(s: string, c: char): (r: nat)
    ensures r <= |s| && c !in s[..r] && (r == |s| || s[r] == c)
  {
    match IndexOfChar(s, c)
    case None => |s|
    case Some(i) => i
  }

  /** `github.com` followed by `/` or `:` at the start of `s`. */
  predicate HostAtStart(s: string) {
    StartsWith(s, GithubHost) && |s| > |GithubHost| && (s[|GithubHost|] == '/' || s[|GithubHost|] == ':')
  }

  /**
   * The repository group of `([^/]+)/([^\.]+?)(\.git)?$` at the start of `t`:
   * the user is the text up to the next `/`, and the rest is a dot-free name,
   * optionally followed by `.git`, up to the end.
   */
  function RepoAfterHost(t: string): (r: Option<string>)
    ensures r.Some? ==> |r.value| > 0 && '.' !in r.value
  {
    var user := RunWithout(t, '/');
    if user == 0 || user == |t| then None
    else
      var rest := t[user + 1..];
      if |rest| > 4 && rest[|rest| - 4..] == ".git" && '.' !in rest[..|rest| - 4] then Some(rest[..|rest| - 4])
      else if |rest| > 0 && '.' !in rest then Some(rest)
      else None
  }

  /** `github\.com[/:]([^/]+)/([^\.]+?)(\.git)?$` at the start of `s`: the repository group. */
  function RepoAtStart(s: string): (r: Option<string>)
    ensures r.Some? ==> HostAtStart(s) && |r.value| > 0 && '.' !in r.value
  {
    if HostAtStart(s) then RepoAfterHost(s[|GithubHost| + 1..]) else None
  }

  /** The fallback `git@github\.com:([^/]+)/([^\.]+?)(\.git)?$` at the start of `s`. */
  function ScpRepoAtStart(s: string): Option<string> {
    if StartsWith(s, "git@github.com:") then RepoAfterHost(s[15..]) else None
  }

  /** `re.search`: the first start position, at or after `from`, where the pattern matches. */
  function SearchRepo(s: string, from: nat): (r: Option<string>)
    requires from <= |s|
    ensures r.Some? ==> |r.value| > 0 && '.' !in r.value
  {
    FirstSome(|s|, RepoMatcher(s), from)
  }

  /** The pattern tried at each start position of `s`. */
  function RepoMatcher(s: string): nat -> Option<string> {
    (i: nat) => RepoAt(s, i)
  }

  function RepoAt(s: string, i: nat): (r: Option<string>)
    ensures r.Some? ==> |r.value| > 0 && '.' !in r.value
  {
    if i <= |s| then RepoAtStart(s[i..]) else None
  }

  /** The user group of `([^/]+)`: the maximal run of characters other than `/`. */
  function UserAfterHost(t: string): (r: Option<string>)
    ensures r.Some? ==> |r.value| > 0 && '/' !in r.value
  {
    var user := RunWithout(t, '/');
    if user == 0 then None else Some(t[..user])
  }

  /** `github\.com[/:]([^/]+)` at the start of `s`: the user group. */
  function UserAtStart(s: string): (r: Option<string>)
    ensures r.Some? ==> |r.value| > 0 && '/' !in r.value
  {
    if HostAtStart(s) then UserAfterHost(s[|GithubHost| + 1..]) else None
  }

  /** The fallback `git@github\.com:([^/]+)` at the start of `s`. */
  function ScpUserAtStart(s: string): Option<string> {
    if StartsWith(s, "git@github.com:") then UserAfterHost(s[15..]) else None
  }

  function SearchUser(s: string, from: nat): (r: Option<string>)
    requires from <= |s|
    ensures r.Some? ==> |r.value| > 0 && '/' !in r.value
  {
    FirstSome(|s|, UserMatcher(s), from)
  }

  /** The pattern tried at each start position of `s`. */
  function UserMatcher(s: string): nat -> Option<string> {
    (i: nat) => UserAt(s, i)
  }

  function UserAt(s: string, i: nat): (r: Option<string>)
    ensures r.Some? ==> |r.value| > 0 && '/' !in r.value
  {
    if i <= |s| then UserAtStart(s[i..]) else None
  }

  /** `get_project_name`: the repository named by the origin remote, else the working directory's name. */
  function ProjectNameFrom(remote: string, cwdName: string): (r: string)
    ensures r != cwdName ==> '.' !in r && |r| > 0
  {
    if remote == "" then cwdName
    else SearchRepo(remote, 0).GetOr(cwdName)
  }

  /** `get_github_username`. */
  function GithubUsername(remote: string): (r: Option<string>)
    ensures r.Some? ==> |r.value| > 0 && '/' !in r.value
  {
    if remote == "" then None else SearchUser(remote, 0)
  }

  /** Where the `git@github.com:` patterns match, the first patterns match four characters later with the same groups. */
  lemma ScpMatchImpliesHostMatch(s: string)
    ensures ScpRepoAtStart(s).Some? ==> RepoAtStart(s[4..]) == ScpRepoAtStart(s)
    ensures ScpUserAtStart(s).Some? ==> UserAtStart(s[4..]) == ScpUserAtStart(s)
  {
    if StartsWith(s, "git@github.com:") {
      assert s[..15] == "git@github.com:";
      assert s[4..][..10] == s[4..14] == "github.com";
      assert s[4..][10] == s[14] == ':';
      assert s[4..][11..] == s[15..];
    }
  }

  /**
   * The fallback searches never decide anything: whenever one of them would
   * match, the first search has already matched.
   */
  lemma ScpFallbacksAreDead(s: string)
    ensures (exists i :: 0 <= i <= |s| && ScpRepoAtStart(s[i..]).Some?) ==> SearchRepo(s, 0).Some?
    ensures (exists i :: 0 <= i <= |s| && ScpUserAtStart(s[i..]).Some?) ==> SearchUser(s, 0).Some?
  {
    if i :| 0 <= i <= |s| && ScpRepoAtStart(s[i..]).Some? {
      ScpRepoFallbackDead(s, i);
    }
    if i :| 0 <= i <= |s| && ScpUserAtStart(s[i..]).Some? {
      ScpUserFallbackDead(s, i);
    }
  }

  lemma ScpRepoFallbackDead(s: string, i: nat)
    requires i <= |s| && ScpRepoAtStart(s[i..]).Some?
    ensures SearchRepo(s, 0).Some?
  {
    ScpMatchImpliesHostMatch(s[i..]);
    assert s[i..][4..] == s[i + 4..];
    SearchRepoFinds(s, 0, i + 4);
  }

  lemma ScpUserFallbackDead(s: string, i: nat)
    requires i <= |s| && ScpUserAtStart(s[i..]).Some?
    ensures SearchUser(s, 0).Some?
  {
    ScpMatchImpliesHostMatch(s[i..]);
    assert s[i..][4..] == s[i + 4..];
    SearchUserFinds(s, 0, i + 4);
  }

  /** The user run of `user/rest` is `user` when `user` holds no `/`. */
  lemma RunWithoutSlash(user: string, rest: string)
    requires '/' !in user
    ensures RunWithout(user + "/" + rest, '/') == |user|
  {
    var t := user + "/" + rest;
    var r := RunWithout(t, '/');
    assert t[..|user|] == user && t[|user|] == '/';
  }

  /**
   * After the host, `user/name.git` and `user/name` both give the repository
   * `name` and the user `user`, for any user without `/` and any non-empty
   * name without `.`.
   */
  lemma RepoAndUserAfterHost(user: string, name: string)
    requires user != "" && '/' !in user && name != "" && '.' !in name
    ensures RepoAfterHost(user + "/" + name + ".git") == Some(name)
    ensures RepoAfterHost(user + "/" + name) == Some(name)
    ensures UserAfterHost(user + "/" + name + ".git") == Some(user)
    ensures UserAfterHost(user + "/" + name) == Some(user)
  {
    var t := user + "/" + (name + ".git");
    assert user + "/" + name + ".git" == t;
    RunWithoutSlash(user, name + ".git");
    var rest := t[|user| + 1..];
    assert rest == name + ".git";
    assert rest[|rest| - 4..] == ".git" && rest[..|rest| - 4] == name;
    assert t[..|user|] == user;
    var u := user + "/" + name;
    RunWithoutSlash(user, name);
    assert u[|user| + 1..] == name && u[..|user|] == user;
    assert |name| <= 4 || name[|name| - 4..] != ".git" by {
      if |name| > 4 {
        assert name[|name| - 4..][0] != '.';
      }
    }
  }

  /** A repository name holding a `.` is not recognised, with or without `.git`. */
  lemma DottedNameNotRecognised(user: string, name: string)
    requires user != "" && '/' !in user && '.' in name
    ensures RepoAfterHost(user + "/" + name + ".git") == None
  {
    var t := user + "/" + (name + ".git");
    assert user + "/" + name + ".git" == t;
    RunWithoutSlash(user, name + ".git");
    var rest := t[|user| + 1..];
    assert rest == name + ".git";
    assert rest[..|rest| - 4] == name;
    var k :| 0 <= k < |name| && name[k] == '.';
    assert rest[k] == '.';
  }

  /** `re.search` returns the match at the first position where the pattern matches. */
  lemma {:induction false} SearchRepoFindsFirst(s: string, from: nat, j: nat)
    requires from <= j <= |s|
    requires forall i :: from <= i < j ==> RepoAtStart(s[i..]).None?
    requires RepoAtStart(s[j..]).Some?
    ensures SearchRepo(s, from) == RepoAtStart(s[j..])
  {
    var f := RepoMatcher(s);
    assert forall i :: from <= i < j ==> f(i).None?;
    FirstSomeAt(|s|, f, from, j);
  }

  /** A match anywhere at or after `from` makes the search succeed. */
  lemma {:induction false} SearchRepoFinds(s: string, from: nat, j: nat)
    requires from <= j <= |s| && RepoAtStart(s[j..]).Some?
    ensures SearchRepo(s, from).Some?
  {
    var f := RepoMatcher(s);
    assert f(j).Some?;
    FirstSomeFinds(|s|, f, from, j);
  }

  /** The same for the user pattern. */
  lemma {:induction false} SearchUserFindsFirst(s: string, from: nat, j: nat)
    requires from <= j <= |s|
    requires forall i :: from <= i < j ==> UserAtStart(s[i..]).None?
    requires UserAtStart(s[j..]).Some?
    ensures SearchUser(s, from) == UserAtStart(s[j..])
  {
    var f := UserMatcher(s);
    assert forall i :: from <= i < j ==> f(i).None?;
    FirstSomeAt(|s|, f, from, j);
  }

  /** A match anywhere at or after `from` makes the search succeed. */
  lemma {:induction false} SearchUserFinds(s: string, from: nat, j: nat)
    requires from <= j <= |s| && UserAtStart(s[j..]).Some?
    ensures SearchUser(s, from).Some?
  {
    var f := UserMatcher(s);
    assert f(j).Some?;
    FirstSomeFinds(|s|, f, from, j);
  }

  /** The HTTPS prefix is the scheme, the host and a slash. */
  lemma HttpsPrefix()
    ensures "https://github.com/" == "https://" + GithubHost + "/"
  {
  }

  /** An HTTPS remote splits into the scheme, then the host and a slash, then the path `tail`. */
  lemma {:induction false} HttpsRemoteParts(tail: string)
    ensures var s := "https://github.com/" + tail;
      StartsWith(s, "https://") && HostAtStart(s[8..]) && s[8..][|GithubHost| + 1..] == tail
  {
    HttpsPrefix();
    var s := "https://github.com/" + tail;
    assert s[..8] == "https://";
    assert s[8..] == GithubHost + "/" + tail;
    assert s[8..][..|GithubHost|] == GithubHost;
  }

  /** No pattern matches inside the scheme: its characters are not the host's first, `g`. */
  lemma {:induction false} NoMatchInScheme(s: string)
    requires StartsWith(s, "https://")
    ensures forall i :: 0 <= i < 8 ==> RepoAtStart(s[i..]).None? && UserAtStart(s[i..]).None?
  {
    forall i | 0 <= i < 8 ensures !HostAtStart(s[i..]) {
      assert s[i..][0] == s[..8][i] != GithubHost[0];
    }
  }

  /** The remote written with the user and the name, regrouped around its path. */
  lemma HttpsRemoteRegroup(user: string, name: string)
    ensures "https://github.com/" + user + "/" + name + ".git" == "https://github.com/" + (user + "/" + name + ".git")
  {
  }

  /** An HTTPS remote `https://github.com/user/name.git` gives the project `name` and the user `user`. */
  lemma {:induction false} HttpsRemote(user: string, name: string, cwdName: string)
    requires user != "" && '/' !in user && name != "" && '.' !in name
    ensures ProjectNameFrom("https://github.com/" + user + "/" + name + ".git", cwdName) == name
    ensures GithubUsername("https://github.com/" + user + "/" + name + ".git") == Some(user)
  {
    var tail := user + "/" + name + ".git";
    var s := "https://github.com/" + tail;
    HttpsRemoteRegroup(user, name);
    HttpsRemoteParts(tail);
    NoMatchInScheme(s);
    RepoAndUserAfterHost(user, name);
    SearchRepoFindsFirst(s, 0, 8);
    SearchUserFindsFirst(s, 0, 8);
  }

  // ===========================================================================
  // resolve_variables
  // ===========================================================================

  /** What git and the project files report (`get_git_config`, `detect_*`, `get_version`, the clock). */
  datatype Detected = Detected(
    remote: string,           // `git config remote.origin.url`, stripped, or ""
    cwdName: string,
    authorName: string,
    authorEmail: string,
    license: string,
    year: nat,
    version: string,
    primaryLanguage: string,
    techStack: seq<string>)

  /** A provided key as stored: upper-cased, `-` turned into `_`. */
  function NormKey(k: string): (r: string)
    ensures |r| == |k| && '-' !in r
  {
    ReplaceChar(Upper(k), '-', '_')
  }

  /** The provided pairs in order, a later pair overriding an earlier one with the same stored key. */
  function Provided(ps: seq<(string, string)>): (r: Vars)
    ensures r.Keys == set i | 0 <= i < |ps| :: NormKey(ps[i].0)
    decreases |ps|
  {
    if ps == [] then map[]
    else
      var r := Provided(ps[..|ps| - 1])[NormKey(ps[|ps| - 1].0) := ps[|ps| - 1].1];
      assert forall i :: 0 <= i < |ps| - 1 ==> ps[..|ps| - 1][i] == ps[i];
      r
  }

  /** The detected values, in the order they are filled in. */
  const DetectedKeys: seq<string> :=
    ["PROJECT_NAME", "AUTHOR_NAME", "AUTHOR_EMAIL", "GITHUB_USERNAME", "LICENSE_TYPE", "YEAR", "VERSION",
     "PRIMARY_LANGUAGE", "TECH_STACK"]

  /** The detected values, in the order of `DetectedKeys`. */
  function DetectedValues(d: Detected): (r: seq<string>)
    ensures |r| == |DetectedKeys|
  {
    [ProjectNameFrom(d.remote, d.cwdName), d.authorName, d.authorEmail, GithubUsername(d.remote).GetOr(""),
     d.license, NatToString(d.year), d.version, d.primaryLanguage, Join(d.techStack, ", ")]
  }

  function DetectedPairs(d: Detected): (r: seq<(string, string)>)
    ensures |r| == |DetectedKeys| && forall i :: 0 <= i < |r| ==> r[i].0 == DetectedKeys[i]
  {
    var vs := DetectedValues(d);
    seq(|DetectedKeys|, i requires 0 <= i < |DetectedKeys| => (DetectedKeys[i], vs[i]))
  }

  const DefaultPairs: seq<(string, string)> :=
    [("CI_PROVIDER", "github-actions"), ("PYTHON_VERSION", "3.10"), ("NODE_VERSION", "18"),
     ("GO_VERSION", "1.21"), ("RUST_VERSION", "1.75"), ("DESCRIPTION", "A great new project"),
     ("PROJECT_NAME", "my-project")]

  const CommandKeys: set<string> := {"TEST_COMMAND", "LINT_COMMAND", "FORMAT_COMMAND"}
  const BadgeKeys: set<string> := {"CI_BADGE", "LICENSE_BADGE", "VERSION_BADGE", "GITHUB_REPO_URL"}
  const PackageKeys: set<string> := {"PYPI_PACKAGE", "NPM_PACKAGE", "CRATES_PACKAGE"}
  const NameFormKeys: set<string> :=
    {"PROJECT_NAME_SNAKE", "PROJECT_NAME_UPPER", "PROJECT_NAME_PASCAL", "PROJECT_NAME_KEBAB"}

  /** The keys set after the defaults, unconditionally or under a condition. */
  const DerivedKeys: set<string> := CommandKeys + BadgeKeys + PackageKeys + NameFormKeys

  /** `r` extends `v`, changing only keys in `ks`. */
  predicate ChangesOnly(v: Vars, r: Vars, ks: set<string>) {
    v.Keys <= r.Keys <= v.Keys + ks && forall k :: k in v && k !in ks ==> r[k] == v[k]
  }

  /** Python `str.title()` on ASCII letters: a letter is upper-cased iff the previous character is not a letter. */
  function TitleFrom(s: string, afterLetter: bool): (r: string)
    ensures |r| == |s|
    decreases |s|
  {
    if s == [] then []
    else
      var c := if !IsLetterAscii(s[0]) then s[0] else if afterLetter then LowerChar(s[0]) else UpperChar(s[0]);
      [c] + TitleFrom(s[1..], IsLetterAscii(s[0]))
  }

  function RemoveChar(s: string, c: char): (r: string)
    ensures c !in r && |r| <= |s|
    decreases |s|
  {
    if s == [] then []
    else if s[0] == c then RemoveChar(s[1..], c)
    else [s[0]] + RemoveChar(s[1..], c)
  }

  /** `name.replace("-", " ").title().replace(" ", "")`. */
  function Pascal(name: string): (r: string)
    ensures ' ' !in r && |r| <= |name|
  {
    RemoveChar(TitleFrom(ReplaceChar(name, '-', ' '), false), ' ')
  }

  function WithCommands(v: Vars, primary: string): (r: Vars)
    ensures ChangesOnly(v, r, CommandKeys)
  {
    if primary == "python" then v["TEST_COMMAND" := "pytest"]["LINT_COMMAND" := "flake8"]["FORMAT_COMMAND" := "black ."]
    else if primary == "javascript" || primary == "typescript" then
      v["TEST_COMMAND" := "npm test"]["LINT_COMMAND" := "npm run lint"]["FORMAT_COMMAND" := "prettier --write ."]
    else if primary == "go" then v["TEST_COMMAND" := "go test ./..."]["LINT_COMMAND" := "golangci-lint run"]["FORMAT_COMMAND" := "gofmt -w ."]
    else if primary == "rust" then v["TEST_COMMAND" := "cargo test"]["LINT_COMMAND" := "cargo clippy"]["FORMAT_COMMAND" := "cargo fmt"]
    else v
  }

  function WithBadges(v: Vars, gh: string, repo: string): (r: Vars)
    ensures ChangesOnly(v, r, BadgeKeys)
    ensures gh != "" && repo != "" ==> "CI_BADGE" in r && "GITHUB_REPO_URL" in r && r["GITHUB_REPO_URL"] == "https://github.com/" + gh + "/" + repo
    ensures !(gh != "" && repo != "") ==> r == v
  {
    if gh != "" && repo != "" then
      var licensed := v["CI_BADGE" := "![CI](https://github.com/" + gh + "/" + repo + "/workflows/CI/badge.svg)"]
                       ["LICENSE_BADGE" := "![License](https://img.shields.io/badge/license-" + Get(v, "LICENSE_TYPE", "MIT") + "-blue.svg)"];
      licensed["VERSION_BADGE" := "![Version](https://img.shields.io/badge/version-" + Get(licensed, "VERSION", "0.1.0") + "-blue)"]
              ["GITHUB_REPO_URL" := "https://github.com/" + gh + "/" + repo]
    else v
  }

  function WithPackage(v: Vars, primary: string, repo: string): (r: Vars)
    ensures ChangesOnly(v, r, PackageKeys)
  {
    if primary == "python" then v["PYPI_PACKAGE" := "https://pypi.org/project/" + repo]
    else if primary == "javascript" then v["NPM_PACKAGE" := "https://www.npmjs.com/package/" + repo]
    else if primary == "rust" then v["CRATES_PACKAGE" := "https://crates.io/crates/" + repo]
    else v
  }

  function WithNameForms(v: Vars, name: string): (r: Vars)
    ensures ChangesOnly(v, r, NameFormKeys)
    ensures NameFormKeys <= r.Keys
    ensures r["PROJECT_NAME_SNAKE"] == ReplaceChar(name, '-', '_') && r["PROJECT_NAME_KEBAB"] == ReplaceChar(name, '_', '-')
    ensures r["PROJECT_NAME_UPPER"] == Upper(r["PROJECT_NAME_SNAKE"]) && r["PROJECT_NAME_PASCAL"] == Pascal(name)
  {
    NameFormKeysDistinct();
    var snake := ReplaceChar(name, '-', '_');
    v["PROJECT_NAME_SNAKE" := snake]["PROJECT_NAME_UPPER" := Upper(snake)]
     ["PROJECT_NAME_PASCAL" := Pascal(name)]["PROJECT_NAME_KEBAB" := ReplaceChar(name, '_', '-')]
  }

  lemma NameFormKeysDistinct()
    ensures "PROJECT_NAME_SNAKE" != "PROJECT_NAME_UPPER" && "PROJECT_NAME_SNAKE" != "PROJECT_NAME_KEBAB"
    ensures "PROJECT_NAME_UPPER" != "PROJECT_NAME_KEBAB"
    ensures "PROJECT_NAME_SNAKE" != "PROJECT_NAME_PASCAL" && "PROJECT_NAME_UPPER" != "PROJECT_NAME_PASCAL"
    ensures "PROJECT_NAME_KEBAB" != "PROJECT_NAME_PASCAL"
  {
    assert "PROJECT_NAME_SNAKE"[13] == 'S' && "PROJECT_NAME_UPPER"[13] == 'U' && "PROJECT_NAME_KEBAB"[13] == 'K';
    assert |"PROJECT_NAME_PASCAL"| == 19;
  }

  /** The derived variables, set over the layered ones. */
  function Derive(v: Vars): (r: Vars)
    ensures ChangesOnly(v, r, DerivedKeys)
  {
    var primary := Lower(Get(v, "PRIMARY_LANGUAGE", ""));
    var v1 := WithCommands(v, primary);
    var repo := Get(v1, "PROJECT_NAME", "");
    var v2 := WithBadges(v1, Get(v1, "GITHUB_USERNAME", ""), repo);
    var v3 := WithPackage(v2, primary, repo);
    WithNameForms(v3, Get(v3, "PROJECT_NAME", "my-project"))
  }

  /** Provided values, then detected values where absent, then defaults where absent. */
  function Layered(ps: seq<(string, string)>, d: Detected): Vars {
    SetDefaults(SetDefaults(Provided(ps), DetectedPairs(d)), DefaultPairs)
  }

  function Resolved(ps: seq<(string, string)>, d: Detected): Vars {
    Derive(Layered(ps, d))
  }

  method ResolveVariables(provided: seq<(string, string)>, d: Detected) returns (vars: Vars)
    ensures vars == Resolved(provided, d)
  {
    vars := StoreProvided(provided);
    vars := FillAbsent(vars, DetectedPairs(d));
    vars := FillAbsent(vars, DefaultPairs);
    vars := DeriveVariables(vars);
  }

  /** The first loop of `resolve_variables`: each provided pair stored under its normalised key. */
  method StoreProvided(provided: seq<(string, string)>) returns (vars: Vars)
    ensures vars == Provided(provided)
  {
    vars := map[];
    for i := 0 to |provided|
      invariant vars == Provided(provided[..i])
    {
      assert provided[..i + 1][..i] == provided[..i];
      vars := vars[NormKey(provided[i].0) := provided[i].1];
    }
    assert provided[..|provided|] == provided;
  }

  /** A `setdefault` loop of `resolve_variables` over a list of pairs. */
  method FillAbsent(v: Vars, pairs: seq<(string, string)>) returns (vars: Vars)
    ensures vars == SetDefaults(v, pairs)
  {
    vars := v;
    for i := 0 to |pairs|
      invariant SetDefaults(vars, pairs[i..]) == SetDefaults(v, pairs)
    {
      if pairs[i].0 !in vars {
        vars := vars[pairs[i].0 := pairs[i].1];
      }
      assert pairs[i..][1..] == pairs[i + 1..];
    }
  }

  /** The derived variables of `resolve_variables`, set in the source's order. */
  method DeriveVariables(v: Vars) returns (vars: Vars)
    ensures vars == Derive(v)
  {
    var primary := Lower(Get(v, "PRIMARY_LANGUAGE", ""));
    vars := SetCommands(v, primary);
    var ghUser := Get(vars, "GITHUB_USERNAME", "");
    var repo := Get(vars, "PROJECT_NAME", "");
    vars := SetBadges(vars, ghUser, repo);
    vars := SetPackage(vars, primary, repo);
    var projectName := Get(vars, "PROJECT_NAME", "my-project");
    vars := SetNameForms(vars, projectName);
  }

  /** The test, lint and format commands for the primary language. */
  method SetCommands(v: Vars, primary: string) returns (vars: Vars)
    ensures vars == WithCommands(v, primary)
  {
    vars := v;
    if primary == "python" {
      vars := vars["TEST_COMMAND" := "pytest"]["LINT_COMMAND" := "flake8"]["FORMAT_COMMAND" := "black ."];
    } else if primary == "javascript" || primary == "typescript" {
      vars := vars["TEST_COMMAND" := "npm test"]["LINT_COMMAND" := "npm run lint"]["FORMAT_COMMAND" := "prettier --write ."];
    } else if primary == "go" {
      vars := vars["TEST_COMMAND" := "go test ./..."]["LINT_COMMAND" := "golangci-lint run"]["FORMAT_COMMAND" := "gofmt -w ."];
    } else if primary == "rust" {
      vars := vars["TEST_COMMAND" := "cargo test"]["LINT_COMMAND" := "cargo clippy"]["FORMAT_COMMAND" := "cargo fmt"];
    }
  }

  /** The badges and the repository URL, set only when both the user and the repository are known. */
  method SetBadges(v: Vars, ghUser: string, repo: string) returns (vars: Vars)
    ensures vars == WithBadges(v, ghUser, repo)
  {
    vars := v;
    var licenseType := Get(vars, "LICENSE_TYPE", "MIT");
    if ghUser != "" && repo != "" {
      vars := vars["CI_BADGE" := "![CI](https://github.com/" + ghUser + "/" + repo + "/workflows/CI/badge.svg)"];
      vars := vars["LICENSE_BADGE" := "![License](https://img.shields.io/badge/license-" + licenseType + "-blue.svg)"];
      vars := vars["VERSION_BADGE" := "![Version](https://img.shields.io/badge/version-" + Get(vars, "VERSION", "0.1.0") + "-blue)"];
    }
    if ghUser != "" && repo != "" {
      vars := vars["GITHUB_REPO_URL" := "https://github.com/" + ghUser + "/" + repo];
    }
  }

  /** The package registry URL for the primary language. */
  method SetPackage(v: Vars, primary: string, repo: string) returns (vars: Vars)
    ensures vars == WithPackage(v, primary, repo)
  {
    vars := v;
    if primary == "python" {
      vars := vars["PYPI_PACKAGE" := "https://pypi.org/project/" + repo];
    } else if primary == "javascript" {
      vars := vars["NPM_PACKAGE" := "https://www.npmjs.com/package/" + repo];
    } else if primary == "rust" {
      vars := vars["CRATES_PACKAGE" := "https://crates.io/crates/" + repo];
    }
  }

  /** The snake, upper, Pascal and kebab forms of the project name. */
  method SetNameForms(v: Vars, projectName: string) returns (vars: Vars)
    ensures vars == WithNameForms(v, projectName)
  {
    var snake := ReplaceChar(projectName, '-', '_');
    vars := v["PROJECT_NAME_SNAKE" := snake];
    vars := vars["PROJECT_NAME_UPPER" := Upper(snake)];
    vars := vars["PROJECT_NAME_PASCAL" := Pascal(projectName)];
    vars := vars["PROJECT_NAME_KEBAB" := ReplaceChar(projectName, '_', '-')];
  }

  /** The last provided value for a stored key wins. */
  lemma {:induction false} ProvidedLastWins(ps: seq<(string, string)>, i: nat)
    requires i < |ps|
    requires forall j :: i < j < |ps| ==> NormKey(ps[j].0) != NormKey(ps[i].0)
    ensures Provided(ps)[NormKey(ps[i].0)] == ps[i].1
    decreases |ps|
  {
    if i < |ps| - 1 {
      var init := ps[..|ps| - 1];
      assert init[i] == ps[i];
      ProvidedLastWins(init, i);
    }
  }

  /** The fill lists name each key once, and no default but the project name is also detected. */
  lemma FillKeysDistinct(d: Detected)
    ensures forall i, j :: 0 <= i < j < |DetectedPairs(d)| ==> DetectedPairs(d)[i].0 != DetectedPairs(d)[j].0
    ensures forall i, j :: 0 <= i < j < |DefaultPairs| ==> DefaultPairs[i].0 != DefaultPairs[j].0
    ensures forall i, j :: 0 <= i < |DefaultPairs| - 1 && 0 <= j < |DetectedPairs(d)| ==> DefaultPairs[i].0 != DetectedPairs(d)[j].0
  {
    KeyListsDistinct();
  }

  /** Two keys of the fill lists differ in length or in their first character. */
  lemma KeyListsDistinct()
    ensures forall i, j :: 0 <= i < j < |DetectedKeys| ==> DetectedKeys[i] != DetectedKeys[j]
    ensures forall i, j :: 0 <= i < j < |DefaultPairs| ==> DefaultPairs[i].0 != DefaultPairs[j].0
    ensures forall i, j :: 0 <= i < |DefaultPairs| - 1 && 0 <= j < |DetectedKeys| ==> DefaultPairs[i].0 != DetectedKeys[j]
  {
    var dk := DetectedKeys;
    var fp := DefaultPairs;
    assert |dk[0]| == 12 && |dk[1]| == 11 && |dk[2]| == 12 && |dk[3]| == 15 && |dk[4]| == 12;
    assert |dk[5]| == 4 && |dk[6]| == 7 && |dk[7]| == 16 && |dk[8]| == 10;
    assert dk[0][0] == 'P' && dk[1][0] == 'A' && dk[2][0] == 'A' && dk[4][0] == 'L' && dk[8][0] == 'T';
    assert |fp[0].0| == 11 && |fp[1].0| == 14 && |fp[2].0| == 12 && |fp[3].0| == 10;
    assert |fp[4].0| == 12 && |fp[5].0| == 11 && |fp[6].0| == 12;
    assert fp[0].0[0] == 'C' && fp[2].0[0] == 'N' && fp[3].0[0] == 'G' && fp[4].0[0] == 'R' && fp[5].0[0] == 'D' && fp[6].0[0] == 'P';
  }

  /** No detected key is one the derivation sets. */
  lemma DetectedKeysNotDerived()
    ensures forall i :: 0 <= i < |DetectedKeys| ==> DetectedKeys[i] !in DerivedKeys
  {
    assert "PROJECT_NAME" !in DerivedKeys by { assert "PYPI_PACKAGE"[1] == 'Y'; }
    assert "AUTHOR_NAME" !in DerivedKeys;
    assert "AUTHOR_EMAIL" !in DerivedKeys;
    assert "GITHUB_USERNAME" !in DerivedKeys by { assert "GITHUB_REPO_URL"[7] == 'R'; }
    assert "LICENSE_TYPE" !in DerivedKeys by { assert "LINT_COMMAND"[2] == 'N'; }
    assert "YEAR" !in DerivedKeys;
    assert "VERSION" !in DerivedKeys;
    assert "PRIMARY_LANGUAGE" !in DerivedKeys;
    assert "TECH_STACK" !in DerivedKeys;
  }

  /** No default key but the project name is one the derivation sets. */
  lemma DefaultKeysNotDerived()
    ensures forall i :: 0 <= i < |DefaultPairs| - 1 ==> DefaultPairs[i].0 !in DerivedKeys
  {
    assert "CI_PROVIDER" !in DerivedKeys;
    assert "PYTHON_VERSION" !in DerivedKeys;
    assert "NODE_VERSION" !in DerivedKeys;
    assert "GO_VERSION" !in DerivedKeys;
    assert "RUST_VERSION" !in DerivedKeys;
    assert "DESCRIPTION" !in DerivedKeys;
  }

  /** Layering keeps every provided value and fills the rest from the detected list, then the defaults. */
  lemma LayeredFills(ps: seq<(string, string)>, d: Detected)
    ensures forall k :: k in Provided(ps) ==> k in Layered(ps, d) && Layered(ps, d)[k] == Provided(ps)[k]
    ensures forall i :: 0 <= i < |DetectedPairs(d)| && DetectedPairs(d)[i].0 !in Provided(ps) ==>
      DetectedPairs(d)[i].0 in Layered(ps, d) && Layered(ps, d)[DetectedPairs(d)[i].0] == DetectedPairs(d)[i].1
    ensures forall i :: 0 <= i < |DefaultPairs| - 1 && DefaultPairs[i].0 !in Provided(ps) ==>
      DefaultPairs[i].0 in Layered(ps, d) && Layered(ps, d)[DefaultPairs[i].0] == DefaultPairs[i].1
  {
    FillKeysDistinct(d);
    DefaultsNotDetected(d);
    TwoRoundsOfDefaults(Provided(ps), DetectedPairs(d), DefaultPairs);
  }

  /** Only the last default, the project name, is also a detected key. */
  lemma DefaultsNotDetected(d: Detected)
    ensures forall i :: 0 <= i < |DefaultPairs| - 1 ==> DefaultPairs[i].0 !in KeysOf(DetectedPairs(d))
  {
    var dp := DetectedPairs(d);
    FillKeysDistinct(d);
    forall i | 0 <= i < |DefaultPairs| - 1 ensures DefaultPairs[i].0 !in KeysOf(dp) {
      assert forall j :: 0 <= j < |dp| ==> dp[j].0 != DefaultPairs[i].0;
    }
  }

  /** The derivation leaves a key that is not a derived one as it was. */
  lemma DeriveKeeps(v: Vars, k: string)
    requires k in v && k !in DerivedKeys
    ensures k in Derive(v) && Derive(v)[k] == v[k]
  {
  }

  /** A provided value survives detection, defaults and derivation, unless its key is a derived one. */
  lemma ProvidedTakesPriority(ps: seq<(string, string)>, d: Detected, i: nat)
    requires i < |ps|
    requires forall j :: i < j < |ps| ==> NormKey(ps[j].0) != NormKey(ps[i].0)
    requires NormKey(ps[i].0) !in DerivedKeys
    ensures NormKey(ps[i].0) in Resolved(ps, d) && Resolved(ps, d)[NormKey(ps[i].0)] == ps[i].1
  {
    var k := NormKey(ps[i].0);
    ProvidedLastWins(ps, i);
    LayeredFills(ps, d);
    DeriveKeeps(Layered(ps, d), k);
  }

  /** A key nobody provided takes its detected value (no detected key is a derived one). */
  lemma DetectedFillsAbsent(ps: seq<(string, string)>, d: Detected, i: nat)
    requires i < |DetectedPairs(d)|
    requires DetectedPairs(d)[i].0 !in Provided(ps)
    ensures DetectedPairs(d)[i].0 in Resolved(ps, d) && Resolved(ps, d)[DetectedPairs(d)[i].0] == DetectedPairs(d)[i].1
  {
    LayeredFills(ps, d);
    DetectedKeysNotDerived();
    DeriveKeeps(Layered(ps, d), DetectedPairs(d)[i].0);
  }

  /** A default key that was neither provided nor detected takes its default. */
  lemma DefaultFillsAbsent(ps: seq<(string, string)>, d: Detected, i: nat)
    requires i < |DefaultPairs| - 1
    requires DefaultPairs[i].0 !in Provided(ps)
    ensures DefaultPairs[i].0 in Resolved(ps, d) && Resolved(ps, d)[DefaultPairs[i].0] == DefaultPairs[i].1
  {
    LayeredFills(ps, d);
    DefaultKeysNotDerived();
    DeriveKeeps(Layered(ps, d), DefaultPairs[i].0);
  }

  /** The `my-project` default is never used: the detected project name always comes first. */
  lemma ProjectNameNeverDefaulted(ps: seq<(string, string)>, d: Detected)
    requires "PROJECT_NAME" !in Provided(ps)
    ensures "PROJECT_NAME" in Resolved(ps, d) && Resolved(ps, d)["PROJECT_NAME"] == ProjectNameFrom(d.remote, d.cwdName)
  {
    DetectedFillsAbsent(ps, d, 0);
  }

  /** A key outside the changed set is present, and holds its value, exactly as before. */
  lemma ChangesOnlyKeeps(v: Vars, r: Vars, ks: set<string>, k: string)
    requires ChangesOnly(v, r, ks) && k !in ks
    ensures (k in r <==> k in v) && (k in v ==> r[k] == v[k])
    ensures Get(r, k, "") == Get(v, k, "")
  {
  }

  /** The package and name-form steps leave the badge keys as they were. */
  lemma LaterStepsKeepBadge(v2: Vars, primary: string, repo: string, k: string)
    requires k in BadgeKeys
    ensures var v3 := WithPackage(v2, primary, repo); var r := WithNameForms(v3, Get(v3, "PROJECT_NAME", "my-project"));
      (k in r <==> k in v2) && (k in v2 ==> r[k] == v2[k])
  {
    var v3 := WithPackage(v2, primary, repo);
    assert k !in PackageKeys && k !in NameFormKeys;
    ChangesOnlyKeeps(v2, v3, PackageKeys, k);
    ChangesOnlyKeeps(v3, WithNameForms(v3, Get(v3, "PROJECT_NAME", "my-project")), NameFormKeys, k);
  }

  /** The command step leaves the user name, the project name and the badge keys as they were. */
  lemma CommandsKeepBadgeInputs(v: Vars, primary: string)
    ensures var v1 := WithCommands(v, primary);
      Get(v1, "GITHUB_USERNAME", "") == Get(v, "GITHUB_USERNAME", "") && Get(v1, "PROJECT_NAME", "") == Get(v, "PROJECT_NAME", "")
      && ("CI_BADGE" in v1 <==> "CI_BADGE" in v) && ("GITHUB_REPO_URL" in v1 <==> "GITHUB_REPO_URL" in v)
  {
    var v1 := WithCommands(v, primary);
    ChangesOnlyKeeps(v, v1, CommandKeys, "GITHUB_USERNAME");
    ChangesOnlyKeeps(v, v1, CommandKeys, "PROJECT_NAME");
    ChangesOnlyKeeps(v, v1, CommandKeys, "CI_BADGE");
    ChangesOnlyKeeps(v, v1, CommandKeys, "GITHUB_REPO_URL");
  }

  /** Badges and the repository URL are set exactly when both the GitHub user and the project name are non-empty. */
  lemma BadgesIffUserAndRepo(v: Vars)
    requires "CI_BADGE" !in v && "GITHUB_REPO_URL" !in v
    ensures var gh := Get(v, "GITHUB_USERNAME", ""); var repo := Get(v, "PROJECT_NAME", "");
      ("CI_BADGE" in Derive(v) <==> gh != "" && repo != "")
      && ("GITHUB_REPO_URL" in Derive(v) <==> gh != "" && repo != "")
      && (gh != "" && repo != "" ==> Derive(v)["GITHUB_REPO_URL"] == "https://github.com/" + gh + "/" + repo)
  {
    var primary := Lower(Get(v, "PRIMARY_LANGUAGE", ""));
    var v1 := WithCommands(v, primary);
    CommandsKeepBadgeInputs(v, primary);
    var repo := Get(v1, "PROJECT_NAME", "");
    var v2 := WithBadges(v1, Get(v1, "GITHUB_USERNAME", ""), repo);
    LaterStepsKeepBadge(v2, primary, repo, "CI_BADGE");
    LaterStepsKeepBadge(v2, primary, repo, "GITHUB_REPO_URL");
  }

  /** The derived name forms: snake has no `-`, kebab has no `_`, upper is snake upper-cased, Pascal has no space. */
  lemma NameForms(v: Vars)
    ensures var r := Derive(v); var name := Get(v, "PROJECT_NAME", "my-project");
      NameFormKeys <= r.Keys
      && r["PROJECT_NAME_SNAKE"] == ReplaceChar(name, '-', '_') && '-' !in r["PROJECT_NAME_SNAKE"]
      && r["PROJECT_NAME_KEBAB"] == ReplaceChar(name, '_', '-') && '_' !in r["PROJECT_NAME_KEBAB"]
      && r["PROJECT_NAME_UPPER"] == Upper(r["PROJECT_NAME_SNAKE"])
      && (forall i :: 0 <= i < |r["PROJECT_NAME_UPPER"]| ==> !IsLowerAscii(r["PROJECT_NAME_UPPER"][i]))
      && ' ' !in r["PROJECT_NAME_PASCAL"]
  {
    var name := Get(v, "PROJECT_NAME", "my-project");
    var primary := Lower(Get(v, "PRIMARY_LANGUAGE", ""));
    var v1 := WithCommands(v, primary);
    var repo := Get(v1, "PROJECT_NAME", "");
    var v2 := WithBadges(v1, Get(v1, "GITHUB_USERNAME", ""), repo);
    var v3 := WithPackage(v2, primary, repo);
    assert "PROJECT_NAME" !in CommandKeys + BadgeKeys + PackageKeys;
    assert Get(v3, "PROJECT_NAME", "my-project") == name;
    var snake := ReplaceChar(name, '-', '_');
    var kebab := ReplaceChar(name, '_', '-');
    assert '-' !in snake by {
      forall i | 0 <= i < |snake| ensures snake[i] != '-' { }
    }
    assert '_' !in kebab by {
      forall i | 0 <= i < |kebab| ensures kebab[i] != '_' { }
    }
  }

  // ===========================================================================
  // evaluate_condition
  // ===========================================================================

  /** What the HAS_* and IS_* conditions look at on disk. */
  datatype Probes = Probes(hasCi: bool, hasTests: bool, hasDocker: bool, hasLicense: bool, isLibrary: bool, isCli: bool)

  const NamedConditions: set<string> :=
    {"PYTHON", "JAVASCRIPT", "TYPESCRIPT", "GO", "RUST", "JAVA",
     "HAS_CI", "HAS_TESTS", "HAS_DOCKER", "HAS_LICENSE", "IS_LIBRARY", "IS_CLI"}

  function EvaluateCondition(condition: string, vars: Vars, probes: Probes): (b: bool)
    ensures Upper(condition) !in NamedConditions ==> (b <==> Get(vars, Upper(condition), "") != "")
  {
    var c := Upper(condition);
    var lang := Lower(Get(vars, "PRIMARY_LANGUAGE", ""));
    if c == "PYTHON" then lang == "python"
    else if c == "JAVASCRIPT" then lang == "javascript" || lang == "typescript"
    else if c == "TYPESCRIPT" then Contains(Get(vars, "TECH_STACK", ""), "TypeScript")
    else if c == "GO" then lang == "go"
    else if c == "RUST" then lang == "rust"
    else if c == "JAVA" then lang == "java"
    else if c == "HAS_CI" then probes.hasCi
    else if c == "HAS_TESTS" then probes.hasTests
    else if c == "HAS_DOCKER" then probes.hasDocker
    else if c == "HAS_LICENSE" then probes.hasLicense
    else if c == "IS_LIBRARY" then probes.isLibrary
    else if c == "IS_CLI" then probes.isCli
    else Get(vars, c, "") != ""
  }

  lemma UpperIdempotent(s: string)
    ensures Upper(Upper(s)) == Upper(s)
  {
  }

  /** Condition names are case-insensitive. */
  lemma ConditionIgnoresCase(condition: string, vars: Vars, probes: Probes)
    ensures EvaluateCondition(condition, vars, probes) == EvaluateCondition(Upper(condition), vars, probes)
  {
    UpperIdempotent(condition);
  }

  // ===========================================================================
  // render_template: conditional blocks
  // ===========================================================================

  predicate IsNameStart(c: char) { IsUpperAscii(c) || c == '_' }
  predicate IsNameChar(c: char) { IsUpperAscii(c) || IsDigitAscii(c) || c == '_' }

  /** A name `[A-Z_][A-Z0-9_]*`. */
  predicate ValidName(n: string) {
    |n| > 0 && IsNameStart(n[0]) && forall i :: 0 <= i < |n| ==> IsNameChar(n[i])
  }

  /** The length of the maximal run of name characters at the start of `s`. */
  function NameRun(s: string): (r: nat)
    ensures r <= |s| && (r == |s| || !IsNameChar(s[r]))
    ensures forall i :: 0 <= i < r ==> IsNameChar(s[i])
    decreases |s|
  {
    if s == [] || !IsNameChar(s[0]) then 0 else 1 + NameRun(s[1..])
  }

  lemma {:induction false} NameRunOf(n: string, rest: string)
    requires forall i :: 0 <= i < |n| ==> IsNameChar(n[i])
    requires rest == [] || !IsNameChar(rest[0])
    ensures NameRun(n + rest) == |n|
    decreases |n|
  {
    if n == [] {
      assert n + rest == rest;
    } else {
      assert (n + rest)[1..] == n[1..] + rest;
      NameRunOf(n[1..], rest);
    }
  }

  /** One match of `\{\{#(\^?)([A-Z_][A-Z0-9_]*)\}\}(.*?)\{\{/\2\}\}`: its parts and its length. */
  datatype Block = Block(negated: bool, name: string, body: string, len: nat)

  function CloseTag(name: string): string {
    "{{/" + name + "}}"
  }

  /** The block matching at the start of `s`, if any; the body ends at the first closing tag. */
  function MatchBlock(s: string): (r: Option<Block>)
    ensures r.Some? ==> |r.value.body| + 10 <= r.value.len <= |s| && ValidName(r.value.name)
  {
    if !StartsWith(s, "{{#") then None
    else
      var ns := if |s| > 3 && s[3] == '^' then 4 else 3;
      var n := NameRun(s[ns..]);
      if n == 0 || !IsNameStart(s[ns]) || !StartsWith(s[ns + n..], "}}") then None
      else
        var name := s[ns..ns + n];
        var bodyStart := ns + n + 2;
        match FindFrom(s, CloseTag(name), bodyStart)
        case None => None
        case Some(j) => Some(Block(ns == 4, name, s[bodyStart..j], j + |CloseTag(name)|))
  }

  /** The evaluation context of a block: variables and file probes. */
  datatype Context = Context(vars: Vars, probes: Probes)

  /** `replace_match`: keep the body iff the condition holds, negated for `{{#^...}}`. */
  predicate Keeps(b: Block, ctx: Context) {
    EvaluateCondition(b.name, ctx.vars, ctx.probes) != b.negated
  }

  /** One `re.sub` pass over the text: each match, left to right, is replaced by its body or by nothing. */
  function Pass(s: string, ctx: Context): string
    decreases |s|
  {
    if s == [] then []
    else match MatchBlock(s)
      case Some(b) => (if Keeps(b, ctx) then b.body else []) + Pass(s[b.len..], ctx)
      case None => [s[0]] + Pass(s[1..], ctx)
  }

  /** A pass either changes nothing or strictly shortens the text. */
  lemma {:induction false} PassShrinksOrFixes(s: string, ctx: Context)
    ensures Pass(s, ctx) == s || |Pass(s, ctx)| < |s|
    decreases |s|
  {
    if s != [] {
      match MatchBlock(s)
      case Some(b) =>
        PassShrinksOrFixes(s[b.len..], ctx);
      case None =>
        PassShrinksOrFixes(s[1..], ctx);
        assert s == [s[0]] + s[1..];
    }
  }

  /** A window lying inside `body` matches in `open + body + tail` only if it matches in `body`. */
  lemma WindowInBody(open: string, body: string, tail: string, p: string, i: int)
    requires 0 <= i && i + |p| <= |body| && !OccursAt(body, p, i)
    ensures !OccursAt(open + body + tail, p, |open| + i)
  {
    var s := open + body + tail;
    assert s[|open| + i..|open| + i + |p|] == body[i..i + |p|];
  }

  /** The first closing tag at or after the body's start is the one right after the body. */
  lemma FirstCloseTag(open: string, body: string, name: string, rest: string)
    requires ValidName(name) && !Contains(body, CloseTag(name))
    ensures FindFrom(open + body + CloseTag(name) + rest, CloseTag(name), |open|) == Some(|open| + |body|)
  {
    var t := CloseTag(name);
    var s := open + body + t + rest;
    assert s == open + body + (t + rest);
    assert s[|open| + |body|..|open| + |body| + |t|] == t;
    assert OccursAt(s, t, |open| + |body|);
    ContainsIff(body, t);
    forall j | |open| <= j < |open| + |body| ensures !OccursAt(s, t, j) {
      if j + |t| <= |open| + |body| {
        WindowInBody(open, body, t + rest, t, j - |open|);
      } else {
        CloseTagNoEarlierOverlap(body, name, rest, open, j);
      }
    }
    FindFromAt(s, t, |open|, |open| + |body|);
  }

  /** The opening tag `{{#NAME}}` or `{{#^NAME}}`. */
  function OpenTag(negated: bool, name: string): (r: string)
    ensures |r| == |name| + (if negated then 6 else 5)
  {
    "{{#" + (if negated then "^" else "") + name + "}}"
  }

  /** How `MatchBlock` reads an opening tag: its form, its name, and where the body starts. */
  lemma OpeningOf(negated: bool, name: string, tail: string)
    requires ValidName(name)
    ensures var s := OpenTag(negated, name) + tail; var ns := if negated then 4 else 3;
      StartsWith(s, "{{#") && (if |s| > 3 && s[3] == '^' then 4 else 3) == ns
      && NameRun(s[ns..]) == |name| && IsNameStart(s[ns]) && s[ns..ns + |name|] == name
      && StartsWith(s[ns + |name|..], "}}") && ns + |name| + 2 == |OpenTag(negated, name)|
  {
    var s := OpenTag(negated, name) + tail;
    var ns := if negated then 4 else 3;
    assert s[..3] == "{{#";
    assert s[ns..] == name + ("}}" + tail);
    assert s[ns] == name[0] && name[0] != '^';
    assert s[3] == (if negated then '^' else name[0]);
    NameRunOf(name, "}}" + tail);
    assert s[ns + |name|..] == s[ns..][|name|..] == "}}" + tail;
  }

  /** `MatchBlock` in terms of where its parts lie in `s`. */
  lemma MatchBlockIs(s: string, negated: bool, ns: nat, name: string, body: string, j: nat, len: int)
    requires StartsWith(s, "{{#") && ns == (if |s| > 3 && s[3] == '^' then 4 else 3) && (ns == 4) == negated
    requires 0 < |name| && ns + |name| + 2 <= |s| && NameRun(s[ns..]) == |name| && IsNameStart(s[ns])
    requires s[ns..ns + |name|] == name && StartsWith(s[ns + |name|..], "}}")
    requires FindFrom(s, CloseTag(name), ns + |name| + 2) == Some(j) && s[ns + |name| + 2..j] == body
    requires len == j + |CloseTag(name)|
    ensures MatchBlock(s) == Some(Block(negated, name, body, len))
  {
  }

  /** How `MatchBlock` reads the opening tag of `open + body + close + rest`. */
  lemma BlockOpening(negated: bool, name: string, body: string, rest: string, s: string, ns: nat)
    requires ValidName(name) && ns == (if negated then 4 else 3)
    requires s == OpenTag(negated, name) + body + CloseTag(name) + rest
    ensures StartsWith(s, "{{#") && ns == (if |s| > 3 && s[3] == '^' then 4 else 3) && (ns == 4) == negated
      && 0 < |name| && ns + |name| + 2 <= |s| && NameRun(s[ns..]) == |name| && IsNameStart(s[ns])
      && s[ns..ns + |name|] == name && StartsWith(s[ns + |name|..], "}}")
  {
    var close := CloseTag(name);
    ConcatFour(OpenTag(negated, name), body, close, rest);
    OpeningOf(negated, name, body + close + rest);
  }

  /** Where `MatchBlock` finds the body and the closing tag of `open + body + close + rest`. */
  lemma BlockClosing(negated: bool, name: string, body: string, rest: string, s: string, ns: nat, j: nat)
    requires ValidName(name) && !Contains(body, CloseTag(name)) && ns == (if negated then 4 else 3)
    requires s == OpenTag(negated, name) + body + CloseTag(name) + rest && j == |OpenTag(negated, name)| + |body|
    ensures ns + |name| + 2 <= j <= |s|
    ensures FindFrom(s, CloseTag(name), ns + |name| + 2) == Some(j) && s[ns + |name| + 2..j] == body
  {
    BodyThenClose(OpenTag(negated, name), body, name, rest, s, ns + |name| + 2);
  }

  /** After any opening `open`, the search for the closing tag finds the one right after `body`. */
  lemma {:induction false} BodyThenClose(open: string, body: string, name: string, rest: string, s: string, k: nat)
    requires ValidName(name) && !Contains(body, CloseTag(name))
    requires s == open + body + CloseTag(name) + rest && k == |open|
    ensures |open| + |body| <= |s|
    ensures FindFrom(s, CloseTag(name), k) == Some(|open| + |body|)
    ensures s[k..|open| + |body|] == body
  {
    ConcatFour(open, body, CloseTag(name), rest);
    FirstCloseTag(open, body, name, rest);
  }

  /** A block whose body holds no closing tag of its own name is replaced by its body iff kept. */
  lemma PassOfBlock(negated: bool, name: string, body: string, rest: string, ctx: Context)
    requires ValidName(name) && !Contains(body, CloseTag(name))
    ensures var open := OpenTag(negated, name);
      var b := Block(negated, name, body, |open| + |body| + |CloseTag(name)|);
      Pass(open + body + CloseTag(name) + rest, ctx) == (if Keeps(b, ctx) then body else "") + Pass(rest, ctx)
  {
    var open := OpenTag(negated, name);
    var s := open + body + CloseTag(name) + rest;
    var ns: nat := if negated then 4 else 3;
    var j := |open| + |body|;
    BlockOpening(negated, name, body, rest, s, ns);
    BlockClosing(negated, name, body, rest, s, ns, j);
    MatchBlockIs(s, negated, ns, name, body, j, j + |CloseTag(name)|);
    assert s[j + |CloseTag(name)|..] == rest;
  }

  /**
   * No closing tag starts strictly inside the body and ends beyond it: such a
   * tag would have to match, at some index, a `{` of the real closing tag
   * against its own `/`, a name character or a `}`.
   */
  lemma CloseTagNoEarlierOverlap(body: string, name: string, rest: string, open: string, j: int)
    requires ValidName(name)
    requires |open| <= j < |open| + |body| < j + |CloseTag(name)|
    ensures !OccursAt(open + body + CloseTag(name) + rest, CloseTag(name), j)
  {
    var s := open + body + CloseTag(name) + rest;
    var t := CloseTag(name);
    var e := |open| + |body|;   // where the real closing tag starts
    var d := e - j;             // 0 < d < |t|
    assert s[e..e + |t|] == t;
    assert t[0] == '{' && t[1] == '{' && t[2] == '/';
    assert forall i :: 3 <= i < 3 + |name| ==> t[i] == name[i - 3];
    assert t[3 + |name|] == '}' && t[4 + |name|] == '}';
    var k := if d <= 2 then 2 else d;
    assert s[j + k] == t[k - d];
    assert s[j + k] != t[k];
  }

  /** The documented bare `{{^NAME}}` tag is not a block: the pass leaves it in place. */
  lemma BareCaretIsNotABlock(s: string)
    requires StartsWith(s, "{{^")
    ensures MatchBlock(s).None?
  {
    assert s[..3] == "{{^";
    assert s[2] != '#';
  }

  /** Conditional elimination repeated until nothing changes. */
  function Conditionals(s: string, ctx: Context): string
    decreases |s|
  {
    var p := Pass(s, ctx);
    if p == s then s
    else
      PassShrinksOrFixes(s, ctx);
      Conditionals(p, ctx)
  }

  /** The outcome of the loop is a fixed point of a pass, so elimination run again changes nothing. */
  lemma {:induction false} ConditionalsIsFixedPoint(s: string, ctx: Context)
    ensures Pass(Conditionals(s, ctx), ctx) == Conditionals(s, ctx)
    ensures Conditionals(Conditionals(s, ctx), ctx) == Conditionals(s, ctx)
    decreases |s|
  {
    if Pass(s, ctx) != s {
      PassShrinksOrFixes(s, ctx);
      ConditionalsIsFixedPoint(Pass(s, ctx), ctx);
    }
  }

  /** `process_conditionals`: `while prev != content: prev = content; content = re.sub(...)`. */
  method ProcessConditionals(content0: string, ctx: Context) returns (content: string)
    ensures content == Conditionals(content0, ctx)
    ensures Pass(content, ctx) == content
  {
    var prev: Option<string> := None;
    content := content0;
    while prev != Some(content)
      invariant Conditionals(content, ctx) == Conditionals(content0, ctx)
      invariant prev.Some? ==> content == Pass(prev.value, ctx)
      invariant prev.Some? ==> |content| <= |prev.value|
      decreases |content| + (if prev == Some(content) then 0 else 1)
    {
      PassShrinksOrFixes(content, ctx);
      prev := Some(content);
      content := Pass(content, ctx);
    }
    ConditionalsIsFixedPoint(content0, ctx);
  }

  // ===========================================================================
  // render_template: variables
  // ===========================================================================

  /** The name of a `\{\{([A-Z_][A-Z0-9_]*)\}\}` placeholder at the start of `s`, if any. */
  function MatchPlaceholder(s: string): (r: Option<string>)
    ensures r.Some? ==> ValidName(r.value) && |r.value| + 4 <= |s| && s[..|r.value| + 4] == "{{" + r.value + "}}"
  {
    if !StartsWith(s, "{{") then None
    else
      var n := NameRun(s[2..]);
      if n == 0 || !IsNameStart(s[2]) || !StartsWith(s[2 + n..], "}}") then None
      else
        var name := s[2..2 + n];
        assert s[..n + 4] == s[..2] + s[2..2 + n] + s[2 + n..][..2];
        Some(name)
  }

  /** `process_variables`: one left-to-right pass; a defined name becomes its value, an unknown one stays. */
  function Substitute(s: string, vars: Vars): string
    decreases |s|
  {
    if s == [] then []
    else match MatchPlaceholder(s)
      case Some(n) => Get(vars, n, s[..|n| + 4]) + Substitute(s[|n| + 4..], vars)
      case None => [s[0]] + Substitute(s[1..], vars)
  }

  /** A placeholder is replaced by its value (or kept when undefined) and the value is not scanned again. */
  lemma SubstitutePlaceholder(name: string, rest: string, vars: Vars)
    requires ValidName(name)
    ensures Substitute("{{" + name + "}}" + rest, vars)
      == (if name in vars then vars[name] else "{{" + name + "}}") + Substitute(rest, vars)
  {
    var s := "{{" + name + "}}" + rest;
    assert s[2..] == name + ("}}" + rest);
    NameRunOf(name, "}}" + rest);
    assert s[2..2 + |name|] == name;
    assert s[2 + |name|..][..2] == "}}";
    assert s[|name| + 4..] == rest;
  }

  /**
   * An instance of `SubstitutePlaceholder`: a value that itself looks like a
   * placeholder is emitted as is, because the pass does not rescan what it inserts.
   */
  lemma SingleSubstitutionPass()
    ensures Substitute("{{A}}", map["A" := "{{B}}", "B" := "x"]) == "{{B}}"
  {
    var vars := map["A" := "{{B}}", "B" := "x"];
    assert "A"[0] == 'A';
    SubstitutePlaceholder("A", "", vars);
    assert "{{" + "A" + "}}" + "" == "{{A}}";
    assert Substitute("", vars) == "";
    assert vars["A"] == "{{B}}";
  }

  /** `render_template`: conditionals twice (the second call is a no-op), then one substitution pass. */
  method RenderTemplate(template: string, ctx: Context) returns (out: string)
    ensures out == Substitute(Conditionals(template, ctx), ctx.vars)
  {
    var content := ProcessConditionals(template, ctx);
    content := ProcessConditionals(content, ctx);
    ConditionalsIsFixedPoint(template, ctx);
    out := Substitute(content, ctx.vars);
  }
}
