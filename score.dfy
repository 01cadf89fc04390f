/**
 * The repository quality scorer (calculate-score.py): four category scorers that add
 * points for files and file contents they find, the weighted overall score, the grade
 * table, and the issues and recommendations derived from the sub-scores.
 *
 * The file system is abstracted as the set of paths (relative to the repository) that
 * are regular files, the set that are directories, and the text of the files that are
 * read. Regular-expression searches, the Python-file heuristics, `package.json` parsing
 * and the `git` subprocesses are abstracted as facts given with the repository.
 * Sub-scores are `real`: all are whole numbers except inline documentation, which can be
 * one half.
 */
module Score {
  import opened Optional
  import opened Text

  // ---------------------------------------------------------------------------
  // What the scorer observes
  // ---------------------------------------------------------------------------

  /** The outcomes of the seven regular-expression searches over the lower-cased README. */
  datatype ReadmeFacts = ReadmeFacts(
    title: bool,
    installation: bool,
    usage: bool,
    contributingLink: bool,
    license: bool,
    prerequisites: bool,
    contact: bool)

  datatype Repo = Repo(
    files: set<string>,
    dirs: set<string>,
    text: map<string, string>,
    readme: ReadmeFacts,
    pythonFiles: nat,           // number of `*.py` files anywhere in the tree
    docstrings: nat,            // docstring blocks found in the first ten of them
    annotatedFiles: nat,        // of the first ten, the files with a type annotation
    commentDensity: real,       // summed comment-line ratio of the first ten, over all `*.py` files
    workflowNames: seq<string>, // `os.listdir(".github/workflows")`
    secretsFound: bool,         // a hard-coded credential pattern matched a source file
    validationFound: bool,      // an input-validation pattern matched a Python file
    testFiles: nat,             // files named like tests
    packageRaises: bool,        // `json.load` of package.json, `pkg.get` or the `in` test on its `scripts` raises
    packageHasTestScript: bool, // `"test" in package.json["scripts"]`
    packagePublished: bool,     // `publishConfig` or `homepage` in package.json
    packageHasLicense: bool,    // `"license"` is a key of package.json
    recentCommit: bool,         // the last commit is less than 30 days old
    contributors: nat)          // lines of `git shortlog -sn HEAD`

  predicate IsFile(repo: Repo, path: string) { path in repo.files }

  predicate IsDir(repo: Repo, path: string) { path in repo.dirs }

  /** The text of a file the scorer reads. */
  function Content(repo: Repo, path: string): string {
    if path in repo.text then repo.text[path] else ""
  }

  /** Some path of the list is a regular file (`any(check_file_exists(...) for ...)`). */
  predicate AnyFile(repo: Repo, paths: seq<string>) {
    exists k :: 0 <= k < |paths| && IsFile(repo, paths[k])
  }

  function Points(condition: bool, n: real): real {
    if condition then n else 0.0
  }

  // ---------------------------------------------------------------------------
  // Documentation
  // ---------------------------------------------------------------------------

  datatype DocScores = DocScores(
    readmeCompleteness: real,
    apiDocumentation: real,
    additionalDocs: real,
    inlineDocumentation: real)

  function DocTotal(s: DocScores): real {
    s.readmeCompleteness + s.apiDocumentation + s.additionalDocs + s.inlineDocumentation
  }

  /** `int(min(docstrings / files, 1.0) * 2)`, when there are docstrings and Python files. */
  function DocstringPoints(repo: Repo): (r: real)
    ensures 0.0 <= r <= 2.0
    ensures r == 2.0 <==> repo.pythonFiles > 0 && repo.docstrings >= repo.pythonFiles
    ensures r == 0.0 <==> repo.docstrings == 0 || repo.pythonFiles == 0 || 2 * repo.docstrings < repo.pythonFiles
  {
    if repo.docstrings > 0 && repo.pythonFiles > 0 then
      var halves := 2 * repo.docstrings / repo.pythonFiles;
      assert halves >= 2 <==> repo.docstrings >= repo.pythonFiles by {
        DivAtLeast(2 * repo.docstrings, repo.pythonFiles, 2);
      }
      assert halves >= 1 <==> 2 * repo.docstrings >= repo.pythonFiles by {
        DivAtLeast(2 * repo.docstrings, repo.pythonFiles, 1);
      }
      if halves >= 2 then 2.0 else halves as real
    else 0.0
  }

  lemma DivAtLeast(n: nat, d: nat, k: nat)
    requires d > 0
    ensures n / d >= k <==> n >= k * d
  {
    var q := n / d;
    assert d * q <= n < d * (q + 1);
    if q >= k {
      MulMono(d, k, q);
    } else {
      MulMono(d, q + 1, k);
    }
  }

  lemma MulMono(d: nat, a: nat, b: nat)
    requires a <= b
    ensures d * a <= d * b
  {
  }

  /** More than 10% comment lines earn a point, more than 5% half a point. */
  function InlinePoints(density: real): real {
    if density > 0.1 then 1.0 else if density > 0.05 then 0.5 else 0.0
  }

  /** README completeness: the points for each of the seven README searches. */
  function ReadmePoints(f: ReadmeFacts): real {
    Points(f.title, 2.0) + Points(f.installation, 2.0) + Points(f.usage, 3.0)
      + Points(f.contributingLink, 2.0) + Points(f.license, 1.0)
      + Points(f.prerequisites, 1.0) + Points(f.contact, 1.0)
  }

  /** API documentation: docstrings, type annotations and a documentation directory or page. */
  function ApiPoints(repo: Repo): real {
    DocstringPoints(repo) + Points(repo.annotatedFiles > 0, 1.0)
      + Points(IsDir(repo, "docs") || IsFile(repo, "docs/index.md") || IsFile(repo, "api.md"), 2.0)
  }

  /** Additional documentation files and an examples directory. */
  function AdditionalPoints(repo: Repo): real {
    Points(IsFile(repo, "CONTRIBUTING.md"), 2.0)
      + Points(IsFile(repo, "ARCHITECTURE.md") || IsFile(repo, "docs/architecture.md"), 1.0)
      + Points(IsFile(repo, "CHANGELOG.md") || IsFile(repo, "HISTORY.md"), 1.0)
      + Points(IsDir(repo, "examples") || IsDir(repo, "example"), 1.0)
  }

  /** The documentation sub-scores; everything is scored only when there is a README. */
  function DocumentationOf(repo: Repo): DocScores {
    if !IsFile(repo, "README.md") then DocScores(0.0, 0.0, 0.0, 0.0)
    else DocScores(ReadmePoints(repo.readme), ApiPoints(repo), AdditionalPoints(repo), InlinePoints(repo.commentDensity))
  }

  /** `score_documentation`: the `+=` steps over the README facts and the file probes. */
  method ScoreDocumentation(repo: Repo) returns (s: DocScores)
    ensures s == DocumentationOf(repo)
  {
    var readme, api, additional, inline := 0.0, 0.0, 0.0, 0.0;
    if IsFile(repo, "README.md") {
      readme := ScoreReadme(repo.readme);
      api := ScoreApi(repo);
      additional := ScoreAdditional(repo);
      inline := InlinePoints(repo.commentDensity);
    }
    s := DocScores(readme, api, additional, inline);
  }

  /** The README completeness steps. */
  method ScoreReadme(f: ReadmeFacts) returns (readme: real)
    ensures readme == ReadmePoints(f)
  {
    readme := 0.0;
    if f.title { readme := readme + 2.0; }
    if f.installation { readme := readme + 2.0; }
    if f.usage { readme := readme + 3.0; }
    if f.contributingLink { readme := readme + 2.0; }
    if f.license { readme := readme + 1.0; }
    if f.prerequisites { readme := readme + 1.0; }
    if f.contact { readme := readme + 1.0; }
  }

  /** The API documentation steps. */
  method ScoreApi(repo: Repo) returns (api: real)
    ensures api == ApiPoints(repo)
  {
    api := DocstringPoints(repo);
    if repo.annotatedFiles > 0 { api := api + 1.0; }
    if IsDir(repo, "docs") || IsFile(repo, "docs/index.md") || IsFile(repo, "api.md") { api := api + 2.0; }
  }

  /** The additional documentation steps. */
  method ScoreAdditional(repo: Repo) returns (additional: real)
    ensures additional == AdditionalPoints(repo)
  {
    additional := 0.0;
    if IsFile(repo, "CONTRIBUTING.md") { additional := additional + 2.0; }
    if IsFile(repo, "ARCHITECTURE.md") || IsFile(repo, "docs/architecture.md") { additional := additional + 1.0; }
    if IsFile(repo, "CHANGELOG.md") || IsFile(repo, "HISTORY.md") { additional := additional + 1.0; }
    if IsDir(repo, "examples") || IsDir(repo, "example") { additional := additional + 1.0; }
  }

  /** Each documentation sub-score is bounded by the sum of its increments; the category reaches at most 23 of its nominal 25. */
  lemma DocumentationBounds(repo: Repo)
    ensures var s := DocumentationOf(repo);
      0.0 <= s.readmeCompleteness <= 12.0 && 0.0 <= s.apiDocumentation <= 5.0
      && 0.0 <= s.additionalDocs <= 5.0 && 0.0 <= s.inlineDocumentation <= 1.0
      && 0.0 <= DocTotal(s) <= 23.0
    ensures !IsFile(repo, "README.md") ==> DocTotal(DocumentationOf(repo)) == 0.0
  {
  }

  // ---------------------------------------------------------------------------
  // Security
  // ---------------------------------------------------------------------------

  datatype SecScores = SecScores(
    securityPolicy: real,
    dependencyManagement: real,
    codeScanning: real,
    bestPractices: real)

  function SecTotal(s: SecScores): real {
    s.securityPolicy + s.dependencyManagement + s.codeScanning + s.bestPractices
  }

  const Lockfiles := ["package-lock.json", "yarn.lock", "requirements.lock", "Pipfile.lock",
                      "Cargo.lock", "go.sum", "composer.lock"]
  const SastTools := [".secrets.baseline", ".eslintignore", ".golangci.yml"]
  const ConfigFiles := ["settings.py", "config.py", "config.yml", "config.yaml", "config.json"]
  const Dependabot := ".github/dependabot.yml"
  const Workflows := ".github/workflows"

  /** A workflow file name that suggests a security scan. */
  predicate ScanWorkflow(name: string) {
    Contains(Lower(name), "security") || Contains(Lower(name), "scan")
  }

  /** The points for SECURITY.md: 3 for the file, then 2, 2 and 1 for what its text mentions. */
  function PolicyPoints(repo: Repo): real {
    if !IsFile(repo, "SECURITY.md") then 0.0
    else
      var t := Lower(Content(repo, "SECURITY.md"));
      3.0 + Points(Contains(t, "vulnerability") || Contains(t, "report"), 2.0)
        + Points(Contains(t, "version") || Contains(t, "support"), 2.0)
        + Points(Contains(t, "email") || Contains(t, "contact"), 1.0)
  }

  /** CodeQL earns 3; otherwise any workflow named for security or scanning earns 2. */
  function WorkflowScanPoints(repo: Repo): real {
    if IsFile(repo, Workflows + "/codeql.yml") then 3.0
    else if IsDir(repo, Workflows) && exists k :: 0 <= k < |repo.workflowNames| && ScanWorkflow(repo.workflowNames[k]) then 2.0
    else 0.0
  }

  /** Dependabot or Renovate earns 3, a lockfile 2. */
  function DependencyPoints(repo: Repo): real {
    Points(IsFile(repo, Dependabot) || IsFile(repo, ".github/renovate.json"), 3.0)
      + Points(AnyFile(repo, Lockfiles), 2.0)
  }

  /** Scanning workflows, SAST configuration and secret scanning in the Dependabot file. */
  function ScanningPoints(repo: Repo): real {
    WorkflowScanPoints(repo) + Points(AnyFile(repo, SastTools), 2.0)
      + Points(IsFile(repo, Dependabot) && Contains(Lower(Content(repo, Dependabot)), "secret"), 1.0)
  }

  /** No hard-coded secrets, input validation and a configuration file, a point each. */
  function PracticePoints(repo: Repo): real {
    Points(!repo.secretsFound, 1.0) + Points(repo.validationFound, 1.0) + Points(AnyFile(repo, ConfigFiles), 1.0)
  }

  function SecurityOf(repo: Repo): SecScores {
    SecScores(PolicyPoints(repo), DependencyPoints(repo), ScanningPoints(repo), PracticePoints(repo))
  }

  /** `any(check_file_exists(...) for p in paths)` as a loop. */
  method AnyFileOf(repo: Repo, paths: seq<string>) returns (found: bool)
    ensures found <==> AnyFile(repo, paths)
  {
    found := false;
    for k := 0 to |paths|
      invariant found <==> exists j :: 0 <= j < k && IsFile(repo, paths[j])
    {
      if IsFile(repo, paths[k]) {
        found := true;
      }
    }
  }

  /** `score_security`. */
  method ScoreSecurity(repo: Repo) returns (s: SecScores)
    ensures s == SecurityOf(repo)
  {
    var policy, dependency, scanning, practices := 0.0, 0.0, 0.0, 0.0;
    if IsFile(repo, "SECURITY.md") {
      policy := policy + 3.0;
      var t := Lower(Content(repo, "SECURITY.md"));
      if Contains(t, "vulnerability") || Contains(t, "report") { policy := policy + 2.0; }
      if Contains(t, "version") || Contains(t, "support") { policy := policy + 2.0; }
      if Contains(t, "email") || Contains(t, "contact") { policy := policy + 1.0; }
    }
    assert policy == PolicyPoints(repo);

    if IsFile(repo, Dependabot) || IsFile(repo, ".github/renovate.json") { dependency := dependency + 3.0; }
    var locked := AnyFileOf(repo, Lockfiles);
    if locked { dependency := dependency + 2.0; }
    assert dependency == DependencyPoints(repo);

    if IsFile(repo, Workflows + "/codeql.yml") {
      scanning := scanning + 3.0;
    } else if IsDir(repo, Workflows) {
      var k := 0;
      while k < |repo.workflowNames|
        invariant 0 <= k <= |repo.workflowNames|
        invariant forall j :: 0 <= j < k ==> !ScanWorkflow(repo.workflowNames[j])
        invariant scanning == 0.0
      {
        if ScanWorkflow(repo.workflowNames[k]) {
          scanning := scanning + 2.0;
          break;
        }
        k := k + 1;
      }
    }
    assert scanning == WorkflowScanPoints(repo);
    var sast := AnyFileOf(repo, SastTools);
    if sast { scanning := scanning + 2.0; }
    if IsFile(repo, Dependabot) && Contains(Lower(Content(repo, Dependabot)), "secret") { scanning := scanning + 1.0; }
    assert scanning == ScanningPoints(repo);

    if !repo.secretsFound { practices := practices + 1.0; }
    if repo.validationFound { practices := practices + 1.0; }
    var configured := AnyFileOf(repo, ConfigFiles);
    if configured { practices := practices + 1.0; }

    s := SecScores(policy, dependency, scanning, practices);
  }

  /**
   * Each security sub-score is bounded by the sum of its increments. Dependency management
   * reaches at most 5 of its nominal 8, so its "< 8" issue is raised for every repository.
   */
  lemma SecurityBounds(repo: Repo)
    ensures var s := SecurityOf(repo);
      0.0 <= s.securityPolicy <= 8.0 && 0.0 <= s.dependencyManagement <= 5.0
      && 0.0 <= s.codeScanning <= 6.0 && 0.0 <= s.bestPractices <= 3.0
      && 0.0 <= SecTotal(s) <= 22.0
    ensures IsFile(repo, "SECURITY.md") <==> SecurityOf(repo).securityPolicy >= 3.0
  {
  }

  // ---------------------------------------------------------------------------
  // CI/CD
  // ---------------------------------------------------------------------------

  datatype CiScores = CiScores(
    automatedTesting: real,
    continuousIntegration: real,
    codeQuality: real,
    deployment: real)

  function CiTotal(s: CiScores): real {
    s.automatedTesting + s.continuousIntegration + s.codeQuality + s.deployment
  }

  const CiWorkflows := [Workflows + "/test.yml", Workflows + "/ci.yml", Workflows + "/build.yml"]
  const Linters := [".flake8", ".eslintrc.json", ".eslintrc.yml", "pyproject.toml", ".golangci.yml", "Cargo.toml"]
  const Formatters := [".prettierrc", "pyproject.toml", "ruff.toml", ".EditorConfig"]
  const ReleaseWorkflows := [Workflows + "/release.yml", Workflows + "/publish.yml"]

  /** The files probed for a coverage configuration; the workflow only when the workflows directory exists. */
  function CoverageCandidates(repo: Repo): seq<string> {
    [".coveragerc", "pyproject.toml", ".coveragerc"] + if IsDir(repo, Workflows) then [Workflows + "/test.yml"] else []
  }

  /** A coverage configuration: the file's lower-cased text mentions `coverage` or `pytest-cov`. */
  predicate MentionsCoverage(text: string) {
    Contains(Lower(text), "coverage") || Contains(Lower(text), "pytest-cov")
  }

  /**
   * The coverage test as written: the second `f.read()` of the same handle returns the
   * empty string, so only `coverage` is ever looked for.
   */
  predicate MentionsCoverageAsWritten(text: string) {
    var first, second := text, "";
    Contains(Lower(first), "coverage") || Contains(Lower(second), "pytest-cov")
  }

  predicate CoverageFound(repo: Repo) {
    var c := CoverageCandidates(repo);
    exists k :: 0 <= k < |c| && IsFile(repo, c[k]) && MentionsCoverage(Content(repo, c[k]))
  }

  /** A CI workflow runs on pull requests or pushes. */
  predicate RunsOnPullOrPush(text: string) {
    Contains(text, "pull_request") || Contains(text, "push")
  }

  /** The trigger test as written: the second `f.read()` returns the empty string, so `push` is never seen. */
  predicate RunsOnPullOrPushAsWritten(text: string) {
    var first, second := text, "";
    Contains(first, "pull_request") || Contains(second, "push")
  }

  predicate TestsSeveralTargets(text: string) {
    Contains(text, "matrix") || Contains(text, "python-version") || Contains(text, "node-version")
  }

  /** Some CI workflow file satisfies `p`. */
  predicate SomeCiWorkflow(repo: Repo, p: string -> bool) {
    exists k :: 0 <= k < |CiWorkflows| && IsFile(repo, CiWorkflows[k]) && p(Content(repo, CiWorkflows[k]))
  }

  /** Tests, a test script and a coverage configuration (whose 2 + 2 points are awarded together). */
  function TestingPoints(repo: Repo): real {
    Points(repo.testFiles > 0 || IsDir(repo, "tests") || IsDir(repo, "test"), 3.0)
      + Points(IsFile(repo, "package.json") && repo.packageHasTestScript, 3.0)
      + Points(CoverageFound(repo), 4.0)
  }

  /** A CI workflow, its triggers and its build matrix; the last point is always awarded. */
  function IntegrationPoints(repo: Repo): real {
    Points(AnyFile(repo, CiWorkflows), 3.0) + Points(SomeCiWorkflow(repo, RunsOnPullOrPush), 2.0)
      + Points(SomeCiWorkflow(repo, TestsSeveralTargets), 2.0) + 1.0
  }

  /** Linters and formatters; the middle point is always awarded. */
  function QualityPoints(repo: Repo): real {
    Points(AnyFile(repo, Linters), 2.0) + 1.0 + Points(AnyFile(repo, Formatters), 1.0)
  }

  /** A release workflow and a package that is published. */
  function DeploymentPoints(repo: Repo): real {
    Points(AnyFile(repo, ReleaseWorkflows), 2.0)
      + Points((IsFile(repo, "package.json") && repo.packagePublished)
               || (IsFile(repo, "pyproject.toml") && Contains(Lower(Content(repo, "pyproject.toml")), "pypi")), 1.0)
  }

  function CiOf(repo: Repo): CiScores {
    CiScores(TestingPoints(repo), IntegrationPoints(repo), QualityPoints(repo), DeploymentPoints(repo))
  }

  /** The first candidate loop: stop at the first existing file that mentions coverage. */
  method FindCoverage(repo: Repo) returns (found: bool)
    ensures found <==> CoverageFound(repo)
  {
    var candidates := CoverageCandidates(repo);
    found := false;
    var k := 0;
    while k < |candidates|
      invariant 0 <= k <= |candidates|
      invariant !found
      invariant forall j :: 0 <= j < k ==> !(IsFile(repo, candidates[j]) && MentionsCoverage(Content(repo, candidates[j])))
    {
      if IsFile(repo, candidates[k]) && MentionsCoverage(Content(repo, candidates[k])) {
        found := true;
        break;
      }
      k := k + 1;
    }
  }

  /** A loop over the CI workflows that stops at the first existing one satisfying `p`. */
  method FindCiWorkflow(repo: Repo, p: string -> bool) returns (found: bool)
    ensures found <==> SomeCiWorkflow(repo, p)
  {
    found := false;
    var k := 0;
    while k < |CiWorkflows|
      invariant 0 <= k <= |CiWorkflows|
      invariant !found
      invariant forall j :: 0 <= j < k ==> !(IsFile(repo, CiWorkflows[j]) && p(Content(repo, CiWorkflows[j])))
    {
      if IsFile(repo, CiWorkflows[k]) && p(Content(repo, CiWorkflows[k])) {
        found := true;
        break;
      }
      k := k + 1;
    }
  }

  /** `score_cicd`. */
  method ScoreCicd(repo: Repo) returns (s: CiScores)
    ensures s == CiOf(repo)
  {
    var testing, integration, quality, deployment := 0.0, 0.0, 0.0, 0.0;
    if repo.testFiles > 0 || IsDir(repo, "tests") || IsDir(repo, "test") { testing := testing + 3.0; }
    if IsFile(repo, "package.json") && repo.packageHasTestScript { testing := testing + 3.0; }
    var coverage := FindCoverage(repo);
    if coverage { testing := testing + 2.0; }
    if coverage { testing := testing + 2.0; }
    assert testing == TestingPoints(repo);

    var ci := AnyFileOf(repo, CiWorkflows);
    if ci { integration := integration + 3.0; }
    var triggered := FindCiWorkflow(repo, RunsOnPullOrPush);
    if triggered { integration := integration + 2.0; }
    var matrix := FindCiWorkflow(repo, TestsSeveralTargets);
    if matrix { integration := integration + 2.0; }
    integration := integration + 1.0;
    assert integration == IntegrationPoints(repo);

    var linted := AnyFileOf(repo, Linters);
    if linted { quality := quality + 2.0; }
    quality := quality + 1.0;
    var formatted := AnyFileOf(repo, Formatters);
    if formatted { quality := quality + 1.0; }
    assert quality == QualityPoints(repo);

    var released := AnyFileOf(repo, ReleaseWorkflows);
    if released { deployment := deployment + 2.0; }
    var published := IsFile(repo, "package.json") && repo.packagePublished;
    if IsFile(repo, "pyproject.toml") && Contains(Lower(Content(repo, "pyproject.toml")), "pypi") { published := true; }
    if published { deployment := deployment + 1.0; }

    s := CiScores(testing, integration, quality, deployment);
  }

  /** Each CI/CD sub-score is bounded by the sum of its increments; the heuristic points are always awarded. */
  lemma CiBounds(repo: Repo)
    ensures var s := CiOf(repo);
      0.0 <= s.automatedTesting <= 10.0 && 1.0 <= s.continuousIntegration <= 8.0
      && 1.0 <= s.codeQuality <= 4.0 && 0.0 <= s.deployment <= 3.0
      && 2.0 <= CiTotal(s) <= 25.0
  {
  }

  /** A configuration that mentions only `pytest-cov` is missed by the test as written, and found by the intended one. */
  lemma PytestCovMissedAsWritten()
    ensures !MentionsCoverageAsWritten("pytest-cov")
    ensures MentionsCoverage("pytest-cov")
  {
    var t := "pytest-cov";
    assert Lower(t) == t;
    assert OccursAt(Lower(t), "pytest-cov", 0);
    assert !Contains(Lower(t), "coverage") by {
      ContainsIff(t, "coverage");
      forall i ensures !OccursAt(t, "coverage", i) {
        if 0 <= i && i + 8 <= |t| {
          assert t[i..i + 8][0] == t[i] != 'c';
        }
      }
    }
    assert !Contains(Lower(""), "pytest-cov");
  }

  /** A workflow triggered only by `push` is missed by the test as written, and found by the intended one. */
  lemma PushOnlyMissedAsWritten()
    ensures !RunsOnPullOrPushAsWritten("on: [push]")
    ensures RunsOnPullOrPush("on: [push]")
  {
    assert OccursAt("on: [push]", "push", 5);
    assert !Contains("on: [push]", "pull_request");
  }

  /** The intended tests accept everything the as-written tests accept, and more. */
  lemma AsWrittenProbesAreWeaker(text: string)
    ensures MentionsCoverageAsWritten(text) ==> MentionsCoverage(text)
    ensures RunsOnPullOrPushAsWritten(text) ==> RunsOnPullOrPush(text)
  {
    assert !Contains(Lower(""), "pytest-cov");
    assert !Contains("", "push");
  }

  // ---------------------------------------------------------------------------
  // Community
  // ---------------------------------------------------------------------------

  datatype CommunityScores = CommunityScores(
    license: real,
    contributionProcess: real,
    communityHealth: real,
    documentationQuality: real)

  function CommunityTotal(s: CommunityScores): real {
    s.license + s.contributionProcess + s.communityHealth + s.documentationQuality
  }

  const LicenseFiles := ["LICENSE", "LICENSE.md", "LICENSE.txt"]
  const LicenseNames := ["MIT", "Apache", "GPL", "BSD", "ISC", "BSD-3-Clause"]

  /** The first existing licence file, in the order probed. */
  function FirstLicenseFile(repo: Repo, k: nat): (r: Option<string>)
    requires k <= |LicenseFiles|
    ensures r.Some? ==> r.value in LicenseFiles[k..] && IsFile(repo, r.value)
    ensures r.None? <==> forall j :: k <= j < |LicenseFiles| ==> !IsFile(repo, LicenseFiles[j])
    decreases |LicenseFiles| - k
  {
    if k == |LicenseFiles| then None
    else if IsFile(repo, LicenseFiles[k]) then Some(LicenseFiles[k])
    else FirstLicenseFile(repo, k + 1)
  }

  predicate NamesOsiLicense(text: string) {
    exists k :: 0 <= k < |LicenseNames| && Contains(text, LicenseNames[k])
  }

  function LicensePoints(repo: Repo): real {
    match FirstLicenseFile(repo, 0)
    case None => 0.0
    case Some(f) =>
      3.0 + Points(NamesOsiLicense(Content(repo, f)), 2.0)
        + Points(IsFile(repo, "package.json") && repo.packageHasLicense, 1.0)
  }

  /** A CONTRIBUTING file, one that explains forks and pull requests, templates and a code of conduct. */
  function ContributionPoints(repo: Repo): real {
    var contributing := Lower(Content(repo, "CONTRIBUTING.md"));
    Points(IsFile(repo, "CONTRIBUTING.md"), 3.0)
      + Points(IsFile(repo, "CONTRIBUTING.md") && Contains(contributing, "fork") && Contains(contributing, "pull"), 2.0)
      + Points(IsDir(repo, ".github/ISSUE_TEMPLATE") || IsFile(repo, ".github/ISSUE_TEMPLATE")
               || IsDir(repo, ".github/PULL_REQUEST_TEMPLATE.md") || IsFile(repo, ".github/PULL_REQUEST_TEMPLATE.md"), 2.0)
      + Points(IsFile(repo, "CODE_OF_CONDUCT.md"), 1.0)
  }

  /** A code of conduct, a recent commit and more than one contributor. */
  function HealthPoints(repo: Repo): real {
    Points(IsFile(repo, "CODE_OF_CONDUCT.md"), 3.0) + Points(repo.recentCommit, 1.0)
      + Points(repo.contributors > 1, 1.0)
  }

  /** A README, a point always awarded, and badges from shields.io. */
  function DocQualityPoints(repo: Repo): real {
    Points(IsFile(repo, "README.md"), 2.0) + 1.0
      + Points(IsFile(repo, "README.md") && Contains(Content(repo, "README.md"), "shields.io"), 1.0)
  }

  function CommunityOf(repo: Repo): CommunityScores {
    CommunityScores(LicensePoints(repo), ContributionPoints(repo), HealthPoints(repo), DocQualityPoints(repo))
  }

  /** `score_community`; the licence text checked is that of the first licence file found. */
  method ScoreCommunity(repo: Repo) returns (s: CommunityScores)
    ensures s == CommunityOf(repo)
  {
    var license := ScoreLicense(repo);
    var contribution := ScoreContribution(repo);
    var health, docQuality := 0.0, 0.0;
    if IsFile(repo, "CODE_OF_CONDUCT.md") { health := health + 3.0; }
    if repo.recentCommit { health := health + 1.0; }
    if repo.contributors > 1 { health := health + 1.0; }
    if IsFile(repo, "README.md") { docQuality := docQuality + 2.0; }
    docQuality := docQuality + 1.0;
    if IsFile(repo, "README.md") && Contains(Content(repo, "README.md"), "shields.io") { docQuality := docQuality + 1.0; }
    s := CommunityScores(license, contribution, health, docQuality);
  }

  /** The licence steps: a licence file, an OSI licence named in the first one found, and a `license` field. */
  method ScoreLicense(repo: Repo) returns (license: real)
    ensures license == LicensePoints(repo)
  {
    license := 0.0;
    var present := AnyFileOf(repo, LicenseFiles);
    if present {
      license := license + 3.0;
      var k := 0;
      while k < |LicenseFiles|
        invariant 0 <= k <= |LicenseFiles|
        invariant FirstLicenseFile(repo, k) == FirstLicenseFile(repo, 0)
        invariant license == 3.0
      {
        if IsFile(repo, LicenseFiles[k]) {
          if NamesOsiLicense(Content(repo, LicenseFiles[k])) {
            license := license + 2.0;
          }
          break;
        }
        k := k + 1;
      }
      if IsFile(repo, "package.json") && repo.packageHasLicense { license := license + 1.0; }
    }
  }

  /** The contribution-process steps. */
  method ScoreContribution(repo: Repo) returns (contribution: real)
    ensures contribution == ContributionPoints(repo)
  {
    contribution := 0.0;
    if IsFile(repo, "CONTRIBUTING.md") { contribution := contribution + 3.0; }
    if IsFile(repo, "CONTRIBUTING.md") {
      var t := Lower(Content(repo, "CONTRIBUTING.md"));
      if Contains(t, "fork") && Contains(t, "pull") { contribution := contribution + 2.0; }
    }
    if IsDir(repo, ".github/ISSUE_TEMPLATE") || IsFile(repo, ".github/ISSUE_TEMPLATE")
       || IsDir(repo, ".github/PULL_REQUEST_TEMPLATE.md") || IsFile(repo, ".github/PULL_REQUEST_TEMPLATE.md") {
      contribution := contribution + 2.0;
    }
    if IsFile(repo, "CODE_OF_CONDUCT.md") { contribution := contribution + 1.0; }
  }

  /** Each community sub-score is bounded by the sum of its increments; the category reaches at most 23. */
  lemma CommunityBounds(repo: Repo)
    ensures var s := CommunityOf(repo);
      0.0 <= s.license <= 6.0 && 0.0 <= s.contributionProcess <= 8.0
      && 0.0 <= s.communityHealth <= 5.0 && 1.0 <= s.documentationQuality <= 4.0
      && 1.0 <= CommunityTotal(s) <= 23.0
  {
  }

  // ---------------------------------------------------------------------------
  // Weights and grade
  // ---------------------------------------------------------------------------

  datatype Category = Documentation | Security | CiCd | Community

  /** The key of a category in the weights and in the report. */
  function CategoryName(c: Category): string {
    match c
    case Documentation => "documentation"
    case Security => "security"
    case CiCd => "ci_cd"
    case Community => "community"
  }

  /** No key occurs twice, as in a dictionary. */
  predicate DistinctKeys(ws: seq<(string, real)>) {
    forall i, j :: 0 <= i < j < |ws| ==> ws[i].0 != ws[j].0
  }

  /** A weights dictionary (what `json.loads` makes of `--weights`), in insertion order. */
  type Weights = ws: seq<(string, real)> | DistinctKeys(ws) witness []

  const DefaultWeights: Weights := [("documentation", 25.0), ("security", 25.0), ("ci_cd", 25.0), ("community", 25.0)]

  function WeightSum(ws: seq<(string, real)>): real
    decreases |ws|
  {
    if ws == [] then 0.0 else ws[0].1 + WeightSum(ws[1..])
  }

  /** Every weight `v` becomes `v / total * 100`. */
  function Rescaled(ws: seq<(string, real)>, total: real): (r: seq<(string, real)>)
    requires total != 0.0
    ensures |r| == |ws| && forall k :: 0 <= k < |ws| ==> r[k].0 == ws[k].0 && r[k].1 == ws[k].1 / total * 100.0
  {
    seq(|ws|, k requires 0 <= k < |ws| => (ws[k].0, ws[k].1 / total * 100.0))
  }

  /**
   * Weights that do not sum to 100 are rescaled; a zero sum is a division by
   * zero, except for no weights at all, where the comprehension divides nothing.
   */
  function NormalizedWeights(ws: Weights): (r: Option<Weights>)
    ensures r.None? <==> WeightSum(ws) == 0.0 && ws != []
    ensures ws == [] ==> r == Some([])
    ensures r.Some? ==> |r.value| == |ws| && forall k :: 0 <= k < |ws| ==> r.value[k].0 == ws[k].0
    ensures r.Some? && WeightSum(ws) == 100.0 ==> r.value == ws
  {
    var total := WeightSum(ws);
    if total == 100.0 then Some(ws)
    else if ws == [] then Some(ws)
    else if total == 0.0 then None
    else Some(Rescaled(ws, total))
  }

  lemma {:induction false} RescaledSum(ws: seq<(string, real)>, total: real)
    requires total != 0.0
    ensures WeightSum(Rescaled(ws, total)) == WeightSum(ws) / total * 100.0
    decreases |ws|
  {
    if ws != [] {
      var tail := ws[1..];
      RescaledSum(tail, total);
      assert Rescaled(ws, total)[1..] == Rescaled(tail, total);
      var a, b := ws[0].1, WeightSum(tail);
      assert a / total * 100.0 + b / total * 100.0 == (a + b) / total * 100.0;
    }
  }

  lemma DefaultWeightsSum()
    ensures WeightSum(DefaultWeights) == 100.0
  {
    assert WeightSum(DefaultWeights[3..]) == 25.0;
    assert WeightSum(DefaultWeights[2..]) == 50.0;
    assert WeightSum(DefaultWeights[1..]) == 75.0;
  }

  /** Normalized weights always sum to 100; the default weights already do and are kept as they are. */
  lemma NormalizedSumIs100(ws: Weights)
    requires WeightSum(ws) != 0.0
    ensures WeightSum(NormalizedWeights(ws).value) == 100.0
    ensures NormalizedWeights(DefaultWeights) == Some(DefaultWeights)
  {
    var total := WeightSum(ws);
    if total != 100.0 {
      RescaledSum(ws, total);
      assert total / total * 100.0 == 100.0;
    }
    DefaultWeightsSum();
  }

  /** `weights[key]`; a missing key is a `KeyError`. */
  function Lookup(ws: seq<(string, real)>, key: string): (r: Option<real>)
    ensures r.Some? ==> exists k :: 0 <= k < |ws| && ws[k] == (key, r.value)
    ensures r.None? <==> forall k :: 0 <= k < |ws| ==> ws[k].0 != key
    decreases |ws|
  {
    if ws == [] then None
    else if ws[0].0 == key then Some(ws[0].1)
    else
      var r := Lookup(ws[1..], key);
      assert forall k :: 1 <= k < |ws| ==> ws[k] == ws[1..][k - 1];
      r
  }

  /** Every category has a weight. */
  predicate WeighsAll(ws: seq<(string, real)>) {
    forall c: Category :: Lookup(ws, CategoryName(c)).Some?
  }

  /** The weighted overall score: each category total scaled by its weight over 25. */
  function Weighted(doc: real, sec: real, ci: real, com: real, ws: Weights): real
    requires WeighsAll(ws)
  {
    doc * Lookup(ws, CategoryName(Documentation)).value / 25.0 + sec * Lookup(ws, CategoryName(Security)).value / 25.0
      + ci * Lookup(ws, CategoryName(CiCd)).value / 25.0 + com * Lookup(ws, CategoryName(Community)).value / 25.0
  }

  /** The overall score, or None where `calculate_score` raises: weights summing to zero, or a category without a weight. */
  function Overall(doc: real, sec: real, ci: real, com: real, weights: Weights): (r: Option<real>)
    ensures r.None? <==> WeightSum(weights) == 0.0 || exists c: Category :: forall k :: 0 <= k < |weights| ==> weights[k].0 != CategoryName(c)
  {
    match NormalizedWeights(weights)
    case None => None
    case Some(ws) =>
      assert forall c: Category :: Lookup(ws, CategoryName(c)).Some? <==> Lookup(weights, CategoryName(c)).Some?;
      if WeighsAll(ws) then Some(Weighted(doc, sec, ci, com, ws)) else None
  }

  /** With the default weights the overall score is the plain sum of the category totals. */
  lemma DefaultOverallIsSum(doc: real, sec: real, ci: real, com: real)
    ensures Overall(doc, sec, ci, com, DefaultWeights).Some?
    ensures Overall(doc, sec, ci, com, DefaultWeights).value == doc + sec + ci + com
  {
    DefaultWeightsSum();
    DefaultLookups();
    OverallOfEvenWeights(doc, sec, ci, com, DefaultWeights);
  }

  /** Weights summing to 100 with every category at 25 leave the overall score the sum of the totals. */
  lemma OverallOfEvenWeights(doc: real, sec: real, ci: real, com: real, ws: Weights)
    requires WeightSum(ws) == 100.0 && forall c: Category :: Lookup(ws, CategoryName(c)) == Some(25.0)
    ensures Overall(doc, sec, ci, com, ws).Some? && Overall(doc, sec, ci, com, ws).value == doc + sec + ci + com
  {
    WeightedOfEvenWeights(doc, sec, ci, com, ws);
    OverallOfNormalized(doc, sec, ci, com, ws);
  }

  /** With every weight 25, each total counts once. */
  lemma WeightedOfEvenWeights(doc: real, sec: real, ci: real, com: real, ws: Weights)
    requires forall c: Category :: Lookup(ws, CategoryName(c)) == Some(25.0)
    ensures WeighsAll(ws) && Weighted(doc, sec, ci, com, ws) == doc + sec + ci + com
  {
    assert Lookup(ws, CategoryName(Documentation)).value == 25.0;
    assert Lookup(ws, CategoryName(Security)).value == 25.0;
    assert Lookup(ws, CategoryName(CiCd)).value == 25.0;
    assert Lookup(ws, CategoryName(Community)).value == 25.0;
  }

  /** Weights that already sum to 100 and weigh every category are used as they are. */
  lemma OverallOfNormalized(doc: real, sec: real, ci: real, com: real, ws: Weights)
    requires WeightSum(ws) == 100.0 && WeighsAll(ws)
    ensures Overall(doc, sec, ci, com, ws).Some? && Overall(doc, sec, ci, com, ws).value == Weighted(doc, sec, ci, com, ws)
  {
  }

  /** Each category's default weight is 25. */
  lemma DefaultLookups()
    ensures forall c: Category :: Lookup(DefaultWeights, CategoryName(c)) == Some(25.0)
  {
    forall c: Category ensures Lookup(DefaultWeights, CategoryName(c)) == Some(25.0) {
      var ws := DefaultWeights;
      match c
      case Documentation =>
      case Security =>
        assert ws[0].0 != "security";
        assert ws[1..][0] == ("security", 25.0);
      case CiCd =>
        assert ws[0].0 != "ci_cd" && ws[1].0 != "ci_cd";
        assert ws[1..][1..][0] == ("ci_cd", 25.0);
      case Community =>
        assert ws[0].0 != "community" && ws[1].0 != "community" && ws[2].0 != "community";
        assert ws[1..][1..][1..][0] == ("community", 25.0);
    }
  }

  /** The partial weights shown in the `--weights` help text leave out two categories, so scoring raises. */
  lemma HelpExampleWeightsRaise(doc: real, sec: real, ci: real, com: real)
    ensures Overall(doc, sec, ci, com, [("documentation", 30.0), ("security", 40.0)]).None?
  {
    var ws: Weights := [("documentation", 30.0), ("security", 40.0)];
    assert ws[0].0 != CategoryName(CiCd) && ws[1].0 != CategoryName(CiCd);
  }

  datatype Grade = Grade(threshold: real, name: string, emoji: string)

  const GradeThresholds := [
    Grade(95.0, "Outstanding", "\U{2B50}"),
    Grade(85.0, "Excellent", "\U{2705}"),
    Grade(70.0, "Good", "\U{26A0}\U{FE0F}"),
    Grade(50.0, "Poor", "\U{1F536}"),
    Grade(0.0, "Critical", "\U{1F6A8}")]

  const DefaultGrade := Grade(0.0, "Critical", "\U{1F6A8}")

  /** The first grade of the table, from index `k` on, whose threshold the score reaches. */
  function GradeFrom(score: real, k: nat): (r: Grade)
    requires k <= |GradeThresholds|
    ensures r in GradeThresholds[k..] || r == DefaultGrade
    decreases |GradeThresholds| - k
  {
    if k == |GradeThresholds| then DefaultGrade
    else if score >= GradeThresholds[k].threshold then GradeThresholds[k]
    else GradeFrom(score, k + 1)
  }

  function GradeOf(score: real): Grade {
    GradeFrom(score, 0)
  }

  /** The grade loop of `calculate_score`: "Critical" unless a threshold is reached, first reached wins. */
  method GradeFor(score: real) returns (grade: string, emoji: string)
    ensures grade == GradeOf(score).name && emoji == GradeOf(score).emoji
  {
    grade, emoji := "Critical", "\U{1F6A8}";
    var k := 0;
    while k < |GradeThresholds|
      invariant 0 <= k <= |GradeThresholds|
      invariant GradeFrom(score, k) == GradeOf(score)
    {
      var g := GradeThresholds[k];
      if score >= g.threshold {
        grade, emoji := g.name, g.emoji;
        return;
      }
      k := k + 1;
    }
  }

  /** The grade bands: each score falls in exactly one, and a score below zero is still "Critical". */
  lemma GradeBands(score: real)
    ensures score >= 95.0 ==> GradeOf(score).name == "Outstanding"
    ensures 85.0 <= score < 95.0 ==> GradeOf(score).name == "Excellent"
    ensures 70.0 <= score < 85.0 ==> GradeOf(score).name == "Good"
    ensures 50.0 <= score < 70.0 ==> GradeOf(score).name == "Poor"
    ensures score < 50.0 ==> GradeOf(score).name == "Critical"
  {
  }

  /**
   * With the default weights no repository can be graded "Outstanding": the category
   * totals reach at most 23, 22, 25 and 23 points, 93 in all.
   */
  lemma OutstandingUnreachableByDefault(repo: Repo)
    ensures var total := DocTotal(DocumentationOf(repo)) + SecTotal(SecurityOf(repo))
                         + CiTotal(CiOf(repo)) + CommunityTotal(CommunityOf(repo));
      total <= 93.0 && GradeOf(total).name != "Outstanding"
  {
    DocumentationBounds(repo);
    SecurityBounds(repo);
    CiBounds(repo);
    CommunityBounds(repo);
  }

  // ---------------------------------------------------------------------------
  // Issues and recommendations
  // ---------------------------------------------------------------------------

  datatype IssueKind =
    | ReadmeIncomplete | DocsMissing | PolicyIncomplete | DependenciesUnmanaged
    | TestingWeak | LicenseUnclear | ContributionUnclear

  datatype Severity = Critical | Warning | Info

  datatype Issue = Issue(kind: IssueKind, severity: Severity)

  function IssueCategory(k: IssueKind): Category {
    match k
    case ReadmeIncomplete | DocsMissing => Documentation
    case PolicyIncomplete | DependenciesUnmanaged => Security
    case TestingWeak => CiCd
    case LicenseUnclear | ContributionUnclear => Community
  }

  /** The eight issue values the checks of `calculate_score` can append; no other value is ever listed. */
  const RaisableIssues: set<Issue> := {
    Issue(ReadmeIncomplete, Warning), Issue(DocsMissing, Info),
    Issue(PolicyIncomplete, Critical), Issue(PolicyIncomplete, Warning), Issue(DependenciesUnmanaged, Warning),
    Issue(TestingWeak, Warning),
    Issue(LicenseUnclear, Warning), Issue(ContributionUnclear, Info)}

  /** The position of the check that raises an issue of this kind. */
  function CheckOrder(k: IssueKind): nat {
    match k
    case ReadmeIncomplete => 0
    case DocsMissing => 1
    case PolicyIncomplete => 2
    case DependenciesUnmanaged => 3
    case TestingWeak => 4
    case LicenseUnclear => 5
    case ContributionUnclear => 6
  }

  /** The issues appear in the order of the checks that raise them. */
  predicate InCheckOrder(issues: seq<Issue>) {
    forall i, j :: 0 <= i < j < |issues| ==> CheckOrder(issues[i].kind) < CheckOrder(issues[j].kind)
  }

  /** Every issue comes from one of the checks `lo..hi`. */
  predicate ChecksBetween(issues: seq<Issue>, lo: nat, hi: nat) {
    forall x :: x in issues ==> lo <= CheckOrder(x.kind) <= hi
  }

  lemma OrderedAppend(a: seq<Issue>, b: seq<Issue>, lo: nat, mid: nat, hi: nat)
    requires lo <= mid < hi
    requires InCheckOrder(a) && InCheckOrder(b) && ChecksBetween(a, lo, mid) && ChecksBetween(b, mid + 1, hi)
    ensures InCheckOrder(a + b) && ChecksBetween(a + b, lo, hi)
  {
    forall x | x in a + b ensures lo <= CheckOrder(x.kind) <= hi {
      assert x in a || x in b;
    }
    forall i, j | 0 <= i < j < |a + b| ensures CheckOrder((a + b)[i].kind) < CheckOrder((a + b)[j].kind) {
      if j < |a| {
      } else if i >= |a| {
        assert (a + b)[i] == b[i - |a|] && (a + b)[j] == b[j - |a|];
      } else {
        assert (a + b)[i] in a && (a + b)[j] == b[j - |a|] && b[j - |a|] in b;
      }
    }
  }

  /** The four category lists, each in check order and from its own checks, concatenate in check order. */
  lemma OrderedCategories(d: seq<Issue>, s: seq<Issue>, c: seq<Issue>, m: seq<Issue>)
    requires InCheckOrder(d) && ChecksBetween(d, 0, 1) && InCheckOrder(s) && ChecksBetween(s, 2, 3)
    requires InCheckOrder(c) && ChecksBetween(c, 4, 4) && InCheckOrder(m) && ChecksBetween(m, 5, 6)
    ensures InCheckOrder(d + s + c + m)
  {
    OrderedAppend(d, s, 0, 1, 3);
    OrderedAppend(d + s, c, 0, 3, 4);
    OrderedAppend(d + s + c, m, 0, 4, 6);
  }

  /** The documentation checks of the issue list. */
  method DocumentationIssues(doc: DocScores) returns (issues: seq<Issue>)
    ensures |issues| <= 2 && forall x :: x in issues ==> IssueCategory(x.kind) == Documentation
    ensures forall x :: x in issues ==> x in RaisableIssues
    ensures InCheckOrder(issues) && ChecksBetween(issues, 0, 1)
    ensures Issue(ReadmeIncomplete, Warning) in issues <==> doc.readmeCompleteness < 12.0
    ensures Issue(DocsMissing, Info) in issues <==> doc.additionalDocs < 5.0
  {
    issues := [];
    if doc.readmeCompleteness < 12.0 { issues := issues + [Issue(ReadmeIncomplete, Warning)]; }
    if doc.additionalDocs < 5.0 { issues := issues + [Issue(DocsMissing, Info)]; }
  }

  /** The security checks: the policy issue is critical below 3 points and a warning from 3 to 8. */
  method SecurityIssues(sec: SecScores) returns (issues: seq<Issue>)
    ensures |issues| <= 2 && forall x :: x in issues ==> IssueCategory(x.kind) == Security
    ensures forall x :: x in issues ==> x in RaisableIssues
    ensures InCheckOrder(issues) && ChecksBetween(issues, 2, 3)
    ensures Issue(PolicyIncomplete, Critical) in issues <==> sec.securityPolicy < 3.0
    ensures Issue(PolicyIncomplete, Warning) in issues <==> 3.0 <= sec.securityPolicy < 8.0
    ensures Issue(DependenciesUnmanaged, Warning) in issues <==> sec.dependencyManagement < 8.0
  {
    issues := [];
    if sec.securityPolicy < 8.0 {
      issues := issues + [Issue(PolicyIncomplete, if sec.securityPolicy < 3.0 then Critical else Warning)];
    }
    if sec.dependencyManagement < 8.0 { issues := issues + [Issue(DependenciesUnmanaged, Warning)]; }
  }

  /** The CI/CD check. */
  method CiIssues(ci: CiScores) returns (issues: seq<Issue>)
    ensures |issues| <= 1 && forall x :: x in issues ==> IssueCategory(x.kind) == CiCd
    ensures forall x :: x in issues ==> x in RaisableIssues
    ensures InCheckOrder(issues) && ChecksBetween(issues, 4, 4)
    ensures Issue(TestingWeak, Warning) in issues <==> ci.automatedTesting < 10.0
  {
    issues := [];
    if ci.automatedTesting < 10.0 { issues := issues + [Issue(TestingWeak, Warning)]; }
  }

  /** The community checks. */
  method CommunityIssues(com: CommunityScores) returns (issues: seq<Issue>)
    ensures |issues| <= 2 && forall x :: x in issues ==> IssueCategory(x.kind) == Community
    ensures forall x :: x in issues ==> x in RaisableIssues
    ensures InCheckOrder(issues) && ChecksBetween(issues, 5, 6)
    ensures Issue(LicenseUnclear, Warning) in issues <==> com.license < 6.0
    ensures Issue(ContributionUnclear, Info) in issues <==> com.contributionProcess < 8.0
  {
    issues := [];
    if com.license < 6.0 { issues := issues + [Issue(LicenseUnclear, Warning)]; }
    if com.contributionProcess < 8.0 { issues := issues + [Issue(ContributionUnclear, Info)]; }
  }

  /** The issue list of `calculate_score`, appended in the order the checks run, category by category. */
  method BuildIssues(doc: DocScores, sec: SecScores, ci: CiScores, com: CommunityScores) returns (issues: seq<Issue>)
    ensures |issues| <= 7
    ensures InCheckOrder(issues)
    ensures forall x :: x in issues ==> x in RaisableIssues
    ensures Issue(ReadmeIncomplete, Warning) in issues <==> doc.readmeCompleteness < 12.0
    ensures Issue(DocsMissing, Info) in issues <==> doc.additionalDocs < 5.0
    ensures Issue(PolicyIncomplete, Critical) in issues <==> sec.securityPolicy < 3.0
    ensures Issue(PolicyIncomplete, Warning) in issues <==> 3.0 <= sec.securityPolicy < 8.0
    ensures Issue(DependenciesUnmanaged, Warning) in issues <==> sec.dependencyManagement < 8.0
    ensures Issue(TestingWeak, Warning) in issues <==> ci.automatedTesting < 10.0
    ensures Issue(LicenseUnclear, Warning) in issues <==> com.license < 6.0
    ensures Issue(ContributionUnclear, Info) in issues <==> com.contributionProcess < 8.0
  {
    var d := DocumentationIssues(doc);
    var s := SecurityIssues(sec);
    var c := CiIssues(ci);
    var m := CommunityIssues(com);
    issues := d + s + c + m;
    OrderedCategories(d, s, c, m);
  }

  /** A category's `issues`: the overall issues of that category, in the same order. */
  function CategoryIssues(issues: seq<Issue>, c: Category): (r: seq<Issue>)
    ensures |r| <= |issues|
    ensures forall x :: x in r <==> x in issues && IssueCategory(x.kind) == c
    decreases |issues|
  {
    if issues == [] then []
    else
      var init := CategoryIssues(issues[..|issues| - 1], c);
      var last := issues[|issues| - 1];
      assert issues == issues[..|issues| - 1] + [last];
      if IssueCategory(last.kind) == c then init + [last] else init
  }

  /** The four category lists split the overall list: every issue lands in exactly one of them. */
  lemma {:induction false} CategoryIssuesPartition(issues: seq<Issue>)
    ensures |CategoryIssues(issues, Documentation)| + |CategoryIssues(issues, Security)|
          + |CategoryIssues(issues, CiCd)| + |CategoryIssues(issues, Community)| == |issues|
    decreases |issues|
  {
    if issues != [] {
      CategoryIssuesPartition(issues[..|issues| - 1]);
    }
  }

  datatype Priority = High | Medium

  datatype Recommendation = Recommendation(priority: Priority, category: Category, action: string, impact: string, effort: string)

  /** The recommendation made for a category; only the community one is of medium priority. */
  function RecommendationFor(c: Category): (r: Recommendation)
    ensures r.category == c && (r.priority == Medium <==> c == Community)
  {
    match c
    case Documentation => Recommendation(High, Documentation, "Improve README completeness", "+5 pts", "low")
    case Security => Recommendation(High, Security, "Add security policy", "+5 pts", "low")
    case CiCd => Recommendation(High, CiCd, "Set up CI/CD pipeline", "+5 pts", "medium")
    case Community => Recommendation(Medium, Community, "Improve community standards", "+5 pts", "low")
  }

  /** The threshold below which a category's total draws a recommendation. */
  function RecommendationThreshold(c: Category): real {
    if c == Documentation then 20.0 else 18.0
  }

  /** The recommendations of `calculate_score`: one per category whose total is below its threshold. */
  method BuildRecommendations(docTotal: real, secTotal: real, ciTotal: real, comTotal: real)
    returns (recs: seq<Recommendation>)
    ensures |recs| <= 4
    ensures RecommendationFor(Documentation) in recs <==> docTotal < RecommendationThreshold(Documentation)
    ensures RecommendationFor(Security) in recs <==> secTotal < RecommendationThreshold(Security)
    ensures RecommendationFor(CiCd) in recs <==> ciTotal < RecommendationThreshold(CiCd)
    ensures RecommendationFor(Community) in recs <==> comTotal < RecommendationThreshold(Community)
    ensures forall r :: r in recs ==> r == RecommendationFor(r.category)
  {
    recs := [];
    if docTotal < 20.0 { recs := recs + [RecommendationFor(Documentation)]; }
    if secTotal < 18.0 { recs := recs + [RecommendationFor(Security)]; }
    if ciTotal < 18.0 { recs := recs + [RecommendationFor(CiCd)]; }
    if comTotal < 18.0 { recs := recs + [RecommendationFor(Community)]; }
  }

  // ---------------------------------------------------------------------------
  // The report
  // ---------------------------------------------------------------------------

  datatype CategoryReport = CategoryReport(category: Category, score: real, max: nat, issues: seq<Issue>)

  datatype Report = Report(
    score: real,
    grade: string,
    emoji: string,
    categories: seq<CategoryReport>,
    issues: seq<Issue>,
    recommendations: seq<Recommendation>)

  /** The four entries of the report's `categories`, each out of 25 and with the issues of its category. */
  function CategoryReports(docTotal: real, secTotal: real, ciTotal: real, comTotal: real, issues: seq<Issue>): (r: seq<CategoryReport>)
    ensures |r| == 4
    ensures forall cr :: cr in r ==> cr.max == 25 && cr.issues == CategoryIssues(issues, cr.category)
  {
    [CategoryReport(Documentation, docTotal, 25, CategoryIssues(issues, Documentation)),
     CategoryReport(Security, secTotal, 25, CategoryIssues(issues, Security)),
     CategoryReport(CiCd, ciTotal, 25, CategoryIssues(issues, CiCd)),
     CategoryReport(Community, comTotal, 25, CategoryIssues(issues, Community))]
  }

  /** The overall score of a repository under `ws`, from its four category totals. */
  function OverallOf(repo: Repo, ws: Weights): Option<real> {
    Overall(DocTotal(DocumentationOf(repo)), SecTotal(SecurityOf(repo)), CiTotal(CiOf(repo)), CommunityTotal(CommunityOf(repo)), ws)
  }

  /** Each of the eight issues is listed exactly when its check fails, and nothing else is listed. */
  predicate IssuesMatch(issues: seq<Issue>, doc: DocScores, sec: SecScores, ci: CiScores, com: CommunityScores) {
    (forall x :: x in issues ==> x in RaisableIssues) &&
    (Issue(ReadmeIncomplete, Warning) in issues <==> doc.readmeCompleteness < 12.0)
    && (Issue(DocsMissing, Info) in issues <==> doc.additionalDocs < 5.0)
    && (Issue(PolicyIncomplete, Critical) in issues <==> sec.securityPolicy < 3.0)
    && (Issue(PolicyIncomplete, Warning) in issues <==> 3.0 <= sec.securityPolicy < 8.0)
    && (Issue(DependenciesUnmanaged, Warning) in issues <==> sec.dependencyManagement < 8.0)
    && (Issue(TestingWeak, Warning) in issues <==> ci.automatedTesting < 10.0)
    && (Issue(LicenseUnclear, Warning) in issues <==> com.license < 6.0)
    && (Issue(ContributionUnclear, Info) in issues <==> com.contributionProcess < 8.0)
  }

  lemma HeadIsMember(a: seq<Issue>, b: seq<Issue>)
    requires |b| > 0 && forall x :: x in b ==> x in a
    ensures b[0] in a
  {
    assert b[0] in b;
  }

  /** In a list in check order, no later issue equals the first. */
  lemma TailAvoidsHead(a: seq<Issue>, x: Issue)
    requires InCheckOrder(a) && |a| > 0 && x in a[1..]
    ensures x != a[0]
  {
    var k :| 0 <= k < |a| - 1 && a[1..][k] == x;
    assert a[k + 1] == x;
  }

  lemma OtherIsInTail(a: seq<Issue>, x: Issue)
    requires |a| > 0 && x in a && x != a[0]
    ensures x in a[1..]
  {
    assert a == [a[0]] + a[1..];
  }

  /** The first issue of a list in check order comes from the earliest check. */
  lemma HeadComesFirst(a: seq<Issue>, x: Issue)
    requires InCheckOrder(a) && x in a
    ensures CheckOrder(a[0].kind) <= CheckOrder(x.kind)
  {
    var k :| 0 <= k < |a| && a[k] == x;
    assert k > 0 ==> CheckOrder(a[0].kind) < CheckOrder(a[k].kind);
  }

  /** A list in check order holds at most one issue of each kind. */
  lemma OneIssuePerKind(a: seq<Issue>, x: Issue, y: Issue)
    requires InCheckOrder(a) && x in a && y in a && x.kind == y.kind
    ensures x == y
  {
    var i :| 0 <= i < |a| && a[i] == x;
    var j :| 0 <= j < |a| && a[j] == y;
    assert i < j ==> CheckOrder(a[i].kind) < CheckOrder(a[j].kind);
    assert j < i ==> CheckOrder(a[j].kind) < CheckOrder(a[i].kind);
  }

  /** Two lists in check order that contain each other's first issue start with the same issue. */
  lemma SameHead(a: seq<Issue>, b: seq<Issue>)
    requires InCheckOrder(a) && InCheckOrder(b) && |a| > 0 && |b| > 0
    requires a[0] in b && b[0] in a
    ensures a[0] == b[0]
  {
    HeadComesFirst(a, b[0]);
    HeadComesFirst(b, a[0]);
    OneIssuePerKind(a, a[0], b[0]);
  }

  /** Two issue lists in check order with the same members are the same list. */
  lemma {:induction false} SameMembersInCheckOrder(a: seq<Issue>, b: seq<Issue>)
    requires InCheckOrder(a) && InCheckOrder(b)
    requires forall x :: x in a <==> x in b
    ensures a == b
    decreases |a|
  {
    if a == [] {
      if b != [] {
        HeadIsMember(a, b);
        assert false;
      }
    } else if b == [] {
      HeadIsMember(b, a);
      assert false;
    } else {
      HeadIsMember(a, b);
      HeadIsMember(b, a);
      SameHead(a, b);
      forall x ensures x in a[1..] <==> x in b[1..] {
        if x in a[1..] {
          TailAvoidsHead(a, x);
          OtherIsInTail(b, x);
        }
        if x in b[1..] {
          TailAvoidsHead(b, x);
          OtherIsInTail(a, x);
        }
      }
      SameMembersInCheckOrder(a[1..], b[1..]);
      assert a == [a[0]] + a[1..] && b == [b[0]] + b[1..];
    }
  }

  /**
   * The issue list is determined by the scores: any two lists in check order
   * that each list exactly the failing checks are equal, so the report's list
   * is the one `calculate_score` appends.
   */
  lemma IssuesDetermined(a: seq<Issue>, b: seq<Issue>, doc: DocScores, sec: SecScores, ci: CiScores, com: CommunityScores)
    requires IssuesMatch(a, doc, sec, ci, com) && InCheckOrder(a)
    requires IssuesMatch(b, doc, sec, ci, com) && InCheckOrder(b)
    ensures a == b
  {
    forall x ensures x in a <==> x in b {
      if x in a || x in b {
        assert x in RaisableIssues;
      }
    }
    SameMembersInCheckOrder(a, b);
  }

  /** A category's recommendation is listed exactly when its total is below its threshold. */
  predicate RecommendationsMatch(recs: seq<Recommendation>, docTotal: real, secTotal: real, ciTotal: real, comTotal: real) {
    (RecommendationFor(Documentation) in recs <==> docTotal < RecommendationThreshold(Documentation))
    && (RecommendationFor(Security) in recs <==> secTotal < RecommendationThreshold(Security))
    && (RecommendationFor(CiCd) in recs <==> ciTotal < RecommendationThreshold(CiCd))
    && (RecommendationFor(Community) in recs <==> comTotal < RecommendationThreshold(Community))
    && forall r :: r in recs ==> r == RecommendationFor(r.category)
  }

  /**
   * The category scorers raise: `score_documentation` opens a `README.md` that is a
   * directory, or the CI scorer's first reading of `package.json` raises (the later
   * readings of the same file are reached only when that one succeeds).
   */
  predicate ScoringRaises(repo: Repo) {
    IsDir(repo, "README.md") || (IsFile(repo, "package.json") && repo.packageRaises)
  }

  /**
   * `calculate_score` (without rounding, the timestamp and the git information);
   * None where it raises. The score is the weighted total of the four
   * categories under the given weights, or the default ones.
   */
  method CalculateScore(repo: Repo, weights: Option<Weights>) returns (r: Option<Report>)
    ensures r.None? <==> ScoringRaises(repo) || OverallOf(repo, weights.GetOr(DefaultWeights)).None?
    ensures weights.None? ==> (r.None? <==> ScoringRaises(repo))
    ensures r.Some? ==> r.value.score == OverallOf(repo, weights.GetOr(DefaultWeights)).value
    ensures r.Some? ==> r.value.grade == GradeOf(r.value.score).name && r.value.emoji == GradeOf(r.value.score).emoji
    ensures r.Some? ==> r.value.categories == CategoryReports(DocTotal(DocumentationOf(repo)), SecTotal(SecurityOf(repo)),
      CiTotal(CiOf(repo)), CommunityTotal(CommunityOf(repo)), r.value.issues)
    ensures r.Some? ==> IssuesMatch(r.value.issues, DocumentationOf(repo), SecurityOf(repo), CiOf(repo), CommunityOf(repo))
    ensures r.Some? ==> InCheckOrder(r.value.issues) && |r.value.issues| <= 7
    ensures r.Some? ==> RecommendationsMatch(r.value.recommendations, DocTotal(DocumentationOf(repo)), SecTotal(SecurityOf(repo)),
      CiTotal(CiOf(repo)), CommunityTotal(CommunityOf(repo)))
    ensures r.Some? ==> Issue(DependenciesUnmanaged, Warning) in r.value.issues
  {
    var ws := if weights.None? then DefaultWeights else weights.value;
    var doc := ScoreDocumentation(repo);
    if IsDir(repo, "README.md") {
      return None;
    }
    var sec := ScoreSecurity(repo);
    var ci := ScoreCicd(repo);
    if IsFile(repo, "package.json") && repo.packageRaises {
      return None;
    }
    var com := ScoreCommunity(repo);
    var docTotal, secTotal, ciTotal, comTotal := DocTotal(doc), SecTotal(sec), CiTotal(ci), CommunityTotal(com);
    DefaultOverallIsSum(docTotal, secTotal, ciTotal, comTotal);
    var overall := Overall(docTotal, secTotal, ciTotal, comTotal, ws);
    if overall.None? {
      return None;
    }
    var grade, emoji := GradeFor(overall.value);
    SecurityBounds(repo);
    var issues := BuildIssues(doc, sec, ci, com);
    var recs := BuildRecommendations(docTotal, secTotal, ciTotal, comTotal);
    var categories := CategoryReports(docTotal, secTotal, ciTotal, comTotal, issues);
    r := Some(Report(overall.value, grade, emoji, categories, issues, recs));
  }
}
