/**
 * The documentation sync script: it reads each plugin's manifest, README and
 * component files, builds the plugin table spliced into the top-level README
 * between two HTML-comment markers, rewrites the `plugins-N` badge count, and
 * regenerates the plugin inventory page.
 *
 * The file system is an input: each plugin directory is a `PluginDir` value,
 * and the README and inventory are passed in as their current text (or None
 * when the file does not exist). The optional AI description step calls the
 * network and is not part of this model.
 */
module SyncDocs {
  import opened Optional
  import opened Text

  // ===========================================================================
  // first_paragraph
  // ===========================================================================

  /** The characters Python's `str.splitlines` breaks at. */
  predicate IsLineBreak(c: char) {
    c == '\n' || c == '\r' || c == '\U{0B}' || c == '\U{0C}' || ('\U{1C}' <= c <= '\U{1E}')
    || c == '\U{85}' || c == '\U{2028}' || c == '\U{2029}'
  }

  /** The index of the first line break in `s`, if any. */
  function FirstBreak(s: string): (r: Option<nat>)
    ensures r.Some? ==> r.value < |s| && IsLineBreak(s[r.value])
    ensures r.Some? ==> forall i :: 0 <= i < r.value ==> !IsLineBreak(s[i])
    ensures r.None? ==> forall i :: 0 <= i < |s| ==> !IsLineBreak(s[i])
  {
    if s == [] then None
    else if IsLineBreak(s[0]) then Some(0)
    else match FirstBreak(s[1..])
      case None => None
      case Some(i) => Some(i + 1)
  }

  /** `str.splitlines()`: `\r\n` counts as one break, and a final break opens no empty line. */
  function SplitLines(s: string): (r: seq<string>)
    ensures forall k, i :: 0 <= k < |r| && 0 <= i < |r[k]| ==> !IsLineBreak(r[k][i])
    ensures s == [] <==> r == []
    decreases |s|
  {
    if s == [] then []
    else match FirstBreak(s)
      case None => [s]
      case Some(i) =>
        var next := if s[i] == '\r' && i + 1 < |s| && s[i + 1] == '\n' then i + 2 else i + 1;
        [s[..i]] + SplitLines(s[next..])
  }

  /** Python `s[:n]`. */
  function Prefix(s: string, n: nat): (r: string)
    ensures |r| <= n && |r| <= |s| && r == s[..|r|]
    ensures |s| <= n ==> r == s
    ensures |s| > n ==> |r| == n
  {
    if |s| <= n then s else s[..n]
  }

  /** A stripped line that `first_paragraph` accepts. */
  predicate Qualifies(line: string) {
    line != "" && !StartsWith(line, "#") && !StartsWith(line, "---") && !StartsWith(line, "!") && |line| > 20
  }

  predicate StrippedQualifies(line: string) {
    Qualifies(PyStrip(line))
  }

  /** The index of the first line, at or after `from`, whose stripped text is accepted. */
  function QualifyingFrom(lines: seq<string>, from: nat): (r: Option<nat>)
    requires from <= |lines|
    ensures r.Some? ==> from <= r.value < |lines| && Qualifies(PyStrip(lines[r.value]))
    ensures r.Some? ==> forall j :: from <= j < r.value ==> !Qualifies(PyStrip(lines[j]))
    ensures r.None? ==> forall j :: from <= j < |lines| ==> !Qualifies(PyStrip(lines[j]))
  {
    FirstWhere(lines, StrippedQualifies, from)
  }

  /** What `first_paragraph` returns: the first accepted stripped line cut to 200 characters, else "". */
  function FirstParagraphOf(text: string): string {
    var lines := SplitLines(text);
    match QualifyingFrom(lines, 0)
    case None => ""
    case Some(k) => Prefix(PyStrip(lines[k]), 200)
  }

  /** `first_paragraph`: the loop over the lines returns at the first accepted one. */
  method FirstParagraph(text: string) returns (para: string)
    ensures para == FirstParagraphOf(text)
  {
    var lines := SplitLines(text);
    for i := 0 to |lines|
      invariant QualifyingFrom(lines, i) == QualifyingFrom(lines, 0)
    {
      var line := PyStrip(lines[i]);
      if line != "" && !StartsWith(line, "#") && !StartsWith(line, "---") && !StartsWith(line, "!") && |line| > 20 {
        return Prefix(line, 200);
      }
    }
    return "";
  }

  /**
   * The paragraph is empty exactly when no line is accepted; one that is found
   * is at most 200 characters and never starts a heading, an image or blank.
   */
  lemma {:induction false} FirstParagraphIsProse(text: string)
    ensures var r := FirstParagraphOf(text);
      |r| <= 200
      && (r == "" <==> forall k :: 0 <= k < |SplitLines(text)| ==> !Qualifies(PyStrip(SplitLines(text)[k])))
      && (r != "" ==> r[0] != '#' && r[0] != '!' && !PySpace(r[0]))
  {
    var lines := SplitLines(text);
    match QualifyingFrom(lines, 0)
    case None =>
    case Some(k) =>
      var line := PyStrip(lines[k]);
      var r := Prefix(line, 200);
      assert |r| == 200 || r == line;
      assert r[0] == line[0];
      assert line[..1] == [line[0]];
  }


  // ===========================================================================
  // Frontmatter names (scan_component, scan_skills)
  // ===========================================================================

  /** The length of the maximal run of `\s` characters at the start of `s`. */
  function SpaceRun(s: string): (r: nat)
    ensures r <= |s| && (r == |s| || !PySpace(s[r]))
    ensures forall i :: 0 <= i < r ==> PySpace(s[i])
    decreases |s|
  {
    if s == [] || !PySpace(s[0]) then 0 else 1 + SpaceRun(s[1..])
  }

  /** The text of `s` up to its first `\n`: what a greedy `.+` takes. */
  function LineRest(s: string): (r: string)
    ensures |r| <= |s| && r == s[..|r|] && '\n' !in r
    ensures |r| == |s| || s[|r|] == '\n'
  {
    match IndexOfChar(s, '\n')
    case None => s
    case Some(i) => s[..i]
  }

  /** The last index of `s` holding something other than `\n`. */
  function LastNonNewline(s: string): (r: Option<nat>)
    ensures r.Some? ==> r.value < |s| && s[r.value] != '\n' && forall i :: r.value < i < |s| ==> s[i] == '\n'
    ensures r.None? ==> forall i :: 0 <= i < |s| ==> s[i] == '\n'
    decreases |s|
  {
    if s == [] then None
    else if s[|s| - 1] != '\n' then Some(|s| - 1)
    else LastNonNewline(s[..|s| - 1])
  }

  /**
   * `\s*(.+)` at the start of `rest` (the text after `name:`). The greedy `\s*`
   * may cross line ends; if it swallows everything, it backs off to the last
   * character that is not a `\n`, which `.+` then takes alone.
   */
  function NameGroup(rest: string): (r: Option<string>)
    ensures r.Some? ==> |r.value| > 0 && '\n' !in r.value
  {
    var k := SpaceRun(rest);
    if k < |rest| then Some(LineRest(rest[k..]))
    else match LastNonNewline(rest)
      case None => None
      case Some(i) => Some(rest[i..i + 1])
  }

  /** `^---\s*\nname:\s*(.+)` matching at index `i` (a line start). */
  function FrontmatterAt(text: string, i: nat): (r: Option<string>)
    requires i <= |text|
  {
    if !StartsWith(text[i..], "---") then None
    else
      var w := SpaceRun(text[i + 3..]);
      var j := i + 3 + w;
      if w == 0 || text[j - 1] != '\n' || !StartsWith(text[j..], "name:") then None
      else NameGroup(text[j + 5..])
  }

  /** `^` in multi-line mode: the start of the text or just after a `\n`. */
  predicate LineStart(text: string, i: nat) {
    i == 0 || (0 < i <= |text| && text[i - 1] == '\n')
  }

  /** `re.search(..., re.MULTILINE)`: the group of the first line start, at or after `from`, that matches. */
  function SearchFrontmatter(text: string, from: nat): Option<string>
    requires from <= |text|
  {
    FirstSome(|text|, FrontmatterMatcher(text), from)
  }

  /** The pattern tried at each position of `text`: only line starts can match. */
  function FrontmatterMatcher(text: string): nat -> Option<string> {
    (i: nat) => if i <= |text| && LineStart(text, i) then FrontmatterAt(text, i) else None
  }

  /** The search fails when no line start at or after `from` matches. */
  lemma {:induction false} SearchFrontmatterNone(text: string, from: nat)
    requires from <= |text|
    requires forall i :: from <= i <= |text| && LineStart(text, i) ==> FrontmatterAt(text, i).None?
    ensures SearchFrontmatter(text, from).None?
  {
    var f := FrontmatterMatcher(text);
    assert forall i :: from <= i <= |text| ==> f(i).None?;
    FirstSomeNone(|text|, f, from);
  }

  /** A component's name: the stripped frontmatter `name:` value, else the file stem (or directory name). */
  function ComponentName(text: string, fallback: string): string {
    match SearchFrontmatter(text, 0)
    case Some(g) => PyStrip(g)
    case None => fallback
  }

  /** A text opening with `---`, a line end and `name:` matches at its start on whatever follows. */
  lemma {:induction false} FrontmatterAtStart(after: string)
    ensures FrontmatterAt("---\nname:" + after, 0) == NameGroup(after)
  {
    var text := "---\nname:" + after;
    assert text[0..] == text;
    assert text[..3] == "---";
    var t3 := text[3..];
    assert t3[0] == '\n' && t3[1] == 'n';
    assert SpaceRun(t3[1..]) == 0;
    assert SpaceRun(t3) == 1;
    assert text[4..][..5] == "name:";
    assert text[9..] == after;
  }

  /** One whitespace character, then a value up to the end of its line, yields that value. */
  lemma {:induction false} NameGroupAfterSpace(c: char, value: string, tail: string)
    requires PySpace(c) && value != "" && !PySpace(value[0]) && '\n' !in value
    requires tail == [] || tail[0] == '\n'
    ensures NameGroup([c] + value + tail) == Some(value)
  {
    var rest := [c] + value + tail;
    assert rest[1..] == value + tail;
    assert SpaceRun(rest[1..]) == 0;
    assert SpaceRun(rest) == 1;
    var v := value + tail;
    if tail == [] {
      assert v == value;
      assert IndexOfChar(v, '\n').None?;
    } else {
      assert v[|value|] == '\n';
      assert v[..|value|] == value;
      assert IndexOfChar(v, '\n') == Some(|value|);
    }
  }

  /** A name found at the start of the text is the component's name, stripped. */
  lemma {:induction false} ComponentNameAtStart(text: string, g: string, fallback: string)
    requires FrontmatterAt(text, 0) == Some(g)
    ensures ComponentName(text, fallback) == PyStrip(g)
  {
    assert LineStart(text, 0);
  }

  /** A file opening with `---` then `name: value` is named by the stripped value. */
  lemma {:induction false} FrontmatterNameUsed(value: string, rest: string, fallback: string)
    requires value != "" && !PySpace(value[0]) && '\n' !in value
    ensures ComponentName("---\nname: " + value + "\n" + rest, fallback) == PyStrip(value)
  {
    var after := [' '] + value + ("\n" + rest);
    assert "---\nname: " + value + "\n" + rest == "---\nname:" + after;
    FrontmatterAtStart(after);
    NameGroupAfterSpace(' ', value, "\n" + rest);
    ComponentNameAtStart("---\nname:" + after, value, fallback);
  }

  /** A file with no `---` anywhere is named by its stem. */
  lemma {:induction false} NoFrontmatterUsesFallback(text: string, fallback: string)
    requires !Contains(text, "---")
    ensures ComponentName(text, fallback) == fallback
  {
    ContainsIff(text, "---");
    forall i | 0 <= i <= |text| ensures FrontmatterAt(text, i).None? {
      NoDashesNoMatch(text, i);
    }
    SearchFrontmatterNone(text, 0);
  }

  lemma {:induction false} NoDashesNoMatch(text: string, i: nat)
    requires i <= |text| && !OccursAt(text, "---", i)
    ensures FrontmatterAt(text, i).None?
  {
    if i + 3 <= |text| {
      assert text[i..][..3] == text[i..i + 3];
    }
  }

  /** An empty `name:` takes the next line as the name, because `\s*` crosses the line end. */
  lemma {:induction false} EmptyNameTakesNextLine(next: string, fallback: string)
    requires next != "" && !PySpace(next[0]) && '\n' !in next
    ensures ComponentName("---\nname:\n" + next, fallback) == PyStrip(next)
  {
    var after := ['\n'] + next + [];
    assert "---\nname:\n" + next == "---\nname:" + after;
    FrontmatterAtStart(after);
    NameGroupAfterSpace('\n', next, []);
    ComponentNameAtStart("---\nname:" + after, next, fallback);
  }

  // ===========================================================================
  // collect_plugin_data
  // ===========================================================================

  /** The fields of `.claude-plugin/plugin.json` that are read (all None when it cannot be read). */
  datatype Manifest = Manifest(description: Option<string>, version: Option<string>)

  /** One `plugins` entry of `marketplace.json`. */
  datatype Entry = Entry(name: string, description: Option<string>, version: Option<string>, category: Option<string>)

  /** What a plugin directory holds: the component files in sorted order, as (stem, text). */
  datatype PluginDir = PluginDir(
    manifest: Manifest,
    readme: Option<string>,
    commandFiles: seq<(string, string)>,
    agentFiles: seq<(string, string)>,
    skillDirs: seq<(string, Option<string>)>,   // (directory name, SKILL.md text if the file exists)
    hasHooks: bool)

  datatype Plugin = Plugin(
    name: string, version: string, description: string, category: string,
    commands: seq<string>, agents: seq<string>, skills: seq<string>, hooks: bool)

  /** `scan_component`: one name per file, in order. */
  function ScanComponent(files: seq<(string, string)>): (r: seq<string>)
    ensures |r| == |files|
    ensures forall i :: 0 <= i < |files| ==> r[i] == ComponentName(files[i].1, files[i].0)
  {
    seq(|files|, i requires 0 <= i < |files| => ComponentName(files[i].1, files[i].0))
  }

  /**
   * `scan_skills` over the sorted skill directories, each with the text of its
   * `SKILL.md` if there is one: directories without it are skipped.
   */
  function ScanSkills(dirs: seq<(string, Option<string>)>): (r: seq<string>)
    ensures |r| <= |dirs|
    ensures forall i :: 0 <= i < |dirs| && dirs[i].1.Some? ==> ComponentName(dirs[i].1.value, dirs[i].0) in r
    ensures forall x :: x in r ==> exists i :: 0 <= i < |dirs| && dirs[i].1.Some? && x == ComponentName(dirs[i].1.value, dirs[i].0)
    ensures (forall i :: 0 <= i < |dirs| ==> dirs[i].1.Some?) ==>
      |r| == |dirs| && forall i :: 0 <= i < |dirs| ==> r[i] == ComponentName(dirs[i].1.value, dirs[i].0)
  {
    if dirs == [] then []
    else
      var tail := ScanSkills(dirs[1..]);
      match dirs[0].1
      case None => tail
      case Some(text) => [ComponentName(text, dirs[0].0)] + tail
  }

  /** Python truthiness of an optional string field. */
  predicate Truthy(o: Option<string>) {
    o.Some? && o.value != ""
  }

  /** The first truthy of the manifest, the marketplace entry and the README's first paragraph, else "—". */
  function Description(m: Manifest, e: Entry, readme: Option<string>): (r: string)
    ensures r != ""
    ensures Truthy(m.description) ==> r == m.description.value
    ensures !Truthy(m.description) && Truthy(e.description) ==> r == e.description.value
    ensures !Truthy(m.description) && !Truthy(e.description) ==>
      r == (if readme.Some? && FirstParagraphOf(readme.value) != "" then FirstParagraphOf(readme.value) else "—")
  {
    if Truthy(m.description) then m.description.value
    else if Truthy(e.description) then e.description.value
    else
      var para := if readme.Some? then FirstParagraphOf(readme.value) else "";
      if para != "" then para else "—"
  }

  /** `manifest.get("version", entry.get("version", "—"))`: a present manifest value wins even when empty. */
  function Version(m: Manifest, e: Entry): string {
    m.version.GetOr(e.version.GetOr("—"))
  }

  function PluginOf(e: Entry, d: PluginDir): Plugin {
    Plugin(e.name, Version(d.manifest, e), Description(d.manifest, e, d.readme), e.category.GetOr("—"),
      ScanComponent(d.commandFiles), ScanComponent(d.agentFiles), ScanSkills(d.skillDirs), d.hasHooks)
  }

  /** The plugins of the entries whose directory exists, in marketplace order. */
  function Collected(entries: seq<Entry>, dirs: map<string, PluginDir>): (r: seq<Plugin>)
    ensures |r| <= |entries|
    decreases |entries|
  {
    if entries == [] then []
    else
      var init := Collected(entries[..|entries| - 1], dirs);
      var e := entries[|entries| - 1];
      if e.name in dirs then init + [PluginOf(e, dirs[e.name])] else init
  }

  /** `collect_plugin_data`: entries whose directory is missing are skipped with a warning. */
  method CollectPluginData(entries: seq<Entry>, dirs: map<string, PluginDir>) returns (plugins: seq<Plugin>)
    ensures plugins == Collected(entries, dirs)
  {
    plugins := [];
    for i := 0 to |entries|
      invariant plugins == Collected(entries[..i], dirs)
    {
      assert entries[..i + 1][..i] == entries[..i];
      var e := entries[i];
      if e.name in dirs {
        var d := dirs[e.name];
        plugins := plugins + [PluginOf(e, d)];
      }
    }
    assert entries[..|entries|] == entries;
  }

  /** Every collected plugin has a non-empty description and belongs to an entry with an existing directory. */
  lemma {:induction false} CollectedWellFormed(entries: seq<Entry>, dirs: map<string, PluginDir>)
    ensures forall k :: 0 <= k < |Collected(entries, dirs)| ==>
      Collected(entries, dirs)[k].description != "" && Collected(entries, dirs)[k].name in dirs
    decreases |entries|
  {
    if entries != [] {
      CollectedWellFormed(entries[..|entries| - 1], dirs);
    }
  }

  // ===========================================================================
  // make_readme_table
  // ===========================================================================

  /** A description over 80 characters becomes its first 77 and `...`. */
  function Truncate(d: string): (r: string)
    ensures |r| <= 80
    ensures |d| <= 80 ==> r == d
    ensures |d| > 80 ==> r == d[..77] + "..."
  {
    if |d| > 80 then d[..77] + "..." else d
  }

  /** The non-empty component counts, in the order commands, skills, agents, hooks. */
  function ComponentParts(p: Plugin): seq<string> {
    (if p.commands != [] then [NatToString(|p.commands|) + " cmd"] else [])
    + (if p.skills != [] then [NatToString(|p.skills|) + " skill"] else [])
    + (if p.agents != [] then [NatToString(|p.agents|) + " agent"] else [])
    + (if p.hooks then ["hooks"] else [])
  }

  /** `", ".join(comps) or "—"`. */
  function ComponentsCell(p: Plugin): string {
    var s := Join(ComponentParts(p), ", ");
    if s == "" then "—" else s
  }

  function Row(p: Plugin): string {
    "| `" + p.name + "` | " + p.version + " | " + Truncate(p.description) + " | " + p.category + " | " + ComponentsCell(p) + " |"
  }

  const TableHeader: seq<string> := [
    "| Plugin | Version | Description | Category | Components |",
    "|--------|---------|-------------|----------|------------|"]

  function Rows(ps: seq<Plugin>): (r: seq<string>)
    ensures |r| == |ps| && forall i :: 0 <= i < |ps| ==> r[i] == Row(ps[i])
  {
    MapSeq(ps, Row)
  }

  /** The table's lines: two header lines, then one row per plugin. */
  function TableLines(ps: seq<Plugin>): (r: seq<string>)
    ensures |r| == 2 + |ps|
  {
    TableHeader + Rows(ps)
  }

  /** `make_readme_table`. */
  method MakeReadmeTable(plugins: seq<Plugin>) returns (table: string)
    ensures table == Join(TableLines(plugins), "\n")
  {
    var lines := TableHeader;
    for i := 0 to |plugins|
      invariant lines == TableHeader + Rows(plugins[..i])
    {
      var row := FormatRow(plugins[i]);
      lines := lines + [row];
      RowsSnoc(plugins, i);
    }
    assert plugins[..|plugins|] == plugins;
    table := Join(lines, "\n");
  }

  /** The body of the loop of `make_readme_table`: one plugin's row. */
  method FormatRow(p: Plugin) returns (row: string)
    ensures row == Row(p)
  {
    var comps: seq<string> := [];
    if p.commands != [] { comps := comps + [NatToString(|p.commands|) + " cmd"]; }
    if p.skills != [] { comps := comps + [NatToString(|p.skills|) + " skill"]; }
    if p.agents != [] { comps := comps + [NatToString(|p.agents|) + " agent"]; }
    if p.hooks { comps := comps + ["hooks"]; }
    var compStr := Join(comps, ", ");
    if compStr == "" {
      compStr := "—";
    }
    var desc := p.description;
    if |desc| > 80 {
      desc := desc[..77] + "...";
    }
    assert compStr == ComponentsCell(p) by {
      assert comps == ComponentParts(p);
    }
    row := "| `" + p.name + "` | " + p.version + " | " + desc + " | " + p.category + " | " + compStr + " |";
  }

  lemma RowsSnoc(ps: seq<Plugin>, i: nat)
    requires i < |ps|
    ensures Rows(ps[..i + 1]) == Rows(ps[..i]) + [Row(ps[i])]
  {
    MapSnoc(ps, Row, i);
  }

  /** Joining non-empty parts gives a non-empty text. */
  lemma {:induction false} JoinNonEmpty(parts: seq<string>, sep: string)
    requires |parts| > 0 && parts[0] != ""
    ensures Join(parts, sep) != ""
  {
    if |parts| > 1 {
      assert Join(parts, sep) == parts[0] + sep + Join(parts[1..], sep);
    }
  }

  /** The components cell is "—" exactly when the plugin has no commands, skills, agents or hooks. */
  lemma {:induction false} ComponentsCellDash(p: Plugin)
    ensures ComponentsCell(p) == "—" <==> p.commands == [] && p.skills == [] && p.agents == [] && !p.hooks
  {
    var parts := ComponentParts(p);
    if parts != [] {
      assert parts[0] == NatToString(|p.commands|) + " cmd" || parts[0] == NatToString(|p.skills|) + " skill"
        || parts[0] == NatToString(|p.agents|) + " agent" || parts[0] == "hooks";
      assert |parts[0]| > 1;
      JoinNonEmpty(parts, ", ");
      if |parts| > 1 {
        assert Join(parts, ", ") == parts[0] + ", " + Join(parts[1..], ", ");
      }
      assert |Join(parts, ", ")| > 1;
    }
  }

  // ===========================================================================
  // update_readme: the marker splice
  // ===========================================================================

  const StartMarker := "<!-- PLUGINS-TABLE-START -->"
  const EndMarker := "<!-- PLUGINS-TABLE-END -->"

  function Block(table: string): string {
    StartMarker + "\n" + table + "\n" + EndMarker
  }

  /** A marker whose last character occurs nowhere earlier in it: no two occurrences can overlap it from the left. */
  predicate LastCharUnique(m: string) {
    |m| > 0 && forall i :: 0 <= i < |m| - 1 ==> m[i] != m[|m| - 1]
  }

  /**
   * `re.sub(START.*?END, rep, text, flags=re.DOTALL)` with `rep` inserted
   * literally: each start marker, left to right, up to the nearest end marker
   * after it, is replaced by `rep`.
   */
  function SubRegions(text: string, start: string, end: string, rep: string): string
    requires |start| > 0
    decreases |text|
  {
    match Region(text, start, end)
    case None => text
    case Some((i, k)) => text[..i] + rep + SubRegions(text[k..], start, end, rep)
  }

  /** The first region: where the first start marker begins and where the nearest end marker after it ends. */
  function Region(text: string, start: string, end: string): (r: Option<(nat, nat)>)
    ensures r.Some? ==> r.value.0 + |start| <= r.value.1 <= |text|
  {
    match FindFrom(text, start, 0)
    case None => None
    case Some(i) =>
      match FindFrom(text, end, i + |start|)
      case None => None
      case Some(j) => Some((i, j + |end|))
  }

  lemma {:induction false} RegionFound(text: string, start: string, end: string, i: nat, j: nat)
    requires FindFrom(text, start, 0) == Some(i) && FindFrom(text, end, i + |start|) == Some(j)
    ensures Region(text, start, end).Some?
    ensures Region(text, start, end).value.0 == i && Region(text, start, end).value.1 == j + |end|
  {
  }

  lemma {:induction false} RegionNoEnd(text: string, start: string, end: string, i: nat)
    requires FindFrom(text, start, 0) == Some(i) && FindFrom(text, end, i + |start|).None?
    ensures Region(text, start, end).None?
  {
  }

  /** The headings a missing table is inserted before, in order of preference. */
  const Headings: seq<string> := ["## Available Plugins", "## Plugins", "## Plugin List"]

  /** The insertion `for ... else`: before the first heading present, else appended. */
  function InsertBlock(text: string, block: string): string {
    if Contains(text, Headings[0]) then ReplaceFirst(text, Headings[0], block + "\n\n" + Headings[0])
    else if Contains(text, Headings[1]) then ReplaceFirst(text, Headings[1], block + "\n\n" + Headings[1])
    else if Contains(text, Headings[2]) then ReplaceFirst(text, Headings[2], block + "\n\n" + Headings[2])
    else text + "\n\n" + block + "\n"
  }

  /** The README with the table spliced in, before the badge count is rewritten. */
  function Spliced(text: string, table: string): string {
    if Contains(text, StartMarker) then SubRegions(text, StartMarker, EndMarker, Block(table))
    else InsertBlock(text, Block(table))
  }

  /** `re.sub(r"plugins-\d+", f"plugins-{count}", s)`. */
  function RewriteCount(s: string, count: nat): string
    decreases |s|
  {
    if s == [] then []
    else if StartsWith(s, "plugins-") && |s| > 8 && IsDigitAscii(s[8]) then
      "plugins-" + NatToString(count) + RewriteCount(s[8 + DigitRun(s[8..])..], count)
    else [s[0]] + RewriteCount(s[1..], count)
  }

  /** Text without any `plugins-` is left alone by the count rewrite. */
  lemma {:induction false} RewriteCountNoBadge(s: string, count: nat)
    requires !Contains(s, "plugins-")
    ensures RewriteCount(s, count) == s
    decreases |s|
  {
    if s != [] {
      ContainsIff(s, "plugins-");
      assert !OccursAt(s, "plugins-", 0);
      ContainsIff(s[1..], "plugins-");
      forall i | OccursAt(s[1..], "plugins-", i) ensures OccursAt(s, "plugins-", i + 1) {
        assert s[1..][i..i + 8] == s[i + 1..i + 1 + 8];
      }
      RewriteCountNoBadge(s[1..], count);
      assert s == [s[0]] + s[1..];
    }
  }

  /** A badge `plugins-<digits>` is rewritten to the count, and scanning resumes after its digits. */
  lemma {:induction false} RewriteCountBadge(digits: string, rest: string, count: nat)
    requires digits != [] && AllDigits(digits) && (rest == [] || !IsDigitAscii(rest[0]))
    ensures RewriteCount("plugins-" + digits + rest, count) == "plugins-" + NatToString(count) + RewriteCount(rest, count)
  {
    var s := "plugins-" + digits + rest;
    assert s[..8] == "plugins-";
    assert s[8..] == digits + rest;
    assert s[8] == digits[0];
    assert DigitRun(digits + rest) == |digits| by {
      DigitRunOf(digits, rest);
    }
    assert s[8 + |digits|..] == rest;
  }

  /** The README text that `update_readme` computes, before deciding whether to write it. */
  function NewReadme(text: string, table: string, count: nat): string {
    RewriteCount(Spliced(text, table), count)
  }

  /**
   * `update_readme`: the new text is built in stages; it is written (returned
   * as `Some`) only when the README exists and the text changed.
   */
  method UpdateReadme(readme: Option<string>, plugins: seq<Plugin>) returns (written: Option<string>)
    ensures readme.None? ==> written.None?
    ensures readme.Some? ==> var t := NewReadme(readme.value, Join(TableLines(plugins), "\n"), |plugins|);
      written == if t != readme.value then Some(t) else None
  {
    if readme.None? {
      return None;
    }
    var table := MakeReadmeTable(plugins);
    var block := StartMarker + "\n" + table + "\n" + EndMarker;
    var text := readme.value;
    var newText := text;
    if Contains(text, StartMarker) {
      newText := SubRegions(text, StartMarker, EndMarker, block);
    } else {
      var found := false;
      var k := 0;
      while k < |Headings| && !found
        invariant 0 <= k <= |Headings|
        invariant found ==> 0 < k && Contains(text, Headings[k - 1]) && forall h :: 0 <= h < k - 1 ==> !Contains(text, Headings[h])
        invariant found ==> newText == ReplaceFirst(text, Headings[k - 1], block + "\n\n" + Headings[k - 1])
        invariant !found ==> forall h :: 0 <= h < k ==> !Contains(text, Headings[h])
      {
        if Contains(text, Headings[k]) {
          newText := ReplaceFirst(text, Headings[k], block + "\n\n" + Headings[k]);
          found := true;
        }
        k := k + 1;
      }
      if !found {
        newText := text + "\n\n" + block + "\n";
      }
      assert newText == InsertBlock(text, block);
    }
    newText := RewriteCount(newText, |plugins|);
    if newText != text {
      written := Some(newText);
    } else {
      written := None;
    }
  }

  // ---------------------------------------------------------------------------
  // Splicing twice changes nothing
  // ---------------------------------------------------------------------------

  /** Within `a + mid + m + post`, no occurrence of `m` starts inside `mid` when `mid` holds none. */
  lemma {:induction false} NoOccurrenceInGap(a: string, mid: string, m: string, post: string, p: nat)
    requires LastCharUnique(m) && !Contains(mid, m) && |a| <= p < |a| + |mid|
    ensures !OccursAt(a + mid + m + post, m, p)
  {
    var s := a + mid + m + post;
    var q := p - |a|;
    if p + |m| <= |a| + |mid| {
      ContainsIff(mid, m);
      assert !OccursAt(mid, m, q);
      assert s[p..p + |m|] == mid[q..q + |m|];
    } else {
      var k := p + |m| - 1 - (|a| + |mid|);
      assert 0 <= k < |m| - 1;
      assert s[p + |m| - 1] == m[k];
      assert s[p..p + |m|][|m| - 1] == s[p + |m| - 1];
    }
  }

  /** Searching `s = a + mid + m + post` from the end of `a` finds the `m` right after `mid`. */
  lemma {:induction false} FirstOccurrenceFrom(s: string, a: string, mid: string, m: string, post: string, k: nat)
    requires s == a + mid + m + post && k == |a|
    requires LastCharUnique(m) && !Contains(mid, m)
    ensures FindFrom(s, m, k) == Some(k + |mid|)
  {
    assert s[|a| + |mid|..|a| + |mid| + |m|] == m;
    assert OccursAt(s, m, |a| + |mid|);
    forall p | |a| <= p < |a| + |mid| ensures !OccursAt(s, m, p) {
      NoOccurrenceInGap(a, mid, m, post, p);
    }
    FindFromAt(s, m, |a|, |a| + |mid|);
  }

  /** Substituting in a text whose first start marker opens a region with no end marker inside. */
  lemma {:induction false} SubRegionsOfBlock(pre: string, start: string, mid: string, end: string, rest: string, rep: string)
    requires LastCharUnique(start) && LastCharUnique(end) && !Contains(pre, start) && !Contains(mid, end)
    ensures SubRegions(pre + start + mid + end + rest, start, end, rep) == pre + rep + SubRegions(rest, start, end, rep)
  {
    var j := |pre| + |start| + |mid|;
    FirstBlockStep(pre, start, mid, end, rest, rep, j);
    OuterPieces(pre, start, mid, end, rest, j + |end|);
  }

  /** The first step of the substitution on `pre + start + mid + end + rest`, with `j` where `end` begins. */
  lemma {:induction false} FirstBlockStep(pre: string, start: string, mid: string, end: string, rest: string, rep: string, j: nat)
    requires LastCharUnique(start) && LastCharUnique(end) && !Contains(pre, start) && !Contains(mid, end)
    requires j == |pre| + |start| + |mid|
    ensures var s := pre + start + mid + end + rest;
      j + |end| <= |s| && SubRegions(s, start, end, rep) == s[..|pre|] + rep + SubRegions(s[j + |end|..], start, end, rep)
  {
    var s := pre + start + mid + end + rest;
    BlockRegion(pre, start, mid, end, rest, j);
    SubRegionsAt(s, start, end, rep, |pre|, j + |end|);
  }

  /** The first region of `pre + start + mid + end + rest` is the block, from `|pre|` to the end of `end`. */
  lemma {:induction false} BlockRegion(pre: string, start: string, mid: string, end: string, rest: string, j: nat)
    requires LastCharUnique(start) && LastCharUnique(end) && !Contains(pre, start) && !Contains(mid, end)
    requires j == |pre| + |start| + |mid|
    ensures var r := Region(pre + start + mid + end + rest, start, end);
      r.Some? && r.value.0 == |pre| && r.value.1 == j + |end|
  {
    BlockSearches(pre, start, mid, end, rest);
    RegionFound(pre + start + mid + end + rest, start, end, |pre|, j);
  }

  /** The first and the last of five pieces, sliced back out of their concatenation. */
  lemma {:induction false} OuterPieces(pre: string, start: string, mid: string, end: string, rest: string, k: nat)
    requires k == |pre| + |start| + |mid| + |end|
    ensures var s := pre + start + mid + end + rest;
      k <= |s| && s[..|pre|] == pre && s[k..] == rest
  {
    var s := pre + start + mid + end + rest;
    assert s[..|pre|] == pre;
    assert s[k..] == rest;
  }

  /** `SubRegionsOfBlock` with the block spelled out, as the callers write it. */
  lemma {:induction false} SubRegionsOfBlockSpelled(pre: string, start: string, mid: string, end: string, rest: string)
    requires LastCharUnique(start) && LastCharUnique(end) && !Contains(pre, start) && !Contains(mid, end)
    ensures SubRegions(pre + start + mid + end + rest, start, end, start + mid + end)
      == pre + start + mid + end + SubRegions(rest, start, end, start + mid + end)
  {
    SubRegionsOfBlock(pre, start, mid, end, rest, start + mid + end);
    Regroup(pre, start, mid, end, SubRegions(rest, start, end, start + mid + end));
  }

  lemma {:induction false} Regroup(a: string, b: string, c: string, d: string, e: string)
    ensures a + (b + c + d) + e == a + b + c + d + e
  {
  }

  /** In `pre + start + mid + end + rest`, the searches find the shown start and end markers. */
  lemma {:induction false} BlockSearches(pre: string, start: string, mid: string, end: string, rest: string)
    requires LastCharUnique(start) && LastCharUnique(end) && !Contains(pre, start) && !Contains(mid, end)
    ensures FindFrom(pre + start + mid + end + rest, start, 0) == Some(|pre|)
    ensures FindFrom(pre + start + mid + end + rest, end, |pre| + |start|) == Some(|pre| + |start| + |mid|)
  {
    StartMarkerSearch(pre, start, mid, end, rest);
    EndMarkerSearch(pre, start, mid, end, rest);
  }

  lemma {:induction false} StartMarkerSearch(pre: string, start: string, mid: string, end: string, rest: string)
    requires LastCharUnique(start) && !Contains(pre, start)
    ensures FindFrom(pre + start + mid + end + rest, start, 0) == Some(|pre|)
  {
    var s := pre + start + mid + end + rest;
    Regroup5(pre, start, mid, end, rest);
    FirstOccurrenceFrom(s, [], pre, start, mid + end + rest, 0);
  }

  lemma {:induction false} EndMarkerSearch(pre: string, start: string, mid: string, end: string, rest: string)
    requires LastCharUnique(end) && !Contains(mid, end)
    ensures FindFrom(pre + start + mid + end + rest, end, |pre| + |start|) == Some(|pre| + |start| + |mid|)
  {
    FirstOccurrenceFrom(pre + start + mid + end + rest, pre + start, mid, end, rest, |pre| + |start|);
  }

  lemma {:induction false} Regroup5(pre: string, start: string, mid: string, end: string, rest: string)
    ensures pre + start + mid + end + rest == [] + pre + start + (mid + end + rest)
  {
  }

  /** Substituting in a text whose first region runs from `i` to `k`. */
  lemma {:induction false} SubRegionsAt(s: string, start: string, end: string, rep: string, i: nat, k: nat)
    requires |start| > 0 && Region(s, start, end).Some? && Region(s, start, end).value.0 == i && Region(s, start, end).value.1 == k
    ensures i <= k <= |s|
    ensures SubRegions(s, start, end, rep) == s[..i] + rep + SubRegions(s[k..], start, end, rep)
  {
  }

  /** The text before the first occurrence of `m` holds none. */
  lemma {:induction false} BeforeFirstHasNone(text: string, m: string, i: nat)
    requires |m| > 0 && FindFrom(text, m, 0) == Some(i)
    ensures !Contains(text[..i], m)
  {
    var pre := text[..i];
    FindFromFirst(text, m, 0);
    ContainsIff(pre, m);
    forall q | OccursAt(pre, m, q) ensures OccursAt(text, m, q) {
      assert pre[q..q + |m|] == text[q..q + |m|];
    }
  }

  /** The region substitution applied to its own output changes nothing. */
  lemma {:induction false} SubRegionsIdempotent(text: string, start: string, end: string, mid: string)
    requires LastCharUnique(start) && LastCharUnique(end) && !Contains(mid, end)
    ensures var rep := start + mid + end;
      SubRegions(SubRegions(text, start, end, rep), start, end, rep) == SubRegions(text, start, end, rep)
    decreases |text|
  {
    var rep := start + mid + end;
    var fs := FindFrom(text, start, 0);
    if fs.Some? {
      var i := fs.value;
      var fe := FindFrom(text, end, i + |start|);
      if fe.Some? {
        var j := fe.value;
        SubRegionsIdempotent(text[j + |end|..], start, end, mid);
        IdempotentStep(text, start, end, mid, i, j);
      } else {
        SubRegionsNoEnd(text, start, end, rep, i);
      }
    } else {
      SubRegionsNoStart(text, start, end, rep);
    }
  }

  /** The inductive step: the first region becomes the block, after which the rest is already stable. */
  lemma {:induction false} IdempotentStep(text: string, start: string, end: string, mid: string, i: nat, j: nat)
    requires LastCharUnique(start) && LastCharUnique(end) && !Contains(mid, end)
    requires FindFrom(text, start, 0) == Some(i) && FindFrom(text, end, i + |start|) == Some(j)
    requires var tail := text[j + |end|..]; var rep := start + mid + end;
      SubRegions(SubRegions(tail, start, end, rep), start, end, rep) == SubRegions(tail, start, end, rep)
    ensures var rep := start + mid + end;
      SubRegions(SubRegions(text, start, end, rep), start, end, rep) == SubRegions(text, start, end, rep)
  {
    var rep := start + mid + end;
    FirstRegionReplaced(text, start, end, rep, i, j);
    var pre, t := text[..i], SubRegions(text[j + |end|..], start, end, rep);
    assert SubRegions(pre + rep + t, start, end, rep) == pre + rep + t by {
      BeforeFirstHasNone(text, start, i);
      BlockStable(pre, start, mid, end, t);
    }
    StableOutput(text, start, end, rep, pre + rep + t);
  }

  /** An output that the substitution leaves unchanged makes the substitution idempotent on its input. */
  lemma {:induction false} StableOutput(text: string, start: string, end: string, rep: string, out: string)
    requires |start| > 0 && SubRegions(text, start, end, rep) == out
    requires SubRegions(out, start, end, rep) == out
    ensures SubRegions(SubRegions(text, start, end, rep), start, end, rep) == SubRegions(text, start, end, rep)
  {
  }

  /** The first region, found at `i` with its end marker at `j`, is replaced and the search resumes after it. */
  lemma {:induction false} FirstRegionReplaced(text: string, start: string, end: string, rep: string, i: nat, j: nat)
    requires |start| > 0 && FindFrom(text, start, 0) == Some(i) && FindFrom(text, end, i + |start|) == Some(j)
    ensures i <= j + |end| <= |text|
    ensures SubRegions(text, start, end, rep) == text[..i] + rep + SubRegions(text[j + |end|..], start, end, rep)
  {
    RegionFound(text, start, end, i, j);
    SubRegionsAt(text, start, end, rep, i, j + |end|);
  }

  /** A block followed by a stable rest is stable. */
  lemma {:induction false} BlockStable(pre: string, start: string, mid: string, end: string, rest: string)
    requires LastCharUnique(start) && LastCharUnique(end) && !Contains(pre, start) && !Contains(mid, end)
    requires SubRegions(rest, start, end, start + mid + end) == rest
    ensures SubRegions(pre + (start + mid + end) + rest, start, end, start + mid + end)
      == pre + (start + mid + end) + rest
  {
    Regroup(pre, start, mid, end, rest);
    SubRegionsOfBlockSpelled(pre, start, mid, end, rest);
  }

  lemma {:induction false} SubRegionsNoStart(text: string, start: string, end: string, rep: string)
    requires |start| > 0 && FindFrom(text, start, 0).None?
    ensures SubRegions(text, start, end, rep) == text
  {
  }

  lemma {:induction false} SubRegionsNoEnd(text: string, start: string, end: string, rep: string, i: nat)
    requires |start| > 0 && FindFrom(text, start, 0) == Some(i) && FindFrom(text, end, i + |start|).None?
    ensures SubRegions(text, start, end, rep) == text
  {
    RegionNoEnd(text, start, end, i);
  }

  /** The markers of the README table have a unique last character `>`. */
  lemma {:induction false} MarkersLastCharUnique()
    ensures LastCharUnique(StartMarker) && LastCharUnique(EndMarker)
  {
  }

  /** A slice of a text that lacks `m` lacks it too. */
  lemma {:induction false} SliceLacks(text: string, a: nat, b: nat, m: string)
    requires a <= b <= |text| && !Contains(text, m)
    ensures !Contains(text[a..b], m)
  {
    var t := text[a..b];
    ContainsIff(text, m);
    ContainsIff(t, m);
    forall q | 0 <= q && q + |m| <= |t| ensures !OccursAt(t, m, q) {
      var u, v := t[q..q + |m|], text[a + q..a + q + |m|];
      assert forall k :: 0 <= k < |m| ==> u[k] == v[k];
      assert u == v;
      assert !OccursAt(text, m, a + q);
    }
  }

  /** Prefixing characters other than `m`'s first to a text that lacks `m` keeps it lacking `m`. */
  lemma {:induction false} PrependLacks(prefix: string, post: string, m: string)
    requires |m| > 0 && !Contains(post, m) && m[0] !in prefix
    ensures !Contains(prefix + post, m)
  {
    var s := prefix + post;
    ContainsIff(post, m);
    ContainsIff(s, m);
    forall p | 0 <= p && p + |m| <= |s| ensures !OccursAt(s, m, p) {
      if p < |prefix| {
        assert s[p..p + |m|][0] == prefix[p];
      } else {
        assert s[p..p + |m|] == post[p - |prefix|..p - |prefix| + |m|];
        assert !OccursAt(post, m, p - |prefix|);
      }
    }
  }

  /** Appending characters other than `m`'s last to a text that lacks `m` keeps it lacking `m`. */
  lemma {:induction false} AppendLacks(text: string, suffix: string, m: string)
    requires |m| > 0 && !Contains(text, m) && m[|m| - 1] !in suffix
    ensures !Contains(text + suffix, m)
  {
    var s := text + suffix;
    ContainsIff(text, m);
    ContainsIff(s, m);
    forall p | 0 <= p && p + |m| <= |s| ensures !OccursAt(s, m, p) {
      if p + |m| <= |text| {
        assert s[p..p + |m|] == text[p..p + |m|];
        assert !OccursAt(text, m, p);
      } else {
        assert s[p..p + |m|][|m| - 1] == suffix[p + |m| - 1 - |text|];
      }
    }
  }

  /** A text made of a block between a marker-free `pre` and a marker-free `rest` is left alone by the splice. */
  lemma {:induction false} BlockTextStable(s: string, pre: string, start: string, mid: string, end: string, rest: string)
    requires LastCharUnique(start) && LastCharUnique(end)
    requires !Contains(pre, start) && !Contains(mid, end) && !Contains(rest, start)
    requires s == pre + start + mid + end + rest
    ensures Contains(s, start) && SubRegions(s, start, end, start + mid + end) == s
  {
    BlockTextHasStart(s, pre, start, mid, end, rest);
    SubRegionsOfBlockSpelled(pre, start, mid, end, rest);
    SubRegionsNoStart(rest, start, end, start + mid + end);
  }

  lemma {:induction false} BlockTextHasStart(s: string, pre: string, start: string, mid: string, end: string, rest: string)
    requires s == pre + start + mid + end + rest
    ensures Contains(s, start)
  {
    assert s[|pre|..|pre| + |start|] == start;
    OccursAtContains(s, start, |pre|);
  }

  /** Inserting the block into a README without markers gives a text the splice leaves alone. */
  lemma {:induction false} InsertedIsStable(text: string, mid: string)
    requires !Contains(text, StartMarker) && !Contains(mid, EndMarker)
    ensures var once := InsertBlock(text, StartMarker + mid + EndMarker);
      Contains(once, StartMarker) && SubRegions(once, StartMarker, EndMarker, StartMarker + mid + EndMarker) == once
  {
    MarkersLastCharUnique();
    var block := StartMarker + mid + EndMarker;
    assert StartMarker[0] == '<';
    if Contains(text, Headings[0]) {
      InsertedBeforeStable(text, Headings[0], StartMarker, mid, EndMarker);
    } else if Contains(text, Headings[1]) {
      InsertedBeforeStable(text, Headings[1], StartMarker, mid, EndMarker);
    } else if Contains(text, Headings[2]) {
      InsertedBeforeStable(text, Headings[2], StartMarker, mid, EndMarker);
    } else {
      AppendedStable(text, StartMarker, mid, EndMarker);
    }
  }

  /** Appending the block after a blank line gives a text the splice leaves alone. */
  lemma {:induction false} AppendedStable(text: string, start: string, mid: string, end: string)
    requires LastCharUnique(start) && LastCharUnique(end) && |start| > 1 && start[|start| - 1] != '\n'
    requires !Contains(text, start) && !Contains(mid, end)
    ensures var once := text + "\n\n" + (start + mid + end) + "\n";
      Contains(once, start) && SubRegions(once, start, end, start + mid + end) == once
  {
    AppendLacks(text, "\n\n", start);
    assert !Contains("\n", start) by {
      ContainsIff("\n", start);
    }
    BlockTextStable(text + "\n\n" + (start + mid + end) + "\n", text + "\n\n", start, mid, end, "\n");
  }

  /** Inserting the block before a heading that lacks the start marker's first character. */
  lemma {:induction false} InsertedBeforeStable(text: string, h: string, start: string, mid: string, end: string)
    requires LastCharUnique(start) && LastCharUnique(end) && start[0] != '\n' && start[0] !in h
    requires !Contains(text, start) && !Contains(mid, end) && Contains(text, h)
    ensures var once := ReplaceFirst(text, h, start + mid + end + "\n\n" + h);
      Contains(once, start) && SubRegions(once, start, end, start + mid + end) == once
  {
    var i := FindFrom(text, h, 0).value;
    var pre := text[..i];
    var post := text[i + |h|..];
    InsertPiecesLack(text, h, start, i);
    var s := pre + start + mid + end + ("\n\n" + h + post);
    BlockTextStable(s, pre, start, mid, end, "\n\n" + h + post);
    RegroupInsert(pre, start, mid, end, h, post);
  }

  /** Around the first occurrence of a heading, neither side holds the start marker. */
  lemma {:induction false} InsertPiecesLack(text: string, h: string, start: string, i: nat)
    requires |start| > 0 && start[0] != '\n' && start[0] !in h && !Contains(text, start)
    requires i + |h| <= |text|
    ensures !Contains(text[..i], start) && !Contains("\n\n" + h + text[i + |h|..], start)
  {
    SliceLacks(text, 0, i, start);
    SliceLacks(text, i + |h|, |text|, start);
    assert text[0..i] == text[..i] && text[i + |h|..|text|] == text[i + |h|..];
    assert start[0] !in "\n\n" + h;
    PrependLacks("\n\n" + h, text[i + |h|..], start);
  }

  lemma {:induction false} RegroupInsert(a: string, b: string, c: string, d: string, h: string, e: string)
    ensures a + (b + c + d + "\n\n" + h) + e == a + b + c + d + ("\n\n" + h + e)
  {
  }

  /** A splice keeps a start marker in a text that had one. */
  lemma {:induction false} SubRegionsKeepsStart(text: string, start: string, end: string, rep: string)
    requires |start| > 0 && Contains(text, start) && StartsWith(rep, start)
    ensures Contains(SubRegions(text, start, end, rep), start)
  {
    var i := FindFrom(text, start, 0).value;
    var fe := FindFrom(text, end, i + |start|);
    if fe.Some? {
      KeepsStartReplaced(text, start, end, rep, i, fe.value);
    } else {
      SubRegionsNoEnd(text, start, end, rep, i);
    }
  }

  lemma {:induction false} KeepsStartReplaced(text: string, start: string, end: string, rep: string, i: nat, j: nat)
    requires |start| > 0 && FindFrom(text, start, 0) == Some(i) && FindFrom(text, end, i + |start|) == Some(j)
    requires StartsWith(rep, start)
    ensures Contains(SubRegions(text, start, end, rep), start)
  {
    RegionFound(text, start, end, i, j);
    SubRegionsAt(text, start, end, rep, i, j + |end|);
    var once := text[..i] + rep + SubRegions(text[j + |end|..], start, end, rep);
    assert once[i..i + |start|] == rep[..|start|];
    OccursAtContains(once, start, i);
  }

  /**
   * Running the README update's splice on its own output changes nothing, so a
   * second sync with the same plugins leaves the table as it is. The table
   * must not itself contain the end marker.
   */
  lemma {:induction false} SplicedTwice(text: string, table: string)
    requires !Contains("\n" + table + "\n", EndMarker)
    ensures Spliced(Spliced(text, table), table) == Spliced(text, table)
  {
    MarkersLastCharUnique();
    var mid := "\n" + table + "\n";
    assert Block(table) == StartMarker + mid + EndMarker;
    if Contains(text, StartMarker) {
      SubRegionsIdempotent(text, StartMarker, EndMarker, mid);
      assert Block(table)[..|StartMarker|] == StartMarker;
      SubRegionsKeepsStart(text, StartMarker, EndMarker, Block(table));
    } else {
      InsertedIsStable(text, mid);
    }
  }

  // ===========================================================================
  // update_readme as written: the block is a re.sub replacement template
  // ===========================================================================

  /** The one-character escapes `re.sub` expands in a replacement string. */
  function TemplateEscape(c: char): Option<char> {
    if c == 'n' then Some('\n') else if c == 't' then Some('\t') else if c == 'r' then Some('\r')
    else if c == 'f' then Some('\U{0C}') else if c == 'v' then Some('\U{0B}')
    else if c == 'a' then Some('\U{07}') else if c == 'b' then Some('\U{08}')
    else if c == '\\' then Some('\\') else None
  }

  predicate IsOctal(c: char) {
    '0' <= c <= '7'
  }

  function OctalValue(c: char): nat
    requires IsOctal(c)
  {
    c as int - '0' as int
  }

  /**
   * How `re.sub` reads a replacement string, for a pattern without groups.
   * `\0` takes up to two more octal digits and gives that character; three
   * octal digits after a backslash give that character, or an error (None)
   * above `\377`; any other escaped digit is a group reference, and so an
   * error. A known one-letter escape becomes its character, and any other
   * escaped ASCII letter, `\g<...>` included, is an error. A trailing
   * backslash is an error. Any other escaped character is kept with its
   * backslash.
   */
  function ExpandTemplate(r: string): (e: Option<string>)
    decreases |r|
  {
    if r == [] then Some([])
    else if r[0] != '\\' then
      match ExpandTemplate(r[1..]) case None => None case Some(t) => Some([r[0]] + t)
    else if |r| == 1 then None
    else
      var c := r[1];
      if c == '0' then
        var n := if |r| > 2 && IsOctal(r[2]) then (if |r| > 3 && IsOctal(r[3]) then 2 else 1) else 0;
        var v := if n == 0 then 0 else if n == 1 then OctalValue(r[2]) else 8 * OctalValue(r[2]) + OctalValue(r[3]);
        match ExpandTemplate(r[2 + n..]) case None => None case Some(t) => Some([v as char] + t)
      else if '1' <= c <= '7' && |r| > 3 && IsOctal(r[2]) && IsOctal(r[3]) then
        var v := 64 * OctalValue(c) + 8 * OctalValue(r[2]) + OctalValue(r[3]);
        if v > 255 then None
        else match ExpandTemplate(r[4..]) case None => None case Some(t) => Some([v as char] + t)
      else
        match ExpandTemplate(r[2..])
        case None => None
        case Some(t) =>
          if TemplateEscape(c).Some? then Some([TemplateEscape(c).value] + t)
          else if IsLetterAscii(c) || IsDigitAscii(c) then None
          else Some(['\\', c] + t)
  }

  /** `\101` is read as the character `A`. */
  lemma OctalEscapeRead(rest: string)
    requires '\\' !in rest
    ensures ExpandTemplate("\\101" + rest) == Some("A" + rest)
  {
    ExpandNoBackslash(rest);
    assert ("\\101" + rest)[4..] == rest;
  }

  /** Without backslashes the template is the text itself. */
  lemma {:induction false} ExpandNoBackslash(r: string)
    requires '\\' !in r
    ensures ExpandTemplate(r) == Some(r)
    decreases |r|
  {
    if r != [] {
      ExpandNoBackslash(r[1..]);
      assert r == [r[0]] + r[1..];
    }
  }

  /** Expansion of a text with a backslash-free head. */
  lemma {:induction false} ExpandAppend(a: string, b: string)
    requires '\\' !in a
    ensures ExpandTemplate(a + b) == match ExpandTemplate(b) case None => None case Some(t) => Some(a + t)
    decreases |a|
  {
    if a != [] {
      var s := a + b;
      assert s[0] == a[0] && a[0] != '\\';
      assert s[1..] == a[1..] + b;
      assert '\\' !in a[1..];
      ExpandAppend(a[1..], b);
      match ExpandTemplate(b)
      case None =>
        assert ExpandTemplate(s[1..]).None?;
      case Some(t) =>
        assert ExpandTemplate(s[1..]) == Some(a[1..] + t);
        assert ExpandTemplate(s) == Some([s[0]] + (a[1..] + t));
        assert [a[0]] + (a[1..] + t) == a + t;
    } else {
      assert a + b == b;
      match ExpandTemplate(b)
      case None =>
      case Some(t) => assert a + t == t;
    }
  }

  /** A known escape becomes its character. */
  lemma {:induction false} ExpandKnownEscape(c: char, rest: string)
    requires TemplateEscape(c).Some?
    ensures ExpandTemplate(['\\', c] + rest) == match ExpandTemplate(rest) case None => None case Some(t) => Some([TemplateEscape(c).value] + t)
  {
    assert (['\\', c] + rest)[2..] == rest;
  }

  /** An escaped ASCII letter that is no known escape is rejected. */
  lemma {:induction false} ExpandBadEscape(c: char, rest: string)
    requires TemplateEscape(c).None? && IsLetterAscii(c)
    ensures ExpandTemplate(['\\', c] + rest) == None
  {
    assert (['\\', c] + rest)[2..] == rest;
  }

  /** `re.sub(START.*?END, block, text)` as written: None when `re` rejects the template. */
  function SplicedAsWritten(text: string, table: string): Option<string> {
    if Contains(text, StartMarker) then
      match ExpandTemplate(Block(table))
      case None => None
      case Some(rep) => Some(SubRegions(text, StartMarker, EndMarker, rep))
    else Some(InsertBlock(text, Block(table)))
  }

  /** With no backslash in the table, the template reading is harmless. */
  lemma {:induction false} AsWrittenAgreesWithoutBackslash(text: string, table: string)
    requires '\\' !in table
    ensures SplicedAsWritten(text, table) == Some(Spliced(text, table))
  {
    assert '\\' !in Block(table) by {
      assert '\\' !in StartMarker && '\\' !in EndMarker;
      assert forall i :: 0 <= i < |Block(table)| ==> Block(table)[i] == (StartMarker + "\n" + table + "\n" + EndMarker)[i];
    }
    ExpandNoBackslash(Block(table));
  }

  /** Text holding `C:\temp` gets a tab in place of `\t`, and text holding `\d` is rejected. */
  lemma {:induction false} ExpandMangles(pre: string, post: string)
    requires '\\' !in pre && '\\' !in post
    ensures ExpandTemplate(pre + "C:\\temp" + post) == Some(pre + "C:\temp" + post)
    ensures ExpandTemplate(pre + "\\d" + post) == None
  {
    ExpandNoBackslash("emp" + post);
    ExpandKnownEscape('t', "emp" + post);
    ExpandAppend(pre + "C:", ['\\', 't'] + ("emp" + post));
    assert pre + "C:\\temp" + post == (pre + "C:") + (['\\', 't'] + ("emp" + post));
    assert pre + "C:\temp" + post == (pre + "C:") + (['\t'] + ("emp" + post));
    ExpandBadEscape('d', post);
    ExpandAppend(pre, ['\\', 'd'] + post);
    assert pre + "\\d" + post == pre + (['\\', 'd'] + post);
  }

  /** Neither marker holds a backslash. */
  lemma MarkersBackslashFree()
    ensures '\\' !in StartMarker && '\\' !in EndMarker
  {
  }

  /** The block around `pre + mid + post` as a backslash-free head, `mid`, and a backslash-free tail. */
  lemma {:induction false} BlockAround(pre: string, mid: string, post: string)
    requires '\\' !in pre && '\\' !in post
    ensures var head := StartMarker + "\n" + pre; var tail := post + "\n" + EndMarker;
      '\\' !in head && '\\' !in tail && Block(pre + mid + post) == head + mid + tail
  {
    MarkersBackslashFree();
  }

  /** As written, `C:\\temp` in the table reaches the README as `C:`, a tab and `emp`. */
  lemma {:induction false} AsWrittenTabbed(text: string, tpre: string, tpost: string)
    requires Contains(text, StartMarker)
    requires '\\' !in tpre && '\\' !in tpost
    ensures SplicedAsWritten(text, tpre + "C:\\temp" + tpost)
      == Some(SubRegions(text, StartMarker, EndMarker, Block(tpre + "C:\temp" + tpost)))
  {
    BlockAround(tpre, "C:\\temp", tpost);
    BlockAround(tpre, "C:\temp", tpost);
    ExpandMangles(StartMarker + "\n" + tpre, tpost + "\n" + EndMarker);
  }

  /** The tabbed block is not the block of the table as given. */
  lemma {:induction false} TabbedBlockDiffers(tpre: string, tpost: string)
    requires '\\' !in tpre && '\\' !in tpost
    ensures Block(tpre + "C:\temp" + tpost) != Block(tpre + "C:\\temp" + tpost)
  {
    BlockAround(tpre, "C:\\temp", tpost);
    BlockAround(tpre, "C:\temp", tpost);
    var i := |StartMarker + "\n" + tpre| + 2;
    assert Block(tpre + "C:\temp" + tpost)[i] == '\t';
    assert Block(tpre + "C:\\temp" + tpost)[i] == '\\';
  }

  /** As written, `\\d` in the table makes the template invalid and the splice fails. */
  lemma {:induction false} AsWrittenRejectsDigitEscape(text: string, tpre: string, tpost: string)
    requires Contains(text, StartMarker)
    requires '\\' !in tpre && '\\' !in tpost
    ensures SplicedAsWritten(text, tpre + "\\d" + tpost) == None
  {
    BlockAround(tpre, "\\d", tpost);
    ExpandMangles(StartMarker + "\n" + tpre, tpost + "\n" + EndMarker);
  }

  /**
   * The README splice as written differs from the literal splice: a table
   * holding `C:\\temp` (from a plugin description) reaches the README with a
   * tab, and one holding `\\d` makes `re` reject the template, aborting the sync.
   */
  lemma {:induction false} AsWrittenSpliceMangles(text: string, tpre: string, tpost: string)
    requires Contains(text, StartMarker)
    requires '\\' !in tpre && '\\' !in tpost
    ensures SplicedAsWritten(text, tpre + "C:\\temp" + tpost)
      == Some(SubRegions(text, StartMarker, EndMarker, Block(tpre + "C:\temp" + tpost)))
    ensures Block(tpre + "C:\temp" + tpost) != Block(tpre + "C:\\temp" + tpost)
    ensures SplicedAsWritten(text, tpre + "\\d" + tpost) == None
  {
    AsWrittenTabbed(text, tpre, tpost);
    TabbedBlockDiffers(tpre, tpost);
    AsWrittenRejectsDigitEscape(text, tpre, tpost);
  }

  // ===========================================================================
  // generate_inventory
  // ===========================================================================

  const LastUpdatedMarker := "<!-- LAST-UPDATED -->"

  const InventoryHeader: seq<string> := [
    "# Plugin Inventory",
    "",
    "> Auto-generated by `scripts/sync-docs.py`. Do not edit manually.",
    "> Last updated: " + LastUpdatedMarker,
    ""]

  function CommandLine(plugin: string, c: string): string {
    "- `/" + plugin + ":" + c + "`"
  }

  function CommandLines(plugin: string, cs: seq<string>): (r: seq<string>)
    ensures |r| == |cs| && forall i :: 0 <= i < |cs| ==> r[i] == CommandLine(plugin, cs[i])
  {
    seq(|cs|, i requires 0 <= i < |cs| => CommandLine(plugin, cs[i]))
  }

  function ItemLines(xs: seq<string>): (r: seq<string>)
    ensures |r| == |xs| && forall i :: 0 <= i < |xs| ==> r[i] == Bullet(xs[i])
  {
    MapSeq(xs, Bullet)
  }

  function Bullet(x: string): string {
    "- " + x
  }

  /** The command list of a plugin's inventory section (nothing when it has no commands). */
  function CommandSection(p: Plugin): seq<string> {
    if p.commands != [] then ["**Commands (" + NatToString(|p.commands|) + "):**"] + CommandLines(p.name, p.commands) + [""] else []
  }

  /** A titled bullet list (nothing when the list is empty). */
  function ItemSection(title: string, xs: seq<string>): seq<string> {
    if xs != [] then ["**" + title + " (" + NatToString(|xs|) + "):**"] + ItemLines(xs) + [""] else []
  }

  function PluginHead(p: Plugin): seq<string> {
    ["## " + p.name + " `v" + p.version + "`", "", "**Category:** " + p.category, "", p.description, ""]
  }

  /** The inventory section of one plugin. */
  function PluginLines(p: Plugin): seq<string> {
    PluginHead(p) + CommandSection(p) + ItemSection("Skills", p.skills) + ItemSection("Agents", p.agents)
    + (if p.hooks then ["**Hooks:** ✅ hooks.json present", ""] else [])
    + ["---", ""]
  }

  function InventoryBody(ps: seq<Plugin>): seq<string>
    decreases |ps|
  {
    if ps == [] then [] else InventoryBody(ps[..|ps| - 1]) + PluginLines(ps[|ps| - 1])
  }

  function InventoryLines(ps: seq<Plugin>): seq<string> {
    InventoryHeader + InventoryBody(ps)
  }

  /** The command block of `generate_inventory`'s loop. */
  method AppendCommands(lines: seq<string>, p: Plugin) returns (out: seq<string>)
    ensures out == lines + CommandSection(p)
  {
    out := lines;
    if p.commands != [] {
      out := out + ["**Commands (" + NatToString(|p.commands|) + "):**"];
      ghost var atCommands := out;
      for k := 0 to |p.commands|
        invariant out == atCommands + CommandLines(p.name, p.commands[..k])
      {
        out := out + [CommandLine(p.name, p.commands[k])];
        assert CommandLines(p.name, p.commands[..k + 1]) == CommandLines(p.name, p.commands[..k]) + [CommandLine(p.name, p.commands[k])];
      }
      assert p.commands[..|p.commands|] == p.commands;
      out := out + [""];
    }
  }

  /** The skills and agents blocks of `generate_inventory`'s loop. */
  method AppendItems(lines: seq<string>, title: string, xs: seq<string>) returns (out: seq<string>)
    ensures out == lines + ItemSection(title, xs)
  {
    out := lines;
    if xs != [] {
      out := out + ["**" + title + " (" + NatToString(|xs|) + "):**"];
      ghost var atItems := out;
      for k := 0 to |xs|
        invariant out == atItems + ItemLines(xs[..k])
      {
        out := out + [Bullet(xs[k])];
        MapSnoc(xs, Bullet, k);
      }
      assert xs[..|xs|] == xs;
      out := out + [""];
    }
  }

  /** One iteration of `generate_inventory`'s loop over the plugins. */
  method AppendPlugin(lines: seq<string>, p: Plugin) returns (out: seq<string>)
    ensures out == lines + PluginLines(p)
  {
    out := lines + ["## " + p.name + " `v" + p.version + "`", "", "**Category:** " + p.category, "", p.description, ""];
    assert out == lines + PluginHead(p);
    out := AppendCommands(out, p);
    out := AppendItems(out, "Skills", p.skills);
    out := AppendItems(out, "Agents", p.agents);
    var hooks: seq<string> := [];
    if p.hooks {
      hooks := ["**Hooks:** ✅ hooks.json present", ""];
    }
    out := out + hooks + ["---", ""];
    RegroupLines(lines, PluginHead(p), CommandSection(p), ItemSection("Skills", p.skills), ItemSection("Agents", p.agents), hooks, ["---", ""]);
  }

  lemma {:induction false} RegroupLines<T>(a: seq<T>, b: seq<T>, c: seq<T>, d: seq<T>, e: seq<T>, f: seq<T>, g: seq<T>)
    ensures a + b + c + d + e + f + g == a + (b + c + d + e + f + g)
  {
  }

  lemma {:induction false} Regroup3<T>(a: seq<T>, b: seq<T>, c: seq<T>)
    ensures a + b + c == a + (b + c)
  {
  }

  /** `generate_inventory`: the page with the timestamp filled in, written only when it differs from the file. */
  method GenerateInventory(plugins: seq<Plugin>, now: string, existing: Option<string>) returns (content: string, write: bool)
    ensures content == ReplaceAll(Join(InventoryLines(plugins), "\n"), LastUpdatedMarker, now)
    ensures write <==> existing != Some(content)
  {
    var lines := InventoryHeader;
    for i := 0 to |plugins|
      invariant lines == InventoryHeader + InventoryBody(plugins[..i])
    {
      lines := AppendPlugin(lines, plugins[i]);
      assert plugins[..i + 1][..i] == plugins[..i];
      assert InventoryBody(plugins[..i + 1]) == InventoryBody(plugins[..i]) + PluginLines(plugins[i]);
      Regroup3(InventoryHeader, InventoryBody(plugins[..i]), PluginLines(plugins[i]));
    }
    assert plugins[..|plugins|] == plugins;
    content := Join(lines, "\n");
    content := ReplaceAll(content, LastUpdatedMarker, now);
    write := existing != Some(content);
  }

  /** Every command of every plugin has its `/{plugin}:{command}` line in the inventory. */
  lemma {:induction false} CommandLinesListed(ps: seq<Plugin>, k: nat, c: nat)
    requires k < |ps| && c < |ps[k].commands|
    ensures CommandLine(ps[k].name, ps[k].commands[c]) in InventoryBody(ps)
  {
    CommandInSection(ps[k], c);
    SectionInBody(ps, k, CommandLine(ps[k].name, ps[k].commands[c]));
  }

  lemma {:induction false} CommandInSection(p: Plugin, c: nat)
    requires c < |p.commands|
    ensures CommandLine(p.name, p.commands[c]) in PluginLines(p)
  {
    var cmds := CommandSection(p);
    assert cmds[c + 1] == CommandLine(p.name, p.commands[c]);
    assert CommandLine(p.name, p.commands[c]) in cmds;
  }

  /** A line of one plugin's section is a line of the inventory body. */
  lemma {:induction false} SectionInBody(ps: seq<Plugin>, k: nat, x: string)
    requires k < |ps| && x in PluginLines(ps[k])
    ensures x in InventoryBody(ps)
    decreases |ps|
  {
    var init := ps[..|ps| - 1];
    assert InventoryBody(ps) == InventoryBody(init) + PluginLines(ps[|ps| - 1]);
    if k < |ps| - 1 {
      assert init[k] == ps[k];
      SectionInBody(init, k, x);
    }
  }

  /**
   * A plugin's section has eight fixed lines, then for each non-empty list of
   * commands, skills or agents a title, one line per entry and a blank line,
   * and two lines when it has hooks.
   */
  lemma {:induction false} PluginSectionSize(p: Plugin)
    ensures |PluginLines(p)| == 8
      + (if p.commands != [] then |p.commands| + 2 else 0)
      + (if p.skills != [] then |p.skills| + 2 else 0)
      + (if p.agents != [] then |p.agents| + 2 else 0)
      + (if p.hooks then 2 else 0)
  {
  }
}
