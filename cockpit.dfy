/**
 * The Productivity Cockpit dashboard logic (app.js): the TASKS.md parser that turns a
 * markdown plan into phases, tasks, subtasks and notes; the KPI counters over the
 * parsed tasks; the spotlight search over the search index; the focus timer; and the
 * branch label read from `.git/HEAD`.
 *
 * JavaScript regular expressions are modelled by hand: `.` matches anything but a line
 * terminator, `\s` is JavaScript white space, `\d` is an ASCII digit, and `$` without
 * the `m` flag anchors at the end of the line string only.
 */
module Cockpit {
  import opened Optional
  import opened Text

  // ---------------------------------------------------------------------------
  // Regular-expression building blocks
  // ---------------------------------------------------------------------------

  /** The characters a JavaScript `.` does not match. */
  predicate LineTerminator(c: char) {
    c == '\n' || c == '\r' || c == '\U{2028}' || c == '\U{2029}'
  }

  predicate NoLineTerminator(s: string) {
    forall i :: 0 <= i < |s| ==> !LineTerminator(s[i])
  }

  /** The length of the (greedy) `\s*` run at the start of `s`. */
  function JsSpaceRun(s: string): (r: nat)
    ensures r <= |s| && (r == |s| || !JsSpace(s[r]))
    ensures forall i :: 0 <= i < r ==> JsSpace(s[i])
    decreases |s|
  {
    if s == [] || !JsSpace(s[0]) then 0 else 1 + JsSpaceRun(s[1..])
  }

  /** A space run that ends where a non-space begins has exactly that length. */
  lemma {:induction false} JsSpaceRunOf(ws: string, rest: string)
    requires forall i :: 0 <= i < |ws| ==> JsSpace(ws[i])
    requires rest == [] || !JsSpace(rest[0])
    ensures JsSpaceRun(ws + rest) == |ws|
    decreases |ws|
  {
    if ws == [] {
      assert ws + rest == rest;
    } else {
      assert (ws + rest)[1..] == ws[1..] + rest;
      JsSpaceRunOf(ws[1..], rest);
    }
  }

  // ---------------------------------------------------------------------------
  // Line shapes recognised by parseTasks
  // ---------------------------------------------------------------------------

  const PhaseMarker := "## Phase "

  /** `line.match(/^## (Phase \d+:.+)$/)`: the captured phase name, when the line is a phase heading. */
  function PhaseHeading(line: string): (r: Option<string>)
    ensures r.Some? ==> line == "## " + r.value
    ensures r.Some? ==> StartsWith(r.value, "Phase ") && NoLineTerminator(r.value)
  {
    if StartsWith(line, PhaseMarker) && NoLineTerminator(line[3..]) then
      var d := DigitRun(line[9..]);
      if d >= 1 && 9 + d + 1 < |line| && line[9 + d] == ':' then
        assert line == line[..3] + line[3..];
        assert line[3..][..6] == line[3..9];
        Some(line[3..])
      else None
    else None
  }

  /** A heading built from a phase number and a one-line title is recognised, with its name. */
  lemma PhaseHeadingOf(n: nat, title: string)
    requires |title| > 0 && NoLineTerminator(title)
    ensures PhaseHeading(PhaseMarker + NatToString(n) + ":" + title) == Some("Phase " + NatToString(n) + ":" + title)
  {
    var digits := NatToString(n);
    var line := PhaseMarker + digits + ":" + title;
    assert line[9..] == digits + (":" + title);
    DigitRunOf(digits, ":" + title);
    assert line[9 + |digits|] == ':';
    assert line[..9] == PhaseMarker;
    assert line[3..] == "Phase " + digits + ":" + title;
    assert NoLineTerminator(line[3..]) by {
      forall i | 0 <= i < |line[3..]|
        ensures !LineTerminator(line[3..][i])
      {
        if i >= 6 + |digits| + 1 {
          assert line[3..][i] == title[i - 7 - |digits|];
        } else if i >= 6 && i < 6 + |digits| {
          assert line[3..][i] == digits[i - 6];
        }
      }
    }
  }

  /** A heading read from a file with CRLF line endings keeps its `\r`, so it is not a phase heading. */
  lemma CrlfHeadingIsIgnored(line: string)
    requires |line| > 0 && line[|line| - 1] == '\r'
    ensures PhaseHeading(line).None?
  {
  }

  predicate IsCheckMark(c: char) {
    c == ' ' || c == 'x' || c == 'X'
  }

  /** `s.match(/^- \[[ xX]\]\s+(.*)$/)`: the captured text of a checkbox item. */
  function CheckboxText(s: string): (r: Option<string>)
    ensures r.Some? ==> StartsWith(s, "- [") && |r.value| + 6 <= |s| && r.value == s[|s| - |r.value|..]
    ensures r.Some? ==> NoLineTerminator(r.value) && (r.value == [] || !JsSpace(r.value[0]))
  {
    if |s| >= 6 && s[..3] == "- [" && IsCheckMark(s[3]) && s[4] == ']' then
      var k := JsSpaceRun(s[5..]);
      if k >= 1 && NoLineTerminator(s[5 + k..]) then Some(s[5 + k..]) else None
    else None
  }

  /** A checkbox line with a one-line title captures exactly the title, whatever its mark. */
  lemma CheckboxTextOf(mark: char, title: string)
    requires IsCheckMark(mark) && NoLineTerminator(title) && (title == [] || !JsSpace(title[0]))
    ensures CheckboxText("- [" + [mark] + "] " + title) == Some(title)
  {
    var s := "- [" + [mark] + "] " + title;
    assert s[5..] == " " + title;
    JsSpaceRunOf(" ", title);
    assert s[6..] == title;
  }

  /** `line.match(/^\s+- \[[ xX]\]\s+(.*)$/)`: the captured text of an indented checkbox item. */
  function SubtaskText(line: string): (r: Option<string>)
    ensures r.Some? ==> |line| > 0 && JsSpace(line[0])
  {
    var k := JsSpaceRun(line);
    if k >= 1 then CheckboxText(line[k..]) else None
  }

  // ---------------------------------------------------------------------------
  // Task ids, titles and tags
  // ---------------------------------------------------------------------------

  /** An occurrence of `/T\d+/` starts at `i`. */
  predicate IdStartsAt(s: string, i: nat) {
    i + 1 < |s| && s[i] == 'T' && IsDigitAscii(s[i + 1])
  }

  function FirstIdFrom(s: string, from: nat): (r: Option<nat>)
    requires from <= |s|
    ensures r.Some? ==> from <= r.value && IdStartsAt(s, r.value)
    ensures r.Some? ==> forall j :: from <= j < r.value ==> !IdStartsAt(s, j)
    ensures r.None? ==> forall j :: from <= j ==> !IdStartsAt(s, j)
    decreases |s| - from
  {
    if IdStartsAt(s, from) then Some(from)
    else if from == |s| then None
    else FirstIdFrom(s, from + 1)
  }

  /** `rawText.match(/T\d+/)`: the leftmost `T` followed by digits, with all the digits that follow. */
  function TaskId(s: string): (r: Option<string>)
    ensures r.None? <==> forall j :: !IdStartsAt(s, j)
    ensures r.Some? ==> |r.value| >= 2 && r.value[0] == 'T' && AllDigits(r.value[1..])
    ensures r.Some? ==> exists i :: (OccursAt(s, r.value, i) && IdStartsAt(s, i)
      && (forall j :: 0 <= j < i ==> !IdStartsAt(s, j))
      && (i + |r.value| == |s| || !IsDigitAscii(s[i + |r.value|])))
  {
    match FirstIdFrom(s, 0)
    case None => None
    case Some(i) =>
      var d := DigitRun(s[i + 1..]);
      var id := s[i..i + 1 + d];
      assert id[1..] == s[i + 1..][..d];
      assert OccursAt(s, id, i);
      Some(id)
  }

  /** Where `/\*\*?ID\*\*?\s*` matches when the `\*\*?ID` part ends at `start + |id|`: the match's end. */
  function StarredTail(s: string, id: string, start: nat): (r: Option<nat>)
    ensures r.Some? ==> start + |id| < r.value <= |s|
  {
    if OccursAt(s, id, start) && start + |id| < |s| && s[start + |id|] == '*' then
      var q := start + |id| + 1;
      var b := if q < |s| && s[q] == '*' then 1 else 0;
      Some(q + b + JsSpaceRun(s[q + b..]))
    else None
  }

  /** The end of a match of `/\*\*?ID\*\*?\s*` starting at `p`, with the regex's backtracking on the first `\*?`. */
  function StarredIdAt(s: string, id: string, p: nat): (r: Option<nat>)
    ensures r.Some? ==> p < r.value <= |s|
  {
    if p < |s| && s[p] == '*' then
      if p + 1 < |s| && s[p + 1] == '*' && StarredTail(s, id, p + 2).Some? then StarredTail(s, id, p + 2)
      else StarredTail(s, id, p + 1)
    else None
  }

  /** The leftmost match of `/\*\*?ID\*\*?\s*` at or after `from`, as (start, end). */
  function FirstStarredId(s: string, id: string, from: nat): (r: Option<(nat, nat)>)
    requires from <= |s|
    ensures r.Some? ==> from <= r.value.0 < r.value.1 <= |s| && StarredIdAt(s, id, r.value.0) == Some(r.value.1)
    ensures r.Some? ==> forall j :: from <= j < r.value.0 ==> StarredIdAt(s, id, j).None?
    ensures r.None? ==> forall j :: from <= j ==> StarredIdAt(s, id, j).None?
    decreases |s| - from
  {
    match StarredIdAt(s, id, from)
    case Some(e) => Some((from, e))
    case None => if from == |s| then None else FirstStarredId(s, id, from + 1)
  }

  /** `cleanTitle`: the first bold or italic id and the spaces after it are removed, then the first `ID ` is. */
  function CleanTitle(raw: string, id: Option<string>): (r: string)
    ensures id.None? ==> r == raw
    ensures |r| <= |raw|
  {
    match id
    case None => raw
    case Some(t) =>
      var unstarred := match FirstStarredId(raw, t, 0)
        case None => raw
        case Some(m) => raw[..m.0] + raw[m.1..];
      var found := FindFrom(unstarred, t + " ", 0);
      assert found.Some? ==> found.value + |t + " "| <= |unstarred|;
      ReplaceFirst(unstarred, t + " ", "")
  }

  /** A title written `**T12** Rest` is cleaned to `Rest` (when `Rest` repeats no `T12 `). */
  lemma CleanTitleOfBoldId(id: string, rest: string)
    requires |id| > 0 && (rest == [] || (!JsSpace(rest[0]) && rest[0] != '*'))
    requires !Contains(rest, id + " ")
    ensures CleanTitle("**" + id + "** " + rest, Some(id)) == rest
  {
    var raw := "**" + id + "** " + rest;
    assert OccursAt(raw, id, 2);
    var q := 2 + |id| + 1;
    assert raw[q] == '*';
    assert raw[q + 1..] == " " + rest;
    JsSpaceRunOf(" ", rest);
    assert StarredTail(raw, id, 2) == Some(q + 2);
    assert StarredIdAt(raw, id, 0) == Some(q + 2);
    assert raw[..0] + raw[q + 2..] == rest;
  }

  /** A title written `T12 Rest` with no asterisks is cleaned to `Rest`. */
  lemma CleanTitleOfPlainId(id: string, rest: string)
    requires '*' !in id && '*' !in rest
    ensures CleanTitle(id + " " + rest, Some(id)) == rest
  {
    var raw := id + " " + rest;
    assert '*' !in raw by {
      forall i | 0 <= i < |raw| ensures raw[i] != '*' {
        if i < |id| { assert raw[i] == id[i]; }
        else if i > |id| { assert raw[i] == rest[i - |id| - 1]; }
      }
    }
    assert FirstStarredId(raw, id, 0).None?;
    assert OccursAt(raw, id + " ", 0);
    assert raw[|id + " "|..] == rest;
  }

  /** The index of the first `]` in `s` that the lazy `.*?` reaches before a line terminator. */
  function CloseBracket(s: string): (r: Option<nat>)
    ensures r.Some? ==> r.value < |s| && s[r.value] == ']'
    ensures r.Some? ==> ']' !in s[..r.value] && NoLineTerminator(s[..r.value])
    ensures r.None? ==> forall k :: 0 <= k < |s| && s[k] == ']' ==> !NoLineTerminator(s[..k])
  {
    if s == [] || LineTerminator(s[0]) then None
    else if s[0] == ']' then Some(0)
    else match CloseBracket(s[1..])
      case None =>
        assert forall k :: 0 <= k < |s| && s[k] == ']' ==> !NoLineTerminator(s[..k]) by {
          forall k | 0 <= k < |s| && s[k] == ']'
            ensures !NoLineTerminator(s[..k])
          {
            assert k >= 1 && s[1..][k - 1] == ']';
            var j :| 0 <= j < k - 1 && LineTerminator(s[1..][..k - 1][j]);
            assert s[..k][j + 1] == s[1..][..k - 1][j];
          }
        }
        None
      case Some(k) =>
        assert s[..k + 1] == [s[0]] + s[1..][..k];
        Some(k + 1)
  }

  /** The captured groups of `title.matchAll(/\[(.*?)\]/g)`: the text of each bracketed tag. */
  function Tags(s: string): (r: seq<string>)
    ensures forall k :: 0 <= k < |r| ==> ']' !in r[k] && NoLineTerminator(r[k])
    decreases |s|
  {
    match IndexOfChar(s, '[')
    case None => []
    case Some(i) =>
      var rest := s[i + 1..];
      match CloseBracket(rest)
      case None => Tags(rest)
      case Some(k) => [rest[..k]] + Tags(rest[k + 1..])
  }

  /** A bracketed tag after bracket-free text is the first tag; the scan then continues after it. */
  lemma {:induction false} TagsOfBracketed(pre: string, tag: string, rest: string)
    requires '[' !in pre && ']' !in tag && NoLineTerminator(tag)
    ensures Tags(pre + "[" + tag + "]" + rest) == [tag] + Tags(rest)
  {
    var after := tag + "]" + rest;
    var s := pre + "[" + after;
    assert pre + "[" + tag + "]" + rest == s;
    OpenBracketAt(pre, after);
    CloseBracketAt(tag, rest);
    assert Tags(s) == [after[..|tag|]] + Tags(after[|tag| + 1..]);
  }

  /** In `pre + "[" + after` with no `[` in `pre`, the first `[` opens `after`. */
  lemma {:induction false} OpenBracketAt(pre: string, after: string)
    requires '[' !in pre
    ensures var s := pre + "[" + after;
      IndexOfChar(s, '[') == Some(|pre|) && s[|pre| + 1..] == after
  {
    var s := pre + "[" + after;
    assert s[..|pre|] == pre;
    IndexOfCharAt(s, '[', |pre|);
    assert s[|pre| + 1..] == after;
  }

  /** The first `]` after a tag free of `]` and of line terminators closes that tag. */
  lemma {:induction false} CloseBracketAt(tag: string, rest: string)
    requires ']' !in tag && NoLineTerminator(tag)
    ensures var after := tag + "]" + rest;
      CloseBracket(after) == Some(|tag|) && after[..|tag|] == tag && after[|tag| + 1..] == rest
  {
    var after := tag + "]" + rest;
    assert after[..|tag|] == tag && after[|tag|] == ']';
    assert after[|tag| + 1..] == rest;
  }

  // ---------------------------------------------------------------------------
  // Parsed plan
  // ---------------------------------------------------------------------------

  datatype Subtask = Subtask(title: string, checked: bool)

  datatype Task = Task(
    id: Option<string>,
    title: string,
    checked: bool,
    isCritical: bool,
    tags: seq<string>,
    notes: string,
    subtasks: seq<Subtask>)

  datatype Phase = Phase(name: string, tasks: seq<Task>)

  /** The task object built for a checkbox line whose captured text is `raw`. */
  function NewTask(line: string, raw: string): (t: Task)
    ensures t.notes == "" && t.subtasks == []
  {
    var id := TaskId(raw);
    var title := CleanTitle(raw, id);
    Task(id, title, Contains(line, "[x]"), Contains(Lower(raw), "critical"), Tags(title), "", [])
  }

  /** A task is critical when its text mentions "critical" in any mix of ASCII case. */
  lemma CriticalInAnyCase(line: string, raw: string, word: string, i: nat)
    requires OccursAt(raw, word, i) && Lower(word) == "critical"
    ensures NewTask(line, raw).isCritical
  {
    var low := Lower(raw);
    assert low[i..i + 8] == Lower(word) by {
      forall k | 0 <= k < 8 ensures low[i..i + 8][k] == Lower(word)[k] {
        assert raw[i + k] == word[k];
      }
    }
    OccursAtContains(low, "critical", i);
  }

  /** A task with no "critical" in any case is never critical. */
  lemma NotCriticalWithoutWord(line: string, raw: string)
    requires forall i :: !OccursAt(Lower(raw), "critical", i)
    ensures !NewTask(line, raw).isCritical
  {
    ContainsIff(Lower(raw), "critical");
  }

  /** Only a lowercase `[x]` checks a task: `- [X] title` parses as a task, but unchecked. */
  lemma UppercaseMarkIsUnchecked(title: string)
    requires NoLineTerminator(title) && (title == [] || !JsSpace(title[0]))
    requires !Contains(title, "[x]")
    ensures CheckboxText("- [X] " + title) == Some(title)
    ensures !NewTask("- [X] " + title, title).checked
  {
    CheckboxTextOf('X', title);
    NoLowercaseMarkAfterUpper(title);
  }

  lemma NoLowercaseMarkAfterUpper(title: string)
    requires !Contains(title, "[x]")
    ensures !Contains("- [X] " + title, "[x]")
  {
    var line := "- [X] " + title;
    ContainsIff(title, "[x]");
    ContainsIff(line, "[x]");
    forall i
      ensures !OccursAt(line, "[x]", i)
    {
      if i < 0 || i + 3 > |line| {
      } else if i >= 6 {
        assert line[i..i + 3] == title[i - 6..i - 3];
        assert !OccursAt(title, "[x]", i - 6);
      } else {
        assert line[..6] == "- [X] ";
        if i == 2 {
          assert line[i..i + 3][1] == 'X';
        } else {
          assert line[i..i + 3][0] == line[i] != '[';
        }
      }
    }
  }

  // ---------------------------------------------------------------------------
  // The parser as a fold over lines
  // ---------------------------------------------------------------------------

  /**
   * The parser's state: the phases so far, and whether `currentTask` is set. The current
   * phase is always the last phase and the current task the last task of that phase, so
   * updating "the current task" is updating that last element.
   */
  datatype Parser = Parser(phases: seq<Phase>, inTask: bool)

  predicate Valid(st: Parser) {
    st.inTask ==> |st.phases| > 0 && |st.phases[|st.phases| - 1].tasks| > 0
  }

  const Init := Parser([], false)

  function LastPhase(ps: seq<Phase>): Phase
    requires |ps| > 0
  {
    ps[|ps| - 1]
  }

  function CurrentTask(st: Parser): Task
    requires Valid(st) && st.inTask
  {
    var ts := LastPhase(st.phases).tasks;
    ts[|ts| - 1]
  }

  /** `currentPhase.tasks.push(t)`. */
  function AddTask(ps: seq<Phase>, t: Task): (r: seq<Phase>)
    requires |ps| > 0
    ensures |r| == |ps| && r[..|r| - 1] == ps[..|ps| - 1]
    ensures LastPhase(r) == Phase(LastPhase(ps).name, LastPhase(ps).tasks + [t])
  {
    ps[..|ps| - 1] + [Phase(LastPhase(ps).name, LastPhase(ps).tasks + [t])]
  }

  /** Replace the current task by `t` (the in-place update of `currentTask`). */
  function SetCurrentTask(ps: seq<Phase>, t: Task): (r: seq<Phase>)
    requires |ps| > 0 && |LastPhase(ps).tasks| > 0
    ensures |r| == |ps| && r[..|r| - 1] == ps[..|ps| - 1]
    ensures LastPhase(r).name == LastPhase(ps).name
  {
    var ts := LastPhase(ps).tasks;
    ps[..|ps| - 1] + [Phase(LastPhase(ps).name, ts[..|ts| - 1] + [t])]
  }

  /** A line that is neither heading nor item and that `parseTasks` appends to the current task's notes. */
  predicate IsNoteLine(line: string) {
    JsTrim(line) != "" && !StartsWith(line, "#") && !StartsWith(line, "-")
  }

  /** What the `forEach` callback of `parseTasks` does with one line. */
  function Step(st: Parser, line: string): (r: Parser)
    requires Valid(st)
    ensures Valid(r)
  {
    match PhaseHeading(line)
    case Some(name) => Parser(st.phases + [Phase(name, [])], false)
    case None =>
      if |st.phases| > 0 && CheckboxText(line).Some? then
        Parser(AddTask(st.phases, NewTask(line, CheckboxText(line).value)), true)
      else if st.inTask && SubtaskText(line).Some? then
        var t := CurrentTask(st);
        var sub := Subtask(SubtaskText(line).value, Contains(line, "[x]"));
        Parser(SetCurrentTask(st.phases, t.(subtasks := t.subtasks + [sub])), true)
      else if st.inTask && IsNoteLine(line) then
        var t := CurrentTask(st);
        Parser(SetCurrentTask(st.phases, t.(notes := t.notes + line + "\n")), true)
      else st
  }

  /** The state after feeding `lines` to the parser, starting from `st`. */
  function Run(st: Parser, lines: seq<string>): (r: Parser)
    requires Valid(st)
    ensures Valid(r)
    decreases |lines|
  {
    if lines == [] then st else Step(Run(st, lines[..|lines| - 1]), lines[|lines| - 1])
  }

  /** The phases `parseTasks(content)` returns. */
  function Parse(content: string): seq<Phase> {
    Run(Init, Split(content, '\n')).phases
  }

  /** `parseTasks`: one pass over the lines, keeping the current phase and task. */
  method ParseTasks(content: string) returns (phases: seq<Phase>)
    ensures phases == Parse(content)
  {
    var lines := Split(content, '\n');
    phases := [];
    var inTask := false;
    for i := 0 to |lines|
      invariant Valid(Parser(phases, inTask))
      invariant Parser(phases, inTask) == Run(Init, lines[..i])
    {
      var line := lines[i];
      assert lines[..i + 1][..i] == lines[..i];
      var heading := PhaseHeading(line);
      if heading.Some? {
        phases := phases + [Phase(heading.value, [])];
        inTask := false;
        continue;
      }
      var item := CheckboxText(line);
      if |phases| > 0 && item.Some? {
        var task := NewTask(line, item.value);
        phases := AddTask(phases, task);
        inTask := true;
        continue;
      }
      var sub := SubtaskText(line);
      if inTask && sub.Some? {
        var t := CurrentTask(Parser(phases, inTask));
        phases := SetCurrentTask(phases, t.(subtasks := t.subtasks + [Subtask(sub.value, Contains(line, "[x]"))]));
        continue;
      }
      if inTask && IsNoteLine(line) {
        var t := CurrentTask(Parser(phases, inTask));
        phases := SetCurrentTask(phases, t.(notes := t.notes + line + "\n"));
      }
    }
    assert lines[..|lines|] == lines;
  }

  // ---------------------------------------------------------------------------
  // Properties of the parser
  // ---------------------------------------------------------------------------

  /** Feeding two blocks of lines is feeding the first, then the second. */
  lemma {:induction false} RunAppend(st: Parser, a: seq<string>, b: seq<string>)
    requires Valid(st)
    ensures Run(st, a + b) == Run(Run(st, a), b)
    decreases |b|
  {
    if b == [] {
      assert a + b == a;
    } else {
      var b' := b[..|b| - 1];
      assert (a + b)[..|a + b| - 1] == a + b';
      assert (a + b)[|a + b| - 1] == b[|b| - 1];
      RunAppend(st, a, b');
    }
  }

  /** Lines before the first phase heading leave the parser in its initial state. */
  lemma {:induction false} PreambleLeavesInit(pre: seq<string>)
    requires forall k :: 0 <= k < |pre| ==> PhaseHeading(pre[k]).None?
    ensures Run(Init, pre) == Init
    decreases |pre|
  {
    if pre != [] {
      PreambleLeavesInit(pre[..|pre| - 1]);
    }
  }

  /** Task lines (and every other line) before any phase heading are ignored. */
  lemma PreambleIgnored(pre: seq<string>, rest: seq<string>)
    requires forall k :: 0 <= k < |pre| ==> PhaseHeading(pre[k]).None?
    ensures Run(Init, pre + rest) == Run(Init, rest)
  {
    RunAppend(Init, pre, rest);
    PreambleLeavesInit(pre);
  }

  function Names(ps: seq<Phase>): (r: seq<string>)
    ensures |r| == |ps| && forall i :: 0 <= i < |ps| ==> r[i] == ps[i].name
  {
    seq(|ps|, i requires 0 <= i < |ps| => ps[i].name)
  }

  /** The names captured by the phase headings among `lines`, in order. */
  function HeadingNames(lines: seq<string>): (r: seq<string>)
    ensures |r| <= |lines|
    decreases |lines|
  {
    if lines == [] then []
    else HeadingNames(lines[..|lines| - 1]) + match PhaseHeading(lines[|lines| - 1])
      case Some(n) => [n]
      case None => []
  }

  /** Updating only the last phase's tasks keeps every phase name. */
  lemma {:induction false} SameNames(ps: seq<Phase>, r: seq<Phase>)
    requires |r| == |ps| > 0 && r[..|r| - 1] == ps[..|ps| - 1]
    requires LastPhase(r).name == LastPhase(ps).name
    ensures Names(r) == Names(ps)
  {
    forall i | 0 <= i < |ps| ensures Names(r)[i] == Names(ps)[i] {
      if i < |ps| - 1 {
        assert r[i] == r[..|r| - 1][i];
        assert ps[i] == ps[..|ps| - 1][i];
      }
    }
  }

  lemma {:induction false} StepNames(st: Parser, line: string)
    requires Valid(st)
    ensures Names(Step(st, line).phases) == Names(st.phases) + match PhaseHeading(line)
      case Some(n) => [n]
      case None => []
  {
    var r := Step(st, line);
    match PhaseHeading(line)
    case Some(name) =>
      assert r.phases == st.phases + [Phase(name, [])];
      assert Names(r.phases) == Names(st.phases) + [name];
    case None =>
      if r.phases != st.phases {
        SameNames(st.phases, r.phases);
      }
  }

  /** Every phase heading opens exactly one phase, named by its capture, in order; no other line does. */
  lemma {:induction false} PhaseNamesOf(st: Parser, lines: seq<string>)
    requires Valid(st)
    ensures Names(Run(st, lines).phases) == Names(st.phases) + HeadingNames(lines)
    decreases |lines|
  {
    if lines != [] {
      var init := lines[..|lines| - 1];
      PhaseNamesOf(st, init);
      StepNames(Run(st, init), lines[|lines| - 1]);
    }
  }

  /** A heading closes the current task: items after it go to the new phase, and no subtask or note attaches. */
  lemma HeadingOpensEmptyPhase(st: Parser, line: string)
    requires Valid(st) && PhaseHeading(line).Some?
    ensures var r := Step(st, line);
      !r.inTask && r.phases[..|r.phases| - 1] == st.phases
      && LastPhase(r.phases) == Phase(PhaseHeading(line).value, [])
  {
  }

  /** Under a phase, a checkbox line appends a new task to that phase and makes it current. */
  lemma TaskLineAddsTask(st: Parser, mark: char, title: string)
    requires Valid(st) && |st.phases| > 0
    requires IsCheckMark(mark) && NoLineTerminator(title) && (title == [] || !JsSpace(title[0]))
    ensures var line := "- [" + [mark] + "] " + title;
      var r := Step(st, line);
      r.inTask && r.phases[..|r.phases| - 1] == st.phases[..|st.phases| - 1]
      && LastPhase(r.phases).tasks == LastPhase(st.phases).tasks + [NewTask(line, title)]
  {
    CheckboxTextOf(mark, title);
  }

  /** Under a task, an indented checkbox line becomes a subtask of that task, and the task is otherwise unchanged. */
  lemma SubtaskLineAddsSubtask(st: Parser, indent: string, mark: char, title: string)
    requires Valid(st) && st.inTask
    requires |indent| > 0 && forall i :: 0 <= i < |indent| ==> JsSpace(indent[i])
    requires IsCheckMark(mark) && NoLineTerminator(title) && (title == [] || !JsSpace(title[0]))
    ensures var line := indent + "- [" + [mark] + "] " + title;
      var r := Step(st, line);
      r.inTask && |r.phases| == |st.phases|
      && CurrentTask(r) == CurrentTask(st).(subtasks := CurrentTask(st).subtasks + [Subtask(title, Contains(line, "[x]"))])
  {
    SubtaskLineShape(indent, mark, title);
  }

  lemma SubtaskLineShape(indent: string, mark: char, title: string)
    requires |indent| > 0 && forall i :: 0 <= i < |indent| ==> JsSpace(indent[i])
    requires IsCheckMark(mark) && NoLineTerminator(title) && (title == [] || !JsSpace(title[0]))
    ensures var line := indent + "- [" + [mark] + "] " + title;
      PhaseHeading(line).None? && CheckboxText(line).None? && SubtaskText(line) == Some(title)
  {
    var item := "- [" + [mark] + "] " + title;
    var line := indent + item;
    assert line == indent + "- [" + [mark] + "] " + title;
    assert line[0] == indent[0];
    JsSpaceRunOf(indent, item);
    assert line[|indent|..] == item;
    CheckboxTextOf(mark, title);
  }

  /** Under a task, an indented prose line is appended, with a newline, to the task's notes. */
  lemma ProseLineBecomesNote(st: Parser, indent: string, text: string)
    requires Valid(st) && st.inTask
    requires |indent| > 0 && forall i :: 0 <= i < |indent| ==> indent[i] == ' '
    requires |text| > 0 && !JsSpace(text[0]) && text[0] != '-'
    ensures var r := Step(st, indent + text);
      r.inTask && |r.phases| == |st.phases|
      && CurrentTask(r) == CurrentTask(st).(notes := CurrentTask(st).notes + indent + text + "\n")
  {
    ProseLineShape(indent, text);
    assert (indent + text) + "\n" == indent + text + "\n";
  }

  lemma ProseLineShape(indent: string, text: string)
    requires |indent| > 0 && forall i :: 0 <= i < |indent| ==> indent[i] == ' '
    requires |text| > 0 && !JsSpace(text[0]) && text[0] != '-'
    ensures var line := indent + text;
      PhaseHeading(line).None? && CheckboxText(line).None? && SubtaskText(line).None? && IsNoteLine(line)
  {
    ProseLineIsNoItem(indent, text);
    ProseLineIsNote(indent, text);
  }

  lemma ProseLineIsNoItem(indent: string, text: string)
    requires |indent| > 0 && forall i :: 0 <= i < |indent| ==> indent[i] == ' '
    requires |text| > 0 && !JsSpace(text[0]) && text[0] != '-'
    ensures var line := indent + text;
      PhaseHeading(line).None? && CheckboxText(line).None? && SubtaskText(line).None?
  {
    var line := indent + text;
    assert line[0] == ' ';
    JsSpaceRunOf(indent, text);
    assert line[|indent|..] == text;
  }

  lemma ProseLineIsNote(indent: string, text: string)
    requires |indent| > 0 && forall i :: 0 <= i < |indent| ==> indent[i] == ' '
    requires |text| > 0 && !JsSpace(text[0])
    ensures IsNoteLine(indent + text)
  {
    var line := indent + text;
    assert line[0] == ' ';
    assert line[|indent|] == text[0];
    var trimmed := TrimStart(line, JsSpace);
    assert |trimmed| > 0;
    assert JsTrim(line) == TrimEnd(trimmed, JsSpace);
    assert JsTrim(line) != "";
  }

  // ---------------------------------------------------------------------------
  // KPIs
  // ---------------------------------------------------------------------------

  /** All tasks of all phases, phase by phase. */
  function AllTasks(ps: seq<Phase>): seq<Task>
    decreases |ps|
  {
    if ps == [] then [] else AllTasks(ps[..|ps| - 1]) + LastPhase(ps).tasks
  }

  function CountChecked(ts: seq<Task>): (r: nat)
    ensures r <= |ts|
    decreases |ts|
  {
    if ts == [] then 0 else CountChecked(ts[..|ts| - 1]) + if ts[|ts| - 1].checked then 1 else 0
  }

  /** A blocker is a critical task that is not checked. */
  predicate IsBlocker(t: Task) {
    t.isCritical && !t.checked
  }

  function CountBlockers(ts: seq<Task>): (r: nat)
    ensures r <= |ts|
    decreases |ts|
  {
    if ts == [] then 0 else CountBlockers(ts[..|ts| - 1]) + if IsBlocker(ts[|ts| - 1]) then 1 else 0
  }

  /** Checked tasks and blockers are disjoint, so together they never exceed the total. */
  lemma {:induction false} CheckedAndBlockersWithinTotal(ts: seq<Task>)
    ensures CountChecked(ts) + CountBlockers(ts) <= |ts|
    decreases |ts|
  {
    if ts != [] {
      CheckedAndBlockersWithinTotal(ts[..|ts| - 1]);
    }
  }

  /** When every task is checked there are no blockers and every task counts as completed. */
  lemma {:induction false} NoBlockersWhenAllChecked(ts: seq<Task>)
    requires forall k :: 0 <= k < |ts| ==> ts[k].checked
    ensures CountBlockers(ts) == 0 && CountChecked(ts) == |ts|
    decreases |ts|
  {
    if ts != [] {
      NoBlockersWhenAllChecked(ts[..|ts| - 1]);
    }
  }

  /** The counters of `updateKPIs`. */
  method UpdateKPIs(phases: seq<Phase>) returns (total: nat, completed: nat, blockers: nat)
    ensures total == |AllTasks(phases)|
    ensures completed == CountChecked(AllTasks(phases))
    ensures blockers == CountBlockers(AllTasks(phases))
    ensures completed <= total && completed + blockers <= total
  {
    total, completed, blockers := 0, 0, 0;
    for i := 0 to |phases|
      invariant total == |AllTasks(phases[..i])|
      invariant completed == CountChecked(AllTasks(phases[..i]))
      invariant blockers == CountBlockers(AllTasks(phases[..i]))
    {
      var done := AllTasks(phases[..i]);
      var ts := phases[i].tasks;
      assert done + ts[..0] == done;
      for j := 0 to |ts|
        invariant total == |done + ts[..j]|
        invariant completed == CountChecked(done + ts[..j])
        invariant blockers == CountBlockers(done + ts[..j])
      {
        var t := ts[j];
        assert (done + ts[..j + 1])[..|done + ts[..j + 1]| - 1] == done + ts[..j];
        total := total + 1;
        if t.checked {
          completed := completed + 1;
        }
        if t.isCritical && !t.checked {
          blockers := blockers + 1;
        }
      }
      assert phases[..i + 1][..i] == phases[..i];
      assert ts[..|ts|] == ts;
    }
    assert phases[..|phases|] == phases;
    CheckedAndBlockersWithinTotal(AllTasks(phases));
  }

  /**
   * `Math.round((completed / total) * 100)`: None when there are no tasks (the dashboard
   * shows `NaN%`), otherwise the percentage rounded half up.
   */
  function ProgressPercent(completed: nat, total: nat): (r: Option<nat>)
    requires completed <= total
    ensures r.None? <==> total == 0
    ensures r.Some? ==> r.value <= 100
    ensures r.Some? && completed == total ==> r.value == 100
    ensures r.Some? ==> (r.value == 0 <==> 200 * completed < total)
    ensures r.Some? ==> 2 * total * r.value <= 200 * completed + total < 2 * total * (r.value + 1)
  {
    if total == 0 then None
    else
      var n, d := 200 * completed + total, 2 * total;
      var p := n / d;
      DivisionBounds(n, d, p);
      assert p < 101 by {
        assert d * p < d * 101;
        MulCancel(d, p, 101);
      }
      assert n < d ==> p == 0 by {
        if n < d {
          assert d * p < d * 1;
          MulCancel(d, p, 1);
        }
      }
      assert completed == total ==> p == 100 by {
        if completed == total {
          assert d * 100 < d * (p + 1);
          MulCancel(d, 100, p + 1);
        }
      }
      Some(p)
  }

  lemma DivisionBounds(n: nat, d: nat, q: nat)
    requires d > 0 && q == n / d
    ensures d * q <= n < d * (q + 1)
  {
  }

  lemma MulCancel(d: nat, a: nat, b: nat)
    requires d > 0 && d * a < d * b
    ensures a < b
  {
  }

  // ---------------------------------------------------------------------------
  // Spotlight search
  // ---------------------------------------------------------------------------

  /** An entry of the search index. */
  datatype SearchItem = SearchItem(kind: string, title: string, id: Option<string>, sub: string)

  /** The filter of `handleSpotlightSearch`: the query occurs in the title, the (non-empty) id or the subtitle, ignoring case. */
  predicate Matches(item: SearchItem, query: string) {
    var q := Lower(query);
    Contains(Lower(item.title), q)
    || (item.id.Some? && item.id.value != "" && Contains(Lower(item.id.value), q))
    || Contains(Lower(item.sub), q)
  }

  /** `searchIndex.filter(...)`. */
  function Filter(items: seq<SearchItem>, query: string): (r: seq<SearchItem>)
    ensures |r| <= |items|
    ensures forall x :: x in r <==> x in items && Matches(x, query)
    decreases |items|
  {
    if items == [] then []
    else
      var rest := Filter(items[..|items| - 1], query);
      var last := items[|items| - 1];
      assert items == items[..|items| - 1] + [last];
      if Matches(last, query) then rest + [last] else rest
  }

  /** The filter keeps index order: filtering a concatenation concatenates the filtered parts. */
  lemma {:induction false} FilterAppend(a: seq<SearchItem>, b: seq<SearchItem>, query: string)
    ensures Filter(a + b, query) == Filter(a, query) + Filter(b, query)
    decreases |b|
  {
    if b == [] {
      assert a + b == a;
    } else {
      var b' := b[..|b| - 1];
      assert (a + b)[..|a + b| - 1] == a + b';
      assert (a + b)[|a + b| - 1] == b[|b| - 1];
      FilterAppend(a, b', query);
    }
  }

  const SpotlightLimit := 8

  /** `handleSpotlightSearch(query)`: the first eight matching entries, in index order. */
  function Spotlight(items: seq<SearchItem>, query: string): (r: seq<SearchItem>)
    ensures |r| <= SpotlightLimit
    ensures forall k :: 0 <= k < |r| ==> r[k] in items && Matches(r[k], query)
    ensures |r| <= |Filter(items, query)| && r == Filter(items, query)[..|r|]
    ensures |r| < SpotlightLimit ==> r == Filter(items, query)
  {
    var all := Filter(items, query);
    if |all| <= SpotlightLimit then
      assert all[..|all|] == all;
      all
    else all[..SpotlightLimit]
  }

  /** The empty query (the spotlight just opened) matches everything: the first eight entries show. */
  lemma {:induction false} EmptyQueryShowsFirstEntries(items: seq<SearchItem>)
    ensures Filter(items, "") == items
    ensures Spotlight(items, "") == if |items| <= SpotlightLimit then items else items[..SpotlightLimit]
    decreases |items|
  {
    if items != [] {
      EmptyQueryShowsFirstEntries(items[..|items| - 1]);
      var last := items[|items| - 1];
      assert OccursAt(Lower(last.title), Lower(""), 0);
      assert items[..|items| - 1] + [last] == items;
    }
  }

  /** The task entries that the dashboard adds to the search index, phase by phase. */
  function TaskEntries(ps: seq<Phase>): (r: seq<SearchItem>)
    ensures |r| == |AllTasks(ps)|
    ensures forall k :: 0 <= k < |r| ==> r[k].kind == "task" && r[k].title == AllTasks(ps)[k].title && r[k].id == AllTasks(ps)[k].id
    decreases |ps|
  {
    if ps == [] then []
    else
      var p := LastPhase(ps);
      var here := seq(|p.tasks|, k requires 0 <= k < |p.tasks| =>
        SearchItem("task", p.tasks[k].title, p.tasks[k].id, "Task in " + Split(p.name, ':')[0]));
      TaskEntries(ps[..|ps| - 1]) + here
  }

  // ---------------------------------------------------------------------------
  // Focus timer
  // ---------------------------------------------------------------------------

  const FocusSeconds := 25 * 60

  /** Two-digit rendering: `n.toString().padStart(2, '0')`. */
  function Pad2(n: nat): (r: string)
    requires n < 100
    ensures |r| == 2 && AllDigits(r) && DigitsValue(r) == n
  {
    var r := [DigitChar(n / 10), DigitChar(n % 10)];
    assert r[..1] == [DigitChar(n / 10)] && r[..1][..0] == [];
    assert DigitsValue(r[..1]) == n / 10;
    r
  }

  /** The text of `updateTimerDisplay`: minutes, a colon, two-digit seconds. */
  function TimerText(seconds: nat): string {
    NatToString(seconds / 60) + ":" + Pad2(seconds % 60)
  }

  lemma NoColonInDigits(s: string)
    requires AllDigits(s)
    ensures ':' !in s
  {
  }

  /** The display reads back as the remaining time: minutes, then exactly two digits of seconds below 60. */
  lemma TimerTextReadsBack(seconds: nat)
    ensures var parts := Split(TimerText(seconds), ':');
      |parts| == 2 && AllDigits(parts[0]) && AllDigits(parts[1]) && |parts[1]| == 2
      && DigitsValue(parts[1]) < 60
      && DigitsValue(parts[0]) * 60 + DigitsValue(parts[1]) == seconds
  {
    var m := NatToString(seconds / 60);
    var s := Pad2(seconds % 60);
    NoColonInDigits(m);
    NoColonInDigits(s);
    assert TimerText(seconds) == m + [':'] + s;
    SplitAtFirst(m, s, ':');
    SplitNoSeparator(s, ':');
    DigitsValueOfNatToString(seconds / 60);
  }

  /** The focus timer: the remaining seconds and whether the one-second interval is running. */
  class FocusTimer {
    var seconds: int
    var running: bool

    /** The remaining time is always between one second and a full session. */
    predicate Valid()
      reads this
    {
      0 < seconds <= FocusSeconds
    }

    constructor ()
      ensures Valid() && seconds == FocusSeconds && !running
    {
      seconds := FocusSeconds;
      running := false;
    }

    /** The Start/Pause button: starts or clears the interval; the remaining time is kept. */
    method Toggle()
      modifies this
      ensures running == !old(running) && seconds == old(seconds)
    {
      running := !running;
    }

    /** One interval tick: one second less; on reaching zero the session ends and the timer resets to 25 minutes. */
    method Tick()
      requires Valid() && running
      modifies this
      ensures Valid()
      ensures old(seconds) > 1 ==> seconds == old(seconds) - 1 && running
      ensures old(seconds) == 1 ==> seconds == FocusSeconds && !running
    {
      seconds := seconds - 1;
      if seconds <= 0 {
        running := false;
        seconds := FocusSeconds;
      }
    }

    /** What the timer display shows. */
    function Display(): (r: string)
      requires Valid()
      reads this
      ensures Split(r, ':')[0] == NatToString(seconds / 60)
    {
      var m := NatToString(seconds / 60);
      NoColonInDigits(m);
      NoColonInDigits(Pad2(seconds % 60));
      SplitAtFirst(m, Pad2(seconds % 60), ':');
      assert TimerText(seconds) == m + [':'] + Pad2(seconds % 60);
      TimerText(seconds)
    }
  }

  /** A fresh timer shows 25:00. */
  lemma FreshTimerText()
    ensures TimerText(FocusSeconds) == "25:00"
  {
    assert NatToString(25) == "25";
  }

  // ---------------------------------------------------------------------------
  // Branch label
  // ---------------------------------------------------------------------------

  const RefPrefix := "ref: refs/heads/"

  /** The branch shown in the breadcrumb, from the text of `.git/HEAD`. */
  function BranchLabel(head: string): (r: string)
    ensures !StartsWith(head, RefPrefix) ==> r == head[..if |head| < 7 then |head| else 7]
  {
    if StartsWith(head, RefPrefix) then JsTrim(ReplaceFirst(head, RefPrefix, ""))
    else head[..if |head| < 7 then |head| else 7]
  }

  /** A symbolic ref `ref: refs/heads/<name>` followed by a newline shows `<name>`. */
  lemma BranchOfSymbolicRef(name: string)
    requires |name| > 0 && !JsSpace(name[0]) && !JsSpace(name[|name| - 1])
    ensures BranchLabel(RefPrefix + name + "\n") == name
  {
    var head := RefPrefix + name + "\n";
    assert OccursAt(head, RefPrefix, 0);
    assert head[|RefPrefix|..] == name + "\n";
    var rest := name + "\n";
    assert TrimStart(rest, JsSpace) == rest;
    assert rest[..|rest| - 1] == name;
    assert TrimEnd(rest, JsSpace) == TrimEnd(name, JsSpace);
  }

  /** A detached HEAD (a commit hash) shows its first seven characters. */
  lemma DetachedHeadShowsShortHash(hash: string)
    requires |hash| >= 7 && !StartsWith(hash, "r")
    ensures BranchLabel(hash + "\n") == hash[..7]
  {
    var head := hash + "\n";
    assert head[..1] == hash[..1];
    assert head[..7] == hash[..7];
  }
}
