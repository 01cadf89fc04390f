# Plugin repository core, modelled in Dafny

This project models the decision logic of six files of a repository of editor plugins
and helper scripts, and proves what each promises. Every module corresponds to one source
file. Input and output, processes, sockets and the clock become parameters of the model.

- `Bridge` (`bridge.dfy`) is the productivity cockpit's local AI bridge:
  - loading the configuration, with defaults filled key by key;
  - the upward search for the project root, at most six levels;
  - the CLI whitelist and spawn, including the Windows `.cmd` probe;
  - the provider registry of the HTTP path, with request building and response parsing;
  - the `POST` routing for `/api/exec` and `/api/fs/write`, and the write guard;
  - the server's retry on the next port.

  The file system is a set of directories and a map of files. The subprocess runner and
  the network are functions passed in.
- `Template` (`template.dfy`) is the repository template generator:
  - the parsing of the git remote;
  - the layering of provided, detected and default variables, then the derived ones (commands, badges, package URLs, name forms);
  - `evaluate_condition`;
  - the conditional-block rewriting, iterated to a fixed point;
  - the single pass of `{{NAME}}` substitution.

  The regular expressions are written as string functions.
- `SyncDocs` (`syncdocs.dfy`) is the documentation synchroniser:
  - `first_paragraph`;
  - the front-matter `name:` extraction;
  - the description fallback chain;
  - the README plugin table;
  - the marker splice and the `plugins-N` badge rewrite in `update_readme`;
  - the per-plugin inventory page.
- `Cockpit` (`cockpit.dfy`) is the non-DOM logic of the cockpit front end:
  - the `TASKS.md` parser as a state machine over lines;
  - the KPI counters and the progress percentage;
  - the spotlight filter;
  - the focus timer, as a class whose `Tick` and `Toggle` update its fields;
  - the branch label read from `HEAD`.
- `Score` (`score.dfy`) is the repository quality scorer. The repository is a record of
  observed facts: the files and directories that exist, file contents, and the outcome
  of each regular-expression probe. The model covers:
  - the four `score_*` accumulations, as methods proved equal to specification functions;
  - weight normalisation and the weighted total;
  - grade selection;
  - the issue and recommendation rules;
  - the per-category issue filters.
- `Studio` (`studio.dfy`) is the plugin studio's static server:
  - the bounded port search;
  - the path traversal guard over segment paths, with the SPA fallback to `index.html`;
  - the MIME table;
  - the `/api/` stub routing.
- `Text`, `Maps` and `Optional` are shared helpers: ASCII string operations, Python
  `setdefault`, and an option type.

Some facts the proofs bring out about the code as written. None of them is a defect the
authors evidently did not intend, so they are stated here rather than under Findings:

- With the default weights the highest reachable total is 93, so the "Outstanding" grade
  (95 and up) cannot be reached (`Score.OutstandingUnreachableByDefault`).
- Weights that omit a category make the weighted sum raise `KeyError`
  (`Score.HelpExampleWeightsRaise`). The usage text's own example weights do this.
- The dependency-management sub-score is at most 5, so the "< 8" issue is always present
  (`Score.CalculateScore`).
- The conditional pattern requires `#` before the optional `^`, so a bare `{{^X}}` block
  is never rewritten (`Template.BareCaretIsNotABlock`).
- The `git@github.com:` fallback patterns can never match where the first pattern failed
  (`Template.ScpFallbacksAreDead`).
- A task line checked with an upper-case `[X]` counts as a task but is shown unchecked
  (`Cockpit.UppercaseMarkIsUnchecked`).
- A `TASKS.md` with CRLF line ends yields no phases (`Cockpit.CrlfHeadingIsIgnored`).

## Model

| member | source | states |
|---|---|---|
| Maps.SetDefaultsFillsOnlyMissing | plugins/productivity-cockpit/skills/cockpit/bridge.py:26-30 | Successive `setdefault`s keep every key already present and add each default key that was missing, with the first default given for it. |
| Bridge.DefaultsOfEmpty | plugins/productivity-cockpit/skills/cockpit/bridge.py:23-30 | Filling an empty `ai` section yields mode "cli", cli "claude", args [], provider "anthropic" and model "". |
| Bridge.ApplyDefaults | plugins/productivity-cockpit/skills/cockpit/bridge.py:26-30 | The five in-place `setdefault` steps compute exactly the defaults-filled section. |
| Bridge.LoadConfig | plugins/productivity-cockpit/skills/cockpit/bridge.py:16-32 | With no `.cockpit.json` the result is the default section. Otherwise, for a parsable file, every default key is present. A malformed file gives no configuration. |
| Bridge.ConfigHasDefaultKeys | plugins/productivity-cockpit/skills/cockpit/bridge.py:16-32 | Any configuration that is loaded holds all five `ai` keys. |
| Bridge.GetProjectRoot | plugins/productivity-cockpit/skills/cockpit/bridge.py:35-42 | The loop computes the bounded upward search over six levels. |
| Bridge.SearchRootFindsFirst | plugins/productivity-cockpit/skills/cockpit/bridge.py:37-41 | The nearest ancestor within the bound that has `.git` or `.cockpit.json` is returned. |
| Bridge.SearchRootFallsBack | plugins/productivity-cockpit/skills/cockpit/bridge.py:42 | With no marked ancestor within the bound, the result is the working directory. |
| Bridge.SearchRootResult | plugins/productivity-cockpit/skills/cockpit/bridge.py:35-42 | The result is always either the working directory or a marked ancestor at most `levels - 1` steps up. The search never fails. |
| Bridge.AllowedClisSortedIsSorted | plugins/productivity-cockpit/skills/cockpit/bridge.py:48 | The whitelist joined into the refusal message is strictly sorted and holds exactly the five allowed names. |
| Bridge.ExecCli | plugins/productivity-cockpit/skills/cockpit/bridge.py:45-73 | A list or dict as the name makes the whitelist test raise (no reply, nothing spawned). Any other name outside the whitelist gives the error naming it as Python prints it (`None`, `True`, a number or the string), and nothing is spawned. A whitelisted name spawns one or two processes, and the last argv is the name or `<name>.cmd` followed by the arguments. Off Windows exactly `[cli] + args` runs. An `Output` carries exactly the run's stdout, stderr and exit code. |
| Bridge.ExitCodeIsData | plugins/productivity-cockpit/skills/cockpit/bridge.py:63-69 | On every platform, unless the Windows `--version` probe raises, a completed run of the argv finally spawned (the name itself or its `.cmd` fallback) is an `Output` carrying its exit code, non-zero included, not an error. |
| Bridge.ProviderNamed | plugins/productivity-cockpit/skills/cockpit/bridge.py:78-118 | A provider name is recognised iff it is one of the four registry keys, and it maps back to that name. |
| Bridge.ProviderNamesListed | plugins/productivity-cockpit/skills/cockpit/bridge.py:78-118 | Every provider is listed and round-trips through its name. The supported list in the error message is sorted. |
| Bridge.BuildRequest | plugins/productivity-cockpit/skills/cockpit/bridge.py:78-127 | Every provider's request carries the prompt unchanged and a JSON content type, and sends the API key iff the provider needs one (not `ollama`). The model sent is the given one when truthy and the provider default otherwise; for `google` it is the text formatted into the URL, which for a string model is the same. |
| Bridge.FalsyModelIsDefault | plugins/productivity-cockpit/skills/cockpit/bridge.py:84-111 | A falsy model of any JSON type (`""`, `null`, `false`, `0`, `[]`, `{}`) is sent as the provider's default model. |
| Bridge.PyGet | plugins/productivity-cockpit/skills/cockpit/bridge.py:86-114 | Python's `dict.get`: a missing key gives the default, and a non-dict raises. |
| Bridge.PyFirst | plugins/productivity-cockpit/skills/cockpit/bridge.py:86-114 | `[0]` on an empty list raises "list index out of range". |
| Bridge.ParseResponse | plugins/productivity-cockpit/skills/cockpit/bridge.py:86-114 | A non-object response raises, and an empty object parses to "". |
| Bridge.ParseEmptyListRaises | plugins/productivity-cockpit/skills/cockpit/bridge.py:86-104 | An empty `content`/`choices`/`candidates` list raises instead of giving "". |
| Bridge.ParseAnthropicText | plugins/productivity-cockpit/skills/cockpit/bridge.py:86 | The text of the first content block is the result. |
| Bridge.ParseOpenAIText | plugins/productivity-cockpit/skills/cockpit/bridge.py:95 | The `message.content` of the first choice is the result. |
| Bridge.ParseGoogleText | plugins/productivity-cockpit/skills/cockpit/bridge.py:104 | The `text` of the first part of the first candidate's `content` is the result. |
| Bridge.ParseOllamaText | plugins/productivity-cockpit/skills/cockpit/bridge.py:113 | The `response` field is the result, and "" when it is absent. |
| Bridge.ExecApi | plugins/productivity-cockpit/skills/cockpit/bridge.py:76-137 | A list or dict as the provider makes the registry test raise, with nothing sent. An unknown provider gives an error listing the supported set sorted, with no request sent. A missing key gives an error naming the environment variable, with no request sent. Otherwise exactly the request built from the key, model and prompt is sent, so `ollama` always sends. At most one request is sent. A reply that decodes and parses gives stdout = the parsed text, stderr "" and exit code 0, and every success is such a reply. An HTTP error becomes "<provider> API error (<code>): <body>". A transport failure, an undecodable reply and a parser exception each become "<provider> API call failed: <reason>". |
| Bridge.ParseFailureIsCallFailure | plugins/productivity-cockpit/skills/cockpit/bridge.py:124-137 | Any exception the response parser raises ends as "<provider> API call failed: <message>". |
| Bridge.EmptyListIsCallFailure | plugins/productivity-cockpit/skills/cockpit/bridge.py:126-137 | A reply with an empty list ends as "<provider> API call failed: list index out of range". |
| Bridge.ReplyFor | plugins/productivity-cockpit/skills/cockpit/bridge.py:192-196 | A result with an `error` key is answered 500, and every other result is returned with 200. |
| Bridge.HandlePost | plugins/productivity-cockpit/skills/cockpit/bridge.py:168-219 | An unreadable body is a 500 "Invalid JSON". Only `/api/fs/write` changes files, and only `/api/exec` spawns or sends. Any other path is a 404. A 403 leaves the files untouched. |
| Bridge.ExecUsesConfig | plugins/productivity-cockpit/skills/cockpit/bridge.py:176-186 | A POST to `/api/exec` reads the loaded config, whose `ai` section always holds the default keys. |
| Bridge.ExecRunsCli | plugins/productivity-cockpit/skills/cockpit/bridge.py:176-196 | Outside `api` mode, with the config's `args` a list, the request's or the config's CLI runs with those args followed by the request's prompt (or ""). Nothing is sent over the network, no file changes, and the reply is 500 iff the run errs. |
| Bridge.ExecNeedsListArgs | plugins/productivity-cockpit/skills/cockpit/bridge.py:189-191 | Outside `api` mode a config `args` that is not a list makes `args + [prompt]` raise: no reply, nothing run, nothing written. |
| Bridge.PromptIsLastArgument | plugins/productivity-cockpit/skills/cockpit/bridge.py:45-63 | When a whitelisted CLI is spawned, the prompt is the last argument of the command line. |
| Bridge.ExecCallsApiInApiMode | plugins/productivity-cockpit/skills/cockpit/bridge.py:176-190 | In `api` mode the request's provider, model and prompt are passed on, else the config's provider and model and "", whatever their JSON types. Nothing is spawned, no file changes, and the reply mirrors the API result. |
| Bridge.FirstFileAncestor | plugins/productivity-cockpit/skills/cockpit/bridge.py:209-212 | Finds the first proper prefix of the target that is a file, which is where `mkdir(parents=True)` fails. |
| Bridge.WriteFile | plugins/productivity-cockpit/skills/cockpit/bridge.py:209-215 | At most the target file changes, no file or directory disappears. A file among the target's ancestors gives a 500 and changes nothing. Otherwise every parent exists afterwards, and string `content` written to a target that is not a directory succeeds and stores exactly the content. Success needs exactly these conditions. Non-string content never succeeds, and leaves the target either untouched or truncated to "". |
| Bridge.WriteOutsideRootForbidden | plugins/productivity-cockpit/skills/cockpit/bridge.py:201-208 | With the corrected, segment-wise containment test (see Findings), a path resolving outside the project root is answered 403, and nothing is written. |
| Bridge.WritesStayInsideRoot | plugins/productivity-cockpit/skills/cockpit/bridge.py:198-215 | With the corrected containment test (see Findings), no request creates or changes a file outside the project root, and no file is removed. |
| Bridge.WriteStoresContent | plugins/productivity-cockpit/skills/cockpit/bridge.py:209-213 | A successful write had a string `path` and a string `content`, and stores that content at the resolved path, changing nothing else. |
| Bridge.ValidWriteSucceeds | plugins/productivity-cockpit/skills/cockpit/bridge.py:201-213 | With the corrected containment test (see Findings): string content for a path inside the root, below no file and not itself a directory, is answered `{"success": true}`. Its parents then exist and the content is stored there, with nothing spawned or sent. |
| Bridge.WithinRootPassesAsWritten | plugins/productivity-cockpit/skills/cockpit/bridge.py:204 | Every path inside the root also passes the source's string-prefix test, so the segment check is no stricter on legitimate paths. |
| Bridge.AsWrittenGuardAdmitsSibling | plugins/productivity-cockpit/skills/cockpit/bridge.py:202-208 | For any root `parent/name`, the path `../<name><suffix>/<file>` resolves to the sibling `parent/<name><suffix>/<file>`, outside the root, yet passes the string-prefix test. For example, root `/w/proj` admits `../proj-evil/x`. |
| Bridge.RunServer | plugins/productivity-cockpit/skills/cockpit/bridge.py:234-248 | The retry loop computes the recursive retry on port+1, which ends at the first port out of 0..65535. On the bound port `load_config` runs, and its failure ends startup. |
| Bridge.StartFromSkipsOnlyBusyPorts | plugins/productivity-cockpit/skills/cockpit/bridge.py:243-248 | Every skipped port was in range and failed with errno 98 or 10048. The server binds the first port that does not fail. Any other errno is re-raised on its own port. A start port out of range, or running past 65535, ends in the `OverflowError` of `bind`, which the `except OSError` does not catch. A bound port serves iff the configuration loads; otherwise `load_config`'s exception ends startup there. |
| Template.ProjectNameFrom | plugins/repo-structure/scripts/generate-template.py:44-59 | A name taken from the remote is non-empty and dot-free. Otherwise the directory name is used. |
| Template.GithubUsername | plugins/repo-structure/scripts/generate-template.py:62-76 | A username found is a non-empty segment without `/`. |
| Template.HttpsRemote | plugins/repo-structure/scripts/generate-template.py:51-70 | `https://github.com/<user>/<name>.git` yields the project name `<name>` without `.git` (lines 51-53) and the user `<user>` (lines 68-70). |
| Template.DottedNameNotRecognised | plugins/repo-structure/scripts/generate-template.py:51 | A repository name containing a dot is not matched by the repo pattern. |
| Template.ScpFallbacksAreDead | plugins/repo-structure/scripts/generate-template.py:51-72 | Wherever the `git@` repo pattern (line 54) or user pattern (line 71) matches, the first pattern of the same function already matched, so neither fallback is ever taken. |
| Template.NormKey | plugins/repo-structure/scripts/generate-template.py:278 | A normalised key keeps its length and has no `-`. |
| Template.Provided | plugins/repo-structure/scripts/generate-template.py:277-279 | The provided keys after normalisation are exactly the keys of the result. |
| Template.StoreProvided | plugins/repo-structure/scripts/generate-template.py:276-279 | The first loop stores each provided pair under its normalised key, so the result holds exactly the normalised provided keys, the last value winning. |
| Template.FillAbsent | plugins/repo-structure/scripts/generate-template.py:282-316 | Each `if key not in vars` loop computes successive `setdefault`s: keys already present keep their values and each missing key gets the first value given for it. |
| Template.ProvidedLastWins | plugins/repo-structure/scripts/generate-template.py:277-279 | A later provided key overwrites an earlier one with the same normalised name. |
| Template.ResolveVariables | plugins/repo-structure/scripts/generate-template.py:269-370 | The step-by-step fill of `vars` computes the layered variables followed by the derived ones. |
| Template.LayeredFills | plugins/repo-structure/scripts/generate-template.py:277-316 | Provided values are kept. Detected values fill only absent keys, and so do defaults. |
| Template.ProvidedTakesPriority | plugins/repo-structure/scripts/generate-template.py:277-279 | The final variables keep a provided value that no derivation overwrites. |
| Template.DetectedFillsAbsent | plugins/repo-structure/scripts/generate-template.py:283-301 | A detected value is used for a key that was not provided. |
| Template.DefaultFillsAbsent | plugins/repo-structure/scripts/generate-template.py:303-316 | A default is used for a key that was neither provided nor detected. |
| Template.ProjectNameNeverDefaulted | plugins/repo-structure/scripts/generate-template.py:283-313 | PROJECT_NAME is detected (from the remote or the directory) before the defaults are applied, so an unprovided name is never "my-project" from the defaults table. |
| Template.DeriveVariables | plugins/repo-structure/scripts/generate-template.py:318-368 | The derivation steps in sequence compute the derived variables. |
| Template.SetCommands | plugins/repo-structure/scripts/generate-template.py:323-337 | The commands set for the primary language. |
| Template.SetBadges | plugins/repo-structure/scripts/generate-template.py:345-351 | The badge and repository URLs. |
| Template.SetPackage | plugins/repo-structure/scripts/generate-template.py:354-359 | The package registry URL for the language. |
| Template.SetNameForms | plugins/repo-structure/scripts/generate-template.py:362-368 | The four name forms. |
| Template.BadgesIffUserAndRepo | plugins/repo-structure/scripts/generate-template.py:340-351 | CI_BADGE and GITHUB_REPO_URL are set iff both the user name and the project name are non-empty. The URL is `https://github.com/<user>/<repo>`. |
| Template.NameForms | plugins/repo-structure/scripts/generate-template.py:362-368 | SNAKE is the name with `-`→`_` and has no `-`. KEBAB is the name with `_`→`-` and has no `_`. UPPER is SNAKE upper-cased, with no lower-case letter. PASCAL has no space. |
| Template.EvaluateCondition | plugins/repo-structure/scripts/generate-template.py:373-397 | A name outside the fixed condition table is true iff its upper-cased variable is non-empty. |
| Template.ConditionIgnoresCase | plugins/repo-structure/scripts/generate-template.py:375 | A condition gives the same answer as its upper-cased name. |
| Template.MatchBlock | plugins/repo-structure/scripts/generate-template.py:405 | A matched block has a valid name and spans its body plus at least ten tag characters. |
| Template.PassOfBlock | plugins/repo-structure/scripts/generate-template.py:405-419 | A block `{{#[^]X}}body{{/X}}` is replaced by its body iff the (possibly negated) condition holds, and otherwise removed. |
| Template.BareCaretIsNotABlock | plugins/repo-structure/scripts/generate-template.py:405 | Text starting with `{{^` never opens a block. |
| Template.PassShrinksOrFixes | plugins/repo-structure/scripts/generate-template.py:421-425 | One rewriting pass either changes nothing or strictly shortens the text, which is why the loop ends. |
| Template.ConditionalsIsFixedPoint | plugins/repo-structure/scripts/generate-template.py:421-443 | The iterated result is a fixed point of the pass, so running the elimination again on its own result, as the second `process_conditionals` call does, changes nothing. |
| Template.ProcessConditionals | plugins/repo-structure/scripts/generate-template.py:403-427 | The `while prev != content` loop ends with the fixed point. |
| Template.MatchPlaceholder | plugins/repo-structure/scripts/generate-template.py:431 | A matched placeholder is `{{NAME}}` with a valid name at the start of the text. |
| Template.SubstitutePlaceholder | plugins/repo-structure/scripts/generate-template.py:429-437 | `{{NAME}}` becomes the variable's value when defined, and otherwise stays verbatim. |
| Template.SingleSubstitutionPass | plugins/repo-structure/scripts/generate-template.py:437 | An inserted value is not rescanned: `{{A}}` with A = `{{B}}` stays `{{B}}`. |
| Template.RenderTemplate | plugins/repo-structure/scripts/generate-template.py:400-448 | Rendering is the conditional fixed point followed by one substitution pass. |
| SyncDocs.ComponentNameAtStart | scripts/sync-docs.py:40-41 | Front matter at the start of the file gives the stripped `name:` value. |
| SyncDocs.FrontmatterNameUsed | scripts/sync-docs.py:40-58 | `---\nname: value` yields `value`, stripped, for a command or agent file and likewise for a `SKILL.md`. |
| SyncDocs.EmptyNameTakesNextLine | scripts/sync-docs.py:40 | With an empty `name:` the `\s*` crosses the newline, and the next line becomes the name. |
| SyncDocs.NoFrontmatterUsesFallback | scripts/sync-docs.py:41-58 | With no `---` the file stem is used for a command or agent (line 41) and the directory name for a `SKILL.md` (line 58). |
| SyncDocs.ScanComponent | scripts/sync-docs.py:31-43 | One name per file, each the front-matter name or the stem. |
| SyncDocs.ScanSkills | scripts/sync-docs.py:46-60 | Only directories with a `SKILL.md` contribute, each with its front-matter name or the directory name. Every such name is listed and nothing else is. When every directory has one, there is one name per directory, in order. |
| SyncDocs.FirstParagraph | scripts/sync-docs.py:63-70 | The scan loop computes the first qualifying paragraph. |
| SyncDocs.FirstParagraphIsProse | scripts/sync-docs.py:63-70 | The result has at most 200 characters. It is "" iff no stripped line qualifies, and otherwise it starts with neither `#`, `!` nor a space. |
| SyncDocs.Description | scripts/sync-docs.py:136-142 | The description is never empty. A truthy manifest description wins, then the marketplace entry's. When neither is truthy, the README's first paragraph is used if the README exists and the paragraph is non-empty, and otherwise "—". |
| SyncDocs.CollectPluginData | scripts/sync-docs.py:120-158 | The loop collects exactly the plugins whose directory exists. |
| SyncDocs.CollectedWellFormed | scripts/sync-docs.py:122-158 | Every collected plugin has an existing directory and a non-empty description. |
| SyncDocs.Truncate | scripts/sync-docs.py:177-179 | At most 80 characters. A longer description becomes its first 77 characters plus "...", and a shorter one is unchanged. |
| SyncDocs.ComponentsCellDash | scripts/sync-docs.py:170-175 | The components cell is "—" iff there are no commands, skills or agents and no hooks. |
| SyncDocs.Rows | scripts/sync-docs.py:169-183 | One row per plugin, in order. |
| SyncDocs.FormatRow | scripts/sync-docs.py:169-183 | The body of the table loop builds exactly the row of the plugin: components cell, description cut to 80 characters, and the four other cells. |
| SyncDocs.TableLines | scripts/sync-docs.py:165-184 | Two header lines plus one row per plugin. |
| SyncDocs.MakeReadmeTable | scripts/sync-docs.py:164-184 | The loop's lines joined with newlines are the table. |
| SyncDocs.SubRegionsOfBlock | scripts/sync-docs.py:197-203 | A text with a marked region has the region between the markers replaced. |
| SyncDocs.SubRegionsNoEnd | scripts/sync-docs.py:197-203 | A start marker without an end marker leaves the text unchanged. |
| SyncDocs.InsertedBeforeStable | scripts/sync-docs.py:205-210 | Inserting before a heading yields a text that the splice then leaves unchanged. |
| SyncDocs.AppendedStable | scripts/sync-docs.py:211-212 | Appending at the end yields a text that the splice then leaves unchanged. |
| SyncDocs.SplicedTwice | scripts/sync-docs.py:194-212 | Splicing the same table twice equals splicing it once. |
| SyncDocs.RewriteCountBadge | scripts/sync-docs.py:214-216 | `plugins-<digits>` becomes `plugins-<count>`, and the rest is rewritten the same way. |
| SyncDocs.RewriteCountNoBadge | scripts/sync-docs.py:216 | A text without `plugins-` is unchanged. |
| SyncDocs.UpdateReadme | scripts/sync-docs.py:187-224 | With the corrected, literal splice (see Findings): no README means nothing is written. Otherwise the spliced, badge-rewritten text is written iff it differs from the old text. |
| SyncDocs.AsWrittenAgreesWithoutBackslash | scripts/sync-docs.py:198-203 | Without a backslash in the table, the `re.sub` splice equals the literal splice. |
| SyncDocs.AsWrittenSpliceMangles | scripts/sync-docs.py:198-203 | A table containing `C:\temp` is written with a tab instead of `\t`, and one containing `\d` raises. |
| SyncDocs.OctalEscapeRead | scripts/sync-docs.py:198-203 | As a replacement template, `\101` in the table is read as the octal escape for `A`. |
| SyncDocs.CommandLines | scripts/sync-docs.py:253-254 | One line `` - `/<plugin>:<command>` `` per command, in order. |
| SyncDocs.AppendCommands | scripts/sync-docs.py:250-254 | The commands block appended is empty for no commands, and otherwise a count heading, one `/<plugin>:<command>` line per command in order, and a blank line. |
| SyncDocs.AppendItems | scripts/sync-docs.py:255-264 | The skills and agents blocks are built the same way, one `- <item>` line per item. |
| SyncDocs.AppendPlugin | scripts/sync-docs.py:240-271 | Each plugin's block of lines is appended in order. |
| SyncDocs.GenerateInventory | scripts/sync-docs.py:229-284 | The content is the joined lines with the timestamp substituted. It is written iff it differs from the existing file. |
| SyncDocs.CommandLinesListed | scripts/sync-docs.py:250-254 | Every command of every plugin appears as its `/<plugin>:<command>` line in the inventory. |
| SyncDocs.PluginSectionSize | scripts/sync-docs.py:240-271 | A plugin's section has 8 lines, plus 2 and the item count for each non-empty list, plus 2 for hooks. |
| Cockpit.PhaseHeading | plugins/productivity-cockpit/skills/cockpit/assets/js/app.js:437 | A heading is `## ` followed by a name starting `Phase ` with no line terminator. |
| Cockpit.PhaseHeadingOf | plugins/productivity-cockpit/skills/cockpit/assets/js/app.js:437 | `## Phase N:title` is recognised and gives `Phase N:title`. |
| Cockpit.CrlfHeadingIsIgnored | plugins/productivity-cockpit/skills/cockpit/assets/js/app.js:435-437 | A line ending in `\r` is never a phase heading. |
| Cockpit.CheckboxTextOf | plugins/productivity-cockpit/skills/cockpit/assets/js/app.js:439 | `- [m] title` with m one of space, x or X gives the title. |
| Cockpit.TaskId | plugins/productivity-cockpit/skills/cockpit/assets/js/app.js:441 | The id is the first `T<digits>` in the text, with every digit taken. There is none iff no `T` is followed by a digit. |
| Cockpit.CleanTitleOfBoldId | plugins/productivity-cockpit/skills/cockpit/assets/js/app.js:442 | `**T1** rest` becomes `rest`. |
| Cockpit.CleanTitleOfPlainId | plugins/productivity-cockpit/skills/cockpit/assets/js/app.js:442 | `T1 rest` becomes `rest`. |
| Cockpit.TagsOfBracketed | plugins/productivity-cockpit/skills/cockpit/assets/js/app.js:443 | Each `[...]` contributes its content as a tag, in order. |
| Cockpit.CriticalInAnyCase | plugins/productivity-cockpit/skills/cockpit/assets/js/app.js:444 | "critical" in any case marks the task critical. |
| Cockpit.NotCriticalWithoutWord | plugins/productivity-cockpit/skills/cockpit/assets/js/app.js:444 | Without that word the task is not critical. |
| Cockpit.UppercaseMarkIsUnchecked | plugins/productivity-cockpit/skills/cockpit/assets/js/app.js:439-444 | `- [X] title` is a task but is not checked. |
| Cockpit.ParseTasks | plugins/productivity-cockpit/skills/cockpit/assets/js/app.js:434-452 | The line loop computes the parser run over the split lines. |
| Cockpit.PreambleIgnored | plugins/productivity-cockpit/skills/cockpit/assets/js/app.js:439 | Lines before the first phase heading have no effect. |
| Cockpit.PhaseNamesOf | plugins/productivity-cockpit/skills/cockpit/assets/js/app.js:437-438 | The phases are exactly the headings, in order. |
| Cockpit.HeadingOpensEmptyPhase | plugins/productivity-cockpit/skills/cockpit/assets/js/app.js:438 | A heading appends an empty phase and clears the current task. |
| Cockpit.TaskLineAddsTask | plugins/productivity-cockpit/skills/cockpit/assets/js/app.js:439-445 | Under a phase, a checkbox line appends a new task to the last phase. |
| Cockpit.SubtaskLineAddsSubtask | plugins/productivity-cockpit/skills/cockpit/assets/js/app.js:447-448 | An indented checkbox line appends a subtask to the current task. |
| Cockpit.ProseLineBecomesNote | plugins/productivity-cockpit/skills/cockpit/assets/js/app.js:449 | An indented prose line is appended to the current task's notes with "\n". |
| Cockpit.UpdateKPIs | plugins/productivity-cockpit/skills/cockpit/assets/js/app.js:310-313 | The counters are the total number of tasks, the checked ones, and the critical unchecked ones. Completed plus blockers is at most the total. |
| Cockpit.NoBlockersWhenAllChecked | plugins/productivity-cockpit/skills/cockpit/assets/js/app.js:312 | With every task checked there are no blockers and completed equals the total. |
| Cockpit.ProgressPercent | plugins/productivity-cockpit/skills/cockpit/assets/js/app.js:313 | `Math.round` of the percentage: undefined iff there are no tasks, otherwise at most 100, 100 when all are complete, and 0 iff under half a percent. |
| Cockpit.Filter | plugins/productivity-cockpit/skills/cockpit/assets/js/app.js:517-518 | An item is kept iff its title, id or sub contains the lower-cased query, case-insensitively. |
| Cockpit.Spotlight | plugins/productivity-cockpit/skills/cockpit/assets/js/app.js:518 | At most 8 items. They are the first matches in index order, and fewer than 8 means all matches. |
| Cockpit.EmptyQueryShowsFirstEntries | plugins/productivity-cockpit/skills/cockpit/assets/js/app.js:508-518 | Opening the spotlight with an empty query lists the first 8 entries. |
| Cockpit.TaskEntries | plugins/productivity-cockpit/skills/cockpit/assets/js/app.js:241-243 | One `task` entry per parsed task, with its title and id. |
| Cockpit.TimerTextReadsBack | plugins/productivity-cockpit/skills/cockpit/assets/js/app.js:564-568 | The display is `m:ss`. Reading it back gives minutes × 60 + seconds = the counter, with the seconds part two digits below 60. |
| Cockpit.FreshTimerText | plugins/productivity-cockpit/skills/cockpit/assets/js/app.js:24 | The initial 25 × 60 seconds display as `25:00`. |
| Cockpit.FocusTimer.Tick | plugins/productivity-cockpit/skills/cockpit/assets/js/app.js:554-558 | Each tick counts down by one. Reaching zero stops the timer and resets it to 1500 seconds. |
| Cockpit.FocusTimer.Toggle | plugins/productivity-cockpit/skills/cockpit/assets/js/app.js:551-560 | Start and pause flip the running state and keep the remaining time. |
| Cockpit.FocusTimer.Display | plugins/productivity-cockpit/skills/cockpit/assets/js/app.js:564-568 | The minutes part of the display is the counter divided by 60. |
| Cockpit.BranchOfSymbolicRef | plugins/productivity-cockpit/skills/cockpit/assets/js/app.js:583 | `ref: refs/heads/<name>\n` shows `<name>`. |
| Cockpit.DetachedHeadShowsShortHash | plugins/productivity-cockpit/skills/cockpit/assets/js/app.js:583 | A detached HEAD shows its first 7 characters. |
| Score.DocstringPoints | plugins/repo-structure/scripts/calculate-score.py:150-166 | The points are `int(ratio * 2)`, where the ratio compares the docstring blocks found in the first ten `.py` files with the number of all `.py` files, capped at 1. They lie in 0..2. They are 2 iff there is a `.py` file and at least as many blocks as files, and 0 iff there are no blocks, no files, or fewer blocks than half the files. |
| Score.ScoreReadme | plugins/repo-structure/scripts/calculate-score.py:120-147 | The seven `+=` steps compute the README points, which are at most 12 (see DocumentationBounds). |
| Score.ScoreApi | plugins/repo-structure/scripts/calculate-score.py:148-186 | The docstring, annotation and docs-directory steps compute the API points, at most 5. |
| Score.ScoreAdditional | plugins/repo-structure/scripts/calculate-score.py:188-206 | The four file and directory checks compute the additional-documentation points, at most 5. |
| Score.ScoreDocumentation | plugins/repo-structure/scripts/calculate-score.py:106-228 | The `+=` steps compute the documentation sub-scores. |
| Score.DocumentationBounds | plugins/repo-structure/scripts/calculate-score.py:120-226 | readme ≤ 12, api ≤ 5, additional ≤ 5, inline ≤ 1, and the total is at most 23. Without README.md everything is 0. |
| Score.AnyFileOf | plugins/repo-structure/scripts/calculate-score.py:270-274 | The loop finds a file iff one of the listed paths exists. |
| Score.ScoreSecurity | plugins/repo-structure/scripts/calculate-score.py:235-342 | The `+=` steps compute the security sub-scores. |
| Score.SecurityBounds | plugins/repo-structure/scripts/calculate-score.py:244-340 | policy ≤ 8, dependencies ≤ 5, scanning ≤ 6, practices ≤ 3, and the total is at most 22. SECURITY.md exists iff the policy score is at least 3. |
| Score.FindCoverage | plugins/repo-structure/scripts/calculate-score.py:387-403 | With the corrected single-read probe (see Findings), the loop finds coverage iff some candidate config mentions it. |
| Score.FindCiWorkflow | plugins/repo-structure/scripts/calculate-score.py:419-433 | With the corrected single-read probe (see Findings), the loop finds a workflow with the property iff one exists. |
| Score.ScoreCicd | plugins/repo-structure/scripts/calculate-score.py:349-479 | With the corrected single-read probes (see Findings), the `+=` steps compute the CI/CD sub-scores. |
| Score.CiBounds | plugins/repo-structure/scripts/calculate-score.py:360-477 | testing ≤ 10, 1 ≤ integration ≤ 8, 1 ≤ quality ≤ 4, deployment ≤ 3, and the total lies in 2..25. |
| Score.PytestCovMissedAsWritten | plugins/repo-structure/scripts/calculate-score.py:398 | A config mentioning only `pytest-cov` is missed by the double read, but found by the intended check. |
| Score.PushOnlyMissedAsWritten | plugins/repo-structure/scripts/calculate-score.py:423 | A workflow triggered only `on: [push]` is missed by the double read, but found by the intended check. |
| Score.AsWrittenProbesAreWeaker | plugins/repo-structure/scripts/calculate-score.py:398-423 | Whatever the as-written coverage probe (line 398) or trigger probe (line 423) detects, the intended one detects too. |
| Score.FirstLicenseFile | plugins/repo-structure/scripts/calculate-score.py:496-506 | The first existing license file in list order, or none iff none exists. |
| Score.ScoreLicense | plugins/repo-structure/scripts/calculate-score.py:495-513 | The licence steps compute the licence points: 3 for a licence file, 2 more if the first one found names an OSI licence, and 1 for a `license` field in `package.json`. |
| Score.ScoreContribution | plugins/repo-structure/scripts/calculate-score.py:515-537 | The four contribution steps compute the contribution-process points, at most 8. |
| Score.ScoreCommunity | plugins/repo-structure/scripts/calculate-score.py:486-593 | The `+=` steps compute the community sub-scores. |
| Score.CommunityBounds | plugins/repo-structure/scripts/calculate-score.py:495-591 | license ≤ 6, contribution ≤ 8, health ≤ 5, 1 ≤ docs quality ≤ 4, and the total lies in 1..23. |
| Score.NormalizedWeights | plugins/repo-structure/scripts/calculate-score.py:605-609 | A non-empty set of weights summing to 0 raises (None). No weights at all give no weights, since the comprehension divides nothing. Otherwise the keys are kept in order, and weights summing to 100 are unchanged. |
| Score.RescaledSum | plugins/repo-structure/scripts/calculate-score.py:609 | Rescaling multiplies the sum by 100 over the total. |
| Score.NormalizedSumIs100 | plugins/repo-structure/scripts/calculate-score.py:605-609 | Normalised weights sum to 100, and the default weights of lines 32-37 already sum to 100 and are left as they are. |
| Score.Lookup | plugins/repo-structure/scripts/calculate-score.py:625-628 | A key's weight is found iff some entry has that key. |
| Score.Overall | plugins/repo-structure/scripts/calculate-score.py:605-629 | The weighted total fails iff the weights sum to 0 or a category is missing (`KeyError`). |
| Score.DefaultOverallIsSum | plugins/repo-structure/scripts/calculate-score.py:624-629 | Under the default weights (25 each, lines 32-37) the overall score is the plain sum of the four totals. |
| Score.HelpExampleWeightsRaise | plugins/repo-structure/scripts/calculate-score.py:625-628 | Weights naming only documentation and security raise. |
| Score.GradeFrom | plugins/repo-structure/scripts/calculate-score.py:632-638 | The grade found by the threshold scan is one of the five rows of the grade table (lines 40-46), or the initial value. |
| Score.GradeFor | plugins/repo-structure/scripts/calculate-score.py:631-638 | The threshold loop returns the first grade whose threshold the score reaches. |
| Score.GradeBands | plugins/repo-structure/scripts/calculate-score.py:632-638 | Following the table's thresholds (lines 40-46) in order, ≥95 is Outstanding, 85–95 Excellent, 70–85 Good, 50–70 Poor, and below 50 Critical. |
| Score.OutstandingUnreachableByDefault | plugins/repo-structure/scripts/calculate-score.py:624-629 | Under the default weights the score is at most 93, so the "Outstanding" row (95 and up, lines 40-46) is never chosen. |
| Score.DocumentationIssues | plugins/repo-structure/scripts/calculate-score.py:644-660 | A README issue iff readme < 12, and a docs issue iff additional < 5. No other issue value is listed, and the list is in check order. |
| Score.SecurityIssues | plugins/repo-structure/scripts/calculate-score.py:662-678 | The policy issue is critical iff policy < 3 and a warning iff 3 ≤ policy < 8. The dependency issue appears iff dependencies < 8. No other issue value is listed, and the list is in check order. |
| Score.CiIssues | plugins/repo-structure/scripts/calculate-score.py:680-688 | A testing issue (a warning) iff testing < 10, and nothing else. |
| Score.CommunityIssues | plugins/repo-structure/scripts/calculate-score.py:690-706 | A license issue iff license < 6, and a contribution issue iff contribution < 8. No other issue value is listed, and the list is in check order. |
| Score.BuildIssues | plugins/repo-structure/scripts/calculate-score.py:640-706 | Each of the eight issues is present iff its condition holds, no other issue value is listed, there are at most 7 issues, and they appear in the order of the checks. |
| Score.IssuesDetermined | plugins/repo-structure/scripts/calculate-score.py:640-706 | The issue list is fixed by the scores: two lists in check order that each hold exactly the failing checks' issues are equal, so the list is exactly the one the checks append. |
| Score.CategoryIssues | plugins/repo-structure/scripts/calculate-score.py:756-784 | An issue is in a category's list iff it is in the overall list with that category. |
| Score.CategoryIssuesPartition | plugins/repo-structure/scripts/calculate-score.py:756-784 | The four category lists together hold exactly as many issues as the overall list. |
| Score.RecommendationFor | plugins/repo-structure/scripts/calculate-score.py:709-740 | Each recommendation belongs to its category, and only the community one is medium priority. |
| Score.BuildRecommendations | plugins/repo-structure/scripts/calculate-score.py:708-740 | A category's recommendation is present iff its total is below 20 (documentation) or 18 (the others). |
| Score.CategoryReports | plugins/repo-structure/scripts/calculate-score.py:742-785 | Four reports, each with maximum 25 and the category's filtered issues. |
| Score.CalculateScore | plugins/repo-structure/scripts/calculate-score.py:600-790 | With the corrected probes (see Findings): the report fails iff the scorers raise (a `README.md` that is a directory, or a `package.json` whose reading raises) or the weighted total raises. With the default weights, only the scorers can make it fail. Its score is the weighted total of the four category totals under the given or default weights. Its grade and emoji are the band of that score. It has four categories with their filtered issues. Each of the eight issues is present iff its check fails, no other issue is listed, and the issues are in check order with at most 7 of them (so, by `Score.IssuesDetermined`, the list is the one the checks append). Each recommendation iff its total is below the threshold, and the dependency warning is always present. |
| Studio.FindAvailablePort | plugins/plugin-studio/server/index.js:45-57 | The result is the first port at or above the start that is free and at most 3857. Every earlier one is busy. There is none iff all ports up to 3857 are busy. |
| Studio.StartupPort | plugins/plugin-studio/server/index.js:24-25 | The search starts at 3847 and tries up to 3857, so the server started at line 159 runs on the lowest free port of 3847..3857. |
| Studio.ResolveClean | plugins/plugin-studio/server/index.js:94 | A joined path has no empty, `.` or `..` segment. |
| Studio.ResolveWithoutParentStaysInside | plugins/plugin-studio/server/index.js:94-97 | Joining segments without `..` stays under the base. |
| Studio.PlainRequestsPassGuard | plugins/plugin-studio/server/index.js:93-101 | A URL without a `..` segment is never refused. |
| Studio.ParentRequestForbidden | plugins/plugin-studio/server/index.js:93-101 | `/..` climbs out of the distribution directory and is refused. |
| Studio.ContentType | plugins/plugin-studio/server/index.js:114-115 | An extension of the table gets that entry's type. The type is `application/octet-stream` iff the extension is not in the table. |
| Studio.KnownExtensionLookup | plugins/plugin-studio/server/index.js:27-39 | Each extension of the table looks up its own entry, since the table's keys are distinct. |
| Studio.IndexIsHtml | plugins/plugin-studio/server/index.js:105-115 | The index fallback is served as `text/html`, the `.html` entry of the table at lines 27-39. |
| Studio.UpperCaseExtensionUnknown | plugins/plugin-studio/server/index.js:114-115 | `.HTML` is not in the table and gets the default type. |
| Studio.DotfileHasNoExtension | plugins/plugin-studio/server/index.js:114 | A dot file such as `.env` has no extension. |
| Studio.Extname | plugins/plugin-studio/server/index.js:114 | `path.extname`: empty iff the name has no dot after its first character or is `..`, and otherwise the suffix from the last dot, holding no other dot. |
| Studio.ServeStatic | plugins/plugin-studio/server/index.js:92-118 | 403 iff the joined path leaves the directory. 404 iff inside but neither the file nor the index exists. Otherwise the file, or the index when the file is missing or a directory, is served with its MIME type, and it is always inside the directory. |
| Studio.HandleRequest | plugins/plugin-studio/server/index.js:124-135 | The stub is answered iff the URL starts with `/api/`. Any other URL is answered as `serveStatic` answers it: 403 iff the joined path leaves the directory, 404 iff inside but neither the file nor the index exists, and otherwise the file or the index. Every served file lies inside the directory and carries its MIME type. |
| Text.JoinSplit | plugins/productivity-cockpit/skills/cockpit/assets/js/app.js:435 | Splitting on a character and joining with it gives the text back. |
| Text.DigitsValueOfNatToString | plugins/productivity-cockpit/skills/cockpit/assets/js/app.js:567 | A number's decimal text reads back as the number. |

## Left out

- Real processes, HTTP, sockets, the browser launcher, PID files and signals are not modelled. Their outcomes are function parameters (`Bridge.Host`, `Bridge.Net`) or sets (busy ports, bind failures).
- Regular expressions in general are not modelled. Only the patterns the code uses are written as string functions.
- The score probes that `calculate-score.py` evaluates with regular expressions, `glob` or `subprocess` are recorded as facts of the repository: docstring and annotation counts, comment density, secret patterns, git log. So is `package.json` parsing.
- Floating point is modelled as `real`. The `round(…, 1)`, the percentages and the per-category breakdown of the report are left out.
- JSON output, the timestamp and `get_git_info` are not modelled. Dictionary key order in JSON replies is not observable in the model.
- Case folding and digits are ASCII only. Python's `lower`/`upper`/`title` and JavaScript's `toLowerCase` on non-ASCII letters are not modelled. Nor is Python's Unicode `\d` in the `plugins-\d+` badge rewrite (`SyncDocs.RewriteCount`), which also matches non-ASCII digits. JavaScript strings count UTF-16 code units where the model counts characters, so the seven-character cut of a detached `HEAD` (`Cockpit.BranchLabel`) differs when the text holds characters outside the Basic Multilingual Plane.
- Path canonicalisation is modelled as segment-list normalisation. Symlinks, Windows separators and `Path.resolve` against the real disk are not modelled.
- `ai_describe` (an optional network call in `sync-docs.py`) and `main` of every script are not modelled.
- The `GET` routes, `do_OPTIONS`, CORS headers and the startup banner of `bridge.py` are not modelled.
- DOM rendering, charts, markdown rendering, intervals, alerts and file-system handles in `app.js` are not modelled.
- `process_conditionals`' `is_negated` parameter is unused in the source and is not modelled.
- Template.Vars: template variables are strings. A `--vars-file` value of another JSON type (number, boolean, null, list or object) is not represented, nor is the `str()` that substitution would apply to it.
- Bridge.Json: JSON numbers are integers. Floating-point numbers in a request body or `.cockpit.json` are not represented.
- Bridge.FormatModel: Python's `str()` of a list or dict model is the parameter `Net.show`, not computed.
- Bridge.Host: `subprocess.run` is the parameter `Host.run`. A run given non-string arguments raises in Python, and the model leaves that outcome to `Host.run`.
- Bridge.StartFrom: each retry in `run_server` is a nested call, so Python raises `RecursionError` after about a thousand busy ports. The model retries up to port 65535 instead.
- SyncDocs.ExpandTemplate: a group reference such as `\g<0>` in the table is read as an error. Python's `re.sub` inserts the matched text (the old marked region) for it.
- The corrected definitions of the three Findings are the ones the rest of the model uses. `Bridge.RouteWrite` uses the segment-wise containment test, `SyncDocs.UpdateReadme` the literal splice, and `Score.ScoreCicd` the single-read probes. So the rows of those members and of their callers state the intended behaviour. The as-written behaviour is stated only by the Findings' members.
- Studio.ServeStatic: when `index.html` is itself a directory, the model answers 200 with the HTML type, as the source's status line does. Node then fails on the file stream, which the model does not represent.
- Cockpit.ProgressPercent: `Math.round` is applied to the exact ratio times 100, while JavaScript rounds the binary64 product. For 23 of 40 tasks JavaScript computes 57.49999999999999 and shows 57, where the model gives 58.
- Score.CalculateScore: a `--weights` object with a non-numeric value makes `sum` raise. `Weights` holds numbers only, so this outcome is not represented.
- SyncDocs.CollectPluginData: the error paths of `collect_plugin_data` are not modelled. These are: an entry without `"name"` raises KeyError, but `Entry.name` is always present; a manifest that parses to a truthy non-object (such as `[1]`) makes `manifest.get` raise AttributeError; a plugin `README.md` that is a directory makes `read_text` raise. A JSON `null` for `"version"` or `"category"` is printed as `None` in Python, while `Option` reads it as absent and falls back to the entry's version or "—". Non-string JSON values, which Python prints through `str()`, are not represented: every field is a string.
- Score.ScoreDocumentation: a `README.md` that is a directory is scored as absent. In Python `open` raises there; that outcome is stated by `Score.CalculateScore` through `Score.ScoringRaises`.
- Score.ScoreCicd: it takes the `package.json` facts as given. When reading the file raises (the fact `packageRaises`), that outcome is stated by `Score.CalculateScore` through `Score.ScoringRaises`. The same holds for `Score.ScoreCommunity`, which Python never reaches in that case.
- Score.Issue: an issue is its kind and severity. Its `message`, `impact` and `recommendation` texts are fixed by the kind and are not represented.
- Score.CategoryIssues: its contract states membership only. Order preservation holds by its definition as an in-order filter but is not stated as an ensures.
- Cockpit.FocusTimer.Display: only the minutes part is stated. The full text is `Cockpit.TimerText`, proved by `Cockpit.TimerTextReadsBack`.

## Findings

| source | as written | input that shows it | evidently intended | confidence | as-written member | corrected member |
|---|---|---|---|---|---|---|
| plugins/productivity-cockpit/skills/cockpit/bridge.py:204 | the write guard compares the resolved path and the root as strings, by prefix | root `/w/proj`, path `../proj-evil/x` (resolves to `/w/proj-evil/x`) | only paths inside the project root are writable | high, not executed | Bridge.AsWrittenGuardAdmitsSibling | Bridge.WritesStayInsideRoot |
| scripts/sync-docs.py:198-203 | the new table is passed to `re.sub` as a replacement template, so backslashes in it are escapes | a plugin description containing `C:\temp` (written as a tab) or `\d` (raises) | the table is inserted literally | high, not executed | SyncDocs.AsWrittenSpliceMangles | SyncDocs.SplicedTwice |
| plugins/repo-structure/scripts/calculate-score.py:398 | the second `f.read()` returns "" after the first has consumed the file, so the `pytest-cov` test never sees the text | a `pyproject.toml` whose only coverage mention is `pytest-cov` | either word in the file grants the coverage points | high, not executed | Score.PytestCovMissedAsWritten | Score.AsWrittenProbesAreWeaker |
| plugins/repo-structure/scripts/calculate-score.py:423 | same double read, so the `push` test never sees the text | a CI workflow with `on: [push]` only | a workflow run on pull request or push grants the points | high, not executed | Score.PushOnlyMissedAsWritten | Score.AsWrittenProbesAreWeaker |
