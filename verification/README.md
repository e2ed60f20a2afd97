# Grunt deployment script, modelled in Dafny

The repository is one `Gruntfile.js` that deploys a project by driving git,
tar, rsync, an interactive prompt and a regex-replace plugin. This project
models the logic the script itself contains between those calls.

- **Tag listing.** The `shell:gitListRemoteTags` callback turns the output
  of `git ls-remote --tags` into the ten greatest tag names, greatest first
  (`TagList`). It rests on a model of the JavaScript string operations it
  uses (`JsText`) and of the default `Array.prototype.sort` order
  (`LexOrder`). Strings are sequences of UTF-16 code units, so the order
  `sort()` applies is exactly lexicographic order on them.
- **Configure questions.** The `default`, `choices` and `when` functions of
  `prompt:configure` (`Prompts`), over the `deployment` section of the
  package manifest (`Manifest`).
- **Task sequence.** Grunt's task queue as a state machine (`Workflow`).
  `grunt.task.run` puts tasks at the front of the queue and
  `grunt.task.requires` checks earlier success. It covers the `default`
  and `deploy` sequences, the settings `deploy.configure` derives for rsync
  and regex-replace, and the `deploy.live` gate.
- **Default run.** An account of what `grunt` with no arguments does, written
  without the queue (`DefaultRun`). It gives the fixed order of the 17
  tasks (the two targets of `clean` counted as one), the step at which
  the run stops for given inputs, and the commands invoked. `DefaultRunFollowsTrace` proves the queue machine agrees with
  this account on every input. `Guarantees` derives what an operator can
  rely on from it.

Everything the run takes from outside is one `Env` record:

- the manifest;
- the repository URL;
- the output of `git ls-remote`;
- which external commands fail;
- the operator's four answers.

The external commands the run invokes are recorded in order, as a test
would observe them through mocks.

The model follows the code as written; points a reader may not expect:

- The production question is asked only when "prod" is chosen (the
  comment at `Gruntfile.js:75` says "Ask for confirmation if choice is
  'prod'"). Its answer is recorded but never read, so declining it stops
  nothing (`ProductionAnswerIgnored`).
- `grunt.fatal('Deployment aborted')` ends the run, so `clean` does not run
  after an abort (`CleanOnlyOnCompletion`).
- The tag-listing and `git describe` tasks pass their errors to a callback
  that ignores them, so a failing listing or describe does not stop the
  run.
- A server name missing from the manifest is noticed only by
  `deploy.configure`, after the export.
- Only one leading `refs/tags/` is removed from a tag name
  (`CleanLineStripsOnce`).
- Output made only of whitespace is not treated as empty: the callback
  throws on it (`BlankOutputIsRejected`).

## Model

| member | source | states |
|---|---|---|
| JsText.LeadingWhitespaceIsMaximal | Gruntfile.js:153 | what `^\s+` removes is whitespace, and it is the longest such prefix |
| JsText.TrailingWhitespaceIsMaximal | Gruntfile.js:153 | what `\s+$` removes is whitespace, and it is the longest such suffix |
| JsText.Trim | Gruntfile.js:153 | the regex replace of leading and trailing `\s+`: the longest whitespace prefix and then the longest whitespace suffix cut off; see `TrimIsTrimOf`, `TrimOfBlank` and `TrimIdempotent` |
| JsText.TrimIsTrimOf | Gruntfile.js:153 | the trimmed text is a slice of the output, only whitespace was cut off either end, and it neither starts nor ends with whitespace |
| JsText.TrimOfBlank | Gruntfile.js:153 | text made only of whitespace trims to the empty string |
| JsText.TrimIdempotent | Gruntfile.js:153 | trimming a trimmed text changes nothing |
| JsText.Split | Gruntfile.js:153 | `split` gives at least one piece, and exactly one when the separator does not occur |
| JsText.SplitPieces | Gruntfile.js:153 | no piece holds the separator, and every unit of a piece comes from the text |
| JsText.SplitThenJoin | Gruntfile.js:153 | joining the pieces with the separator gives back the text |
| JsText.JoinThenSplit | Gruntfile.js:153 | splitting the join of separator-free pieces gives back the pieces |
| JsText.StripPrefix | Gruntfile.js:167 | the anchored replace removes one leading copy of the prefix and otherwise leaves the text alone |
| LexOrder.LexLe | Gruntfile.js:171 | the order the default `sort()` applies: code unit by code unit, a proper prefix first; see `LexLeReflexive`, `LexLeAntisymmetric`, `LexLeTransitive` and `LexLeTotal` |
| LexOrder.LexLeReflexive | Gruntfile.js:171 | the default sort order is reflexive |
| LexOrder.LexLeAntisymmetric | Gruntfile.js:171 | the default sort order is antisymmetric |
| LexOrder.LexLeTransitive | Gruntfile.js:171 | the default sort order is transitive |
| LexOrder.LexLeTotal | Gruntfile.js:171 | any two strings are comparable |
| LexOrder.InsertSorted | Gruntfile.js:171 | inserting into a sorted list keeps it sorted and adds exactly the new entry |
| LexOrder.SortAscending | Gruntfile.js:171 | `tagsToReturn.sort()`, computed by insertion; see `SortAscendingSorts`, and `DescendingUnique` for why the algorithm does not matter |
| LexOrder.SortAscendingSorts | Gruntfile.js:171 | `sort()` returns an ascending permutation of its input |
| LexOrder.Reverse | Gruntfile.js:171 | `reverse()` of the sorted names; see `ReverseReverses` |
| LexOrder.SortDescending | Gruntfile.js:171 | `sort().reverse()`; see `SortDescendingSorts` |
| LexOrder.ReverseReverses | Gruntfile.js:171 | `reverse()` returns the entries in the opposite order |
| LexOrder.SortDescendingSorts | Gruntfile.js:171 | `sort().reverse()` returns a descending permutation of its input |
| LexOrder.DescendingUnique | Gruntfile.js:171 | two descending arrangements of the same names are equal, so the result does not depend on the sort algorithm |
| LexOrder.PrefixOfDescendingIsGreatest | Gruntfile.js:171-172 | `slice(0, k)` of a descending list keeps its k greatest entries: nothing dropped sorts after anything kept |
| TagList.Lines | Gruntfile.js:151-154 | the lines the callback loops over: none for absent or empty output, else the trimmed output split at newlines; its properties are in `LinesOfOutput` |
| TagList.LinesOfOutput | Gruntfile.js:151-154 | absent or empty output has no lines; otherwise the lines are newline-free and join back to the trimmed output |
| TagList.IsPeeled | Gruntfile.js:163-165 | `tag.indexOf('^') !== -1`: the line is skipped; see `TagNamesAroundLine` and `CleanTagsAreBare` |
| TagList.KeptLinesHaveTabsIff | Gruntfile.js:160-168 | the callback does not throw exactly when every line without `^` holds a tab |
| TagList.SecondField | Gruntfile.js:167 | `tag.split("\t")[1]`, defined only on a line holding a tab (otherwise the source throws); see `KeptLinesHaveTabsIff` and `CleanLineContents` |
| TagList.CleanLine | Gruntfile.js:167 | one kept line's name: its second tab-separated field with one leading `refs/tags/` removed; see `CleanLineStripsOnce` and `CleanLineContents` |
| TagList.TagNames | Gruntfile.js:161-169 | the loop over the lines: peeled lines are skipped, every other line pushes its cleaned name, in line order; see `TagNamesOfKeptLines` |
| TagList.TagNamesOfKeptLines | Gruntfile.js:160-169 | as many names as lines without `^`; every name is the cleaned form of such a line, and every such line's cleaned form is among the names |
| TagList.KeptLinesHaveTabsAppend | Gruntfile.js:160-168 | the loop gets through two blocks of lines without throwing exactly when it gets through each block |
| TagList.TagNamesAppend | Gruntfile.js:160-169 | the names of two blocks of lines are the first block's names followed by the second's, so order and multiplicity are kept |
| TagList.TagNamesAroundLine | Gruntfile.js:161-169 | a line anywhere in the output contributes exactly its cleaned name, once and in its place, or nothing when it holds `^` |
| TagList.CleanTags | Gruntfile.js:149-172 | the whole callback: names collected, sorted, reversed and cut to ten; see `CleanTagsAreGreatest` and `CleanTagsIsTopOfAnySort` |
| TagList.CleanTagsAreGreatest | Gruntfile.js:149-172 | exactly min(10, n) names for n collected names, descending, taken from the collected names (a sub-multiset), and no name left out sorts after a kept one; no output gives no names |
| TagList.CleanTagsIsTopOfAnySort | Gruntfile.js:171-172 | the result is the first min(10, n) entries of any descending arrangement of the names |
| TagList.CleanTagsOrigin | Gruntfile.js:160-168 | every entry is the cleaned second field of a line without `^` |
| TagList.CleanLineContents | Gruntfile.js:167 | a cleaned name holds no tab, and all its units come from its line |
| TagList.CleanTagsAreBare | Gruntfile.js:163-167 | no entry contains `^`, a tab or a newline |
| TagList.CleanLineStripsOnce | Gruntfile.js:167 | exactly one leading `refs/tags/` is removed; a name still starts with it only when the ref carried it twice |
| TagList.BlankOutputIsRejected | Gruntfile.js:152-167 | non-empty output made only of whitespace makes the callback throw |
| Manifest.Lookup | Gruntfile.js:24-26 | `getServerConfig(name)`, that is `servers[name]`, `None` standing for undefined; see `LookupFinds` |
| Manifest.LookupFinds | Gruntfile.js:24-26 | `servers[name]` is undefined exactly when no server has the name, and otherwise that server's configuration |
| Prompts.ServerChoices | Gruntfile.js:90-96 | the `choices` of the server question, one name per server in manifest order; see `ServerChoicesAreNames` |
| Prompts.ServerChoicesAreNames | Gruntfile.js:90-96 | the server choices are the server names, in manifest order, without repeats, and a name is offered exactly when the manifest has it |
| Prompts.DefaultServer | Gruntfile.js:86-89 | the `default` of the server question; see `DefaultServerIsOffered` |
| Prompts.AsksProductionConfirmation | Gruntfile.js:104-106 | the `when` of the production question: the selected server is exactly "prod"; see `ProductionAnswerIgnored` |
| Prompts.DefaultServerIsOffered | Gruntfile.js:86-89 | the default is "test" exactly when "test" is a choice, otherwise the empty string |
| Prompts.TagChoices | Gruntfile.js:113-121 | "master" and "develop" come first, followed by the stored tags when they are an array and by nothing otherwise |
| Prompts.TagChoicesAfterListing | Gruntfile.js:113-121 | fed by the listing, the tag question offers between two and twelve entries, the tags greatest first |
| Workflow.Subtasks | Gruntfile.js:267-336 | what each task enqueues: the `default` alias list and the `grunt.task.run` arguments of `configure`, `prepare`, `deploy`, `deploy.configure`, `deploy.dry` and `deploy.live`; see `Run` and `PositionIndexes` |
| Workflow.Prerequisite | Gruntfile.js:283-304 | the task each `grunt.task.requires` names; see `TaskAloneFails` and `DefaultRunMeetsPrerequisites` |
| Workflow.StoreTagList | Gruntfile.js:149-173 | the listing task runs `git ls-remote --tags` and stores the callback's result, or fails when the callback throws; see `UnparsableListingStopsRun` and `DefaultRunMenus` |
| Workflow.AnswerConfigure | Gruntfile.js:79-122 | the configure questions offer their menus and record the answers, the production one only for "prod"; see `DefaultRunMenus` and `ProductionAnswerIgnored` |
| Workflow.Host | Gruntfile.js:312 | the rsync host `user + '@' + ip`; see `HostSplitsBack` |
| Workflow.RsyncTarget | Gruntfile.js:309-316 | the rsync options `deploy.configure` sets: host, dest and the manifest's excludes; see `CommandsWithServer` |
| Workflow.SelectedConfig | Gruntfile.js:311 | `getServerConfig(getSelectedServer())`: the manifest entry of the server chosen at the prompt, or `None` when there is none; see `CommandsWithServer` |
| Workflow.ConfigureTarget | Gruntfile.js:309-316 | `deploy.configure` reads the selected server's settings into rsync and regex-replace, and throws when the manifest lacks the server; see `DefaultEnd` and `CommandsWithServer` |
| Workflow.GateLive | Gruntfile.js:331-336 | `deploy.live` goes on only when the deploy was confirmed, otherwise it aborts with "Deployment aborted"; see `LiveRunIsGated` |
| Workflow.HostSplitsBack | Gruntfile.js:312 | the rsync host `user@ip` splits back at `@` into user and address when neither holds an `@`, and not when the user holds one |
| Workflow.Exec | Gruntfile.js:274-336 | every task run is appended to the trace, and a task that stops the run never reports completion |
| Workflow.Run | Gruntfile.js:267-304 | the trace only grows; a run performs at most, and when it completes exactly, the number of tasks its queue expands to |
| DefaultRun.PositionIndexes | Gruntfile.js:267-304 | the 17 tasks of a default run each occur once, in a fixed order |
| DefaultRun.DefaultEnd | Gruntfile.js:267-336 | a default run stops at the first of: unparsable listing, failed export, unknown server, failed replacement, failed dry run, declined confirmation, failed live run; it completes only when none happens |
| DefaultRun.Follow | Gruntfile.js:267-304 | from any point reached as the account says, the rest of the queue runs as the account says |
| Workflow.RunDefault | Gruntfile.js:267 | `grunt` with no arguments: the queue machine started on `default`; see `DefaultRunFollowsTrace` and the `Guarantees` lemmas |
| DefaultRun.DefaultRunFollowsTrace | Gruntfile.js:267-336 | `grunt` with no arguments halts as `DefaultEnd` says, with that prefix of the task order, the commands the account lists, and the account's menus |
| DefaultRun.FirstTasksMembership | Gruntfile.js:267-304 | a task has run by step n exactly when its position is below n |
| DefaultRun.CommandsBeforeServer | Gruntfile.js:283-295 | before `deploy`, a run invokes the listing and then the export of the selected tag |
| DefaultRun.CommandsWithServer | Gruntfile.js:309-316 | with a known server, the later commands are describe, the replacement with its `replace-configs`, then dry and live rsync to `user@ip:dest` with the manifest's excludes |
| Guarantees.RunOrder | Gruntfile.js:267-304 | tasks run in the fixed order, each at most once; in particular the dry run precedes the confirmation, which precedes the live step |
| Guarantees.CleanOnlyOnCompletion | Gruntfile.js:267 | `clean` runs exactly when the run completes |
| Guarantees.LiveRunIsGated | Gruntfile.js:331-336 | the live rsync runs exactly when every earlier step worked and the deploy was confirmed; the run aborts with "Deployment aborted" exactly when every earlier step worked and it was declined |
| Guarantees.DefaultRunCommands | Gruntfile.js:309-316 | the commands a default run invokes, for each place it can stop; the live rsync, when invoked, uses the dry run's options |
| Guarantees.UnparsableListingStopsRun | Gruntfile.js:160-168 | when the callback throws, no question is asked and only the listing was invoked |
| Guarantees.DefaultRunMenus | Gruntfile.js:79-122 | the configure questions offer every server name, "test" preselected when present, and master, develop and then at most ten tags, greatest first |
| Guarantees.ProductionAnswerIgnored | Gruntfile.js:99-107 | the production answer is recorded exactly when "prod" was chosen, and changing it changes neither the outcome, the tasks run nor the commands invoked |
| Guarantees.DefaultRunMeetsPrerequisites | Gruntfile.js:283-304 | a default run never fails a `grunt.task.requires` check |
| Guarantees.TaskAloneFails | Gruntfile.js:283-304 | `configure`, `prepare` or `deploy` run on their own fail at once on `requires`, having invoked nothing |

## Left out

- Process I/O. The model does not run `git ls-remote`, `git archive | tar x`, `git describe`, rsync or the regex-replace plugin. Their outcome is an input: the listing's output, and the set of commands that fail. Each is recorded as a `Command` value.
- The version file `git describe` writes, with its `grunt.template.today()` timestamp (lines 198-204). It is a file write plus a clock read, so the describe step only records its command.
- `mkdir` in `init` (line 276) and the deletions `clean` performs (lines 63-66). These are file-system effects; both tasks only appear in the trace.
- The two targets of `clean`. Called without a target, grunt queues `clean:dist` and `clean:export` after `clean` itself (lines 63-66, 267), so a completed run executes 19 tasks. The model folds the two targets into the one task `Clean` and counts 17; nothing in the script can fail between them.
- The reading of `package.json` (line 51). The manifest is the `Env.deployment` input. The rsync flags, the `src` path and the templates of lines 221-245 are constants handed to tools.
- Template expansion on read. Every string read back through `grunt.config` passes through `grunt.template.process`: the manifest (line 11), the selected server and tag (lines 32, 39) and the stored tag list (line 116). A tag or server name holding `<%= … %>` is therefore offered or used expanded (a tag `v<%= buildDir %>` is offered as `vbuild`). The model treats every stored string as read back unchanged, so its menus and commands hold only for names without template markup.
- The interactive prompt UI. The operator's answers are inputs as given: that a list answer is one of the offered choices, and the `default: false` of the confirmations, are left to the prompt library.
- Manifest.LookupFinds: does not model properties inherited from `Object.prototype` (a server named `constructor`, say), because JSON server maps do not use those names.
- Prompts.ServerChoicesAreNames, Prompts.ServerChoices, Guarantees.DefaultRunMenus: use manifest order for the server menu. JavaScript's `for..in` lists integer-like keys first, in ascending numeric order, and that is not modelled.
- `grunt --force` and running tasks other than `default` from the command line. The one exception is `TaskAloneFails`.
- Messages written to the console (line 187).
- The manifest is assumed to carry every field the script reads. A JSON object may leave fields out, and then the script behaves in ways the model does not cover:
  - a server without `user` gives the host `"undefined@<ip>"` (line 312);
  - a missing `exclude` sets `rsync.options.exclude` to undefined (line 314);
  - a missing `replace-configs` leaves `regex-replace.configs` undefined, so `regex-replace:configs` fails its configuration check (lines 303, 316);
  - a missing `servers` makes the server question's `default` throw at `'test' in servers` (lines 87-88).
