# patchllm core, modelled in Dafny

patchllm is a command-line assistant. It gathers project files into an LLM prompt, called the
"context", and writes code back from the model's answer. This project models its core and
proves properties of the model:

- **Context building** (`patchllm/context.py`, `patchllm/scopes/builder.py`).
  - A *scope* is either a named entry of the scopes file (a static scope) or an `@…` name (a
    dynamic scope: `@git…`, `@recent`, `@search:"…"`, `@error:"…"`, `@dir:…`, `@related:…`,
    `@structure`).
  - It resolves to a sorted list of files, filtered by extension.
  - The files are rendered as a source tree plus one `<file_path:…>` block per file.
- **Pasting a response** (`patchllm/parser.py`). Every `<file_path:…>` block of an LLM answer
  is written to disk, unless the file already holds that code.
- **The agent session** (`patchllm/agent/session.py`, `patchllm/agent/planner.py`). A goal, a
  numbered plan parsed from the planner's answer, running a step, approving or retrying it,
  and changing the context.
- **The text UI completer** (`patchllm/tui/completer.py`). It suggests commands, scope names
  and `/plan` sub-commands.
- **The interactive file picker** (`patchllm/interactive.py`). It draws the check-list tree
  and expands the ticked lines into files.
- **Scope management from the command line** (`handle_scope_management` in
  `patchllm/cli/handlers.py`). It lists, shows, adds, removes and updates scopes.

The file system is a value: `Files.FileSystem` holds files with their stored text,
directories, and the sets of unreadable, undecodable and read-only files. Paths are normalised
absolute strings (`Paths`).

Globbing, `git`, modification times, the URL fetcher, the LLM calls (executor and planner),
the prompt of the picker and `ast.literal_eval` enter as function parameters. The session's
object and the scopes dictionary changed by `handle_scope_management` are classes
(`Session.AgentSession`, `Handlers.ScopeRegistry`). Each of their methods is proved equal to
a pure function of the old state; the properties are lemmas about those functions.

Loops of the source are methods with loop invariants, each proved equal to a specification
function. Examples: `_get_files_from_patterns`, `filter_files_by_keyword`, the structure
walk, `_extract_symbols_by_regex`, the paste loop, the update loop of `--update-scope` and
the picker's expansion.

## Model

| member | source | states |
|---|---|---|
| Discovery.FilesFromPatterns | patchllm/context.py:87-99 | a path is collected iff some pattern (joined to the base unless absolute) globs it and it is a file |
| Discovery.PatternStep | patchllm/context.py:95-98 | adding one pattern's glob matches extends the collected set to exactly the matches of the patterns seen so far |
| Discovery.FindFiles | patchllm/context.py:82-104 | result is strictly sorted, and holds a path iff the includes match it and the excludes (none when absent) do not |
| Discovery.FilterByKeyword | patchllm/context.py:107-119 | no words keeps the list as given; otherwise exactly the files whose leniently read text contains some word, in their order |
| ContextFormat.FileContents | patchllm/context.py:300-307 | the blocks are those of the readable files, in order; unreadable files are skipped |
| ContextFormat.AllReadable | patchllm/context.py:300-307 | when every file is readable there is one block per file, the k-th showing the k-th path and its text |
| ContextFormat.FormatContext | patchllm/context.py:296-316 | the context object is the tree of the paths plus the template filled with tree, URL text and file blocks |
| ContextFormat.BuildContextFromFiles | patchllm/context.py:377-385 | no result iff no paths; otherwise the formatted context of the paths without URLs |
| ScopeConfig.ExtensionFilter | patchllm/context.py:456-459 | no kept path has an excluded suffix (case-insensitive), every path without one is kept, and nothing is added |
| ScopeConfig.EmptyOverrideKeepsAll | patchllm/context.py:456 | a scope whose `exclude_extensions` is an empty list keeps every file |
| ScopeConfig.StringOverrideKeepsAll | patchllm/context.py:456-459 | a scope whose `exclude_extensions` is one string is iterated per character and keeps every file, since no suffix is a single character |
| ScopeConfig.DefaultDropsLog | patchllm/context.py:14-31 | without an override a `.LOG` file is dropped, because the default list holds `.log` |
| ScopeConfig.LogExcluded | patchllm/context.py:14-31 | the default exclusion list rejects an upper-case `.LOG` suffix |
| Files.Translate | patchllm/parser.py:38 | text-mode reading leaves no carriage return and never lengthens the text |
| Files.TranslateIdentity | patchllm/parser.py:38 | text-mode reading changes a text iff it holds a carriage return |
| Files.ReadText | patchllm/context.py:304 | the read succeeds iff the path is a readable, decodable file, and then gives its translated text |
| Files.ReadTextLenient | patchllm/context.py:115 | with `errors='ignore'` the read succeeds iff the path is a readable file, whatever its encoding |
| Files.MakeDirs | patchllm/parser.py:36 | creating parents fails iff one of them is a file; otherwise exactly those directories are added |
| Files.WriteText | patchllm/parser.py:42 | writing fails iff the target is read-only or a directory; otherwise only that file's text changes |
| Files.ExistsNormal | patchllm/context.py:257 | a path without `..` exists iff it names a file or a directory |
| Files.StepOutOfMissingDir | patchllm/context.py:251-257 | `/x/../y` names `/y` once normalised, yet does not exist when there is no directory `/x`, because `exists()` walks the path as written |
| Paths.Resolve | patchllm/parser.py:33 | the result is normalised: the parts of the base (unless the path is absolute) and the path, with `.` and `..` applied |
| Paths.ResolveNormal | patchllm/parser.py:33 | resolving an already normalised absolute path gives that path |
| Paths.Suffix | patchllm/context.py:279 | the suffix is empty, or a dot and at least one more character ending the name |
| Paths.Stem | patchllm/context.py:275 | stem followed by suffix is the name |
| Paths.WithSuffix | patchllm/context.py:287 | replacing the suffix fails iff the path has an empty name |
| Paths.RelativeParts | patchllm/context.py:130 | a relative path, when there is one, is what follows the base's parts in the path's parts |
| Sorting.SortSet | patchllm/context.py:104 | sorting a set gives a strictly increasing sequence of exactly its members |
| SourceTree.InsertPaths | patchllm/context.py:133-136 | after inserting a path's parts, the tree holds a path iff it held it before or it is a prefix of the parts |
| SourceTree.TreeOfPaths | patchllm/context.py:128-136 | the built tree holds exactly the prefixes of the files' relative paths |
| SourceTree.BuildTree | patchllm/context.py:128-136 | the loop builds the tree of all the paths |
| SourceTree.ItemsOrder | patchllm/context.py:140 | entries with children come before leaves, and within each group names are in code-point order |
| SourceTree.FormatLinesStart | patchllm/context.py:138-148 | every line of a level starts with that level's indent |
| SourceTree.FormatTopLevel | patchllm/context.py:138-148 | the lines at the top indent are exactly one connector line per item, in sorted order |
| SourceTree.GenerateSourceTree | patchllm/context.py:122-150 | no files gives the fixed message; otherwise the base name, a newline, and the formatted tree of the paths |
| Structure.ExtractSymbols | patchllm/context.py:319-327 | the symbols are those collected line by line: each line goes at most once, under the first kind whose pattern matches |
| Structure.CollectedCount | patchllm/context.py:319-327 | the number of symbols equals the number of lines that match some pattern |
| Structure.SplitJoin | patchllm/context.py:322 | splitting a text into lines and joining them back (with a final break when present) gives the text |
| Structure.KindOfFirst | patchllm/context.py:323-326 | a line has kind k iff some pattern of kind k matches it and no earlier pattern does |
| Structure.ImportsFirst | patchllm/context.py:323-326 | an import line is classed as an import whatever the later patterns say |
| Structure.SelectedFiles | patchllm/context.py:331-336 | strictly sorted; holds a file iff it lies below the base and passes the directory and extension filters |
| Structure.KeepFiles | patchllm/context.py:331-336 | the walk loop keeps exactly the walked files that pass the filters, in walk order |
| Structure.StructureFiles | patchllm/context.py:331-338 | the collected and sorted files are the selection above |
| Structure.ExcludedAncestorHidesAll | patchllm/context.py:333 | as written: a base path with an excluded directory name among its parts selects no file at all |
| Structure.BelowOnlyIgnoresAncestors | patchllm/context.py:333 | corrected: a file below the base, with an allowed suffix and no excluded directory below the base, is selected |
| Structure.LanguageOf | patchllm/context.py:339-345 | the first language listing the suffix gives its patterns; none iff no language lists it |
| Structure.DetectLanguage | patchllm/context.py:339-345 | the loop returns the language lookup above |
| Structure.OutlineFile | patchllm/context.py:346-361 | a file's outline is the per-file section built from its symbols when its language is known and it yields any |
| Structure.GatherFewer | patchllm/context.py:338-362 | there are at most as many outlines as files, and none iff no file yields one |
| Structure.GatherOrder | patchllm/context.py:338-362 | outlines keep the order of their files |
| Structure.CollectOutlines | patchllm/context.py:338-362 | the loop collects exactly the outlines of the sorted files |
| Structure.StructureObject | patchllm/context.py:364-372 | no result iff there is no outline; otherwise the fixed structure tree and no file list |
| Structure.StructureContext | patchllm/context.py:329-372 | the structure view is the object built from the outlines of the selected files |
| Structure.NothingSelected | patchllm/context.py:364-365 | when no file is selected there is no structure context |
| DynamicScopes.Dispatch | patchllm/context.py:392-435 | `@structure` exactly, static iff no `@`, a search carries its quoted term, a traceback is quoted, an unknown `@` name matches none of the forms |
| DynamicScopes.SearchTerm | patchllm/context.py:405 | a search term is non-empty, has no quote, and the name starts with `@search:"` + term + `"` |
| DynamicScopes.TracebackMatches | patchllm/context.py:245-246 | every captured file name is non-empty and free of quotes |
| DynamicScopes.FramesMatch | patchllm/context.py:245-246 | the paths of a traceback written as `File "p"` frames are read back exactly, in order |
| DynamicScopes.TracebackFiles | patchllm/context.py:242-257 | strictly sorted; holds a path iff some captured name gives it (an absolute one as written, a relative one resolved against the base) and it exists, every `..` in it stepping out of a directory |
| DynamicScopes.DirectoryFiles | patchllm/context.py:259-265 | strictly sorted; empty unless the resolved path is a directory; otherwise exactly the files directly in it |
| DynamicScopes.CollectSiblings | patchllm/context.py:274-287 | fails iff the start has an empty name; otherwise the start plus its siblings with the other listed suffixes |
| DynamicScopes.RelatedFrom | patchllm/context.py:274-293 | the related list is strictly sorted and holds exactly the start, its siblings and the present test files |
| DynamicScopes.Present | patchllm/context.py:289-291 | exactly the candidate test files that exist |
| DynamicScopes.RelatedFiles | patchllm/context.py:267-293 | empty when the start is missing; raises iff it exists with an empty name; otherwise start, siblings and existing test variants, sorted |
| ContextBuild.GitPaths | patchllm/context.py:216-217 | never more paths than output lines |
| ContextBuild.GitPathsMembers | patchllm/context.py:216-217 | a path is listed iff it is the base joined with a non-empty output line |
| ContextBuild.RecentFiles | patchllm/context.py:227-232 | the first five files by modification time, or all of them when there are fewer |
| ContextBuild.ResolveDynamic | patchllm/context.py:398-435 | the dynamic branch returns the files of the dispatched kind, or none for an unknown name |
| ContextBuild.ResolveStatic | patchllm/context.py:437-449 | the static branch finds the scope's files under its own path and filters them by its search words |
| ContextBuild.Finished | patchllm/context.py:452-467 | no result iff nothing is left after extension filtering and there are no URLs; otherwise the formatted context of the kept files |
| ContextBuild.FilterAndFormat | patchllm/context.py:452-467 | the common tail of `build_context` computes the result above |
| ContextBuild.BuildContext | patchllm/context.py:388-467 | the whole of `build_context`, equal to its specification function, whose `@structure` branch uses the corrected exclusion test of the Findings |
| ContextBuild.UnknownDynamicNone | patchllm/context.py:433-435 | an `@` name outside all known forms builds nothing |
| ContextBuild.UnknownStaticNone | patchllm/context.py:437-440 | a static name missing from the scopes, or with an empty scope, builds nothing |
| ContextBuild.StaticIgnoresBase | patchllm/context.py:442 | a static scope's result does not depend on the caller's base path |
| ContextBuild.RaisesOnlyForRoot | patchllm/context.py:269-287 | `build_context` raises iff the name is `@related:` of an existing path with an empty name |
| ContextBuild.BuiltFromFiltered | patchllm/context.py:456-467 | a built context has files or URLs; no kept file has an excluded suffix; its tree is that of the kept files |
| ContextBuild.DynamicDropsLog | patchllm/context.py:456-465 | a dynamic scope that finds only a `.LOG` file and no URL builds nothing |
| Builder.Partition | patchllm/scopes/builder.py:40-43 | glob and `@` patterns split the list into two disjoint order-keeping parts that together hold every pattern |
| Builder.CandidatesAre | patchllm/scopes/builder.py:45-65 | strictly sorted; a file is a candidate iff an include glob or include reference yields it and no exclude does |
| Builder.GlobsOnlyUseScopePath | patchllm/scopes/builder.py:48-58 | with only globs, the candidates do not depend on the caller's base path |
| Builder.ReferencesOnlyUseBase | patchllm/scopes/builder.py:52-62 | with only `@` references, the candidates do not depend on the scope's path |
| Builder.GlobFiles | patchllm/scopes/builder.py:49-50 | the glob step gives exactly the files the globs match under the scope path |
| Builder.AddResolved | patchllm/scopes/builder.py:53-54 | the reference loop adds exactly the union of the resolved references |
| Builder.ResolveScope | patchllm/scopes/builder.py:33-68 | the static branch computes the sorted candidates, then the keyword filter |
| Builder.WithFiles | patchllm/scopes/builder.py:82 | attaching the file list keeps the tree and context of the formatted object |
| Builder.BuildContext | patchllm/scopes/builder.py:16-82 | the whole of the scope builder, equal to its specification function |
| Builder.FromFiles | patchllm/scopes/builder.py:9-14 | no result iff no paths; otherwise it lists those paths and their tree |
| Builder.BuildContextFromFiles | patchllm/scopes/builder.py:9-14 | the method computes the result above |
| Builder.StructureFirst | patchllm/scopes/builder.py:18-19 | `@structure` is answered by the structure view alone |
| Builder.UnknownStaticNone | patchllm/scopes/builder.py:28-31 | a missing or empty static scope builds nothing |
| Builder.BuiltFiles | patchllm/scopes/builder.py:70-82 | any other built context lists its files, shows their tree, and keeps no file with an excluded suffix |
| Parser.MatchAt | patchllm/parser.py:13-16 | a match starts with the open tag and has a non-empty path free of `>` |
| Parser.JobOf | patchllm/parser.py:27-33 | a block becomes a job only with a non-empty stripped path, and the job writes the block's code |
| Parser.Store | patchllm/parser.py:38-46 | a write changes only the target's text; a skip means the current text already equals the code; a failure leaves everything as it was |
| Parser.Apply | patchllm/parser.py:27-46 | no path gives no job; otherwise directories are created, only the target changes, and a skip means the code is what is read back |
| Parser.Steps | patchllm/parser.py:25-46 | one outcome per block |
| Parser.PasteStep | patchllm/parser.py:25-57 | handling one more block appends its outcome and updates the tally by that outcome |
| Parser.PasteResponse | patchllm/parser.py:9-59 | the loop's report and file system equal the specification of `paste_response` |
| ParserProperties.FirstPass | patchllm/parser.py:25-46 | after one paste with distinct targets, every block's file is settled |
| ParserProperties.SecondPass | patchllm/parser.py:25-46 | on settled files a paste changes nothing and turns writes into skips |
| ParserProperties.StepsTwice | patchllm/parser.py:25-57 | applying the jobs twice leaves the files of one pass, with no writes and the same failures |
| ParserProperties.PasteTwice | patchllm/parser.py:9-59 | pasting the blocks twice is idempotent: no second writes, same failures, the first pass's writes and skips all skipped |
| ParserProperties.PasteTwiceExact | patchllm/parser.py:38 | corrected: comparing stored bytes, pasting the same response twice writes nothing the second time |
| ParserProperties.PasteTwiceTextMode | patchllm/parser.py:38 | as written, pasting twice is idempotent when no code holds a carriage return |
| ParserProperties.TextModeSkipsDifferentFile | patchllm/parser.py:38 | as written: a file holding `\r` is skipped for code `\n` though the bytes differ |
| ParserProperties.TextModeRewritesCarriageReturn | patchllm/parser.py:38 | as written: code holding `\r` is written again on every paste |
| RoundTrip.ScanEmitted | patchllm/parser.py:13-16 | scanning the joined blocks of the context format reads back exactly those blocks |
| RoundTrip.FilesSectionParses | patchllm/context.py:300-309 | the files section of a context is parsed back into one block per file, with its path |
| RoundTrip.FilesSectionRoundTrip | patchllm/parser.py:27-33 | pasting a context's files section targets each file itself with its own text |
| Session.AgentSession.constructor | patchllm/agent/session.py:12-22 | a new session holds only the system prompt, no goal, plan or context |
| Session.AgentSession.SetGoal | patchllm/agent/session.py:24-27 | the goal is set, and plan and step are reset |
| Session.AgentSession.CreatePlan | patchllm/agent/session.py:29-37 | the state after planning is that of the planning function |
| Session.AgentSession.RunCurrentStep | patchllm/agent/session.py:39-56 | the state after running a step is that of the step function |
| Session.AgentSession.ApproveChanges | patchllm/agent/session.py:58-74 | the state after approving is that of the approval function, which pastes with the corrected comparison of the Findings |
| Session.AgentSession.RetryStep | patchllm/agent/session.py:76-88 | the state after a retry is that of the retry function |
| Session.AgentSession.LoadContextFromScope | patchllm/agent/session.py:90-97 | the context is replaced by the built scope, or cleared |
| Session.AgentSession.AddFilesAndRebuildContext | patchllm/agent/session.py:99-107 | the state after adding files is that of the merge-and-rebuild function |
| Session.AgentSession.AddContextFromScope | patchllm/agent/session.py:109-113 | the files of the built scope are added, or nothing changes |
| Session.AgentSession.ClearContext | patchllm/agent/session.py:115-117 | context and context files are emptied |
| Session.NewGoalHasNoStep | patchllm/agent/session.py:24-27 | a new goal empties the plan, so running or retrying a step does nothing |
| Session.PlanningOutcome | patchllm/agent/session.py:29-37 | planning succeeds iff there is a goal and the planner returns a non-empty plan; only then is the plan replaced |
| Session.RunStepKeeps | patchllm/agent/session.py:39-56 | past the plan nothing happens; otherwise the executor result becomes pending when truthy; step and history stay |
| Session.EmptyOverrideRunsPlanStep | patchllm/agent/session.py:47 | an empty instruction override runs the plan's own step |
| Session.ApproveNeedsResult | patchllm/agent/session.py:62-63 | without a pending result, approval reports it and changes nothing |
| Session.ApproveAdvances | patchllm/agent/session.py:62-74 | approval succeeds iff a result is pending within the plan; then it pastes (with the corrected comparison of the Findings), appends user and assistant messages, and advances the step |
| Session.ApproveRaises | patchllm/agent/session.py:62-74 | past the plan approval raises and changes nothing; without `llm_response` it raises after appending the user message |
| Session.StaleResultAfterNewGoal | patchllm/agent/session.py:24-27 | a result pending before a new goal can no longer be approved |
| Session.RetryMentionsBoth | patchllm/agent/session.py:83-87 | the retry instruction contains both the feedback and the original step |
| Session.RetryRuns | patchllm/agent/session.py:76-88 | past the plan a retry does nothing; otherwise it runs the combined instruction, keeping step and history |
| Session.MergedIsUnion | patchllm/agent/session.py:100-101 | merging files gives a strictly sorted list of exactly the current and added files |
| Session.MergedAbsorbs | patchllm/agent/session.py:100-101 | merging the same files again changes nothing |
| Session.AddFilesOutcome | patchllm/agent/session.py:99-107 | with no files at all the rebuild fails and nothing changes; otherwise files and context are the merged ones |
| Session.LoadUnknownScopeClears | patchllm/agent/session.py:90-97 | loading an unknown static scope reports failure and clears the context |
| Session.LoadContextOutcome | patchllm/agent/session.py:90-97 | a built scope replaces the context and its files; a failed build clears both; nothing else changes |
| Session.AddContextNeedsFiles | patchllm/agent/session.py:109-113 | a scope with no files changes nothing; otherwise its files are added as by adding files |
| Session.AddUnknownScopeUnchanged | patchllm/agent/session.py:109-113 | adding an unknown static scope changes nothing |
| Session.HistoryAppendOnly | patchllm/agent/session.py:24-88 | goal, planning, running and retrying only extend the history |
| Session.ContextKeepsHistory | patchllm/agent/session.py:90-117 | the context operations never touch the history |
| Session.SystemPromptStaysFirst | patchllm/agent/session.py:19 | the system prompt is the first message from the start and stays first after an approval |
| Planner.PlanningPrompt | patchllm/agent/planner.py:4-23 | a system and a user message; the user message holds the tree section and ends with the goal section |
| Planner.RefinePrompt | patchllm/agent/planner.py:25-35 | the history is kept and one user message is appended, starting with the refine text and ending with the feedback |
| Planner.ParsePlan | patchllm/agent/planner.py:37-43 | no or empty text gives no plan; a plan is the non-empty list of matched steps, and any match gives one |
| Planner.StepsAreLines | patchllm/agent/planner.py:42 | every parsed step lies within one line |
| Planner.NumberedRoundTrip | patchllm/agent/planner.py:42 | a numbered list of plain steps parses back to those steps |
| Planner.PlanOfNumberedResponse | patchllm/agent/planner.py:37-43 | a response of one prose line and then a numbered list gives exactly that list as the plan |
| Planner.PreambleSkipped | patchllm/agent/planner.py:42 | a prose line before the list adds no step |
| Planner.ProseOnlyHasNoPlan | patchllm/agent/planner.py:37-43 | a response of prose only gives no plan |
| Completer.Init | patchllm/tui/completer.py:36-51 | commands sorted, static scopes sorted and exactly the scope names, all scopes sorted and the statics plus the twelve dynamic names |
| Completer.Offer | patchllm/tui/completer.py:53-111 | the suggestions are exactly the items with the typed prefix, in order, each with the given start and meta |
| Completer.BlankInputNothing | patchllm/tui/completer.py:61-62 | blank input gets no suggestion |
| Completer.TypingCommand | patchllm/tui/completer.py:65-76 | while typing one word, a `/…` word gets the matching commands, anything else nothing |
| Completer.NonCommandNothing | patchllm/tui/completer.py:65-111 | text whose first word is not a command gets no suggestion |
| Completer.AfterContextCommand | patchllm/tui/completer.py:83-87 | after a context command and a space, all scopes are offered, marked static exactly for static ones |
| Completer.TypingScope | patchllm/tui/completer.py:90-95 | while typing a scope, the scopes with that prefix are offered, replacing the typed word |
| Completer.AfterPlanCommand | patchllm/tui/completer.py:100-103 | after `/plan` and a space, all sub-commands are offered |
| Completer.TypingPlanSubCommand | patchllm/tui/completer.py:106-111 | while typing a sub-command, those with that prefix are offered without meta |
| Completer.PlanEditPrefix | patchllm/tui/completer.py:106-111 | `/plan --e` offers `--edit ` alone |
| ChoiceTree.LinesIndented | patchllm/interactive.py:28-42 | every line drawn at a level starts with that level's indent |
| ChoiceTree.FolderEntry | patchllm/interactive.py:35-38 | a folder draws its line ending in `/` followed by its children, one indent deeper |
| ChoiceTree.NotClosingEntry | patchllm/interactive.py:29-30 | no entry but the last one draws the closing corner at this level |
| ChoiceTree.SkippedLast | patchllm/interactive.py:40-42 | when the last item is a hidden file, the level never draws its closing corner |
| ChoiceTree.ClosedByLast | patchllm/interactive.py:29-42 | when the last item is drawn, the level has a line with the closing corner |
| ChoiceTree.ExtractPath | patchllm/interactive.py:77-83 | no path iff the line has no icon; a path never crosses a line break |
| ChoiceTree.ExtractFromChoice | patchllm/interactive.py:36-42 | reading a drawn folder line gives its path with `/`, a file line its path |
| ChoiceTree.ReadBack | patchllm/interactive.py:28-83 | every drawn line reads back as one of the drawn paths |
| ChoiceTree.Selectable | patchllm/interactive.py:28-83 | a path is drawn iff some line reads back as it |
| Interactive.Listing | patchllm/interactive.py:23-24 | the listing holds exactly the entries directly in the directory whose names are not excluded |
| Interactive.ListingSorted | patchllm/interactive.py:24 | the listing is sorted by the key (is a file, lower-case name) |
| Interactive.ListingOrder | patchllm/interactive.py:24 | directories come before files, and within a kind lower-case names do not decrease |
| Interactive.TreeAt | patchllm/interactive.py:28-38 | the i-th entry of the tree is the i-th listed item with its relative path and kind, a directory holding its own subtree |
| Interactive.LevelPrefix | patchllm/interactive.py:28-29 | an entry depends only on its place, not on how many items are drawn after it |
| Interactive.BuildChoicesRecursively | patchllm/interactive.py:13-44 | the recursive method draws the lines of the directory's tree |
| Interactive.LevelChoices | patchllm/interactive.py:28-44 | the loop draws the lines of all entries in order |
| Interactive.ItemChoices | patchllm/interactive.py:29-42 | one item draws its entry's lines |
| Interactive.TreeChoices | patchllm/interactive.py:21-52 | the call on the base fails iff the base is a file; a missing directory gives no line |
| Interactive.HiddenLastFile | patchllm/interactive.py:40-42 | when the last listed item is a hidden file, no line at the top level has the closing corner |
| Interactive.ExpandedMembers | patchllm/interactive.py:85-99 | a file is selected iff some ticked line names it, or names a directory it lies in and it is not hidden |
| Interactive.ExpandedFiles | patchllm/interactive.py:85-99 | the selection is strictly sorted and holds only files |
| Interactive.FolderExpands | patchllm/interactive.py:90-94 | ticking a folder selects every non-hidden file below it |
| Interactive.WalkKeeps | patchllm/interactive.py:92-94 | the walk below a folder keeps exactly the expansion of that folder |
| Interactive.KeepWalked | patchllm/interactive.py:92-94 | the walk loop adds exactly the kept walked files |
| Interactive.AddFilesBelow | patchllm/interactive.py:90-94 | a folder adds exactly its expansion |
| Interactive.ReadSelection | patchllm/interactive.py:79-83 | the loop keeps the extracted path of every ticked line that has one, in order |
| Interactive.GatherFiles | patchllm/interactive.py:85-97 | the loop gathers the union of the files each extracted path brings in |
| Interactive.ExpandSelection | patchllm/interactive.py:79-99 | the ticked lines become the sorted expanded selection |
| Interactive.SelectionIsFiles | patchllm/interactive.py:47-106 | the picker raises (no result) iff the base is a file; otherwise it returns a strictly sorted list of files, empty when the base is missing or the prompt is cancelled |
| Handlers.SortedNames | patchllm/cli/handlers.py:30 | scope names strictly sorted, exactly the scopes, one each |
| Handlers.Lookup | patchllm/cli/handlers.py:33-38 | shown iff the scope exists and is non-empty, showing its data; otherwise not-found |
| Handlers.SplitParts | patchllm/cli/handlers.py:64 | splitting fails iff there is no `=`; otherwise key, `=`, value is the text and the key has no `=` |
| Handlers.SplitJoin | patchllm/cli/handlers.py:64 | a key without `=`, joined to any value by `=`, splits back into key and value |
| Handlers.PrefixEndsAtFailure | patchllm/cli/handlers.py:62-69 | the applied prefix ends exactly at the first update that fails to parse |
| Handlers.LastWins | patchllm/cli/handlers.py:66 | after applying assignments, a key holds the value of its last assignment, or its old value when never assigned |
| Handlers.ReadOnlyActions | patchllm/cli/handlers.py:25-38 | listing and showing change neither the scopes nor the saved file |
| Handlers.ListSorted | patchllm/cli/handlers.py:25-31 | listing reports the scope names sorted, exactly the scopes |
| Handlers.AddExisting | patchllm/cli/handlers.py:41-43 | adding an existing scope reports it and changes nothing |
| Handlers.AddNew | patchllm/cli/handlers.py:44-45 | adding a new scope adds only it, with the default entry, and saves |
| Handlers.RemoveOnlyThat | patchllm/cli/handlers.py:47-52 | removing a missing scope reports it; otherwise only that scope goes, and the result is saved |
| Handlers.UpdateRejected | patchllm/cli/handlers.py:55-61 | fewer than two arguments is a usage error, an unknown scope is not found; nothing changes |
| Handlers.UpdateWritten | patchllm/cli/handlers.py:62-67 | when every update parses, the scope set is kept, other scopes are untouched, and the result is saved |
| Handlers.UpdateLastWins | patchllm/cli/handlers.py:63-66 | after a fully parsed update each key holds its last assigned value, others their old value |
| Handlers.UpdateStopsAtError | patchllm/cli/handlers.py:62-69 | at the first failing update the earlier assignments stay in memory, the saved file is unchanged, and a parse error is reported |
| Handlers.NoOption | patchllm/cli/handlers.py:25-54 | with no option given nothing happens |
| Handlers.ApplyUpdates | patchllm/cli/handlers.py:62-66 | the loop stops at the first failing update and holds the scope with the earlier assignments |
| Handlers.ScopeRegistry.HandleScopeManagement | patchllm/cli/handlers.py:23-69 | the new scopes and saved file are those of the handling function |
| Handlers.ScopeRegistry.UpdateScopeEntries | patchllm/cli/handlers.py:54-69 | the new scopes and saved file are those of the update function |

## Left out

- Globbing (`glob.glob` with `recursive=True`) is a parameter. Its matching rules are not modelled; only files it returns are kept.
- `git` is a parameter that returns output lines. Running it and its errors (`FileNotFoundError`, `CalledProcessError`) give no lines.
- Modification times for `@recent` enter as the list of files ordered by time. A failing `stat` is not modelled.
- The URL fetcher (`fetch_and_process_urls`) is a parameter.
- The LLM (`run_llm_query`), the step executor and `planner.generate_plan` are parameters of the session, and `agent/executor.py` is not part of this model.
- The modules `patchllm/scopes/resolvers.py`, `patchllm/scopes/structure.py` and `patchllm/scopes/helpers.py`, used by `scopes/builder.py`, are not part of this model. Their resolver and structure view are parameters of `Builder`. Their formatter is taken to be `_format_context` of `context.py` with the file list added under `files`, which is the key the session reads.
- `ast.literal_eval` is the parameter `literal` of `Handlers`. `None` stands for `ValueError` or `SyntaxError`.
- The InquirerPy check-list prompt is a parameter: its answer is the ticked lines, or none when cancelled. Its validator and `KeyboardInterrupt` are the "no answer" case.
- The order of `iterdir` and `rglob` is some fixed order of the file system value. The results that matter are sorted afterwards.
- Regular expressions of `LANGUAGE_PATTERNS` are predicates given per language. Only their order and the first-match rule are modelled.
- `\d` and `\s` in the plan and file-block regexes are ASCII digits and ASCII/Unicode whitespace as listed in `Strings`. Lower-casing is ASCII only.
- Symbolic links are not modelled. `Path.resolve` is lexical normalisation of `.` and `..` on an absolute base, and `exists()` (`FileSystem.Exists`) walks the path's components without following links.
- ScopeConfig.TextSetting: a `path` setting that is not a string reads as `"."`, where `Path(...)` raises `TypeError` (patchllm/context.py:442, patchllm/scopes/builder.py:33). A list setting or `exclude_extensions` whose value is neither a string nor a list (a number, `null`, a dictionary) reads as empty or as the default list, where Python raises or iterates the keys. A string is iterated character by character, as in the source.
- ContextBuild.ResolveStatic: the same reading of settings of the wrong type as ScopeConfig.TextSetting.
- Builder.ResolveScope: the same reading of settings of the wrong type as ScopeConfig.TextSetting.
- Session.AgentSession.ApproveChanges: pastes with the exact comparison (`Parser.Store`), not the text-mode comparison of patchllm/parser.py:38, so a file whose stored text differs from the code only in carriage returns is rewritten (see Findings).
- Session.Approve: the same corrected comparison as Session.AgentSession.ApproveChanges.
- Session.ApproveAdvances: the same corrected comparison as Session.AgentSession.ApproveChanges.
- ContextBuild.BuildContext: the `@structure` branch excludes only directories below the base path, not every part of the absolute path as patchllm/context.py:333 does, so a project under a directory named like `build` still gets its structure (see Findings).
- ChoiceTree.ReadBack: assumes relative paths without line breaks (`PlainNames`), since the line regex `(.*)` stops at one; the icons may appear in names, as the drawn icon always comes first.
- ChoiceTree.Selectable: the same restriction to relative paths without line breaks.
- ChoiceTree.ExtractFromChoice: the same restriction to relative paths without line breaks.
- Paths.RelativeParts: no round trip between `relative_to` and joining is proved.
- Console output, colours and the `rich` panels are left out. Reports are values such as `Handlers.Report`.
- `parser.error` in `--update-scope` is the report `UsageError`. The process exit it causes is not modelled.
- `Handlers.ApplyUpdates` keeps the scope being updated in a local value and writes it back at the end. This is the same state as the in-place updates of `scopes[scope_name]`, since nothing reads the dictionary in between.
- `handle_init` and the other handlers in `patchllm/cli/handlers.py` (file, voice, chat and run flows), `patchllm/main.py`, `patchllm/tui/interface.py` and `patchllm/chat/chat.py` are callers of the core and are left out.
- `cli.helpers.get_system_prompt()` and the model name are inputs of the session's constructor.

## Findings

| source | as written | input that shows it | evidently intended | confidence | as-written member | corrected member |
|---|---|---|---|---|---|---|
| patchllm/parser.py:38 | the file is compared with `read_text`, which turns `\r` and `\r\n` into `\n` | a file holding `"\r"` and a block with code `"\n"` is skipped although the bytes differ; code holding `"\r"` is rewritten on every paste | skip only when the stored text equals the code | not executed | ParserProperties.TextModeSkipsDifferentFile | ParserProperties.PasteTwiceExact |
| patchllm/parser.py:38 | as above | a block whose code holds `"\r"`, pasted twice into an empty directory, is written both times | a second paste writes nothing | not executed | ParserProperties.TextModeRewritesCarriageReturn | Parser.Store |
| patchllm/context.py:333 | the exclusion test looks at every part of the absolute path, the base path's own parts included | a project under `/home/u/build/app` selects no file for `@structure` | exclude only directories below the base path | not executed | Structure.ExcludedAncestorHidesAll | Structure.BelowOnlyIgnoresAncestors |

The corrected variants are the ones the rest of the model uses. The session's approval pastes
with the exact comparison, and the structure view filters on the parts below the base.
