# aIora core logic in Dafny

This project models the sequential core of aIora, a web application. A user's
instruction triggers a coding agent. The agent works in a sandbox, writes files,
and finishes with a task summary. The project also models the browser
components that show the resulting files and the small state machines around
them:

- **`helloWorld` agent run** (`agent_network.dfy` for the specification, `agent_run.dfy` for the imperative state and loop, from `src/inngest/functions.ts`).
  - A sandbox is created.
  - A single code agent is routed at most 15 times. The router halts as soon
    as the shared run state holds a truthy `summary`.
  - The `onResponse` hook stores the last assistant text as the summary when
    it contains `<task_summary>`.
  - The three tools:
    - `terminal` collects streamed stdout/stderr into append-only buffers and
      never throws.
    - `createOrUpdateFiles` writes the files into the sandbox and into
      `state.data.files` in array order.
    - `readFiles` returns one entry per path in order.
  - **Abstract inputs.** The language model and the sandbox service are not
    modelled.
    - The model's answer for each iteration comes from an abstract function
      `agent(input, iteration)`.
    - Each tool call carries what the sandbox did: the chunks a command
      printed, or how many files were written or read before the sandbox
      threw.
  - The tools, the router and the loop are imperative Dafny (`RunState`,
    `Sandbox`, `Buffers`, `RunNetwork`, `HelloWorld`). Each is proved equal to
    a functional specification (`Run`, `AfterTurn`, `WriteCall`, `ReadAll`,
    `TerminalOutput`), and the lemmas are stated about that specification.
- **Folder tree** (`file_tree.dfy`, from `src/components/file-explorer.tsx`).
  - `buildFolderStructure` is modelled as its two imperative passes.
  - `filterFiles` and `flattenFiles` are modelled as recursive functions on
    the tree.
- **Explorer state** (`file_explorer.dfy`). A class holds the explorer's React
  state: expanded folders, breadcrumb, open tabs, active tab and shown file. It
  has the handlers `toggleFolder`, `handleFileClick`, `handleFileRemove` and
  `handleTabChange`.
- **Code viewer** (`code_view.dfy`, from `src/components/code-view/index.tsx`).
  - The pure parts: file extension, Prism language, display name and directory
    label.
  - The `currentFile` state and the choice of the next tab after a close.
- **Project header** (`project_header.dfy`, from
  `src/modules/porjects/ui/components/project-header.tsx`).
  - The `formatLastModified` buckets.
  - The light/dark/system rule for the `dark` class.
  - The saved-theme restore.
- **Code agent endpoint** (`code_agent_route.dfy`, from
  `src/app/api/code-agent/route.ts`).
  - Request validation.
  - The `tier = "free"` default.
  - Choosing between the free-tier and premium agent events.
  - The response labels.
- **Tier context** (`tier_context.dfy`, from `src/hooks/use-context.tsx`). The
  free/premium provider: initial value, load from storage, `setTier`,
  `toggleTier`, persisting, and the `useTier` guard.

Shared pieces:

- `strings.dfy` models the JavaScript string operations the sources use:
  - `split` on one character, and `join`;
  - `split("/").filter(Boolean)`;
  - `lastIndexOf`, `includes`, ASCII `toLowerCase`, and decimal rendering.
- `browser.dfy` models `localStorage` and the `<html>` class list as small
  classes.
- `wrappers.dfy` holds `Option` and `Result`.

**Behaviour a reader may not expect:**

- **`readFiles` failure.** The handler rethrows every failure as "File read
  failed: …" (`src/inngest/functions.ts:149-152`): a missing file, a failed
  read of an existing file, or a failed reconnection to the sandbox. It does
  not turn the failure into a returned string, as `terminal` does. What the
  agent framework does with a thrown handler error is outside the source; the
  model assumes that it ends the run (see "## Left out").
- **Overwriting the summary.** The summary is overwritten whenever a marked
  text arrives. `SummaryEndsTheRun` shows that this cannot happen twice: the
  run ends with the turn that set it.
- **Result shape.**
  - `helloWorld` returns `{url, title: "Fragmnts", files, summary}` directly,
    with `url` null when `getHost` throws.
  - It does not persist anything or judge the run, and it has no title or
    response generation. Those belong to other functions that are not part of
    this model.

## Model

| member | source | states |
|---|---|---|
| AgentNetwork.Buffers.constructor | src/inngest/functions.ts:53 | both command buffers start empty |
| AgentNetwork.Buffers.OnStdout | src/inngest/functions.ts:58-60 | a stdout chunk is appended to the stdout buffer and stderr is untouched |
| AgentNetwork.Buffers.OnStderr | src/inngest/functions.ts:61-63 | a stderr chunk is appended to the stderr buffer and stdout is untouched |
| AgentNetwork.BuffersAppendOnly | src/inngest/functions.ts:58-63 | the buffers only grow: the chunks of a later part are appended to what earlier chunks left |
| AgentNetwork.RunTerminal | src/inngest/functions.ts:52-73 | the tool returns (never throws) the resolved stdout when non-empty, else the stdout buffer; after a throw it returns the failure text built from the error and both buffers |
| AgentNetwork.FinishedOutput | src/inngest/functions.ts:65-67 | a non-empty `result.stdout` wins; an empty one falls back to the accumulated stdout |
| AgentNetwork.FailureReportsBothBuffers | src/inngest/functions.ts:68-73 | the failure text starts with "Command failed: " and contains the error, the whole stdout buffer and the whole stderr buffer |
| AgentNetwork.LastWriteTo | src/inngest/functions.ts:106-110 | no content exactly when no write names the path; otherwise the content of the last write to it |
| AgentNetwork.WriteAllLookup | src/inngest/functions.ts:103-110 | after a batch of writes a path holds its last written content, paths no write names keep their content, and no path disappears |
| AgentNetwork.WriteAllAppend | src/inngest/functions.ts:106-110 | writing two batches one after the other equals writing their concatenation |
| AgentNetwork.ReadAll | src/inngest/functions.ts:139-152 | success iff every requested path exists; then one `{path, content}` entry per path in request order; otherwise the first path that cannot be read |
| AgentNetwork.TerminalOutput | src/inngest/functions.ts:52-73 | (definition, no contract of its own) the string the terminal tool returns for a command that resolved or threw; `FinishedOutput` and `FailureReportsBothBuffers` state its properties |
| AgentNetwork.ReadCall | src/inngest/functions.ts:137-152 | the paths are read in order until the sandbox throws; success iff nothing threw and every path exists, and then exactly `ReadAll`'s entries; otherwise the first missing path among those read, or "File read failed: " with the sandbox's error |
| AgentNetwork.ReadCallWithoutFailure | src/inngest/functions.ts:141-145 | when the sandbox does not throw, reading succeeds or fails exactly as `ReadAll` does |
| AgentNetwork.ReadAfterWrite | src/inngest/functions.ts:106-145 | reading a path back after a batch of writes returns exactly the content last written to it |
| AgentNetwork.Sandbox.constructor | src/inngest/functions.ts:21-24 | the created sandbox has the id it was created with and starts with the template's files |
| AgentNetwork.Sandbox.Write | src/inngest/functions.ts:108 | `files.write` sets that one path and nothing else |
| AgentNetwork.ReadFilesTool | src/inngest/functions.ts:134-154 | the pushing loop, reconnection included, returns exactly `ReadCall` of the sandbox's files and the point where the sandbox threw |
| AgentNetwork.WithData | src/inngest/functions.ts:197-199 | afterwards `data` exists; existing data is untouched; fresh data has neither files nor summary; the sandbox is untouched |
| AgentNetwork.SummaryAfter | src/inngest/functions.ts:178-181 | the summary becomes the text iff the text contains `<task_summary>`, otherwise it is unchanged |
| AgentNetwork.AfterResponse | src/inngest/functions.ts:159-185 | `onResponse` leaves the sandbox alone, creates data iff it had none and the text is truthy, makes a marked text the summary, and with data present changes nothing for an unmarked text |
| AgentNetwork.MarkedIsTruthy | src/inngest/functions.ts:172-178 | a text carrying the marker is non-empty, so the truthiness guard never blocks a summary |
| AgentRun.RunState.constructor | src/inngest/functions.ts:189-192 | the network starts with no `data`, hence no files and no summary |
| AgentRun.RunState.EnsureData | src/inngest/functions.ts:197-199 | `data` exists afterwards; existing files and summary are untouched, fresh data has none |
| AgentRun.RunState.Route | src/inngest/functions.ts:193-212 | the router never fails on missing data, and continues with the code agent iff the summary is not truthy |
| AgentRun.RunState.OnResponse | src/inngest/functions.ts:159-185 | data is created only for a truthy text; the summary is replaced by the text iff it carries the marker; files are untouched |
| AgentNetwork.WriteCall | src/inngest/functions.ts:90-124 | data exists afterwards and the summary is untouched; success iff the sandbox did not throw, with the fixed success message and a stored files object; a throw gives "File operation failed: " with the error |
| AgentRun.CreateOrUpdateFilesTool | src/inngest/functions.ts:90-124 | equals `WriteCall`: on success files = the old files (or `{}`) with every write applied in order and the fixed success message; on a failure after `n` writes an "File operation failed: " error, with those `n` writes already in the sandbox and in the state's own files object |
| AgentRun.InvokeTool | src/inngest/functions.ts:42-155 | each tool call has exactly the effect and output of its specification (terminal, createOrUpdateFiles, readFiles) |
| AgentNetwork.AfterCallsKeepsSummary | src/inngest/functions.ts:90-154 | no tool changes the summary or removes `data` |
| AgentNetwork.AfterTurn | src/inngest/functions.ts:159-185 | (definition, no contract of its own) one turn: `onResponse` with the answer's text, then its tool calls in order until one throws; `TurnKeepsSummary` states its properties |
| AgentRun.RunTurn | src/inngest/functions.ts:159-185 | one turn is `onResponse` followed by the tool calls in order, stopping at the first that throws |
| AgentRun.RunRound | src/inngest/functions.ts:193-212 | one round (router, then a turn unless it halted) leaves a state from which the rest of the specified run is unchanged, or ends the run exactly as `Run` does |
| AgentRun.RunNetwork | src/inngest/functions.ts:189-216 | the network loop ends in exactly the state, turn count and error of the specification `Run` |
| AgentNetwork.Run | src/inngest/functions.ts:189-213 | (definition, no contract of its own) `network.run`: route, halt on a truthy summary, otherwise one more turn, up to 15 turns, ending on a thrown tool error; `RunIsBounded`, `RunStopReason`, `SummaryEndsTheRun` and `RunWritesInOrder` state its properties |
| AgentNetwork.RunIsBounded | src/inngest/functions.ts:192 | a run never executes more than 15 agent turns |
| AgentNetwork.RunStopReason | src/inngest/functions.ts:193-212 | a run without error ends because the router halted on a summary or because 15 turns ran; an error always comes from a turn |
| AgentNetwork.SummaryEndsTheRun | src/inngest/functions.ts:204-208 | once a turn leaves a summary, the run ends before another turn, in exactly that turn's state |
| AgentNetwork.TurnKeepsSummary | src/inngest/functions.ts:172-181 | a turn never clears a summary, and every summary it leaves carries the marker |
| AgentNetwork.RunSummaryMarked | src/inngest/functions.ts:178-181 | every summary a run ends with contains `<task_summary>` |
| AgentNetwork.CallsWriteInOrder | src/inngest/functions.ts:103-122 | after tool calls that all succeed, files equal the previous files with the writes of every createOrUpdateFiles call applied in call order |
| AgentNetwork.RunWritesInOrder | src/inngest/functions.ts:189-213 | after an error-free run, files equal the initial files with every write of every turn applied in order |
| AgentNetwork.SandboxUrl | src/inngest/functions.ts:226-235 | the URL is `https://` followed by the host, and null exactly when the host could not be obtained |
| AgentRun.HelloWorld | src/inngest/functions.ts:17-243 | the whole function returns exactly `HelloWorldSpec`: a creation failure is "Failed to create sandbox: …", a tool error is raised, otherwise `{url, title, files, summary}` of the finished run |
| AgentNetwork.HelloWorldSpec | src/inngest/functions.ts:17-243 | (definition, no contract of its own) the whole function on values: creation failure, the run, then `{url, title, files, summary}`; `HelloWorldResult` states its properties |
| AgentNetwork.HelloWorldResult | src/inngest/functions.ts:237-242 | a failed sandbox creation fails before any turn; a successful result is titled "Fragmnts", carries the resolved URL and a marked summary (if any), holds every write of the run in order, after at most 15 turns |
| FileTree.Occupied | src/components/file-explorer.tsx:95 | (definition, no contract of its own) whether `structure[currentPath]` is truthy: a node exists for the key, or, as written, the key names an inherited member of a plain object |
| FileTree.FirstPass | src/components/file-explorer.tsx:87-108 | (definition, no contract of its own) the first pass over the files; `FirstPassWellFormed`, `FirstPassKeys` and `FirstCreationWins` state its properties |
| FileTree.FirstPassWellFormed | src/components/file-explorer.tsx:87-108 | the first pass lists every node once in creation order, and each node's path is its dictionary key |
| FileTree.FirstPassKeys | src/components/file-explorer.tsx:87-107 | a node exists exactly for every joined non-empty prefix of the `/`-separated segments of some input path |
| FileTree.FirstCreationWins | src/components/file-explorer.tsx:95-106 | the node of a path is the one made for the earliest file producing it: named after its segment, a file iff it was the last segment, with that file's extension |
| FileTree.NodeNamedByLastSegment | src/components/file-explorer.tsx:96-100 | every node has at least one segment, its id and path equal its key, and its name is the last segment of its path |
| FileTree.RootsInMembers | src/components/file-explorer.tsx:114-116 | the roots are exactly the visited single-segment paths, each once |
| FileTree.ChildrenInMembers | src/components/file-explorer.tsx:118-123 | a folder's children are exactly the visited paths whose parent path is that folder, each once |
| FileTree.CreateNodes | src/components/file-explorer.tsx:87-108 | the first pass leaves exactly the table (nodes and insertion order) of the specification `FirstPass` |
| FileTree.LinkNodes | src/components/file-explorer.tsx:111-125 | the second pass over a well-formed table pushes exactly the single-segment nodes as roots and each node onto its parent folder's children, in insertion order |
| FileTree.BuildFolderStructure | src/components/file-explorer.tsx:82-128 | the two imperative passes produce exactly the first-pass nodes, the roots and each folder's children lists (folders start with none) |
| FileTree.ParentIsNode | src/components/file-explorer.tsx:119-121 | the parent path of every non-root node is itself a node |
| FileTree.RootsAreSingleSegmentNodes | src/components/file-explorer.tsx:111-116 | roots are listed once each, and a node is a root iff it has a single segment |
| FileTree.ChildrenOfFolder | src/components/file-explorer.tsx:111-125 | each children list has no duplicates and holds exactly the nodes whose parent is that folder; a root has no parent, so no node is placed twice |
| FileTree.NonRootPlacement | src/components/file-explorer.tsx:117-124 | a non-root node is under its existing parent when that parent is a folder, and is in no list when the parent is a file |
| FileTree.InheritedMemberPathIsDropped | src/components/file-explorer.tsx:95 | as written, a file at path "toString" gets no node at all; as intended it gets one |
| FileTree.Matches | src/components/file-explorer.tsx:275-277 | (definition, no contract of its own) the node name, lower-cased, includes the lower-cased query |
| FileTree.FilterFiles | src/components/file-explorer.tsx:273-293 | the filtered list is never longer than the list it filters |
| FileTree.FilteredFiles | src/components/file-explorer.tsx:271-294 | an empty query returns the tree itself; any query yields no more top-level nodes than the tree has |
| FileTree.FilterNode | src/components/file-explorer.tsx:274-292 | each node contributes at most one node to the filtered list |
| FileTree.KeptIffSomeMatch | src/components/file-explorer.tsx:279-289 | a node survives the filter iff its name or some descendant's name contains the query, case-insensitively |
| FileTree.KeptIffSomeMatchIn | src/components/file-explorer.tsx:273-293 | the filtered list is non-empty iff some node or descendant matches |
| FileTree.FilterEmptyQuery | src/components/file-explorer.tsx:271 | with an empty query filtering returns the tree unchanged |
| FileTree.FilterIdempotent | src/components/file-explorer.tsx:273-293 | filtering a filtered tree again by the same query changes nothing |
| FileTree.FilteredFilesAreMatchingFiles | src/components/file-explorer.tsx:273-293 | the files left in the filtered tree are exactly the tree's matching files, in the same order |
| FileTree.FlattenFiles | src/components/file-explorer.tsx:359-371 | every top-level node is listed, so the list is at least as long as the input |
| FileTree.FlattenNothingExpanded | src/components/file-explorer.tsx:359-371 | with no folder expanded, only the top-level nodes are listed |
| FileTree.FlattenAllExpanded | src/components/file-explorer.tsx:359-371 | with every folder expanded, the list is the full pre-order of the tree |
| FileTree.FlattenListsTreeNodes | src/components/file-explorer.tsx:359-371 | every listed node is a node of the tree |
| FileExplorer.Toggled | src/components/file-explorer.tsx:183-190 | exactly the toggled id changes membership |
| FileExplorer.ToggleTwice | src/components/file-explorer.tsx:183-190 | toggling the same folder twice restores the set |
| FileExplorer.IndexOfPath | src/components/file-explorer.tsx:211 | -1 iff no node has the path; otherwise the first node with it |
| FileExplorer.FindByPath | src/components/file-explorer.tsx:244 | none iff no node has the path; otherwise the first node with it |
| FileExplorer.WithoutPath | src/components/file-explorer.tsx:226 | exactly the nodes with another path remain |
| FileExplorer.WithoutPathPaths | src/components/file-explorer.tsx:226 | after closing, a path is open iff it was open and is not the closed one |
| FileExplorer.WithoutAbsentPath | src/components/file-explorer.tsx:226 | closing a path that is not open leaves the tabs unchanged |
| FileExplorer.WithoutPathDistinct | src/components/file-explorer.tsx:225-228 | closing keeps the open paths distinct |
| FileExplorer.CloseTwice | src/components/file-explorer.tsx:226 | closing the same path twice equals closing it once |
| FileExplorer.Explorer.constructor | src/components/file-explorer.tsx:70-80 | nothing expanded, breadcrumb `[""]`, no open tab, no active tab, nothing shown |
| FileExplorer.Explorer.ToggleFolder | src/components/file-explorer.tsx:183-192 | the expanded set is toggled at the folder id and nothing else changes |
| FileExplorer.Explorer.HandleFileClick | src/components/file-explorer.tsx:194-223 | a folder toggles and sets the breadcrumb to `""` plus its segments; a file is replaced by the flat entry with its path, appended to the tabs only if its path is not open, and becomes the active, shown tab; tabs stay distinct |
| FileExplorer.Explorer.HandleFileRemove | src/components/file-explorer.tsx:225-241 | every tab with the path closes; if it was active, the last remaining tab becomes active and shown, or none when no tab remains; other state is unchanged |
| FileExplorer.Explorer.HandleTabChange | src/components/file-explorer.tsx:243-250 | the active tab changes only to an open path, and then shows that tab's file |
| FileExplorer.FolderClickedTwice | src/components/file-explorer.tsx:204-208 | clicking a folder twice restores the expanded set and leaves the tabs alone |
| FileExplorer.OpenThenClose | src/components/file-explorer.tsx:211-228 | after opening a file and closing its path, no tab with that path is open |
| CodeView.FileExtension | src/components/code-view/index.tsx:61-63 | the extension never contains "." |
| CodeView.ExtensionIsTextAfterLastDot | src/components/code-view/index.tsx:61-63 | the extension is the lower-cased text after the last ".", the whole lower-cased name without a ".", and never contains "." |
| CodeView.ExtensionOfDottedName | src/components/code-view/index.tsx:61-63 | the extension of `base.ext` is `ext` lower-cased |
| CodeView.LanguageOf | src/components/code-view/index.tsx:65-82 | the map's entry for the extension, else "javascript" |
| CodeView.LanguageIsKnown | src/components/code-view/index.tsx:67-81 | the language is always one of the map's languages or "javascript" |
| CodeView.LanguageLookupAsWritten | src/components/code-view/index.tsx:81 | as written, the lookup answers with an inherited member exactly for the extensions "constructor" and "__proto__", and otherwise agrees with `LanguageOf` |
| CodeView.ConstructorExtensionIsNotALanguage | src/components/code-view/index.tsx:81 | the file "app.constructor" gets an inherited function, not a language name |
| CodeView.DisplayName | src/components/code-view/index.tsx:233-235 | the display name never contains "/", and a name without "/" is shown whole |
| CodeView.DirectoryLabel | src/components/code-view/index.tsx:265-270 | for a name with "/" the label is the part before the last "/"; otherwise "src" |
| CodeView.DirectoryAndDisplayNameSplitPath | src/components/code-view/index.tsx:260-270 | for a name containing "/", directory label, "/" and display name put back together give the name, and the display name has no "/" |
| CodeView.InitialCurrentFile | src/components/code-view/index.tsx:55-57 | a truthy `activeFile`, else the first file's name, else "" |
| CodeView.FindIndex | src/components/code-view/index.tsx:126 | -1 iff no file has the name, otherwise the first index with it |
| CodeView.WithoutName | src/components/code-view/index.tsx:124 | exactly the files with another name remain |
| CodeView.WithoutNameKeepsPrefix | src/components/code-view/index.tsx:124-127 | files before the first closed one keep their positions |
| CodeView.CurrentAfterClose | src/components/code-view/index.tsx:119-136 | closing another tab keeps the current one; closing the current one selects the preceding tab, or the new first tab when it was first, never the closed name, or "" when none remain |
| CodeView.ClosingWithButtonsLeavesATab | src/components/code-view/index.tsx:237-240 | with close buttons shown (more than one file), closing a uniquely named file leaves a tab to select |
| CodeView.Viewer.constructor | src/components/code-view/index.tsx:55-57 | the current file starts as `InitialCurrentFile` |
| CodeView.Viewer.ShowsCloseButtons | src/components/code-view/index.tsx:237 | (definition, no contract of its own) close buttons are shown when more than one file is shown; `ClosingWithButtonsLeavesATab` states what that guarantees |
| CodeView.Viewer.CurrentFileData | src/components/code-view/index.tsx:84 | present iff some file has the current name, and then the first file with that name |
| CodeView.Viewer.PrismLanguage | src/components/code-view/index.tsx:84-88 | the current file's language, or "javascript" when no file matches |
| CodeView.Viewer.SyncActiveFile | src/components/code-view/index.tsx:90-94 | a truthy `activeFile` becomes current, otherwise nothing changes |
| CodeView.Viewer.HandleFileChange | src/components/code-view/index.tsx:114-117 | the chosen tab becomes current and is reported |
| CodeView.Viewer.HandleFileRemove | src/components/code-view/index.tsx:119-136 | the current file becomes `CurrentAfterClose`; a change is reported iff the current tab closed and tabs remain; the removal is always reported |
| ProjectHeader.LabelText | src/modules/porjects/ui/components/project-header.tsx:117-120 | a text label exists for every bucket except the locale date |
| ProjectHeader.FormatLastModified | src/modules/porjects/ui/components/project-header.tsx:111-121 | "Just now" iff under a minute (future dates included), minutes iff under an hour, hours iff under a day (each with the floor bounds), otherwise the date itself |
| ProjectHeader.FutureIsJustNow | src/modules/porjects/ui/components/project-header.tsx:113-117 | a date in the future reads "Just now" |
| ProjectHeader.InitialTheme | src/modules/porjects/ui/components/project-header.tsx:53 | the saved theme when non-empty, otherwise "system"; never empty |
| ProjectHeader.DarkFor | src/modules/porjects/ui/components/project-header.tsx:58-76 | (definition, no contract of its own) whether the dark class ends up present: never for "light", always for "dark", else the colour-scheme preference; `Header.ApplyTheme` and `Header.HandleThemeChange` are proved against it |
| ProjectHeader.Header.constructor | src/modules/porjects/ui/components/project-header.tsx:40-43 | theme "system", theme options closed |
| ProjectHeader.Header.ApplyTheme | src/modules/porjects/ui/components/project-header.tsx:58-76 | "light" removes the dark class, "dark" adds it, anything else follows the colour-scheme preference; no other class changes |
| ProjectHeader.Header.Mount | src/modules/porjects/ui/components/project-header.tsx:46-56 | the theme becomes the saved one or "system" and is applied |
| ProjectHeader.Header.OpenThemeOptions | src/modules/porjects/ui/components/project-header.tsx:185 | the theme options open; the theme is unchanged |
| ProjectHeader.Header.CloseThemeOptions | src/modules/porjects/ui/components/project-header.tsx:200 | the theme options close; the theme is unchanged |
| ProjectHeader.Header.HandleThemeChange | src/modules/porjects/ui/components/project-header.tsx:78-109 | the theme is set, saved under "theme", the options close, and the dark class ends as `ApplyTheme` would leave it |
| ProjectHeader.ChosenThemeSurvivesRemount | src/modules/porjects/ui/components/project-header.tsx:46-109 | a theme chosen in one header is the theme and dark-class state the next mounted header starts with |
| CodeAgentRoute.TierOf | src/app/api/code-agent/route.ts:7 | the default "free" applies only when `tier` is missing; any present value (null too) is kept |
| CodeAgentRoute.EventName | src/app/api/code-agent/route.ts:17-18 | the free-tier event iff the tier is exactly the string "free", otherwise the premium event |
| CodeAgentRoute.ResponseMessage | src/app/api/code-agent/route.ts:35-37 | labelled "Free tier" iff the tier is "free", otherwise "Premium tier", by the same test as the event |
| CodeAgentRoute.Stringifiable | src/app/api/code-agent/route.ts:20 | (definition, no contract of its own) whether the log line's template can turn the value into a string: not for an object with its own `toString` member, nor for an array holding one |
| CodeAgentRoute.Post | src/app/api/code-agent/route.ts:4-46 | unparseable or null body gives 500; a falsy projectId or message gives 400 and sends nothing; a tier or projectId the log line cannot stringify gives 500 and sends nothing; otherwise the event carries projectId and message unchanged; 200 iff the send succeeded, echoing the tier and `ids[0]` as the event id (none when no id came back); a failed send gives 500 |
| CodeAgentRoute.AbsentTierIsFree | src/app/api/code-agent/route.ts:7-29 | a valid body without `tier` is sent to the free-tier agent when its projectId can be logged, and otherwise answered 500 with nothing sent |
| CodeAgentRoute.UnloggableProjectIdIsNotSent | src/app/api/code-agent/route.ts:20-44 | the body `{"projectId": {"toString": 1}, "message": "m"}` is answered 500 "Failed to trigger code agent" and no event is sent |
| TierContext.TierName | src/hooks/use-context.tsx:11 | the stored name is "free" exactly for the free tier, and otherwise "premium" |
| TierContext.ParseTier | src/hooks/use-context.tsx:26-30 | a stored value is adopted iff it is exactly "free" or "premium" |
| TierContext.ParseSavedTier | src/hooks/use-context.tsx:28-36 | what is saved for a tier reads back as that tier |
| TierContext.Toggled | src/hooks/use-context.tsx:44-46 | toggling always changes the tier |
| TierContext.ToggleTwice | src/hooks/use-context.tsx:44-46 | toggling twice is the identity |
| TierContext.UseTier | src/hooks/use-context.tsx:55-61 | the provided context, or the "useTier must be used within a TierProvider" error when there is none |
| TierContext.TierProvider.constructor | src/hooks/use-context.tsx:22 | the tier starts as free |
| TierContext.TierProvider.Persist | src/hooks/use-context.tsx:34-38 | with a window, storage holds the tier under "tier", otherwise storage is untouched |
| TierContext.TierProvider.Mount | src/hooks/use-context.tsx:25-38 | the tier becomes the stored one when valid, else stays; storage then holds it; other keys are untouched |
| TierContext.TierProvider.SetTier | src/hooks/use-context.tsx:40-42 | the tier becomes exactly `t` and storage holds it |
| TierContext.TierProvider.ToggleTier | src/hooks/use-context.tsx:44-46 | free becomes premium and premium becomes free, and storage holds the new tier |
| TierContext.ToggleTwiceRestores | src/hooks/use-context.tsx:44-46 | toggling twice restores both the tier and storage |
| Browser.Storage.constructor | src/hooks/use-context.tsx:27 | the storage starts with the given items |
| Browser.Storage.GetItem | src/hooks/use-context.tsx:27 | the stored string for the key, or none |
| Browser.Storage.SetItem | src/hooks/use-context.tsx:36 | exactly that key is set |
| Browser.Document.constructor | src/modules/porjects/ui/components/project-header.tsx:62-64 | the class list starts with the given classes |
| Browser.Document.AddClass | src/modules/porjects/ui/components/project-header.tsx:64 | the class is present afterwards and no other class changes |
| Browser.Document.RemoveClass | src/modules/porjects/ui/components/project-header.tsx:62 | the class is absent afterwards and no other class changes |
| Strings.Split | src/components/code-view/index.tsx:62 | `split` on one character gives at least one piece, and no piece contains the separator |
| Strings.JoinSplit | src/components/file-explorer.tsx:88-92 | joining the pieces of a split with the separator gives the string back |
| Strings.SplitJoin | src/components/file-explorer.tsx:88-92 | splitting a join of separator-free pieces gives the pieces back |
| Strings.Segments | src/components/file-explorer.tsx:88 | `split("/").filter(Boolean)` gives only non-empty pieces without "/" |
| Strings.SegmentsOfJoin | src/components/file-explorer.tsx:88-92 | the segments of the `/`-join of non-empty, slash-free pieces are those pieces |
| Strings.LastPieceAfterLastIndex | src/components/code-view/index.tsx:62 | the last piece of a split (what `pop()` returns) is the text after the last separator, or the whole string without one |
| Strings.LastIndexOf | src/components/code-view/index.tsx:268 | -1 iff the character is absent, otherwise an occurrence with none after it |
| Strings.Contains | src/components/file-explorer.tsx:275-277 | true iff the substring occurs at some index |
| Strings.Lower | src/components/file-explorer.tsx:276 | same length, each character lower-cased (ASCII) |
| Strings.DecimalRoundTrip | src/modules/porjects/ui/components/project-header.tsx:118 | the decimal rendering of a count parses back to that count |

## Left out

- The language model, the agent framework and the sandbox service. The model's
  answers, the sandbox's command output and its write failures are inputs.
  Sandbox creation and reconnection (`getSandbox`) are folded into those
  inputs: a reconnection failure is a failure before the first write or the
  first read, or a command that threw with empty buffers. The tool outputs are computed but
  not fed back into the abstract model.
- `step.run` durability, retries and memoisation. The run is modelled as one
  sequential pass, and every step runs once.
- The agent framework (`createAgent`, `createNetwork`) is not part of this
  model, and two of its behaviours are modelling assumptions:
  - Within a turn, `onResponse` runs before that turn's tool calls.
  - A tool handler that throws (createOrUpdateFiles at
    `src/inngest/functions.ts:114-117`, readFiles at `:149-152`) ends the run
    with that error.
  If the framework instead hands a thrown handler error back to the model as
  the tool's result, the run would go on to the next call and turn. Then
  these members would not describe the program: the error results of `Run`,
  `AfterCalls` and `AfterTurn`; `RunStopReason`'s "an error always comes from
  a turn"; `HelloWorld` and `HelloWorldSpec`'s raised tool error; and
  `HelloWorldResult`, `RunWritesInOrder` and `CallsWriteInOrder`, which speak
  only of error-free runs and calls. The other lemmas about writes, reads,
  the summary and the router would still hold of each call.
- AgentNetwork.WriteCall, AgentRun.CreateOrUpdateFilesTool: a write to the
  path `"__proto__"` is stored in the state's files. In the source,
  `updatedFiles["__proto__"] = content` (`src/inngest/functions.ts:109`) hits
  the setter that every plain object inherits. That setter ignores a string,
  so the sandbox gets the file but neither `state.data.files` nor the object
  the function returns holds it. `WriteAllLookup`, `CallsWriteInOrder`,
  `RunWritesInOrder` and `HelloWorldResult` therefore describe the state's
  files only for paths other than `"__proto__"`.
- Files changed in the sandbox by terminal commands. Only file writes change
  the modelled sandbox files.
- Logging (`console.log`/`console.error` everywhere), and the lengths and
  contents that are logged.
- The free-tier tools and the other agent functions named by the Inngest
  route. Their code is not part of this model.
- `formatFileSize` and `formatDate` in the explorer. Both are floating point or
  locale formatting. The locale date of `formatLastModified` is returned as an
  opaque `LocaleDate(dateMs)`.
- Clipboard, download and Prism highlighting in the code viewer. Icon choice,
  view mode, search input and all other rendering.
- The explorer's `console.log` of `filesContent`, and the `onFileSelect`/
  `onFolderToggle` callbacks, which only forward values.
- BuildFolderStructure: the shared node objects are named by their ids.
  - The nodes of the first pass, the ids in `result` and the ids in each folder's
    `children` are returned.
  - The nested `FileNode` tree that `filterFiles` and `flattenFiles` receive
    is taken as given. It is not rebuilt from those lists.
  - Node `size` and `modified` are not modelled.
- BuildFolderStructure: `Object.values` in the second pass visits nodes in
  creation order. JavaScript lists integer-like keys (a path such as "1") first,
  in numeric order, so the order of roots and children can differ for such
  paths.
- FileTree.Matches, Strings.Lower: lower-casing is ASCII-only. JavaScript's
  Unicode case mapping is not modelled.
- ProjectHeader: the colour-scheme media query is a parameter, and the stored
  theme is taken as the string found. Like the source's cast, it is not
  checked.
- CodeAgentRoute: the JSON body is an abstract parsed value with integer
  numbers. `request.json()` is either a value or a parse failure, and
  `inngest.send` either returns ids or throws.
- Database procedures, tRPC wiring, usage limiting, the theme toggle hook, forms
  and all purely visual components are outside the modelled core.

## Findings

| source | as written | input that shows it | evidently intended | confidence | as-written member | corrected member |
|---|---|---|---|---|---|---|
| src/components/file-explorer.tsx:95 | `!structure[currentPath]` asks a plain object literal, so a name inherited from Object.prototype counts as an existing node | a file at path "toString" gets no node and is missing from the tree (a path under a folder named "constructor" gets a node but is also missing from the tree, since that folder's `children` is undefined) | a node is created unless one was created for that path before | not executed | FileTree.InheritedMemberPathIsDropped | FileTree.BuildFolderStructure |
| src/components/code-view/index.tsx:81 | `languageMap[ext] \|\| "javascript"` on a plain object literal returns an inherited member for the extensions "constructor" and "__proto__" | a file named "app.constructor" gets the `Object` function as its language, and `prismLanguage.toUpperCase()` at line 274 then throws | unknown extensions fall back to "javascript" | not executed | CodeView.ConstructorExtensionIsNotALanguage | CodeView.LanguageOf |
