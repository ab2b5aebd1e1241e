# Chottu AI Assistant: a verified model of the PC-control path

Chottu lets a paired phone or desktop client ask the user's Windows PC to do
things. A request passes through three pieces.

- The **core server** pairs devices and checks their bearer tokens. Pairing is
  `/pair/start` and `/pair/confirm` over the `pairing_sessions` and `devices`
  tables; token checking is `authMiddleware`. The server also relays PC actions
  through `/api/pc/execute` and `/api/pc/nl`.
- Those two routes check the tool against a safe list and a destructive list.
  They demand `confirm` for the destructive tools, then forward the call to the
  local agent with the shared `x-agent-token`.
- The **local agent** listens on 127.0.0.1:8787. It checks the shared token. In
  its `/tool/run` dispatcher it checks the platform, the tool name and the
  `x-confirm: YES` header. It confines every file-system tool to the allowed
  roots and looks apps, URLs and projects up in fixed registries. It appends a
  line to an audit log for each handled request.

The agent's registries are plain objects, so the lookups also find the
inherited names "constructor" and "__proto__". Its audit line prints the
caller's `tool_name` as it is. The agent, the dispatcher and the `/tool/run`
handler are therefore modelled in two builds, selected by the `build` field of
the agent's configuration. `AsWritten` is the program as it stands.
`Corrected` looks up only registered names and writes the tool name as JSON.
Lemmas state what each build does and where the two differ (see Findings).

The project models each of those steps in Dafny and proves the security
properties the code is built to give.

- **Modules.**
  - `Text` and `Json`: the JavaScript string and JSON behaviour the handlers rely on.
  - `Sandbox`: Windows `path.resolve` and `resolveAllowedPath`.
  - `Guards`: the agent's request guards.
  - `Config`: the fixed roots and registries.
  - `Search`: the bounded file search.
  - `Agent`: the `/tool/run` dispatcher as functions over an effect log.
  - `AgentHttp`: audit line, reply, router.
  - `LocalAgentProcess`: the agent as a class whose methods issue the actions and append the log lines.
  - `PcControl`: the core server's two PC routes.
  - `Pairing`: the pairing tables as step functions, plus a `PairingStore` class whose methods are proved equal to them.
  - `DeviceAuth`: `authMiddleware`.
  - `MainServer`: the order in which the core server registers its routes.
- **Effects.** Effects on the machine are an `issued` / `effects` sequence of
  `Action`s: spawn, exec, mkdir, write, unlink, rm-tree. What the machine answers
  comes from an `Os` oracle: platform, existing files, failing actions and
  command output.
- **Parameters.** The clock, the random values and the outcome of HTTP calls are
  parameters of the operations.

## Model

| member | source | states |
|---|---|---|
| Text.TrimStartShape | server/routes/pc-control.js:60 | `trimStart` drops exactly the leading JavaScript white space: the result is a suffix, starts with a non-space, and everything dropped is space |
| Text.TrimEndShape | server/routes/pc-control.js:60 | `trimEnd` drops exactly the trailing white space: the result is a prefix, ends with a non-space, and everything dropped is space |
| Text.TrimKeepsInfix | server/routes/pc-control.js:60 | `trim()` keeps a contiguous stretch of the text with no white space at either end |
| Text.UpperIsUpperCase | server/routes/pairing.js:7 | on the lower-case base-36 text the pairing code is cut from, the modelled `toUpperCase()` keeps the length and leaves no lower-case letter |
| Text.Split | server/middleware/auth.js:34 | `split(',')` always yields at least one piece |
| Text.JoinSplit | server/middleware/auth.js:34 | splitting the scopes text on commas loses nothing: joining the pieces with commas gives the text back |
| Text.SplitPiecesFree | server/middleware/auth.js:34 | no piece of a split contains the separator |
| Text.SplitWithoutSeparator | server/routes/pairing.js:57 | a text without the separator splits into itself alone (the `desktop_full` scope list) |
| Text.NatToDecimal | server/services/local-agent.js:257 | the numeral of a natural number is all digits and has a leading zero only for zero |
| Text.DecimalRoundTrip | server/services/local-agent.js:167-171 | reading the decimal numeral of `n` back gives `n` |
| Json.Get | server/services/local-agent.js:256 | `obj[key]` is defined exactly when a member has that key, and then it is the value of the last member with that key, the one `JSON.parse` keeps |
| Json.StrOrEmpty | server/services/local-agent.js:270-275 | `String(v \|\| "")` is empty for every falsy value and is the string itself for a string value; it throws "Cannot convert object to primitive value" exactly for an object with its own `toString` member, or an array holding one |
| Json.ToStr | server/services/local-agent.js:278 | `String(v)` throws "Cannot convert object to primitive value" exactly when the value is an object with its own `toString` member, or an array holding one, and otherwise gives the value's text |
| Json.JoinItems | server/services/local-agent.js:278 | an array's `join(",")` throws exactly when one of its items cannot be printed |
| Json.Template | server/services/local-agent.js:111-112 | a template literal prints an undefined value as "undefined" and throws exactly for a value `String` throws on |
| Json.EscapeRoundTrip | server/services/local-agent.js:117-123 | `JSON.stringify` of a string is lossless: its escaped text decodes back to the string |
| Json.StringifyNoLineBreak | server/services/local-agent.js:117-123 | the JSON text of any parsed value contains no line feed or carriage return |
| Json.EscapeNoLineBreak | server/services/local-agent.js:117-123 | an escaped string literal contains no line break |
| Guards.AuthFailsClosed | server/services/local-agent.js:134-141 | off `/health` a request passes exactly when the `x-agent-token` header equals a configured token; with no token configured every such request is refused; `/health` always passes |
| Guards.RequireConfirmIff | server/services/local-agent.js:143-146 | `x-confirm` confirms exactly when it is present and upper-cases to "YES" (any case mix of "yes", including the long s) |
| Guards.UpperCharIs | server/services/local-agent.js:143-146 | which characters upper-case to a given letter: the letter, its lower case, and U+017F for 'S' |
| Guards.ValidateUrl | server/services/local-agent.js:161-165 | a URL is accepted exactly when its text converts and starts with `http://` or `https://` ignoring ASCII case; it is then returned unchanged; otherwise the error is the conversion's, or "Invalid URL (must be http/https)" |
| Guards.HttpSchemeIff | server/services/local-agent.js:161-165 | the case-insensitive regular expression test agrees with "lower-case the text, then compare the prefix" |
| Guards.ValidatePid | server/services/local-agent.js:167-171 | a pid is accepted exactly when `Number(pid)` is a positive integer; otherwise the error is the conversion's, or "Invalid pid" |
| Guards.NumberOf | server/services/local-agent.js:168 | `Number(v)` throws exactly for an object with its own `toString` member, or an array holding one, with its message |
| Guards.PidArgument | server/services/local-agent.js:167-171 | what reaches `taskkill` is a plain decimal numeral, without a leading zero, for the positive integer `Number(pid)` gives |
| Guards.Truncate | server/services/local-agent.js:125-128 | a text of at most `n` characters is kept; a longer one keeps its first `n` characters followed by the marker; the result is never longer than `n` plus the marker |
| Guards.TruncateNoLineBreak | server/services/local-agent.js:125-128 | truncating a text without line breaks adds none |
| Config.AllowedRoots | server/services/local-agent.js:40-44 | there are exactly three allowed roots |
| Config.AllowedRootsAreFolders | server/services/local-agent.js:40-44 | whatever the user's name, every root is a folder below drive C:, and the first is `C:\Projects` |
| Config.UserRootIsFolder | server/services/local-agent.js:42-43 | the two roots under the user's profile are folders on C: for every user name |
| Config.Lookup | server/services/local-agent.js:279 | the corrected registry lookup finds an entry exactly when the id is registered, and then it is that entry |
| Config.LookupsAgreeOnRegisteredNames | server/services/local-agent.js:279 | the plain-object lookup and the corrected one agree on every id that is not an inherited name |
| Config.InheritedNameFound | server/services/local-agent.js:291 | the plain-object lookup finds "constructor" in `URLS` and `APPS`, and "__proto__" in `PROJECTS`, though none registers them |
| Config.InheritedText | server/services/local-agent.js:278-281 | the text an inherited member prints as is not a web URL |
| Config.Fetch | server/services/local-agent.js:279 | both builds find exactly the registered entries; an inherited name is found only as written, and only when not registered |
| Config.UrlsAreWeb | server/services/local-agent.js:75-82 | every registered URL passes the scheme test of `validateUrl` |
| Config.FirstExisting | server/services/local-agent.js:184-189 | the result is a candidate that exists; there is none exactly when no candidate exists |
| Config.FirstExistingIsFirst | server/services/local-agent.js:184-189 | the candidate found is the first one in the list that exists: every candidate before it is missing |
| Config.FindFirstExisting | server/services/local-agent.js:184-189 | the loop over the candidates returns the first that exists, a member of the list |
| Config.ProjectFolderResolves | server/services/local-agent.js:85-97 | each registered project folder resolves to its own folder directly below `C:\Projects` |
| Config.ProjectFolderRenders | server/services/local-agent.js:316-324 | a registered project folder resolves to a path whose text is that very folder text |
| Config.ProjectsAdmitted | server/services/local-agent.js:85-97 | for every working directory and user name, the sandbox admits every registered project folder |
| Sandbox.Pieces | server/services/local-agent.js:152-159 | a raw path splits into at least one piece, and no piece holds a `\` or `/` |
| Sandbox.Normalize | server/services/local-agent.js:152-159 | collapsing ".", ".." and empty pieces leaves only plain names |
| Sandbox.Resolve | server/services/local-agent.js:152-159 | `path.resolve` always yields a well-formed absolute path; a UNC path needs two separators, then a server name, separators and a share |
| Sandbox.ResolveEmpty | server/services/local-agent.js:153 | the empty text resolves to the working directory |
| Sandbox.TripleSeparatorRooted | server/services/local-agent.js:153 | three leading separators make no UNC path: the names are resolved from the root of the working directory's device |
| Sandbox.TripleSeparatorAdmitted | server/services/local-agent.js:152-159 | with the working directory on C:, `\\\Projects\x` is admitted as `C:\Projects\x` |
| Sandbox.ResolveAllowedPathSound | server/services/local-agent.js:152-159 | a path that cannot be converted to text is refused with the conversion's error; otherwise it is accepted exactly when its resolved form lies inside some root (equal to it, or below it name by name), and the accepted value is that resolved form; otherwise the error is "Path not allowed" |
| Sandbox.AdmitsIffInside | server/services/local-agent.js:156-157 | the text test "equal to the root, or starts with the root plus `\`" agrees with "inside the root" on resolved paths |
| Sandbox.JoinAdmitsIffPrefix | server/services/local-agent.js:156-157 | over plain names, the text test on joined names holds exactly when the root's names are a prefix of the path's |
| Sandbox.PiecesJoin | server/services/local-agent.js:152-159 | joining separator-free pieces with `\` and splitting again gives the pieces back |
| Sandbox.PiecesAppend | server/services/local-agent.js:152-159 | the pieces of `x\y` are the pieces of `x` followed by those of `y` |
| Sandbox.SingleRoot | server/services/local-agent.js:152-159 | with a single root, a path is accepted with its resolved form exactly when that form is inside the root |
| Sandbox.SiblingRefused | server/services/local-agent.js:156-157 | `C:\Projects2\x` is refused, although its text starts with the root's text |
| Sandbox.ClimbOutRefused | server/services/local-agent.js:152-159 | `C:\Projects\..\Windows` is refused: the check is made after resolution |
| Sandbox.StayInsideAccepted | server/services/local-agent.js:152-159 | `C:\Projects\a\..\b.txt` is accepted, as `C:\Projects\b.txt` |
| Sandbox.SpellsOutClimb | server/services/local-agent.js:152-159 | for any two plain names, `C:\a\..\c` resolves to `C:\c`: ".." undoes the name before it |
| Sandbox.SpellsOutDetour | server/services/local-agent.js:152-159 | for any plain names, `C:\a\b\..\c` resolves to `C:\a\c` |
| Search.Cap | server/services/local-agent.js:103 | the result list never grows beyond 30 once it is cut |
| Search.CapAppend | server/services/local-agent.js:203-234 | cutting early and then adding more, cut again, equals cutting once at the end |
| Search.WalkIsCappedMatches | server/services/local-agent.js:203-234 | the recursive walk with its early returns yields exactly the first 30 of all matches in depth-first order |
| Search.WalkFromIsCappedMatches | server/services/local-agent.js:208-232 | the same holds for the loop over the entries of one directory from any index |
| Search.WalkRootsIsCappedMatches | server/services/local-agent.js:192-235 | the loop over the roots with its `break` yields the first 30 matches over all roots |
| Search.MatchesAreFound | server/services/local-agent.js:203-234 | every match below a directory is strictly below it, within depth 8, outside the skipped folders, and has the query in its lower-cased name |
| Search.AllMatchesAreFound | server/services/local-agent.js:192-235 | every match over all roots is found below one of the roots |
| Search.WalkRootsSound | server/services/local-agent.js:192-235 | the loop over the roots returns at most 30 paths, each found below a root |
| Search.SearchFilesSound | server/services/local-agent.js:373-377 | a query that cannot be converted fails with the conversion's error; an empty trimmed query is refused; otherwise the result is the first 30 matches of the lower-cased, trimmed query, each found below an allowed root |
| Search.Searcher.constructor | server/services/local-agent.js:192-201 | a search starts with the query and no results |
| Search.Searcher.WalkDir | server/services/local-agent.js:203-234 | the imperative walk over a directory leaves in `results` exactly what the walk function gives from the old results |
| Search.SearchFilesInRoots | server/services/local-agent.js:192-235 | the imperative search returns exactly what the search function specifies |
| Agent.FindTool | server/services/local-agent.js:266-411 | a tool found by name carries that name and is one of the listed cases |
| Agent.ToolOf | server/services/local-agent.js:266-411 | a `tool_name` selects a case only if it is the string of that case's label (strict equality) |
| Agent.ToolNameInjective | server/services/local-agent.js:266-411 | no two cases share a label |
| Agent.ToolNameSelects | server/services/local-agent.js:266-411 | each case is selected by its own label and by nothing else |
| Agent.Parent | server/services/local-agent.js:344 | `path.dirname` stays on the device and drops exactly the last name, if there is one |
| Agent.Step | server/services/local-agent.js:341-401 | a handler step issues its action first and then continues |
| Agent.Configured | server/services/local-agent.js:37-44 | the agent starts with a valid configuration of three roots, the first being `C:\Projects` |
| Agent.PathValues | server/services/local-agent.js:375-376 | the search reply lists the text of each path found, in order |
| Agent.OpenUrlTool | server/services/local-agent.js:270-275 | `open_url` only launches; nothing is written or removed |
| Agent.OpenUrlIdTool | server/services/local-agent.js:277-284 | `open_url_id` only launches, in both builds (what it launches: `Agent.UrlIdRegistered`) |
| Agent.OpenAppTool | server/services/local-agent.js:289-307 | `open_app` only launches, in both builds, with the "Invalid app spec" branch as written (what it launches: `Agent.AppRegistered`) |
| Agent.OpenProjectTool | server/services/local-agent.js:312-329 | `open_project` only launches, in both builds (what it launches: `Agent.ProjectsOpen`, `Agent.ProjectInheritedName`) |
| Agent.OpenFolder | server/services/local-agent.js:318-327 | opening a project folder and its optional VS Code window only launches |
| Agent.RevealFileTool | server/services/local-agent.js:334-339 | `reveal_file` only launches Explorer |
| Agent.CreateFileTool | server/services/local-agent.js:341-348 | `create_file` only creates folders and writes the file; it acts only once both the path and the content have converted, creating the parent folder first and then writing the content to the path |
| Agent.CreateFolderTool | server/services/local-agent.js:350-355 | `create_folder` only creates folders |
| Agent.DeleteFileTool | server/services/local-agent.js:357-363 | `delete_file` only unlinks |
| Agent.DeleteFolderTool | server/services/local-agent.js:365-371 | `delete_folder` only removes trees |
| Agent.SearchTool | server/services/local-agent.js:373-377 | `search_files` issues no action |
| Agent.CommandTool | server/services/local-agent.js:382-392 | `get_system_info` and `list_processes` run exactly their fixed `cmd.exe /c` command |
| Agent.KillProcessTool | server/services/local-agent.js:394-401 | `kill_process` issues only `taskkill` |
| Agent.ErrorText | server/services/local-agent.js:416 | the error reported is never empty, and is the thrown message when there is one |
| Agent.RefusedWithoutEffect | server/services/local-agent.js:259-262 | off Windows, without a truthy `tool_name`, or with a name no case selects, the request fails with its own message (in that order) and issues nothing |
| Agent.CommandRefused | server/services/local-agent.js:406-407 | `run_command` is refused with its message and issues nothing |
| Agent.DispatchSelects | server/services/local-agent.js:259-266 | on Windows, a `tool_name` that selects a case passes the `tool_name` check and runs exactly that case |
| Agent.ConfirmationGuardsDestruction | server/services/local-agent.js:357-371 | without `x-confirm: YES` a destructive tool fails with "Confirmation required" and issues nothing |
| Agent.ConfirmationFirst | server/services/local-agent.js:358 | the three destructive tools check the header before anything else |
| Agent.ToolConfirmation | server/services/local-agent.js:394-401 | an action that removes a file, a tree or a process is issued only by a tool that needs confirmation, with a confirming header |
| Agent.ToolsKeepFromDestruction | server/services/local-agent.js:270-392 | the tools that need no confirmation issue nothing destructive |
| Agent.ParentStaysNear | server/services/local-agent.js:344 | the parent of a path inside a root is inside the root or is the root's own parent |
| Agent.FileActionsSandboxed | server/services/local-agent.js:255-420 | whatever the request, every file-system action the dispatcher issues targets a path inside an allowed root (or, for the parent folder `create_file` makes, the root's parent) |
| Agent.ToolSandboxed | server/services/local-agent.js:334-371 | the same for each tool once selected |
| Agent.CreateFileSandboxed | server/services/local-agent.js:341-348 | `create_file` on an admitted path writes only inside the roots |
| Agent.PathToolsSandboxed | server/services/local-agent.js:350-371 | `create_folder`, `delete_file` and `delete_folder` on an admitted path act only inside the roots |
| Agent.AdmittedIsSandboxed | server/services/local-agent.js:152-159 | what the sandbox admits is inside a root, and its parent is inside a root or a root's parent |
| Agent.OpenUrlValidated | server/services/local-agent.js:270-275 | `open_url` succeeds exactly when the URL passes the scheme test, and then it starts that URL alone |
| Agent.UrlIdRegistered | server/services/local-agent.js:277-284 | an id that cannot be converted fails with the conversion's error; a registered id starts its URL, which is a web URL; an unregistered id is refused with "Unknown url id", except that as written an inherited name starts the text of the inherited member, not a web URL, and reports success |
| Agent.AppRegistered | server/services/local-agent.js:289-307 | an id that cannot be converted fails with the conversion's error; an unregistered id is refused, with "Invalid app spec" as written for an inherited name; a registered id launches its command, or else the candidate path at some index `i` that is installed while every candidate before `i` is missing, and fails when none is installed |
| Agent.ProjectsOpen | server/services/local-agent.js:312-329 | for every working directory and user name, in both builds, a registered project starts Explorer on its folder and `cmd.exe /c code` on it exactly as its entry asks, and reports success; an unregistered id that is not inherited is refused |
| Agent.OpenFolderLaunches | server/services/local-agent.js:318-327 | the launches for an admitted folder are Explorer, then VS Code, each exactly when the entry asks for it |
| Agent.ProjectInheritedName | server/services/local-agent.js:312-329 | an inherited project id launches nothing; the corrected build refuses it, while as written it succeeds exactly when the working directory lies inside an allowed root |
| Agent.SearchBounded | server/services/local-agent.js:373-377 | `search_files` issues nothing, fails with the conversion's error for a query that cannot be converted, refuses an empty query, and returns at most 30 paths |
| AgentHttp.AuditLineAsWritten | server/services/local-agent.js:110-113 | it cannot be formed, with the conversion's error, exactly when the tool name cannot be printed; otherwise the entry starts with the stamp, the tool name as a template prints it, the status (`AgentHttp.Status`) and the arguments as JSON, separated by ` \| `, and ends with the result's JSON or the raw error text, cut by `truncate` to 4000 characters, and a line feed |
| AgentHttp.Status | server/services/local-agent.js:413-417 | the status field is "OK" exactly for a result and "ERROR" exactly for an error |
| AgentHttp.RecordedAsWritten | server/services/local-agent.js:413-417 | as written, the entry records the result's JSON, or the error message as it is |
| AgentHttp.AuditLineAsWrittenSplits | server/services/local-agent.js:110-113 | a `tool_name` holding a line feed makes one request write two log lines |
| AgentHttp.Recorded | server/services/local-agent.js:413 | the recorded result text has no line break |
| AgentHttp.AuditLine | server/services/local-agent.js:110-113 | the corrected entry starts with the stamp, the tool name as JSON, the status (`AgentHttp.Status`) and the arguments as JSON, separated by ` \| `, and ends with the result's JSON or the error message as a JSON string, cut by `truncate` to 4000 characters, and a line feed |
| AgentHttp.AuditEntry | server/services/local-agent.js:110-114 | the line the handler forms is the as-written entry in the as-written build and the corrected entry, which always forms, in the corrected one |
| AgentHttp.AuditLineIsOneLine | server/services/local-agent.js:110-113 | the corrected entry ends with its only line feed and contains no carriage return |
| AgentHttp.FieldsOnOneLine | server/services/local-agent.js:111-113 | five fields without line breaks, joined by ` \| `, form one line |
| AgentHttp.Reply | server/services/local-agent.js:413-418 | 200 exactly on success, otherwise 500; `ok` tells which; `audit_id` is always present; it carries the result or the error text |
| AgentHttp.ToolRunAudited | server/services/local-agent.js:255-420 | `/tool/run` issues exactly the dispatcher's actions; it is answered exactly when the log is writable and the entry forms, and then it appends exactly that one entry, replies 200 exactly on success, and carries the decimal `Date.now()` as `audit_id`; otherwise nothing is logged; the corrected entry always forms and is one line, while as written it fails exactly for a tool name that cannot be printed (what the entry records: `AgentHttp.ToolRunRecordsOutcome`) |
| AgentHttp.ToolRunRecordsOutcome | server/services/local-agent.js:409-418 | when `/tool/run` is answered, it appends one entry; the entry's status is "OK" exactly when the reply is 200; the entry holds the stamp, the tool name (as JSON when corrected, as a template prints it as written), the arguments and the recorded result as `AgentHttp.AuditLine` and `AgentHttp.AuditLineAsWritten` lay them out |
| AgentHttp.ToolNameCrashes | server/services/local-agent.js:409-418 | as written, `{"tool_name": {"toString": 0}}` issues nothing, logs nothing and gets no reply; the corrected build logs one line and answers 500 |
| AgentHttp.ServeFailsClosed | server/services/local-agent.js:240 | a request other than a preflight, off `/health`, without the configured token (or with none configured) gets 401, issues nothing and logs nothing; any action issued comes from an authorised POST and is the dispatcher's |
| LocalAgentProcess.LocalAgent.constructor | server/services/local-agent.js:37-44 | the agent starts with its configuration, nothing issued and an empty log |
| LocalAgentProcess.LocalAgent.Issue | server/services/local-agent.js:173-182 | issuing an action appends exactly it and reports the machine's answer |
| LocalAgentProcess.LocalAgent.Launch | server/services/local-agent.js:173-177 | a detached spawn appends exactly that spawn |
| LocalAgentProcess.LocalAgent.Append | server/services/local-agent.js:114 | the log gains the line exactly when it is writable |
| LocalAgentProcess.LocalAgent.OpenUrl | server/services/local-agent.js:270-275 | the handler issues exactly the actions and returns exactly the result `Agent.OpenUrlTool` specifies |
| LocalAgentProcess.LocalAgent.OpenUrlId | server/services/local-agent.js:277-284 | the same, for `Agent.OpenUrlIdTool` in the agent's build |
| LocalAgentProcess.LocalAgent.OpenApp | server/services/local-agent.js:289-307 | the same, for `Agent.OpenAppTool` in the agent's build, with the candidate loop |
| LocalAgentProcess.LocalAgent.OpenProject | server/services/local-agent.js:312-329 | the same, for `Agent.OpenProjectTool` in the agent's build |
| LocalAgentProcess.LocalAgent.RevealFile | server/services/local-agent.js:334-339 | the same, for `Agent.RevealFileTool` |
| LocalAgentProcess.LocalAgent.CreateFile | server/services/local-agent.js:341-348 | the same, for `Agent.CreateFileTool` in the agent's build |
| LocalAgentProcess.LocalAgent.Await | server/services/local-agent.js:350-371 | an awaited file-system call issues its action and ends with its error or its done message |
| LocalAgentProcess.LocalAgent.SearchFiles | server/services/local-agent.js:373-377 | the search issues nothing and returns what `Agent.SearchTool` specifies |
| LocalAgentProcess.LocalAgent.Command | server/services/local-agent.js:382-392 | the same, for `Agent.CommandTool` |
| LocalAgentProcess.LocalAgent.KillProcess | server/services/local-agent.js:394-401 | the same, for `Agent.KillProcessTool` |
| LocalAgentProcess.LocalAgent.Execute | server/services/local-agent.js:266-411 | the `switch` issues exactly the actions and returns exactly the result that `Agent.RunTool` specifies for the selected case |
| LocalAgentProcess.LocalAgent.ExecuteLauncher | server/services/local-agent.js:270-339 | the same, for the launching cases |
| LocalAgentProcess.LocalAgent.ExecuteFileOp | server/services/local-agent.js:341-371 | the same, for the file-system cases |
| LocalAgentProcess.LocalAgent.ExecuteSearch | server/services/local-agent.js:373-377 | the search case issues nothing and returns its specified result |
| LocalAgentProcess.LocalAgent.ExecuteSystem | server/services/local-agent.js:382-410 | the same, for the system, blocked and unknown cases |
| LocalAgentProcess.LocalAgent.Run | server/services/local-agent.js:259-411 | the body of the `try` issues and returns what `Agent.Dispatch` specifies |
| LocalAgentProcess.LocalAgent.HandleToolRun | server/services/local-agent.js:255-420 | the route issues, logs and replies exactly as `AgentHttp.ToolRun` specifies for the agent's build, leaving the log alone when the entry cannot be formed |
| LocalAgentProcess.LocalAgent.Handle | server/services/local-agent.js:29-420 | the agent process serves a request exactly as `AgentHttp.Serve` specifies |
| PcControl.Headers | server/routes/pc-control.js:42-43 | the forwarded headers always begin with the JSON content type and the agent token |
| PcControl.HeadersRead | server/routes/pc-control.js:42-43 | reading the headers back gives the token, and `x-confirm` is "YES" exactly when `confirm` is truthy, absent otherwise |
| PcControl.Relay | server/routes/pc-control.js:51-54 | the agent's reply is passed on with 200; a failed call becomes 500 with its message |
| PcControl.ExecuteRefusals | server/routes/pc-control.js:29-39 | no token gives 500; a tool in neither list gives 403; a destructive tool without a truthy `confirm` gives 400; `run_command` is always answered locally; the call is forwarded exactly when none of these applies |
| PcControl.RunCommandUnlisted | server/routes/pc-control.js:4-10 | `run_command` is in neither list |
| PcControl.ToolListsDisjoint | server/routes/pc-control.js:4-10 | no tool is both safe and destructive |
| PcControl.SafeNotDestructive | server/routes/pc-control.js:4-10 | a safe tool is not destructive |
| PcControl.ExecuteForward | server/routes/pc-control.js:41-49 | a forwarded call goes to the agent URL with the agent token; `x-confirm` is set exactly when `confirm` is truthy; its body holds only `tool_name` and `args`, copied from the request |
| PcControl.ForwardedBodyRead | server/routes/pc-control.js:48 | the body `{ tool_name, args }` reads back both values as given and holds no other key, `args` being left out when it is undefined |
| PcControl.ListsClassifyAgentTools | server/routes/pc-control.js:4-10 | the destructive list is exactly the agent's tools that demand confirmation; the safe list is the others except `run_command` |
| PcControl.ForwardPassesAgentGuards | server/routes/pc-control.js:41-49 | a forwarded call passes the agent's token gate, names one of its tools other than `run_command`, and carries a confirming header whenever that tool demands one |
| PcControl.GuardsPassFor | server/routes/pc-control.js:41-49 | for any listed name, the forwarded headers pass the agent's token gate and confirm whenever the selected tool demands it |
| PcControl.ListedNameClass | server/routes/pc-control.js:4-10 | a listed name selects an agent tool other than `run_command` |
| PcControl.NamesAreAgentTools | server/routes/pc-control.js:4-10 | every listed name is a case of the agent's dispatcher |
| PcControl.NlAsWritten | server/routes/pc-control.js:58-82 | the phrase route as the source writes it (see Findings) |
| PcControl.Normalize | server/routes/pc-control.js:60 | the phrase normalisation throws, with the conversion's message, exactly for a text that cannot be printed, and gives "" for a falsy text |
| PcControl.NlConstructorForwarded | server/routes/pc-control.js:62-63 | the phrase "constructor" passes the `!match` guard and is forwarded |
| PcControl.ConstructorForwarded | server/routes/pc-control.js:62-75 | with any table lacking "constructor", a phrase that normalises to "constructor" is forwarded with no body by the route as written, and answered "No PC action matched" by the corrected one |
| PcControl.NlRepliesAgree | server/routes/pc-control.js:62-75 | for a phrase that is not an inherited name, the written and the corrected lookups give the same reply |
| PcControl.NlAgreesOnOwnNames | server/routes/pc-control.js:58-82 | the written and the corrected phrase routes agree on every phrase that is not an inherited name |
| PcControl.NlDecision | server/routes/pc-control.js:58-82 | a text that cannot be converted leaves the request unanswered; an unknown phrase is answered with "No PC action matched"; a known one forwards its table entry, with the token and `x-confirm` exactly when `confirm` is truthy |
| PcControl.NlTextUnprintable | server/routes/pc-control.js:58-60 | a text object with its own `toString` member leaves the phrase request unanswered in both builds |
| PcControl.NlReplyDecision | server/routes/pc-control.js:62-75 | a phrase missing from the table is answered 200 with "No PC action matched"; a present one is forwarded to the agent URL with the given headers and the body built from its entry |
| PcControl.LowerTrimPlain | server/routes/pc-control.js:60 | lower-casing and trimming leave a phrase of lower-case letters and `_` unchanged |
| PcControl.NlEntry | server/routes/pc-control.js:12-23 | every phrase starts with "open " and maps to a safe tool whose argument is a registered app, URL or project id |
| PcControl.NlInheritedNamesUnmapped | server/routes/pc-control.js:12-23 | no phrase is "constructor" or "__proto__" |
| PcControl.NlMapSafe | server/routes/pc-control.js:12-23 | the phrase table maps only to safe tools |
| PcControl.NlForwardsSafeTools | server/routes/pc-control.js:62-75 | with a table of safe tools, every forwarded phrase names an agent tool that needs no confirmation |
| PcControl.NlBodySafe | server/routes/pc-control.js:74 | the body forwarded for a safe entry selects an agent tool that needs no confirmation |
| Pairing.ScopesOf | server/middleware/auth.js:34 | a device's scope list joins back to its stored scopes text, and no scope contains a comma |
| Pairing.Substring | server/routes/pairing.js:7 | `substring` is at most `b - a` long, and is the slice when the text is long enough |
| Pairing.PairingCode | server/routes/pairing.js:7 | a pairing code has at most six characters and is upper case; it has exactly six when the random text has at least eight |
| Pairing.StartInsertsOneSession | server/routes/pairing.js:5-20 | a fresh pair id adds exactly one unused session expiring 300000 ms after now, and the reply carries the id, the code and the expiry; a taken id changes nothing |
| Pairing.FirstLive | server/routes/pairing.js:31-34 | the session found is the first row with the pair id and code, unused and not expired; none is found exactly when no row qualifies |
| Pairing.ConfirmDecision | server/routes/pairing.js:23-60 | a device is paired exactly when all three fields are given, a live session matches and the token is new; "Missing required fields" and "Invalid or expired pairing code" are given exactly in their cases; every refusal leaves the tables unchanged |
| Pairing.ConfirmIssuesOneDevice | server/routes/pairing.js:41-59 | a pairing appends exactly one device with the next id, the new token, the given name and `desktop_full`, not revoked; it marks every session of that pair id used and no other; the reply carries the token, `["desktop_full"]` and the name |
| Pairing.DesktopScopesSplit | server/routes/pairing.js:57 | the issued scope list is `["desktop_full"]` |
| Pairing.StartKeepsTablesValid | server/routes/pairing.js:5-20 | starting a pairing keeps pair ids unique, tokens unique and device ids increasing |
| Pairing.ConfirmKeepsTablesValid | server/routes/pairing.js:23-60 | confirming keeps the same invariant |
| Pairing.ConfirmAtMostOnce | server/routes/pairing.js:51-53 | after a pairing, no later confirm under the same pair id pairs again, whatever the code and the name |
| Pairing.StartThenConfirm | server/routes/pairing.js:5-60 | a session just started can be confirmed with its code before it expires, given a fresh token |
| Pairing.FirstLiveIsFirst | server/routes/pairing.js:31-34 | a live row with no live row before it is the one found |
| Pairing.PairingStore.constructor | server/index.js:36-51 | the store starts with empty tables and the first device id 1 |
| Pairing.PairingStore.Start | server/routes/pairing.js:5-20 | the store's new tables and reply are exactly those `StartStep` specifies, and the invariant holds |
| Pairing.PairingStore.FindPairId | server/routes/pairing.js:10-13 | the scan reports exactly whether a session holds the pair id |
| Pairing.PairingStore.FindLive | server/routes/pairing.js:31-34 | the scan returns the first live session |
| Pairing.PairingStore.FindToken | server/routes/pairing.js:45-48 | the scan reports exactly whether a device holds the token |
| Pairing.PairingStore.Confirm | server/routes/pairing.js:23-60 | the store's new tables and reply are exactly those `ConfirmStep` specifies, and the invariant holds |
| DeviceAuth.ActiveDevice | server/middleware/auth.js:21-24 | the row found holds the token and is not revoked; none is found exactly when every row holding the token is revoked |
| DeviceAuth.AuthBypasses | server/middleware/auth.js:3-10 | the pairing routes, the health check and everything while `AUTH_REQUIRED` is "false" proceed without a device, and only those |
| DeviceAuth.AuthDecision | server/middleware/auth.js:12-28 | elsewhere a request proceeds exactly when it bears "Bearer " and a token that a non-revoked device holds; the header error is given exactly for a missing or malformed header |
| DeviceAuth.AttachedDevice | server/middleware/auth.js:30-35 | the attached device is a non-revoked row holding the token, with its id, its name and its scopes split on commas |
| DeviceAuth.PairedTokenAccepted | server/middleware/auth.js:12-35 | a token just issued by `/pair/confirm` is accepted on every guarded path with the new device's id, name and `["desktop_full"]` |
| DeviceAuth.NewestTokenFound | server/middleware/auth.js:21-24 | a row appended under a new token is the row the token query finds |
| MainServer.PcRoutesUnguardedAsWritten | server/index.js:54-55 | as registered, a request with no credentials reaches `/api/pc/execute`, although the middleware refuses it |
| MainServer.PcRoutesGuarded | server/index.js:82 | with the PC routes behind the middleware, one runs only when `AUTH_REQUIRED` is "false" or the request bears a non-revoked device's token; every other request is served as registered |
| MainServer.PcPathsNotBypassed | server/middleware/auth.js:3 | neither PC path is one the middleware lets through unchecked |
| MainServer.LetterAt | server/index.js:54-55 | a path that matches a route agrees with it letter by letter, up to ASCII case |
| MainServer.LowerCaseRouteMatches | server/index.js:54-55 | a lower-case route matches its own path |

## Left out

- String lengths, `substring` and `slice` count code points, not UTF-16 code units. So `truncate` on text outside the Basic Multilingual Plane cuts at a different place.
- `Number(v)` is modelled for integers, booleans, null and decimal numeral text. Other numerals (hex, exponents, fractions, `Infinity`) are left out.
- Of Express, only case-insensitive routes with an optional trailing slash, and the CORS preflight, are modelled. Left out: body-parser errors (malformed JSON, the 1 MB limit), HEAD requests, percent-encoded paths, the default 404 page and the CORS headers.
- Spawned processes are detached. Their asynchronous errors and what `cmd.exe` makes of `&` or quotes inside a URL are outside the model.
- Pairing: `expires_at` is stored as ISO text ("YYYY-MM-DDTHH:MM:SS.sssZ") and compared in SQLite against `datetime('now')`, text of the form "YYYY-MM-DD HH:MM:SS". The comparison is on text, and 'T' sorts after the space at index 10, so as written a code stays valid until the end of its expiry day (UTC), not for five minutes. The model compares the expiry with `now` as a number of milliseconds, which is the five-minute window the code intends.
- `crypto.randomUUID`, `crypto.randomBytes`, `Math.random().toString(36)`, `Date.now()` and `toISOString()` are parameters of the operations, as are the working directory and the user's name.
- Pairing: a body field that is not a string (a number or an object) is treated as text; SQLite's type coercion is left out.
- PcControl.Relay: the call to the agent, its transport errors and JSON parsing of its response are a parameter (`Result<Value>`).
- The `/api/health` route of the core server (server/routes/pairing.js:63-65) only reports a timestamp. It is routed (`MainServer.EarlyRoute`), but its reply is not modelled.
- The core server's other routes behind the middleware are one `Guarded` handler, not modelled further: memory, tasks, chat, and the schema setup apart from the two pairing tables.
- server/integrations/system.js on the core server is not part of this model.
- `app.listen` and the console messages are left out. The SQLite database is two sequences. Concurrent requests are taken one at a time.
- JSON numbers are integers; floating-point values in tool arguments are left out.
- Text.Lower: `toLowerCase` and `toUpperCase` are modelled for ASCII letters, the Kelvin sign and the long s only; the rest of Unicode case mapping is left out. This affects Search.SearchFilesSound (a query for "résumé" does not match "RÉSUMÉ.pdf" in the model), PcControl.Normalize and the lower-cased registry ids of `open_url_id`, `open_app` and `open_project`.
- UpperIsUpperCase: holds for the modelled ASCII case map; JavaScript's `toUpperCase` changes the length of "ß" and of ligatures, which the base-36 text at server/routes/pairing.js:7 never holds.
- PidArgument: `Number` is modelled on unbounded integers. JavaScript's doubles round integers beyond 2^53 (9007199254740993 reaches `taskkill` as "9007199254740992") and print 22 digits or more in exponent form ("1e+21"); both are left out.
- AuditLineAsWritten: the arguments are written member by member as parsed. `JSON.parse` keeps only the last of duplicate keys, and `JSON.stringify` writes integer-like keys first (`{"b":1,"1":2}` is logged as `{"1":2,"b":1}`); that merging and reordering are left out of every JSON text the model writes.
- An unhandled promise rejection ends the agent's process on Node 15 and later, so after the `tool_name` crash later requests go unanswered too. The model serves each request on its own and leaves the process ending out.
- Sandbox.Resolve: a drive-relative path such as `D:x` on a drive other than the working directory's resolves from the drive's root; Node reads that drive's working directory from the `=D:` environment variable, which is left out.

## Findings

| source | as written | input that shows it | evidently intended | confidence | as-written member | corrected member |
|---|---|---|---|---|---|---|
| server/services/local-agent.js:110-113 | the audit entry interpolates `tool_name` and the error text unescaped | `{"tool_name": "a\nb"}` with a valid agent token writes two lines, the second one forged by the caller | one line per handled request, with caller- and system-supplied text escaped | not executed | AgentHttp.AuditLineAsWritten (AgentHttp.AuditLineAsWrittenSplits) | AgentHttp.AuditLine (AgentHttp.AuditLineIsOneLine) |
| server/services/local-agent.js:279 | `URLS[id]`, `APPS[id]`, `PROJECTS[id]` and `NL_MAP[normalized]` look up plain objects, which also hold inherited names | `open_url_id` with `id: "constructor"` passes `if (!url)` and starts the text of `Object`; `open_app` with it fails with "Invalid app spec"; `open_project` with it reports success on the working directory; the phrase "constructor" is forwarded with no tool name | only registered ids and phrases are found | not executed | Config.LookupAsWritten (Config.InheritedNameFound), Agent.OpenUrlIdTool as written (Agent.UrlIdRegistered), Agent.OpenAppTool as written (Agent.AppRegistered), Agent.OpenProjectTool as written (Agent.ProjectInheritedName), PcControl.NlAsWritten (PcControl.NlConstructorForwarded) | Config.Lookup (Config.LookupsAgreeOnRegisteredNames), the corrected build of the same tools (Agent.UrlIdRegistered, Agent.AppRegistered, Agent.ProjectInheritedName), PcControl.Nl (PcControl.NlDecision) |
| server/services/local-agent.js:415-417 | the `catch` block calls `auditLog`, whose template prints `tool_name` | `{"tool_name": {"toString": 0}}` fails with "Unknown tool", then the template throws inside the `catch`. The handler is an `async` function, and Express 4 ignores the promise it returns, so nothing is logged and no reply is sent; the model assumes Express 4 (Express 5 would answer 500 from its default error handler) | every handled request is logged and answered | not executed | AgentHttp.ToolRun as written (AgentHttp.ToolNameCrashes) | AgentHttp.ToolRun corrected, with AgentHttp.AuditLine (AgentHttp.ToolRunAudited) |
| server/index.js:54-55 | `setupPcControlRoutes(app)` runs before `app.use(authMiddleware)` (line 82) | `POST /api/pc/execute` without an `Authorization` header is handled and forwarded with the agent token | only pairing and health skip authentication, as auth.js line 2 says | not executed | MainServer.ServeAsWritten (MainServer.PcRoutesUnguardedAsWritten) | MainServer.Serve (MainServer.PcRoutesGuarded) |
