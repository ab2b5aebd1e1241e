/** The local agent's HTTP surface: the `/tool/run` dispatcher, which routes
    a tool name to one fixed handler and records what the handler asked of
    the operating system, the audit line appended for every handled
    request, and the routes behind the shared-token gate.

    Operating-system work is an effect log: each handler lists the actions
    it issues (launches, commands, file-system changes) in the order it
    issues them, and an oracle `Os` says which of them fail and with what
    message. A failed action ends the handler with that message. */
module Agent {
  import opened Text
  import opened Json
  import opened Sandbox
  import opened Guards
  import opened Config
  import opened Search

  // ---------------------------------------------------------------------
  // Tool names
  // ---------------------------------------------------------------------

  datatype Tool =
    | OpenUrl | OpenUrlId | OpenApp | OpenProject
    | RevealFile | CreateFile | CreateFolder | DeleteFile | DeleteFolder
    | SearchFilesTool | GetSystemInfo | ListProcesses | KillProcess | RunCommand

  /** The `case` label of a tool; every label is a non-empty string. */
  function ToolName(t: Tool): (r: string)
    ensures |r| >= 8
  {
    match t
    case OpenUrl => "open_url"
    case OpenUrlId => "open_url_id"
    case OpenApp => "open_app"
    case OpenProject => "open_project"
    case RevealFile => "reveal_file"
    case CreateFile => "create_file"
    case CreateFolder => "create_folder"
    case DeleteFile => "delete_file"
    case DeleteFolder => "delete_folder"
    case SearchFilesTool => "search_files"
    case GetSystemInfo => "get_system_info"
    case ListProcesses => "list_processes"
    case KillProcess => "kill_process"
    case RunCommand => "run_command"
  }

  const AllTools: seq<Tool> := [OpenUrl, OpenUrlId, OpenApp, OpenProject, RevealFile, CreateFile, CreateFolder,
                                DeleteFile, DeleteFolder, SearchFilesTool, GetSystemInfo, ListProcesses, KillProcess, RunCommand]

  /** The first tool of `ts` named `s`: the `case` labels tried in order. */
  function FindTool(ts: seq<Tool>, s: string): (r: Option<Tool>)
    ensures r.Some? ==> ToolName(r.value) == s && r.value in ts
  {
    if |ts| == 0 then None
    else if ToolName(ts[0]) == s then Some(ts[0])
    else FindTool(ts[1..], s)
  }

  /** The `case` a `tool_name` selects. The `switch` compares with `===`,
      so only a string can select a case. */
  function ToolOf(v: Option<Value>): (r: Option<Tool>)
    ensures r.Some? ==> v == Some(Str(ToolName(r.value)))
    ensures r.Some? ==> Truthy(v)
  {
    if v.Some? && v.value.Str? then FindTool(AllTools, v.value.s) else None
  }

  /** Names are told apart by their length and their first, second and
      sixth letters. */
  function Fingerprint(s: string): (int, char, char, char)
  {
    if |s| < 6 then (|s|, ' ', ' ', ' ') else (|s|, s[0], s[1], s[5])
  }

  lemma FingerprintOf(t: Tool)
    ensures Fingerprint(ToolName(t)) == match t
      case OpenUrl => (8, 'o', 'p', 'u')
      case OpenUrlId => (11, 'o', 'p', 'u')
      case OpenApp => (8, 'o', 'p', 'a')
      case OpenProject => (12, 'o', 'p', 'p')
      case RevealFile => (11, 'r', 'e', 'l')
      case CreateFile => (11, 'c', 'r', 'e')
      case CreateFolder => (13, 'c', 'r', 'e')
      case DeleteFile => (11, 'd', 'e', 'e')
      case DeleteFolder => (13, 'd', 'e', 'e')
      case SearchFilesTool => (12, 's', 'e', 'h')
      case GetSystemInfo => (15, 'g', 'e', 'y')
      case ListProcesses => (14, 'l', 'i', 'p')
      case KillProcess => (12, 'k', 'i', 'p')
      case RunCommand => (11, 'r', 'u', 'o')
  {
  }

  /** No two cases share a label. */
  lemma ToolNameInjective(t: Tool, u: Tool)
    ensures ToolName(t) == ToolName(u) ==> t == u
  {
    FingerprintOf(t);
    FingerprintOf(u);
  }

  lemma {:induction false} FindsOwnName(ts: seq<Tool>, t: Tool)
    requires t in ts
    ensures FindTool(ts, ToolName(t)) == Some(t)
  {
    ToolNameInjective(ts[0], t);
    if ts[0] != t {
      FindsOwnName(ts[1..], t);
    }
  }

  /** Each case is selected by its own name and by nothing else. */
  lemma ToolNameSelects(t: Tool, v: Option<Value>)
    ensures ToolOf(Some(Str(ToolName(t)))) == Some(t)
    ensures ToolOf(v) == Some(t) <==> v == Some(Str(ToolName(t)))
  {
    FindsOwnName(AllTools, t);
  }

  /** The tools that demand the `x-confirm` header. */
  predicate NeedsConfirm(t: Tool)
  {
    t == DeleteFile || t == DeleteFolder || t == KillProcess
  }

  // ---------------------------------------------------------------------
  // Effects and the operating system
  // ---------------------------------------------------------------------

  datatype Action =
    | Spawn(cmd: string, args: seq<string>)     // spawnDetached
    | Exec(cmd: string, args: seq<string>)      // execFileAsync
    | MakeDir(dir: AbsPath)                     // fsp.mkdir, recursive
    | WriteFile(file: AbsPath, content: string) // fsp.writeFile
    | Unlink(file: AbsPath)                     // fsp.unlink
    | RemoveTree(dir: AbsPath)                  // fsp.rm, recursive and forced

  /** What the handlers observe of the machine: the platform, which files
      exist, the listings the search reads, which actions fail with which
      message, and what the fixed commands print. */
  datatype Os = Os(platform: string, existing: set<string>, fs: map<AbsPath, Listing>,
                   failures: map<Action, string>, stdout: map<Action, string>)

  predicate IsWindows(os: Os)
  {
    os.platform == "win32"
  }

  /** The error an action reports to the handler. A detached launch never
      reports one: its failure would arrive after the reply. */
  function Attempt(os: Os, a: Action): Option<string>
  {
    if !a.Spawn? && a in os.failures then Some(os.failures[a]) else None
  }

  function Stdout(os: Os, a: Action): string
  {
    if a in os.stdout then os.stdout[a] else ""
  }

  /** `openWithShellStart(target)` */
  function Start(target: string): Action
  {
    Spawn("cmd.exe", ["/c", "start", "", target])
  }

  /** `path.dirname` of a resolved path: a device root is its own parent. */
  function Parent(p: AbsPath): (r: AbsPath)
    ensures r.device == p.device && |r.names| <= |p.names| && r.names == p.names[..|r.names|]
    ensures |p.names| > 0 ==> |r.names| == |p.names| - 1
  {
    if |p.names| == 0 then p else AbsPath(p.device, p.names[..|p.names| - 1])
  }

  // ---------------------------------------------------------------------
  // Handler outcomes
  // ---------------------------------------------------------------------

  /** What a handler did: the actions it issued, and its result or the
      message it threw. */
  datatype Outcome = Outcome(effects: seq<Action>, result: Result<Value>)

  function Fail(msg: string): Outcome
  {
    Outcome([], Err(msg))
  }

  function Done(s: string): Outcome
  {
    Outcome([], Ok(Str(s)))
  }

  /** Issue `a`; if it fails the handler ends with its message, otherwise it
      goes on as `next`. */
  function Step(os: Os, a: Action, next: Outcome): (o: Outcome)
    ensures |o.effects| >= 1 && o.effects[0] == a
  {
    match Attempt(os, a)
    case Some(m) => Outcome([a], Err(m))
    case None => Outcome([a] + next.effects, next.result)
  }

  const NotWindows := "This local agent build is Windows-focused"
  const MissingToolName := "Missing tool_name"
  const UnknownTool := "Unknown tool"
  const CommandDisabled := "run_command is disabled for security"
  const ConfirmRequired := "Confirmation required (x-confirm: YES)"
  const UnknownUrlId := "Unknown url id"
  const AppNotAllowed := "App not allowed"
  const UnknownProject := "Unknown project"
  const InvalidAppSpec := "Invalid app spec"

  /** The agent's configuration: the working directory `path.resolve`
      starts from, `ALLOWED_ROOTS` (resolved once, at start),
      `AGENT_TOKEN`, and the build of the handlers that runs: `AsWritten`
      is the source's program. */
  datatype Env = Env(cwd: AbsPath, roots: seq<AbsPath>, token: string, build: Build)

  predicate ValidEnv(env: Env)
  {
    WellFormed(env.cwd) && forall k :: 0 <= k < |env.roots| ==> IsFolderRoot(env.roots[k])
  }

  /** The configuration the agent starts with for a given working
      directory, user name and token. */
  function Configured(cwd: AbsPath, username: string, token: string, build: Build): (env: Env)
    requires WellFormed(cwd)
    ensures ValidEnv(env) && |env.roots| == 3 && env.roots[0] == ProjectsDir
  {
    AllowedRootsAreFolders(cwd, username);
    Env(cwd, AllowedRoots(cwd, username), token, build)
  }

  /** The search results as the reply carries them: path text. */
  function PathValues(ps: seq<AbsPath>): (r: seq<Value>)
    ensures |r| == |ps| && forall i :: 0 <= i < |ps| ==> r[i] == Str(Render(ps[i]))
  {
    seq(|ps|, i requires 0 <= i < |ps| => Str(Render(ps[i])))
  }

  /** Only launches: detached processes that report nothing back. */
  predicate Launches(effects: seq<Action>)
  {
    forall i :: 0 <= i < |effects| ==> effects[i].Spawn?
  }

  /** `open_url`: a validated http(s) URL handed to `start`. */
  function OpenUrlTool(os: Os, args: Option<Value>): (o: Outcome)
    ensures Launches(o.effects)
  {
    match ValidateUrl(Prop(args, "url"))
    case Err(m) => Fail(m)
    case Ok(url) => Step(os, Start(url), Done("URL opened"))
  }

  /** `open_url_id`: a registered URL, by lower-cased id. As written, an
      inherited member passes the `if (!url)` test too, and `start` is
      handed its text. */
  function OpenUrlIdTool(b: Build, os: Os, args: Option<Value>): (o: Outcome)
    ensures Launches(o.effects)
  {
    match StrOrEmpty(Prop(args, "id"))
    case Err(m) => Fail(m)
    case Ok(text) =>
      var id := Lower(text);
      match Fetch(b, Urls, id)
      case Missing => Fail(UnknownUrlId)
      case Own(url) => Step(os, Start(url), Done("Opened URL id: " + id))
      case Inherited(name) => Step(os, Start(InheritedText(name)), Done("Opened URL id: " + id))
  }

  /** `open_app`: a registered app, by lower-cased id; for one with path
      candidates, the first that exists. An inherited member has no
      `type`, so it reaches the "Invalid app spec" branch. */
  function OpenAppTool(b: Build, os: Os, args: Option<Value>): (o: Outcome)
    ensures Launches(o.effects)
  {
    match StrOrEmpty(Prop(args, "app_id"))
    case Err(m) => Fail(m)
    case Ok(text) =>
      var appId := Lower(text);
      match Fetch(b, Apps, appId)
      case Missing => Fail(AppNotAllowed)
      case Inherited(_) => Fail(InvalidAppSpec)
      case Own(spec) =>
        if spec.Exe? then Step(os, Spawn(spec.command, []), Done("Opened " + appId))
        else
          match FirstExisting(spec.candidates, os.existing)
          case None => Fail("Executable not found for " + appId)
          case Some(exe) => Step(os, Spawn(exe, []), Done("Opened " + appId))
  }

  /** `open_project`: a registered project, by lower-cased id, whose folder
      passes the sandbox before Explorer or the editor is started on it. An
      inherited member has no `folder`, so the working directory is what
      passes the sandbox, and no `open_in_*` flag, so nothing starts. */
  function OpenProjectTool(env: Env, os: Os, args: Option<Value>): (o: Outcome)
    requires WellFormed(env.cwd)
    ensures Launches(o.effects)
  {
    match StrOrEmpty(Prop(args, "project_id"))
    case Err(m) => Fail(m)
    case Ok(text) =>
      var projectId := Lower(text);
      match Fetch(env.build, Projects, projectId)
      case Missing => Fail(UnknownProject)
      case Inherited(_) =>
        (match ResolveAllowedPath(env.cwd, env.roots, None)
         case Err(m) => Fail(m)
         case Ok(_) => Done("Opened project " + projectId))
      case Own(proj) =>
        match ResolveAllowedPath(env.cwd, env.roots, Some(Str(proj.folder)))
        case Err(m) => Fail(m)
        case Ok(folder) => OpenFolder(os, proj, Render(folder), Done("Opened project " + projectId))
  }

  /** The launches of `open_project` on an admitted folder. */
  function OpenFolder(os: Os, proj: Project, folder: string, next: Outcome): (o: Outcome)
    requires next.effects == []
    ensures Launches(o.effects)
  {
    var afterExplorer := if proj.openInVscode then Step(os, Spawn("cmd.exe", ["/c", "code", folder]), next) else next;
    if proj.openInExplorer then Step(os, Start(folder), afterExplorer) else afterExplorer
  }

  /** The sandbox's verdict on `args.path`: `resolveAllowedPath(args?.path)`. */
  function Admit(env: Env, args: Option<Value>): Result<AbsPath>
    requires WellFormed(env.cwd)
  {
    ResolveAllowedPath(env.cwd, env.roots, Prop(args, "path"))
  }

  // The file-system cases, given the sandbox's verdict on their path.

  /** `reveal_file`: Explorer started on a sandboxed path. */
  function RevealFileTool(os: Os, target: Result<AbsPath>): (o: Outcome)
    ensures Launches(o.effects)
  {
    match target
    case Err(m) => Fail(m)
    case Ok(file) => Step(os, Spawn("explorer.exe", ["/select,", Render(file)]), Done("File revealed"))
  }

  /** `create_file`: the path is admitted and the content converted to
      text, then the parent folder is created and the file written. */
  function CreateFileTool(os: Os, target: Result<AbsPath>, content: Result<string>): (o: Outcome)
    ensures forall i :: 0 <= i < |o.effects| ==> o.effects[i].MakeDir? || o.effects[i].WriteFile?
    ensures o.effects != [] ==> target.Ok? && content.Ok? && o.effects[0] == MakeDir(Parent(target.value))
    ensures |o.effects| == 2 ==> target.Ok? && content.Ok? && o.effects[1] == WriteFile(target.value, content.value)
  {
    match target
    case Err(m) => Fail(m)
    case Ok(file) =>
      match content
      case Err(m) => Fail(m)
      case Ok(text) => Step(os, MakeDir(Parent(file)), Step(os, WriteFile(file, text), Done("File created")))
  }

  /** `create_folder` */
  function CreateFolderTool(os: Os, target: Result<AbsPath>): (o: Outcome)
    ensures forall i :: 0 <= i < |o.effects| ==> o.effects[i].MakeDir?
  {
    match target
    case Err(m) => Fail(m)
    case Ok(folder) => Step(os, MakeDir(folder), Done("Folder created"))
  }

  /** `delete_file`, once confirmed. */
  function DeleteFileTool(os: Os, target: Result<AbsPath>): (o: Outcome)
    ensures forall i :: 0 <= i < |o.effects| ==> o.effects[i].Unlink?
  {
    match target
    case Err(m) => Fail(m)
    case Ok(file) => Step(os, Unlink(file), Done("File deleted"))
  }

  /** `delete_folder`, once confirmed. */
  function DeleteFolderTool(os: Os, target: Result<AbsPath>): (o: Outcome)
    ensures forall i :: 0 <= i < |o.effects| ==> o.effects[i].RemoveTree?
  {
    match target
    case Err(m) => Fail(m)
    case Ok(folder) => Step(os, RemoveTree(folder), Done("Folder deleted"))
  }

  /** `search_files`: the paths found, as text. */
  function SearchTool(env: Env, os: Os, args: Option<Value>): (o: Outcome)
    requires WellFormed(env.cwd)
    ensures o.effects == []
  {
    match SearchFiles(Prop(args, "query"), os.fs, env.roots)
    case Err(m) => Fail(m)
    case Ok(found) => Outcome([], Ok(Arr(PathValues(found))))
  }

  /** `get_system_info` and `list_processes`: a fixed `cmd.exe` command
      whose output is the result. */
  function CommandTool(os: Os, command: string): (o: Outcome)
    ensures o.effects == [Exec("cmd.exe", ["/c", command])]
  {
    var a := Exec("cmd.exe", ["/c", command]);
    Step(os, a, Done(Stdout(os, a)))
  }

  /** `kill_process`, once confirmed: `taskkill` on a validated pid. */
  function KillProcessTool(os: Os, args: Option<Value>): (o: Outcome)
    ensures forall i :: 0 <= i < |o.effects| ==>
              o.effects[i].Exec? && o.effects[i].cmd == "taskkill" && |o.effects[i].args| == 3
              && AllDigits(o.effects[i].args[1]) && |o.effects[i].args[1]| >= 1 && o.effects[i].args[1][0] != '0'
  {
    PidArgument(Prop(args, "pid"));
    match ValidatePid(Prop(args, "pid"))
    case Err(m) => Fail(m)
    case Ok(pid) => Step(os, Exec("taskkill", ["/PID", pid, "/F"]), Done("Process " + pid + " killed"))
  }

  /** One `case` of the `switch`, with `args` the request's `args`. */
  function RunTool(env: Env, os: Os, t: Tool, args: Option<Value>, confirm: Option<string>): Outcome
    requires WellFormed(env.cwd)
  {
    match t
    case OpenUrl => OpenUrlTool(os, args)
    case OpenUrlId => OpenUrlIdTool(env.build, os, args)
    case OpenApp => OpenAppTool(env.build, os, args)
    case OpenProject => OpenProjectTool(env, os, args)
    case RevealFile => RevealFileTool(os, Admit(env, args))
    case CreateFile => CreateFileTool(os, Admit(env, args), StrOrEmpty(Prop(args, "content")))
    case CreateFolder => CreateFolderTool(os, Admit(env, args))
    case DeleteFile => if RequireConfirm(confirm) then DeleteFileTool(os, Admit(env, args)) else Fail(ConfirmRequired)
    case DeleteFolder => if RequireConfirm(confirm) then DeleteFolderTool(os, Admit(env, args)) else Fail(ConfirmRequired)
    case SearchFilesTool => SearchTool(env, os, args)
    case GetSystemInfo => CommandTool(os, "systeminfo")
    case ListProcesses => CommandTool(os, "tasklist")
    case KillProcess => if RequireConfirm(confirm) then KillProcessTool(os, args) else Fail(ConfirmRequired)
    case RunCommand => Fail(CommandDisabled)
  }

  /** The body of the `try`: the platform check, the `tool_name` check and
      the `switch`. */
  function Dispatch(env: Env, os: Os, toolName: Option<Value>, args: Option<Value>, confirm: Option<string>): Outcome
    requires WellFormed(env.cwd)
  {
    if !IsWindows(os) then Fail(NotWindows)
    else if !Truthy(toolName) then Fail(MissingToolName)
    else match ToolOf(toolName)
      case None => Fail(UnknownTool)
      case Some(t) => RunTool(env, os, t, args, confirm)
  }

  /** `err?.message || "Unknown error"` */
  function ErrorText(m: string): (r: string)
    ensures r != "" && (m != "" ==> r == m)
  {
    if m == "" then "Unknown error" else m
  }

  // ---------------------------------------------------------------------
  // Requests that do nothing
  // ---------------------------------------------------------------------

  /** The refusals ahead of every handler: a platform other than Windows, a
      missing `tool_name` and a name no case selects. None of them issues
      an action. */
  lemma RefusedWithoutEffect(env: Env, os: Os, toolName: Option<Value>, args: Option<Value>, confirm: Option<string>)
    requires WellFormed(env.cwd)
    ensures var o := Dispatch(env, os, toolName, args, confirm);
            (!IsWindows(os) ==> o == Fail(NotWindows))
            && (IsWindows(os) && !Truthy(toolName) ==> o == Fail(MissingToolName))
            && (IsWindows(os) && Truthy(toolName) && ToolOf(toolName).None? ==> o == Fail(UnknownTool))
  {
  }

  /** `run_command` (the name ToolNameSelects ties to this case) is refused
      whatever its arguments and confirmation, and issues nothing. */
  lemma CommandRefused(env: Env, os: Os, toolName: Option<Value>, args: Option<Value>, confirm: Option<string>)
    requires WellFormed(env.cwd)
    ensures IsWindows(os) && ToolOf(toolName) == Some(RunCommand)
            ==> Dispatch(env, os, toolName, args, confirm) == Fail(CommandDisabled)
  {
    if IsWindows(os) && ToolOf(toolName) == Some(RunCommand) {
      DispatchSelects(env, os, toolName, args, confirm);
    }
  }

  /** On Windows a name that selects a case runs that case. */
  lemma DispatchSelects(env: Env, os: Os, toolName: Option<Value>, args: Option<Value>, confirm: Option<string>)
    requires WellFormed(env.cwd) && IsWindows(os) && ToolOf(toolName).Some?
    ensures Dispatch(env, os, toolName, args, confirm) == RunTool(env, os, ToolOf(toolName).value, args, confirm)
  {
  }

  // ---------------------------------------------------------------------
  // Confirmation
  // ---------------------------------------------------------------------

  /** The actions that destroy something: removing a file or a tree, and
      killing a process. */
  predicate IsDestructive(a: Action)
  {
    a.Unlink? || a.RemoveTree? || (a.Exec? && a.cmd == "taskkill")
  }

  predicate NoDestructive(effects: seq<Action>)
  {
    forall i :: 0 <= i < |effects| ==> !IsDestructive(effects[i])
  }

  /** Without `x-confirm: YES` the three destructive tools throw the
      confirmation error before validating anything and issue nothing; and
      no tool ever destroys anything without that header. A destructive
      action only ever comes from the tool made for it. */
  lemma ConfirmationGuardsDestruction(env: Env, os: Os, toolName: Option<Value>, args: Option<Value>, confirm: Option<string>)
    requires WellFormed(env.cwd)
    ensures var o := Dispatch(env, os, toolName, args, confirm);
            ((IsWindows(os) && ToolOf(toolName).Some? && NeedsConfirm(ToolOf(toolName).value) && !RequireConfirm(confirm))
               ==> o == Fail(ConfirmRequired))
            && (!NoDestructive(o.effects) ==> RequireConfirm(confirm) && ToolOf(toolName).Some? && NeedsConfirm(ToolOf(toolName).value))
  {
    if IsWindows(os) && ToolOf(toolName).Some? {
      var t := ToolOf(toolName).value;
      DispatchSelects(env, os, toolName, args, confirm);
      ConfirmationFirst(env, os, t, args, confirm);
      ToolConfirmation(env, os, t, args, confirm);
    } else {
      RefusedWithoutEffect(env, os, toolName, args, confirm);
    }
  }

  /** The three destructive tools check the header before anything else. */
  lemma ConfirmationFirst(env: Env, os: Os, t: Tool, args: Option<Value>, confirm: Option<string>)
    requires WellFormed(env.cwd)
    ensures NeedsConfirm(t) && !RequireConfirm(confirm) ==> RunTool(env, os, t, args, confirm) == Fail(ConfirmRequired)
  {
    if NeedsConfirm(t) && !RequireConfirm(confirm) {
      match t
      case DeleteFile =>
      case DeleteFolder =>
      case KillProcess =>
    }
  }

  lemma ToolConfirmation(env: Env, os: Os, t: Tool, args: Option<Value>, confirm: Option<string>)
    requires WellFormed(env.cwd)
    ensures !NoDestructive(RunTool(env, os, t, args, confirm).effects) ==> NeedsConfirm(t) && RequireConfirm(confirm)
  {
    if !NeedsConfirm(t) {
      ToolsKeepFromDestruction(env, os, t, args, confirm);
    } else if !RequireConfirm(confirm) {
      ConfirmationFirst(env, os, t, args, confirm);
    }
  }

  lemma ToolsKeepFromDestruction(env: Env, os: Os, t: Tool, args: Option<Value>, confirm: Option<string>)
    requires WellFormed(env.cwd) && !NeedsConfirm(t)
    ensures NoDestructive(RunTool(env, os, t, args, confirm).effects)
  {
  }

  // ---------------------------------------------------------------------
  // The sandbox around file-system actions
  // ---------------------------------------------------------------------

  predicate InSomeRoot(roots: seq<AbsPath>, p: AbsPath)
  {
    exists k :: 0 <= k < |roots| && InsideRoot(roots[k], p)
  }

  predicate ParentOfInside(roots: seq<AbsPath>, p: AbsPath)
  {
    exists k :: 0 <= k < |roots| && (InsideRoot(roots[k], p) || p == Parent(roots[k]))
  }

  /** A file-system action stays in the sandbox: what it writes or removes
      lies inside a root, and a folder it creates lies inside a root or is
      the folder just above one (`create_file` on a root itself creates the
      root's parent, which always exists). */
  predicate Sandboxed(roots: seq<AbsPath>, a: Action)
  {
    match a
    case MakeDir(d) => ParentOfInside(roots, d)
    case WriteFile(f, _) => InSomeRoot(roots, f)
    case Unlink(f) => InSomeRoot(roots, f)
    case RemoveTree(d) => InSomeRoot(roots, d)
    case Spawn(_, _) => true
    case Exec(_, _) => true
  }

  lemma ParentStaysNear(root: AbsPath, f: AbsPath)
    requires InsideRoot(root, f)
    ensures InsideRoot(root, Parent(f)) || Parent(f) == Parent(root)
  {
    if |f.names| > |root.names| {
      assert Parent(f).names[..|root.names|] == f.names[..|root.names|];
    } else {
      assert f.names == root.names;
      assert f == root;
    }
  }

  /** Whatever the request, every file-system action the agent issues stays
      in the sandbox of the allowed roots. */
  lemma FileActionsSandboxed(env: Env, os: Os, toolName: Option<Value>, args: Option<Value>, confirm: Option<string>)
    requires ValidEnv(env)
    ensures AllSandboxed(env.roots, Dispatch(env, os, toolName, args, confirm).effects)
  {
    if IsWindows(os) && Truthy(toolName) && ToolOf(toolName).Some? {
      ToolSandboxed(env, os, ToolOf(toolName).value, args, confirm);
    }
  }

  predicate AllSandboxed(roots: seq<AbsPath>, effects: seq<Action>)
  {
    forall i :: 0 <= i < |effects| ==> Sandboxed(roots, effects[i])
  }

  lemma ToolSandboxed(env: Env, os: Os, t: Tool, args: Option<Value>, confirm: Option<string>)
    requires ValidEnv(env)
    ensures AllSandboxed(env.roots, RunTool(env, os, t, args, confirm).effects)
  {
    var target := Admit(env, args);
    AdmittedIsSandboxed(env, args);
    match t
    case CreateFile => CreateFileSandboxed(env.roots, os, target, StrOrEmpty(Prop(args, "content")));
    case CreateFolder => PathToolsSandboxed(env.roots, os, target);
    case DeleteFile => PathToolsSandboxed(env.roots, os, target);
    case DeleteFolder => PathToolsSandboxed(env.roots, os, target);
    case _ =>
  }

  lemma CreateFileSandboxed(roots: seq<AbsPath>, os: Os, target: Result<AbsPath>, content: Result<string>)
    requires target.Ok? ==> InSomeRoot(roots, target.value) && ParentOfInside(roots, Parent(target.value))
    ensures AllSandboxed(roots, CreateFileTool(os, target, content).effects)
  {
  }

  lemma PathToolsSandboxed(roots: seq<AbsPath>, os: Os, target: Result<AbsPath>)
    requires target.Ok? ==> InSomeRoot(roots, target.value) && ParentOfInside(roots, target.value)
    ensures AllSandboxed(roots, CreateFolderTool(os, target).effects)
    ensures AllSandboxed(roots, DeleteFileTool(os, target).effects)
    ensures AllSandboxed(roots, DeleteFolderTool(os, target).effects)
  {
  }

  /** What the sandbox admits, and its parent, are fit for a file-system
      action. */
  lemma AdmittedIsSandboxed(env: Env, args: Option<Value>)
    requires ValidEnv(env)
    ensures var r := Admit(env, args);
            r.Ok? ==> InSomeRoot(env.roots, r.value) && ParentOfInside(env.roots, r.value)
                      && ParentOfInside(env.roots, Parent(r.value))
  {
    var roots := env.roots;
    var p := Prop(args, "path");
    ResolveAllowedPathSound(env.cwd, roots, p);
    var r := Admit(env, args);
    if r.Ok? {
      var k :| 0 <= k < |roots| && InsideRoot(roots[k], r.value);
      ParentStaysNear(roots[k], r.value);
    }
  }

  // ---------------------------------------------------------------------
  // The registries
  // ---------------------------------------------------------------------

  /** `open_url` starts exactly the URL it was given, and only one that
      passes the scheme test. */
  lemma OpenUrlValidated(os: Os, args: Option<Value>)
    ensures var o := OpenUrlTool(os, args);
            var text := StrOrEmpty(Prop(args, "url"));
            (text.Err? ==> o == Fail(CannotConvert))
            && (text.Ok? ==>
                  var url := text.value;
                  (o.result.Ok? <==> HasHttpScheme(url))
                  && (HasHttpScheme(url) ==> o == Outcome([Start(url)], Ok(Str("URL opened"))))
                  && (!HasHttpScheme(url) ==> o == Fail(InvalidUrl)))
  {
  }

  /** `open_url_id` opens a registered URL, which always passes the scheme
      test, and refuses an unregistered id without launching anything, with
      one exception in the build as written: "constructor" and "__proto__"
      hand `start` a text that `validateUrl` would refuse, and report
      success. */
  lemma UrlIdRegistered(b: Build, os: Os, args: Option<Value>)
    ensures var o := OpenUrlIdTool(b, os, args);
            var text := StrOrEmpty(Prop(args, "id"));
            (text.Err? ==> o == Fail(CannotConvert))
            && (text.Ok? ==>
                  var id := Lower(text.value);
                  (id in Urls ==> o == Outcome([Start(Urls[id])], Ok(Str("Opened URL id: " + id)))
                                  && ValidateUrl(Some(Str(Urls[id]))) == Ok(Urls[id]))
                  && (id !in Urls && (b == Corrected || !IsInheritedName(id)) ==> o == Fail(UnknownUrlId))
                  && (b == AsWritten && IsInheritedName(id) ==>
                        o == Outcome([Start(InheritedText(id))], Ok(Str("Opened URL id: " + id)))
                        && ValidateUrl(Some(Str(InheritedText(id)))) == Err(InvalidUrl)))
  {
    var text := StrOrEmpty(Prop(args, "id"));
    if text.Ok? {
      var id := Lower(text.value);
      if id in Urls {
        UrlsAreWeb(id);
      } else if IsInheritedName(id) {
        assert "constructor" !in Urls && "__proto__" !in Urls;
      }
    }
  }

  /** `open_app` launches a registered command, or the first installed
      candidate of a registered app, with no arguments; an app none of whose
      candidates exists, and an unregistered id, launch nothing, and as
      written an inherited name is an "Invalid app spec". */
  lemma AppRegistered(b: Build, os: Os, args: Option<Value>)
    ensures var o := OpenAppTool(b, os, args);
            var text := StrOrEmpty(Prop(args, "app_id"));
            (text.Err? ==> o == Fail(CannotConvert))
            && (text.Ok? ==>
                  var appId := Lower(text.value);
                  (appId !in Apps && (b == Corrected || !IsInheritedName(appId)) ==> o == Fail(AppNotAllowed))
                  && (b == AsWritten && IsInheritedName(appId) ==> o == Fail(InvalidAppSpec))
                  && (appId in Apps && Apps[appId].Exe? ==> o == Outcome([Spawn(Apps[appId].command, [])], Ok(Str("Opened " + appId))))
                  && (appId in Apps && Apps[appId].PathCandidates? ==>
                        var cs := Apps[appId].candidates;
                        if forall i :: 0 <= i < |cs| ==> cs[i] !in os.existing then o == Fail("Executable not found for " + appId)
                        else exists i :: 0 <= i < |cs| && cs[i] in os.existing
                                         && (forall j :: 0 <= j < i ==> cs[j] !in os.existing)
                                         && o == Outcome([Spawn(cs[i], [])], Ok(Str("Opened " + appId)))))
  {
    var text := StrOrEmpty(Prop(args, "app_id"));
    if text.Ok? && IsInheritedName(Lower(text.value)) {
      assert "constructor" !in Apps && "__proto__" !in Apps;
    }
    if text.Ok? && Lower(text.value) in Apps && Apps[Lower(text.value)].PathCandidates? {
      FirstExistingIsFirst(Apps[Lower(text.value)].candidates, os.existing);
    }
  }

  /** The launches `open_project` makes for a registered project: Explorer,
      then the editor, each on the given folder text, as the entry asks. */
  function ProjectLaunches(proj: Project, folder: string): seq<Action>
  {
    (if proj.openInExplorer then [Start(folder)] else [])
    + (if proj.openInVscode then [Spawn("cmd.exe", ["/c", "code", folder])] else [])
  }

  lemma OpenFolderLaunches(os: Os, proj: Project, folder: string, next: Outcome)
    requires next.effects == [] && next.result.Ok?
    ensures OpenFolder(os, proj, folder, next) == Outcome(ProjectLaunches(proj, folder), next.result)
  {
  }

  /** Every registered project opens, whatever the working directory, the
      user's name and the build: its folder passes the sandbox, and Explorer
      and the editor are started, as the registry asks, on exactly the
      folder text the registry holds. */
  lemma ProjectsOpen(cwd: AbsPath, username: string, token: string, b: Build, os: Os, args: Option<Value>)
    requires WellFormed(cwd)
    ensures var o := OpenProjectTool(Configured(cwd, username, token, b), os, args);
            var text := StrOrEmpty(Prop(args, "project_id"));
            (text.Err? ==> o == Fail(CannotConvert))
            && (text.Ok? ==>
                  var id := Lower(text.value);
                  (id !in Projects && (b == Corrected || !IsInheritedName(id)) ==> o == Fail(UnknownProject))
                  && (id in Projects ==>
                        o == Outcome(ProjectLaunches(Projects[id], Projects[id].folder), Ok(Str("Opened project " + id)))))
  {
    var text := StrOrEmpty(Prop(args, "project_id"));
    if text.Ok? {
      var id := Lower(text.value);
      if id in Projects {
        var env := Configured(cwd, username, token, b);
        ProjectsAdmitted(cwd, username, id);
        ProjectFolderRenders(cwd, id);
        var folder := ResolveAllowedPath(env.cwd, env.roots, Some(Str(Projects[id].folder))).value;
        OpenFolderLaunches(os, Projects[id], Render(folder), Done("Opened project " + id));
      }
    }
  }

  /** As written, "constructor" and "__proto__" open nothing, and report
      success exactly when the working directory lies inside an allowed
      root; the corrected build refuses them. */
  lemma ProjectInheritedName(env: Env, os: Os, args: Option<Value>)
    requires ValidEnv(env)
    ensures var o := OpenProjectTool(env, os, args);
            var text := StrOrEmpty(Prop(args, "project_id"));
            text.Ok? && IsInheritedName(Lower(text.value)) ==>
              o.effects == []
              && (env.build == Corrected ==> o == Fail(UnknownProject))
              && (env.build == AsWritten ==>
                    (o.result.Ok? <==> InSomeRoot(env.roots, env.cwd))
                    && (o.result.Ok? ==> o.result == Ok(Str("Opened project " + Lower(text.value)))))
  {
    var text := StrOrEmpty(Prop(args, "project_id"));
    if text.Ok? && IsInheritedName(Lower(text.value)) {
      assert "constructor" !in Projects && "__proto__" !in Projects;
      ResolveEmpty(env.cwd);
      ResolveAllowedPathSound(env.cwd, env.roots, None);
    }
  }

  /** `search_files` issues nothing, refuses a query that is not text or is
      empty, and returns at most `SEARCH_MAX_RESULTS` paths. */
  lemma SearchBounded(env: Env, os: Os, args: Option<Value>)
    requires ValidEnv(env)
    ensures var o := SearchTool(env, os, args);
            var text := StrOrEmpty(Prop(args, "query"));
            o.effects == []
            && (text.Err? ==> o == Fail(CannotConvert))
            && (text.Ok? ==> (Trim(Lower(text.value)) == "" <==> o.result == Err(MissingQuery)))
            && (o.result.Ok? ==> o.result.value.Arr? && |o.result.value.items| <= MaxResults)
  {
    SearchFilesSound(Prop(args, "query"), os.fs, env.roots);
  }
}
