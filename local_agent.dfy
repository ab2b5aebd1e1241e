/** The running agent: the actions it has issued so far and the audit log
    file it appends to, changed step by step as the `/tool/run` handler
    awaits one operation after another. Each handler is proved to do what
    the functional model of the same case says. */
module LocalAgentProcess {
  import opened Text
  import opened Json
  import opened Sandbox
  import opened Guards
  import opened Config
  import opened Search
  import opened Agent
  import opened AgentHttp

  lemma AppendNothing<T>(s: seq<T>, e: seq<T>)
    requires e == []
    ensures s + e == s
  {
  }

  class LocalAgent {
    const env: Env
    /** Every action issued, oldest first. */
    var issued: seq<Action>
    /** The lines of `local-agent-audit.log`, oldest first. */
    var log: seq<string>

    constructor(env: Env)
      ensures this.env == env && issued == [] && log == []
    {
      this.env := env;
      issued := [];
      log := [];
    }

    /** Issue one action and report the error it fails with, if any. */
    method Issue(os: Os, a: Action) returns (err: Option<string>)
      modifies this
      ensures issued == old(issued) + [a] && log == old(log)
      ensures err == Attempt(os, a)
    {
      issued := issued + [a];
      err := Attempt(os, a);
    }

    /** `spawnDetached`: a launch nobody waits for. */
    method Launch(os: Os, cmd: string, args: seq<string>)
      modifies this
      ensures issued == old(issued) + [Spawn(cmd, args)] && log == old(log)
    {
      var _ := Issue(os, Spawn(cmd, args));
    }

    /** `fs.appendFileSync(AUDIT_LOG, entry)`; false when it throws. */
    method Append(line: string, logWritable: bool) returns (ok: bool)
      modifies this
      ensures ok == logWritable && issued == old(issued)
      ensures log == if logWritable then old(log) + [line] else old(log)
    {
      if logWritable {
        log := log + [line];
      }
      ok := logWritable;
    }

    method OpenUrl(os: Os, args: Option<Value>) returns (r: Result<Value>)
      modifies this
      ensures issued == old(issued) + OpenUrlTool(os, args).effects && log == old(log)
      ensures r == OpenUrlTool(os, args).result
    {
      var url := ValidateUrl(Prop(args, "url"));
      if url.Err? {
        return Err(url.msg);
      }
      Launch(os, "cmd.exe", ["/c", "start", "", url.value]);
      return Ok(Str("URL opened"));
    }

    method OpenUrlId(os: Os, args: Option<Value>) returns (r: Result<Value>)
      modifies this
      ensures issued == old(issued) + OpenUrlIdTool(env.build, os, args).effects && log == old(log)
      ensures r == OpenUrlIdTool(env.build, os, args).result
    {
      var text := StrOrEmpty(Prop(args, "id"));
      if text.Err? {
        return Err(text.msg);
      }
      var id := Lower(text.value);
      var url := Fetch(env.build, Urls, id);
      if url.Missing? {
        return Err(UnknownUrlId);
      }
      var target := if url.Own? then url.value else InheritedText(url.name);
      Launch(os, "cmd.exe", ["/c", "start", "", target]);
      return Ok(Str("Opened URL id: " + id));
    }

    method OpenApp(os: Os, args: Option<Value>) returns (r: Result<Value>)
      modifies this
      ensures issued == old(issued) + OpenAppTool(env.build, os, args).effects && log == old(log)
      ensures r == OpenAppTool(env.build, os, args).result
    {
      var text := StrOrEmpty(Prop(args, "app_id"));
      if text.Err? {
        return Err(text.msg);
      }
      var appId := Lower(text.value);
      var spec := Fetch(env.build, Apps, appId);
      if spec.Missing? {
        return Err(AppNotAllowed);
      }
      if spec.Inherited? {
        return Err(InvalidAppSpec);
      }
      if spec.value.Exe? {
        Launch(os, spec.value.command, []);
        return Ok(Str("Opened " + appId));
      }
      var exe := FindFirstExisting(spec.value.candidates, os.existing);
      if exe.None? {
        return Err("Executable not found for " + appId);
      }
      Launch(os, exe.value, []);
      return Ok(Str("Opened " + appId));
    }

    method OpenProject(os: Os, args: Option<Value>) returns (r: Result<Value>)
      requires WellFormed(env.cwd)
      modifies this
      ensures issued == old(issued) + OpenProjectTool(env, os, args).effects && log == old(log)
      ensures r == OpenProjectTool(env, os, args).result
    {
      var text := StrOrEmpty(Prop(args, "project_id"));
      if text.Err? {
        return Err(text.msg);
      }
      var projectId := Lower(text.value);
      var proj := Fetch(env.build, Projects, projectId);
      if proj.Missing? {
        return Err(UnknownProject);
      }
      if proj.Inherited? {
        // No `folder`: the sandbox resolves the working directory.
        var cwd := ResolveAllowedPath(env.cwd, env.roots, None);
        if cwd.Err? {
          return Err(cwd.msg);
        }
        return Ok(Str("Opened project " + projectId));
      }
      var folder := ResolveAllowedPath(env.cwd, env.roots, Some(Str(proj.value.folder)));
      if folder.Err? {
        return Err(folder.msg);
      }
      var shown := Render(folder.value);
      if proj.value.openInExplorer {
        Launch(os, "cmd.exe", ["/c", "start", "", shown]);
      }
      if proj.value.openInVscode {
        Launch(os, "cmd.exe", ["/c", "code", shown]);
      }
      return Ok(Str("Opened project " + projectId));
    }

    method RevealFile(os: Os, target: Result<AbsPath>) returns (r: Result<Value>)
      modifies this
      ensures issued == old(issued) + RevealFileTool(os, target).effects && log == old(log)
      ensures r == RevealFileTool(os, target).result
    {
      if target.Err? {
        return Err(target.msg);
      }
      Launch(os, "explorer.exe", ["/select,", Render(target.value)]);
      return Ok(Str("File revealed"));
    }

    method CreateFile(os: Os, target: Result<AbsPath>, content: Result<string>) returns (r: Result<Value>)
      modifies this
      ensures issued == old(issued) + CreateFileTool(os, target, content).effects && log == old(log)
      ensures r == CreateFileTool(os, target, content).result
    {
      if target.Err? {
        return Err(target.msg);
      }
      if content.Err? {
        return Err(content.msg);
      }
      var err := Issue(os, MakeDir(Parent(target.value)));
      if err.Some? {
        return Err(err.value);
      }
      err := Issue(os, WriteFile(target.value, content.value));
      if err.Some? {
        return Err(err.value);
      }
      return Ok(Str("File created"));
    }

    /** One awaited operation; on success the handler's result is `done`. */
    method Await(os: Os, op: Action, done: string) returns (r: Result<Value>)
      modifies this
      ensures var o := Step(os, op, Done(done));
              issued == old(issued) + o.effects && r == o.result
      ensures log == old(log)
    {
      var err := Issue(os, op);
      if err.Some? {
        return Err(err.value);
      }
      return Ok(Str(done));
    }

    method SearchFiles(os: Os, args: Option<Value>) returns (r: Result<Value>)
      requires WellFormed(env.cwd)
      ensures issued == old(issued) && log == old(log)
      ensures r == SearchTool(env, os, args).result
    {
      var found := SearchFilesInRoots(Prop(args, "query"), os.fs, env.roots);
      if found.Err? {
        return Err(found.msg);
      }
      return Ok(Arr(PathValues(found.value)));
    }

    /** `execFileAsync` of a fixed command, whose output is the result. */
    method Command(os: Os, command: string) returns (r: Result<Value>)
      modifies this
      ensures issued == old(issued) + CommandTool(os, command).effects && log == old(log)
      ensures r == CommandTool(os, command).result
    {
      var a := Exec("cmd.exe", ["/c", command]);
      r := Await(os, a, Stdout(os, a));
    }

    method KillProcess(os: Os, args: Option<Value>) returns (r: Result<Value>)
      modifies this
      ensures issued == old(issued) + KillProcessTool(os, args).effects && log == old(log)
      ensures r == KillProcessTool(os, args).result
    {
      var pid := ValidatePid(Prop(args, "pid"));
      if pid.Err? {
        return Err(pid.msg);
      }
      r := Await(os, Exec("taskkill", ["/PID", pid.value, "/F"]), "Process " + pid.value + " killed");
    }
 
    /** The `switch` of the handler. */
    method Execute(os: Os, t: Tool, args: Option<Value>, confirm: Option<string>) returns (r: Result<Value>)
      requires WellFormed(env.cwd)
      modifies this
      ensures issued == old(issued) + RunTool(env, os, t, args, confirm).effects && log == old(log)
      ensures r == RunTool(env, os, t, args, confirm).result
    {
      match t
      case OpenUrl => r := ExecuteLauncher(os, t, args, confirm);
      case OpenUrlId => r := ExecuteLauncher(os, t, args, confirm);
      case OpenApp => r := ExecuteLauncher(os, t, args, confirm);
      case OpenProject => r := ExecuteLauncher(os, t, args, confirm);
      case RevealFile => r := ExecuteLauncher(os, t, args, confirm);
      case CreateFile => r := ExecuteFileOp(os, t, args, confirm);
      case CreateFolder => r := ExecuteFileOp(os, t, args, confirm);
      case DeleteFile => r := ExecuteFileOp(os, t, args, confirm);
      case DeleteFolder => r := ExecuteFileOp(os, t, args, confirm);
      case SearchFilesTool =>
        r := ExecuteSearch(os, t, args, confirm);
        AppendNothing(old(issued), RunTool(env, os, t, args, confirm).effects);
      case GetSystemInfo => r := ExecuteSystem(os, t, args, confirm);
      case ListProcesses => r := ExecuteSystem(os, t, args, confirm);
      case KillProcess => r := ExecuteSystem(os, t, args, confirm);
      case RunCommand => r := ExecuteSystem(os, t, args, confirm);
    }

    /** The cases that start a program. */
    method ExecuteLauncher(os: Os, t: Tool, args: Option<Value>, confirm: Option<string>) returns (r: Result<Value>)
      requires WellFormed(env.cwd)
      requires t.OpenUrl? || t.OpenUrlId? || t.OpenApp? || t.OpenProject? || t.RevealFile?
      modifies this
      ensures issued == old(issued) + RunTool(env, os, t, args, confirm).effects && log == old(log)
      ensures r == RunTool(env, os, t, args, confirm).result
    {
      match t
      case OpenUrl => r := OpenUrl(os, args);
      case OpenUrlId => r := OpenUrlId(os, args);
      case OpenApp => r := OpenApp(os, args);
      case OpenProject => r := OpenProject(os, args);
      case RevealFile => r := RevealFile(os, Admit(env, args));
    }

    /** The cases that change the file system inside the sandbox. */
    method ExecuteFileOp(os: Os, t: Tool, args: Option<Value>, confirm: Option<string>) returns (r: Result<Value>)
      requires WellFormed(env.cwd)
      requires t.CreateFile? || t.CreateFolder? || t.DeleteFile? || t.DeleteFolder?
      modifies this
      ensures issued == old(issued) + RunTool(env, os, t, args, confirm).effects && log == old(log)
      ensures r == RunTool(env, os, t, args, confirm).result
    {
      if (t.DeleteFile? || t.DeleteFolder?) && !RequireConfirm(confirm) {
        return Err(ConfirmRequired);
      }
      var target := Admit(env, args);
      if t.CreateFile? {
        r := CreateFile(os, target, StrOrEmpty(Prop(args, "content")));
        return;
      }
      if target.Err? {
        return Err(target.msg);
      }
      match t
      case CreateFolder => r := Await(os, MakeDir(target.value), "Folder created");
      case DeleteFile => r := Await(os, Unlink(target.value), "File deleted");
      case DeleteFolder => r := Await(os, RemoveTree(target.value), "Folder deleted");
    }

    method ExecuteSearch(os: Os, t: Tool, args: Option<Value>, confirm: Option<string>) returns (r: Result<Value>)
      requires WellFormed(env.cwd)
      requires t.SearchFilesTool?
      modifies this
      ensures issued == old(issued) && log == old(log)
      ensures RunTool(env, os, t, args, confirm).effects == []
      ensures r == RunTool(env, os, t, args, confirm).result
    {
      r := SearchFiles(os, args);
    }

    /** The fixed commands, `kill_process` and `run_command`. */
    method ExecuteSystem(os: Os, t: Tool, args: Option<Value>, confirm: Option<string>) returns (r: Result<Value>)
      requires WellFormed(env.cwd)
      requires t.GetSystemInfo? || t.ListProcesses? || t.KillProcess? || t.RunCommand?
      modifies this
      ensures issued == old(issued) + RunTool(env, os, t, args, confirm).effects && log == old(log)
      ensures r == RunTool(env, os, t, args, confirm).result
    {
      match t
      case GetSystemInfo => r := Command(os, "systeminfo");
      case ListProcesses => r := Command(os, "tasklist");
      case KillProcess =>
        if !RequireConfirm(confirm) {
          return Err(ConfirmRequired);
        }
        r := KillProcess(os, args);
      case RunCommand => r := Err(CommandDisabled);
    }

    /** The body of the handler's `try`: the platform and `tool_name` checks,
        then the case. */
    method Run(os: Os, toolName: Option<Value>, args: Option<Value>, confirm: Option<string>) returns (r: Result<Value>)
      requires WellFormed(env.cwd)
      modifies this
      ensures issued == old(issued) + Dispatch(env, os, toolName, args, confirm).effects && log == old(log)
      ensures r == Dispatch(env, os, toolName, args, confirm).result
    {
      if !IsWindows(os) {
        return Err(NotWindows);
      }
      if !Truthy(toolName) {
        return Err(MissingToolName);
      }
      var t := ToolOf(toolName);
      if t.None? {
        return Err(UnknownTool);
      }
      r := Execute(os, t.value, args, confirm);
    }

    /** `POST /tool/run`: run the case, append the audit line, reply. */
    method HandleToolRun(os: Os, body: Option<Value>, confirm: Option<string>,
                         now: nat, stamp: string, logWritable: bool) returns (resp: Option<Response>)
      requires WellFormed(env.cwd)
      modifies this
      ensures var s := ToolRun(env, os, body, confirm, now, stamp, logWritable);
              issued == old(issued) + s.effects && log == old(log) + s.lines && resp == s.response
    {
      var toolName := Prop(body, "tool_name");
      var args := Prop(body, "args");
      var auditId := NatToDecimal(now);
      var r := Run(os, toolName, args, confirm);
      ghost var o := Dispatch(env, os, toolName, args, confirm);
      var line := AuditEntry(env, stamp, toolName, args, r);
      if line.Err? {
        // Printing the tool name threw inside the `catch`.
        AppendNothing(old(log), ToolRun(env, os, body, confirm, now, stamp, logWritable).lines);
        return None;
      }
      var ok := Append(line.value, logWritable);
      if !ok {
        AppendNothing(old(log), ToolRun(env, os, body, confirm, now, stamp, logWritable).lines);
        return None;
      }
      assert ToolRun(env, os, body, confirm, now, stamp, logWritable) == Served(o.effects, [line.value], Some(Reply(r, auditId)));
      return Some(Reply(r, auditId));
    }

    /** One request through the whole server. */
    method Handle(os: Os, req: Request, now: nat, stamp: string, logWritable: bool) returns (resp: Option<Response>)
      requires WellFormed(env.cwd)
      modifies this
      ensures var s := Serve(env, os, req, now, stamp, logWritable);
              issued == old(issued) + s.effects && log == old(log) + s.lines && resp == s.response
    {
      if req.verb == "OPTIONS" {
        return Some(Response(204, Null));
      }
      if RequireAuth(req.path, req.agentToken, env.token) == Unauthorized {
        return Some(UnauthorizedReply);
      }
      if req.verb == "GET" && RouteMatches(req.path, "/health") {
        return Some(Response(200, Health(env, os)));
      }
      if req.verb == "POST" && RouteMatches(req.path, "/tool/run") {
        resp := HandleToolRun(os, req.body, req.confirm, now, stamp, logWritable);
        return;
      }
      return Some(Response(404, Null));
    }
  }
}
