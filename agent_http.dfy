/** The local agent's HTTP layer: the audit line written for every handled
    `/tool/run` request, the JSON replies, and the routing of a request
    through the CORS preflight, the shared-token gate and the two routes. */
module AgentHttp {
  import opened Text
  import opened Json
  import opened Sandbox
  import opened Guards
  import opened Agent
  import opened Config

  // ---------------------------------------------------------------------
  // The audit line
  // ---------------------------------------------------------------------

  /** The status field: "OK" for a result, "ERROR" for a thrown error. */
  function Status(r: Result<Value>): (s: string)
    ensures s == "OK" <==> r.Ok?
    ensures s == "ERROR" <==> r.Err?
  {
    if r.Ok? then "OK" else "ERROR"
  }

  /** `auditLog(tool_name, args, status, result)` as the handler calls it:
      the time stamp, the tool name as a template literal prints it, the
      status, the arguments as JSON, and the serialised result or the error
      message, truncated, then one line break. Printing the tool name throws
      when it is an object with its own "toString" member (or an array
      holding one), and then no line is written. */
  function AuditLineAsWritten(stamp: string, toolName: Option<Value>, args: Option<Value>, r: Result<Value>): (line: Result<string>)
    ensures line.Err? <==> toolName.Some? && Unprintable(toolName.value)
    ensures line.Err? ==> line.msg == CannotConvert
    ensures line.Ok? ==>
              IsPrefix(stamp + " | " + Template(toolName).value + " | " + Status(r) + " | " + SafeJsonText(args) + " | ", line.value)
              && IsSuffix(Truncate(RecordedAsWritten(r), AuditResultLimit) + "\n", line.value)
  {
    match Template(toolName)
    case Err(m) => Err(m)
    case Ok(name) =>
      var head := stamp + " | " + name + " | " + Status(r) + " | " + SafeJsonText(args) + " | ";
      var tail := Truncate(RecordedAsWritten(r), AuditResultLimit) + "\n";
      HeadAndTail(head, tail);
      Ok(head + tail)
  }

  /** `String(result ?? "")` of what the handler passes as the result: the
      serialised result, or the error message. */
  function RecordedAsWritten(r: Result<Value>): (t: string)
    ensures r.Ok? ==> t == Stringify(r.value)
    ensures r.Err? ==> t == ErrorText(r.msg)
  {
    match r
    case Ok(v) => Stringify(v)
    case Err(m) => ErrorText(m)
  }

  /** A line made of a head and a tail starts with the one and ends with
      the other. */
  lemma HeadAndTail(head: string, tail: string)
    ensures IsPrefix(head, head + tail) && IsSuffix(tail, head + tail)
  {
    assert (head + tail)[..|head|] == head;
    assert (head + tail)[|head + tail| - |tail|..] == tail;
  }

  /** A caller picks the tool name, so one request can write two lines to the
      log, the second of them forged: "a\nb" as `tool_name` breaks the line
      after "a". */
  lemma AuditLineAsWrittenSplits()
    ensures var line := AuditLineAsWritten("T", Some(Str("a\nb")), None, Err(UnknownTool));
            line.Ok? && |line.value| > 5 && line.value[5] == '\n' && line.value[|line.value| - 1] == '\n'
  {
    var line := AuditLineAsWritten("T", Some(Str("a\nb")), None, Err(UnknownTool));
    assert line.value == "T | " + "a\nb" + " | " + "ERROR" + " | " + "undefined" + " | "
                   + Truncate(UnknownTool, AuditResultLimit) + "\n";
  }

  /** The text the line records for a result: JSON for a result, and the
      message as a JSON string literal for an error. */
  function Recorded(r: Result<Value>): (t: string)
    ensures '\n' !in t && '\r' !in t
  {
    match r
    case Ok(v) => StringifyNoLineBreak(v); Stringify(v)
    case Err(m) => EscapeNoLineBreak(ErrorText(m)); Quote(ErrorText(m))
  }

  /** The audit line with the two caller- or system-supplied texts, the tool
      name and the error message, written as JSON: the tool name as
      `JSON.stringify` writes it, which never calls a "toString" member. */
  function AuditLine(stamp: string, toolName: Option<Value>, args: Option<Value>, r: Result<Value>): (line: string)
    ensures IsPrefix(stamp + " | " + SafeJsonText(toolName) + " | " + Status(r) + " | " + SafeJsonText(args) + " | ", line)
    ensures IsSuffix(Truncate(Recorded(r), AuditResultLimit) + "\n", line)
  {
    var head := stamp + " | " + SafeJsonText(toolName) + " | " + Status(r) + " | " + SafeJsonText(args) + " | ";
    var tail := Truncate(Recorded(r), AuditResultLimit) + "\n";
    HeadAndTail(head, tail);
    head + tail
  }

  /** Each handled request adds exactly one line to the log: the entry ends
      with its only line break, and holds no carriage return, whatever the
      request and the messages are, provided the time stamp has none (an
      ISO 8601 stamp never does). The entry also starts with the stamp. */
  lemma AuditLineIsOneLine(stamp: string, toolName: Option<Value>, args: Option<Value>, r: Result<Value>)
    requires '\n' !in stamp && '\r' !in stamp
    ensures var line := AuditLine(stamp, toolName, args, r);
            |line| > 0 && line[|line| - 1] == '\n'
            && '\n' !in line[..|line| - 1] && '\r' !in line
            && IsPrefix(stamp + " | ", line)
  {
    if toolName.Some? {
      StringifyNoLineBreak(toolName.value);
    }
    if args.Some? {
      StringifyNoLineBreak(args.value);
    }
    TruncateNoLineBreak(Recorded(r), AuditResultLimit);
    var rec := Truncate(Recorded(r), AuditResultLimit);
    var name, status, argsText := SafeJsonText(toolName), Status(r), SafeJsonText(args);
    assert '\n' !in status && '\r' !in status;
    FieldsOnOneLine(stamp, name, status, argsText, rec);
    var head := stamp + " | " + name + " | " + status + " | " + argsText + " | ";
    assert AuditLine(stamp, toolName, args, r) == head + (rec + "\n");
    assert head + (rec + "\n") == stamp + " | " + name + " | " + status + " | " + argsText + " | " + rec + "\n";
  }

  /** Five fields without line breaks, joined by " | " and ended by a line
      break, make one line. */
  lemma FieldsOnOneLine(a: string, b: string, c: string, d: string, e: string)
    requires '\n' !in a && '\r' !in a && '\n' !in b && '\r' !in b && '\n' !in c && '\r' !in c
    requires '\n' !in d && '\r' !in d && '\n' !in e && '\r' !in e
    ensures var line := a + " | " + b + " | " + c + " | " + d + " | " + e + "\n";
            |line| > 0 && line[|line| - 1] == '\n'
            && '\n' !in line[..|line| - 1] && '\r' !in line
            && IsPrefix(a + " | ", line)
  {
    var sep := " | ";
    assert '\n' !in sep && '\r' !in sep;
    var head := a + sep + b + sep + c + sep + d + sep + e;
    assert head + "\n" == a + " | " + b + " | " + c + " | " + d + " | " + e + "\n";
    assert (head + "\n")[..|head|] == head;
    assert (head + "\n")[..|a + sep|] == a + sep;
  }

  // ---------------------------------------------------------------------
  // Replies
  // ---------------------------------------------------------------------

  datatype Response = Response(status: nat, body: Value)

  /** The JSON reply of `/tool/run`: 200 with the result, or 500 with the
      message; both carry the audit id. */
  function Reply(r: Result<Value>, auditId: string): (resp: Response)
    ensures resp.status == 200 <==> r.Ok?
    ensures resp.status == 200 || resp.status == 500
    ensures resp.body.Obj? && Get(resp.body.fields, "ok") == Some(Bool(r.Ok?))
    ensures Get(resp.body.fields, "audit_id") == Some(Str(auditId))
    ensures r.Ok? ==> Get(resp.body.fields, "result") == Some(r.value)
    ensures r.Err? ==> Get(resp.body.fields, "error") == Some(Str(ErrorText(r.msg)))
                       && ErrorText(r.msg) != ""
  {
    var id := Member("audit_id", Str(auditId));
    match r
    case Ok(v) =>
      var ok := Member("ok", Bool(true));
      var res := Member("result", v);
      GetOfThree(ok, res, id, "ok");
      GetOfThree(ok, res, id, "result");
      GetOfThree(ok, res, id, "audit_id");
      Response(200, Obj([ok, res, id]))
    case Err(m) =>
      var ok := Member("ok", Bool(false));
      var err := Member("error", Str(ErrorText(m)));
      GetOfThree(ok, err, id, "ok");
      GetOfThree(ok, err, id, "error");
      GetOfThree(ok, err, id, "audit_id");
      Response(500, Obj([ok, err, id]))
  }

  /** What serving one request did: the actions issued, the lines appended
      to the audit log, and the reply (`None` when the handler never
      replies). */
  datatype Served = Served(effects: seq<Action>, lines: seq<string>, response: Option<Response>)

  /** The line the handler appends for an outcome: `auditLog` as written,
      or the corrected line that cannot fail, by the build. */
  function AuditEntry(env: Env, stamp: string, toolName: Option<Value>, args: Option<Value>, r: Result<Value>): (line: Result<string>)
    ensures env.build == Corrected ==> line == Ok(AuditLine(stamp, toolName, args, r))
    ensures env.build == AsWritten ==> line == AuditLineAsWritten(stamp, toolName, args, r)
  {
    if env.build == AsWritten then AuditLineAsWritten(stamp, toolName, args, r)
    else Ok(AuditLine(stamp, toolName, args, r))
  }

  /** `POST /tool/run`. `now` is `Date.now()`, `stamp` the ISO form of the
      same clock reading, and `logWritable` whether appending to the audit
      log succeeds. When the audit line cannot be formed or appended, the
      handler throws from both its `try` and its `catch`; the rejected
      promise is not answered, so no reply is ever sent. */
  function ToolRun(env: Env, os: Os, body: Option<Value>, confirm: Option<string>,
                   now: nat, stamp: string, logWritable: bool): Served
    requires WellFormed(env.cwd)
  {
    var toolName := Prop(body, "tool_name");
    var args := Prop(body, "args");
    var o := Dispatch(env, os, toolName, args, confirm);
    var line := AuditEntry(env, stamp, toolName, args, o.result);
    if line.Ok? && logWritable then Served(o.effects, [line.value], Some(Reply(o.result, NatToDecimal(now))))
    else Served(o.effects, [], None)
  }

  /** Every `/tool/run` request that is answered leaves one audit line, and
      the line and the reply agree on the outcome: the status the line
      records is "OK" exactly when the reply is a 200. In the corrected
      build every request is answered while the log is writable, and its
      line is one line; as written, a tool name that cannot be printed
      leaves the request unanswered. */
  lemma ToolRunAudited(env: Env, os: Os, body: Option<Value>, confirm: Option<string>,
                       now: nat, stamp: string, logWritable: bool)
    requires WellFormed(env.cwd)
    requires '\n' !in stamp && '\r' !in stamp
    ensures var s := ToolRun(env, os, body, confirm, now, stamp, logWritable);
            var toolName := Prop(body, "tool_name");
            var o := Dispatch(env, os, toolName, Prop(body, "args"), confirm);
            var line := AuditEntry(env, stamp, toolName, Prop(body, "args"), o.result);
            s.effects == o.effects
            && (s.response.Some? <==> logWritable && line.Ok?)
            && (env.build == Corrected ==> line.Ok?)
            && (env.build == AsWritten ==> (line.Ok? <==> !(toolName.Some? && Unprintable(toolName.value))))
            && (s.response.Some? ==>
                  |s.lines| == 1 && s.lines[0] == line.value
                  && (s.response.value.status == 200 <==> o.result.Ok?)
                  && Get(s.response.value.body.fields, "audit_id") == Some(Str(NatToDecimal(now))))
            && (s.response.None? ==> s.lines == [])
            && (env.build == Corrected && s.response.Some? ==>
                  '\n' !in s.lines[0][..|s.lines[0]| - 1] && s.lines[0][|s.lines[0]| - 1] == '\n')
  {
    var toolName := Prop(body, "tool_name");
    var args := Prop(body, "args");
    var o := Dispatch(env, os, toolName, args, confirm);
    var line := AuditEntry(env, stamp, toolName, args, o.result);
    ToolRunShape(env, os, body, confirm, now, stamp, logWritable);
    ServedFromEntry(ToolRun(env, os, body, confirm, now, stamp, logWritable), o.effects, o.result, line, now, logWritable);
    if env.build == Corrected {
      AuditLineIsOneLine(stamp, toolName, args, o.result);
    }
  }

  /** What a request served from an outcome and its entry shows: the reply
      exactly when the entry forms and the log is writable, and then one
      line and a reply that agrees with the outcome. */
  lemma ServedFromEntry(s: Served, effects: seq<Action>, r: Result<Value>, line: Result<string>, now: nat, logWritable: bool)
    requires s == if line.Ok? && logWritable then Served(effects, [line.value], Some(Reply(r, NatToDecimal(now))))
                  else Served(effects, [], None)
    ensures s.effects == effects
    ensures s.response.Some? <==> logWritable && line.Ok?
    ensures s.response.Some? ==>
              |s.lines| == 1 && s.lines[0] == line.value
              && (s.response.value.status == 200 <==> r.Ok?)
              && Get(s.response.value.body.fields, "audit_id") == Some(Str(NatToDecimal(now)))
    ensures s.response.None? ==> s.lines == []
  {
  }

  /** The served request in terms of the dispatcher's outcome and the entry
      formed for it. */
  lemma ToolRunShape(env: Env, os: Os, body: Option<Value>, confirm: Option<string>,
                     now: nat, stamp: string, logWritable: bool)
    requires WellFormed(env.cwd)
    ensures var s := ToolRun(env, os, body, confirm, now, stamp, logWritable);
            var o := Dispatch(env, os, Prop(body, "tool_name"), Prop(body, "args"), confirm);
            var line := AuditEntry(env, stamp, Prop(body, "tool_name"), Prop(body, "args"), o.result);
            s == if line.Ok? && logWritable then Served(o.effects, [line.value], Some(Reply(o.result, NatToDecimal(now))))
                 else Served(o.effects, [], None)
  {
  }

  /** The answered line records the outcome the reply reports: its status
      field is "OK" exactly when the reply is a 200, and it ends with the
      serialised result or the error message, in the form its build writes
      them. */
  lemma ToolRunRecordsOutcome(env: Env, os: Os, body: Option<Value>, confirm: Option<string>,
                              now: nat, stamp: string, logWritable: bool)
    requires WellFormed(env.cwd)
    ensures var s := ToolRun(env, os, body, confirm, now, stamp, logWritable);
            var toolName := Prop(body, "tool_name");
            var args := Prop(body, "args");
            var o := Dispatch(env, os, toolName, args, confirm);
            s.response.Some? ==>
              |s.lines| == 1
              && (Status(o.result) == "OK" <==> s.response.value.status == 200)
              && (env.build == Corrected ==>
                    IsPrefix(stamp + " | " + SafeJsonText(toolName) + " | " + Status(o.result) + " | " + SafeJsonText(args) + " | ", s.lines[0])
                    && IsSuffix(Truncate(Recorded(o.result), AuditResultLimit) + "\n", s.lines[0]))
              && (env.build == AsWritten ==>
                    IsPrefix(stamp + " | " + Template(toolName).value + " | " + Status(o.result) + " | " + SafeJsonText(args) + " | ", s.lines[0])
                    && IsSuffix(Truncate(RecordedAsWritten(o.result), AuditResultLimit) + "\n", s.lines[0]))
  {
    var toolName := Prop(body, "tool_name");
    var args := Prop(body, "args");
    var o := Dispatch(env, os, toolName, args, confirm);
    var line := AuditEntry(env, stamp, toolName, args, o.result);
    assert ToolRun(env, os, body, confirm, now, stamp, logWritable).response.Some? ==> line.Ok? && logWritable;
  }

  /** A tool name that is an object with its own "toString" member is no
      tool, so the request fails with "Unknown tool"; as written, the
      `catch` block then throws while printing the name, and the request
      is left without an audit line and without a reply. The corrected
      build logs it and answers 500. */
  lemma ToolNameCrashes(env: Env, os: Os, now: nat, stamp: string)
    requires WellFormed(env.cwd)
    ensures var body := Some(Obj([Member("tool_name", Obj([Member("toString", Num(0))]))]));
            var s := ToolRun(env, os, body, None, now, stamp, true);
            (env.build == AsWritten ==> s == Served([], [], None))
            && (env.build == Corrected ==> |s.lines| == 1 && s.response.Some? && s.response.value.status == 500)
  {
    var name := Obj([Member("toString", Num(0))]);
    var body := Some(Obj([Member("tool_name", name)]));
    assert Prop(body, "tool_name") == Some(name);
    assert Unprintable(name) by { assert name.fields[0].key == "toString"; }
    NoToolFails(env, os, Some(name), Prop(body, "args"));
  }

  /** A name no case selects fails without issuing anything. */
  lemma NoToolFails(env: Env, os: Os, toolName: Option<Value>, args: Option<Value>)
    requires WellFormed(env.cwd)
    requires toolName.Some? && toolName.value.Obj?
    ensures var o := Dispatch(env, os, toolName, args, None);
            o.effects == [] && o.result.Err?
  {
    assert ToolOf(toolName).None?;
  }

  // ---------------------------------------------------------------------
  // Routing
  // ---------------------------------------------------------------------

  /** A request as the handlers see it: the HTTP method, `req.path` (without the
      query), the `x-agent-token` and `x-confirm` headers, and the parsed
      body. */
  datatype Request = Request(verb: string, path: string, agentToken: Option<string>,
                             confirm: Option<string>, body: Option<Value>)

  /** Express route matching: letters compare without regard to ASCII case,
      and one trailing slash is allowed. */
  predicate RouteMatches(path: string, route: string)
  {
    MatchesFolded(path, route)
    || (|path| == |route| + 1 && path[|route|] == '/' && MatchesFolded(path[..|route|], route))
  }

  function Health(env: Env, os: Os): Value
  {
    Obj([Member("ok", Bool(true)), Member("service", Str("local-agent")),
         Member("platform", Str(os.platform)), Member("allowed_roots", Arr(PathValues(env.roots)))])
  }

  const UnauthorizedReply := Response(401, Obj([Member("ok", Bool(false)), Member("error", Str("Unauthorized"))]))

  function Unanswered(r: Response): Served
  {
    Served([], [], Some(r))
  }

  /** The whole server: the CORS preflight answered first, then
      `requireAuth`, then `GET /health` and `POST /tool/run`; anything else
      is Express's 404. */
  function Serve(env: Env, os: Os, req: Request, now: nat, stamp: string, logWritable: bool): Served
    requires WellFormed(env.cwd)
  {
    if req.verb == "OPTIONS" then Unanswered(Response(204, Null))
    else if RequireAuth(req.path, req.agentToken, env.token) == Unauthorized then
      Unanswered(UnauthorizedReply)
    else if req.verb == "GET" && RouteMatches(req.path, "/health") then Unanswered(Response(200, Health(env, os)))
    else if req.verb == "POST" && RouteMatches(req.path, "/tool/run") then
      ToolRun(env, os, req.body, req.confirm, now, stamp, logWritable)
    else Unanswered(Response(404, Null))
  }

  /** The server fails closed: a request other than a preflight that does
      not carry the configured token (or arrives while none is configured)
      is refused with 401 before any route runs, issuing nothing and
      logging nothing; only `/health` is open. The actions a request causes
      are the dispatcher's, and only an authorised POST causes any. */
  lemma ServeFailsClosed(env: Env, os: Os, req: Request, now: nat, stamp: string, logWritable: bool)
    requires WellFormed(env.cwd)
    ensures var s := Serve(env, os, req, now, stamp, logWritable);
            ((req.verb != "OPTIONS" && req.path != "/health" && (env.token == "" || req.agentToken != Some(env.token)))
               ==> s.effects == [] && s.lines == [] && s.response == Some(UnauthorizedReply))
            && (s.effects != [] ==> req.verb == "POST" && env.token != "" && req.agentToken == Some(env.token)
                                    && s.effects == Dispatch(env, os, Prop(req.body, "tool_name"), Prop(req.body, "args"), req.confirm).effects)
  {
    AuthFailsClosed(req.path, req.agentToken, env.token);
  }
}
