/** The main server's PC-control routes: `/api/pc/execute` filters a tool
    call through two allowlists and the confirmation flag before forwarding
    it to the local agent, and `/api/pc/nl` maps a fixed phrase to a tool
    call. A route either answers at once or sends one request to the agent,
    whose reply it relays. */
module PcControl {
  import opened Text
  import opened Json
  import opened Guards
  import opened Config
  import Agent

  const AgentUrl := "http://127.0.0.1:8787/tool/run"

  const SafeTools: seq<string> := [
    "open_app", "open_url", "open_url_id", "open_project",
    "search_files", "reveal_file", "create_file", "create_folder",
    "get_system_info", "list_processes"]

  const DestructiveTools: seq<string> := ["delete_file", "delete_folder", "kill_process"]

  /** `LIST.includes(v)`: `v` is one of the listed strings. */
  predicate Listed(list: seq<string>, v: Option<Value>)
  {
    v.Some? && v.value.Str? && v.value.s in list
  }

  // ---------------------------------------------------------------------
  // Replies and forwarded requests
  // ---------------------------------------------------------------------

  datatype Reply = Reply(status: nat, body: Value)

  datatype Header = Header(name: string, value: string)

  /** The `fetch` to the agent: URL, headers, and the body, `None` when
      `JSON.stringify` of the payload is `undefined`. */
  datatype Forward = Forward(url: string, headers: seq<Header>, body: Option<Value>)

  /** What a route does with a request: answer it at once, forward it to
      the agent, or throw before replying (`error` is the message), which
      Express 4 leaves unanswered. */
  datatype Decision = Answer(reply: Reply) | Send(forward: Forward) | Unanswered(error: string)

  function Refuse(status: nat, error: string): Reply
  {
    Reply(status, Obj([Member("ok", Bool(false)), Member("error", Str(error))]))
  }

  const TokenNotConfigured := "Agent token not configured"
  const ToolNotAllowed := "Tool not allowed"
  const ConfirmationNeeded := "Confirmation required for destructive action"
  const NoMatch := "No PC action matched"

  /** The forwarded headers; `x-confirm: YES` is added when `confirm` is
      truthy. */
  function Headers(token: string, confirm: Option<Value>): (hs: seq<Header>)
    ensures |hs| >= 2 && hs[0] == Header("Content-Type", "application/json") && hs[1] == Header("x-agent-token", token)
  {
    [Header("Content-Type", "application/json"), Header("x-agent-token", token)]
      + (if Truthy(confirm) then [Header("x-confirm", "YES")] else [])
  }

  /** The value a receiver reads for header `name`: the last one sent. */
  function HeaderValue(hs: seq<Header>, name: string): Option<string>
  {
    if |hs| == 0 then None
    else if hs[|hs| - 1].name == name then Some(hs[|hs| - 1].value)
    else HeaderValue(hs[..|hs| - 1], name)
  }

  /** A shorthand property `{ key }` kept by `JSON.stringify` unless it is
      `undefined`. */
  function Present(key: string, v: Option<Value>): seq<Member>
  {
    if v.Some? then [Member(key, v.value)] else []
  }

  /** A header value built from a possibly unset variable: `fetch` turns
      `undefined` into the text "undefined". */
  function TokenHeader(v: Option<string>): string
  {
    if v.Some? then v.value else "undefined"
  }

  /** What the route answers once the agent has replied: its JSON relayed
      with status 200, or 500 with the error's message when the request or
      the parsing of the reply failed. */
  function Relay(agentReply: Result<Value>): (r: Reply)
    ensures agentReply.Ok? ==> r == Reply(200, agentReply.value)
    ensures agentReply.Err? ==> r == Refuse(500, agentReply.msg)
  {
    match agentReply
    case Ok(data) => Reply(200, data)
    case Err(m) => Refuse(500, m)
  }

  // ---------------------------------------------------------------------
  // POST /api/pc/execute
  // ---------------------------------------------------------------------

  /** `agentToken` is `process.env.CHOTU_AGENT_TOKEN`, `body` the parsed
      request body. */
  function Execute(agentToken: Option<string>, body: Option<Value>): Decision
  {
    var toolName := Prop(body, "tool_name");
    var args := Prop(body, "args");
    var confirm := Prop(body, "confirm");
    if agentToken.None? || agentToken.value == "" then Answer(Refuse(500, TokenNotConfigured))
    else if !Listed(SafeTools, toolName) && !Listed(DestructiveTools, toolName) then Answer(Refuse(403, ToolNotAllowed))
    else if Listed(DestructiveTools, toolName) && !Truthy(confirm) then Answer(Refuse(400, ConfirmationNeeded))
    else Send(Forward(AgentUrl, Headers(agentToken.value, confirm),
                      Some(Obj(Present("tool_name", toolName) + Present("args", args)))))
  }

  /** The refusals, in the order the route applies them; none forwards
      anything. `run_command` is in neither list, so it never leaves the
      server. */
  lemma ExecuteRefusals(agentToken: Option<string>, body: Option<Value>)
    ensures var d := Execute(agentToken, body);
            var toolName := Prop(body, "tool_name");
            ((agentToken.None? || agentToken.value == "") ==> d == Answer(Refuse(500, TokenNotConfigured)))
            && ((agentToken.Some? && agentToken.value != "" && !Listed(SafeTools, toolName) && !Listed(DestructiveTools, toolName))
                  ==> d == Answer(Refuse(403, ToolNotAllowed)))
            && ((agentToken.Some? && agentToken.value != "" && Listed(DestructiveTools, toolName) && !Truthy(Prop(body, "confirm")))
                  ==> d == Answer(Refuse(400, ConfirmationNeeded)))
            && (toolName == Some(Str("run_command")) ==> d.Answer?)
            && (d.Send? <==> agentToken.Some? && agentToken.value != ""
                             && (Listed(SafeTools, toolName) || (Listed(DestructiveTools, toolName) && Truthy(Prop(body, "confirm")))))
  {
    RunCommandUnlisted();
  }

  lemma RunCommandUnlisted()
    ensures "run_command" !in SafeTools && "run_command" !in DestructiveTools
  {
    forall i | 0 <= i < |SafeTools| ensures SafeTools[i] != "run_command" {
      assert SafeTools[i][1] != 'u' || |SafeTools[i]| != 11 || SafeTools[i][0] != 'r';
    }
    forall i | 0 <= i < |DestructiveTools| ensures DestructiveTools[i] != "run_command" {
      assert DestructiveTools[i][0] != 'r';
    }
  }

  /** No tool name is both safe and destructive: the destructive names start
      with 'd' or 'k', and no safe name does. */
  lemma ToolListsDisjoint()
    ensures forall i, j :: 0 <= i < |SafeTools| && 0 <= j < |DestructiveTools| ==> SafeTools[i] != DestructiveTools[j]
  {
    assert forall i :: 0 <= i < |SafeTools| ==> SafeTools[i][0] != 'd' && SafeTools[i][0] != 'k';
    assert forall j :: 0 <= j < |DestructiveTools| ==> DestructiveTools[j][0] == 'd' || DestructiveTools[j][0] == 'k';
  }

  lemma SafeNotDestructive(name: string)
    requires name in SafeTools
    ensures name !in DestructiveTools
  {
    ToolListsDisjoint();
    var i :| 0 <= i < |SafeTools| && SafeTools[i] == name;
    assert forall j :: 0 <= j < |DestructiveTools| ==> SafeTools[i] != DestructiveTools[j];
  }

  /** What reaches the agent: the configured token, `x-confirm: YES` exactly
      when `confirm` is truthy, and a body holding `tool_name` and `args` as
      received and nothing else; a destructive tool is only forwarded with
      the confirmation header. */
  lemma ExecuteForward(agentToken: Option<string>, body: Option<Value>)
    ensures var d := Execute(agentToken, body);
            d.Send? ==>
              var f := d.forward;
              f.url == AgentUrl
              && agentToken.Some? && HeaderValue(f.headers, "x-agent-token") == Some(agentToken.value)
              && (HeaderValue(f.headers, "x-confirm") == Some("YES") <==> Truthy(Prop(body, "confirm")))
              && (HeaderValue(f.headers, "x-confirm").None? <==> !Truthy(Prop(body, "confirm")))
              && f.body.Some? && f.body.value.Obj?
              && Prop(f.body, "tool_name") == Prop(body, "tool_name")
              && Prop(f.body, "args") == Prop(body, "args")
              && (forall k :: 0 <= k < |f.body.value.fields| ==> f.body.value.fields[k].key in {"tool_name", "args"})
              && (Listed(DestructiveTools, Prop(body, "tool_name")) ==> HeaderValue(f.headers, "x-confirm") == Some("YES"))
  {
    var d := Execute(agentToken, body);
    if d.Send? {
      var confirm := Prop(body, "confirm");
      HeadersRead(agentToken.value, confirm);
      ForwardedBodyRead(Prop(body, "tool_name"), Prop(body, "args"));
    }
  }

  /** The forwarded body holds `tool_name` and `args` as given, and no other
      key. */
  lemma ForwardedBodyRead(toolName: Option<Value>, args: Option<Value>)
    requires toolName.Some?
    ensures var b := Some(Obj(Present("tool_name", toolName) + Present("args", args)));
            Prop(b, "tool_name") == toolName && Prop(b, "args") == args
            && forall k :: 0 <= k < |b.value.fields| ==> b.value.fields[k].key in {"tool_name", "args"}
  {
    var fields := Present("tool_name", toolName) + Present("args", args);
    var m := Member("tool_name", toolName.value);
    assert "tool_name" != "args" by { assert |"tool_name"| != |"args"|; }
    if args.Some? {
      assert fields == [m, Member("args", args.value)];
      assert fields[..1] == [m];
      assert [m][..0] == [];
      assert Get(fields, "tool_name") == Get([m], "tool_name") == Some(toolName.value);
    } else {
      assert fields == [m];
      assert [m][..0] == [];
      assert Get(fields, "args") == Get([], "args") == None;
    }
  }

  /** Reading the forwarded headers back. */
  lemma HeadersRead(token: string, confirm: Option<Value>)
    ensures var hs := Headers(token, confirm);
            HeaderValue(hs, "x-agent-token") == Some(token)
            && HeaderValue(hs, "Content-Type") == Some("application/json")
            && HeaderValue(hs, "x-confirm") == (if Truthy(confirm) then Some("YES") else None)
  {
    var hs := Headers(token, confirm);
    var base := [Header("Content-Type", "application/json"), Header("x-agent-token", token)];
    BaseHeadersRead(token);
    if Truthy(confirm) {
      assert hs[..2] == base;
      assert hs[2].name == "x-confirm";
    } else {
      assert hs == base;
    }
  }

  lemma BaseHeadersRead(token: string)
    ensures var base := [Header("Content-Type", "application/json"), Header("x-agent-token", token)];
            HeaderValue(base, "x-agent-token") == Some(token)
            && HeaderValue(base, "Content-Type") == Some("application/json")
            && HeaderValue(base, "x-confirm") == None
  {
    var base := [Header("Content-Type", "application/json"), Header("x-agent-token", token)];
    assert base[..1] == [Header("Content-Type", "application/json")];
    assert base[..1][..0] == [];
    assert HeaderValue([], "x-confirm") == None;
    assert "Content-Type" != "x-agent-token" && "x-confirm" != "x-agent-token" && "x-confirm" != "Content-Type" by {
      assert "Content-Type"[0] == 'C' && "x-confirm"[2] == 'c' && "x-agent-token"[2] == 'a';
    }
  }

  // ---------------------------------------------------------------------
  // The two allowlists against the agent's tools
  // ---------------------------------------------------------------------

  /** The destructive list names exactly the agent's tools that demand
      `x-confirm`, and the safe list every other tool but `run_command`. */
  lemma ListsClassifyAgentTools(t: Agent.Tool)
    ensures Agent.ToolName(t) in DestructiveTools <==> Agent.NeedsConfirm(t)
    ensures Agent.ToolName(t) in SafeTools <==> !Agent.NeedsConfirm(t) && t != Agent.RunCommand
  {
    ToolListsDisjoint();
    RunCommandUnlisted();
    match t
    case OpenUrl => assert SafeTools[1] == Agent.ToolName(t);
    case OpenUrlId => assert SafeTools[2] == Agent.ToolName(t);
    case OpenApp => assert SafeTools[0] == Agent.ToolName(t);
    case OpenProject => assert SafeTools[3] == Agent.ToolName(t);
    case RevealFile => assert SafeTools[5] == Agent.ToolName(t);
    case CreateFile => assert SafeTools[6] == Agent.ToolName(t);
    case CreateFolder => assert SafeTools[7] == Agent.ToolName(t);
    case DeleteFile => assert DestructiveTools[0] == Agent.ToolName(t);
    case DeleteFolder => assert DestructiveTools[1] == Agent.ToolName(t);
    case SearchFilesTool => assert SafeTools[4] == Agent.ToolName(t);
    case GetSystemInfo => assert SafeTools[8] == Agent.ToolName(t);
    case ListProcesses => assert SafeTools[9] == Agent.ToolName(t);
    case KillProcess => assert DestructiveTools[2] == Agent.ToolName(t);
    case RunCommand =>
  }

  /** Every forwarded tool call that the agent will treat as destructive
      carries a confirmation the agent accepts, and the forwarded token is
      accepted by an agent configured with the same token. */
  lemma ForwardPassesAgentGuards(agentToken: Option<string>, body: Option<Value>)
    ensures var d := Execute(agentToken, body);
            d.Send? ==>
              var f := d.forward;
              var t := Agent.ToolOf(Prop(body, "tool_name"));
              RequireAuth("/tool/run", HeaderValue(f.headers, "x-agent-token"), agentToken.value) == Pass
              && t.Some? && t.value != Agent.RunCommand
              && (Agent.NeedsConfirm(t.value) ==> RequireConfirm(HeaderValue(f.headers, "x-confirm")))
  {
    var d := Execute(agentToken, body);
    if d.Send? {
      var v, confirm := Prop(body, "tool_name"), Prop(body, "confirm");
      assert d.forward.headers == Headers(agentToken.value, confirm);
      assert v == Some(Str(v.value.s));
      GuardsPassFor(v.value.s, agentToken.value, confirm);
    }
  }

  /** The agent's checks on a forwarded call of a listed name. */
  lemma GuardsPassFor(name: string, token: string, confirm: Option<Value>)
    requires token != ""
    requires name in SafeTools || (name in DestructiveTools && Truthy(confirm))
    ensures var hs := Headers(token, confirm);
            var t := Agent.ToolOf(Some(Str(name)));
            RequireAuth("/tool/run", HeaderValue(hs, "x-agent-token"), token) == Pass
            && t.Some? && t.value != Agent.RunCommand
            && (Agent.NeedsConfirm(t.value) ==> RequireConfirm(HeaderValue(hs, "x-confirm")))
  {
    var hs := Headers(token, confirm);
    HeadersRead(token, confirm);
    assert HeaderValue(hs, "x-agent-token") == Some(token);
    assert RequireAuth("/tool/run", Some(token), token) == Pass by {
      assert "/tool/run"[1] != "/health"[1];
    }
    ListedNameClass(name);
    var t := Agent.ToolOf(Some(Str(name))).value;
    if Agent.NeedsConfirm(t) {
      assert name in DestructiveTools;
      if name in SafeTools { SafeNotDestructive(name); }
      assert Truthy(confirm);
      assert HeaderValue(hs, "x-confirm") == Some("YES");
      YesConfirms();
    }
  }

  lemma YesConfirms()
    ensures RequireConfirm(Some("YES"))
  {
    RequireConfirmIff(Some("YES"));
  }

  /** A listed name selects an agent tool other than `run_command`, one
      that needs confirmation exactly when the name is in the destructive
      list. */
  lemma ListedNameClass(name: string)
    requires name in SafeTools || name in DestructiveTools
    ensures var t := Agent.ToolOf(Some(Str(name)));
            t.Some? && t.value != Agent.RunCommand && (Agent.NeedsConfirm(t.value) <==> name in DestructiveTools)
  {
    NamesAreAgentTools(name);
    var t := Agent.ToolOf(Some(Str(name))).value;
    assert Agent.ToolName(t) == name;
    ListsClassifyAgentTools(t);
  }

  /** Each listed name selects one of the agent's cases. */
  lemma NamesAreAgentTools(name: string)
    requires name in SafeTools || name in DestructiveTools
    ensures Agent.ToolOf(Some(Str(name))).Some?
  {
    var t := if name == "open_app" then Agent.OpenApp
             else if name == "open_url" then Agent.OpenUrl
             else if name == "open_url_id" then Agent.OpenUrlId
             else if name == "open_project" then Agent.OpenProject
             else if name == "search_files" then Agent.SearchFilesTool
             else if name == "reveal_file" then Agent.RevealFile
             else if name == "create_file" then Agent.CreateFile
             else if name == "create_folder" then Agent.CreateFolder
             else if name == "get_system_info" then Agent.GetSystemInfo
             else if name == "list_processes" then Agent.ListProcesses
             else if name == "delete_file" then Agent.DeleteFile
             else if name == "delete_folder" then Agent.DeleteFolder
             else Agent.KillProcess;
    assert Agent.ToolName(t) == name;
    Agent.ToolNameSelects(t, Some(Str(name)));
  }

  // ---------------------------------------------------------------------
  // POST /api/pc/nl
  // ---------------------------------------------------------------------

  /** One `NL_MAP` entry: a tool and its single argument. */
  datatype NlAction = NlAction(tool: string, argKey: string, argValue: string)

  const NlMap: map<string, NlAction> := map[
    "open notepad" := NlAction("open_app", "app_id", "notepad"),
    "open chrome" := NlAction("open_app", "app_id", "chrome"),
    "open vscode" := NlAction("open_app", "app_id", "vscode"),
    "open gmail" := NlAction("open_url_id", "id", "gmail"),
    "open calendar" := NlAction("open_url_id", "id", "calendar"),
    "open linkedin" := NlAction("open_url_id", "id", "linkedin"),
    "open git" := NlAction("open_url_id", "id", "github"),
    "open github" := NlAction("open_url_id", "id", "github"),
    "open chotu project" := NlAction("open_project", "project_id", "chotu"),
    "open careerflow project" := NlAction("open_project", "project_id", "careerflow")
  ]

  /** The entry as JSON: `{ tool_name, args: { <argKey>: <argValue> } }`. */
  function NlBody(a: NlAction): Value
  {
    Obj([Member("tool_name", Str(a.tool)), Member("args", Obj([Member(a.argKey, Str(a.argValue))]))])
  }

  /** `String(text || '').toLowerCase().trim()`, which throws for an
      object with its own "toString" member. */
  function Normalize(text: Option<Value>): (r: Result<string>)
    ensures r.Err? <==> text.Some? && Unprintable(text.value)
    ensures r.Err? ==> r.msg == CannotConvert
    ensures !Truthy(text) ==> r == Ok("")
  {
    match StrOrEmpty(text)
    case Err(m) => Err(m)
    case Ok(t) => Ok(Trim(Lower(t)))
  }

  /** The route over a phrase table (`NL_MAP` in the server), looking the
      phrase up among the table's own entries. Unlike `/api/pc/execute` it
      forwards even when no token is configured. */
  function Nl(table: map<string, NlAction>, agentToken: Option<string>, body: Option<Value>): Decision
  {
    match Normalize(Prop(body, "text"))
    case Err(m) => Unanswered(m)
    case Ok(key) => NlReply(table, key, Headers(TokenHeader(agentToken), Prop(body, "confirm")))
  }

  /** The decision for the normalised phrase `key`, with the headers `hs`
      already built. */
  function NlReply(table: map<string, NlAction>, key: string, hs: seq<Header>): Decision
  {
    match Lookup(table, key)
    case None => Answer(Refuse(200, NoMatch))
    case Some(a) => Send(Forward(AgentUrl, hs, Some(NlBody(a))))
  }

  /** The route as the source writes it: `NL_MAP[normalized]` on an object
      literal also finds "constructor" (a function, which `JSON.stringify`
      turns into no body at all) and "__proto__" (an empty object). */
  function NlAsWritten(table: map<string, NlAction>, agentToken: Option<string>, body: Option<Value>): Decision
  {
    match Normalize(Prop(body, "text"))
    case Err(m) => Unanswered(m)
    case Ok(key) => NlReplyAsWritten(table, key, Headers(TokenHeader(agentToken), Prop(body, "confirm")))
  }

  function NlReplyAsWritten(table: map<string, NlAction>, key: string, hs: seq<Header>): Decision
  {
    match LookupAsWritten(table, key)
    case Missing => Answer(Refuse(200, NoMatch))
    case Own(a) => Send(Forward(AgentUrl, hs, Some(NlBody(a))))
    case Inherited(name) => Send(Forward(AgentUrl, hs, if name == "constructor" then None else Some(Obj([]))))
  }

  /** The phrase "constructor" matches nothing, yet the route as written
      forwards a request without a body to the agent. */
  lemma NlConstructorForwarded()
    ensures var body := Some(Obj([Member("text", Str("constructor"))]));
            NlAsWritten(NlMap, None, body).Send? && NlAsWritten(NlMap, None, body).forward.body.None?
            && Nl(NlMap, None, body) == Answer(Refuse(200, NoMatch))
  {
    var body := Some(Obj([Member("text", Str("constructor"))]));
    assert Prop(body, "text") == Some(Str("constructor"));
    LowerTrimPlain("constructor");
    assert Normalize(Prop(body, "text")) == Ok("constructor");
    NlInheritedNamesUnmapped();
    ConstructorForwarded(NlMap, None, body);
  }

  /** Over any table without the entry, the phrase "constructor" is
      forwarded without a body by the route as written, and answered by the
      corrected one. */
  lemma ConstructorForwarded(table: map<string, NlAction>, agentToken: Option<string>, body: Option<Value>)
    requires Normalize(Prop(body, "text")) == Ok("constructor") && "constructor" !in table
    ensures NlAsWritten(table, agentToken, body).Send? && NlAsWritten(table, agentToken, body).forward.body.None?
    ensures Nl(table, agentToken, body) == Answer(Refuse(200, NoMatch))
  {
    assert LookupAsWritten(table, "constructor") == Inherited("constructor");
    assert Lookup(table, "constructor") == None;
  }

  /** The routes part ways only on the two inherited names. */
  lemma NlAgreesOnOwnNames(table: map<string, NlAction>, agentToken: Option<string>, body: Option<Value>)
    requires Normalize(Prop(body, "text")).Ok? ==> !IsInheritedName(Normalize(Prop(body, "text")).value)
    ensures NlAsWritten(table, agentToken, body) == Nl(table, agentToken, body)
  {
    var key := Normalize(Prop(body, "text"));
    if key.Ok? {
      NlRepliesAgree(table, key.value, Headers(TokenHeader(agentToken), Prop(body, "confirm")));
    }
  }

  lemma NlRepliesAgree(table: map<string, NlAction>, key: string, hs: seq<Header>)
    requires !IsInheritedName(key)
    ensures NlReplyAsWritten(table, key, hs) == NlReply(table, key, hs)
  {
    LookupsAgreeOnRegisteredNames(table, key);
  }

  /** A text that cannot be converted leaves the request unanswered; a
      phrase that is not in the table forwards nothing; one that is
      forwards its entry, with `x-confirm` as for `/api/pc/execute` and the
      token as configured, or "undefined". */
  lemma NlDecision(table: map<string, NlAction>, agentToken: Option<string>, body: Option<Value>)
    ensures var d := Nl(table, agentToken, body);
            var key := Normalize(Prop(body, "text"));
            (key.Err? ==> d == Unanswered(CannotConvert))
            && (key.Ok? && key.value !in table ==> d == Answer(Refuse(200, NoMatch)))
            && (key.Ok? && key.value in table ==>
                  d.Send? && d.forward.url == AgentUrl && d.forward.body == Some(NlBody(table[key.value]))
                  && HeaderValue(d.forward.headers, "x-agent-token") == Some(TokenHeader(agentToken))
                  && (HeaderValue(d.forward.headers, "x-confirm") == Some("YES") <==> Truthy(Prop(body, "confirm"))))
  {
    var key := Normalize(Prop(body, "text"));
    if key.Ok? {
      HeadersRead(TokenHeader(agentToken), Prop(body, "confirm"));
      NlReplyDecision(table, key.value, Headers(TokenHeader(agentToken), Prop(body, "confirm")));
    }
  }

  /** A text with its own "toString" member throws before the route
      replies, in both builds of the route. */
  lemma NlTextUnprintable()
    ensures var body := Some(Obj([Member("text", Obj([Member("toString", Null)]))]));
            Nl(NlMap, None, body) == Unanswered(CannotConvert)
            && NlAsWritten(NlMap, None, body) == Unanswered(CannotConvert)
  {
    var text := Obj([Member("toString", Null)]);
    var body := Some(Obj([Member("text", text)]));
    assert Prop(body, "text") == Some(text);
    assert Unprintable(text) by { assert text.fields[0].key == "toString"; }
  }

  lemma NlReplyDecision(table: map<string, NlAction>, key: string, hs: seq<Header>)
    ensures key !in table ==> NlReply(table, key, hs) == Answer(Refuse(200, NoMatch))
    ensures key in table ==> NlReply(table, key, hs) == Send(Forward(AgentUrl, hs, Some(NlBody(table[key]))))
  {
  }

  /** A phrase of lower-case letters and underscores is its own normal
      form. */
  lemma LowerTrimPlain(s: string)
    requires forall i :: 0 <= i < |s| ==> 'a' <= s[i] <= 'z' || s[i] == '_'
    ensures Trim(Lower(s)) == s
  {
    assert Lower(s) == s by {
      forall i | 0 <= i < |s| ensures Lower(s)[i] == s[i] {
        assert LowerChar(s[i]) == s[i];
      }
    }
    if |s| > 0 {
      assert !IsJsSpace(s[0]) && !IsJsSpace(s[|s| - 1]);
    }
    assert TrimStart(s) == s;
    assert TrimEnd(s) == s;
  }

  /** Every entry of `NL_MAP` names a safe tool and something the agent has
      registered for it: an app, a URL id or a project. */
  lemma NlEntry(k: string)
    requires k in NlMap
    ensures |k| >= 5 && k[..5] == "open "
    ensures NlMap[k].tool in SafeTools && NlMap[k].tool !in DestructiveTools
    ensures (NlMap[k].tool == "open_app" && NlMap[k].argKey == "app_id" && NlMap[k].argValue in Apps)
            || (NlMap[k].tool == "open_url_id" && NlMap[k].argKey == "id" && NlMap[k].argValue in Urls)
            || (NlMap[k].tool == "open_project" && NlMap[k].argKey == "project_id" && NlMap[k].argValue in Projects)
  {
    ToolListsDisjoint();
    var a := NlMap[k];
    if k == "open notepad" || k == "open chrome" || k == "open vscode" {
      assert a.tool == SafeTools[0];
    } else if k == "open gmail" || k == "open calendar" || k == "open linkedin" || k == "open git" || k == "open github" {
      assert a.tool == SafeTools[2];
    } else {
      assert k == "open chotu project" || k == "open careerflow project";
      assert a.tool == SafeTools[3];
    }
  }

  /** The table registers neither inherited name. */
  lemma NlInheritedNamesUnmapped()
    ensures "constructor" !in NlMap && "__proto__" !in NlMap
  {
    if "constructor" in NlMap {
      NlEntry("constructor");
      assert false;
    }
    if "__proto__" in NlMap {
      NlEntry("__proto__");
      assert false;
    }
  }

  /** A phrase table whose every entry names a safe tool. */
  predicate SafeTable(table: map<string, NlAction>)
  {
    forall k :: k in table ==> table[k].tool in SafeTools
  }

  lemma NlMapSafe()
    ensures SafeTable(NlMap)
  {
    forall k | k in NlMap ensures NlMap[k].tool in SafeTools {
      NlEntry(k);
    }
  }

  /** The phrase route over a safe table (as `NL_MAP` is, by `NlMapSafe`)
      never forwards a destructive tool, so it never needs a confirmation,
      and never `run_command`. */
  lemma NlForwardsSafeTools(table: map<string, NlAction>, agentToken: Option<string>, body: Option<Value>)
    requires SafeTable(table)
    ensures var d := Nl(table, agentToken, body);
            d.Send? ==>
              var t := Agent.ToolOf(Prop(d.forward.body, "tool_name"));
              t.Some? && !Agent.NeedsConfirm(t.value) && t.value != Agent.RunCommand
  {
    var d := Nl(table, agentToken, body);
    if d.Send? {
      NlDecision(table, agentToken, body);
      NlBodySafe(table[Normalize(Prop(body, "text")).value]);
    }
  }

  /** The `tool_name` of an entry naming a safe tool selects an agent tool
      that needs no confirmation. */
  lemma NlBodySafe(a: NlAction)
    requires a.tool in SafeTools
    ensures var t := Agent.ToolOf(Prop(Some(NlBody(a)), "tool_name"));
            t.Some? && !Agent.NeedsConfirm(t.value) && t.value != Agent.RunCommand
  {
    var fields := [Member("tool_name", Str(a.tool)), Member("args", Obj([Member(a.argKey, Str(a.argValue))]))];
    assert fields[..1] == [Member("tool_name", Str(a.tool))];
    assert |"args"| != |"tool_name"|;
    assert Get(fields, "tool_name") == Get(fields[..1], "tool_name");
    assert Prop(Some(NlBody(a)), "tool_name") == Some(Str(a.tool));
    SafeNotDestructive(a.tool);
    ListedNameClass(a.tool);
  }
}
