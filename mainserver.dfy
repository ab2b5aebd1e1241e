/** The order in which the main server hands a request to its handlers:
    the CORS preflight, the routes registered before `authMiddleware`, the
    middleware itself, and the routes behind it. Only the routes of this
    model are named; the rest are `Guarded`. */
module MainServer {
  import opened Text
  import opened Pairing
  import opened DeviceAuth
  import opened Guards
  import opened AgentHttp

  datatype Handler = PairStart | PairConfirm | ApiHealth | PcExecute | PcNl | IndexPage | Guarded

  /** The first route registered ahead of `authMiddleware` that the request
      matches: the pairing routes and the health check, the two PC-control
      routes, then the pairing page. */
  function EarlyRoute(verb: string, path: string): Option<Handler>
  {
    if verb == "POST" && RouteMatches(path, "/pair/start") then Some(PairStart)
    else if verb == "POST" && RouteMatches(path, "/pair/confirm") then Some(PairConfirm)
    else if verb == "GET" && RouteMatches(path, "/api/health") then Some(ApiHealth)
    else if verb == "POST" && RouteMatches(path, "/api/pc/execute") then Some(PcExecute)
    else if verb == "POST" && RouteMatches(path, "/api/pc/nl") then Some(PcNl)
    else if verb == "GET" && path == "/" then Some(IndexPage)
    else None
  }

  predicate IsPcRoute(h: Handler)
  {
    h == PcExecute || h == PcNl
  }

  /** Where a request ends up: answered by `cors()` as a preflight, handled
      (with the device the middleware attached, if it ran), or refused with
      401 by the middleware. */
  datatype Outcome = Preflight | Handled(handler: Handler, device: Option<DeviceInfo>) | Denied(error: string)

  /** The server as registered: `setupPcControlRoutes` runs before
      `app.use(authMiddleware)`, so the PC-control routes answer without the
      middleware ever seeing the request. */
  function ServeAsWritten(verb: string, path: string, authRequired: Option<string>, header: Option<string>,
                          devices: seq<Device>): Outcome
  {
    if verb == "OPTIONS" then Preflight
    else match EarlyRoute(verb, path)
      case Some(h) => Handled(h, None)
      case None =>
        match Authenticate(path, authRequired, header, devices)
        case Proceed(d) => Handled(Guarded, d)
        case Refused(e) => Denied(e)
  }

  /** As registered, a caller without any credentials reaches the route
      that forwards tool calls to the local agent, although the middleware
      would have refused the request. */
  lemma PcRoutesUnguardedAsWritten(devices: seq<Device>)
    ensures ServeAsWritten("POST", "/api/pc/execute", None, None, devices) == Handled(PcExecute, None)
    ensures Authenticate("/api/pc/execute", None, None, devices) == Refused(BadHeader)
  {
    LowerCaseRouteMatches("/api/pc/execute");
    assert !IsPrefix("/pair/", "/api/pc/execute") by {
      assert "/api/pc/execute"[1] != "/pair/"[1];
    }
  }

  lemma LowerCaseRouteMatches(route: string)
    requires forall i :: 0 <= i < |route| ==> !('A' <= route[i] <= 'Z')
    ensures RouteMatches(route, route)
  {
  }

  /** The server with the PC-control routes registered after
      `app.use(authMiddleware)`, as its comment ("Skip auth for pairing
      endpoints and health check") says only those are meant to be open. */
  function Serve(verb: string, path: string, authRequired: Option<string>, header: Option<string>,
                 devices: seq<Device>): Outcome
  {
    var early := EarlyRoute(verb, path);
    if verb == "OPTIONS" then Preflight
    else if early.Some? && !IsPcRoute(early.value) then Handled(early.value, None)
    else
      match Authenticate(path, authRequired, header, devices)
      case Proceed(d) => Handled(if early.Some? then early.value else Guarded, d)
      case Refused(e) => Denied(e)
  }

  /** With that order a PC-control route runs only for a request the
      middleware lets through: one bearing the token of a device that is not
      revoked, or any request while `AUTH_REQUIRED` is "false". Every other
      request is served as before. */
  lemma PcRoutesGuarded(verb: string, path: string, authRequired: Option<string>, header: Option<string>,
                        devices: seq<Device>)
    ensures var o := Serve(verb, path, authRequired, header, devices);
            (o.Handled? && IsPcRoute(o.handler)) ==>
              (authRequired == Some("false")
               || (header.Some? && IsPrefix("Bearer ", header.value)
                   && exists i :: 0 <= i < |devices| && devices[i].token == header.value[7..] && !devices[i].revoked))
    ensures var early := EarlyRoute(verb, path);
            (!(early.Some? && IsPcRoute(early.value)))
              ==> Serve(verb, path, authRequired, header, devices) == ServeAsWritten(verb, path, authRequired, header, devices)
  {
    var o := Serve(verb, path, authRequired, header, devices);
    if o.Handled? && IsPcRoute(o.handler) && authRequired != Some("false") {
      var early := EarlyRoute(verb, path);
      assert early.Some? && IsPcRoute(early.value);
      assert !Bypassed(path) by {
        PcPathsNotBypassed(verb, path);
      }
      AuthDecision(path, authRequired, header, devices);
    }
  }

  /** Neither PC-control path is one the middleware lets through unchecked. */
  lemma PcPathsNotBypassed(verb: string, path: string)
    requires EarlyRoute(verb, path).Some? && IsPcRoute(EarlyRoute(verb, path).value)
    ensures !Bypassed(path)
  {
    var route := if RouteMatches(path, "/api/pc/execute") then "/api/pc/execute" else "/api/pc/nl";
    LetterAt(path, route, 1);
    LetterAt(path, route, 5);
    assert path[1] != "/pair/"[1];
    assert path[5] != "/api/health"[5];
  }

  /** A path that matches a route agrees with it letter for letter, up to
      ASCII case. */
  lemma LetterAt(path: string, route: string, k: nat)
    requires RouteMatches(path, route) && k < |route|
    ensures k < |path| && FoldAscii(path[k]) == route[k]
  {
    if !MatchesFolded(path, route) {
      assert path[..|route|][k] == path[k];
    }
  }
}
