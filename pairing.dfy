/** Device pairing on the main server: `/pair/start` opens a pairing session
    with a short code, and `/pair/confirm` trades a live session and its code
    for a device token, once. The two database tables are the state;
    randomness and the clock are parameters. */
module Pairing {
  import opened Text

  /** A `pairing_sessions` row; `expiresAt` is the expiry instant in
      milliseconds. */
  datatype Session = Session(pairId: string, code: string, expiresAt: int, used: bool)

  /** A `devices` row. */
  datatype Device = Device(id: nat, token: string, name: string, scopes: string, revoked: bool)

  /** `device.scopes.split(',')`, the scopes as both routes hand them
      out. */
  function ScopesOf(d: Device): (r: seq<string>)
    ensures Join(r, ',') == d.scopes
    ensures forall k :: 0 <= k < |r| ==> ',' !in r[k]
  {
    JoinSplit(d.scopes, ',');
    SplitPiecesFree(d.scopes, ',');
    Split(d.scopes, ',')
  }

  /** The two tables and the next `AUTOINCREMENT` id of `devices`. */
  datatype Tables = Tables(sessions: seq<Session>, devices: seq<Device>, nextDeviceId: nat)

  const PairingLifetime := 5 * 60 * 1000
  const DesktopScopes := "desktop_full"
  const MissingFields := "Missing required fields"
  const InvalidCode := "Invalid or expired pairing code"

  /** What the schema's constraints keep true: `pair_id` and `token` are
      `UNIQUE`, and device ids grow and stay below the next id. */
  predicate ValidTables(t: Tables)
  {
    (forall i, j :: 0 <= i < j < |t.sessions| ==> t.sessions[i].pairId != t.sessions[j].pairId)
    && (forall i, j :: 0 <= i < j < |t.devices| ==> t.devices[i].token != t.devices[j].token)
    && (forall i, j :: 0 <= i < j < |t.devices| ==> t.devices[i].id < t.devices[j].id)
    && (forall i :: 0 <= i < |t.devices| ==> t.devices[i].id < t.nextDeviceId)
    && t.nextDeviceId >= 1
  }

  // ---------------------------------------------------------------------
  // POST /pair/start
  // ---------------------------------------------------------------------

  /** `s.substring(a, b)` for `a <= b`: both ends clamped to the length. */
  function Substring(s: string, a: nat, b: nat): (r: string)
    requires a <= b
    ensures |r| <= b - a
    ensures |s| >= b ==> r == s[a..b]
  {
    var hi := if b <= |s| then b else |s|;
    var lo := if a <= hi then a else hi;
    s[lo..hi]
  }

  /** `Math.random().toString(36).substring(2, 8).toUpperCase()`, where
      `randomText` is the base-36 text of the random number. */
  function PairingCode(randomText: string): (code: string)
    ensures |code| <= 6 && IsUpperCase(code)
    ensures |randomText| >= 8 ==> |code| == 6
  {
    UpperIsUpperCase(Substring(randomText, 2, 8));
    Upper(Substring(randomText, 2, 8))
  }

  predicate PairIdTaken(sessions: seq<Session>, pairId: string)
  {
    exists i :: 0 <= i < |sessions| && sessions[i].pairId == pairId
  }

  /** The reply of `/pair/start`; `StartFailed` is the 500 Express sends
      when the insert breaks the uniqueness of `pair_id`. */
  datatype StartReply = Started(pairId: string, code: string, expiresAt: int) | StartFailed

  /** `/pair/start` with `pairId` from `crypto.randomUUID()` and `now` from
      `Date.now()`. */
  function StartStep(t: Tables, pairId: string, randomText: string, now: int): (Tables, StartReply)
  {
    if PairIdTaken(t.sessions, pairId) then (t, StartFailed)
    else
      var code := PairingCode(randomText);
      (t.(sessions := t.sessions + [Session(pairId, code, now + PairingLifetime, false)]),
       Started(pairId, code, now + PairingLifetime))
  }

  /** `/pair/start` inserts exactly one unused session that expires five
      minutes after `now`, under a code of at most six upper-case
      characters, and returns what it stored; nothing else changes. */
  lemma StartInsertsOneSession(t: Tables, pairId: string, randomText: string, now: int)
    ensures var (t', r) := StartStep(t, pairId, randomText, now);
            t'.devices == t.devices && t'.nextDeviceId == t.nextDeviceId
            && (PairIdTaken(t.sessions, pairId) ==> t' == t && r == StartFailed)
            && (!PairIdTaken(t.sessions, pairId) ==>
                  r.Started? && r.pairId == pairId && r.expiresAt == now + 300000
                  && |r.code| <= 6 && IsUpperCase(r.code)
                  && t'.sessions == t.sessions + [Session(pairId, r.code, r.expiresAt, false)])
  {
  }

  // ---------------------------------------------------------------------
  // POST /pair/confirm
  // ---------------------------------------------------------------------

  /** A body field that passes `!field`: present and not empty. */
  predicate Given(v: Option<string>)
  {
    v.Some? && v.value != ""
  }

  /** The `WHERE` clause of the session query. */
  predicate Live(s: Session, pairId: string, code: string, now: int)
  {
    s.pairId == pairId && s.code == code && !s.used && s.expiresAt > now
  }

  /** The row `.get()` returns: the first live session with that id and
      code. */
  function FirstLive(sessions: seq<Session>, pairId: string, code: string, now: int): (r: Option<nat>)
    ensures r.Some? ==> r.value < |sessions| && Live(sessions[r.value], pairId, code, now)
                        && forall j :: 0 <= j < r.value ==> !Live(sessions[j], pairId, code, now)
    ensures r.None? <==> forall j :: 0 <= j < |sessions| ==> !Live(sessions[j], pairId, code, now)
  {
    if |sessions| == 0 then None
    else if Live(sessions[|sessions| - 1], pairId, code, now) && FirstLive(sessions[..|sessions| - 1], pairId, code, now).None?
    then Some(|sessions| - 1)
    else FirstLive(sessions[..|sessions| - 1], pairId, code, now)
  }

  /** `UPDATE pairing_sessions SET used = 1 WHERE pair_id = ?` */
  function MarkUsed(sessions: seq<Session>, pairId: string): (r: seq<Session>)
    ensures |r| == |sessions|
  {
    seq(|sessions|, i requires 0 <= i < |sessions| =>
      if sessions[i].pairId == pairId then sessions[i].(used := true) else sessions[i])
  }

  predicate TokenTaken(devices: seq<Device>, token: string)
  {
    exists i :: 0 <= i < |devices| && devices[i].token == token
  }

  /** The outcome of `/pair/confirm`: a 400 with its message, the device
      row issued, or `ConfirmFailed`, the 500 Express sends when the insert
      breaks the uniqueness of `token`. */
  datatype ConfirmReply = Rejected(error: string) | Paired(device: Device) | ConfirmFailed

  /** The JSON of a successful confirmation. */
  datatype Issued = Issued(deviceToken: string, scopes: seq<string>, deviceName: string)

  function IssuedReply(d: Device): Issued
  {
    Issued(d.token, ScopesOf(d), d.name)
  }

  /** `/pair/confirm` with `deviceToken` from `crypto.randomBytes(32)` and
      `now` the moment of the query. */
  function ConfirmStep(t: Tables, pairId: Option<string>, code: Option<string>, deviceName: Option<string>,
                       now: int, deviceToken: string): (Tables, ConfirmReply)
  {
    if !Given(pairId) || !Given(code) || !Given(deviceName) then (t, Rejected(MissingFields))
    else if FirstLive(t.sessions, pairId.value, code.value, now).None? then (t, Rejected(InvalidCode))
    else if TokenTaken(t.devices, deviceToken) then (t, ConfirmFailed)
    else
      var device := Device(t.nextDeviceId, deviceToken, deviceName.value, DesktopScopes, false);
      (Tables(MarkUsed(t.sessions, pairId.value), t.devices + [device], t.nextDeviceId + 1),
       Paired(device))
  }

  /** A confirmation succeeds exactly when all three fields are given, a
      live session matches both id and code, and the token is new; every
      other request leaves both tables as they were, with the error the
      route answers. */
  lemma ConfirmDecision(t: Tables, pairId: Option<string>, code: Option<string>, deviceName: Option<string>,
                        now: int, deviceToken: string)
    ensures var (t', r) := ConfirmStep(t, pairId, code, deviceName, now, deviceToken);
            (r.Paired? <==> Given(pairId) && Given(code) && Given(deviceName)
                            && (exists i :: 0 <= i < |t.sessions| && Live(t.sessions[i], pairId.value, code.value, now))
                            && !TokenTaken(t.devices, deviceToken))
            && (!r.Paired? ==> t' == t)
            && (r == Rejected(MissingFields) <==> !Given(pairId) || !Given(code) || !Given(deviceName))
            && (r == Rejected(InvalidCode) <==>
                  (Given(pairId) && Given(code) && Given(deviceName)
                   && forall i :: 0 <= i < |t.sessions| ==> !Live(t.sessions[i], pairId.value, code.value, now)))
  {
    if Given(pairId) && Given(code) && Given(deviceName) {
      var f := FirstLive(t.sessions, pairId.value, code.value, now);
      if f.Some? {
        assert Live(t.sessions[f.value], pairId.value, code.value, now);
      }
    }
  }

  /** A successful confirmation adds exactly one device, with the next id,
      the new token, the given name and scopes "desktop_full", marks used
      exactly the sessions with that id, and answers the token, the name and
      the scopes split on commas, `["desktop_full"]`. */
  lemma ConfirmIssuesOneDevice(t: Tables, pairId: Option<string>, code: Option<string>, deviceName: Option<string>,
                               now: int, deviceToken: string)
    ensures var (t', r) := ConfirmStep(t, pairId, code, deviceName, now, deviceToken);
            r.Paired? ==>
              r == Paired(Device(t.nextDeviceId, deviceToken, deviceName.value, "desktop_full", false))
              && IssuedReply(r.device) == Issued(deviceToken, ["desktop_full"], deviceName.value)
              && t'.devices == t.devices + [Device(t.nextDeviceId, deviceToken, deviceName.value, "desktop_full", false)]
              && t'.nextDeviceId == t.nextDeviceId + 1
              && |t'.sessions| == |t.sessions|
              && (forall i :: 0 <= i < |t.sessions| ==>
                    t'.sessions[i] == (if t.sessions[i].pairId == pairId.value then t.sessions[i].(used := true) else t.sessions[i]))
  {
    var (t', r) := ConfirmStep(t, pairId, code, deviceName, now, deviceToken);
    if r.Paired? {
      DesktopScopesSplit(Device(t.nextDeviceId, deviceToken, deviceName.value, DesktopScopes, false));
    }
  }

  /** A device with the scopes "desktop_full" hands out `["desktop_full"]`. */
  lemma DesktopScopesSplit(d: Device)
    requires d.scopes == DesktopScopes
    ensures ScopesOf(d) == ["desktop_full"]
  {
    assert ',' !in DesktopScopes;
    SplitWithoutSeparator(DesktopScopes, ',');
  }

  /** Both steps keep the schema's constraints. */
  lemma StartKeepsTablesValid(t: Tables, pairId: string, randomText: string, now: int)
    requires ValidTables(t)
    ensures ValidTables(StartStep(t, pairId, randomText, now).0)
  {
    var t' := StartStep(t, pairId, randomText, now).0;
    if !PairIdTaken(t.sessions, pairId) {
      var n := |t.sessions|;
      forall i, j | 0 <= i < j < |t'.sessions| ensures t'.sessions[i].pairId != t'.sessions[j].pairId {
        assert t'.sessions[i] == t.sessions[i];
        if j < n {
          assert t'.sessions[j] == t.sessions[j];
        }
      }
    }
  }

  lemma ConfirmKeepsTablesValid(t: Tables, pairId: Option<string>, code: Option<string>, deviceName: Option<string>,
                                now: int, deviceToken: string)
    requires ValidTables(t)
    ensures ValidTables(ConfirmStep(t, pairId, code, deviceName, now, deviceToken).0)
  {
    var (t', r) := ConfirmStep(t, pairId, code, deviceName, now, deviceToken);
    if r.Paired? {
      var n := |t.devices|;
      forall i | 0 <= i < |t.sessions| ensures t'.sessions[i].pairId == t.sessions[i].pairId {
        assert t'.sessions[i] == MarkUsed(t.sessions, pairId.value)[i];
      }
      forall i, j | 0 <= i < j < |t'.devices|
        ensures t'.devices[i].token != t'.devices[j].token && t'.devices[i].id < t'.devices[j].id
      {
        assert t'.devices[i] == t.devices[i];
        if j < n {
          assert t'.devices[j] == t.devices[j];
        } else {
          assert t'.devices[j].token == deviceToken;
        }
      }
      forall i | 0 <= i < |t'.devices| ensures t'.devices[i].id < t'.nextDeviceId {
        if i < n {
          assert t'.devices[i] == t.devices[i];
        }
      }
    }
  }

  /** A session is confirmed at most once: after a successful confirmation
      under `pairId`, no later confirmation under that id succeeds, whatever
      code, name, time and token it brings. */
  lemma ConfirmAtMostOnce(t: Tables, pairId: Option<string>, code: Option<string>, deviceName: Option<string>,
                          now: int, deviceToken: string,
                          code2: Option<string>, deviceName2: Option<string>, now2: int, deviceToken2: string)
    requires ConfirmStep(t, pairId, code, deviceName, now, deviceToken).1.Paired?
    ensures var t' := ConfirmStep(t, pairId, code, deviceName, now, deviceToken).0;
            !ConfirmStep(t', pairId, code2, deviceName2, now2, deviceToken2).1.Paired?
  {
    var t' := ConfirmStep(t, pairId, code, deviceName, now, deviceToken).0;
    if Given(code2) && Given(deviceName2) {
      forall i | 0 <= i < |t'.sessions| ensures !Live(t'.sessions[i], pairId.value, code2.value, now2) {
        assert t'.sessions[i] == MarkUsed(t.sessions, pairId.value)[i];
      }
    }
  }

  /** A session that was just started can be confirmed with its code until
      it expires, provided its code is not empty and the token is new. */
  lemma StartThenConfirm(t: Tables, pairId: string, randomText: string, now: int,
                         deviceName: string, later: int, deviceToken: string)
    requires StartStep(t, pairId, randomText, now).1.Started?
    requires var code := StartStep(t, pairId, randomText, now).1.code; code != ""
    requires deviceName != "" && pairId != "" && later < now + PairingLifetime
    requires !TokenTaken(t.devices, deviceToken)
    ensures var (t', r) := StartStep(t, pairId, randomText, now);
            ConfirmStep(t', Some(pairId), Some(r.code), Some(deviceName), later, deviceToken).1.Paired?
  {
    var (t', r) := StartStep(t, pairId, randomText, now);
    var k := |t'.sessions| - 1;
    assert Live(t'.sessions[k], pairId, r.code, later);
    ConfirmDecision(t', Some(pairId), Some(r.code), Some(deviceName), later, deviceToken);
  }

  // ---------------------------------------------------------------------
  // The tables as the routes update them in place
  // ---------------------------------------------------------------------

  class PairingStore {
    var sessions: seq<Session>
    var devices: seq<Device>
    var nextDeviceId: nat

    function State(): Tables
      reads this
    {
      Tables(sessions, devices, nextDeviceId)
    }

    predicate Valid()
      reads this
    {
      ValidTables(State())
    }

    /** Freshly created tables. */
    constructor()
      ensures State() == Tables([], [], 1) && Valid()
    {
      sessions := [];
      devices := [];
      nextDeviceId := 1;
    }

    /** `/pair/start` */
    method Start(pairId: string, randomText: string, now: int) returns (r: StartReply)
      requires Valid()
      modifies this
      ensures Valid()
      ensures (State(), r) == StartStep(old(State()), pairId, randomText, now)
    {
      StartKeepsTablesValid(State(), pairId, randomText, now);
      var taken := FindPairId(pairId);
      if taken {
        return StartFailed;
      }
      var code := PairingCode(randomText);
      sessions := sessions + [Session(pairId, code, now + PairingLifetime, false)];
      r := Started(pairId, code, now + PairingLifetime);
    }

    /** Whether a session already has `pairId`, by a scan of the table. */
    method FindPairId(pairId: string) returns (b: bool)
      ensures b == PairIdTaken(sessions, pairId)
    {
      var i := 0;
      while i < |sessions|
        invariant 0 <= i <= |sessions|
        invariant forall j :: 0 <= j < i ==> sessions[j].pairId != pairId
      {
        if sessions[i].pairId == pairId {
          return true;
        }
        i := i + 1;
      }
      return false;
    }

    /** The session query: the index of the first live session, by a scan
        of the table. */
    method FindLive(pairId: string, code: string, now: int) returns (r: Option<nat>)
      ensures r == FirstLive(sessions, pairId, code, now)
    {
      var i := 0;
      while i < |sessions|
        invariant 0 <= i <= |sessions|
        invariant forall j :: 0 <= j < i ==> !Live(sessions[j], pairId, code, now)
      {
        if Live(sessions[i], pairId, code, now) {
          FirstLiveIsFirst(sessions, pairId, code, now, i);
          return Some(i);
        }
        i := i + 1;
      }
      return None;
    }

    /** Whether a device already holds `token`, by a scan of the table. */
    method FindToken(token: string) returns (b: bool)
      ensures b == TokenTaken(devices, token)
    {
      var i := 0;
      while i < |devices|
        invariant 0 <= i <= |devices|
        invariant forall j :: 0 <= j < i ==> devices[j].token != token
      {
        if devices[i].token == token {
          return true;
        }
        i := i + 1;
      }
      return false;
    }

    /** `/pair/confirm` */
    method Confirm(pairId: Option<string>, code: Option<string>, deviceName: Option<string>,
                   now: int, deviceToken: string) returns (r: ConfirmReply)
      requires Valid()
      modifies this
      ensures Valid()
      ensures (State(), r) == ConfirmStep(old(State()), pairId, code, deviceName, now, deviceToken)
    {
      ConfirmKeepsTablesValid(State(), pairId, code, deviceName, now, deviceToken);
      ghost var step := ConfirmStep(State(), pairId, code, deviceName, now, deviceToken);
      if !Given(pairId) || !Given(code) || !Given(deviceName) {
        return Rejected(MissingFields);
      }
      var session := FindLive(pairId.value, code.value, now);
      if session.None? {
        return Rejected(InvalidCode);
      }
      var taken := FindToken(deviceToken);
      if taken {
        return ConfirmFailed;
      }
      var device := Device(nextDeviceId, deviceToken, deviceName.value, DesktopScopes, false);
      r := Paired(device);
      assert step == (Tables(MarkUsed(sessions, pairId.value), devices + [device], nextDeviceId + 1), r);
      sessions, devices, nextDeviceId := MarkUsed(sessions, pairId.value), devices + [device], nextDeviceId + 1;
    }
  }

  /** The first live index found by a forward scan is the one `FirstLive`
      names. */
  lemma {:induction false} FirstLiveIsFirst(sessions: seq<Session>, pairId: string, code: string, now: int, i: nat)
    requires i < |sessions| && Live(sessions[i], pairId, code, now)
    requires forall j :: 0 <= j < i ==> !Live(sessions[j], pairId, code, now)
    ensures FirstLive(sessions, pairId, code, now) == Some(i)
  {
    var f := FirstLive(sessions, pairId, code, now);
    assert f.Some?;
  }
}
