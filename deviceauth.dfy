/** The main server's `authMiddleware`: which requests go on to their
    route, and the device a bearer token identifies. */
module DeviceAuth {
  import opened Text
  import opened Pairing

  /** `req.device`: what a route learns about the caller. */
  datatype DeviceInfo = DeviceInfo(id: nat, name: string, scopes: seq<string>)

  /** `next()`, with the device attached when a token was checked, or a 401
      with its message. */
  datatype Verdict = Proceed(device: Option<DeviceInfo>) | Refused(error: string)

  const BadHeader := "Missing or invalid authorization header"
  const BadToken := "Invalid or revoked token"

  /** The device row the token query returns: the first one holding the
      token that is not revoked. */
  function ActiveDevice(devices: seq<Device>, token: string): (r: Option<Device>)
    ensures r.Some? ==> exists i :: 0 <= i < |devices| && devices[i] == r.value
    ensures r.Some? ==> r.value.token == token && !r.value.revoked
    ensures r.None? <==> forall i :: 0 <= i < |devices| ==> devices[i].token != token || devices[i].revoked
  {
    if |devices| == 0 then None
    else if devices[0].token == token && !devices[0].revoked then Some(devices[0])
    else
      var r := ActiveDevice(devices[1..], token);
      assert forall i :: 1 <= i < |devices| ==> devices[i] == devices[1..][i - 1];
      r
  }

  predicate Bypassed(path: string)
  {
    IsPrefix("/pair/", path) || path == "/api/health"
  }

  /** `authMiddleware` for a request to `path` with the `Authorization`
      header `header`, where `authRequired` is `process.env.AUTH_REQUIRED`
      and `devices` the `devices` table. */
  function Authenticate(path: string, authRequired: Option<string>, header: Option<string>,
                        devices: seq<Device>): Verdict
  {
    if Bypassed(path) then Proceed(None)
    else if authRequired == Some("false") then Proceed(None)
    else if header.None? || header.value == "" || !IsPrefix("Bearer ", header.value) then Refused(BadHeader)
    else match ActiveDevice(devices, header.value[7..])
      case None => Refused(BadToken)
      case Some(d) => Proceed(Some(DeviceInfo(d.id, d.name, ScopesOf(d))))
  }

  /** The pairing routes and the health check pass whatever the headers
      and the tables, and so does everything while `AUTH_REQUIRED` is
      "false"; neither attaches a device. */
  lemma AuthBypasses(path: string, authRequired: Option<string>, header: Option<string>, devices: seq<Device>)
    ensures (IsPrefix("/pair/", path) || path == "/api/health") ==> Authenticate(path, authRequired, header, devices) == Proceed(None)
    ensures authRequired == Some("false") ==> Authenticate(path, authRequired, header, devices) == Proceed(None)
    ensures Authenticate(path, authRequired, header, devices) == Proceed(None) ==> Bypassed(path) || authRequired == Some("false")
  {
  }

  /** Everywhere else a request proceeds exactly when it carries
      "Bearer " and then a token some non-revoked device holds; a missing or
      malformed header and an unknown or revoked token are told apart. */
  lemma AuthDecision(path: string, authRequired: Option<string>, header: Option<string>, devices: seq<Device>)
    requires !Bypassed(path) && authRequired != Some("false")
    ensures var v := Authenticate(path, authRequired, header, devices);
            (v.Proceed? <==> header.Some? && IsPrefix("Bearer ", header.value)
                             && exists i :: 0 <= i < |devices| && devices[i].token == header.value[7..] && !devices[i].revoked)
            && (v == Refused(BadHeader) <==> header.None? || !IsPrefix("Bearer ", header.value))
            && (v.Refused? ==> v.error == BadHeader || v.error == BadToken)
  {
    if header.Some? && IsPrefix("Bearer ", header.value) {
      assert header.value != "";
      var r := ActiveDevice(devices, header.value[7..]);
      if r.Some? {
        var i :| 0 <= i < |devices| && devices[i] == r.value;
        assert devices[i].token == header.value[7..] && !devices[i].revoked;
      }
    }
  }

  /** The device a request proceeds with is a non-revoked row holding the
      token, and its scopes are the row's scopes split on commas, pieces
      that contain no comma and join back to the stored text. */
  lemma AttachedDevice(path: string, authRequired: Option<string>, header: Option<string>, devices: seq<Device>)
    ensures var v := Authenticate(path, authRequired, header, devices);
            v.Proceed? && v.device.Some? ==>
              header.Some? && |header.value| >= 7
              && exists i :: 0 <= i < |devices| && devices[i].token == header.value[7..] && !devices[i].revoked
                             && v.device.value.id == devices[i].id && v.device.value.name == devices[i].name
                             && Join(v.device.value.scopes, ',') == devices[i].scopes
                             && forall k :: 0 <= k < |v.device.value.scopes| ==> ',' !in v.device.value.scopes[k]
  {
    var v := Authenticate(path, authRequired, header, devices);
    if v.Proceed? && v.device.Some? {
      var d := ActiveDevice(devices, header.value[7..]).value;
      var i :| 0 <= i < |devices| && devices[i] == d;
      assert v.device.value == DeviceInfo(d.id, d.name, ScopesOf(d));
    }
  }

  /** A token that `/pair/confirm` has just issued is accepted on every
      guarded path, and the request carries the new device's id, the name
      it was paired under and the scopes `["desktop_full"]`. */
  lemma PairedTokenAccepted(t: Tables, pairId: Option<string>, code: Option<string>, deviceName: Option<string>,
                            now: int, deviceToken: string, path: string, authRequired: Option<string>)
    requires ValidTables(t)
    requires ConfirmStep(t, pairId, code, deviceName, now, deviceToken).1.Paired?
    requires !Bypassed(path) && authRequired != Some("false")
    ensures var t' := ConfirmStep(t, pairId, code, deviceName, now, deviceToken).0;
            Authenticate(path, authRequired, Some("Bearer " + deviceToken), t'.devices)
              == Proceed(Some(DeviceInfo(t.nextDeviceId, deviceName.value, ["desktop_full"])))
  {
    var t' := ConfirmStep(t, pairId, code, deviceName, now, deviceToken).0;
    var d := Device(t.nextDeviceId, deviceToken, deviceName.value, DesktopScopes, false);
    assert t'.devices == t.devices + [d];
    var h := "Bearer " + deviceToken;
    assert h[..7] == "Bearer " && h[7..] == deviceToken;
    NewestTokenFound(t.devices, d);
    DesktopScopesSplit(d);
  }

  /** A row appended under a token no earlier row holds is the row the
      token query finds. */
  lemma {:induction false} NewestTokenFound(devices: seq<Device>, d: Device)
    requires !TokenTaken(devices, d.token) && !d.revoked
    ensures ActiveDevice(devices + [d], d.token) == Some(d)
  {
    if |devices| > 0 {
      assert (devices + [d])[1..] == devices[1..] + [d];
      assert !TokenTaken(devices[1..], d.token) by {
        forall i | 0 <= i < |devices| - 1 ensures devices[1..][i].token != d.token {
          assert devices[1..][i] == devices[i + 1];
        }
      }
      NewestTokenFound(devices[1..], d);
    }
  }
}
