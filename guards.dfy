/** The agent's request guards: the shared-token gate, the confirmation
    header, the URL and process-id validators, and the truncation applied
    to what the audit line records. */
module Guards {
  import opened Text
  import opened Json

  // ---------------------------------------------------------------------
  // requireAuth
  // ---------------------------------------------------------------------

  datatype Gate = Pass | Unauthorized

  /** Every path but "/health" needs an `x-agent-token` header equal to the
      configured token, and an empty configured token admits nobody. */
  function RequireAuth(path: string, header: Option<string>, agentToken: string): (g: Gate)
  {
    if path == "/health" then Pass
    else if agentToken == "" || header != Some(agentToken) then Unauthorized
    else Pass
  }

  /** The gate fails closed: without a configured token only "/health" is
      served, and with one a request passes exactly when it carries that
      token. */
  lemma AuthFailsClosed(path: string, header: Option<string>, agentToken: string)
    ensures path != "/health" && agentToken == "" ==> RequireAuth(path, header, agentToken) == Unauthorized
    ensures path != "/health" ==> (RequireAuth(path, header, agentToken) == Pass
                                   <==> agentToken != "" && header.Some? && header.value == agentToken)
    ensures path == "/health" ==> RequireAuth(path, header, agentToken) == Pass
  {
  }

  // ---------------------------------------------------------------------
  // requireConfirm: `String(h || "").toUpperCase() === "YES"`
  // ---------------------------------------------------------------------

  function HeaderText(h: Option<string>): string
  {
    if h.Some? then h.value else ""
  }

  predicate RequireConfirm(h: Option<string>)
  {
    Upper(HeaderText(h)) == "YES"
  }

  /** The header values that confirm, letter by letter: "yes" in any mix of
      cases, where the last letter may also be LATIN SMALL LETTER LONG S,
      whose upper case is 'S'. */
  predicate IsYes(s: string)
  {
    |s| == 3 && (s[0] == 'y' || s[0] == 'Y') && (s[1] == 'e' || s[1] == 'E')
    && (s[2] == 's' || s[2] == 'S' || s[2] == '\U{017F}')
  }

  lemma UpperCharIs(c: char, u: char)
    requires 'A' <= u <= 'Z'
    ensures UpperChar(c) == u <==> c == u || c == (u as int + 32) as char || (u == 'S' && c == '\U{017F}')
  {
  }

  lemma RequireConfirmIff(h: Option<string>)
    ensures RequireConfirm(h) <==> h.Some? && IsYes(h.value)
  {
    var s := HeaderText(h);
    if |s| == 3 {
      UpperCharIs(s[0], 'Y');
      UpperCharIs(s[1], 'E');
      UpperCharIs(s[2], 'S');
      assert Upper(s) == [UpperChar(s[0]), UpperChar(s[1]), UpperChar(s[2])];
    }
  }

  // ---------------------------------------------------------------------
  // validateUrl: `/^https?:\/\//i`
  // ---------------------------------------------------------------------

  /** ASCII-only case folding, as a non-Unicode case-insensitive regular
      expression compares letters: a character may only match an ASCII
      letter if it is itself ASCII. */
  function FoldAscii(c: char): char
  {
    if 'A' <= c <= 'Z' then (c as int + 32) as char else c
  }

  /** `t` matches the lower-case pattern `pat` letter for letter. */
  predicate MatchesFolded(t: string, pat: string)
  {
    |t| == |pat| && forall i :: 0 <= i < |t| ==> FoldAscii(t[i]) == pat[i]
  }

  predicate HasHttpScheme(s: string)
  {
    (|s| >= 7 && MatchesFolded(s[..4], "http") && s[4..7] == "://")
    || (|s| >= 8 && MatchesFolded(s[..5], "https") && s[5..8] == "://")
  }

  const InvalidUrl := "Invalid URL (must be http/https)"

  /** A URL that cannot be converted to text throws before the test. */
  function ValidateUrl(u: Option<Value>): (r: Result<string>)
    ensures r.Ok? <==> StrOrEmpty(u).Ok? && HasHttpScheme(StrOrEmpty(u).value)
    ensures r.Ok? ==> r.value == StrOrEmpty(u).value
    ensures r.Err? ==> r.msg == if StrOrEmpty(u).Err? then CannotConvert else InvalidUrl
  {
    match StrOrEmpty(u)
    case Err(m) => Err(m)
    case Ok(url) => if HasHttpScheme(url) then Ok(url) else Err(InvalidUrl)
  }

  function FoldAll(s: string): string
  {
    seq(|s|, i requires 0 <= i < |s| => FoldAscii(s[i]))
  }

  /** An independent reading of the scheme test: after ASCII lower-casing,
      the text starts with "http://" or "https://". */
  lemma HttpSchemeIff(s: string)
    ensures HasHttpScheme(s) <==> IsPrefix("http://", FoldAll(s)) || IsPrefix("https://", FoldAll(s))
  {
    var f := FoldAll(s);
    if |s| >= 7 {
      assert f[..7] == FoldAll(s[..7]);
      assert FoldAll(s[4..7]) == f[4..7];
      assert FoldAll(s[..4]) == f[..4];
      assert s[4..7] == "://" <==> f[4..7] == "://";
      assert MatchesFolded(s[..4], "http") <==> f[..4] == "http";
      assert f[..7] == f[..4] + f[4..7];
    }
    if |s| >= 8 {
      assert FoldAll(s[5..8]) == f[5..8];
      assert FoldAll(s[..5]) == f[..5];
      assert s[5..8] == "://" <==> f[5..8] == "://";
      assert MatchesFolded(s[..5], "https") <==> f[..5] == "https";
      assert f[..8] == f[..5] + f[5..8];
    }
  }

  // ---------------------------------------------------------------------
  // validatePid: `Number(pid)`, then a positive integer
  // ---------------------------------------------------------------------

  /** The result of `Number(v)` in this model: an integer, or NaN. */
  datatype Numeric = NaN | Int(i: int)

  /** `Number(s)` on text: surrounding white space is ignored, empty text
      is 0, and a decimal numeral with an optional sign is its value. */
  function TextToNumber(s: string): Numeric
  {
    var t := Trim(s);
    if t == "" then Int(0)
    else if (t[0] == '+' || t[0] == '-') && |t| >= 2 && AllDigits(t[1..]) then
      (if t[0] == '+' then Int(DigitsValue(t[1..])) else Int(0 - DigitsValue(t[1..])))
    else if AllDigits(t) then Int(DigitsValue(t))
    else NaN
  }

  /** `Number(v)`. An array is converted through its text, and like
      `String(v)` the conversion throws for a value holding its own
      `toString`; any other object is NaN. */
  function NumberOf(v: Option<Value>): (r: Result<Numeric>)
    ensures r.Err? <==> v.Some? && Unprintable(v.value)
    ensures r.Err? ==> r.msg == CannotConvert
  {
    match v
    case None => Ok(NaN)
    case Some(Null) => Ok(Int(0))
    case Some(Bool(b)) => Ok(Int(if b then 1 else 0))
    case Some(Num(n)) => Ok(Int(n))
    case Some(Str(s)) => Ok(TextToNumber(s))
    case Some(Arr(_)) => (match ToStr(v.value) case Err(m) => Err(m) case Ok(t) => Ok(TextToNumber(t)))
    case Some(Obj(_)) => if Unprintable(v.value) then Err(CannotConvert) else Ok(NaN)
  }

  const InvalidPid := "Invalid pid"

  /** `validatePid`: the pid is accepted exactly when `Number` gives a
      positive integer. */
  function ValidatePid(pid: Option<Value>): (r: Result<string>)
    ensures r.Ok? <==> exists i :: NumberOf(pid) == Ok(Int(i)) && i > 0
    ensures r.Err? ==> r.msg == if NumberOf(pid).Err? then CannotConvert else InvalidPid
  {
    match NumberOf(pid)
    case Err(m) => Err(m)
    case Ok(n) => if n.NaN? || n.i <= 0 then Err(InvalidPid) else Ok(NatToDecimal(n.i))
  }

  /** What reaches `taskkill` is a plain decimal numeral without a leading
      zero, and it reads back as the number that was validated. */
  lemma PidArgument(pid: Option<Value>)
    ensures var r := ValidatePid(pid);
            r.Ok? ==> NumberOf(pid).Ok? && NumberOf(pid).value.Int?
                      && AllDigits(r.value) && r.value[0] != '0'
                      && DigitsValue(r.value) == NumberOf(pid).value.i
  {
    var n := NumberOf(pid);
    if n.Ok? && n.value.Int? && n.value.i > 0 {
      DecimalRoundTrip(n.value.i);
    }
  }

  // ---------------------------------------------------------------------
  // truncate
  // ---------------------------------------------------------------------

  /** The marker the source appends: an ellipsis whose UTF-8 bytes were
      read as Windows-1252, followed by "(truncated)". */
  const TruncationMarker := "\U{00E2}\U{20AC}\U{00A6}(truncated)"

  const AuditResultLimit := 4000

  function Truncate(s: string, n: nat): (r: string)
    ensures |r| <= n + |TruncationMarker|
    ensures |s| <= n ==> r == s
    ensures |s| > n ==> IsPrefix(s[..n], r) && r[n..] == TruncationMarker
  {
    if s == "" then s
    else if |s| > n then s[..n] + TruncationMarker
    else s
  }

  /** Truncation adds no line break: the kept prefix has none of its own and
      the marker has none. */
  lemma TruncateNoLineBreak(s: string, n: nat)
    requires '\n' !in s && '\r' !in s
    ensures '\n' !in Truncate(s, n) && '\r' !in Truncate(s, n)
  {
    if |s| > n {
      assert forall i :: 0 <= i < n ==> s[..n][i] == s[i];
      assert '\n' !in TruncationMarker && '\r' !in TruncationMarker;
    }
  }
}
