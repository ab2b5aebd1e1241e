/** JSON values as Express parses request bodies, with the JavaScript
    operations the sources apply to them: truthiness (`x || ""`), `String(x)`,
    property access `x?.key` and `JSON.stringify`. Numbers are integers. */
module Json {
  import opened Text

  datatype Value =
    | Null
    | Bool(b: bool)
    | Num(n: int)
    | Str(s: string)
    | Arr(items: seq<Value>)
    | Obj(fields: seq<Member>)

  /** One `"key": value` pair of an object, in source order. */
  datatype Member = Member(key: string, val: Value)

  /** `obj[key]` on a parsed object; of duplicate keys the last one wins,
      as with `JSON.parse`. `None` stands for `undefined`. */
  function Get(fields: seq<Member>, key: string): (r: Option<Value>)
    ensures r.Some? <==> exists k :: 0 <= k < |fields| && fields[k].key == key
    ensures r.Some? ==> exists k :: 0 <= k < |fields| && fields[k] == Member(key, r.value)
                                    && forall j :: k < j < |fields| ==> fields[j].key != key
  {
    if |fields| == 0 then None
    else if fields[|fields| - 1].key == key then Some(fields[|fields| - 1].val)
    else Get(fields[..|fields| - 1], key)
  }

  /** `v?.key`: `undefined` unless `v` is an object holding `key`. */
  function Prop(v: Option<Value>, key: string): Option<Value>
  {
    if v.Some? && v.value.Obj? then Get(v.value.fields, key) else None
  }

  /** JavaScript truthiness; `None` is `undefined`. */
  predicate Truthy(v: Option<Value>)
  {
    match v
    case None => false
    case Some(Null) => false
    case Some(Bool(b)) => b
    case Some(Num(n)) => n != 0
    case Some(Str(s)) => s != ""
    case Some(Arr(_)) => true
    case Some(Obj(_)) => true
  }

  /** The `TypeError` that `String(v)`, `${v}` and `Number(v)` throw when
      `v` has no usable conversion to a primitive. */
  const CannotConvert := "Cannot convert object to primitive value"

  /** Converting `v` to a primitive throws. A parsed object holding its own
      `toString` member shadows `Object.prototype.toString` with a value
      that cannot be called, and its `valueOf` gives back the object
      itself; an array converts through `join`, and so throws when one of
      its elements does. */
  predicate Unprintable(v: Value)
  {
    match v
    case Obj(fields) => exists k :: 0 <= k < |fields| && fields[k].key == "toString"
    case Arr(items) => exists i :: 0 <= i < |items| && Unprintable(items[i])
    case _ => false
  }

  /** `String(v)` */
  function ToStr(v: Value): (r: Result<string>)
    ensures r.Err? <==> Unprintable(v)
    ensures r.Err? ==> r.msg == CannotConvert
  {
    match v
    case Null => Ok("null")
    case Bool(b) => Ok(if b then "true" else "false")
    case Num(n) => Ok(IntToDecimal(n))
    case Str(s) => Ok(s)
    case Arr(items) => JoinItems(items)
    case Obj(fields) => if Get(fields, "toString").Some? then Err(CannotConvert) else Ok("[object Object]")
  }

  /** `Array.prototype.join(",")`: `null` elements print as empty text, and
      the first element that cannot be converted aborts the join. */
  function JoinItems(items: seq<Value>): (r: Result<string>)
    ensures r.Err? <==> exists i :: 0 <= i < |items| && Unprintable(items[i])
    ensures r.Err? ==> r.msg == CannotConvert
  {
    if |items| == 0 then Ok("")
    else
      var first := if items[0].Null? then Ok("") else ToStr(items[0]);
      if first.Err? then first
      else if |items| == 1 then first
      else
        var rest := JoinItems(items[1..]);
        assert forall i :: 1 <= i < |items| ==> items[i] == items[1..][i - 1];
        if rest.Err? then rest else Ok(first.value + "," + rest.value)
  }

  /** `String(v || "")`, the coercion every tool argument goes through. */
  function StrOrEmpty(v: Option<Value>): (r: Result<string>)
    ensures !Truthy(v) ==> r == Ok("")
    ensures v.Some? && v.value.Str? ==> r == Ok(v.value.s)
    ensures r.Err? <==> v.Some? && Unprintable(v.value)
    ensures r.Err? ==> r.msg == CannotConvert
  {
    if Truthy(v) then ToStr(v.value) else Ok("")
  }

  /** A value interpolated into a template literal: `undefined` prints as
      "undefined". */
  function Template(v: Option<Value>): (r: Result<string>)
    ensures v.None? ==> r == Ok("undefined")
    ensures r.Err? <==> v.Some? && Unprintable(v.value)
  {
    if v.None? then Ok("undefined") else ToStr(v.value)
  }

  // ---------------------------------------------------------------------
  // JSON.stringify
  // ---------------------------------------------------------------------

  function HexDigit(n: nat): char
    requires n < 16
  {
    "0123456789abcdef"[n]
  }

  /** How `JSON.stringify` writes one character inside a string literal. */
  function EscapeChar(c: char): string
  {
    if c == '"' then "\\\""
    else if c == '\\' then "\\\\"
    else if c == '\U{0008}' then "\\b"
    else if c == '\U{000C}' then "\\f"
    else if c == '\n' then "\\n"
    else if c == '\r' then "\\r"
    else if c == '\t' then "\\t"
    else if c < ' ' then "\\u00" + [HexDigit(c as int / 16), HexDigit(c as int % 16)]
    else [c]
  }

  function Escape(s: string): string
  {
    if |s| == 0 then "" else EscapeChar(s[0]) + Escape(s[1..])
  }

  function Quote(s: string): string
  {
    "\"" + Escape(s) + "\""
  }

  function Stringify(v: Value): string
  {
    match v
    case Null => "null"
    case Bool(b) => if b then "true" else "false"
    case Num(n) => IntToDecimal(n)
    case Str(s) => Quote(s)
    case Arr(items) => "[" + StringifyItems(items) + "]"
    case Obj(fields) => "{" + StringifyFields(fields) + "}"
  }

  function StringifyItems(items: seq<Value>): string
  {
    if |items| == 0 then ""
    else if |items| == 1 then Stringify(items[0])
    else Stringify(items[0]) + "," + StringifyItems(items[1..])
  }

  function StringifyFields(fields: seq<Member>): string
  {
    if |fields| == 0 then ""
    else
      var f := Quote(fields[0].key) + ":" + Stringify(fields[0].val);
      if |fields| == 1 then f else f + "," + StringifyFields(fields[1..])
  }

  /** `safeJson(x)`: `JSON.stringify` of a value parsed from JSON never
      throws, so the `"<unserializable>"` fallback is unreachable here;
      `JSON.stringify(undefined)` is `undefined`. */
  function SafeJson(v: Option<Value>): Option<string>
  {
    if v.None? then None else Some(Stringify(v.value))
  }

  /** `${safeJson(x)}` */
  function SafeJsonText(v: Option<Value>): string
  {
    if v.None? then "undefined" else Stringify(v.value)
  }

  // ---------------------------------------------------------------------
  // The partner of Escape: reading a JSON string body back.
  // ---------------------------------------------------------------------

  function HexValue(c: char): Option<nat>
  {
    if '0' <= c <= '9' then Some(c as int - '0' as int)
    else if 'a' <= c <= 'f' then Some(c as int - 'a' as int + 10)
    else if 'A' <= c <= 'F' then Some(c as int - 'A' as int + 10)
    else None
  }

  function Prepend(c: char, r: Option<string>): Option<string>
  {
    if r.None? then None else Some([c] + r.value)
  }

  function SimpleEscape(e: char): Option<char>
  {
    if e == '"' then Some('"')
    else if e == '\\' then Some('\\')
    else if e == '/' then Some('/')
    else if e == 'b' then Some('\U{0008}')
    else if e == 'f' then Some('\U{000C}')
    else if e == 'n' then Some('\n')
    else if e == 'r' then Some('\r')
    else if e == 't' then Some('\t')
    else None
  }

  /** The text between the quotes of a JSON string literal, decoded.
      `\u` escapes naming a surrogate code unit are not modelled. */
  function Unescape(t: string): Option<string>
    decreases |t|
  {
    if |t| == 0 then Some("")
    else if t[0] == '\\' then
      if |t| >= 2 && SimpleEscape(t[1]).Some? then Prepend(SimpleEscape(t[1]).value, Unescape(t[2..]))
      else if |t| >= 6 && t[1] == 'u' && HexValue(t[2]).Some? && HexValue(t[3]).Some?
              && HexValue(t[4]).Some? && HexValue(t[5]).Some? then
        var u := HexValue(t[2]).value * 4096 + HexValue(t[3]).value * 256
                 + HexValue(t[4]).value * 16 + HexValue(t[5]).value;
        if 0xD800 <= u < 0xE000 then None
        else Prepend(u as char, Unescape(t[6..]))
      else None
    else if t[0] == '"' || t[0] < ' ' then None
    else Prepend(t[0], Unescape(t[1..]))
  }

  lemma HexRoundTrip(n: nat)
    requires n < 16
    ensures HexValue(HexDigit(n)) == Some(n)
  {
  }

  lemma UnescapeChar(c: char, t: string)
    ensures Unescape(EscapeChar(c) + t) == Prepend(c, Unescape(t))
  {
    if c == '"' || c == '\\' || c == '\U{0008}' || c == '\U{000C}' || c == '\n' || c == '\r' || c == '\t' {
      UnescapeSimpleChar(c, t);
    } else if c < ' ' {
      UnescapeControlChar(c, t);
    } else {
      var x := EscapeChar(c) + t;
      assert EscapeChar(c) == [c];
      assert x[0] == c && x[1..] == t;
    }
  }

  /** A character with a two-letter escape reads back. */
  lemma UnescapeSimpleChar(c: char, t: string)
    requires c == '"' || c == '\\' || c == '\U{0008}' || c == '\U{000C}' || c == '\n' || c == '\r' || c == '\t'
    ensures Unescape(EscapeChar(c) + t) == Prepend(c, Unescape(t))
  {
    var e := EscapeChar(c);
    assert |e| == 2 && e[0] == '\\' && SimpleEscape(e[1]) == Some(c);
    var x := e + t;
    assert x[0] == '\\' && x[1] == e[1] && x[2..] == t;
  }

  /** Any other control character is written as `\u00XY` and reads back. */
  lemma UnescapeControlChar(c: char, t: string)
    requires c < ' ' && c != '\U{0008}' && c != '\U{000C}' && c != '\n' && c != '\r' && c != '\t'
    ensures Unescape(EscapeChar(c) + t) == Prepend(c, Unescape(t))
  {
    var x := EscapeChar(c) + t;
    HexRoundTrip(c as int / 16);
    HexRoundTrip(c as int % 16);
    assert x[0] == '\\' && x[1] == 'u' && x[2] == '0' && x[3] == '0';
    assert x[4] == HexDigit(c as int / 16) && x[5] == HexDigit(c as int % 16);
    assert x[6..] == t;
    assert (c as int / 16) * 16 + c as int % 16 == c as int;
  }

  /** Escaping is lossless: every string's literal reads back as itself. */
  lemma {:induction false} EscapeRoundTrip(s: string)
    ensures Unescape(Escape(s)) == Some(s)
  {
    if |s| > 0 {
      EscapeRoundTrip(s[1..]);
      UnescapeChar(s[0], Escape(s[1..]));
      assert [s[0]] + s[1..] == s;
    }
  }

  // ---------------------------------------------------------------------
  // Serialised JSON never spans lines.
  // ---------------------------------------------------------------------

  lemma {:induction false} EscapeNoLineBreak(s: string)
    ensures '\n' !in Escape(s) && '\r' !in Escape(s)
  {
    if |s| > 0 {
      EscapeNoLineBreak(s[1..]);
      EscapeCharNoLineBreak(s[0]);
    }
  }

  lemma EscapeCharNoLineBreak(c: char)
    ensures '\n' !in EscapeChar(c) && '\r' !in EscapeChar(c)
  {
    if c < ' ' && c != '\U{0008}' && c != '\U{000C}' && c != '\n' && c != '\r' && c != '\t' {
      var e := EscapeChar(c);
      assert e == "\\u00" + [HexDigit(c as int / 16), HexDigit(c as int % 16)];
      assert forall i :: 0 <= i < |e| ==> e[i] != '\n' && e[i] != '\r';
    }
  }

  lemma {:induction false} StringifyNoLineBreak(v: Value)
    ensures '\n' !in Stringify(v) && '\r' !in Stringify(v)
  {
    match v
    case Null =>
    case Bool(_) =>
    case Num(n) =>
      if n < 0 { DecimalNoLineBreak(-n); } else { DecimalNoLineBreak(n); }
    case Str(s) => EscapeNoLineBreak(s);
    case Arr(items) => ItemsNoLineBreak(items);
    case Obj(fields) => FieldsNoLineBreak(fields);
  }

  lemma DecimalNoLineBreak(n: nat)
    ensures '\n' !in NatToDecimal(n) && '\r' !in NatToDecimal(n)
  {
    var r := NatToDecimal(n);
    assert forall i :: 0 <= i < |r| ==> IsDigit(r[i]);
  }

  lemma {:induction false} ItemsNoLineBreak(items: seq<Value>)
    ensures '\n' !in StringifyItems(items) && '\r' !in StringifyItems(items)
  {
    if |items| > 0 {
      StringifyNoLineBreak(items[0]);
      ItemsNoLineBreak(items[1..]);
    }
  }

  lemma {:induction false} FieldsNoLineBreak(fields: seq<Member>)
    ensures '\n' !in StringifyFields(fields) && '\r' !in StringifyFields(fields)
  {
    if |fields| > 0 {
      EscapeNoLineBreak(fields[0].key);
      StringifyNoLineBreak(fields[0].val);
      FieldsNoLineBreak(fields[1..]);
    }
  }

  /** Looking a key up in a three-member object literal. */
  lemma GetOfThree(a: Member, b: Member, c: Member, key: string)
    ensures Get([a, b, c], key)
              == if c.key == key then Some(c.val) else if b.key == key then Some(b.val)
                 else if a.key == key then Some(a.val) else None
  {
    assert [a, b, c][..2] == [a, b];
    assert [a, b][..1] == [a];
    assert [a][..0] == [];
    assert Get([a, b, c], key) == if c.key == key then Some(c.val) else Get([a, b], key);
    assert Get([a, b], key) == if b.key == key then Some(b.val) else Get([a], key);
    assert Get([a], key) == if a.key == key then Some(a.val) else Get([], key);
  }
}
