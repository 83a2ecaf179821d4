/**
  The part of Python's `json.loads` that the modelled code relies on: objects,
  arrays, strings, integers, `true`, `false` and `null`, with JSON's four
  whitespace characters between tokens. `json.loads` raising is `None` here.
  Numbers with a fraction or an exponent, the names `NaN` and `Infinity` and
  `\u` escapes are outside the model: the parser rejects them.
 */
module JsonParser {
  import opened Wrappers
  import opened Text
  import opened Json

  const Backspace: char := 8 as char
  const FormFeed: char := 12 as char

  predicate IsWs(c: char) { c == ' ' || c == '\t' || c == '\n' || c == '\r' }

  function SkipWs(s: string): (r: string)
    ensures |r| <= |s|
  {
    if s != [] && IsWs(s[0]) then SkipWs(s[1..]) else s
  }

  /** Length of the run of decimal digits that `s` starts with. */
  function DigitRun(s: string): (k: nat)
    ensures k <= |s|
    ensures forall i :: 0 <= i < k ==> IsDigit(s[i])
    ensures k < |s| ==> !IsDigit(s[k])
  {
    if s != [] && IsDigit(s[0]) then 1 + DigitRun(s[1..]) else 0
  }

  function DigitsValue(ds: string): nat
    requires forall i :: 0 <= i < |ds| ==> IsDigit(ds[i])
  {
    if ds == [] then 0
    else
      var last := ds[|ds| - 1];
      assert IsDigit(last);
      DigitsValue(ds[..|ds| - 1]) * 10 + (last as int - '0' as int)
  }

  /** The character a JSON escape `\c` stands for; `\u` is outside the model. */
  function Unescape(c: char): Option<char> {
    if c == '"' then Some('"')
    else if c == '\\' then Some('\\')
    else if c == '/' then Some('/')
    else if c == 'b' then Some(Backspace)
    else if c == 'f' then Some(FormFeed)
    else if c == 'n' then Some('\n')
    else if c == 'r' then Some('\r')
    else if c == 't' then Some('\t')
    else None
  }

  /** The body of a string literal up to its closing quote, and what follows it. */
  function ParseString(s: string): (r: Option<(string, string)>)
    ensures r.Some? ==> |r.value.0| + |r.value.1| < |s|
  {
    if s == [] then None
    else if s[0] == '"' then Some(([], s[1..]))
    else if s[0] == '\\' then
      if |s| < 2 then None
      else match Unescape(s[1])
        case None => None
        case Some(c) =>
          match ParseString(s[2..])
          case None => None
          case Some((t, rest)) => Some(([c] + t, rest))
    else if s[0] < ' ' then None
    else match ParseString(s[1..])
      case None => None
      case Some((t, rest)) => Some(([s[0]] + t, rest))
  }

  /** `-?(0|[1-9][0-9]*)`; a fraction or exponent after it is refused. */
  function ParseNumber(s: string): (r: Option<(Json, string)>)
    ensures r.Some? ==> |r.value.1| < |s|
  {
    var neg := s != [] && s[0] == '-';
    var t := if neg then s[1..] else s;
    var k := DigitRun(t);
    if k == 0 then None
    else
      var n := if t[0] == '0' then 1 else k;
      var rest := t[n..];
      if rest != [] && (rest[0] == '.' || rest[0] == 'e' || rest[0] == 'E') then None
      else
        var v := DigitsValue(t[..n]);
        Some((JInt(if neg then -(v as int) else v), rest))
  }

  /** A value starting at the first character of `s`, and what follows it. */
  function ParseValue(s: string): (r: Option<(Json, string)>)
    ensures r.Some? ==> |r.value.1| < |s|
    decreases |s|, 1
  {
    if s == [] then None
    else if s[0] == '{' then ParseObject(s[1..])
    else if s[0] == '[' then ParseArray(s[1..])
    else if s[0] == '"' then
      match ParseString(s[1..])
      case None => None
      case Some((t, rest)) => Some((JStr(t), rest))
    else if s[0] == '-' || IsDigit(s[0]) then ParseNumber(s)
    else if StartsWith(s, "true") then Some((JBool(true), s[4..]))
    else if StartsWith(s, "false") then Some((JBool(false), s[5..]))
    else if StartsWith(s, "null") then Some((JNull, s[4..]))
    else None
  }

  /** What follows `{`. Repeated keys: the last value wins, at the first key's place. */
  function ParseObject(s: string): (r: Option<(Json, string)>)
    ensures r.Some? ==> |r.value.1| < |s|
    decreases |s|, 3
  {
    var u := SkipWs(s);
    if u != [] && u[0] == '}' then Some((JObj([]), u[1..]))
    else match ParseMembers(u)
      case None => None
      case Some((pairs, rest)) => Some((JObj(BuildDict(pairs)), rest))
  }

  /** `"key": value` pairs separated by commas, up to and including the closing `}`. */
  function ParseMembers(u: string): (r: Option<(seq<(string, Json)>, string)>)
    ensures r.Some? ==> |r.value.1| < |u| && r.value.0 != []
    decreases |u|, 2
  {
    if u == [] || u[0] != '"' then None
    else match ParseString(u[1..])
      case None => None
      case Some((key, a)) =>
        var b := SkipWs(a);
        if b == [] || b[0] != ':' then None
        else match ParseValue(SkipWs(b[1..]))
          case None => None
          case Some((v, d)) =>
            var e := SkipWs(d);
            if e != [] && e[0] == ',' then
              match ParseMembers(SkipWs(e[1..]))
              case None => None
              case Some((more, rest)) => Some(([(key, v)] + more, rest))
            else if e != [] && e[0] == '}' then Some(([(key, v)], e[1..]))
            else None
  }

  /** What follows `[`. */
  function ParseArray(s: string): (r: Option<(Json, string)>)
    ensures r.Some? ==> |r.value.1| < |s|
    decreases |s|, 3
  {
    var u := SkipWs(s);
    if u != [] && u[0] == ']' then Some((JArr([]), u[1..]))
    else match ParseElements(u)
      case None => None
      case Some((items, rest)) => Some((JArr(items), rest))
  }

  /** Values separated by commas, up to and including the closing `]`. */
  function ParseElements(u: string): (r: Option<(seq<Json>, string)>)
    ensures r.Some? ==> |r.value.1| < |u| && r.value.0 != []
    decreases |u|, 2
  {
    match ParseValue(u)
    case None => None
    case Some((v, d)) =>
      var e := SkipWs(d);
      if e != [] && e[0] == ',' then
        match ParseElements(SkipWs(e[1..]))
        case None => None
        case Some((more, rest)) => Some(([v] + more, rest))
      else if e != [] && e[0] == ']' then Some(([v], e[1..]))
      else None
  }

  /** `json.loads(s)`: one value, with only whitespace around it. */
  function ParseJson(s: string): Option<Json> {
    match ParseValue(SkipWs(s))
    case None => None
    case Some((v, rest)) => if SkipWs(rest) == [] then Some(v) else None
  }
}
