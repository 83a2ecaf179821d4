/**
  A JSON writer with the separators `", "` and `": "`, the inverse of the
  parser: `ParseJson(Encode(j)) == Some(j)` for every value the writer can
  express. It is the reference the marker round trip is checked against.
 */
module JsonEncoder {
  import opened Wrappers
  import opened Text
  import opened Json
  import opened JsonParser

  function EncodeChar(c: char): string {
    if c == '"' then "\\\""
    else if c == '\\' then "\\\\"
    else if c == '\n' then "\\n"
    else if c == '\r' then "\\r"
    else if c == '\t' then "\\t"
    else if c == Backspace then "\\b"
    else if c == FormFeed then "\\f"
    else [c]
  }

  function EncodeChars(s: string): string {
    if s == [] then "" else EncodeChar(s[0]) + EncodeChars(s[1..])
  }

  function EncodeStr(s: string): string {
    "\"" + EncodeChars(s) + "\""
  }

  function Encode(j: Json): string
    decreases j
  {
    match j
    case JNull => "null"
    case JBool(b) => if b then "true" else "false"
    case JInt(i) => IntToString(i)
    case JStr(s) => EncodeStr(s)
    case JArr(items) => "[" + EncodeItems(items) + "]"
    case JObj(fields) => "{" + EncodeFields(j, fields) + "}"
  }

  function EncodeItems(items: seq<Json>): string
    decreases items
  {
    if items == [] then ""
    else if |items| == 1 then Encode(items[0])
    else Encode(items[0]) + ", " + EncodeItems(items[1..])
  }

  /** The members of the object `parent`, or of a tail of them; `parent` only bounds the recursion. */
  function EncodeFields(ghost parent: Json, fields: seq<(string, Json)>): string
    requires forall f | f in fields :: f.1 < parent
    decreases parent, |fields|
  {
    if fields == [] then ""
    else if |fields| == 1 then EncodeStr(fields[0].0) + ": " + Encode(fields[0].1)
    else EncodeStr(fields[0].0) + ": " + Encode(fields[0].1) + ", " + EncodeFields(parent, fields[1..])
  }

  /** Characters a JSON string may hold without a `\u` escape. */
  predicate EncodableChar(c: char) {
    c >= ' ' || c == '\n' || c == '\r' || c == '\t' || c == Backspace || c == FormFeed
  }

  predicate EncodableStr(s: string) {
    forall i :: 0 <= i < |s| ==> EncodableChar(s[i])
  }

  /** Strings without `\u`-only characters, and no object with a repeated key. */
  predicate Encodable(j: Json)
    decreases j
  {
    match j
    case JStr(s) => EncodableStr(s)
    case JArr(items) => forall i :: 0 <= i < |items| ==> Encodable(items[i])
    case JObj(fields) =>
      UniqueKeys(fields) && forall i :: 0 <= i < |fields| ==> EncodableStr(fields[i].0) && Encodable(fields[i].1)
    case _ => true
  }

  /** What may follow a number without changing how it is read. */
  predicate NumberStop(rest: string) {
    rest == [] || !(IsDigit(rest[0]) || rest[0] == '.' || rest[0] == 'e' || rest[0] == 'E')
  }

  lemma SkipWsNone(s: string)
    requires s == [] || !IsWs(s[0])
    ensures SkipWs(s) == s
  {
  }

  lemma SkipWsSpace(s: string)
    requires s == [] || !IsWs(s[0])
    ensures SkipWs(" " + s) == s
  {
    assert (" " + s)[1..] == s;
  }

  lemma EncodeFirst(j: Json)
    ensures Encode(j) != []
    ensures !IsWs(Encode(j)[0]) && Encode(j)[0] != ']' && Encode(j)[0] != '}' && Encode(j)[0] != ','
  {
    match j
    case JInt(i) =>
    case JStr(s) =>
    case JArr(items) =>
    case JObj(fields) =>
    case _ =>
  }

  lemma {:induction false} ParseStringEncoded(s: string, rest: string)
    requires EncodableStr(s)
    ensures ParseString(EncodeChars(s) + "\"" + rest) == Some((s, rest))
  {
    if s == [] {
      assert EncodeChars(s) + "\"" + rest == "\"" + rest;
    } else {
      var x := EncodeChars(s[1..]) + "\"" + rest;
      assert EncodableStr(s[1..]) by {
        forall i | 0 <= i < |s[1..]| ensures EncodableChar(s[1..][i]) {
          assert s[1..][i] == s[i + 1];
        }
      }
      ParseStringEncoded(s[1..], rest);
      AppendAssoc(EncodeChar(s[0]), EncodeChars(s[1..]), "\"");
      AppendAssoc(EncodeChar(s[0]), EncodeChars(s[1..]) + "\"", rest);
      ParseCharEncoded(s[0], x, s[1..], rest);
      assert [s[0]] + s[1..] == s;
    }
  }

  /** One written character followed by text that reads back as `(t, rest)` reads back one character longer. */
  lemma ParseCharEncoded(c: char, x: string, t: string, rest: string)
    requires EncodableChar(c) && ParseString(x) == Some((t, rest))
    ensures ParseString(EncodeChar(c) + x) == Some(([c] + t, rest))
  {
    var u := EncodeChar(c) + x;
    if |EncodeChar(c)| == 2 {
      assert u[0] == '\\' && u[2..] == x;
      assert Unescape(u[1]) == Some(c);
    } else {
      assert EncodeChar(c) == [c];
      assert u[0] == c && u[1..] == x;
    }
  }

  lemma {:induction false} DigitRunDigits(ds: string, rest: string)
    requires forall i :: 0 <= i < |ds| ==> IsDigit(ds[i])
    requires rest == [] || !IsDigit(rest[0])
    ensures DigitRun(ds + rest) == |ds|
  {
    if ds != [] {
      assert (ds + rest)[1..] == ds[1..] + rest;
      DigitRunDigits(ds[1..], rest);
    } else {
      assert ds + rest == rest;
    }
  }

  lemma {:induction false} DigitsValueOfNat(n: nat)
    ensures DigitsValue(NatToString(n)) == n
    decreases n
  {
    var ds := NatToString(n);
    if n >= 10 {
      DigitsValueOfNat(n / 10);
      assert ds[..|ds| - 1] == NatToString(n / 10);
    }
  }

  lemma NumberEncoded(i: int, rest: string)
    requires NumberStop(rest)
    ensures ParseNumber(IntToString(i) + rest) == Some((JInt(i), rest))
  {
    var n: nat := if i < 0 then -i else i;
    var ds := NatToString(n);
    var t := ds + rest;
    DigitRunDigits(ds, rest);
    DigitsValueOfNat(n);
    DigitsParsed(ds, rest);
    if i < 0 {
      var s := IntToString(i) + rest;
      assert s == "-" + t && s[1..] == t;
    } else {
      assert IntToString(i) + rest == t;
    }
  }

  /** A run of digits is read up to where `rest` starts. */
  lemma DigitsParsed(ds: string, rest: string)
    requires ds != [] && DigitRun(ds + rest) == |ds|
    ensures (ds + rest)[..|ds|] == ds && (ds + rest)[|ds|..] == rest
  {
  }

  lemma {:induction false} ParseEncoded(j: Json, rest: string)
    requires Encodable(j) && NumberStop(rest)
    ensures ParseValue(Encode(j) + rest) == Some((j, rest))
    decreases j, 2, 0
  {
    match j
    case JNull => ParseEncodedLiteral(j, rest);
    case JBool(_) => ParseEncodedLiteral(j, rest);
    case JInt(i) => NumberEncoded(i, rest);
    case JStr(s) => ParseEncodedStr(s, rest);
    case JArr(_) => ParseEncodedArr(j, rest);
    case JObj(_) => ParseEncodedObj(j, rest);
  }

  lemma ParseEncodedLiteral(j: Json, rest: string)
    requires j.JNull? || j.JBool?
    ensures ParseValue(Encode(j) + rest) == Some((j, rest))
  {
    var u := Encode(j) + rest;
    if j.JNull? {
      assert StartsWith(u, "null") && u[4..] == rest;
    } else if j.b {
      assert StartsWith(u, "true") && u[4..] == rest;
    } else {
      assert StartsWith(u, "false") && u[5..] == rest;
    }
  }

  lemma ParseEncodedStr(s: string, rest: string)
    requires EncodableStr(s)
    ensures ParseValue(Encode(JStr(s)) + rest) == Some((JStr(s), rest))
  {
    Bracketed("\"", EncodeChars(s), "\"", rest);
    assert EncodeChars(s) + ("\"" + rest) == EncodeChars(s) + "\"" + rest;
    ParseStringEncoded(s, rest);
  }

  lemma Regroup(a: string, b: string, c: string, d: string)
    ensures a + b + c + d == a + (b + (c + d))
  {
  }

  /** Regrouping of a bracketed text followed by more text. */
  lemma Bracketed(o: string, x: string, c: string, rest: string)
    requires |o| == 1
    ensures o + x + c + rest == o + (x + (c + rest))
    ensures (o + (x + (c + rest)))[1..] == x + (c + rest)
  {
  }

  lemma {:induction false} ParseEncodedArr(j: Json, rest: string)
    requires j.JArr? && Encodable(j)
    ensures ParseValue(Encode(j) + rest) == Some((j, rest))
    decreases j, 1, 0
  {
    var items := j.items;
    var inner := EncodeItems(items) + ("]" + rest);
    Bracketed("[", EncodeItems(items), "]", rest);
    if items == [] {
      assert inner == "]" + rest;
    } else {
      EncodeFirst(items[0]);
      assert inner[0] == Encode(items[0])[0];
      SkipWsNone(inner);
      ParseEncodedItems(j, items, rest);
    }
  }

  lemma {:induction false} ParseEncodedObj(j: Json, rest: string)
    requires j.JObj? && Encodable(j)
    ensures ParseValue(Encode(j) + rest) == Some((j, rest))
    decreases j, 1, 0
  {
    var fields := j.fields;
    var inner := EncodeFields(j, fields) + ("}" + rest);
    Bracketed("{", EncodeFields(j, fields), "}", rest);
    if fields == [] {
      assert inner == "}" + rest;
    } else {
      FieldsFirst(j, fields, "}" + rest);
      SkipWsNone(inner);
      ParseEncodedFields(j, fields, rest);
      BuildDictOfUnique(fields);
    }
  }

  /** One step of the element list: a value, a comma, and the remaining elements. */
  lemma ElementsMore(u: string, v: Json, d: string, more: seq<Json>, rest: string)
    requires ParseValue(u) == Some((v, d))
    requires SkipWs(d) != [] && SkipWs(d)[0] == ','
    requires ParseElements(SkipWs(SkipWs(d)[1..])) == Some((more, rest))
    ensures ParseElements(u) == Some(([v] + more, rest))
  {
  }

  lemma ElementsLast(u: string, v: Json, d: string)
    requires ParseValue(u) == Some((v, d))
    requires SkipWs(d) != [] && SkipWs(d)[0] == ']'
    ensures ParseElements(u) == Some(([v], SkipWs(d)[1..]))
  {
  }

  lemma {:induction false} ParseEncodedItems(parent: Json, items: seq<Json>, rest: string)
    requires items != []
    requires forall i :: 0 <= i < |items| ==> items[i] < parent && Encodable(items[i])
    ensures ParseElements(EncodeItems(items) + ("]" + rest)) == Some((items, rest))
    decreases parent, 0, |items|
  {
    var u := EncodeItems(items) + ("]" + rest);
    if |items| == 1 {
      ParseEncoded(items[0], "]" + rest);
      SkipWsNone("]" + rest);
      ElementsLast(u, items[0], "]" + rest);
      assert [items[0]] == items;
    } else {
      var tail := EncodeItems(items[1..]) + ("]" + rest);
      var d := ", " + tail;
      Regroup(Encode(items[0]), ", ", EncodeItems(items[1..]), "]" + rest);
      ParseEncoded(items[0], d);
      SkipWsNone(d);
      EncodeFirst(items[1]);
      assert tail[0] == Encode(items[1])[0];
      SkipComma(tail);
      ParseEncodedItems(parent, items[1..], rest);
      ElementsMore(u, items[0], d, items[1..], rest);
      assert [items[0]] + items[1..] == items;
    }
  }

  lemma SkipColon(x: string)
    requires x != [] && !IsWs(x[0])
    ensures SkipWs(": " + x) == ": " + x
    ensures SkipWs((": " + x)[1..]) == x
  {
    assert (": " + x)[1..] == " " + x;
    SkipWsSpace(x);
  }

  lemma KeyText(k: string, a: string)
    ensures (EncodeStr(k) + a)[0] == '"'
    ensures (EncodeStr(k) + a)[1..] == EncodeChars(k) + "\"" + a
  {
    assert EncodeStr(k) + a == "\"" + (EncodeChars(k) + "\"" + a);
  }

  /** A written member `"k": v` followed by `tail` reads back as `(k, v)` and then `tail`. */
  lemma {:induction false} ParseEncodedMember(parent: Json, k: string, v: Json, tail: string)
    requires v < parent && EncodableStr(k) && Encodable(v)
    requires tail != [] && (tail[0] == ',' || tail[0] == '}')
    ensures var a := ": " + (Encode(v) + tail);
      var u := EncodeStr(k) + a;
      u != [] && u[0] == '"' && ParseString(u[1..]) == Some((k, a)) &&
      SkipWs(a) == a && ParseValue(SkipWs(a[1..])) == Some((v, tail))
    ensures SkipWs(tail) == tail
    decreases parent, 0, 0
  {
    var x := Encode(v) + tail;
    var a := ": " + x;
    KeyText(k, a);
    ParseStringEncoded(k, a);
    EncodeFirst(v);
    assert x[0] == Encode(v)[0];
    SkipColon(x);
    ParseEncoded(v, tail);
    SkipWsNone(tail);
  }

  lemma MemberText(ek: string, ev: string, ef: string, rest: string)
    ensures ek + ": " + ev + ("}" + rest) == ek + (": " + (ev + ("}" + rest)))
    ensures ek + ": " + ev + ", " + ef + ("}" + rest) == ek + (": " + (ev + (", " + (ef + ("}" + rest)))))
  {
  }

  /** One step of the member list: a key, a colon, a value, a comma and the remaining members. */
  lemma MembersMore(u: string, key: string, a: string, v: Json, d: string, more: seq<(string, Json)>, rest: string)
    requires u != [] && u[0] == '"' && ParseString(u[1..]) == Some((key, a))
    requires SkipWs(a) != [] && SkipWs(a)[0] == ':'
    requires ParseValue(SkipWs(SkipWs(a)[1..])) == Some((v, d))
    requires SkipWs(d) != [] && SkipWs(d)[0] == ','
    requires ParseMembers(SkipWs(SkipWs(d)[1..])) == Some((more, rest))
    ensures ParseMembers(u) == Some(([(key, v)] + more, rest))
  {
  }

  lemma MembersLast(u: string, key: string, a: string, v: Json, d: string)
    requires u != [] && u[0] == '"' && ParseString(u[1..]) == Some((key, a))
    requires SkipWs(a) != [] && SkipWs(a)[0] == ':'
    requires ParseValue(SkipWs(SkipWs(a)[1..])) == Some((v, d))
    requires SkipWs(d) != [] && SkipWs(d)[0] == '}'
    ensures ParseMembers(u) == Some(([(key, v)], SkipWs(d)[1..]))
  {
  }

  lemma SkipComma(x: string)
    requires x != [] && !IsWs(x[0])
    ensures SkipWs((", " + x)[1..]) == x
  {
    assert (", " + x)[1..] == " " + x;
    SkipWsSpace(x);
  }

  lemma FieldsFirst(parent: Json, fields: seq<(string, Json)>, rest: string)
    requires fields != []
    requires forall f | f in fields :: f.1 < parent
    ensures (EncodeFields(parent, fields) + rest)[0] == '"'
  {
  }

  lemma {:induction false} ParseEncodedFields(parent: Json, fields: seq<(string, Json)>, rest: string)
    requires fields != []
    requires forall f | f in fields :: f.1 < parent
    requires forall i :: 0 <= i < |fields| ==> EncodableStr(fields[i].0) && Encodable(fields[i].1)
    ensures ParseMembers(EncodeFields(parent, fields) + ("}" + rest)) == Some((fields, rest))
    decreases parent, 0, |fields|
  {
    var k := fields[0].0;
    var v := fields[0].1;
    FieldsHead(parent, fields);
    var u := EncodeFields(parent, fields) + ("}" + rest);
    if |fields| == 1 {
      var tail := "}" + rest;
      MemberText(EncodeStr(k), Encode(v), "", rest);
      ParseEncodedMember(parent, k, v, tail);
      MembersLast(u, k, ": " + (Encode(v) + tail), v, tail);
      assert [(k, v)] == fields;
    } else {
      var ef := EncodeFields(parent, fields[1..]);
      var more := ef + ("}" + rest);
      var tail := ", " + more;
      MemberText(EncodeStr(k), Encode(v), ef, rest);
      ParseEncodedMember(parent, k, v, tail);
      FieldsFirst(parent, fields[1..], "}" + rest);
      SkipComma(more);
      ParseEncodedFields(parent, fields[1..], rest);
      MembersMore(u, k, ": " + (Encode(v) + tail), v, tail, fields[1..], rest);
      assert [(k, v)] + fields[1..] == fields;
    }
  }

  /** The first field's parts, and the preconditions handed on to the remaining fields. */
  lemma FieldsHead(parent: Json, fields: seq<(string, Json)>)
    requires fields != []
    requires forall f | f in fields :: f.1 < parent
    requires forall i :: 0 <= i < |fields| ==> EncodableStr(fields[i].0) && Encodable(fields[i].1)
    ensures fields[0].1 < parent && EncodableStr(fields[0].0) && Encodable(fields[0].1)
    ensures forall f | f in fields[1..] :: f.1 < parent
    ensures forall i :: 0 <= i < |fields[1..]| ==> EncodableStr(fields[1..][i].0) && Encodable(fields[1..][i].1)
    ensures EncodeFields(parent, fields)
         == if |fields| == 1 then EncodeStr(fields[0].0) + ": " + Encode(fields[0].1)
            else EncodeStr(fields[0].0) + ": " + Encode(fields[0].1) + ", " + EncodeFields(parent, fields[1..])
  {
    assert fields[0] in fields;
    forall i | 0 <= i < |fields[1..]|
      ensures EncodableStr(fields[1..][i].0) && Encodable(fields[1..][i].1)
    {
      assert fields[1..][i] == fields[i + 1];
    }
  }

  /** The parser reads back exactly what the writer wrote. */
  lemma ParseJsonEncode(j: Json)
    requires Encodable(j)
    ensures ParseJson(Encode(j)) == Some(j)
  {
    EncodeFirst(j);
    SkipWsNone(Encode(j));
    ParseEncoded(j, []);
    assert Encode(j) + [] == Encode(j);
  }
}
