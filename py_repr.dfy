/**
  Python's `repr` and `str` of the values a tool call carries: `None`,
  `True`/`False`, integers, strings, lists and dicts. An f-string such as
  `f"... with args {tool_args}"` writes `str(tool_args)`, which is the `repr`
  for every such value except a string, written as itself. Inside a list or
  a dict, strings are written with `repr`: quoted with `'` unless they
  contain `'` and no `"`. A dict lists its keys in insertion order as
  `{'k': v, ...}`.
 */
module PyRepr {
  import opened Text
  import opened Json
  import opened JsonParser
  import opened JsonEncoder

  const Del: char := 127 as char

  function HexDigit(n: nat): (c: char)
    requires n < 16
    ensures c != '\n' && c != ']' && c != '\'' && c != '"'
  {
    if n < 10 then DigitChar(n) else (('a' as int) + n - 10) as char
  }

  /** One character inside a string literal quoted with `q`. */
  function ReprChar(c: char, q: char): string {
    if c == q then ['\\', q]
    else if c == '\\' then "\\\\"
    else if c == '\t' then "\\t"
    else if c == '\n' then "\\n"
    else if c == '\r' then "\\r"
    else if c < ' ' || c == Del then ['\\', 'x', HexDigit(c as int / 16), HexDigit(c as int % 16)]
    else [c]
  }

  function ReprChars(s: string, q: char): string {
    if s == [] then "" else ReprChar(s[0], q) + ReprChars(s[1..], q)
  }

  /** Python picks `"` only when the text holds `'` and no `"`. */
  function QuoteFor(s: string): char {
    if '\'' in s && '"' !in s then '"' else '\''
  }

  function ReprStr(s: string): string {
    var q := QuoteFor(s);
    [q] + ReprChars(s, q) + [q]
  }

  function Repr(j: Json): string
    decreases j
  {
    match j
    case JNull => "None"
    case JBool(b) => if b then "True" else "False"
    case JInt(i) => IntToString(i)
    case JStr(s) => ReprStr(s)
    case JArr(items) => "[" + ReprItems(items) + "]"
    case JObj(fields) => "{" + ReprFields(j, fields) + "}"
  }

  function ReprItems(items: seq<Json>): string
    decreases items
  {
    if items == [] then ""
    else if |items| == 1 then Repr(items[0])
    else Repr(items[0]) + ", " + ReprItems(items[1..])
  }

  /** The entries of the dict `parent`, or of a tail of them; `parent` only bounds the recursion. */
  function ReprFields(ghost parent: Json, fields: seq<(string, Json)>): string
    requires forall f | f in fields :: f.1 < parent
    decreases parent, |fields|
  {
    if fields == [] then ""
    else if |fields| == 1 then ReprStr(fields[0].0) + ": " + Repr(fields[0].1)
    else ReprStr(fields[0].0) + ": " + Repr(fields[0].1) + ", " + ReprFields(parent, fields[1..])
  }

  /** `str(v)`, what an f-string writes: a string as itself, any other value as its `repr`. */
  function PyStr(v: Json): string {
    if v.JStr? then v.s else Repr(v)
  }

  /** Characters written the same way by `repr` (quoted with `'`) and by the JSON writer, up to the quote. */
  predicate JsonLikeChar(c: char) {
    (c >= ' ' && c != '\'' && c != '"' && c != Del) || c == '\n' || c == '\r' || c == '\t'
  }

  predicate JsonLikeStr(s: string) {
    forall i :: 0 <= i < |s| ==> JsonLikeChar(s[i])
  }

  /**
    Values whose `repr`, once every `'` is turned into `"`, is their JSON text:
    no `None`/`True`/`False` (Python spells them differently from JSON), no
    quote characters inside strings, and no repeated keys.
   */
  predicate JsonLike(j: Json)
    decreases j
  {
    match j
    case JNull => false
    case JBool(_) => false
    case JInt(_) => true
    case JStr(s) => JsonLikeStr(s)
    case JArr(items) => forall i :: 0 <= i < |items| ==> JsonLike(items[i])
    case JObj(fields) =>
      UniqueKeys(fields) && forall i :: 0 <= i < |fields| ==> JsonLikeStr(fields[i].0) && JsonLike(fields[i].1)
  }

  lemma ReprCharNoNewline(c: char, q: char)
    requires q != '\n'
    ensures '\n' !in ReprChar(c, q)
  {
  }

  lemma {:induction false} ReprCharsNoNewline(s: string, q: char)
    requires q != '\n'
    ensures '\n' !in ReprChars(s, q)
  {
    if s != [] {
      ReprCharNoNewline(s[0], q);
      ReprCharsNoNewline(s[1..], q);
    }
  }

  lemma ReprStrNoNewline(s: string)
    ensures '\n' !in ReprStr(s)
  {
    ReprCharsNoNewline(s, QuoteFor(s));
  }

  /** `repr` escapes every line break, so its text never spans lines. */
  lemma {:induction false} ReprNoNewline(j: Json)
    ensures '\n' !in Repr(j)
    decreases j, 1
  {
    match j
    case JNull =>
    case JBool(_) =>
    case JInt(i) =>
    case JStr(s) => ReprStrNoNewline(s);
    case JArr(items) => ReprItemsNoNewline(j, items);
    case JObj(fields) => ReprFieldsNoNewline(j, fields);
  }

  lemma {:induction false} ReprItemsNoNewline(parent: Json, items: seq<Json>)
    requires forall i :: 0 <= i < |items| ==> items[i] < parent
    ensures '\n' !in ReprItems(items)
    decreases parent, 0, |items|
  {
    if items != [] {
      ReprNoNewline(items[0]);
      if |items| > 1 {
        ReprItemsNoNewline(parent, items[1..]);
      }
    }
  }

  lemma {:induction false} ReprFieldsNoNewline(parent: Json, fields: seq<(string, Json)>)
    requires forall f | f in fields :: f.1 < parent
    ensures '\n' !in ReprFields(parent, fields)
    decreases parent, 0, |fields|
  {
    if fields != [] {
      assert fields[0] in fields;
      ReprStrNoNewline(fields[0].0);
      ReprNoNewline(fields[0].1);
      if |fields| > 1 {
        ReprFieldsNoNewline(parent, fields[1..]);
      }
    }
  }

  lemma {:induction false} ReprCharsAsJson(s: string)
    requires JsonLikeStr(s)
    ensures ReplaceChar(ReprChars(s, '\''), '\'', '"') == EncodeChars(s)
  {
    if s != [] {
      assert JsonLikeStr(s[1..]) by {
        forall i | 0 <= i < |s[1..]| ensures JsonLikeChar(s[1..][i]) {
          assert s[1..][i] == s[i + 1];
        }
      }
      assert JsonLikeChar(s[0]);
      ReplaceCharConcat(ReprChar(s[0], '\''), ReprChars(s[1..], '\''), '\'', '"');
      ReplaceCharAbsent(ReprChar(s[0], '\''), '\'', '"');
      ReprCharsAsJson(s[1..]);
    }
  }

  lemma ReprStrAsJson(s: string)
    requires JsonLikeStr(s)
    ensures ReplaceChar(ReprStr(s), '\'', '"') == EncodeStr(s)
  {
    assert QuoteFor(s) == '\'';
    ReplaceCharConcat("'" + ReprChars(s, '\''), "'", '\'', '"');
    ReplaceCharConcat("'", ReprChars(s, '\''), '\'', '"');
    ReprCharsAsJson(s);
  }

  /** Turning the quotes of `repr` into double quotes gives the JSON text. */
  lemma {:induction false} ReprAsJson(j: Json)
    requires JsonLike(j)
    ensures ReplaceChar(Repr(j), '\'', '"') == Encode(j)
    decreases j, 1
  {
    match j
    case JInt(i) =>
      ReplaceCharAbsent(IntToString(i), '\'', '"');
    case JStr(s) => ReprStrAsJson(s);
    case JArr(items) => ReprArrAsJson(j, items);
    case JObj(fields) => ReprObjAsJson(j, fields);
  }

  lemma {:induction false} ReprArrAsJson(j: Json, items: seq<Json>)
    requires j == JArr(items) && JsonLike(j)
    ensures ReplaceChar(Repr(j), '\'', '"') == Encode(j)
    decreases j, 0, |items| + 1
  {
    ReplaceCharConcat("[" + ReprItems(items), "]", '\'', '"');
    ReplaceCharConcat("[", ReprItems(items), '\'', '"');
    ReprItemsAsJson(j, items);
  }

  lemma {:induction false} ReprObjAsJson(j: Json, fields: seq<(string, Json)>)
    requires j == JObj(fields) && JsonLike(j)
    ensures ReplaceChar(Repr(j), '\'', '"') == Encode(j)
    decreases j, 0, |fields| + 1
  {
    ReplaceCharConcat("{" + ReprFields(j, fields), "}", '\'', '"');
    ReplaceCharConcat("{", ReprFields(j, fields), '\'', '"');
    ReprFieldsAsJson(j, fields);
  }

  /** Quote replacement distributes over a join with a quote-free separator. */
  lemma ReplaceAround(x: string, sep: string, y: string)
    requires '\'' !in sep
    ensures ReplaceChar(x + sep + y, '\'', '"') == ReplaceChar(x, '\'', '"') + sep + ReplaceChar(y, '\'', '"')
  {
    ReplaceCharConcat(x + sep, y, '\'', '"');
    ReplaceCharConcat(x, sep, '\'', '"');
    ReplaceCharAbsent(sep, '\'', '"');
  }

  lemma {:induction false} ReprItemsAsJson(parent: Json, items: seq<Json>)
    requires forall i :: 0 <= i < |items| ==> items[i] < parent && JsonLike(items[i])
    ensures ReplaceChar(ReprItems(items), '\'', '"') == EncodeItems(items)
    decreases parent, 0, |items|
  {
    if items != [] {
      ReprAsJson(items[0]);
      if |items| > 1 {
        ReplaceAround(Repr(items[0]), ", ", ReprItems(items[1..]));
        ReprItemsAsJson(parent, items[1..]);
      }
    }
  }

  lemma {:induction false} ReprFieldsAsJson(parent: Json, fields: seq<(string, Json)>)
    requires forall f | f in fields :: f.1 < parent
    requires forall i :: 0 <= i < |fields| ==> JsonLikeStr(fields[i].0) && JsonLike(fields[i].1)
    ensures ReplaceChar(ReprFields(parent, fields), '\'', '"') == EncodeFields(parent, fields)
    decreases parent, 0, |fields|
  {
    if fields != [] {
      var k := fields[0].0;
      var v := fields[0].1;
      assert fields[0] in fields;
      ReprStrAsJson(k);
      ReprAsJson(v);
      var head := ReprStr(k) + ": " + Repr(v);
      ReplaceAround(ReprStr(k), ": ", Repr(v));
      var encoded := EncodeStr(k) + ": " + Encode(v);
      assert ReplaceChar(head, '\'', '"') == encoded;
      if |fields| > 1 {
        var rtail := ReprFields(parent, fields[1..]);
        assert ReprFields(parent, fields) == head + ", " + rtail;
        ReplaceAround(head, ", ", rtail);
        ReprFieldsAsJson(parent, fields[1..]);
        assert EncodeFields(parent, fields) == encoded + ", " + EncodeFields(parent, fields[1..]);
      }
    }
  }

  /** Printable text without quote or backslash is written as it is. */
  lemma {:induction false} ReprCharsPlain(s: string, q: char)
    requires forall i :: 0 <= i < |s| ==> s[i] >= ' ' && s[i] != q && s[i] != '\\' && s[i] != Del
    ensures ReprChars(s, q) == s
  {
    if s != [] {
      ReprCharsPlain(s[1..], q);
      assert s == [s[0]] + s[1..];
    }
  }

  lemma {:induction false} EncodeCharsPlain(s: string)
    requires forall i :: 0 <= i < |s| ==> s[i] >= ' ' && s[i] != '"' && s[i] != '\\'
    ensures EncodeChars(s) == s
  {
    if s != [] {
      EncodeCharsPlain(s[1..]);
      assert s == [s[0]] + s[1..];
    }
  }

  /** Values with no list and no `]` inside any string, key or value. */
  predicate BracketFree(j: Json)
    decreases j
  {
    match j
    case JStr(s) => ']' !in s
    case JArr(_) => false
    case JObj(fields) => forall i :: 0 <= i < |fields| ==> ']' !in fields[i].0 && BracketFree(fields[i].1)
    case _ => true
  }

  lemma {:induction false} ReprCharsNoBracket(s: string, q: char)
    requires ']' !in s && q != ']'
    ensures ']' !in ReprChars(s, q)
  {
    if s != [] {
      assert s[0] != ']';
      ReprCharsNoBracket(s[1..], q);
    }
  }

  lemma ReprStrNoBracket(s: string)
    requires ']' !in s
    ensures ']' !in ReprStr(s)
  {
    ReprCharsNoBracket(s, QuoteFor(s));
  }

  /** Without lists and without `]` in its strings, `repr` writes no `]`. */
  lemma {:induction false} ReprNoBracket(j: Json)
    requires BracketFree(j)
    ensures ']' !in Repr(j)
    decreases j, 1
  {
    match j
    case JNull =>
    case JBool(_) =>
    case JInt(i) =>
    case JStr(s) => ReprStrNoBracket(s);
    case JObj(fields) => ReprFieldsNoBracket(j, fields);
  }

  lemma {:induction false} ReprFieldsNoBracket(parent: Json, fields: seq<(string, Json)>)
    requires forall f | f in fields :: f.1 < parent
    requires forall i :: 0 <= i < |fields| ==> ']' !in fields[i].0 && BracketFree(fields[i].1)
    ensures ']' !in ReprFields(parent, fields)
    decreases parent, 0, |fields|
  {
    if fields != [] {
      assert fields[0] in fields;
      ReprStrNoBracket(fields[0].0);
      ReprNoBracket(fields[0].1);
      if |fields| > 1 {
        ReprFieldsNoBracket(parent, fields[1..]);
      }
    }
  }

  /** Every value `repr` and the JSON writer agree on can also be read back by the parser. */
  lemma {:induction false} JsonLikeEncodable(j: Json)
    requires JsonLike(j)
    ensures Encodable(j)
    decreases j
  {
    match j
    case JStr(s) =>
    case JInt(_) =>
    case JArr(items) =>
      forall i | 0 <= i < |items| ensures Encodable(items[i]) {
        JsonLikeEncodable(items[i]);
      }
    case JObj(fields) =>
      forall i | 0 <= i < |fields| ensures EncodableStr(fields[i].0) && Encodable(fields[i].1) {
        JsonLikeEncodable(fields[i].1);
      }
  }
}
