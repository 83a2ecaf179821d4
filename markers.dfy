/**
  The tool-call marker protocol. Each vendor adapter writes a tool invocation
  into its reply text as `[Tool call: <name> with args <args>]`; the client
  finds the markers with the pattern `\[Tool call: ([\w\-]+) with args (.+?)\]`
  (all non-overlapping matches, left to right) and reads each argument text as
  JSON after turning every `'` into `"`, falling back to `{}`.
 */
module Markers {
  import opened Wrappers
  import opened Text
  import opened Json
  import opened JsonParser
  import opened JsonEncoder
  import opened PyRepr

  const Open: string := "[Tool call: "
  const Sep: string := " with args "

  /** The text an adapter writes for one tool invocation. */
  function Marker(name: string, args: string): string {
    Open + name + Sep + args + "]"
  }

  /** `[\w\-]` over ASCII: letters, digits, `_` and `-`. */
  predicate IsNameChar(c: char) {
    'a' <= c <= 'z' || 'A' <= c <= 'Z' || '0' <= c <= '9' || c == '_' || c == '-'
  }

  predicate ValidName(name: string) {
    name != [] && forall i :: 0 <= i < |name| ==> IsNameChar(name[i])
  }

  /**
    What `(.+?)\]` can capture: at least one character, no line break (`.`
    does not match one), and no `]` after the first character (the lazy group
    stops at the first `]` it is allowed to).
   */
  predicate ValidArgs(args: string) {
    args != [] && '\n' !in args && forall i :: 1 <= i < |args| ==> args[i] != ']'
  }

  /** Length of the run of name characters `s` starts with (`[\w\-]+` is greedy). */
  function NameRun(s: string): (k: nat)
    ensures k <= |s|
    ensures forall i :: 0 <= i < k ==> IsNameChar(s[i])
    ensures k < |s| ==> !IsNameChar(s[k])
  {
    if s != [] && IsNameChar(s[0]) then 1 + NameRun(s[1..]) else 0
  }

  /** Where the lazy `(.+?)\]`, having consumed `s[..i]` with `i >= 1`, finds its `]`. */
  function ArgsFrom(s: string, i: nat): (r: Option<nat>)
    requires 1 <= i <= |s|
    requires '\n' !in s[..i] && forall p :: 1 <= p < i ==> s[p] != ']'
    ensures r.Some? ==> i <= r.value < |s| && s[r.value] == ']' && ValidArgs(s[..r.value])
    decreases |s| - i
  {
    if i == |s| then None
    else if s[i] == ']' then Some(i)
    else if s[i] == '\n' then None
    else
      assert s[..i + 1] == s[..i] + [s[i]];
      ArgsFrom(s, i + 1)
  }

  /** Where the argument text at the start of `s` ends, if `(.+?)\]` matches there. */
  function ArgsEnd(s: string): (r: Option<nat>)
    ensures r.Some? ==> 1 <= r.value < |s| && s[r.value] == ']' && ValidArgs(s[..r.value])
  {
    if s == [] || s[0] == '\n' then None
    else
      assert s[..1] == [s[0]];
      ArgsFrom(s, 1)
  }

  /**
    The match of the pattern at the start of `s`: the captured name and
    argument text, and the length of the matched marker.
   */
  function MatchAt(s: string): (r: Option<(string, string, nat)>)
    ensures r.Some? ==>
      var (name, args, len) := r.value;
      0 < len <= |s| && s[..len] == Marker(name, args) && ValidName(name) && ValidArgs(args)
  {
    if !StartsWith(s, Open) then None
    else
      var t := s[|Open|..];
      var n := NameRun(t);
      if n == 0 || !StartsWith(t[n..], Sep) then None
      else
        var u := t[n + |Sep|..];
        match ArgsEnd(u)
        case None => None
        case Some(e) =>
          MatchAtShape(s, n, e);
          Some((t[..n], u[..e], |Open| + n + |Sep| + e + 1))
  }

  lemma TakeConcat<T>(x: seq<T>, y: seq<T>, k: nat)
    requires |x| <= k <= |x| + |y|
    ensures (x + y)[..k] == x + y[..k - |x|]
  {
  }

  /** The matched prefix of `s` is the marker of the captured name and argument text. */
  lemma MatchAtShape(s: string, n: nat, e: nat)
    requires StartsWith(s, Open) && n <= |s| - |Open|
    requires StartsWith(s[|Open|..][n..], Sep)
    requires e < |s[|Open|..][n + |Sep|..]| && s[|Open|..][n + |Sep|..][e] == ']'
    ensures |Open| + n + |Sep| + e + 1 <= |s|
    ensures s[..|Open| + n + |Sep| + e + 1] == Marker(s[|Open|..][..n], s[|Open|..][n + |Sep|..][..e])
  {
    var t := s[|Open|..];
    var u := t[n + |Sep|..];
    var name := t[..n];
    var args := u[..e];
    assert s == Open + t;
    assert t == name + (Sep + u) by {
      assert t[n..] == Sep + u;
    }
    assert u[..e + 1] == args + "]";
    var len := |Open| + n + |Sep| + e + 1;
    TakeConcat(Open, t, len);
    TakeConcat(name, Sep + u, len - |Open|);
    TakeConcat(Sep, u, len - |Open| - n);
    assert s[..len] == Open + (name + (Sep + (args + "]")));
    AppendAssoc(Sep, args, "]");
    AppendAssoc(name, Sep + args, "]");
    AppendAssoc(name, Sep, args);
    AppendAssoc(Open, name + Sep + args, "]");
    AppendAssoc(Open, name + Sep, args);
    AppendAssoc(Open, name, Sep);
  }

  /**
    `findall`: every non-overlapping match, left to right, as (name, args)
    pairs; after a match the search resumes where the marker ends.
   */
  function Scan(s: string): (r: seq<(string, string)>)
    ensures forall i :: 0 <= i < |r| ==> ValidName(r[i].0) && ValidArgs(r[i].1)
    decreases |s|
  {
    if s == [] then []
    else match MatchAt(s)
      case Some((name, args, len)) => [(name, args)] + Scan(s[len..])
      case None => Scan(s[1..])
  }

  /** `json.loads(args.replace("'", '"'))`, or `{}` when that fails. */
  function ParseArgs(args: string): Json {
    match ParseJson(ReplaceChar(args, '\'', '"'))
    case Some(v) => v
    case None => JObj([])
  }

  lemma {:induction false} NameRunOf(name: string, x: string)
    requires forall i :: 0 <= i < |name| ==> IsNameChar(name[i])
    requires x != [] && !IsNameChar(x[0])
    ensures NameRun(name + x) == |name|
  {
    if name != [] {
      assert (name + x)[1..] == name[1..] + x;
      NameRunOf(name[1..], x);
    } else {
      assert name + x == x;
    }
  }

  lemma {:induction false} ArgsFromOf(args: string, rest: string, i: nat)
    requires ValidArgs(args) && 1 <= i <= |args|
    ensures var s := args + "]" + rest;
      '\n' !in s[..i] && (forall p :: 1 <= p < i ==> s[p] != ']') && ArgsFrom(s, i) == Some(|args|)
    decreases |args| - i
  {
    var s := args + "]" + rest;
    assert s[..i] == args[..i];
    assert '\n' !in args[..i] by {
      assert forall c | c in args[..i] :: c in args;
    }
    if i < |args| {
      ArgsFromOf(args, rest, i + 1);
    }
  }

  /** A marker with a valid name and argument text is matched exactly, whatever follows it. */
  lemma MatchAtMarker(name: string, args: string, rest: string)
    requires ValidName(name) && ValidArgs(args)
    ensures MatchAt(Marker(name, args) + rest) == Some((name, args, |Marker(name, args)|))
  {
    var s := Marker(name, args) + rest;
    var u := args + "]" + rest;
    var t := name + (Sep + u);
    AppendAssoc(args, "]", rest);
    AppendAssoc(Sep, args + "]", rest);
    AppendAssoc(Sep, args, "]");
    AppendAssoc(name, Sep + args + "]", rest);
    AppendAssoc(name, Sep + args, "]");
    AppendAssoc(name, Sep, args);
    AppendAssoc(Open, name + Sep + args + "]", rest);
    AppendAssoc(Open, name + Sep + args, "]");
    AppendAssoc(Open, name + Sep, args);
    AppendAssoc(Open, name, Sep);
    assert s == Open + t;
    assert s[..|Open|] == Open && s[|Open|..] == t;
    NameRunOf(name, Sep + u);
    assert t[..|name|] == name && t[|name|..] == Sep + u;
    assert (Sep + u)[..|Sep|] == Sep && (Sep + u)[|Sep|..] == u;
    assert t[|name| + |Sep|..] == u;
    ArgsFromOf(args, rest, 1);
    assert u[..|args|] == args;
    assert u[..1] == [u[0]];
    assert ArgsEnd(u) == Some(|args|);
  }

  /** The pattern matches at the start of `s` exactly when `s` starts with a well-formed marker. */
  lemma MatchAtIff(s: string, name: string, args: string)
    ensures (MatchAt(s).Some? && MatchAt(s).value.0 == name && MatchAt(s).value.1 == args) <==>
      (ValidName(name) && ValidArgs(args) && StartsWith(s, Marker(name, args)))
  {
    if ValidName(name) && ValidArgs(args) && StartsWith(s, Marker(name, args)) {
      var m := Marker(name, args);
      assert s == m + s[|m|..];
      MatchAtMarker(name, args, s[|m|..]);
    }
  }

  /** An adapter's marker is found, and the search continues right after it. */
  lemma ScanMarker(name: string, args: string, rest: string)
    requires ValidName(name) && ValidArgs(args)
    ensures Scan(Marker(name, args) + rest) == [(name, args)] + Scan(rest)
  {
    MatchAtMarker(name, args, rest);
    var m := Marker(name, args);
    assert (m + rest)[|m|..] == rest;
  }

  lemma NoMatchWithoutBracket(s: string)
    requires s != [] && s[0] != '['
    ensures MatchAt(s) == None
  {
  }

  lemma ScanSkip(s: string)
    requires s != [] && MatchAt(s) == None
    ensures Scan(s) == Scan(s[1..])
  {
  }

  /** Text without `[` holds no marker and does not disturb what follows it. */
  lemma {:induction false} ScanProse(p: string, rest: string)
    requires '[' !in p
    ensures Scan(p + rest) == Scan(rest)
  {
    if p != [] {
      var s := p + rest;
      assert s[0] == p[0];
      NoMatchWithoutBracket(s);
      ScanSkip(s);
      assert s[1..] == p[1..] + rest;
      ScanProse(p[1..], rest);
    } else {
      assert p + rest == rest;
    }
  }

  /** One piece of an adapter's reply text: prose, or a rendered tool invocation. */
  datatype Piece = Prose(text: string) | Invocation(name: string, args: string)

  function Render(p: Piece): string {
    match p
    case Prose(text) => text
    case Invocation(name, args) => Marker(name, args)
  }

  function RenderAll(ps: seq<Piece>): (r: seq<string>)
    ensures |r| == |ps|
    ensures forall i :: 0 <= i < |ps| ==> r[i] == Render(ps[i])
  {
    if ps == [] then [] else [Render(ps[0])] + RenderAll(ps[1..])
  }

  /** The invocations among the pieces, in order. */
  function Invocations(ps: seq<Piece>): seq<(string, string)> {
    if ps == [] then []
    else if ps[0].Invocation? then [(ps[0].name, ps[0].args)] + Invocations(ps[1..])
    else Invocations(ps[1..])
  }

  /** The calls the client makes for a text: each match's name with its parsed arguments, in order. */
  function ToolCalls(text: string): (r: seq<(string, Json)>)
    ensures |r| == |Scan(text)|
    ensures forall i :: 0 <= i < |r| ==> r[i] == (Scan(text)[i].0, ParseArgs(Scan(text)[i].1))
  {
    var ms := Scan(text);
    seq(|ms|, i requires 0 <= i < |ms| => (ms[i].0, ParseArgs(ms[i].1)))
  }

  lemma {:induction false} InvocationsConcat(a: seq<Piece>, b: seq<Piece>)
    ensures Invocations(a + b) == Invocations(a) + Invocations(b)
    decreases |a|
  {
    if a != [] {
      var head: seq<(string, string)> := if a[0].Invocation? then [(a[0].name, a[0].args)] else [];
      assert (a + b)[0] == a[0];
      assert (a + b)[1..] == a[1..] + b;
      assert Invocations(a + b) == head + Invocations(a[1..] + b);
      assert Invocations(a) == head + Invocations(a[1..]);
      InvocationsConcat(a[1..], b);
      AppendAssoc(head, Invocations(a[1..]), Invocations(b));
    } else {
      assert a + b == b;
    }
  }

  lemma {:induction false} InvocationsAll(ps: seq<Piece>)
    requires forall i :: 0 <= i < |ps| ==> ps[i].Invocation?
    ensures |Invocations(ps)| == |ps|
    ensures forall i :: 0 <= i < |ps| ==> Invocations(ps)[i] == (ps[i].name, ps[i].args)
  {
    if ps != [] {
      InvocationsAll(ps[1..]);
    }
  }

  lemma RenderAllConcat(a: seq<Piece>, b: seq<Piece>)
    ensures RenderAll(a + b) == RenderAll(a) + RenderAll(b)
  {
  }

  /** Prose without `[`, invocations the pattern can capture. */
  predicate Clean(p: Piece) {
    match p
    case Prose(text) => '[' !in text
    case Invocation(name, args) => ValidName(name) && ValidArgs(args)
  }

  lemma ScanPiece(p: Piece, rest: string)
    requires Clean(p)
    ensures Scan(Render(p) + rest) == Invocations([p]) + Scan(rest)
  {
    match p
    case Prose(text) => ScanProse(text, rest);
    case Invocation(name, args) => ScanMarker(name, args, rest);
  }

  /**
    Scanning an adapter's `"\n"`-joined reply recovers exactly its tool
    invocations, in order, when the prose holds no `[`.
   */
  lemma {:induction false} ScanJoined(ps: seq<Piece>)
    requires forall i :: 0 <= i < |ps| ==> Clean(ps[i])
    ensures Scan(Join(RenderAll(ps), "\n")) == Invocations(ps)
  {
    if ps == [] {
    } else {
      InvocationsHead(ps);
      if |ps| == 1 {
        ScanPiece(ps[0], "");
        assert Render(ps[0]) + "" == Render(ps[0]);
      } else {
        var tail := JoinedHead(ps);
        ScanPiece(ps[0], "\n" + tail);
        ScanProse("\n", tail);
        ScanJoined(ps[1..]);
      }
    }
  }

  lemma InvocationsHead(ps: seq<Piece>)
    requires ps != []
    ensures Invocations(ps) == Invocations([ps[0]]) + Invocations(ps[1..])
  {
    assert [ps[0]][1..] == [];
    assert Invocations([ps[0]]) == if ps[0].Invocation? then [(ps[0].name, ps[0].args)] else [];
  }

  /** The joined text is the first piece, a newline, and the joined rest. */
  lemma JoinedHead(ps: seq<Piece>) returns (tail: string)
    requires |ps| >= 2
    ensures tail == Join(RenderAll(ps[1..]), "\n")
    ensures Join(RenderAll(ps), "\n") == Render(ps[0]) + ("\n" + tail)
  {
    tail := Join(RenderAll(ps[1..]), "\n");
    assert RenderAll(ps)[1..] == RenderAll(ps[1..]);
    AppendAssoc(Render(ps[0]), "\n", tail);
  }

  lemma InvocationsAfterProse(prose: string, ps: seq<Piece>)
    ensures Invocations([Prose(prose)] + ps) == Invocations(ps)
  {
    assert ([Prose(prose)] + ps)[1..] == ps;
  }

  lemma CleanAfterProse(prose: string, ps: seq<Piece>)
    requires '[' !in prose && forall i :: 0 <= i < |ps| ==> Clean(ps[i])
    ensures forall i :: 0 <= i < |[Prose(prose)] + ps| ==> Clean(([Prose(prose)] + ps)[i])
  {
    var all := [Prose(prose)] + ps;
    forall i | 0 <= i < |all| ensures Clean(all[i]) {
      if i > 0 { assert all[i] == ps[i - 1]; }
    }
  }

  /** A leading prose piece without `[` contributes no invocation. */
  lemma ScanAfterProse(prose: string, ps: seq<Piece>)
    requires '[' !in prose && forall i :: 0 <= i < |ps| ==> Clean(ps[i])
    ensures Scan(Join(RenderAll([Prose(prose)] + ps), "\n")) == Invocations(ps)
  {
    CleanAfterProse(prose, ps);
    ScanJoined([Prose(prose)] + ps);
    InvocationsAfterProse(prose, ps);
  }

  /**
    A marker written with `repr` of a value without lists or `]` is matched,
    and its argument text is the whole `repr`.
   */
  lemma ScanReprMarker(name: string, j: Json, rest: string)
    requires ValidName(name) && BracketFree(j)
    ensures ValidArgs(Repr(j))
    ensures Scan(Marker(name, Repr(j)) + rest) == [(name, Repr(j))] + Scan(rest)
  {
    ReprNoNewline(j);
    ReprNoBracket(j);
    ScanMarker(name, Repr(j), rest);
  }

  /** Argument text that is `repr` of a JSON-like value reads back as that value. */
  lemma ParseArgsRepr(j: Json)
    requires JsonLike(j)
    ensures ParseArgs(Repr(j)) == j
  {
    ReprAsJson(j);
    JsonLikeEncodable(j);
    ParseJsonEncode(j);
  }

  /**
    What the marker an adapter writes with `str(j)` needs for the pattern to
    capture all of it: a string is written unquoted, so it must itself be
    argument text; any other value is written with `repr`, which must hold no `]`.
   */
  predicate Markable(j: Json) {
    if j.JStr? then ValidArgs(j.s) else BracketFree(j)
  }

  /** A marker written with `str(j)` of a markable value is matched whole. */
  lemma ScanStrMarker(name: string, j: Json, rest: string)
    requires ValidName(name) && Markable(j)
    ensures ValidArgs(PyStr(j))
    ensures Scan(Marker(name, PyStr(j)) + rest) == [(name, PyStr(j))] + Scan(rest)
  {
    if j.JStr? {
      ScanMarker(name, j.s, rest);
    } else {
      ScanReprMarker(name, j, rest);
    }
  }

  /** Argument text that is `str` of a JSON-like value other than a string reads back as that value. */
  lemma ParseArgsStr(j: Json)
    requires JsonLike(j) && !j.JStr?
    ensures ParseArgs(PyStr(j)) == j
  {
    ParseArgsRepr(j);
  }

  /**
    A string argument is written without quotes, so the tool receives the
    parse of the string's own text, or `{}`.
   */
  lemma StringArgsCalls(name: string, s: string)
    requires ValidName(name) && ValidArgs(s)
    ensures ToolCalls(Marker(name, PyStr(JStr(s)))) == [(name, ParseArgs(s))]
  {
    ScanMarker(name, s, "");
    assert Marker(name, s) + "" == Marker(name, s);
  }

  /** A string argument never reaches the tool as that string. */
  lemma StringArgsNeverKept(s: string)
    ensures ParseArgs(PyStr(JStr(s))) != JStr(s)
  {
    var x := ReplaceChar(s, '\'', '"');
    var parsed := ParseJson(x);
    if parsed.Some? && parsed.value.JStr? {
      var u := SkipWs(x);
      StringValueShorter(u);
      assert |parsed.value.s| < |u| <= |x| == |s|;
    }
  }

  /** A string value is read from a quoted literal longer than its contents. */
  lemma StringValueShorter(u: string)
    requires ParseValue(u).Some? && ParseValue(u).value.0.JStr?
    ensures |ParseValue(u).value.0.s| < |u|
  {
  }

  /** The string `hi` as an argument: the marker reads `with args hi`, and the tool receives `{}`. */
  lemma BareWordLost()
    ensures ParseArgs(PyStr(JStr("hi"))) == JObj([])
  {
    assert ReplaceChar("hi", '\'', '"') == "hi";
    assert ParseValue("hi") == None;
  }

  /**
    The capture ends at the first `]` of the argument text: a value whose
    `repr` holds a `]` (a list, say) reaches the tool cut short.
   */
  lemma ArgsCutAtBracket(name: string, a: string, b: string)
    requires ValidName(name) && ValidArgs(a)
    ensures Scan(Marker(name, a + "]" + b)) == [(name, a)] + Scan(b + "]")
  {
    MarkerRegroup(name, a, b);
    ScanMarker(name, a, b + "]");
  }

  lemma MarkerRegroup(name: string, a: string, b: string)
    ensures Marker(name, a + "]" + b) == Marker(name, a) + (b + "]")
  {
    var p := Open + name + Sep;
    assert Marker(name, a + "]" + b) == p + (a + "]" + b) + "]";
    assert Marker(name, a) + (b + "]") == p + a + "]" + (b + "]");
  }

  /** Text starting with `T` or `F` (Python's `True`, `False`) is no JSON value. */
  lemma PythonBoolUnparsed(x: string)
    requires x != [] && (x[0] == 'T' || x[0] == 'F')
    ensures ParseValue(x) == None
  {
  }

  /**
    A dict whose first entry holds a bool reaches the tool as `{}`: `repr`
    writes `True`/`False`, which the JSON reader refuses.
   */
  lemma BoolArgsLost(k: string, b: bool, more: seq<(string, Json)>)
    requires JsonLikeStr(k)
    ensures ParseArgs(Repr(JObj([(k, JBool(b))] + more))) == JObj([])
  {
    var w := BoolArgsText(k, b, more);
    var s := "{" + EncodeStr(k) + w;
    AfterKeyUnparsed(k, w);
    assert s[1..] == EncodeStr(k) + w;
    assert (EncodeStr(k) + w)[0] == '"';
    assert ParseObject(s[1..]) == None;
    assert SkipWs(s) == s;
    assert ParseValue(s) == None;
  }

  /** The quote-replaced `repr` of such a dict: `{`, the key in JSON, then `: True` or `: False` and the rest. */
  lemma BoolArgsText(k: string, b: bool, more: seq<(string, Json)>) returns (w: string)
    requires JsonLikeStr(k)
    ensures |w| > 2 && w[0] == ':' && w[1] == ' ' && (w[2] == 'T' || w[2] == 'F')
    ensures ReplaceChar(Repr(JObj([(k, JBool(b))] + more)), '\'', '"') == "{" + EncodeStr(k) + w
  {
    var after := BoolArgsRepr(k, b, more);
    var j := JObj([(k, JBool(b))] + more);
    ReplaceCharConcat("{" + ReprStr(k), after, '\'', '"');
    ReplaceCharConcat("{", ReprStr(k), '\'', '"');
    ReprStrAsJson(k);
    w := ReplaceChar(after, '\'', '"');
  }

  lemma BoolArgsRepr(k: string, b: bool, more: seq<(string, Json)>) returns (after: string)
    ensures |after| > 2 && after[0] == ':' && after[1] == ' ' && (after[2] == 'T' || after[2] == 'F')
    ensures Repr(JObj([(k, JBool(b))] + more)) == "{" + ReprStr(k) + after
  {
    var j := JObj([(k, JBool(b))] + more);
    var lit := if b then "True" else "False";
    FirstFieldRepr(j, k, b, more);
    var tailR := if more == [] then "" else ", " + ReprFields(j, more);
    after := ": " + lit + tailR + "}";
    assert (": " + lit)[2] == lit[0];
    BraceRegroup(ReprStr(k), lit, tailR);
  }

  lemma FirstFieldRepr(j: Json, k: string, b: bool, more: seq<(string, Json)>)
    requires j == JObj([(k, JBool(b))] + more)
    ensures forall f | f in more :: f.1 < j
    ensures ReprFields(j, j.fields)
         == ReprStr(k) + ": " + (if b then "True" else "False")
            + (if more == [] then "" else ", " + ReprFields(j, more))
  {
    var fs := j.fields;
    forall f | f in more ensures f.1 < j {
      assert f in fs;
    }
    assert fs[0] == (k, JBool(b));
    assert Repr(JBool(b)) == if b then "True" else "False";
    if more != [] {
      assert fs[1..] == more;
    }
  }

  lemma BraceRegroup(rk: string, lit: string, tailR: string)
    ensures "{" + (rk + ": " + lit + tailR) + "}" == "{" + rk + (": " + lit + tailR + "}")
  {
  }

  lemma AfterKeyUnparsed(k: string, w: string)
    requires EncodableStr(k)
    requires |w| > 2 && w[0] == ':' && w[1] == ' ' && (w[2] == 'T' || w[2] == 'F')
    ensures SkipWs(EncodeStr(k) + w) == EncodeStr(k) + w
    ensures ParseMembers(EncodeStr(k) + w) == None
  {
    KeyText(k, w);
    ParseStringEncoded(k, w);
    SkipWsNone(w);
    assert w[1..][1..] == w[2..];
    SkipWsNone(w[2..]);
    PythonBoolUnparsed(w[2..]);
  }
}
