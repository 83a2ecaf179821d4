/**
  The Gemini adapter: it converts the catalog into function declarations,
  filters the transcript into the chat history, and folds the parts of the
  first candidate of the reply into one `"\n"`-joined text in which each
  function call becomes a marker.
 */
module GeminiAdapter {
  import opened Wrappers
  import opened Text
  import opened Json
  import opened JsonParser
  import opened PyRepr
  import opened Markers
  import opened Llm

  // ---------------------------------------------------------------------
  // Tool conversion

  /** A converted property: its Gemini type and, when the source has one, its description. */
  datatype PropertySchema = PropertySchema(typ: string, description: Option<Json>)

  datatype Parameters = Parameters(typ: string, properties: Dict<PropertySchema>, required: Json)

  /** One entry of `function_declarations`. */
  datatype Declaration = Declaration(name: string, description: Option<string>, parameters: Parameters)

  const TypeMapping: map<string, string> :=
    map["number" := "NUMBER", "integer" := "INTEGER", "boolean" := "BOOLEAN",
        "array" := "ARRAY", "object" := "OBJECT"]

  predicate GeminiType(t: string) {
    t in {"NUMBER", "INTEGER", "BOOLEAN", "ARRAY", "OBJECT", "STRING"}
  }

  /** `type_mapping.get(t.upper().lower(), "STRING")` */
  function MapType(t: string): (r: string)
    ensures GeminiType(r)
  {
    var k := Lower(Upper(t));
    if k in TypeMapping then TypeMapping[k] else "STRING"
  }

  /** The mapping ignores letter case: only the lowercase spelling of the name matters. */
  lemma MapTypeCaseInsensitive(t: string, u: string)
    requires Lower(t) == Lower(u)
    ensures MapType(t) == MapType(u)
  {
    LowerOfUpper(t);
    LowerOfUpper(u);
  }

  /** The five JSON Schema type names map to their upper-case Gemini names, and every other name to `STRING`. */
  lemma MapTypeCases(t: string)
    ensures Lower(t) == "number" ==> MapType(t) == "NUMBER"
    ensures Lower(t) == "integer" ==> MapType(t) == "INTEGER"
    ensures Lower(t) == "boolean" ==> MapType(t) == "BOOLEAN"
    ensures Lower(t) == "array" ==> MapType(t) == "ARRAY"
    ensures Lower(t) == "object" ==> MapType(t) == "OBJECT"
    ensures Lower(t) !in {"number", "integer", "boolean", "array", "object"} ==> MapType(t) == "STRING"
  {
    LowerOfUpper(t);
  }

  /** The `AttributeError` text Python gives for `v.attr` on a value lacking it. */
  function NoAttribute(v: Json, attr: string): string {
    "'" + TypeName(v) + "' object has no attribute '" + attr + "'"
  }

  /** One property of `schema["properties"]`, converted. */
  function PropertyOf(details: Json): (r: Result<PropertySchema, string>)
    ensures !details.JObj? ==> r == Err(NoAttribute(details, "get"))
  {
    match details
    case JObj(fields) =>
      var t := Get(fields, "type").GetOr(JStr("STRING"));
      if !t.JStr? then Err(NoAttribute(t, "upper"))
      else Ok(PropertySchema(MapType(t.s), Get(fields, "description")))
    case _ => Err(NoAttribute(details, "get"))
  }

  /**
    A converted property has a Gemini type, the type of a missing `type` is
    `STRING`, and the description is the source's when it has one; every
    other key is dropped.
   */
  lemma PropertyOfFields(fields: Dict<Json>)
    requires PropertyOf(JObj(fields)).Ok?
    ensures var p := PropertyOf(JObj(fields)).value;
      GeminiType(p.typ)
      && (Get(fields, "type").None? ==> p.typ == "STRING")
      && (Get(fields, "type").Some? ==> p.typ == MapType(Get(fields, "type").value.s))
      && p.description == Get(fields, "description")
  {
    var t := Get(fields, "type").GetOr(JStr("STRING"));
    assert PropertyOf(JObj(fields)) == Ok(PropertySchema(MapType(t.s), Get(fields, "description")));
    if Get(fields, "type").None? {
      DefaultType();
    }
  }

  lemma DefaultType()
    ensures MapType("STRING") == "STRING"
  {
    assert Lower(Upper("STRING")) == "string";
  }

  /**
    The entries converted in order, each assigned into the result under its
    key; the first entry that fails to convert ends the loop.
   */
  function ConvertEach<V>(entries: Dict<Json>, convert: Json -> Result<V, string>): Result<Dict<V>, string> {
    if entries == [] then Ok([])
    else
      var last := entries[|entries| - 1];
      match ConvertEach(entries[..|entries| - 1], convert)
      case Err(e) => Err(e)
      case Ok(acc) =>
        match convert(last.1)
        case Err(e) => Err(e)
        case Ok(p) => Ok(Assign(acc, last.0, p))
  }

  /** The declaration's `properties`: every property of the schema, converted. */
  function PropertiesOf(entries: Dict<Json>): Result<Dict<PropertySchema>, string> {
    ConvertEach(entries, PropertyOf)
  }

  lemma UniqueInit<V>(d: Dict<V>)
    requires d != [] && UniqueKeys(d)
    ensures UniqueKeys(d[..|d| - 1]) && d[|d| - 1].0 !in Keys(d[..|d| - 1])
  {
    var init := d[..|d| - 1];
    forall i, j | 0 <= i < j < |init| ensures init[i].0 != init[j].0 {
      assert init[i] == d[i] && init[j] == d[j];
    }
    forall i | 0 <= i < |init| ensures Keys(init)[i] != d[|d| - 1].0 {
      assert init[i] == d[i];
    }
  }

  /** The converted entries carry the source's keys, in order. */
  lemma {:induction false} ConvertEachKeys<V>(entries: Dict<Json>, convert: Json -> Result<V, string>)
    requires UniqueKeys(entries) && ConvertEach(entries, convert).Ok?
    ensures Keys(ConvertEach(entries, convert).value) == Keys(entries)
  {
    if entries != [] {
      var init := entries[..|entries| - 1];
      var last := entries[|entries| - 1];
      UniqueInit(entries);
      ConvertEachKeys(init, convert);
      var acc := ConvertEach(init, convert).value;
      AssignKeys(acc, last.0, convert(last.1).value);
      assert entries == init + [last];
      assert Keys(entries) == Keys(init) + [last.0];
    }
  }

  /** Conversion fails exactly when some entry fails to convert. */
  lemma {:induction false} ConvertEachOk<V>(entries: Dict<Json>, convert: Json -> Result<V, string>)
    ensures ConvertEach(entries, convert).Ok? <==> forall i :: 0 <= i < |entries| ==> convert(entries[i].1).Ok?
  {
    if entries != [] {
      var init := entries[..|entries| - 1];
      ConvertEachOk(init, convert);
      assert forall i :: 0 <= i < |init| ==> init[i] == entries[i];
    }
  }

  /** Every key maps to its converted value, and no other key is present. */
  lemma {:induction false} ConvertEachGet<V>(entries: Dict<Json>, convert: Json -> Result<V, string>, k: string)
    requires UniqueKeys(entries) && ConvertEach(entries, convert).Ok?
    ensures match Get(entries, k)
            case None => Get(ConvertEach(entries, convert).value, k).None?
            case Some(d) => convert(d).Ok? && Get(ConvertEach(entries, convert).value, k) == Some(convert(d).value)
  {
    if entries != [] {
      var init := entries[..|entries| - 1];
      var last := entries[|entries| - 1];
      UniqueInit(entries);
      assert entries == init + [last];
      GetSnoc(init, last, k);
      var acc := ConvertEach(init, convert).value;
      var p := convert(last.1).value;
      assert ConvertEach(entries, convert).value == Assign(acc, last.0, p);
      AssignGet(acc, last.0, p, k);
      if k != last.0 {
        ConvertEachGet(init, convert, k);
      }
    }
  }

  /** A lookup in a dict extended by a new last key. */
  lemma {:induction false} GetSnoc<V>(d: Dict<V>, last: (string, V), k: string)
    requires last.0 !in Keys(d) || k != last.0
    ensures Get(d + [last], k) == if k == last.0 then Some(last.1) else Get(d, k)
  {
    if d != [] {
      assert (d + [last])[1..] == d[1..] + [last];
      GetSnoc(d[1..], last, k);
    } else {
      assert [last][1..] == [];
    }
  }

  function EmptyParameters(): Parameters {
    Parameters("OBJECT", [], JArr([]))
  }

  /** One tool, converted. */
  function DeclarationOf(t: ToolSpec): (r: Result<Declaration, string>)
    ensures r.Ok? ==> r.value.name == t.name && r.value.description == t.description
    ensures r.Ok? ==> r.value.parameters.typ == "OBJECT"
  {
    var schema := t.inputSchema;
    if schema == [] then Ok(Declaration(t.name, t.description, EmptyParameters()))
    else
      var props := match Get(schema, "properties")
        case None => Ok([])
        case Some(pj) =>
          if pj.JObj? then PropertiesOf(pj.fields) else Err(NoAttribute(pj, "items"));
      match props
      case Err(e) => Err(e)
      case Ok(ps) => Ok(Declaration(t.name, t.description, Parameters("OBJECT", ps, Get(schema, "required").GetOr(JArr([])))))
  }

  /** Without a schema (or with an empty one) the parameters are an empty object with nothing required. */
  lemma DeclarationWithoutSchema(t: ToolSpec)
    requires t.inputSchema == [] || (Get(t.inputSchema, "properties").None? && Get(t.inputSchema, "required").None?)
    ensures DeclarationOf(t) == Ok(Declaration(t.name, t.description, EmptyParameters()))
  {
  }

  /** `required` is copied verbatim when the schema has it. */
  lemma DeclarationRequired(t: ToolSpec)
    requires t.inputSchema != [] && DeclarationOf(t).Ok?
    ensures DeclarationOf(t).value.parameters.required == Get(t.inputSchema, "required").GetOr(JArr([]))
  {
  }

  /** A `properties` value that is not an object raises Python's `AttributeError` on `.items()`. */
  lemma DeclarationBadProperties(t: ToolSpec)
    requires t.inputSchema != [] && Get(t.inputSchema, "properties").Some?
    requires !Get(t.inputSchema, "properties").value.JObj?
    ensures DeclarationOf(t) == Err(NoAttribute(Get(t.inputSchema, "properties").value, "items"))
  {
  }

  /** Each element converted in order; the first failure ends the loop. */
  function ConvertAll<T, U>(xs: seq<T>, convert: T -> Result<U, string>): Result<seq<U>, string> {
    if xs == [] then Ok([])
    else
      match ConvertAll(xs[..|xs| - 1], convert)
      case Err(e) => Err(e)
      case Ok(ys) =>
        match convert(xs[|xs| - 1])
        case Err(e) => Err(e)
        case Ok(y) => Ok(ys + [y])
  }

  /** The whole catalog, converted; the first failing tool ends the conversion. */
  function DeclarationsOf(tools: seq<ToolSpec>): Result<seq<Declaration>, string> {
    ConvertAll(tools, DeclarationOf)
  }

  /** One result per element, in the same order, or the failure of an element that does not convert. */
  lemma {:induction false} ConvertAllOk<T, U>(xs: seq<T>, convert: T -> Result<U, string>)
    ensures ConvertAll(xs, convert).Ok? <==> forall i :: 0 <= i < |xs| ==> convert(xs[i]).Ok?
    ensures ConvertAll(xs, convert).Ok? ==>
      |ConvertAll(xs, convert).value| == |xs|
      && forall i :: 0 <= i < |xs| ==> ConvertAll(xs, convert).value[i] == convert(xs[i]).value
  {
    if xs != [] {
      var init := xs[..|xs| - 1];
      ConvertAllOk(init, convert);
      assert forall i :: 0 <= i < |init| ==> init[i] == xs[i];
    }
  }

  lemma ConvertAllStep<T, U>(xs: seq<T>, convert: T -> Result<U, string>, i: nat)
    requires i < |xs| && ConvertAll(xs[..i], convert).Ok?
    ensures ConvertAll(xs[..i + 1], convert)
         == match convert(xs[i])
            case Err(e) => Err(e)
            case Ok(y) => Ok(ConvertAll(xs[..i], convert).value + [y])
  {
    assert xs[..i + 1][..i] == xs[..i];
  }

  lemma ConvertEachStep<V>(entries: Dict<Json>, convert: Json -> Result<V, string>, j: nat)
    requires j < |entries| && ConvertEach(entries[..j], convert).Ok?
    ensures ConvertEach(entries[..j + 1], convert)
         == match convert(entries[j].1)
            case Err(e) => Err(e)
            case Ok(p) => Ok(Assign(ConvertEach(entries[..j], convert).value, entries[j].0, p))
  {
    assert entries[..j + 1][..j] == entries[..j];
  }

  lemma {:induction false} ConvertAllStopAtError<T, U>(xs: seq<T>, convert: T -> Result<U, string>, k: nat)
    requires k <= |xs| && ConvertAll(xs[..k], convert).Err?
    ensures ConvertAll(xs, convert) == ConvertAll(xs[..k], convert)
    decreases |xs|
  {
    if k < |xs| {
      var init := xs[..|xs| - 1];
      assert init[..k] == xs[..k];
      ConvertAllStopAtError(init, convert, k);
    } else {
      assert xs[..k] == xs;
    }
  }

  lemma {:induction false} ConvertEachStopAtError<V>(entries: Dict<Json>, convert: Json -> Result<V, string>, k: nat)
    requires k <= |entries| && ConvertEach(entries[..k], convert).Err?
    ensures ConvertEach(entries, convert) == ConvertEach(entries[..k], convert)
    decreases |entries|
  {
    if k < |entries| {
      var init := entries[..|entries| - 1];
      assert init[..k] == entries[..k];
      ConvertEachStopAtError(init, convert, k);
    } else {
      assert entries[..k] == entries;
    }
  }

  /** `_convert_tools_to_gemini_format`, or the `AttributeError` it raises. */
  method ConvertTools(tools: seq<ToolSpec>) returns (r: Result<seq<Declaration>, string>)
    ensures r == DeclarationsOf(tools)
  {
    var geminiTools: seq<Declaration> := [];
    var i := 0;
    while i < |tools|
      invariant 0 <= i <= |tools|
      invariant ConvertAll(tools[..i], DeclarationOf) == Ok(geminiTools)
    {
      ConvertAllStep(tools, DeclarationOf, i);
      var declaration := ConvertTool(tools[i]);
      if declaration.Err? {
        ConvertAllStopAtError(tools, DeclarationOf, i + 1);
        return Err(declaration.error);
      }
      geminiTools := geminiTools + [declaration.value];
      i := i + 1;
    }
    assert tools[..i] == tools;
    return Ok(geminiTools);
  }

  /** The body of the loop of `_convert_tools_to_gemini_format`: one tool. */
  method ConvertTool(tool: ToolSpec) returns (r: Result<Declaration, string>)
    ensures r == DeclarationOf(tool)
  {
    var parameters := EmptyParameters();
    if tool.inputSchema != [] {
      var schema := tool.inputSchema;
      var propsJson := Get(schema, "properties");
      if propsJson.Some? {
        if !propsJson.value.JObj? {
          return Err(NoAttribute(propsJson.value, "items"));
        }
        var entries := propsJson.value.fields;
        var properties: Dict<PropertySchema> := [];
        var j := 0;
        while j < |entries|
          invariant 0 <= j <= |entries|
          invariant ConvertEach(entries[..j], PropertyOf) == Ok(properties)
        {
          ConvertEachStep(entries, PropertyOf, j);
          var property := PropertyOf(entries[j].1);
          if property.Err? {
            ConvertEachStopAtError(entries, PropertyOf, j + 1);
            return Err(property.error);
          }
          properties := Assign(properties, entries[j].0, property.value);
          j := j + 1;
        }
        assert entries[..j] == entries;
        parameters := parameters.(properties := properties);
      }
      var required := Get(schema, "required");
      if required.Some? {
        parameters := parameters.(required := required.value);
      }
    }
    return Ok(Declaration(tool.name, tool.description, parameters));
  }

  // ---------------------------------------------------------------------
  // Chat history

  /** A chat history entry: a role and its text parts. */
  datatype HistoryEntry = HistoryEntry(role: string, parts: seq<string>)

  /** What one transcript entry contributes to the history. */
  function EntryOf(m: Message): seq<HistoryEntry> {
    if m.role == "user" && m.content.Str? then [HistoryEntry("user", [m.content.text])]
    else if m.role == "assistant" && m.content.Str? then [HistoryEntry("model", [m.content.text])]
    else []
  }

  function HistoryOf(ms: seq<Message>): seq<HistoryEntry> {
    if ms == [] then [] else HistoryOf(ms[..|ms| - 1]) + EntryOf(ms[|ms| - 1])
  }

  /** The history of two transcripts one after the other is their histories one after the other: order is kept. */
  lemma {:induction false} HistoryConcat(a: seq<Message>, b: seq<Message>)
    ensures HistoryOf(a + b) == HistoryOf(a) + HistoryOf(b)
    decreases |b|
  {
    if b == [] {
      assert a + b == a;
    } else {
      var bi := b[..|b| - 1];
      assert (a + b)[..|a + b| - 1] == a + bi;
      HistoryConcat(a, bi);
    }
  }

  /** The history is never longer than the transcript, and holds only user and model entries with one text part. */
  lemma {:induction false} HistoryShape(ms: seq<Message>)
    ensures |HistoryOf(ms)| <= |ms|
    ensures forall i :: 0 <= i < |HistoryOf(ms)| ==>
      HistoryOf(ms)[i].role in {"user", "model"} && |HistoryOf(ms)[i].parts| == 1
  {
    if ms != [] {
      HistoryShape(ms[..|ms| - 1]);
    }
  }

  /** Which entries are kept, and how. */
  lemma HistoryOfOne(m: Message)
    ensures HistoryOf([m]) == EntryOf(m)
    ensures HistoryOf([m]) != [] <==> m.content.Str? && (m.role == "user" || m.role == "assistant")
  {
    assert [m][..0] == [];
  }

  /** `_prepare_gemini_chat_history` */
  method PrepareHistory(previous: Option<seq<Message>>) returns (history: seq<HistoryEntry>)
    ensures history == HistoryOf(Previous(previous))
  {
    history := [];
    if previous.None? || previous.value == [] {
      return;
    }
    var ms := previous.value;
    var i := 0;
    while i < |ms|
      invariant 0 <= i <= |ms|
      invariant history == HistoryOf(ms[..i])
    {
      assert ms[..i + 1][..i] == ms[..i];
      var m := ms[i];
      if m.role == "user" && m.content.Str? {
        history := history + [HistoryEntry("user", [m.content.text])];
      } else if m.role == "assistant" && m.content.Str? {
        history := history + [HistoryEntry("model", [m.content.text])];
      }
      i := i + 1;
    }
    assert ms[..i] == ms;
  }

  // ---------------------------------------------------------------------
  // Function-call arguments

  /** Python's `str.isspace()` characters, which `strip()` removes. */
  predicate IsPyWhitespace(c: char) {
    ('\t' <= c <= '\r') || ('\U{1C}' <= c <= '\U{1F}') || c == ' ' || c == '\U{85}' || c == '\U{A0}'
    || c == '\U{1680}' || ('\U{2000}' <= c <= '\U{200A}') || c == '\U{2028}' || c == '\U{2029}'
    || c == '\U{202F}' || c == '\U{205F}' || c == '\U{3000}'
  }

  /** `not s.strip()` */
  predicate Blank(s: string) {
    forall i :: 0 <= i < |s| ==> IsPyWhitespace(s[i])
  }

  /** The arguments read from a non-mapping value: its string form parsed as JSON, or `{}`. */
  function StrArgs(s: string): Json {
    if Blank(s) then JObj([])
    else match ParseJson(s)
      case None => JObj([])
      case Some(v) => v
  }

  /** `_parse_gemini_function_args`, which never raises. */
  function FunctionArgs(args: Json): Json {
    if args.JObj? then JObj(BuildDict(args.fields)) else StrArgs(PyStr(args))
  }

  /** `_parse_gemini_function_args` */
  method ParseFunctionArgs(args: Json) returns (toolArgs: Json)
    ensures toolArgs == FunctionArgs(args)
  {
    toolArgs := JObj([]);
    if args.JObj? {
      var entries := args.fields;
      var copied: Dict<Json> := [];
      var i := 0;
      while i < |entries|
        invariant 0 <= i <= |entries|
        invariant copied == BuildDict(entries[..i])
      {
        assert entries[..i + 1][..i] == entries[..i];
        copied := Assign(copied, entries[i].0, entries[i].1);
        i := i + 1;
      }
      assert entries[..i] == entries;
      toolArgs := JObj(copied);
    } else {
      var argsStr := PyStr(args);
      if !Blank(argsStr) {
        var parsed := ParseJson(argsStr);
        if parsed.Some? {
          toolArgs := parsed.value;
        }
      }
    }
  }

  /** A mapping is copied key by key: the same mapping comes back. */
  lemma FunctionArgsOfMapping(fields: Dict<Json>)
    requires UniqueKeys(fields)
    ensures FunctionArgs(JObj(fields)) == JObj(fields)
  {
    BuildDictOfUnique(fields);
  }

  lemma {:induction false} SkipWsSuffix(s: string)
    ensures SkipWs(s) == s[|s| - |SkipWs(s)|..]
  {
    if s != [] && IsWs(s[0]) {
      SkipWsSuffix(s[1..]);
    }
  }

  /** `json.loads` rejects every blank text, so the blank test never changes the result. */
  lemma BlankTestRedundant(s: string)
    ensures StrArgs(s) == match ParseJson(s) case None => JObj([]) case Some(v) => v
  {
    if Blank(s) {
      SkipWsSuffix(s);
      var t := SkipWs(s);
      if t != [] {
        assert IsPyWhitespace(s[|s| - |t|]);
        assert t[0] == s[|s| - |t|];
      }
      assert ParseValue(t).None?;
    }
  }

  // ---------------------------------------------------------------------
  // Replies

  datatype GeminiCall = GeminiCall(name: string, args: Json)

  /** A part of the candidate's content: an optional text and an optional function call. */
  datatype Part = Part(text: Option<string>, functionCall: Option<GeminiCall>)

  /** `candidate.content`, whose `parts` may be `None`. */
  datatype CandidateContent = CandidateContent(parts: Option<seq<Part>>)

  datatype Candidate = Candidate(content: Option<CandidateContent>)

  datatype Reply = Reply(candidates: seq<Candidate>)

  /** What `chats.create` and `send_message` are given. */
  datatype Request = Request(model: string, tools: seq<Declaration>, history: seq<HistoryEntry>, query: string)

  /** The `TypeError` of iterating over `None`. */
  const NotIterable := "'NoneType' object is not iterable"

  /** What one part adds: its non-empty text, then a marker for its function call; the two are independent. */
  function PartPieces(p: Part): seq<Piece> {
    (if p.text.Some? && p.text.value != [] then [Prose(p.text.value)] else [])
    + (if p.functionCall.Some? then [Invocation(p.functionCall.value.name, PyStr(FunctionArgs(p.functionCall.value.args)))] else [])
  }

  function PartsPieces(parts: seq<Part>): seq<Piece> {
    if parts == [] then [] else PartsPieces(parts[..|parts| - 1]) + PartPieces(parts[|parts| - 1])
  }

  /** The text pieces of the reply: those of the first candidate's parts, or none; `None` parts raise. */
  function ReplyPieces(reply: Reply): Result<seq<Piece>, string> {
    if reply.candidates == [] then Ok([])
    else
      var content := reply.candidates[0].content;
      if content.None? then Ok([])
      else if content.value.parts.None? then Err(NotIterable)
      else Ok(PartsPieces(content.value.parts.value))
  }

  /** Only the first candidate is read. */
  lemma OnlyFirstCandidate(r1: Reply, r2: Reply)
    requires r1.candidates != [] && r2.candidates != [] && r1.candidates[0] == r2.candidates[0]
    ensures ReplyPieces(r1) == ReplyPieces(r2)
  {
  }

  lemma PartsPiecesStep(parts: seq<Part>, i: nat)
    requires i < |parts|
    ensures RenderAll(PartsPieces(parts[..i + 1])) == RenderAll(PartsPieces(parts[..i])) + RenderAll(PartPieces(parts[i]))
  {
    assert parts[..i + 1][..i] == parts[..i];
    RenderAllConcat(PartsPieces(parts[..i]), PartPieces(parts[i]));
  }

  /** The text and transcript a reply yields for the transcript `sent`, or the failure it raises. */
  function Outcome(reply: Reply, sent: seq<Message>): Result<(string, seq<Message>), string> {
    match ReplyPieces(reply)
    case Err(e) => Err(e)
    case Ok(pieces) => Ok((Join(RenderAll(pieces), "\n"), sent))
  }

  function PartTexts(p: Part): seq<string> {
    if p.text.Some? && p.text.value != [] then [p.text.value] else []
  }

  function PartMarkers(p: Part): seq<string> {
    if p.functionCall.Some?
    then [Marker(p.functionCall.value.name, PyStr(FunctionArgs(p.functionCall.value.args)))] else []
  }

  /** What one part adds to the text: its non-empty text, then its marker. */
  lemma PartRender(p: Part)
    ensures RenderAll(PartPieces(p)) == PartTexts(p) + PartMarkers(p)
  {
    var a: seq<Piece> := if p.text.Some? && p.text.value != [] then [Prose(p.text.value)] else [];
    var b: seq<Piece> := if p.functionCall.Some?
      then [Invocation(p.functionCall.value.name, PyStr(FunctionArgs(p.functionCall.value.args)))] else [];
    RenderAllConcat(a, b);
    assert RenderAll(a) == PartTexts(p);
    assert RenderAll(b) == PartMarkers(p);
  }

  lemma PartsTextStep(parts: seq<Part>, i: nat)
    requires i < |parts|
    ensures RenderAll(PartsPieces(parts[..i + 1]))
         == RenderAll(PartsPieces(parts[..i])) + PartTexts(parts[i]) + PartMarkers(parts[i])
  {
    PartsPiecesStep(parts, i);
    PartRender(parts[i]);
  }

  class GeminiService {
    const model: string
    /** `chats.create(...).send_message(query)`, as a function of what it is given. */
    const vendor: Request -> Reply

    constructor (model: string, vendor: Request -> Reply)
      ensures this.model == model && this.vendor == vendor
    {
      this.model := model;
      this.vendor := vendor;
    }

    method ProcessQuery(query: string, tools: seq<ToolSpec>, previous: Option<seq<Message>>)
      returns (r: Result<(string, seq<Message>), string>)
      ensures DeclarationsOf(tools).Err? ==> r == Err(DeclarationsOf(tools).error)
      ensures DeclarationsOf(tools).Ok? ==>
        r == Outcome(vendor(Request(model, DeclarationsOf(tools).value, HistoryOf(Previous(previous)), query)),
                     Previous(previous) + [UserMessage(query)])
    {
      var geminiTools := ConvertTools(tools);
      if geminiTools.Err? {
        return Err(geminiTools.error);
      }
      var chatHistory := PrepareHistory(previous);
      var finalText: seq<string> := [];
      var messages := if previous.Some? && previous.value != [] then previous.value else [];
      messages := messages + [UserMessage(query)];
      var reply := vendor(Request(model, geminiTools.value, chatHistory, query));
      assert messages == Previous(previous) + [UserMessage(query)];
      if reply.candidates != [] {
        var candidate := reply.candidates[0];
        if candidate.content.Some? {
          if candidate.content.value.parts.None? {
            assert Outcome(reply, messages) == Err(NotIterable);
            return Err(NotIterable);
          }
          var parts := candidate.content.value.parts.value;
          finalText := RenderParts(parts);
          assert Outcome(reply, messages) == Ok((Join(finalText, "\n"), messages));
        }
      }
      return Ok((Join(finalText, "\n"), messages));
    }
  }

  /** The loop of `process_query` over the parts of the first candidate. */
  method RenderParts(parts: seq<Part>) returns (finalText: seq<string>)
    ensures finalText == RenderAll(PartsPieces(parts))
  {
    finalText := [];
    var i := 0;
    while i < |parts|
      invariant 0 <= i <= |parts|
      invariant finalText == RenderAll(PartsPieces(parts[..i]))
    {
      var part := parts[i];
      PartsTextStep(parts, i);
      ghost var next := RenderAll(PartsPieces(parts[..i + 1]));
      ghost var mid := finalText;
      if part.text.Some? && part.text.value != [] {
        finalText := finalText + [part.text.value];
      }
      assert finalText == mid + PartTexts(part);
      if part.functionCall.Some? {
        var toolArgs := ParseFunctionArgs(part.functionCall.value.args);
        finalText := finalText + [Marker(part.functionCall.value.name, PyStr(toolArgs))];
      }
      assert finalText == mid + PartTexts(part) + PartMarkers(part);
      assert finalText == next;
      i := i + 1;
    }
    assert parts[..i] == parts;
  }

  /** The function calls of the parts, with their parsed arguments. */
  function PartsCalls(parts: seq<Part>): seq<(string, Json)> {
    if parts == [] then []
    else
      var p := parts[|parts| - 1];
      PartsCalls(parts[..|parts| - 1])
      + (if p.functionCall.Some? then [(p.functionCall.value.name, FunctionArgs(p.functionCall.value.args))] else [])
  }

  /** Texts without `[`, names `[\w-]+`, and parsed arguments JSON-like, not a string, without lists or `]`. */
  predicate Recoverable(parts: seq<Part>) {
    forall i :: 0 <= i < |parts| ==>
      (parts[i].text.Some? ==> '[' !in parts[i].text.value)
      && (parts[i].functionCall.Some? ==>
            ValidName(parts[i].functionCall.value.name)
            && JsonLike(FunctionArgs(parts[i].functionCall.value.args))
            && BracketFree(FunctionArgs(parts[i].functionCall.value.args))
            && !FunctionArgs(parts[i].functionCall.value.args).JStr?)
  }

  /** One recoverable part: clean pieces, and at most the one invocation its call recovers. */
  lemma PartFacts(p: Part)
    requires p.text.Some? ==> '[' !in p.text.value
    requires p.functionCall.Some? ==>
      ValidName(p.functionCall.value.name)
      && JsonLike(FunctionArgs(p.functionCall.value.args)) && BracketFree(FunctionArgs(p.functionCall.value.args))
      && !FunctionArgs(p.functionCall.value.args).JStr?
    ensures forall i :: 0 <= i < |PartPieces(p)| ==> Clean(PartPieces(p)[i])
    ensures Invocations(PartPieces(p))
         == if p.functionCall.Some?
            then [(p.functionCall.value.name, PyStr(FunctionArgs(p.functionCall.value.args)))] else []
  {
    var a: seq<Piece> := if p.text.Some? && p.text.value != [] then [Prose(p.text.value)] else [];
    var b: seq<Piece> := if p.functionCall.Some?
      then [Invocation(p.functionCall.value.name, PyStr(FunctionArgs(p.functionCall.value.args)))] else [];
    InvocationsConcat(a, b);
    assert Invocations(a) == [];
    if p.functionCall.Some? {
      ScanStrMarker(p.functionCall.value.name, FunctionArgs(p.functionCall.value.args), "");
      assert Invocations(b) == [(p.functionCall.value.name, PyStr(FunctionArgs(p.functionCall.value.args)))];
    }
  }

  lemma {:induction false} PartsPiecesFacts(parts: seq<Part>)
    requires Recoverable(parts)
    ensures forall i :: 0 <= i < |PartsPieces(parts)| ==> Clean(PartsPieces(parts)[i])
    ensures |Invocations(PartsPieces(parts))| == |PartsCalls(parts)|
    ensures forall i :: 0 <= i < |PartsCalls(parts)| ==>
      PartsCalls(parts)[i] == (Invocations(PartsPieces(parts))[i].0, ParseArgs(Invocations(PartsPieces(parts))[i].1))
  {
    if parts != [] {
      var init := parts[..|parts| - 1];
      var p := parts[|parts| - 1];
      assert Recoverable(init) by {
        forall i | 0 <= i < |init| ensures init[i] == parts[i] { }
      }
      PartsPiecesFacts(init);
      PartFacts(p);
      InvocationsConcat(PartsPieces(init), PartPieces(p));
      if p.functionCall.Some? {
        ParseArgsStr(FunctionArgs(p.functionCall.value.args));
      }
    }
  }

  /**
    For recoverable parts, the client calls exactly the parts' functions, in
    order, with the arguments this adapter parsed.
   */
  lemma ReplyToolCalls(parts: seq<Part>)
    requires Recoverable(parts)
    ensures ToolCalls(Join(RenderAll(PartsPieces(parts)), "\n")) == PartsCalls(parts)
  {
    PartsPiecesFacts(parts);
    ScanJoined(PartsPieces(parts));
  }
}
