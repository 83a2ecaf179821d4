/**
  The OpenAI adapter: it projects the catalog into function tools, sends the
  transcript extended by the user query, and turns the first choice's
  message into text: its content alone, or its content followed by one
  marker per tool call, whose JSON arguments text is decoded first.
 */
module OpenAIAdapter {
  import opened Wrappers
  import opened Text
  import opened Json
  import opened JsonParser
  import opened PyRepr
  import opened Markers
  import opened Llm

  /** `{"type": "function", "function": {"name", "description", "parameters"}}` */
  function FunctionTool(t: ToolSpec): Json {
    JObj([("type", JStr("function")),
          ("function", JObj([("name", JStr(t.name)),
                             ("description", if t.description.Some? then JStr(t.description.value) else JNull),
                             ("parameters", JObj(t.inputSchema))]))])
  }

  /** The `openai_tools` comprehension. */
  function ProjectTools(tools: seq<ToolSpec>): (r: seq<Json>)
    ensures |r| == |tools|
    ensures forall i :: 0 <= i < |tools| ==> r[i] == FunctionTool(tools[i])
  {
    if tools == [] then [] else [FunctionTool(tools[0])] + ProjectTools(tools[1..])
  }

  /** Reads a catalog entry back out of a function tool. */
  function ToolOf(j: Json): Option<ToolSpec> {
    match j
    case JObj(fs) =>
      if |fs| == 2 && fs[0] == ("type", JStr("function")) && fs[1].0 == "function" && fs[1].1.JObj? then
        var f := fs[1].1.fields;
        if |f| == 3 && f[0].0 == "name" && f[0].1.JStr? && f[1].0 == "description"
          && (f[1].1.JStr? || f[1].1.JNull?) && f[2].0 == "parameters" && f[2].1.JObj?
        then Some(ToolSpec(f[0].1.s, if f[1].1.JStr? then Some(f[1].1.s) else None, f[2].1.fields))
        else None
      else None
    case _ => None
  }

  /** The projection loses nothing: every field of the catalog entry is recovered. */
  lemma ToolOfFunctionTool(t: ToolSpec)
    ensures ToolOf(FunctionTool(t)) == Some(t)
  {
  }

  lemma ProjectToolsLossless(tools: seq<ToolSpec>)
    ensures forall i :: 0 <= i < |tools| ==> ToolOf(ProjectTools(tools)[i]) == Some(tools[i])
  {
    forall i | 0 <= i < |tools| ensures ToolOf(ProjectTools(tools)[i]) == Some(tools[i]) {
      ToolOfFunctionTool(tools[i]);
    }
  }

  /** What `chat.completions.create` is sent. */
  datatype Request = Request(model: string, messages: seq<Message>, tools: seq<Json>, toolChoice: string)

  /** `response.choices[0].message`: its content (possibly `None`) and its tool calls. */
  datatype Reply = Reply(content: Option<string>, toolCalls: seq<FunctionCall>)

  /** The `TypeError` that `"\n".join([None])` raises. */
  const NoneContent := "sequence item 0: expected str instance, NoneType found"

  /** The failure `json.loads` raises on arguments it cannot decode. */
  const BadArguments := "JSONDecodeError"

  /** `response_message.content or ""` */
  function ContentText(content: Option<string>): string {
    if content.Some? then content.value else ""
  }

  function ContentOf(content: Option<string>): Content {
    if content.Some? then Str(content.value) else NonText
  }

  /** One marker piece per tool call, or `None` when some call's arguments are not JSON. */
  function CallPieces(calls: seq<FunctionCall>): (r: Option<seq<Piece>>)
    ensures r.Some? ==> |r.value| == |calls|
  {
    if calls == [] then Some([])
    else
      var init := CallPieces(calls[..|calls| - 1]);
      var c := calls[|calls| - 1];
      var args := ParseJson(c.arguments);
      if init.None? || args.None? then None
      else Some(init.value + [Invocation(c.name, PyStr(args.value))])
  }

  /** The markers can be written exactly when every call's arguments decode. */
  lemma {:induction false} CallPiecesSome(calls: seq<FunctionCall>)
    ensures CallPieces(calls).Some? <==> forall i :: 0 <= i < |calls| ==> ParseJson(calls[i].arguments).Some?
  {
    if calls != [] {
      var init := calls[..|calls| - 1];
      CallPiecesSome(init);
      assert forall i :: 0 <= i < |init| ==> init[i] == calls[i];
    }
  }

  /** The (name, decoded arguments) pairs of the tool calls. */
  function Decoded(calls: seq<FunctionCall>): (r: seq<(string, Json)>)
    requires forall i :: 0 <= i < |calls| ==> ParseJson(calls[i].arguments).Some?
    ensures |r| == |calls|
    ensures forall i :: 0 <= i < |calls| ==> r[i] == (calls[i].name, ParseJson(calls[i].arguments).value)
  {
    if calls == [] then []
    else
      var c := calls[|calls| - 1];
      Decoded(calls[..|calls| - 1]) + [(c.name, ParseJson(c.arguments).value)]
  }

  /** The text and transcript a reply yields for the transcript `sent`, or the failure it raises. */
  function Outcome(reply: Reply, sent: seq<Message>): Result<(string, seq<Message>), string> {
    if reply.toolCalls != [] then
      match CallPieces(reply.toolCalls)
      case None => Err(BadArguments)
      case Some(pieces) =>
        Ok((Join(RenderAll([Prose(ContentText(reply.content))] + pieces), "\n"),
            sent + [Message("assistant", ContentOf(reply.content), reply.toolCalls)]))
    else
      match reply.content
      case None => Err(NoneContent)
      case Some(text) => Ok((text, sent))
  }

  class OpenAIService {
    const model: string
    /** The vendor call `chat.completions.create`, as a function of what it is sent. */
    const vendor: Request -> Reply

    constructor (model: string, vendor: Request -> Reply)
      ensures this.model == model && this.vendor == vendor
    {
      this.model := model;
      this.vendor := vendor;
    }

    /** The transcript sent to the vendor. */
    function Sent(query: string, previous: Option<seq<Message>>): seq<Message> {
      Previous(previous) + [UserMessage(query)]
    }

    function Answer(query: string, tools: seq<ToolSpec>, previous: Option<seq<Message>>): Reply
      reads this
    {
      vendor(Request(model, Sent(query, previous), ProjectTools(tools), "auto"))
    }

    method ProcessQuery(query: string, tools: seq<ToolSpec>, previous: Option<seq<Message>>)
      returns (r: Result<(string, seq<Message>), string>)
      ensures r == Outcome(Answer(query, tools, previous), Sent(query, previous))
    {
      var openaiTools := ProjectTools(tools);
      var messages: seq<Message> := [];
      if previous.Some? && previous.value != [] {
        messages := messages + previous.value;
      }
      messages := messages + [UserMessage(query)];
      var reply := vendor(Request(model, messages, openaiTools, "auto"));
      assert messages == Sent(query, previous);
      assert reply == Answer(query, tools, previous);
      if reply.toolCalls != [] {
        messages := messages + [Message("assistant", ContentOf(reply.content), reply.toolCalls)];
        var finalText := RenderCalls(reply.content, reply.toolCalls);
        if finalText.Err? {
          return Err(finalText.error);
        }
        return Ok((Join(finalText.value, "\n"), messages));
      }
      if reply.content.None? {
        return Err(NoneContent);
      }
      var finalText: seq<string> := [reply.content.value];
      return Ok((Join(finalText, "\n"), messages));
    }
  }

  /**
    `final_text`: the content (or `""`) followed by one marker per tool
    call, stopping with `JSONDecodeError` at the first call whose arguments
    do not decode.
   */
  method RenderCalls(content: Option<string>, calls: seq<FunctionCall>) returns (r: Result<seq<string>, string>)
    ensures r == (match CallPieces(calls)
                  case None => Err(BadArguments)
                  case Some(pieces) => Ok(RenderAll([Prose(ContentText(content))] + pieces)))
  {
    var finalText := [ContentText(content)];
    var i := 0;
    while i < |calls|
      invariant 0 <= i <= |calls|
      invariant CallPieces(calls[..i]).Some?
      invariant finalText == RenderAll([Prose(ContentText(content))] + CallPieces(calls[..i]).value)
    {
      var functionName := calls[i].name;
      var functionArgs := ParseJson(calls[i].arguments);
      if functionArgs.None? {
        CallPiecesFail(calls, i);
        return Err(BadArguments);
      }
      CallPiecesStep(calls, i);
      ghost var before := [Prose(ContentText(content))] + CallPieces(calls[..i]).value;
      RenderAllConcat(before, [Invocation(functionName, PyStr(functionArgs.value))]);
      assert [Prose(ContentText(content))] + CallPieces(calls[..i + 1]).value
          == before + [Invocation(functionName, PyStr(functionArgs.value))];
      finalText := finalText + [Marker(functionName, PyStr(functionArgs.value))];
      i := i + 1;
    }
    assert calls[..i] == calls;
    return Ok(finalText);
  }

  /** A call whose arguments do not decode makes the whole reply fail. */
  lemma {:induction false} CallPiecesFail(calls: seq<FunctionCall>, i: nat)
    requires i < |calls| && ParseJson(calls[i].arguments).None?
    ensures CallPieces(calls).None?
  {
    CallPiecesSome(calls);
  }

  lemma {:induction false} CallPiecesAt(calls: seq<FunctionCall>)
    requires forall i :: 0 <= i < |calls| ==> ParseJson(calls[i].arguments).Some?
    ensures CallPieces(calls).Some?
    ensures forall k :: 0 <= k < |calls| ==>
      CallPieces(calls).value[k] == Invocation(calls[k].name, PyStr(ParseJson(calls[k].arguments).value))
  {
    if calls != [] {
      var init := calls[..|calls| - 1];
      assert forall i :: 0 <= i < |init| ==> init[i] == calls[i];
      CallPiecesAt(init);
    }
  }

  /**
    Tool names are `[\w-]+` and the decoded arguments are JSON-like values
    other than strings, without lists or `]`.
   */
  predicate RecoverableCalls(calls: seq<FunctionCall>) {
    forall i :: 0 <= i < |calls| ==>
      ValidName(calls[i].name) && ParseJson(calls[i].arguments).Some?
      && JsonLike(ParseJson(calls[i].arguments).value) && BracketFree(ParseJson(calls[i].arguments).value)
      && !ParseJson(calls[i].arguments).value.JStr?
  }

  lemma {:induction false} RecoverablePieces(calls: seq<FunctionCall>)
    requires RecoverableCalls(calls)
    ensures CallPieces(calls).Some?
    ensures forall k :: 0 <= k < |calls| ==> Clean(CallPieces(calls).value[k])
    ensures |Invocations(CallPieces(calls).value)| == |calls|
    ensures forall k :: 0 <= k < |calls| ==>
      Invocations(CallPieces(calls).value)[k] == (calls[k].name, PyStr(ParseJson(calls[k].arguments).value))
  {
    CallPiecesAt(calls);
    var ps := CallPieces(calls).value;
    forall k | 0 <= k < |calls| ensures Clean(ps[k]) {
      ScanStrMarker(calls[k].name, ParseJson(calls[k].arguments).value, "");
    }
    InvocationsAll(ps);
  }

  /**
    When the content holds no `[` and the calls are recoverable, the client
    calls exactly the reply's functions, in order, with their decoded arguments.
   */
  lemma ReplyToolCalls(content: Option<string>, calls: seq<FunctionCall>)
    requires '[' !in ContentText(content) && RecoverableCalls(calls)
    ensures CallPieces(calls).Some?
    ensures ToolCalls(Join(RenderAll([Prose(ContentText(content))] + CallPieces(calls).value), "\n"))
         == Decoded(calls)
  {
    RecoverablePieces(calls);
    var ps := CallPieces(calls).value;
    ScanAfterProse(ContentText(content), ps);
    var text := Join(RenderAll([Prose(ContentText(content))] + ps), "\n");
    assert |ToolCalls(text)| == |calls|;
    forall i | 0 <= i < |calls| ensures ToolCalls(text)[i] == Decoded(calls)[i] {
      ParseArgsStr(ParseJson(calls[i].arguments).value);
    }
  }

  /** Writing one more marker extends the pieces by one invocation. */
  lemma CallPiecesStep(calls: seq<FunctionCall>, i: nat)
    requires i < |calls| && CallPieces(calls[..i]).Some? && ParseJson(calls[i].arguments).Some?
    ensures CallPieces(calls[..i + 1])
         == Some(CallPieces(calls[..i]).value + [Invocation(calls[i].name, PyStr(ParseJson(calls[i].arguments).value))])
  {
    assert calls[..i + 1][..i] == calls[..i];
  }

  /**
    The transcript grows by the user entry and, when there are tool calls,
    by exactly one assistant entry carrying the content and the calls.
   */
  lemma OutcomeTranscript(reply: Reply, sent: seq<Message>)
    requires Outcome(reply, sent).Ok?
    ensures var messages := Outcome(reply, sent).value.1;
      |messages| == |sent| + (if reply.toolCalls != [] then 1 else 0)
      && messages[..|sent|] == sent
      && (reply.toolCalls != [] ==>
            messages[|sent|] == Message("assistant", ContentOf(reply.content), reply.toolCalls))
  {
  }

  /** A reply fails exactly when a call's arguments are not JSON, or when it has neither calls nor content. */
  lemma OutcomeErr(reply: Reply, sent: seq<Message>)
    ensures Outcome(reply, sent).Err? <==>
      (reply.toolCalls != [] && exists i :: 0 <= i < |reply.toolCalls| && ParseJson(reply.toolCalls[i].arguments).None?)
      || (reply.toolCalls == [] && reply.content.None?)
  {
    CallPiecesSome(reply.toolCalls);
  }

  /** Without tool calls the text is the content, unchanged. */
  lemma OutcomePlain(reply: Reply, sent: seq<Message>)
    requires reply.toolCalls == [] && reply.content.Some?
    ensures Outcome(reply, sent) == Ok((reply.content.value, sent))
  {
  }

  /**
    The client recovers each function call of the reply, in order, with its
    decoded arguments, when the content holds no `[` and the calls are
    recoverable.
   */
  lemma ClientRecoversCalls(reply: Reply, sent: seq<Message>)
    requires reply.toolCalls != [] && '[' !in ContentText(reply.content) && RecoverableCalls(reply.toolCalls)
    ensures Outcome(reply, sent).Ok?
    ensures ToolCalls(Outcome(reply, sent).value.0) == Decoded(reply.toolCalls)
  {
    ReplyToolCalls(reply.content, reply.toolCalls);
  }
}
