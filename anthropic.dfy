/**
  The Anthropic adapter: it sends the transcript extended by the user query
  together with the tool catalog, and folds the reply's content blocks into
  one `"\n"`-joined text in which each `tool_use` block becomes a marker.
 */
module AnthropicAdapter {
  import opened Wrappers
  import opened Text
  import opened Json
  import opened PyRepr
  import opened Markers
  import opened Llm

  /** A content block of the reply. */
  datatype Block = TextBlock(text: string) | ToolUse(name: string, input: Json) | OtherBlock

  /** What `messages.create` is sent. */
  datatype Request = Request(model: string, messages: seq<Message>, tools: seq<ToolSpec>, maxTokens: nat)

  const MaxTokens: nat := 1000

  /** What one block adds to the reply text: its text, a marker, or nothing. */
  function BlockPiece(b: Block): seq<Piece> {
    match b
    case TextBlock(text) => [Prose(text)]
    case ToolUse(name, input) => [Invocation(name, PyStr(input))]
    case OtherBlock => []
  }

  function BlockPieces(blocks: seq<Block>): seq<Piece> {
    if blocks == [] then []
    else BlockPieces(blocks[..|blocks| - 1]) + BlockPiece(blocks[|blocks| - 1])
  }

  /** The tool invocations of the reply, as the (name, `str` of input) pairs the markers carry. */
  function ToolUses(blocks: seq<Block>): seq<(string, string)> {
    if blocks == [] then []
    else
      var b := blocks[|blocks| - 1];
      ToolUses(blocks[..|blocks| - 1]) + (if b.ToolUse? then [(b.name, PyStr(b.input))] else [])
  }

  /** The tool invocations of the reply as (name, input) pairs. */
  function ToolInputs(blocks: seq<Block>): seq<(string, Json)> {
    if blocks == [] then []
    else
      var b := blocks[|blocks| - 1];
      ToolInputs(blocks[..|blocks| - 1]) + (if b.ToolUse? then [(b.name, b.input)] else [])
  }

  /**
    Every tool input reads back from its marker: a JSON-like value (no `None`,
    no booleans, no quote characters) that is not a bare string.
   */
  predicate InputsReadBack(blocks: seq<Block>) {
    forall i :: 0 <= i < |blocks| && blocks[i].ToolUse? ==> JsonLike(blocks[i].input) && !blocks[i].input.JStr?
  }

  /** Text blocks without `[`, tool names `[\w-]+`, inputs whose `str` the pattern captures whole. */
  predicate Scannable(blocks: seq<Block>) {
    forall i :: 0 <= i < |blocks| ==>
      match blocks[i]
      case TextBlock(text) => '[' !in text
      case ToolUse(name, input) => ValidName(name) && Markable(input)
      case OtherBlock => true
  }

  class AnthropicService {
    const model: string
    /** The vendor call `messages.create`, as a function of what it is sent. */
    const vendor: Request -> seq<Block>

    constructor (model: string, vendor: Request -> seq<Block>)
      ensures this.model == model && this.vendor == vendor
    {
      this.model := model;
      this.vendor := vendor;
    }

    method ProcessQuery(query: string, tools: seq<ToolSpec>, previous: Option<seq<Message>>)
      returns (text: string, messages: seq<Message>)
      ensures messages == Previous(previous) + [UserMessage(query)]
      ensures text == Join(RenderAll(BlockPieces(vendor(Request(model, messages, tools, MaxTokens)))), "\n")
    {
      messages := [];
      if previous.Some? && previous.value != [] {
        messages := messages + previous.value;
      }
      messages := messages + [UserMessage(query)];
      var blocks := vendor(Request(model, messages, tools, MaxTokens));
      var finalText := RenderBlocks(blocks);
      text := Join(finalText, "\n");
    }
  }

  /** `final_text`: one entry per text block and per tool use, in order. */
  method RenderBlocks(blocks: seq<Block>) returns (finalText: seq<string>)
    ensures finalText == RenderAll(BlockPieces(blocks))
  {
    finalText := [];
    var i := 0;
    while i < |blocks|
      invariant 0 <= i <= |blocks|
      invariant finalText == RenderAll(BlockPieces(blocks[..i]))
    {
      var b := blocks[i];
      BlockTextStep(blocks, i);
      BlockRendered(b);
      match b {
        case TextBlock(t) => finalText := finalText + [t];
        case ToolUse(name, input) => finalText := finalText + [Marker(name, PyStr(input))];
        case OtherBlock =>
      }
      i := i + 1;
    }
    assert blocks[..|blocks|] == blocks;
  }

  lemma BlockRendered(b: Block)
    ensures RenderAll(BlockPiece(b)) == match b
      case TextBlock(t) => [t]
      case ToolUse(name, input) => [Marker(name, PyStr(input))]
      case OtherBlock => []
  {
    match b
    case TextBlock(t) => assert RenderAll([Prose(t)]) == [t];
    case ToolUse(name, input) => assert RenderAll([Invocation(name, PyStr(input))]) == [Marker(name, PyStr(input))];
    case OtherBlock =>
  }

  lemma BlockTextStep(blocks: seq<Block>, i: nat)
    requires i < |blocks|
    ensures RenderAll(BlockPieces(blocks[..i + 1]))
         == RenderAll(BlockPieces(blocks[..i])) + RenderAll(BlockPiece(blocks[i]))
  {
    assert blocks[..i + 1][..i] == blocks[..i];
    RenderAllConcat(BlockPieces(blocks[..i]), BlockPiece(blocks[i]));
  }

  lemma {:induction false} BlockInvocations(blocks: seq<Block>)
    ensures Invocations(BlockPieces(blocks)) == ToolUses(blocks)
  {
    if blocks != [] {
      var init := blocks[..|blocks| - 1];
      BlockInvocations(init);
      InvocationsConcat(BlockPieces(init), BlockPiece(blocks[|blocks| - 1]));
    }
  }

  lemma {:induction false} BlockPiecesClean(blocks: seq<Block>)
    requires Scannable(blocks)
    ensures forall i :: 0 <= i < |BlockPieces(blocks)| ==> Clean(BlockPieces(blocks)[i])
  {
    if blocks != [] {
      var init := blocks[..|blocks| - 1];
      assert Scannable(init) by {
        forall i | 0 <= i < |init| ensures init[i] == blocks[i] { }
      }
      BlockPiecesClean(init);
      var b := blocks[|blocks| - 1];
      match b
      case TextBlock(t) =>
      case ToolUse(name, input) => ScanStrMarker(name, input, "");
      case OtherBlock =>
    }
  }

  /**
    The client's scan of this adapter's text finds exactly the reply's tool
    invocations, in order, when the text blocks hold no `[`.
   */
  lemma ReplyScan(blocks: seq<Block>)
    requires Scannable(blocks)
    ensures Scan(Join(RenderAll(BlockPieces(blocks)), "\n")) == ToolUses(blocks)
  {
    BlockPiecesClean(blocks);
    ScanJoined(BlockPieces(blocks));
    BlockInvocations(blocks);
  }

  lemma {:induction false} ToolUsesParsed(blocks: seq<Block>)
    requires InputsReadBack(blocks)
    ensures |ToolUses(blocks)| == |ToolInputs(blocks)|
    ensures forall i :: 0 <= i < |ToolUses(blocks)| ==>
      ToolInputs(blocks)[i] == (ToolUses(blocks)[i].0, ParseArgs(ToolUses(blocks)[i].1))
  {
    if blocks != [] {
      var init := blocks[..|blocks| - 1];
      assert InputsReadBack(init) by {
        forall i | 0 <= i < |init| ensures init[i] == blocks[i] { }
      }
      ToolUsesParsed(init);
      var b := blocks[|blocks| - 1];
      if b.ToolUse? {
        ParseArgsStr(b.input);
      }
    }
  }

  /**
    For a reply whose texts hold no `[` and whose tool inputs are JSON-like
    values other than strings, without lists or `]`, the client calls exactly
    the reply's tools, in order, with exactly their inputs.
   */
  lemma ReplyToolCalls(blocks: seq<Block>)
    requires Scannable(blocks) && InputsReadBack(blocks)
    ensures ToolCalls(Join(RenderAll(BlockPieces(blocks)), "\n")) == ToolInputs(blocks)
  {
    ReplyScan(blocks);
    ToolUsesParsed(blocks);
  }
}
