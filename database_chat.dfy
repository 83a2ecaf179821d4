/**
  The database chat agent: it routes each message either to a database
  round trip (tool selection by the model, one tool call, a rephrasing of
  the tool's answer) or to plain chat, and keeps a bounded conversation
  history.
 */
module DatabaseChat {
  import opened Wrappers
  import opened Text
  import opened Json
  import opened JsonParser

  // ---------------------------------------------------------------------
  // Intent detection

  const Keywords: seq<string> := [
    "select", "find", "search", "get", "show", "list", "display", "view", "retrieve",
    "table", "tables", "create table", "drop table", "alter table", "describe table",
    "insert", "add", "update", "modify", "delete", "remove", "change",
    "database", "db", "sql", "query", "column", "columns", "row", "rows", "record", "records",
    "schema", "structure", "add column", "drop column", "rename column"
  ]

  /** The keywords without a space in them, and the rest. */
  const SingleWordKeywords: seq<string> := [
    "select", "find", "search", "get", "show", "list", "display", "view", "retrieve",
    "table", "tables",
    "insert", "add", "update", "modify", "delete", "remove", "change",
    "database", "db", "sql", "query", "column", "columns", "row", "rows", "record", "records",
    "schema", "structure"
  ]
  const MultiWordKeywords: seq<string> := [
    "create table", "drop table", "alter table", "describe table", "add column", "drop column", "rename column"
  ]

  /** `any(k in s for k in ks)` */
  function AnyKeyword(ks: seq<string>, s: string): bool {
    if ks == [] then false else Contains(s, ks[0]) || AnyKeyword(ks[1..], s)
  }

  lemma {:induction false} AnyKeywordIff(ks: seq<string>, s: string)
    ensures AnyKeyword(ks, s) <==> exists k :: k in ks && Contains(s, k)
  {
    if ks != [] {
      AnyKeywordIff(ks[1..], s);
      assert forall k :: k in ks <==> k == ks[0] || k in ks[1..];
    }
  }

  /** `detect_database_intent` */
  predicate DetectIntent(message: string) {
    AnyKeyword(Keywords, Lower(message))
  }

  /** A message is routed to the database exactly when one of the keywords occurs in its lowercase form. */
  lemma DetectIntentIff(message: string)
    ensures DetectIntent(message) <==> exists k :: k in Keywords && Contains(Lower(message), k)
  {
    AnyKeywordIff(Keywords, Lower(message));
  }

  lemma {:induction false} NoneContained(ks: seq<string>, s: string)
    requires forall k | k in ks :: !Contains(s, k)
    ensures !AnyKeyword(ks, s)
  {
    if ks != [] {
      assert ks[0] in ks;
      forall k | k in ks[1..] ensures !Contains(s, k) {
        assert k in ks;
      }
      NoneContained(ks[1..], s);
    }
  }

  /** No keyword is empty, so the empty message is never a database request. */
  lemma EmptyNotDetected()
    ensures !DetectIntent("")
  {
    forall k | k in Keywords ensures !Contains("", k) {
      assert |k| > 0;
    }
    NoneContained(Keywords, "");
  }

  /** Letter case does not matter. */
  lemma DetectIntentCaseInsensitive(message: string)
    ensures DetectIntent(Lower(message)) == DetectIntent(message)
    ensures DetectIntent(Upper(message)) == DetectIntent(message)
  {
    LowerIdempotent(message);
    LowerOfUpper(message);
  }

  /** Lowercasing keeps substrings. */
  lemma LowerContains(s: string, t: string)
    requires Contains(s, t)
    ensures Contains(Lower(s), Lower(t))
  {
    var i :| 0 <= i <= |s| - |t| && At(s, t, i);
    LowerSlice(s, i, i + |t|);
    assert At(Lower(s), Lower(t), i);
  }

  /** A message that contains a detected message is detected too. */
  lemma DetectIntentMonotone(message: string, larger: string)
    requires Contains(larger, message) && DetectIntent(message)
    ensures DetectIntent(larger)
  {
    DetectIntentIff(message);
    DetectIntentIff(larger);
    var k :| k in Keywords && Contains(Lower(message), k);
    LowerContains(larger, message);
    ContainsTransitive(Lower(larger), Lower(message), k);
  }

  lemma Occurs(s: string, k: string, i: nat)
    requires At(s, k, i)
    ensures Contains(s, k)
  {
  }

  lemma KeywordsSplit()
    ensures forall k | k in Keywords :: k in SingleWordKeywords || k in MultiWordKeywords
    ensures forall k | k in SingleWordKeywords :: k in Keywords
  {
  }

  lemma TableColumnSingle()
    ensures "table" in SingleWordKeywords && "column" in SingleWordKeywords
  {
    assert SingleWordKeywords[9] == "table" && SingleWordKeywords[22] == "column";
  }

  /** The single word (`table` or `column`) a multi-word keyword contains, and where. */
  lemma WordOf(k: string) returns (w: string, at: nat)
    requires k in MultiWordKeywords
    ensures w == "table" || w == "column"
    ensures At(k, w, at)
  {
    var i :| 0 <= i < |MultiWordKeywords| && MultiWordKeywords[i] == k;
    if i == 0 { w, at := "table", 7; assert k[7..12] == w; }
    else if i == 1 { w, at := "table", 5; assert k[5..10] == w; }
    else if i == 2 { w, at := "table", 6; assert k[6..11] == w; }
    else if i == 3 { w, at := "table", 9; assert k[9..14] == w; }
    else if i == 4 { w, at := "column", 4; assert k[4..10] == w; }
    else if i == 5 { w, at := "column", 5; assert k[5..11] == w; }
    else { w, at := "column", 7; assert k[7..13] == w; }
  }

  /**
    Every multi-word keyword contains a single-word one, so the multi-word
    keywords never change the result.
   */
  lemma MultiWordRedundant(message: string)
    ensures DetectIntent(message) == AnyKeyword(SingleWordKeywords, Lower(message))
  {
    var s := Lower(message);
    AnyKeywordIff(Keywords, s);
    AnyKeywordIff(SingleWordKeywords, s);
    KeywordsSplit();
    if DetectIntent(message) {
      var k :| k in Keywords && Contains(s, k);
      if k !in SingleWordKeywords {
        var w, at := WordOf(k);
        Occurs(k, w, at);
        ContainsTransitive(s, k, w);
        TableColumnSingle();
      }
    }
  }

  const Greeting := "hello! how are you today?"
  const GreetingChars := {'h', 'e', 'l', 'o', '!', ' ', 'w', 'a', 'r', 'y', 'u', 't', 'd', '?'}

  lemma GreetingLower()
    ensures Lower("Hello! How are you today?") == Greeting
  {
  }

  lemma GreetingCharsExact()
    ensures forall i :: 0 <= i < |Greeting| ==> Greeting[i] in GreetingChars
  {
  }

  lemma AbsentFromGreeting(k: string, j: nat)
    requires j < |k| && k[j] !in GreetingChars
    ensures !Contains(Greeting, k)
  {
    GreetingCharsExact();
    AbsentChar(Greeting, k, j);
  }

  /** Keyword `i` does not occur in the greeting: it has a letter the greeting lacks, or its letters are out of place. */
  lemma NotInGreeting(i: nat)
    requires i < |Keywords|
    ensures !Contains(Greeting, Keywords[i])
  {
    var s := Greeting;
    var k := Keywords[i];
    if i == 16 {
      SoleOccurrence(s, k, 1, 21, 0);   // add: the only 'd' follows 'o'
    } else if i == 19 {
      SoleOccurrence(s, k, 0, 21, 1);   // delete: the only 'd' precedes 'a'
    } else if i == 28 {
      SoleOccurrence(s, k, 0, 12, 1);   // row: the only 'r' precedes 'e'
    } else if i == 8 || i == 22 || i == 34 {
      AbsentFromGreeting(k, 4);
    } else if i == 13 {
      AbsentFromGreeting(k, 8);
    } else if i < 10 {
      AbsentAmongFirst(i, 0, 10);
    } else if i < 20 {
      AbsentAmongFirst(i, 10, 20);
    } else if i < 30 {
      AbsentAmongFirst(i, 20, 30);
    } else {
      AbsentAmongFirst(i, 30, 37);
    }
  }

  lemma AbsentAmongFirst(i: nat, lo: nat, hi: nat)
    requires lo <= i < hi <= |Keywords| && hi - lo <= 10 && i !in {8, 13, 16, 19, 22, 28, 34}
    ensures !Contains(Greeting, Keywords[i])
  {
    var k := Keywords[i];
    if k[0] !in GreetingChars {
      AbsentFromGreeting(k, 0);
    } else if k[1] !in GreetingChars {
      AbsentFromGreeting(k, 1);
    } else if k[2] !in GreetingChars {
      AbsentFromGreeting(k, 2);
    } else {
      AbsentFromGreeting(k, 3);
    }
  }

  /** A general-conversation example is not routed to the database. */
  lemma GreetingNotDetected()
    ensures !DetectIntent("Hello! How are you today?")
  {
    GreetingLower();
    forall k | k in Keywords ensures !Contains(Greeting, k) {
      var i :| 0 <= i < |Keywords| && Keywords[i] == k;
      NotInGreeting(i);
    }
    NoneContained(Keywords, Greeting);
  }

  /** A database question from the same conversation is detected. */
  lemma TablesQuestionDetected()
    ensures DetectIntent("What tables are in the database?")
  {
    var m := "What tables are in the database?";
    TableOccurs();
    assert Keywords[9] == "table";
    DetectIntentIff(m);
  }

  lemma TableOccurs()
    ensures Contains(Lower("What tables are in the database?"), "table")
  {
    var m := "What tables are in the database?";
    assert m[5] == 't' && m[6] == 'a' && m[7] == 'b' && m[8] == 'l' && m[9] == 'e';
    assert m[5..10] == "table";
    LowerSlice(m, 5, 10);
    assert Lower("table") == "table";
    assert At(Lower(m), "table", 5);
    Occurs(Lower(m), "table", 5);
  }

  // ---------------------------------------------------------------------
  // Prompts

  /** A history and model-call entry. */
  datatype ChatEntry = ChatEntry(role: string, content: string)

  datatype ChatRequest = ChatRequest(model: string, messages: seq<ChatEntry>)

  const ChatModel := "gpt-4o-mini"

  const DefaultSystemPrompt :=
    "You are a helpful database assistant with read-only access. You can help with both general conversation "
    + "and database operations. Be friendly and conversational while being informative. "
    + "IMPORTANT: You have READ-ONLY database access. When the user asks about information or wants to explore data, you must directly run SELECT queries on the database as follows: "
    + "First, list existing tables to understand what data is available. "
    + "Then, examine table structures to understand the schema. "
    + "Finally, execute appropriate SELECT queries to retrieve and analyze the requested information. "
    + "You CANNOT store new information, create tables, or modify existing data - only retrieve and analyze existing data. "
    + "If users ask you to store or remember information, explain that you currently have read-only access and can only help them explore existing data."

  /** The messages `llm_chat` sends: the system prompt, the last six history entries, the user message. */
  function ContextMessages(history: seq<ChatEntry>, message: string, system: string): seq<ChatEntry> {
    [ChatEntry("system", system)] + Last(history, 6) + [ChatEntry("user", message)]
  }

  /**
    At most eight messages: the system prompt, then the most recent history
    entries in order, then the user message.
   */
  lemma ContextMessagesShape(history: seq<ChatEntry>, message: string, system: string)
    ensures var ms := ContextMessages(history, message, system);
      2 <= |ms| <= 8
      && ms[0] == ChatEntry("system", system)
      && ms[|ms| - 1] == ChatEntry("user", message)
      && history == history[..|history| - (|ms| - 2)] + ms[1..|ms| - 1]
      && (|history| <= 6 ==> ms[1..|ms| - 1] == history)
  {
    var ms := ContextMessages(history, message, system);
    assert ms[1..|ms| - 1] == Last(history, 6);
  }

  /** A tool as `list_tools` reports it to the agent. */
  datatype DbTool = DbTool(name: string, description: Option<string>)

  /** `f"- {tool.name}: {tool.description}"`; a missing description prints as `None`. */
  function ToolLine(t: DbTool): string {
    "- " + t.name + ": " + t.description.GetOr("None")
  }

  function ToolLines(tools: seq<DbTool>): (r: seq<string>)
    ensures |r| == |tools|
    ensures forall i :: 0 <= i < |tools| ==> r[i] == ToolLine(tools[i])
  {
    if tools == [] then [] else [ToolLine(tools[0])] + ToolLines(tools[1..])
  }

  const SelectionInstructions :=
    "Analyze the user's request and choose the most appropriate tool. "
    + "If multiple operations are needed, start with the first logical step.\n\n"
    + "IMPORTANT: Respond ONLY with a JSON object in this exact format:\n"
    + "{\n"
    + "    \"tool\": \"tool_name\",\n"
    + "    \"arguments\": {\n"
    + "        \"parameter_name\": \"value\"\n"
    + "    }\n"
    + "}\n\n"
    + "Do not include any other text or explanation."

  const ToolsHeader := "You are a database assistant with access to these tools:\n\n"

  const ToolResponseSystem :=
    "You are a helpful database assistant. Take the technical tool response and "
    + "convert it into a clear, user-friendly answer that directly addresses the user's question. "
    + "Be conversational and explain what was done or found. If there are errors, explain them clearly."

  const ResponseRequest := "Please provide a clear, friendly response to the user based on this information."

  const ConnectFailed := "I'm having trouble connecting to the database. Please check if the database server is running."
  const Rephrase := "I had trouble understanding how to process your database request. Could you please rephrase it?"
  const ErrorPrefix := "I encountered an error while processing your database request: "

  /**
    The agent's fixed texts, gathered in one value that the agent holds, so
    that its contracts name them instead of spelling them out.
   */
  datatype Wording = Wording(
    systemPrompt: string, toolsHeader: string, selectionInstructions: string,
    responseSystem: string, responseRequest: string,
    connectFailed: string, rephrase: string, errorPrefix: string)

  const AgentWording := Wording(
    DefaultSystemPrompt, ToolsHeader, SelectionInstructions,
    ToolResponseSystem, ResponseRequest,
    ConnectFailed, Rephrase, ErrorPrefix)

  /** `get_tool_selection_prompt` */
  function ToolSelectionPrompt(w: Wording, query: string, tools: seq<DbTool>): string {
    w.toolsHeader
    + Join(ToolLines(tools), "\n") + "\n\n"
    + "User's request: " + query + "\n\n"
    + w.selectionInstructions
  }

  lemma {:induction false} JoinContains(parts: seq<string>, sep: string, i: nat)
    requires i < |parts|
    ensures Contains(Join(parts, sep), parts[i])
  {
    if |parts| == 1 {
      assert At(Join(parts, sep), parts[0], 0);
    } else if i == 0 {
      assert At(Join(parts, sep), parts[0], 0);
    } else {
      JoinContains(parts[1..], sep, i - 1);
      var rest := Join(parts[1..], sep);
      var pre := parts[0] + sep;
      assert Join(parts, sep) == pre + rest;
      ContainsSuffix(pre, rest, parts[i]);
    }
  }

  lemma ContainsSuffix(pre: string, s: string, k: string)
    requires Contains(s, k)
    ensures Contains(pre + s, k)
  {
    var i :| 0 <= i <= |s| - |k| && At(s, k, i);
    assert (pre + s)[|pre| + i..|pre| + i + |k|] == s[i..i + |k|];
    assert At(pre + s, k, |pre| + i);
  }

  lemma ContainsPrefix(s: string, post: string, k: string)
    requires Contains(s, k)
    ensures Contains(s + post, k)
  {
    var i :| 0 <= i <= |s| - |k| && At(s, k, i);
    assert (s + post)[i..i + |k|] == s[i..i + |k|];
    assert At(s + post, k, i);
  }

  /** The prompt lists every tool as `- name: description` and quotes the request. */
  lemma ToolSelectionPromptMentions(w: Wording, query: string, tools: seq<DbTool>)
    ensures forall i :: 0 <= i < |tools| ==> Contains(ToolSelectionPrompt(w, query, tools), ToolLine(tools[i]))
    ensures Contains(ToolSelectionPrompt(w, query, tools), "User's request: " + query)
  {
    var head := w.toolsHeader;
    var body := Join(ToolLines(tools), "\n");
    var req := "\n\n" + ("User's request: " + query);
    var tail := "\n\n" + w.selectionInstructions;
    assert ToolSelectionPrompt(w, query, tools) == (head + body) + (req + tail);
    forall i | 0 <= i < |tools| ensures Contains(ToolSelectionPrompt(w, query, tools), ToolLine(tools[i])) {
      JoinContains(ToolLines(tools), "\n", i);
      ContainsSuffix(head, body, ToolLine(tools[i]));
      ContainsPrefix(head + body, req + tail, ToolLine(tools[i]));
    }
    var k := "User's request: " + query;
    assert At(req, k, 2);
    assert Contains(req, k);
    ContainsPrefix(req, tail, k);
    ContainsSuffix(head + body, req + tail, k);
  }

  /** The prompt of `process_tool_response`. */
  function ToolResponsePrompt(w: Wording, query: string, toolResponse: string): string {
    "User asked: " + query + "\n\n"
    + "Tool response: " + toolResponse + "\n\n"
    + w.responseRequest
  }

  /** The prompt opens with the user's question and quotes the tool's answer. */
  lemma ToolResponsePromptMentions(w: Wording, query: string, toolResponse: string)
    ensures StartsWith(ToolResponsePrompt(w, query, toolResponse), "User asked: " + query)
    ensures Contains(ToolResponsePrompt(w, query, toolResponse), "Tool response: " + toolResponse)
  {
    var head := "User asked: " + query;
    var k := "Tool response: " + toolResponse;
    var mid := "\n\n" + k;
    var tail := "\n\n" + w.responseRequest;
    assert ToolResponsePrompt(w, query, toolResponse) == head + (mid + tail);
    assert (head + (mid + tail))[..|head|] == head;
    assert At(mid, k, 2);
    ContainsPrefix(mid, tail, k);
    ContainsSuffix(head, mid + tail, k);
  }

  // ---------------------------------------------------------------------
  // Database round trip

  /**
    `tool_call["tool"]` and `tool_call["arguments"]`, or the text of the
    `TypeError` or `KeyError` Python raises.
   */
  function ToolCallOf(call: Json): Result<(Json, Json), string> {
    match call
    case JObj(fields) =>
      if Get(fields, "tool").None? then Err("'tool'")
      else if Get(fields, "arguments").None? then Err("'arguments'")
      else Ok((Get(fields, "tool").value, Get(fields, "arguments").value))
    case JArr(_) => Err("list indices must be integers or slices, not str")
    case JStr(_) => Err("string indices must be integers, not 'str'")
    case _ => Err("'" + TypeName(call) + "' object is not subscriptable")
  }

  lemma ReportStarts(prefix: string, e: string)
    ensures StartsWith(prefix + e, prefix)
  {
    assert (prefix + e)[..|prefix|] == prefix;
  }

  /** The history after one exchange: the most recent 20 entries. */
  function Exchange(history: seq<ChatEntry>, message: string, response: string): seq<ChatEntry> {
    Last(history + [ChatEntry("user", message), ChatEntry("assistant", response)], 20)
  }

  /**
    After an exchange the history ends with the user message and then the
    response, holds at most 20 entries, and keeps the most recent ones in
    order; nothing is dropped while it fits.
   */
  lemma ExchangeShape(history: seq<ChatEntry>, message: string, response: string)
    ensures var h := Exchange(history, message, response);
      2 <= |h| <= 20
      && h[|h| - 2] == ChatEntry("user", message) && h[|h| - 1] == ChatEntry("assistant", response)
      && h[..|h| - 2] == Last(history, 18)[..|h| - 2] && history[|history| - (|h| - 2)..] == h[..|h| - 2]
      && (|history| <= 18 ==> h == history + [ChatEntry("user", message), ChatEntry("assistant", response)])
  {
    var full := history + [ChatEntry("user", message), ChatEntry("assistant", response)];
    var h := Exchange(history, message, response);
    assert full == full[..|full| - |h|] + h;
    assert full[|full| - 2..] == [ChatEntry("user", message), ChatEntry("assistant", response)];
    assert h[..|h| - 2] == full[|full| - |h|..|full| - 2];
    assert history[|history| - (|h| - 2)..] == full[|full| - |h|..|full| - 2];
  }

  class DatabaseChatAgent {
    const sseUrl: string
    /** The prompts and fixed replies. */
    const wording: Wording
    /** `chat.completions.create(...).choices[0].message.content`, or the failure it raises. */
    const llm: ChatRequest -> Result<string, string>
    /** Connecting to the server at `sseUrl` and listing its tools, or the failure. */
    const connection: Result<seq<DbTool>, string>
    /** `session.call_tool(tool, arguments)`: the texts of the result's content, or the failure. */
    const callTool: (Json, Json) -> Result<seq<string>, string>
    var conversationHistory: seq<ChatEntry>

    constructor (llm: ChatRequest -> Result<string, string>, connection: Result<seq<DbTool>, string>,
                 callTool: (Json, Json) -> Result<seq<string>, string>)
      ensures this.llm == llm && this.connection == connection && this.callTool == callTool
      ensures sseUrl == "http://localhost:8100/sse" && wording == AgentWording
      ensures conversationHistory == []
    {
      this.llm := llm;
      this.connection := connection;
      this.callTool := callTool;
      sseUrl := "http://localhost:8100/sse";
      wording := AgentWording;
      conversationHistory := [];
    }

    /** What the model answers to `message` with `history` as context. */
    function Answer(history: seq<ChatEntry>, message: string, systemPrompt: Option<string>): Result<string, string> {
      llm(ChatRequest(ChatModel, ContextMessages(history, message, systemPrompt.GetOr(wording.systemPrompt))))
    }

    /** `llm_chat` */
    method LlmChat(message: string, systemPrompt: Option<string>) returns (r: Result<string, string>)
      ensures r == Answer(conversationHistory, message, systemPrompt)
    {
      var system := ChatEntry("system", systemPrompt.GetOr(wording.systemPrompt));
      var messages := [system];
      var recent := Last(conversationHistory, 6);
      var i := 0;
      while i < |recent|
        invariant 0 <= i <= |recent|
        invariant messages == [system] + recent[..i]
      {
        assert recent[..i + 1] == recent[..i] + [recent[i]];
        messages := messages + [recent[i]];
        i := i + 1;
      }
      assert recent[..i] == recent;
      messages := messages + [ChatEntry("user", message)];
      r := llm(ChatRequest(ChatModel, messages));
    }

    /** What `handle_database_operation` answers for `query` with `history` as context. */
    function DatabaseReply(history: seq<ChatEntry>, query: string): string {
      match connection
      case Err(_) => wording.connectFailed
      case Ok(tools) =>
        match Answer(history, ToolSelectionPrompt(wording, query, tools), None)
        case Err(_) => wording.connectFailed
        case Ok(selection) =>
          match ParseJson(selection)
          case None => wording.rephrase
          case Some(call) =>
            match ToolCallOf(call)
            case Err(e) => wording.errorPrefix + e
            case Ok((tool, args)) =>
              match callTool(tool, args)
              case Err(e) => wording.errorPrefix + e
              case Ok(content) =>
                if content == [] then wording.errorPrefix + "list index out of range"
                else
                  match Answer(history, ToolResponsePrompt(wording, query, content[0]), Some(wording.responseSystem))
                  case Err(e) => wording.errorPrefix + e
                  case Ok(text) => text
    }

    /** `handle_database_operation`, which turns every failure into a message. */
    method HandleDatabaseOperation(query: string) returns (response: string)
      ensures response == DatabaseReply(conversationHistory, query)
    {
      if connection.Err? {
        return wording.connectFailed;
      }
      var tools := connection.value;
      var toolPrompt := ToolSelectionPrompt(wording, query, tools);
      var toolSelection := LlmChat(toolPrompt, None);
      if toolSelection.Err? {
        return wording.connectFailed;
      }
      var toolCall := ParseJson(toolSelection.value);
      if toolCall.None? {
        return wording.rephrase;
      }
      var selected := ToolCallOf(toolCall.value);
      if selected.Err? {
        return wording.errorPrefix + selected.error;
      }
      var result := callTool(selected.value.0, selected.value.1);
      if result.Err? {
        return wording.errorPrefix + result.error;
      }
      if result.value == [] {
        return wording.errorPrefix + "list index out of range";
      }
      var toolResponse := result.value[0];
      var answer := LlmChat(ToolResponsePrompt(wording, query, toolResponse), Some(wording.responseSystem));
      if answer.Err? {
        return wording.errorPrefix + answer.error;
      }
      return answer.value;
    }

    /**
      The database reply is one of the fixed messages, an error report, or
      the model's rephrasing of the first text of the tool's result.
     */
    lemma DatabaseReplyCases(history: seq<ChatEntry>, query: string)
      ensures var reply := DatabaseReply(history, query);
        reply == wording.connectFailed || reply == wording.rephrase || StartsWith(reply, wording.errorPrefix)
        || exists c :: Answer(history, ToolResponsePrompt(wording, query, c), Some(wording.responseSystem)) == Ok(reply)
    {
      var reply := DatabaseReply(history, query);
      if connection.Ok? {
        var selection := Answer(history, ToolSelectionPrompt(wording, query, connection.value), None);
        if selection.Ok? && ParseJson(selection.value).Some? {
          var call := ToolCallOf(ParseJson(selection.value).value);
          if call.Err? {
            ReportStarts(wording.errorPrefix, call.error);
          } else {
            var result := callTool(call.value.0, call.value.1);
            if result.Err? {
              ReportStarts(wording.errorPrefix, result.error);
            } else if result.value == [] {
              ReportStarts(wording.errorPrefix, "list index out of range");
            } else {
              var c := result.value[0];
              var answer := Answer(history, ToolResponsePrompt(wording, query, c), Some(wording.responseSystem));
              if answer.Err? {
                ReportStarts(wording.errorPrefix, answer.error);
              } else {
                assert answer == Ok(reply);
              }
            }
          }
        }
      }
    }

    /** The model's tool selection for `query`, once the server's tools are listed. */
    function Selection(history: seq<ChatEntry>, query: string): Result<string, string>
      requires connection.Ok?
    {
      Answer(history, ToolSelectionPrompt(wording, query, connection.value), None)
    }

    /** A failed connection is reported as the connection message. */
    lemma DatabaseReplyNoConnection(history: seq<ChatEntry>, query: string)
      requires connection.Err?
      ensures DatabaseReply(history, query) == wording.connectFailed
    {
    }

    /**
      A failed tool-selection call is reported as the connection message too,
      since it happens outside the inner `try`.
     */
    lemma DatabaseReplySelectionFailed(history: seq<ChatEntry>, query: string)
      requires connection.Ok? && Selection(history, query).Err?
      ensures DatabaseReply(history, query) == wording.connectFailed
    {
    }

    /** A selection without `tool` or `arguments`, or one that is not a dict, is reported with its error. */
    lemma DatabaseReplyBadSelection(history: seq<ChatEntry>, query: string)
      requires connection.Ok? && Selection(history, query).Ok?
      requires ParseJson(Selection(history, query).value).Some?
      requires ToolCallOf(ParseJson(Selection(history, query).value).value).Err?
      ensures DatabaseReply(history, query)
           == wording.errorPrefix + ToolCallOf(ParseJson(Selection(history, query).value).value).error
    {
    }

    /** A failing tool call is reported with its error. */
    lemma DatabaseReplyToolFailed(history: seq<ChatEntry>, query: string, tool: Json, args: Json)
      requires connection.Ok? && Selection(history, query).Ok?
      requires ParseJson(Selection(history, query).value).Some?
      requires ToolCallOf(ParseJson(Selection(history, query).value).value) == Ok((tool, args))
      requires callTool(tool, args).Err?
      ensures DatabaseReply(history, query) == wording.errorPrefix + callTool(tool, args).error
    {
    }

    /** A tool result without content is reported as the `IndexError` of `content[0]`. */
    lemma DatabaseReplyEmptyResult(history: seq<ChatEntry>, query: string, tool: Json, args: Json)
      requires connection.Ok? && Selection(history, query).Ok?
      requires ParseJson(Selection(history, query).value).Some?
      requires ToolCallOf(ParseJson(Selection(history, query).value).value) == Ok((tool, args))
      requires callTool(tool, args) == Ok([])
      ensures DatabaseReply(history, query) == wording.errorPrefix + "list index out of range"
    {
    }

    /**
      Otherwise the reply is the model's rephrasing of the first text of the
      result, or the error of that model call.
     */
    lemma DatabaseReplyRephrased(history: seq<ChatEntry>, query: string, tool: Json, args: Json)
      requires connection.Ok? && Selection(history, query).Ok?
      requires ParseJson(Selection(history, query).value).Some?
      requires ToolCallOf(ParseJson(Selection(history, query).value).value) == Ok((tool, args))
      requires callTool(tool, args).Ok? && callTool(tool, args).value != []
      ensures var answer := Answer(history, ToolResponsePrompt(wording, query, callTool(tool, args).value[0]),
                                   Some(wording.responseSystem));
        DatabaseReply(history, query) == if answer.Ok? then answer.value else wording.errorPrefix + answer.error
    {
    }

    /** A reply that is not JSON asks the user to rephrase. */
    lemma DatabaseReplyNotJson(history: seq<ChatEntry>, query: string)
      requires connection.Ok?
      requires Answer(history, ToolSelectionPrompt(wording, query, connection.value), None).Ok?
      requires ParseJson(Answer(history, ToolSelectionPrompt(wording, query, connection.value), None).value).None?
      ensures DatabaseReply(history, query) == wording.rephrase
    {
    }

    /**
      `chat`: a database request always gets a reply; plain chat fails when
      the model call fails, leaving the history alone. Otherwise the
      exchange is recorded.
     */
    method Chat(message: string) returns (r: Result<string, string>)
      modifies this
      ensures r == if DetectIntent(message) then Ok(DatabaseReply(old(conversationHistory), message))
                   else Answer(old(conversationHistory), message, None)
      ensures r.Err? ==> conversationHistory == old(conversationHistory)
      ensures r.Ok? ==> conversationHistory == Exchange(old(conversationHistory), message, r.value)
    {
      var response: string;
      if DetectIntent(message) {
        response := HandleDatabaseOperation(message);
      } else {
        var answer := LlmChat(message, None);
        if answer.Err? {
          return Err(answer.error);
        }
        response := answer.value;
      }
      ghost var before := conversationHistory;
      conversationHistory := conversationHistory + [ChatEntry("user", message)];
      conversationHistory := conversationHistory + [ChatEntry("assistant", response)];
      assert conversationHistory == before + [ChatEntry("user", message), ChatEntry("assistant", response)];
      if |conversationHistory| > 20 {
        conversationHistory := conversationHistory[|conversationHistory| - 20..];
      }
      assert conversationHistory == Exchange(before, message, response);
      return Ok(response);
    }
  }
}
