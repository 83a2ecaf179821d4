/**
  The MCP client: it projects the session's tool list into the catalog the
  vendor adapter is given, scans the adapter's text for tool-call markers,
  calls each marked tool once in textual order and appends each result to
  the text. It also chooses the transport for a target and the provider
  from the command line.
 */
module Client {
  import opened Wrappers
  import opened Text
  import opened Json
  import opened Markers
  import opened Llm
  import Models

  /** A tool as `list_tools` reports it; its schema may be absent. */
  datatype McpTool = McpTool(name: string, description: Option<string>, inputSchema: Option<Dict<Json>>)

  /** `dict(tool.inputSchema) if tool.inputSchema else {}` */
  function SchemaOf(t: McpTool): (r: Dict<Json>)
    ensures t.inputSchema.None? ==> r == []
    ensures t.inputSchema.Some? ==> r == t.inputSchema.value
  {
    match t.inputSchema
    case None => []
    case Some(schema) => schema
  }

  /** The catalog handed to the adapter: one `{name, description, input_schema}` per listed tool. */
  function ProjectTools(tools: seq<McpTool>): (r: seq<ToolSpec>)
    ensures |r| == |tools|
    ensures forall i :: 0 <= i < |tools| ==>
      r[i].name == tools[i].name && r[i].description == tools[i].description
      && r[i].inputSchema == SchemaOf(tools[i])
  {
    if tools == [] then []
    else [ToolSpec(tools[0].name, tools[0].description, SchemaOf(tools[0]))] + ProjectTools(tools[1..])
  }

  function SpecNames(specs: seq<ToolSpec>): seq<string> {
    if specs == [] then [] else [specs[0].name] + SpecNames(specs[1..])
  }

  function ToolNames(tools: seq<McpTool>): seq<string> {
    if tools == [] then [] else [tools[0].name] + ToolNames(tools[1..])
  }

  /** The catalog lists exactly the session's tool names, in order. */
  lemma {:induction false} ProjectToolsNames(tools: seq<McpTool>)
    ensures SpecNames(ProjectTools(tools)) == ToolNames(tools)
  {
    if tools != [] {
      ProjectToolsNames(tools[1..]);
      assert ProjectTools(tools)[1..] == ProjectTools(tools[1..]);
    }
  }

  /**
    An MCP tool session: the tools it lists and, for each call, a reply that
    may depend on every call made before it. The log records the calls.
   */
  class ToolSession {
    const tools: seq<McpTool>
    const respond: (seq<(string, Json)>, string, Json) -> Result<string, string>
    var log: seq<(string, Json)>

    constructor (tools: seq<McpTool>, respond: (seq<(string, Json)>, string, Json) -> Result<string, string>)
      ensures this.tools == tools && this.respond == respond && log == []
    {
      this.tools := tools;
      this.respond := respond;
      log := [];
    }

    /** `session.list_tools()` */
    method ListTools() returns (ts: seq<McpTool>)
      ensures ts == tools
    {
      ts := tools;
    }

    /** `session.call_tool(name, args)`: the call is recorded whether or not it succeeds. */
    method CallTool(name: string, args: Json) returns (r: Result<string, string>)
      modifies this
      ensures log == old(log) + [(name, args)]
      ensures r == respond(old(log), name, args)
    {
      r := respond(log, name, args);
      log := log + [(name, args)];
    }
  }

  /**
    The calls made in order against a session whose log starts as `log0`:
    the final log and either every result or the first failure.
   */
  function Run(respond: (seq<(string, Json)>, string, Json) -> Result<string, string>,
               log0: seq<(string, Json)>, calls: seq<(string, Json)>): (r: (seq<(string, Json)>, Result<seq<string>, string>))
    ensures r.1.Ok? ==> r.0 == log0 + calls && |r.1.value| == |calls|
    ensures r.1.Err? ==> |log0| < |r.0| <= |log0| + |calls| && r.0 == log0 + calls[..|r.0| - |log0|]
  {
    if calls == [] then (log0, Ok([]))
    else
      var prev := Run(respond, log0, calls[..|calls| - 1]);
      var c := calls[|calls| - 1];
      if prev.1.Err? then prev
      else
        assert calls == calls[..|calls| - 1] + [c];
        match respond(prev.0, c.0, c.1)
        case Ok(s) => (prev.0 + [c], Ok(prev.1.value + [s]))
        case Err(e) => (prev.0 + [c], Err(e))
  }

  /** One more call: it sees the log so far and its failure ends the run. */
  lemma RunStep(respond: (seq<(string, Json)>, string, Json) -> Result<string, string>,
                log0: seq<(string, Json)>, calls: seq<(string, Json)>, i: nat)
    requires i < |calls| && Run(respond, log0, calls[..i]).1.Ok?
    ensures
      var prev := Run(respond, log0, calls[..i]);
      Run(respond, log0, calls[..i + 1])
        == (prev.0 + [calls[i]],
            match respond(prev.0, calls[i].0, calls[i].1)
            case Ok(s) => Ok(prev.1.value + [s])
            case Err(e) => Err(e))
  {
    assert calls[..i + 1][..i] == calls[..i];
  }

  /** Once a call has failed, the later calls are never made. */
  lemma {:induction false} RunStopsAtError(respond: (seq<(string, Json)>, string, Json) -> Result<string, string>,
                         log0: seq<(string, Json)>, calls: seq<(string, Json)>, k: nat)
    requires k <= |calls| && Run(respond, log0, calls[..k]).1.Err?
    ensures Run(respond, log0, calls) == Run(respond, log0, calls[..k])
    decreases |calls|
  {
    if k < |calls| {
      var init := calls[..|calls| - 1];
      assert init[..k] == calls[..k];
      RunStopsAtError(respond, log0, init, k);
    } else {
      assert calls[..k] == calls;
    }
  }

  /** When every call succeeds, call `i` saw exactly the log of the calls before it. */
  lemma {:induction false} RunResults(respond: (seq<(string, Json)>, string, Json) -> Result<string, string>,
                    log0: seq<(string, Json)>, calls: seq<(string, Json)>, i: nat)
    requires Run(respond, log0, calls).1.Ok? && i < |calls|
    ensures respond(log0 + calls[..i], calls[i].0, calls[i].1) == Ok(Run(respond, log0, calls).1.value[i])
    decreases |calls|
  {
    var init := calls[..|calls| - 1];
    if i < |calls| - 1 {
      assert init[..i] == calls[..i];
      RunResults(respond, log0, init, i);
    } else {
      assert init == calls[..i];
    }
  }

  /** `f"\n[tool results: {result}]"` */
  function ResultLine(result: string): string {
    "\n[tool results: " + result + "]"
  }

  /** One result line per result, in call order. */
  function Suffix(results: seq<string>): string {
    if results == [] then ""
    else Suffix(results[..|results| - 1]) + ResultLine(results[|results| - 1])
  }

  lemma SuffixStep(results: seq<string>, r: string)
    ensures Suffix(results + [r]) == Suffix(results) + ResultLine(r)
  {
    assert (results + [r])[..|results|] == results;
  }

  lemma {:induction false} SuffixConcat(a: seq<string>, b: seq<string>)
    ensures Suffix(a + b) == Suffix(a) + Suffix(b)
    decreases |b|
  {
    if b == [] {
      assert a + b == a;
    } else {
      var bi := b[..|b| - 1];
      var x := b[|b| - 1];
      assert b == bi + [x];
      assert a + b == (a + bi) + [x];
      SuffixStep(a + bi, x);
      SuffixStep(bi, x);
      SuffixConcat(a, bi);
      AppendAssoc(Suffix(a), Suffix(bi), ResultLine(x));
    }
  }

  /**
    What `process_query` does once the adapter has answered: the session's
    new log and the returned text and transcript, or the first failure.
   */
  function Outcome(reply: Result<(string, seq<Message>), string>,
                   respond: (seq<(string, Json)>, string, Json) -> Result<string, string>,
                   log0: seq<(string, Json)>): (seq<(string, Json)>, Result<(string, seq<Message>), string>)
  {
    match reply
    case Err(e) => (log0, Err(e))
    case Ok((text, messages)) =>
      var run := Run(respond, log0, ToolCalls(text));
      match run.1
      case Ok(results) => (run.0, Ok((text + Suffix(results), messages)))
      case Err(e) => (run.0, Err(e))
  }

  /**
    On success the session was called once per marker of the adapter's text,
    in textual order and with the parsed arguments; the text returned starts
    with the adapter's text, followed by one result line per call; and the
    transcript is the adapter's, unchanged.
   */
  lemma OutcomeOk(reply: Result<(string, seq<Message>), string>,
                  respond: (seq<(string, Json)>, string, Json) -> Result<string, string>,
                  log0: seq<(string, Json)>)
    requires Outcome(reply, respond, log0).1.Ok?
    ensures reply.Ok?
    ensures Outcome(reply, respond, log0).0 == log0 + ToolCalls(reply.value.0)
    ensures |Outcome(reply, respond, log0).0| == |log0| + |Scan(reply.value.0)|
    ensures exists results: seq<string> | |results| == |Scan(reply.value.0)| ::
      Outcome(reply, respond, log0).1.value == (reply.value.0 + Suffix(results), reply.value.1)
  {
    var run := Run(respond, log0, ToolCalls(reply.value.0));
    assert |run.1.value| == |Scan(reply.value.0)|;
  }

  /** A failing adapter or tool call is reported, and no call is made after a failing one. */
  lemma OutcomeErr(reply: Result<(string, seq<Message>), string>,
                   respond: (seq<(string, Json)>, string, Json) -> Result<string, string>,
                   log0: seq<(string, Json)>)
    requires Outcome(reply, respond, log0).1.Err?
    ensures reply.Err? ==> Outcome(reply, respond, log0) == (log0, Err(reply.error))
    ensures reply.Ok? ==>
      var log := Outcome(reply, respond, log0).0;
      var calls := ToolCalls(reply.value.0);
      |log0| < |log| <= |log0| + |calls| && log == log0 + calls[..|log| - |log0|]
  {
  }

  const NoSession := "Client session is not initialized."

  /** Where a server is reached. */
  datatype Transport = Sse(url: string) | Stdio(command: string, args: seq<string>)

  /** `re.match(r'^https?://', target)` */
  predicate IsUrl(target: string) {
    StartsWith(target, "http://") || StartsWith(target, "https://")
  }

  const BadScript := "Server script must be a .py, .js file or npm package."

  /** The command `connect_to_stdio_server` runs for a path. */
  function StdioCommand(path: string): (r: Result<Transport, string>)
    ensures r.Ok? ==> r.value.Stdio? && r.value.args == [path]
    ensures r.Err? ==> r.error == BadScript
  {
    if StartsWith(path, "@") || '/' !in path then Ok(Stdio("npx", [path]))
    else
      var isPython := EndsWith(path, ".py");
      var isJavaScript := EndsWith(path, ".js");
      if !(isPython || isJavaScript) then Err(BadScript)
      else Ok(Stdio(if isPython then "python" else "node", [path]))
  }

  /** `connect_to_server`: SSE for an `http(s)://` URL, stdio otherwise. */
  function ConnectPlan(target: string): (r: Result<Transport, string>)
    ensures r.Ok? && r.value.Sse? ==> r.value.url == target
  {
    if IsUrl(target) then Ok(Sse(target)) else StdioCommand(target)
  }

  /** A URL always goes over SSE and anything else never does. */
  lemma SseIffUrl(target: string)
    ensures ConnectPlan(target).Ok? && ConnectPlan(target).value.Sse? <==> IsUrl(target)
  {
  }

  /** The stdio command for a non-URL target, case by case. */
  lemma StdioCases(path: string)
    requires !IsUrl(path)
    ensures (ConnectPlan(path) == Ok(Stdio("npx", [path]))) <==> (StartsWith(path, "@") || '/' !in path)
    ensures (ConnectPlan(path) == Ok(Stdio("python", [path])))
        <==> (!StartsWith(path, "@") && '/' in path && EndsWith(path, ".py"))
    ensures (ConnectPlan(path) == Ok(Stdio("node", [path])))
        <==> (!StartsWith(path, "@") && '/' in path && !EndsWith(path, ".py") && EndsWith(path, ".js"))
    ensures ConnectPlan(path).Err?
        <==> (!StartsWith(path, "@") && '/' in path && !EndsWith(path, ".py") && !EndsWith(path, ".js"))
  {
  }

  /** A bare script name such as `weather.py` has no `/`, so it is run with `npx`, not `python`. */
  lemma BareScriptUsesNpx(path: string)
    requires '/' !in path && !IsUrl(path)
    ensures ConnectPlan(path) == Ok(Stdio("npx", [path]))
  {
  }

  /** The providers the client accepts. */
  predicate Supported(provider: string) {
    provider == "anthropic" || provider == "openai" || provider == "gemini"
  }

  /** The model the constructor hard-codes for each provider. */
  function ConstructorModel(provider: string): (r: Option<string>)
    ensures r.Some? <==> Supported(provider)
  {
    if provider == "anthropic" then Some("claude-3-5-sonnet-20241022")
    else if provider == "openai" then Some("gpt-4o")
    else if provider == "gemini" then Some("gemini-2.0-flash")
    else None
  }

  /** The constructor's models are the tables' defaults, and it accepts the providers the tables know. */
  lemma ConstructorModelsAreDefaults(provider: string)
    ensures ConstructorModel(provider).Some? <==> Models.GetModel(provider).Ok?
    ensures ConstructorModel(provider).Some? ==> Models.GetModel(provider) == Ok(ConstructorModel(provider).value)
  {
  }

  function Unsupported(provider: string): string {
    "Unsupported LLM provider: " + provider + ". Use 'anthropic', 'openai', or 'gemini'."
  }

  const UsageLine := "Usage: python client.py <server_script_path_or_url> [llm_provider]"

  /** `main`'s reading of `sys.argv`: the target and the provider, or the usage text. */
  function CommandLine(argv: seq<string>): (r: Result<(string, string), string>)
    ensures r.Err? <==> |argv| < 2
    ensures r.Err? ==> r.error == UsageLine
    ensures r.Ok? ==> r.value.0 == argv[1]
  {
    if |argv| < 2 then Err(UsageLine)
    else if |argv| > 2 && Supported(Lower(argv[2])) then Ok((argv[1], Lower(argv[2])))
    else Ok((argv[1], "anthropic"))
  }

  /**
    The provider read from the command line is always one the constructor
    accepts: a recognised name in any letter case, and `anthropic` for
    anything else.
   */
  lemma CommandLineProvider(argv: seq<string>)
    requires |argv| >= 2
    ensures Supported(CommandLine(argv).value.1)
    ensures ConstructorModel(CommandLine(argv).value.1).Some?
    ensures |argv| > 2 && Supported(Lower(argv[2])) ==> CommandLine(argv).value.1 == Lower(argv[2])
    ensures !(|argv| > 2 && Supported(Lower(argv[2]))) ==> CommandLine(argv).value.1 == "anthropic"
  {
  }

  class MCPClient {
    const provider: string
    const model: string
    /** The adapter's `process_query`: text and transcript, or the failure it raises. */
    const llm: (string, seq<ToolSpec>, Option<seq<Message>>) -> Result<(string, seq<Message>), string>
    var session: ToolSession?

    constructor (provider: string, model: string,
                 llm: (string, seq<ToolSpec>, Option<seq<Message>>) -> Result<(string, seq<Message>), string>)
      ensures this.provider == provider && this.model == model && this.llm == llm && session == null
    {
      this.provider := provider;
      this.model := model;
      this.llm := llm;
      session := null;
    }

    /** `MCPClient(llm_provider)`: the provider's model, or the `ValueError` for any other provider. */
    static method Create(provider: string,
                         llm: (string, seq<ToolSpec>, Option<seq<Message>>) -> Result<(string, seq<Message>), string>)
      returns (r: Result<MCPClient, string>)
      ensures r.Ok? <==> Supported(provider)
      ensures r.Ok? ==>
        fresh(r.value) && r.value.provider == provider && r.value.llm == llm
        && Some(r.value.model) == ConstructorModel(provider) && r.value.session == null
      ensures r.Err? ==> r.error == Unsupported(provider)
    {
      var m := ConstructorModel(provider);
      if m.None? {
        return Err(Unsupported(provider));
      }
      var c := new MCPClient(provider, m.value, llm);
      return Ok(c);
    }

    /**
      `connect_to_server`: the transport chosen for the target; on success
      the session this transport yields (`server`) becomes the client's.
     */
    method ConnectToServer(target: string, server: ToolSession) returns (r: Result<Transport, string>)
      modifies this
      ensures r == ConnectPlan(target)
      ensures session == if r.Ok? then server else old(session)
    {
      if IsUrl(target) {
        r := Ok(Sse(target));
      } else {
        r := StdioCommand(target);
      }
      if r.Ok? {
        session := server;
      }
    }

    /**
      `process_query`: the adapter's text with one result line per marker it
      contains, calling the marked tools in textual order; markers inside
      the results are never scanned. The transcript is the adapter's.
     */
    method ProcessQuery(query: string, previous: Option<seq<Message>>)
      returns (r: Result<(string, seq<Message>), string>)
      modifies session
      ensures session == old(session)
      ensures session == null ==> r == Err(NoSession)
      ensures session != null ==>
        (session.log, r) == Outcome(llm(query, ProjectTools(session.tools), previous), session.respond, old(session.log))
    {
      if session == null {
        return Err(NoSession);
      }
      var s := session;
      ghost var log0 := s.log;
      var listed := s.ListTools();
      var availableTools := ProjectTools(listed);
      var reply := llm(query, availableTools, previous);
      if reply.Err? {
        return Err(reply.error);
      }
      var text := reply.value.0;
      var messages := reply.value.1;
      var answer := CallMarkedTools(s, text);
      assert reply == Ok((text, messages));
      if answer.Err? {
        return Err(answer.error);
      }
      return Ok((answer.value, messages));
    }

    /**
      The loop of `process_query`: every marker of `text`, in order, becomes
      a call on the session, and each result is appended to the text; the
      first failing call ends the loop.
     */
    method CallMarkedTools(s: ToolSession, text: string) returns (r: Result<string, string>)
      modifies s
      ensures var run := Run(s.respond, old(s.log), ToolCalls(text));
        s.log == run.0 && r == (if run.1.Ok? then Ok(text + Suffix(run.1.value)) else Err(run.1.error))
    {
      ghost var log0 := s.log;
      var matches := Scan(text);
      ghost var calls := ToolCalls(text);
      var responseText := text;
      var results: seq<string> := [];
      var i := 0;
      while i < |matches|
        invariant 0 <= i <= |matches|
        invariant s.log == Run(s.respond, log0, calls[..i]).0
        invariant Run(s.respond, log0, calls[..i]).1 == Ok(results)
        invariant responseText == text + Suffix(results)
      {
        var toolName := matches[i].0;
        var toolArgs := ParseArgs(matches[i].1);
        assert (toolName, toolArgs) == calls[i];
        RunStep(s.respond, log0, calls, i);
        var result := s.CallTool(toolName, toolArgs);
        if result.Err? {
          RunStopsAtError(s.respond, log0, calls, i + 1);
          return Err(result.error);
        }
        assert Run(s.respond, log0, calls[..i + 1]) == (s.log, Ok(results + [result.value]));
        SuffixStep(results, result.value);
        AppendAssoc(text, Suffix(results), ResultLine(result.value));
        results := results + [result.value];
        responseText := responseText + ResultLine(result.value);
        i := i + 1;
      }
      assert calls[..i] == calls;
      return Ok(responseText);
    }
  }
}
