# MCP client core, modelled in Dafny

This project models the deterministic core of a small MCP client written in
Python. The client asks an LLM vendor (Anthropic, OpenAI or Gemini) to answer
a query and lets it use the tools of an MCP server. It also models the
database chat agent of the `03/` example.

What the model covers:

- **Tool-call markers.** Each vendor adapter writes every tool invocation of
  the vendor's reply into its text as `[Tool call: <name> with args <args>]`.
  The client finds the markers with the pattern
  `\[Tool call: ([\w\-]+) with args (.+?)\]`. It reads each argument text as
  JSON after turning `'` into `"`, falling back to `{}`. It calls the tools
  one by one in textual order, and appends `\n[tool results: <result>]` per
  call (`markers.dfy`, `client.dfy`).
- **The three adapters.** Each one builds the transcript, projects the
  tool catalog into the vendor's shape, and folds the vendor's reply into
  one `"\n"`-joined text (`anthropic.dfy`, `openai.dfy`, `gemini.dfy`).
  Gemini also converts schema type names and the chat history, and parses
  function-call arguments.
- **Transport, provider and model choice** (`client.dfy`, `models.dfy`).
- **The database chat agent** (`database_chat.dfy`):
  - keyword intent detection;
  - the prompts;
  - the six-entry context window;
  - the error-to-message mapping of the database round trip;
  - the conversation history bounded to 20 entries.

The rendering and the reading of arguments are both modelled, so that the
round trip "adapter writes a marker, client reads it back" is a theorem
relating them:

- Python's `str` and `repr` of a JSON value (`py_repr.dfy`). The f-string of
  a marker writes `str(args)`: a string as itself, any other value as its
  `repr`;
- a JSON reader for the subset of `json.loads` without floats and `\u`
  escapes (`json_parser.dfy`);
- a JSON writer (`json_encoder.dfy`);
- Python dicts as ordered key/value lists (`json.dfy`).

The vendor SDKs and the MCP session are parameters:

- Each adapter holds a `vendor` function from the request it sends to the
  reply it gets.
- The client's `ToolSession` is a class with a `respond` oracle (the result of
  a call, given the calls made before it) and a `log` of the calls made.
- The database agent holds its model call, its server connection and its
  tool call as function-typed fields.

The round trip holds only for JSON-like values. A marker whose arguments
contain a boolean or `None` reaches the tool as `{}`: `repr` writes `True`,
`False` or `None`, which `json.loads` refuses (`Markers.BoolArgsLost`). So
does one with a quote character inside a string. Arguments whose `repr` holds
a `]`, such as a list, are cut at the first `]` (`Markers.ArgsCutAtBracket`).
Arguments that are a bare string are written without quotes. The tool then
receives the parse of the string's own text, or `{}`, and never the string
itself (`Markers.StringArgsCalls`, `Markers.StringArgsNeverKept`).

The command line does not reject an unknown provider. `main` falls back to
`anthropic` for any unrecognised or missing provider name; only the
constructor raises `ValueError` (`Client.CommandLineProvider`,
`Client.MCPClient.Create`).

A bare script name such as `weather.py` contains no `/`, so it runs with
`npx` and not with `python` (`Client.BareScriptUsesNpx`).

## Model

| member | source | states |
|---|---|---|
| Client.SchemaOf | client.py:116 | the catalog entry's schema is the tool's schema, or `{}` when the tool has none |
| Client.ProjectTools | client.py:113-117 | one catalog entry per listed tool, in the same order, with name and description copied and the schema or `{}` |
| Client.ProjectToolsNames | client.py:113-117 | the catalog's names are the session's tool names, in order |
| Client.ToolSession.ListTools | client.py:112 | the session lists the server's tools, unchanged |
| Client.ToolSession.CallTool | client.py:133 | a call is appended to the session's log, and its result is the server's answer given the calls made before it |
| Client.Run | client.py:127-134 | when every call succeeds, the log grows by exactly the calls, in order, with one result per call; when one fails, the log grows by a non-empty prefix of the calls |
| Client.RunStep | client.py:127-134 | one more call extends the log by that call and the results by its result, or ends in its failure |
| Client.RunStopsAtError | client.py:127-134 | once a call fails, no later call is made |
| Client.RunResults | client.py:133 | the i-th result is the server's answer to the i-th call, given the calls before it |
| Client.SuffixStep | client.py:134 | one more result appends exactly `\n[tool results: r]` |
| Client.SuffixConcat | client.py:134 | the result lines of two batches are the lines of the first followed by those of the second |
| Client.OutcomeOk | client.py:120-136 | on success the adapter succeeded, the session was called once per marker of the adapter's text in textual order with the parsed arguments, and the reply is the adapter's text followed by one result line per marker, with the adapter's transcript unchanged |
| Client.OutcomeErr | client.py:120-136 | an adapter failure leaves the session's log alone; a tool failure happens after a non-empty prefix of the marked calls |
| Client.MCPClient.ProcessQuery | client.py:107-136 | without a session it fails with `Client session is not initialized.`; otherwise the new log and the result are those of `Outcome` for the adapter's answer to the projected catalog |
| Client.MCPClient.CallMarkedTools | client.py:125-134 | the loop makes the calls of `ToolCalls(text)` in order, and returns the text with one result line per call, or the first failure |
| Client.StdioCommand | client.py:72-85 | the stdio argument list is always `[path]`, and the only failure is the `.py`/`.js` error |
| Client.ConnectPlan | client.py:100-105 | an SSE transport connects to the target itself |
| Client.SseIffUrl | client.py:100-105 | the SSE transport is chosen exactly when the target starts with `http://` or `https://` |
| Client.StdioCases | client.py:76-85 | for a non-URL target: `npx` iff it starts with `@` or has no `/`; otherwise `python` iff it ends with `.py`, `node` iff it ends with `.js` only, and the error otherwise |
| Client.BareScriptUsesNpx | client.py:77-79 | a target without `/` runs with `npx`, whatever its suffix |
| Client.MCPClient.ConnectToServer | client.py:100-105 | the transport chosen is `ConnectPlan(target)`, and the session is set only when it succeeds |
| Client.ConstructorModel | client.py:47-57 | a model exists exactly for `anthropic`, `openai` and `gemini` |
| Client.ConstructorModelsAreDefaults | client.py:47-57 | the constructor accepts exactly the providers `get_model` knows, and its hard-coded models are their `"default"` entries |
| Client.MCPClient.Create | client.py:40-57 | a client is made exactly for a supported provider, with that provider's model and no session; any other provider gives the `ValueError` text |
| Client.CommandLine | client.py:145-158 | fewer than two arguments give the usage line; otherwise the target is `argv[1]` |
| Client.CommandLineProvider | client.py:156-158 | the provider is the lowercased third argument when it is supported, and `anthropic` otherwise; either way the constructor accepts it |
| Markers.NameRun | client.py:125 | the greedy `[\w\-]+` run: only name characters, ending before the first other character |
| Markers.ArgsEnd | client.py:125 | the lazy `(.+?)\]` stops at the first `]` after at least one character, and its capture has no line break |
| Markers.MatchAt | client.py:125 | a match at the start of the text is a marker of a valid name and valid argument text, and it spans exactly that marker |
| Markers.MatchAtIff | client.py:125 | the pattern matches with a given name and argument text exactly when the text starts with their marker and both are valid |
| Markers.Scan | client.py:125-126 | every match has a `[\w-]+` name and argument text without a line break or a `]` past its first character |
| Markers.ScanMarker | client.py:125-126 | a marker is found, and the search resumes right after it |
| Markers.ScanProse | client.py:125-126 | text without `[` adds no match and does not disturb what follows |
| Markers.ScanJoined | client.py:125-126 | scanning the `"\n"`-joined pieces of an adapter's text recovers its invocations exactly, in order, when its prose has no `[` |
| Markers.ScanAfterProse | services/openai.py:48-57 | a leading prose piece without `[` adds no invocation |
| Markers.ToolCalls | client.py:126-131 | one call per match, in order, with the name and the parsed arguments |
| Markers.InvocationsConcat | client.py:127 | the invocations of two runs of pieces are those of the first followed by those of the second |
| Markers.ScanReprMarker | services/anthropic.py:44 | a marker written with `repr` of a value without lists or `]` is matched whole |
| Markers.ParseArgsRepr | client.py:129 | argument text that is `repr` of a JSON-like value reads back as that value |
| Markers.ArgsCutAtBracket | client.py:125 | argument text holding a `]` reaches the tool cut at that `]` |
| Markers.ScanStrMarker | services/openai.py:57 | a marker written with `str` of a value is matched whole when a string value is itself valid argument text and any other value has no list or `]` |
| Markers.ParseArgsStr | client.py:129 | argument text that is `str` of a JSON-like value other than a string reads back as that value |
| Markers.StringArgsCalls | client.py:125-131 | a marker whose arguments are a bare string gives one call with the parse of that string's own text, or `{}` |
| Markers.StringArgsNeverKept | client.py:128-131 | a string argument never reaches the tool as that string |
| Markers.BareWordLost | client.py:128-131 | the string `hi` as arguments is written `with args hi` and reaches the tool as `{}` |
| Markers.BoolArgsLost | client.py:128-131 | a dict whose first entry holds a boolean reaches the tool as `{}` |
| PyRepr.ReprAsJson | client.py:129 | replacing the quotes of `repr` of a JSON-like value gives its JSON text |
| PyRepr.ReprNoNewline | client.py:125 | `repr` never writes a line break |
| PyRepr.ReprNoBracket | client.py:125 | `repr` of a value without lists or `]` in its strings has no `]` |
| PyRepr.JsonLikeEncodable | client.py:129 | a JSON-like value is one the JSON reader can read back |
| JsonEncoder.ParseJsonEncode | client.py:129 | the JSON reader reads back exactly what the JSON writer wrote |
| Json.AssignGet | services/gemini.py:100 | after `d[k] = v`, `k` maps to `v` and every other key keeps its value |
| Json.AssignKeys | services/gemini.py:100 | `d[k] = v` keeps the key order, and appends `k` only when it is new |
| Json.BuildDictOfUnique | services/gemini.py:98-100 | copying a dict without repeated keys entry by entry gives the same dict |
| AnthropicAdapter.AnthropicService.ProcessQuery | services/anthropic.py:12-47 | the transcript is the previous entries plus the user entry, never the assistant's content; the catalog is sent unchanged with `max_tokens` 1000; the text is the `"\n"`-join of the rendered blocks of the reply, with `str` of each tool input |
| AnthropicAdapter.RenderBlocks | services/anthropic.py:33-45 | the loop yields one entry per text block and one marker with `str` of the input per tool use, in reply order |
| AnthropicAdapter.BlockRendered | services/anthropic.py:36-45 | a text block gives its text, a tool use gives its marker, and any other block gives nothing |
| AnthropicAdapter.BlockInvocations | services/anthropic.py:40-44 | the invocations written are exactly the reply's tool uses, in order |
| AnthropicAdapter.ReplyScan | services/anthropic.py:44 | when the texts hold no `[` and each input's `str` can be captured, the client's scan finds exactly the tool uses with `str` of their inputs, in order |
| AnthropicAdapter.ReplyToolCalls | services/anthropic.py:44 | when the inputs are also JSON-like and not strings, the client calls exactly the reply's tools, in order, with exactly their inputs |
| OpenAIAdapter.ProjectTools | services/openai.py:17-26 | one function tool per catalog entry, in order |
| OpenAIAdapter.ToolOfFunctionTool | services/openai.py:18-24 | the catalog entry is read back from its function tool: nothing is lost |
| OpenAIAdapter.ProjectToolsLossless | services/openai.py:17-26 | every catalog entry is recovered from its projection |
| OpenAIAdapter.OpenAIService.ProcessQuery | services/openai.py:13-63 | the result is `Outcome` of the vendor's reply to the previous entries plus the user entry and the projected tools, with `tool_choice` `auto`; its markers carry `str` of the decoded arguments |
| OpenAIAdapter.RenderCalls | services/openai.py:47-57 | the loop yields the content or `""`, then one marker per tool call with `str` of its decoded arguments, or fails at the first call whose arguments are outside the reader's JSON subset |
| OpenAIAdapter.CallPiecesSome | services/openai.py:54-57 | the markers can be written exactly when every call's arguments are in the reader's JSON subset |
| OpenAIAdapter.CallPiecesStep | services/openai.py:54-57 | one more tool call adds one marker |
| OpenAIAdapter.OutcomeTranscript | services/openai.py:28-53 | the transcript is the previous entries plus the user entry, plus one assistant entry with content and calls exactly when there are tool calls |
| OpenAIAdapter.OutcomeErr | services/openai.py:47-61 | a reply fails exactly when some call's arguments are outside the reader's JSON subset, or when it has neither calls nor content |
| OpenAIAdapter.OutcomePlain | services/openai.py:60-63 | without tool calls the text is the content, unchanged |
| OpenAIAdapter.RecoverablePieces | services/openai.py:54-57 | for recoverable calls, every marker is clean and carries that call's name and `str` of its decoded arguments |
| OpenAIAdapter.ReplyToolCalls | services/openai.py:48-57 | when the content has no `[` and no decoded arguments are a string, the markers read back as the decoded calls |
| OpenAIAdapter.ClientRecoversCalls | services/openai.py:47-63 | then the client calls each function of the reply, in order, with its decoded arguments |
| GeminiAdapter.MapType | services/gemini.py:67-68 | every converted type is one of the Gemini type names |
| GeminiAdapter.MapTypeCases | services/gemini.py:49-55 | the five known JSON Schema types map to their upper-case names, in any letter case, and every other type to `STRING` |
| GeminiAdapter.MapTypeCaseInsensitive | services/gemini.py:67-68 | type names that differ only in letter case map alike |
| GeminiAdapter.PropertyOf | services/gemini.py:67 | a property whose details are not a dict raises the `AttributeError` of `.get` |
| GeminiAdapter.PropertyOfFields | services/gemini.py:67-71 | a converted property has a Gemini type, `STRING` when `type` is missing, and the source's description; other keys are dropped |
| GeminiAdapter.ConvertEachOk | services/gemini.py:66-72 | the properties convert exactly when each one does |
| GeminiAdapter.ConvertEachKeys | services/gemini.py:66-72 | the converted properties have exactly the schema's property names, in order |
| GeminiAdapter.ConvertEachGet | services/gemini.py:66-72 | each property name maps to its converted details, and no other name is present |
| GeminiAdapter.ConvertEachStep | services/gemini.py:66-72 | one more property is assigned under its name, or ends the loop with its failure |
| GeminiAdapter.ConvertEachStopAtError | services/gemini.py:66-72 | the first failing property ends the conversion |
| GeminiAdapter.DeclarationOf | services/gemini.py:58-62 | a declaration copies the name and description and has parameters of type `OBJECT` |
| GeminiAdapter.DeclarationWithoutSchema | services/gemini.py:61-63 | without a schema, or with one lacking both keys, the parameters are an empty object with nothing required |
| GeminiAdapter.DeclarationRequired | services/gemini.py:73-74 | `required` is copied verbatim when present, and is `[]` otherwise |
| GeminiAdapter.DeclarationBadProperties | services/gemini.py:65-66 | a `properties` value that is not a dict raises the `AttributeError` of `.items` |
| GeminiAdapter.ConvertAllOk | services/gemini.py:56-76 | the tools convert exactly when each one does, giving one declaration per tool, in order |
| GeminiAdapter.ConvertAllStep | services/gemini.py:57-75 | one more tool appends its declaration, or ends the loop with its failure |
| GeminiAdapter.ConvertAllStopAtError | services/gemini.py:57-75 | the first failing tool ends the conversion |
| GeminiAdapter.ConvertTools | services/gemini.py:48-76 | the loop gives `DeclarationsOf(tools)` |
| GeminiAdapter.ConvertTool | services/gemini.py:58-75 | the inner loop gives `DeclarationOf(tool)` |
| GeminiAdapter.HistoryConcat | services/gemini.py:82-93 | the history of two transcripts is their histories one after the other, so order is kept |
| GeminiAdapter.HistoryShape | services/gemini.py:78-93 | the history is no longer than the transcript, and every entry is `user` or `model` with one text part |
| GeminiAdapter.HistoryOfOne | services/gemini.py:83-92 | an entry is kept exactly when it is a user or assistant entry with string content |
| GeminiAdapter.PrepareHistory | services/gemini.py:78-93 | the loop gives the history of the previous entries, or `[]` when there are none |
| GeminiAdapter.ParseFunctionArgs | services/gemini.py:95-108 | the loop gives `FunctionArgs(args)`: a dict copied key by key, otherwise the parsed string form or `{}`, and never a failure |
| GeminiAdapter.FunctionArgsOfMapping | services/gemini.py:98-100 | a dict comes back unchanged |
| GeminiAdapter.BlankTestRedundant | services/gemini.py:102-105 | the blank test never changes the result, since `json.loads` refuses blank text |
| GeminiAdapter.OnlyFirstCandidate | services/gemini.py:33-34 | replies with the same first candidate give the same text |
| GeminiAdapter.PartRender | services/gemini.py:37-43 | a part gives its non-empty text and then its marker, each independently |
| GeminiAdapter.RenderParts | services/gemini.py:36-43 | the loop gives the rendered pieces of all parts, in order, each marker carrying `str` of the parsed arguments |
| GeminiAdapter.GeminiService.ProcessQuery | services/gemini.py:13-46 | the failure of tool conversion, or `Outcome` of the vendor's reply to the declarations, the converted history and the query, with the previous entries plus the user entry as transcript; its markers carry `str` of the parsed arguments |
| GeminiAdapter.PartsPiecesFacts | services/gemini.py:36-43 | for recoverable parts (parsed arguments JSON-like and not a string), the pieces are clean and their invocations read back as the parts' function calls with parsed arguments |
| GeminiAdapter.ReplyToolCalls | services/gemini.py:43 | for recoverable parts (no `[` in the texts; each function call has a valid name, and its parsed arguments are JSON-like, hold no list and no `]`, and are not a string), the client calls exactly the parts' functions, in order, with their parsed arguments |
| Models.GetModel | models/models.py:20-28 | a known provider gives a model from its table; an unknown one gives `Unknown provider: <provider>` |
| Models.KnownName | models/models.py:21-26 | a name in the table gives its entry |
| Models.UnknownName | models/models.py:22-26 | a name not in the table gives the `"default"` entry |
| Models.NameIrrelevant | models/models.py:5-18 | since each table holds only `"default"`, every name gives the same model |
| Text.Last | 03/client_sse_chat_enhanced.py:168 | `xs[-n:]`: the last `min(n, len(xs))` entries, in order |
| DatabaseChat.AnyKeywordIff | 03/client_sse_chat_enhanced.py:44 | `any` is true exactly when some keyword is a substring |
| DatabaseChat.DetectIntentIff | 03/client_sse_chat_enhanced.py:28-44 | intent is detected exactly when some keyword is a substring of the lowercased message |
| DatabaseChat.EmptyNotDetected | 03/client_sse_chat_enhanced.py:28-44 | the empty message is never detected |
| DatabaseChat.DetectIntentCaseInsensitive | 03/client_sse_chat_enhanced.py:43 | detection ignores letter case |
| DatabaseChat.DetectIntentMonotone | 03/client_sse_chat_enhanced.py:43-44 | a message containing a detected message is detected |
| DatabaseChat.KeywordsSplit | 03/client_sse_chat_enhanced.py:30-41 | the keywords are the single-word ones and the multi-word ones |
| DatabaseChat.WordOf | 03/client_sse_chat_enhanced.py:34 | every multi-word keyword contains `table` or `column` |
| DatabaseChat.MultiWordRedundant | 03/client_sse_chat_enhanced.py:30-44 | the multi-word keywords never change the result |
| DatabaseChat.GreetingNotDetected | 03/test_database_chat.py:24 | `Hello! How are you today?` is not routed to the database |
| DatabaseChat.TablesQuestionDetected | 03/test_database_chat.py:27 | `What tables are in the database?` is routed to the database |
| DatabaseChat.ContextMessagesShape | 03/client_sse_chat_enhanced.py:60-66 | at most eight messages: the system prompt, the most recent history entries in order, then the user message |
| DatabaseChat.DatabaseChatAgent.LlmChat | 03/client_sse_chat_enhanced.py:46-73 | the model is asked with `gpt-4o-mini` and the context messages, with the built-in system prompt when none is given |
| DatabaseChat.ToolLines | 03/client_sse_chat_enhanced.py:77-80 | one `- name: description` line per tool, in order |
| DatabaseChat.ToolSelectionPromptMentions | 03/client_sse_chat_enhanced.py:75-96 | the prompt lists every tool's line and quotes `User's request: <query>` |
| DatabaseChat.ToolResponsePromptMentions | 03/client_sse_chat_enhanced.py:106-110 | the prompt opens with `User asked: <query>` and quotes `Tool response: <response>` |
| DatabaseChat.DatabaseChatAgent.HandleDatabaseOperation | 03/client_sse_chat_enhanced.py:114-151 | the method gives `DatabaseReply`, so it never fails; the lemmas below tie each failure to its message |
| DatabaseChat.DatabaseChatAgent.DatabaseReplyCases | 03/client_sse_chat_enhanced.py:114-151 | the reply is the connection message, the rephrase message, an error report, or the model's rephrasing of a tool answer |
| DatabaseChat.DatabaseChatAgent.DatabaseReplyNoConnection | 03/client_sse_chat_enhanced.py:116-151 | a failed connection gives the connection message |
| DatabaseChat.DatabaseChatAgent.DatabaseReplySelectionFailed | 03/client_sse_chat_enhanced.py:127-151 | a failed tool-selection call gives the connection message, as the outer `except` catches it |
| DatabaseChat.DatabaseChatAgent.DatabaseReplyNotJson | 03/client_sse_chat_enhanced.py:130-145 | a tool selection outside the reader's JSON subset gives the rephrase message |
| DatabaseChat.DatabaseChatAgent.DatabaseReplyBadSelection | 03/client_sse_chat_enhanced.py:134-147 | a selection that is not a dict, or lacks `tool` or `arguments`, gives the error prefix followed by its error text |
| DatabaseChat.DatabaseChatAgent.DatabaseReplyToolFailed | 03/client_sse_chat_enhanced.py:134-147 | a failing tool call gives the error prefix followed by its error |
| DatabaseChat.DatabaseChatAgent.DatabaseReplyEmptyResult | 03/client_sse_chat_enhanced.py:139-147 | a result without content gives the error prefix followed by `list index out of range` |
| DatabaseChat.DatabaseChatAgent.DatabaseReplyRephrased | 03/client_sse_chat_enhanced.py:139-147 | otherwise the reply is the model's rephrasing of the result's first text, or the error prefix followed by that call's error |
| DatabaseChat.ExchangeShape | 03/client_sse_chat_enhanced.py:163-168 | the history ends with the user message and the response, holds at most 20 entries, keeps the most recent ones in order, and drops nothing while it fits |
| DatabaseChat.DatabaseChatAgent.Chat | 03/client_sse_chat_enhanced.py:153-170 | a message is routed to the database exactly when intent is detected; a failed plain chat leaves the history alone; otherwise the history becomes the exchange |
| DatabaseChat.DatabaseChatAgent.constructor | 03/client_sse_chat_enhanced.py:23-26 | the agent starts with an empty history and the server URL `http://localhost:8100/sse` |

## Left out

- Vendor SDK calls, the MCP `ClientSession`, `sse_client` and `stdio_client`. They are the `vendor`, `respond`, `llm`, `connection` and `callTool` parameters.
- Async/await, logging, `load_dotenv`, `AsyncExitStack` and `cleanup`. All flows are sequential.
- `connect_to_sse_server` and `connect_to_stdio_server` beyond the transport they choose. Their I/O is in the session parameter.
- The terminal loop, the servers, the LangGraph script and the httpx patch. They are I/O only and lie outside the core.
- AnthropicAdapter.AnthropicService.ProcessQuery: `assistant_message_content` is collected and never used, so it is not modelled.
- OpenAIAdapter.OpenAIService.ProcessQuery: the reply is the first choice's message. The `IndexError` of a reply without choices is not modelled.
- OpenAIAdapter.OutcomeErr: arguments with a float, `NaN`, `Infinity` or a `\u` escape, which `json.loads` accepts, make the reply fail in the model, because the JSON reader is a subset.
- OpenAIAdapter.CallPiecesSome: gives `None` for arguments with a float, `NaN`, `Infinity` or a `\u` escape, which `json.loads` decodes, because the JSON reader is a subset.
- OpenAIAdapter.RenderCalls: fails at a call whose arguments hold a float, `NaN`, `Infinity` or a `\u` escape, which `json.loads` decodes, because the JSON reader is a subset.
- DatabaseChat.DatabaseChatAgent.DatabaseReplyNotJson: a tool selection holding a float, `NaN`, `Infinity` or a `\u` escape gives the rephrase message in the model, where the source would run the tool, because the JSON reader is a subset.
- Markers.ToolCalls: argument text holding a float, `NaN`, `Infinity` or a `\u` escape, such as `{'lat': 37.5}`, reaches the tool as `{}` in the model, where `json.loads` decodes it, because the JSON reader is a subset.
- GeminiAdapter.ParseFunctionArgs: function-call arguments given as text holding a float, `NaN`, `Infinity` or a `\u` escape give `{}` in the model, where `json.loads` decodes them, because the JSON reader is a subset.
- Client.ToolSession.ListTools: the session's catalog is fixed, so a server whose tools change between queries cannot be represented.
- DatabaseChat.DatabaseChatAgent.Chat: the agent's `llm`, `connection` and `callTool` are fixed for its lifetime, so a server that is reachable for one message and down for the next, or a tool whose answer depends on earlier calls, cannot be represented.
- AnthropicAdapter.AnthropicService, OpenAIAdapter.OpenAIService and GeminiAdapter.GeminiService: the `vendor` functions cannot fail, so an SDK exception raised inside an adapter is not represented there. The client's `llm` returns a failure, which covers it one level up.
- JsonParser: floats, `NaN`/`Infinity` and `\u` escapes are not accepted. Such text reads as a failure. The failure carries no message, so error texts from `json.loads` appear only as the name `JSONDecodeError`.
- Text, PyRepr and Markers work on ASCII letter case and word characters. Unicode case mapping, Unicode `\w` and `repr`'s escaping of non-printable characters are left out.
- GeminiAdapter.Blank: `not s.strip()` is modelled as "every character is one that `str.isspace()` accepts", with that set written out.
- DatabaseChat.DatabaseChatAgent.LlmChat: a completion whose content is `None` is not modelled. The model call is a function returning a string or a failure.
- The agent's fixed texts are stored in a `Wording` value held by the agent. Contracts name its fields; the constructor's contract states that they are the texts of the source.
- The copy of the previous messages at services/gemini.py:29 has no counterpart. Dafny sequences are values, so no adapter can change the caller's list.
