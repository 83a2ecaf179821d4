/**
  The values passed between the client and the vendor adapters: the tool
  catalog entries the client builds and the transcript entries the adapters
  extend and return.
 */
module Llm {
  import opened Wrappers
  import opened Json

  /** One entry of `available_tools`: `{"name", "description", "input_schema"}`. */
  datatype ToolSpec = ToolSpec(name: string, description: Option<string>, inputSchema: Dict<Json>)

  /** A transcript entry's `content`: a string, or anything else (a list of blocks, `None`, ...). */
  datatype Content = Str(text: string) | NonText

  /** A vendor tool call the OpenAI reply carries: the function name and its JSON argument text. */
  datatype FunctionCall = FunctionCall(name: string, arguments: string)

  /**
    A transcript entry: `{"role", "content"}`, plus `tool_calls` on the
    assistant entry the OpenAI adapter appends (empty elsewhere).
   */
  datatype Message = Message(role: string, content: Content, toolCalls: seq<FunctionCall>)

  function UserMessage(query: string): Message {
    Message("user", Str(query), [])
  }

  /** `messages = []; if previous_messages: messages.extend(previous_messages)` */
  function Previous(previous: Option<seq<Message>>): seq<Message> {
    match previous
    case None => []
    case Some(ms) => ms
  }
}
