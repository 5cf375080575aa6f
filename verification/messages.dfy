/** The LangChain message objects the client exchanges with the LLM. */
module Messages {
  import opened Wrappers

  /** A JSON value, the shape of tool arguments and tool results. */
  datatype Json =
    | JNull
    | JBool(b: bool)
    | JNumber(n: int)
    | JString(s: string)
    | JArray(items: seq<Json>)
    | JObject(fields: map<string, Json>)

  /** Keyword arguments of a tool invocation. */
  type Args = map<string, Json>

  /** A tool call requested by the LLM. `args` is `None` when the call
      carries no "args" entry or carries `None` there. */
  datatype ToolCall = ToolCall(id: string, name: string, args: Option<Args>)

  /** System, human, AI and tool messages. Only AI messages may request
      tool calls; `toolCalls == None` is an AI message whose attribute is None,
      and an AI message built from content alone has `Some([])`. */
  datatype Message =
    | SystemMessage(content: string)
    | HumanMessage(content: string)
    | AIMessage(content: string, toolCalls: Option<seq<ToolCall>>)
    | ToolMessage(content: string, toolCallId: string)

  /** An LLM: a conversation in, a response out, or the message of the
      exception the request raised. */
  type Llm = seq<Message> -> Result<Message, string>

  /** The tool calls a response asks for: `getattr(response, "tool_calls", None)`,
      read as the empty list when the attribute is absent or None. */
  function PendingCalls(m: Message): (calls: seq<ToolCall>)
    ensures calls != [] <==> m.AIMessage? && m.toolCalls.Some? && m.toolCalls.value != []
    ensures calls != [] ==> calls == m.toolCalls.value
  {
    match m
    case AIMessage(_, Some(cs)) => cs
    case _ => []
  }

  /** The arguments a call is invoked with: `tc.get("args") or {}`. */
  function ArgsOf(tc: ToolCall): Args {
    match tc.args
    case None => map[]
    case Some(given) => given
  }
}
