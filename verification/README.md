# MCP chat client: tool-calling turn and history plumbing in Dafny

This project models the sequential logic of a small chat client. The client
talks to an LLM that can call tools served over MCP (the Model Context
Protocol). Two pieces are modelled:

- `run_model` in `client/mcp_client.py` runs one conversation turn:
  - ask the LLM once;
  - if the response requests no tool calls, answer with its content;
  - otherwise look up each requested tool by name and invoke it, in the
    order the calls were declared;
  - wrap each result as a tool message that carries its call's id;
  - resubmit `messages + [response] + tool_messages` to the LLM exactly once
    and answer with the content of that second response.
- `client/app.py`, four parts:
  - the loop that turns the HTTP body's history (`{"role", "content"}`
    dictionaries) into human and AI messages;
  - `chat_node`, which puts a fixed system message in front of the state's
    messages;
  - `get_graph`, which builds the conversation graph lazily;
  - `run_model`, which ties these together and answers with the last
    message's content.

The LLM, the tools, the JSON encoder, the graph builder and the graph runner
are all function parameters. An LLM request or a tool invocation that raises
is a `Failure` value. Each turn returns a trace of every LLM request and tool
invocation it made, in order. That trace is what makes "how often" and "in
which order" provable.

Files, one module each:

- `wrappers.dfy`: `Option` and `Result`.
- `messages.dfy`: JSON values, tool calls and the four message kinds.
- `tool_registry.dfy`: the `{tool.name: tool}` dictionary.
- `tool_turn.dfy`: the tool loop and the whole turn of `client/mcp_client.py`.
- `history.dfy`: the history conversion of `client/app.py`.
- `chat_graph.dfy`: `chat_node`, `get_graph` and `run_model` of `client/app.py`.

Choices the code makes, which the model follows:

- The turn answers with the response's content (a string), not the message itself.
- A tool that raises ends the turn. It is not turned into an error tool message.
- The turn puts no condition on the incoming conversation. It may be empty,
  and it may end in any kind of message.

## Model

| member | source | states |
|---|---|---|
| Messages.PendingCalls | client/mcp_client.py:36-37 | A response asks for tool calls exactly when it is an AI message whose `tool_calls` is present and non-empty. Absent, None and empty all read as "no calls". |
| ToolRegistry.NameIndex | client/mcp_client.py:29 | Every listed name resolves, and only listed names do. A name resolves to a tool of that name with no later tool of that name: the later duplicate wins. |
| ToolRegistry.NamedTools | client/mcp_client.py:29 | The name-to-tool dictionary holds exactly the listed names. Each name behaves as the last listed tool with that name. |
| ToolTurn.ExecuteCallsSucceeds | client/mcp_client.py:39-53 | The loop succeeds if and only if every call's tool exists and returns normally. It then yields exactly N tool messages for N calls, in call order. The i-th message has the i-th call's id and the encoded i-th result. Each tool is invoked once, in call order, with the call's args, or `{}` when they are missing or None. |
| ToolTurn.ExecuteCallsFails | client/mcp_client.py:41-46 | If the k-th call is the first to fail, the loop ends with its error (ToolNotFound when the name is absent). The calls before it were invoked, and nothing after it runs. The failing call counts as invoked only when its tool exists. |
| ToolTurn.StopsAtFailure | client/mcp_client.py:41-46 | Once a prefix of the calls has failed, later calls change neither the outcome nor the trace. |
| ToolTurn.RunToolCalls | client/mcp_client.py:39-53 | The imperative loop, with its list of tool messages, computes the recursive definition. On success it gives one tool message per call, in order, each with the matching call id. |
| ToolTurn.RunTurn | client/mcp_client.py:27-59 | The first event is always the LLM request on the caller's messages. If that request raises, the turn fails after one request. If the response asks for no tools, the answer is its content, the LLM was asked once, and no tool was invoked. |
| ToolTurn.TurnWithSuccessfulCalls | client/mcp_client.py:39-59 | If every call succeeds, the trace is: first request, then the invocations in order, then a second request. The second input is exactly the messages, the response and the paired tool messages. The answer is the second response's content, even if that response asks for more tools. |
| ToolTurn.TurnStopsAtFailingCall | client/mcp_client.py:29-57 | If a call fails (a missing tool or a raising tool), the turn fails with that call's error, and ToolNotFound when no listed tool has the name. The earlier calls were invoked, and the LLM was asked exactly once. |
| ToolTurn.TurnAsksLlmAtMostTwice | client/mcp_client.py:34-59 | Every turn asks the LLM once or twice. A second request is the last event. Every event between the first and the last is a tool invocation. |
| History.KeptRolesTranslate | client/app.py:113-117 | In a successful conversion, every `user` entry becomes a human message and every `assistant` entry an AI message with no tool calls. Each has the entry's content, in entry order, and there is one output per kept entry. |
| History.KeptPositions | client/app.py:113-117 | Lists in increasing order exactly the positions of the `user`/`assistant` entries. There are at most as many as there are entries. |
| History.ConvertSucceedsIff | client/app.py:113-117 | Conversion succeeds if and only if every entry has a role and every kept entry has content. |
| History.ConvertIsFilterMap | client/app.py:111-117 | A successful conversion is a filter-map. The j-th output is the translation of the j-th kept entry, other roles are dropped, and the output is no longer than the input. |
| History.ConvertFailsAtFirstUnreadable | client/app.py:113-117 | The first entry the loop cannot read decides the KeyError: `role` when it has none, otherwise `content`. |
| History.StopsAtKeyError | client/app.py:113-117 | A KeyError raised on a prefix of the history is the result of the whole loop. |
| History.ConvertMessages | client/app.py:111-117 | The source's append loop, with its early exit on KeyError, computes exactly the recursive definition of the conversion. |
| ChatGraph.ChatNode | client/app.py:53-61 | The LLM input is the fixed system message followed by the state messages, unchanged. The returned delta is exactly `[response]`. A raising LLM request fails the node with that request's error. |
| ChatGraph.GetGraph | client/app.py:97-103 | A cached graph is returned without building and without changing the cache. With nothing cached, it builds once. A successful build is cached, and a raised build leaves the cache empty. |
| ChatGraph.CachedGraphIsReused | client/app.py:99-103 | After a graph is cached, any number of later calls return it and never build again. |
| ChatGraph.GraphBuiltAtMostOnce | client/app.py:97-103 | Starting empty, with calls made one after another, builds run only up to the first successful one. Every later call returns that same graph, and the build counter stops there. |
| ChatGraph.AppRunModel | client/app.py:106-123 | The graph is fetched before the history is converted. A build failure or a bad entry is reported in that order. Once the graph is built and the history converts, the answer is determined by the graph run. A raising run gives GraphFailed, and an empty final state gives NoMessages. Otherwise the answer is the content of the last message of the final state, and only then is there an answer. |

## Left out

- Process set-up is not modelled: `load_dotenv`, `ChatOpenAI`, `MultiServerMCPClient`, the stdio server commands and `bind_tools`. The model takes the LLM, already bound to the tools, and the tool list as parameters.
- async/await is not modelled. Within one request every call is treated as sequential, which is the order the source awaits them in. Concurrent requests sharing the module-level `_graph` are not modelled.
- ChatGraph.GraphBuiltAtMostOnce: holds only for `get_graph` calls that do not overlap. `_graph` is shared by every HTTP request, and two requests suspended at `await build_graph()` both see `_graph is None`, so both build and the later one overwrites the cache. The model runs `get_graph` calls one after another.
- A tool is a pure function of its arguments (`ToolRegistry.Tool`), so two identical calls in one turn get the same outcome. The MCP server behind a tool may keep state, and its answer may depend on earlier calls; for example, two identical `add_expense` calls may return different ids. Server-side state, and turns whose outcomes depend on it, are not represented.
- `json.dumps` is the uninterpreted `encode` parameter. Its output format and any decode round trip depend on the library.
- Graph construction and routing are not modelled: `build_graph`, `create_tool_node`, `ToolNode`, `tools_condition` and the `add_messages` reducer. Building the graph is the `built` parameter of `GetGraph`, and `graph.ainvoke` is the `runGraph` parameter of `AppRunModel`.
- `fastapi_backend.py` and `fastapi_frontend.py` are not modelled. They are HTTP and UI pass-throughs around `run_model`.
- Message content is always a string. LangChain's list-of-parts content is not modelled.
- History entries are `map<string, string>`. A non-string role or content is not modelled.
- `client.get_tools()` failing is not modelled. The tool list is a given parameter.
- The ids of tool calls are taken as the LLM gives them. The source does not check that they are unique, and neither does the model.
