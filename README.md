# Chat-agent backend: a verified model of its control logic

This project models, in Dafny, the parts of a FastAPI chat-agent backend that
make decisions:

- **MCP tool-call dispatcher** (`handle_mcp_tool_call`). It invokes a tool with a bounded number of attempts. It retries only after a closed-transport failure, a successful `reconnect()` of the MCP session manager and a completed `on_reconnect` hook. Every other failure becomes an error-flavoured `ToolMessage`; nothing propagates.
- **MCP resource aggregation** (`mcp_sse_client`, `get_mcp_dependencies`). It opens one initialized SSE session per configured host and concatenates the tools, in host order. Any failure propagates.
- **Message shaping and graph nodes**: the `process_messages` role/content filter, the chat node's routing and model-name fallback, and the tool node's one-`ToolMessage`-per-call loop.
- **The two agents**. `AgentExample` copies its config shallowly and never stores its compiled graph. `LangGraphAgent` compiles once and caches. Both share the memory fallback and the chat-history read.
- **Session name sanitiser** and the `SessionResponse` name constraints.
- **Session and user repositories**, over an in-memory table.
- **Logging-context middleware**: Bearer-token extraction and the clear/bind/clear lifecycle of the logging context.

Everything foreign is an input. This covers the tool's outcomes, `reconnect()`, the hook, the SSE transport, `load_mcp_tools`, the LLM, the compiled graph, the memory store, `jwt.decode`, the downstream handler and the clock. The dispatcher's environment is a list of outcomes indexed by attempt number. Each module has a specification function or predicate, and the imperative code (loops, in-place updates) is a method whose contract is stated in terms of it or gives the new state. Lemmas state what the source promises about those functions.

Where the two copies of one piece of logic are identical, the model defines it once:
- `process_messages` appears in `app/core/common/graph_utils.py` and `app/core/langgraph/graph_utils.py`.
- The chat and tool nodes appear in `app/core/langgraph/graph_utils.py` and as methods of `AgentExample`.

## Behaviour worth noting

- `get_mcp_dependencies` does not skip a host that fails to connect. The failure propagates and no `Resource` is produced.
- The error text is `[ERROR] Tool '<name>' failed: <err>`. For a closed transport, ` (MCP connection issue. Attempted reconnection.)` is appended, even when no reconnect was attempted. No separate "retried" flag is returned.

## Model

| member | source | states |
|---|---|---|
| `McpUtils.HandleMcpToolCall` | app/mcp/mcp_utils.py:12-118 | the attempt loop returns exactly what the dispatch specification gives for the same environment; a supplied correlation id is used unchanged and a fresh one only when none is given |
| `McpUtils.DispatchExplained` | app/mcp/mcp_utils.py:50-118 | for `max_retries >= 0`: every attempt before the last retried, the last did not, the message comes from the last outcome, and the reconnect and hook counts follow from that |
| `McpUtils.InvocationBounds` | app/mcp/mcp_utils.py:50-64 | the tool is invoked between 1 and `max_retries + 1` times, always with `tool_call["args"]`; `reconnect()` runs at most `max_retries` times; a message with the tool's name and the call id is always returned |
| `McpUtils.RetryOnlyAfterReconnect` | app/mcp/mcp_utils.py:68-91 | a further invocation happens only after a `ClosedResourceError` with attempts remaining, a `reconnect()` that returned true, and a hook (when given) that completed |
| `McpUtils.FirstSuccessReturned` | app/mcp/mcp_utils.py:52-64 | the first successful invocation ends the loop; its result is the content, with `name = tool_name` and `tool_call_id = tool_call["id"]` |
| `McpUtils.GiveUpWhenReconnectFails` | app/mcp/mcp_utils.py:79-118 | when `reconnect()` returns false or raises, or the hook raises, there is no further invocation and the error message with the connection-issue suffix is returned |
| `McpUtils.GiveUpOnOtherErrors` | app/mcp/mcp_utils.py:99-118 | any other error, or a closed transport on the last allowed attempt, ends the loop with the error message and no further reconnect |
| `McpUtils.DefaultAllowsOneRetry` | app/mcp/mcp_utils.py:16 | with the default `max_retries = 1`, the tool is invoked once or twice, `reconnect()` runs at most once, and a message is returned |
| `McpUtils.NoRetryWhenZero` | app/mcp/mcp_utils.py:50-68 | with `max_retries = 0`: exactly one invocation, no `reconnect()`, no hook call, whatever the error kind |
| `McpUtils.NothingWhenNegative` | app/mcp/mcp_utils.py:50 | with `max_retries < 0` the loop body never runs: no invocation and no message (the function returns None) |
| `McpUtils.ErrorContentShape` | app/mcp/mcp_utils.py:110-112 | the error text starts with `[ERROR] Tool '<name>' failed: <err>` and has the connection-issue suffix after it exactly when the error is `ClosedResourceError` |
| `McpUtils.ClosedThenRecovered` | app/mcp/mcp_utils.py:50-91 | a closed transport, a successful reconnect and a successful second call give the second call's result after exactly two invocations and one reconnect |
| `McpDependencies.SseUrlRoundTrip` | app/mcp/dependencies.py:26-27 | the SSE URL is `http://` + host + `/sse`, with the host recoverable verbatim |
| `McpDependencies.SseUrlInjective` | app/mcp/dependencies.py:26-27 | different hosts give different SSE endpoints |
| `McpDependencies.DefaultEndpoint` | app/mcp/dependencies.py:14-27 | without an argument the client connects to `http://localhost:7001/sse` |
| `McpDependencies.OpenSseClient` | app/mcp/dependencies.py:13-34 | a session is yielded only when connecting and `initialize()` succeed, and it is initialized and connected to that host's endpoint |
| `McpDependencies.BindTools` | app/mcp/dependencies.py:48 | each tool a host lists is loaded once, in order, bound to that host's session |
| `McpDependencies.GetMcpDependencies` | app/mcp/dependencies.py:38-54 | the hostname loop returns exactly the left-to-right aggregation of the hosts, the first failure escaping |
| `McpDependencies.AggregateFailureSticks` | app/mcp/dependencies.py:42-54 | once a host fails, nothing later can recover: the whole aggregation fails with that error |
| `McpDependencies.AggregateOkIffAllServe` | app/mcp/dependencies.py:42-54 | a `Resource` is produced if and only if every configured host connects, initializes and lists its tools |
| `McpDependencies.AggregateSuccess` | app/mcp/dependencies.py:43-54 | on success there is one initialized session per hostname in configuration order, and the tools are each host's list concatenated in hostname order |
| `McpDependencies.AggregateFirstFailure` | app/mcp/dependencies.py:43-50 | when some host fails, the error is that of the first failing host; no host is skipped |
| `McpDependencies.ToolsBackedBySessions` | app/mcp/dependencies.py:48-54 | every tool in the resource is backed by one of its sessions |
| `Messages.ProcessMessages` | app/core/common/graph_utils.py:22-26 | the output is no longer than the input, and every kept message has role assistant or user and non-empty content |
| `Messages.ProcessMessagesSelects` | app/core/langgraph/graph_utils.py:135-139 | the output is the converted messages at a strictly increasing list of input positions, which are exactly the positions with role assistant or user and truthy content |
| `Messages.ProcessMessagesIdempotent` | app/core/common/graph_utils.py:11-26 | filtering the filter's own output (fed back as text) gives the same list |
| `Messages.ProcessMessagesAppend` | app/core/langgraph/graph_utils.py:124-139 | the filter works message by message: filtering a concatenation concatenates the filtered parts |
| `GraphNodes.ModelName` | app/core/langgraph/graph_utils.py:44-49 | the metrics model name is the LLM's `model_name` when there is an LLM that has one, else the configured default |
| `GraphNodes.ChatNode` | app/core/langgraph/graph_utils.py:56-85 | a successful LLM call appends exactly the response and routes to `tool_call` iff it has tool calls, else to END; a failure is re-raised with the fixed prefix |
| `GraphNodes.ToolCallNode` | app/core/langgraph/graph_utils.py:100-119 | the tool-call loop returns exactly the node's specification: the last message's calls run in order, the first exception escapes, and it routes to chat |
| `GraphNodes.RunToolCallsOneEach` | app/core/langgraph/graph_utils.py:109-118 | when every tool exists and returns, there is one `ToolMessage` per call, in order, carrying the result and the call's name and id |
| `GraphNodes.RunToolCallsUnknownName` | app/core/langgraph/graph_utils.py:110-111 | a tool name missing from `tools_by_name` is not handled: it raises `KeyError` |
| `GraphNodes.ToolNodeRoutesToChat` | app/core/langgraph/graph_utils.py:109-119 | when all calls succeed, the node returns one message per call and routes to chat |
| `AgentSupport.ToolsByNameKeys` | app/core/langgraph/graph.py:44 | the `tools_by_name` keys are exactly the tools' names |
| `AgentSupport.ToolsByNameLastWins` | app/core/agentic/agent_example.py:33 | each name maps to the last tool with that name: a later duplicate overwrites an earlier one |
| `AgentSupport.MemoryOrFallback` | app/core/langgraph/graph.py:91-93 | a falsy memory lookup is replaced by `No relevant memory found.`; a non-empty one is kept |
| `AgentSupport.ChatHistory` | app/core/langgraph/graph.py:176-181 | no state values give `[]`; values with messages give the filtered messages; values without them raise `KeyError` |
| `Agentic.AgentExample.constructor` | app/core/agentic/agent_example.py:27-40 | the agent indexes its tools by name and owns a config whose metadata holds the environment and debug flag |
| `Agentic.AgentExample.CreateCompiledGraph` | app/core/agentic/agent_example.py:202-232 | each compilation yields a new graph |
| `Agentic.AgentExample.EnsureGraph` | app/core/agentic/agent_example.py:116-125 | the stored graph is returned if set; otherwise a new graph is compiled and not stored |
| `Agentic.AgentExample.CreateConfig` | app/core/agentic/agent_example.py:67-72 | the config gets `configurable = {"thread_id": session_id}` and shares the agent's metadata dict, into which `user_id` and `session_id` are written |
| `Agentic.AgentExample.AgentInvoke` | app/core/agentic/agent_example.py:42-65 | the graph runs on the messages with the memory (or its fallback) for the last message, under the config's `thread_id = session_id`; its filtered messages are returned, `[]` when it raises, and an empty message list raises |
| `Agentic.AgentExample.GetChatHistory` | app/core/agentic/agent_example.py:235-249 | the history is read from the thread's state, `[]` when it has no values |
| `Agentic.AgentExample.ToolCallNode` | app/core/agentic/agent_example.py:181-200 | the tool node over the agent's own tool index: one `ToolMessage` per call, in order, then chat |
| `Agentic.SharedMetadataHoldsLastCaller` | app/core/agentic/agent_example.py:67-72 | after two calls, the first config's metadata carries the second caller's session and user ids |
| `Agentic.EveryCallCompilesAfresh` | app/core/agentic/agent_example.py:122-125 | while `_graph` is None, two calls compile two different graphs |
| `LangGraph.LangGraphAgent.constructor` | app/core/langgraph/graph.py:39-50 | the agent indexes its tools by name and starts without a graph |
| `LangGraph.LangGraphAgent.EnsureGraph` | app/core/langgraph/graph.py:52-62 | the graph is compiled only when none is stored, and it is stored |
| `LangGraph.LangGraphAgent.GetResponse` | app/core/langgraph/graph.py:64-107 | the config has `thread_id = session_id` and metadata with the user and session ids; the graph result is filtered; a failed run gives None, not a list |
| `LangGraph.LangGraphAgent.GetChatHistory` | app/core/langgraph/graph.py:167-181 | the history is read from the thread's state of the cached graph, `[]` when it has no values |
| `LangGraph.LangGraphAgent.ToolCallNode` | app/core/langgraph/graph.py:58-61 | the graph's tool node runs over the agent's own tool index |
| `LangGraph.GraphCompiledOnce` | app/core/langgraph/graph.py:58-62 | two calls of `_ensure_graph` return the same graph after a single compilation |
| `SessionDto.SanitizeName` | app/core/session/session_dto.py:27-40 | the output is no longer than the input and contains none of `< > { } [ ] ( ) ' " `` ` |
| `SessionDto.SanitizeNameConcat` | app/core/session/session_dto.py:39 | the sanitiser works character by character, over any split of the input |
| `SessionDto.SanitizeNameOneChar` | app/core/session/session_dto.py:39 | a forbidden character is deleted and any other character is kept |
| `SessionDto.SanitizeNameIdempotent` | app/core/session/session_dto.py:39 | sanitising twice is sanitising once |
| `SessionDto.SanitizeNameFixedPoint` | app/core/session/session_dto.py:39 | a name is unchanged iff it has no forbidden character (a backslash is kept) |
| `SessionDto.MakeSessionResponse` | app/core/session/session_dto.py:23-40 | the name defaults to `""`; a name over 100 characters is refused; otherwise the stored name is exactly the sanitised given name, so it is at most 100 characters and free of forbidden characters |
| `SessionRepo.SessionRepository.constructor` | app/core/session/session_repository.py:18-24 | the repository works on the given session table |
| `SessionRepo.SessionRepository.CreateSession` | app/core/session/session_repository.py:26-42 | a session with the given id, user id and name (default `""`) is stored and returned; a duplicate id fails at commit and changes nothing |
| `SessionRepo.SessionRepository.DeleteSession` | app/core/session/session_repository.py:44-60 | an absent id returns False and changes nothing; otherwise only that id is removed and True is returned |
| `SessionRepo.SessionRepository.GetSession` | app/core/session/session_repository.py:62-72 | the stored session, whose id is the one asked for, or None, without change |
| `SessionRepo.SessionRepository.GetUserSessions` | app/core/session/session_repository.py:74-85 | exactly the sessions of that user, each row once (no two share an id), ordered by creation time |
| `SessionRepo.IdsIdentifyRows` | app/core/session/session_repository.py:26-42 | in a table keyed by session id, two rows with the same id are the same row |
| `SessionRepo.EarliestExists` | app/core/session/session_repository.py:83-85 | a non-empty set of sessions has an earliest one, so ordering by `created_at` is always possible |
| `SessionRepo.SessionRepository.UpdateSessionName` | app/core/session/session_repository.py:87-109 | an absent id raises HTTP 404 `Session not found`; otherwise only that session's name changes |
| `UserRepo.UserRepository.constructor` | app/core/user/user_repository.py:17-23 | the repository works over the existing user table, whose ids are unique and below the auto-increment counter |
| `UserRepo.UserRepository.CreateUser` | app/core/user/user_repository.py:25-40 | the stored user has the given email and `hashed_password` equal to the `password` argument verbatim, under a new id |
| `UserRepo.UserRepository.GetUser` | app/core/user/user_repository.py:42-52 | the user with that id, or None when there is none, without change |
| `UserRepo.FirstWithEmail` | app/core/user/user_repository.py:63-65 | finds the first row with the email, after which no earlier row has it, or reports that none has it |
| `UserRepo.UserRepository.GetUserByEmail` | app/core/user/user_repository.py:54-65 | the first user with that email, or None, without change |
| `UserRepo.UserRepository.DeleteUserByEmail` | app/core/user/user_repository.py:67-83 | False and no change when no user has the email; otherwise exactly that first user is removed and True is returned |
| `UserRepo.RemoveAtKeepsOthers` | app/core/user/user_repository.py:80-83 | removing one row keeps every other row, in order |
| `LoggingContext.Split` | app/api/logging_context.py:40 | Python's `split(" ")` always yields at least one piece |
| `LoggingContext.SplitHead` | app/api/logging_context.py:40 | the first piece of the split is the text before the first space |
| `LoggingContext.SplitAfterWord` | app/api/logging_context.py:40 | a word, a space and the rest split into the word followed by the split of the rest |
| `LoggingContext.BearerTokenIsNextWord` | app/api/logging_context.py:38-40 | for a header starting with `Bearer ` the token is the text after it up to the next space, possibly empty |
| `LoggingContext.NoTokenWithoutBearer` | app/api/logging_context.py:39 | no token is taken from a missing header or one not starting with `Bearer ` (case-sensitive) |
| `LoggingContext.ContextDuringRequest` | app/api/logging_context.py:42-57 | the handler runs with `session_id` bound iff the token decodes and its `sub` claim is truthy; an invalid token binds nothing |
| `LoggingContext.Dispatch` | app/api/logging_context.py:23-70 | the context is cleared on entry, `session_id` is bound before the handler and `user_id` only after it and only when set, the response is returned unchanged or the exception propagates, and the context is empty at the end |

## Left out

- Async execution, concurrency, cancellation and `AsyncExitStack` teardown: every call is sequential. Closing the sessions when the aggregation context exits is not modelled.
- The MCP session manager (`get_mcp_session_manager`, `initialize`, `reconnect`, `cleanup`) and `generate_correlation_id` are not part of this model. `reconnect()` is a per-attempt outcome, and a fresh correlation id is a parameter.
- Logging calls, event names, metrics timers and Langfuse callbacks. The correlation id bound by the dispatcher is only returned.
- `McpUtils.HandleMcpToolCall`: a `tool_call` dict without `"args"` or `"id"` (a `KeyError`) is not modelled. Tool results are modelled as text.
- The LLM service (`get_llm`, `call`, `bind_tools`), `load_system_prompt`, `prepare_messages`, `dump_messages` and `process_llm_response`. The chat node starts from the processed response or the call's failure.
- `convert_to_openai_messages`: messages arrive already converted. List-valued content and its Python `str()` rendering are not modelled: content is text or `None`.
- Graph compilation, `ainvoke` and `get_state` are oracles. `Agentic.AgentExample.CreateCompiledGraph` does not model the re-raised compilation failure.
- `agent_invoke_async` and `get_stream_response` (token streaming): streaming is transport. That `get_stream_response` re-raises stream errors is therefore not modelled.
- Background memory updates (`bg_update_memory`, `update_memory` via `asyncio.create_task`) and `clear_chat_history` (checkpoint table deletes): database I/O.
- `get_relevant_memory` catches its own errors and returns `""`, so it is modelled as a lookup that returns text.
- `jwt.decode` exceptions other than `JWTError` are not modelled. The `authorization` header is taken as already looked up (Starlette's header lookup is case-insensitive).
- Database sessions: `refresh` and commit failures other than a duplicate session id. The user model is not part of this model, so a unique email constraint is not modelled. `.first()` on an unordered query is taken as the first row in insertion order.
- `SessionRepo.SessionRepository.GetUserSessions`: the relative order of sessions with equal `created_at` is left open, as in SQL.
- Postgres pool and checkpointer setup, the mem0 wrapper, the demo MCP server, the rate limiter and Langfuse initialisation: configuration and I/O outside the core.
