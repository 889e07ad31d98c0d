/**
 * The agent graph's two nodes (`create_chat_node` / `create_tool_call_node`
 * in app/core/langgraph/graph_utils.py, and the identical `_chat_node` /
 * `_tool_call_node` methods of `AgentExample`).
 *
 * The LLM call, `process_llm_response` and the tools themselves are foreign:
 * their outcomes are inputs.
 */
module GraphNodes {
  import opened Common
  import McpUtils

  /** One entry of an AI message's `tool_calls`: `name`, `args` and `id`. */
  datatype ToolCallRequest = ToolCallRequest(name: string, args: string, id: string)

  /** The messages the graph state holds; only AI messages have `tool_calls`. */
  datatype GraphMessage =
    | AiMsg(content: string, toolCalls: seq<ToolCallRequest>)
    | ToolMsg(tool: McpUtils.ToolMessage)
    | HumanMsg(content: string)
    | SystemMsg(content: string)

  /** Where the graph goes next: the tool node, the chat node, or `END`. */
  datatype Goto = ToToolCall | ToChat | ToEnd

  /** LangGraph's `Command(update={"messages": ...}, goto=...)`. */
  datatype Command = Command(update: seq<GraphMessage>, goto: Goto)

  /** A bound tool; its behaviour is given separately. */
  datatype Tool = Tool(name: string, description: string)

  /** How `tool.ainvoke(args)` ended. */
  datatype ToolResult = Returned(content: string) | Raised(error: string)

  /** The exceptions a node lets escape. */
  datatype NodeError =
    | IndexError                          // `state.messages[-1]` on an empty list
    | AttributeError                      // the last message has no `tool_calls`
    | KeyError(key: string)               // `tools_by_name[name]` for an unknown name
    | ToolRaised(name: string, error: string)
    | LlmFailed(message: string)          // the re-raised LLM failure

  /** The LLM in use: it may lack a `model_name` attribute. */
  datatype Llm = Llm(modelName: Option<string>)

  const LlmFailurePrefix: string := "failed to get llm response after trying all models: "

  /** The model name used for metrics: the LLM's `model_name` when there is an LLM that has one, else the configured default. */
  function ModelName(llm: Option<Llm>, defaultModel: string): (r: string)
    ensures llm.Some? && llm.value.modelName.Some? ==> r == llm.value.modelName.value
    ensures llm.None? || llm.value.modelName.None? ==> r == defaultModel
  {
    if llm.Some? && llm.value.modelName.Some? then llm.value.modelName.value else defaultModel
  }

  /**
   * The chat node after the LLM call: the response is appended as the only
   * update and routes to the tool node exactly when it carries tool calls;
   * a failed call becomes an exception with the fixed prefix.
   */
  function ChatNode(response: Result<GraphMessage, string>): (r: Result<Command, NodeError>)
    requires response.Ok? ==> response.value.AiMsg?
    ensures r.Ok? <==> response.Ok?
    ensures r.Ok? ==> r.value.update == [response.value]
    ensures r.Ok? ==> (r.value.goto == ToToolCall <==> response.value.toolCalls != [])
    ensures r.Ok? ==> r.value.goto != ToChat
    ensures r.Err? ==> r.error == LlmFailed(LlmFailurePrefix + response.error)
  {
    match response
    case Ok(message) => Ok(Command([message], if message.toolCalls != [] then ToToolCall else ToEnd))
    case Err(e) => Err(LlmFailed(LlmFailurePrefix + e))
  }

  /** One tool call: look the tool up by name, invoke it, wrap the result. */
  function RunToolCall(call: ToolCallRequest, toolsByName: map<string, Tool>, invoke: (Tool, string) -> ToolResult): Result<GraphMessage, NodeError> {
    if call.name !in toolsByName then Err(KeyError(call.name))
    else match invoke(toolsByName[call.name], call.args)
      case Returned(content) => Ok(ToolMsg(McpUtils.ToolMessage(content, call.name, call.id)))
      case Raised(e) => Err(ToolRaised(call.name, e))
  }

  /** The tool calls run one after the other; the first exception escapes. */
  function RunToolCalls(calls: seq<ToolCallRequest>, toolsByName: map<string, Tool>, invoke: (Tool, string) -> ToolResult): Result<seq<GraphMessage>, NodeError>
    decreases |calls|
  {
    if calls == [] then Ok([])
    else
      match RunToolCalls(calls[..|calls| - 1], toolsByName, invoke)
      case Err(e) => Err(e)
      case Ok(outputs) =>
        match RunToolCall(calls[|calls| - 1], toolsByName, invoke)
        case Err(e) => Err(e)
        case Ok(m) => Ok(outputs + [m])
  }

  /** The tool node, as a function of the state's messages. */
  function ToolNodeResult(messages: seq<GraphMessage>, toolsByName: map<string, Tool>, invoke: (Tool, string) -> ToolResult): Result<Command, NodeError> {
    if messages == [] then Err(IndexError)
    else if !messages[|messages| - 1].AiMsg? then Err(AttributeError)
    else match RunToolCalls(messages[|messages| - 1].toolCalls, toolsByName, invoke)
      case Err(e) => Err(e)
      case Ok(outputs) => Ok(Command(outputs, ToChat))
  }

  /**
   * `tool_call_node`: for each tool call of the last message, invoke the
   * named tool and append a `ToolMessage`; then route back to chat.
   */
  method ToolCallNode(messages: seq<GraphMessage>, toolsByName: map<string, Tool>, invoke: (Tool, string) -> ToolResult)
    returns (r: Result<Command, NodeError>)
    ensures r == ToolNodeResult(messages, toolsByName, invoke)
  {
    if messages == [] {
      return Err(IndexError);
    }
    var last := messages[|messages| - 1];
    if !last.AiMsg? {
      return Err(AttributeError);
    }
    var calls := last.toolCalls;
    var outputs: seq<GraphMessage> := [];
    var i := 0;
    while i < |calls|
      invariant 0 <= i <= |calls|
      invariant RunToolCalls(calls[..i], toolsByName, invoke) == Ok(outputs)
    {
      assert calls[..i + 1][..i] == calls[..i];
      var call := calls[i];
      if call.name !in toolsByName {
        RunToolCallsFailureSticks(calls, toolsByName, invoke, i + 1);
        return Err(KeyError(call.name));
      }
      var result := invoke(toolsByName[call.name], call.args);
      if result.Raised? {
        RunToolCallsFailureSticks(calls, toolsByName, invoke, i + 1);
        return Err(ToolRaised(call.name, result.error));
      }
      outputs := outputs + [ToolMsg(McpUtils.ToolMessage(result.content, call.name, call.id))];
      i := i + 1;
    }
    assert calls[..i] == calls;
    r := Ok(Command(outputs, ToChat));
  }

  lemma {:induction false} RunToolCallsFailureSticks(calls: seq<ToolCallRequest>, toolsByName: map<string, Tool>, invoke: (Tool, string) -> ToolResult, i: nat)
    requires i <= |calls|
    requires RunToolCalls(calls[..i], toolsByName, invoke).Err?
    ensures RunToolCalls(calls, toolsByName, invoke) == RunToolCalls(calls[..i], toolsByName, invoke)
    decreases |calls| - i
  {
    if i < |calls| {
      assert calls[..i + 1][..i] == calls[..i];
      RunToolCallsFailureSticks(calls, toolsByName, invoke, i + 1);
    } else {
      assert calls[..i] == calls;
    }
  }

  /**
   * When every named tool exists and returns, there is one `ToolMessage` per
   * tool call, in order, carrying that tool's result and the call's name and id.
   */
  lemma {:induction false} RunToolCallsOneEach(calls: seq<ToolCallRequest>, toolsByName: map<string, Tool>, invoke: (Tool, string) -> ToolResult)
    requires forall i :: 0 <= i < |calls| ==> calls[i].name in toolsByName && invoke(toolsByName[calls[i].name], calls[i].args).Returned?
    ensures RunToolCalls(calls, toolsByName, invoke).Ok?
    ensures var outputs := RunToolCalls(calls, toolsByName, invoke).value;
      && |outputs| == |calls|
      && forall i :: 0 <= i < |calls| ==>
           outputs[i] == ToolMsg(McpUtils.ToolMessage(invoke(toolsByName[calls[i].name], calls[i].args).content, calls[i].name, calls[i].id))
    decreases |calls|
  {
    if calls != [] {
      var prefix := calls[..|calls| - 1];
      assert forall i :: 0 <= i < |prefix| ==> prefix[i] == calls[i];
      RunToolCallsOneEach(prefix, toolsByName, invoke);
    }
  }

  /** A tool name missing from `tools_by_name` is not handled: the first such call, after successful earlier ones, raises `KeyError`. */
  lemma {:induction false} RunToolCallsUnknownName(calls: seq<ToolCallRequest>, toolsByName: map<string, Tool>, invoke: (Tool, string) -> ToolResult, j: nat)
    requires j < |calls| && calls[j].name !in toolsByName
    requires forall i :: 0 <= i < j ==> calls[i].name in toolsByName && invoke(toolsByName[calls[i].name], calls[i].args).Returned?
    ensures RunToolCalls(calls, toolsByName, invoke) == Err(KeyError(calls[j].name))
  {
    var prefix := calls[..j];
    assert forall i :: 0 <= i < j ==> prefix[i] == calls[i];
    RunToolCallsOneEach(prefix, toolsByName, invoke);
    assert calls[..j + 1][..j] == prefix;
    RunToolCallsFailureSticks(calls, toolsByName, invoke, j + 1);
  }

  /** The tool node always routes back to chat when it returns, and returns exactly when every call succeeds. */
  lemma ToolNodeRoutesToChat(messages: seq<GraphMessage>, toolsByName: map<string, Tool>, invoke: (Tool, string) -> ToolResult)
    requires messages != [] && messages[|messages| - 1].AiMsg?
    ensures var calls := messages[|messages| - 1].toolCalls;
      (forall i :: 0 <= i < |calls| ==> calls[i].name in toolsByName && invoke(toolsByName[calls[i].name], calls[i].args).Returned?)
      ==> ToolNodeResult(messages, toolsByName, invoke).Ok?
          && ToolNodeResult(messages, toolsByName, invoke).value.goto == ToChat
          && |ToolNodeResult(messages, toolsByName, invoke).value.update| == |calls|
  {
    var calls := messages[|messages| - 1].toolCalls;
    if forall i :: 0 <= i < |calls| ==> calls[i].name in toolsByName && invoke(toolsByName[calls[i].name], calls[i].args).Returned? {
      RunToolCallsOneEach(calls, toolsByName, invoke);
    }
  }
}
