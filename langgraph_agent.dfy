/**
 * `LangGraphAgent` (app/core/langgraph/graph.py): an agent that compiles its
 * graph once and keeps it, and builds a fresh config for every response.
 */
module LangGraph {
  import opened Common
  import opened Messages
  import opened AgentSupport
  import GraphNodes

  /** The config `get_response` builds: the thread id and the metadata dict. */
  datatype ResponseConfig = ResponseConfig(threadId: string, metadata: map<string, MetaValue>)

  /** The metadata value of an optional user id. */
  function UserIdValue(userId: Option<string>): MetaValue {
    if userId.Some? then StrValue(userId.value) else NoneValue
  }

  class LangGraphAgent {
    const toolsByName: map<string, GraphNodes.Tool>
    /** The instance field `_graph`, set by the first `_ensure_graph`. */
    var graph: Option<Graph>
    /** How many graphs have been compiled so far. */
    var compiled: nat

    constructor (tools: seq<GraphNodes.Tool>)
      ensures toolsByName == ToolsByName(tools)
      ensures graph == None && compiled == 0
    {
      toolsByName := ToolsByName(tools);
      graph := None;
      compiled := 0;
    }

    /** `_ensure_graph`: compile the graph on first use and store it; afterwards return the stored graph. */
    method EnsureGraph() returns (g: Graph)
      modifies this
      ensures graph == Some(g)
      ensures old(graph).Some? ==> g == old(graph).value && compiled == old(compiled)
      ensures old(graph).None? ==> g == Graph(old(compiled)) && compiled == old(compiled) + 1
    {
      if graph.None? {
        graph := Some(Graph(compiled));
        compiled := compiled + 1;
      }
      g := graph.value;
    }

    /**
     * `get_response`: ensure the graph, build the config, look up long-term
     * memory for the last message (falling back to a fixed text) and run the
     * graph. A failed run is only logged, so the method returns `None`
     * rather than a list. An empty message list raises before the `try`.
     */
    method GetResponse(messages: seq<Message>, sessionId: string, userId: Option<string>,
                       environment: string, debug: bool,
                       memory: (Option<string>, string) -> string,
                       run: (Graph, GraphInput, ResponseConfig) -> Result<seq<OpenAiMessage>, string>)
      returns (r: Result<Option<seq<Message>>, Raise>, config: ResponseConfig)
      modifies this
      ensures graph.Some? && (old(graph).Some? ==> graph == old(graph))
      ensures compiled == old(compiled) + (if old(graph).None? then 1 else 0)
      ensures config.threadId == sessionId
      ensures config.metadata == map["user_id" := UserIdValue(userId), "session_id" := StrValue(sessionId),
                                     "environment" := StrValue(environment), "debug" := BoolValue(debug)]
      ensures messages == [] ==> r == Err(IndexError)
      ensures messages != [] ==>
        var input := GraphInput(messages, MemoryOrFallback(memory(userId, messages[|messages| - 1].content)));
        r == Ok(if run(graph.value, input, config).Ok? then Some(ProcessMessages(run(graph.value, input, config).value)) else None)
    {
      var g := EnsureGraph();
      config := ResponseConfig(sessionId, map["user_id" := UserIdValue(userId), "session_id" := StrValue(sessionId),
                                              "environment" := StrValue(environment), "debug" := BoolValue(debug)]);
      if messages == [] {
        return Err(IndexError), config;
      }
      var relevant := MemoryOrFallback(memory(userId, messages[|messages| - 1].content));
      var response := run(g, GraphInput(messages, relevant), config);
      if response.Err? {
        return Ok(None), config;
      }
      r := Ok(Some(ProcessMessages(response.value)));
    }

    /** `get_chat_history`: ensure the graph, read the thread's state and filter its messages. */
    method GetChatHistory(sessionId: string, state: (Graph, string) -> map<string, seq<OpenAiMessage>>)
      returns (r: Result<seq<Message>, Raise>)
      modifies this
      ensures graph.Some? && (old(graph).Some? ==> graph == old(graph))
      ensures r == ChatHistory(state(graph.value, sessionId))
    {
      var g := EnsureGraph();
      r := ChatHistory(state(g, sessionId));
    }

    /** The tool node over this agent's `tools_by_name`. */
    method ToolCallNode(messages: seq<GraphNodes.GraphMessage>, invoke: (GraphNodes.Tool, string) -> GraphNodes.ToolResult)
      returns (r: Result<GraphNodes.Command, GraphNodes.NodeError>)
      ensures r == GraphNodes.ToolNodeResult(messages, toolsByName, invoke)
    {
      r := GraphNodes.ToolCallNode(messages, toolsByName, invoke);
    }
  }

  /** Because `_ensure_graph` stores what it compiles, later calls return the same graph and compile nothing more. */
  method GraphCompiledOnce(tools: seq<GraphNodes.Tool>) returns (g1: Graph, g2: Graph, compiles: nat)
    ensures g1 == g2 && compiles == 1
  {
    var agent := new LangGraphAgent(tools);
    g1 := agent.EnsureGraph();
    g2 := agent.EnsureGraph();
    compiles := agent.compiled;
  }
}
