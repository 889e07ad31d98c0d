/**
 * `AgentExample` (app/core/agentic/agent_example.py): an agent whose config
 * is copied shallowly per call and whose graph is compiled lazily.
 *
 * Two behaviours of the source are kept on purpose:
 *  - `config.copy()` is shallow, so the per-call metadata writes go into the
 *    one metadata dict the agent owns, which every earlier config also sees;
 *  - `_graph` is a class attribute that nothing ever assigns, so every call
 *    to `_ensure_graph` compiles a new graph.
 */
module Agentic {
  import opened Common
  import opened Messages
  import opened AgentSupport
  import GraphNodes

  /** A Python dict shared by reference: the `"metadata"` entry of the agent's config. */
  class Metadata {
    var entries: map<string, MetaValue>

    constructor (initial: map<string, MetaValue>)
      ensures entries == initial
    {
      entries := initial;
    }
  }

  /** A run config: its callbacks, its metadata dict (a reference), and its `"configurable"` entry when it has one. */
  datatype AgentConfig = AgentConfig(callbacks: seq<string>, metadata: Metadata, configurable: Option<map<string, string>>)

  /** The metadata value of an optional user id. */
  function UserIdValue(userId: Option<int>): MetaValue {
    if userId.Some? then IntValue(userId.value) else NoneValue
  }

  class AgentExample {
    const name: string
    const toolsByName: map<string, GraphNodes.Tool>
    const config: AgentConfig
    /** The class attribute `_graph`; no method assigns it. */
    var graph: Option<Graph>
    /** How many graphs have been compiled so far. */
    var compiled: nat

    constructor (name: string, tools: seq<GraphNodes.Tool>, environment: string, debug: bool)
      ensures this.name == name && toolsByName == ToolsByName(tools)
      ensures fresh(config.metadata)
      ensures config.configurable == None && config.callbacks == ["langfuse"]
      ensures config.metadata.entries == map["environment" := StrValue(environment), "debug" := BoolValue(debug)]
      ensures graph == None && compiled == 0
    {
      this.name := name;
      toolsByName := ToolsByName(tools);
      var metadata := new Metadata(map["environment" := StrValue(environment), "debug" := BoolValue(debug)]);
      config := AgentConfig(["langfuse"], metadata, None);
      graph := None;
      compiled := 0;
    }

    /** `_create_compiled_graph`: build and compile a new graph. */
    method CreateCompiledGraph() returns (g: Graph)
      modifies this`compiled
      ensures g == Graph(old(compiled)) && compiled == old(compiled) + 1
    {
      g := Graph(compiled);
      compiled := compiled + 1;
    }

    /** `_ensure_graph`: the stored graph if there is one, else a freshly compiled graph that is not stored. */
    method EnsureGraph() returns (g: Graph)
      modifies this`compiled
      ensures graph.Some? ==> g == graph.value && compiled == old(compiled)
      ensures graph.None? ==> g == Graph(old(compiled)) && compiled == old(compiled) + 1
    {
      if graph.Some? {
        return graph.value;
      }
      g := CreateCompiledGraph();
    }

    /**
     * `_create_config`: a shallow copy of the agent's config with
     * `configurable.thread_id` set; the user and session ids are written
     * into the shared metadata dict, which the copy and the agent both hold.
     */
    method CreateConfig(sessionId: string, userId: Option<int>) returns (c: AgentConfig)
      modifies config.metadata
      ensures c.callbacks == config.callbacks && c.metadata == config.metadata
      ensures c.configurable == Some(map["thread_id" := sessionId])
      ensures config.metadata.entries == old(config.metadata.entries)["user_id" := UserIdValue(userId)]["session_id" := StrValue(sessionId)]
    {
      c := config.(configurable := Some(map["thread_id" := sessionId]));
      c.metadata.entries := c.metadata.entries["user_id" := UserIdValue(userId)];
      c.metadata.entries := c.metadata.entries["session_id" := StrValue(sessionId)];
    }

    /**
     * `agent_invoke`: compile (or reuse) the graph, build the config, look up
     * long-term memory for the last message (falling back to a fixed text),
     * and run the graph with the config's `configurable` entry, whose
     * `thread_id` selects the saved conversation; a failed run yields `[]`. An empty message list
     * raises before the `try`, after the graph and config were made.
     */
    method AgentInvoke(messages: seq<Message>, sessionId: string, userId: Option<int>,
                       memory: (Option<int>, string) -> string,
                       run: (Graph, GraphInput, map<string, string>) -> Result<seq<OpenAiMessage>, string>)
      returns (r: Result<seq<Message>, Raise>)
      modifies this`compiled, config.metadata
      ensures compiled == old(compiled) + (if graph.None? then 1 else 0)
      ensures config.metadata.entries == old(config.metadata.entries)["user_id" := UserIdValue(userId)]["session_id" := StrValue(sessionId)]
      ensures messages == [] ==> r == Err(IndexError)
      ensures messages != [] ==>
        var g := if graph.Some? then graph.value else Graph(old(compiled));
        var input := GraphInput(messages, MemoryOrFallback(memory(userId, messages[|messages| - 1].content)));
        var thread := map["thread_id" := sessionId];
        r == Ok(if run(g, input, thread).Ok? then ProcessMessages(run(g, input, thread).value) else [])
    {
      var g := EnsureGraph();
      var c := CreateConfig(sessionId, userId);
      if messages == [] {
        return Err(IndexError);
      }
      var relevant := MemoryOrFallback(memory(userId, messages[|messages| - 1].content));
      var response := run(g, GraphInput(messages, relevant), c.configurable.value);
      if response.Err? {
        return Ok([]);
      }
      r := Ok(ProcessMessages(response.value));
    }

    /** `get_chat_history`: compile (or reuse) the graph, read the thread's state and filter its messages. */
    method GetChatHistory(sessionId: string, state: (Graph, string) -> map<string, seq<OpenAiMessage>>)
      returns (r: Result<seq<Message>, Raise>)
      modifies this`compiled
      ensures compiled == old(compiled) + (if graph.None? then 1 else 0)
      ensures r == ChatHistory(state(if graph.Some? then graph.value else Graph(old(compiled)), sessionId))
    {
      var g := EnsureGraph();
      r := ChatHistory(state(g, sessionId));
    }

    /** `_tool_call_node`: the shared tool node over this agent's `tools_by_name`. */
    method ToolCallNode(messages: seq<GraphNodes.GraphMessage>, invoke: (GraphNodes.Tool, string) -> GraphNodes.ToolResult)
      returns (r: Result<GraphNodes.Command, GraphNodes.NodeError>)
      ensures r == GraphNodes.ToolNodeResult(messages, toolsByName, invoke)
    {
      r := GraphNodes.ToolCallNode(messages, toolsByName, invoke);
    }
  }

  /**
   * Because the copy is shallow, a config handed out earlier sees the ids
   * written by a later call: after two calls, the first config's metadata
   * carries the second caller's session and user ids.
   */
  method SharedMetadataHoldsLastCaller(tools: seq<GraphNodes.Tool>, s1: string, u1: Option<int>, s2: string, u2: Option<int>)
    returns (firstSession: MetaValue, firstUser: MetaValue)
    ensures firstSession == StrValue(s2) && firstUser == UserIdValue(u2)
  {
    var agent := new AgentExample("agent", tools, "development", false);
    var c1 := agent.CreateConfig(s1, u1);
    var c2 := agent.CreateConfig(s2, u2);
    firstSession := c1.metadata.entries["session_id"];
    firstUser := c1.metadata.entries["user_id"];
  }

  /** Because `_graph` is never stored, two calls of `_ensure_graph` compile two different graphs. */
  method EveryCallCompilesAfresh(tools: seq<GraphNodes.Tool>) returns (g1: Graph, g2: Graph, compiles: nat)
    ensures g1 != g2 && compiles == 2
  {
    var agent := new AgentExample("agent", tools, "development", false);
    g1 := agent.EnsureGraph();
    g2 := agent.EnsureGraph();
    compiles := agent.compiled;
  }
}
