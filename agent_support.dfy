/**
 * Pieces the two agents (`AgentExample` and `LangGraphAgent`) share: the
 * `tools_by_name` index, the long-term-memory fallback, the chat-history
 * read, and the shapes of what they hand to the compiled graph.
 */
module AgentSupport {
  import opened Common
  import opened Messages
  import GraphNodes

  const NoMemory: string := "No relevant memory found."

  /** A compiled graph; `serial` tells apart graphs compiled by different calls. */
  datatype Graph = Graph(serial: nat)

  /** A value stored in a config's metadata. */
  datatype MetaValue = StrValue(s: string) | IntValue(i: int) | BoolValue(b: bool) | NoneValue

  /** The input given to `graph.ainvoke`: the messages and the long-term memory text. */
  datatype GraphInput = GraphInput(messages: seq<Message>, longTermMemory: string)

  /** The exception an agent entry point lets escape before its own `try`. */
  datatype Raise = IndexError | KeyError(key: string)

  /** `{tool.name: tool for tool in tools}`: each name maps to its tool, a later tool overwriting an earlier one of the same name. */
  function ToolsByName(tools: seq<GraphNodes.Tool>): map<string, GraphNodes.Tool>
    decreases |tools|
  {
    if tools == [] then map[]
    else ToolsByName(tools[..|tools| - 1])[tools[|tools| - 1].name := tools[|tools| - 1]]
  }

  /** Position `i` holds the last tool in the list named `name`. */
  predicate LastWithName(tools: seq<GraphNodes.Tool>, i: int, name: string) {
    0 <= i < |tools| && tools[i].name == name && forall j :: i < j < |tools| ==> tools[j].name != name
  }

  /** The index has exactly the tools' names as keys. */
  lemma {:induction false} ToolsByNameKeys(tools: seq<GraphNodes.Tool>)
    ensures ToolsByName(tools).Keys == set i | 0 <= i < |tools| :: tools[i].name
    decreases |tools|
  {
    if tools != [] {
      var n := |tools| - 1;
      var prefix := tools[..n];
      ToolsByNameKeys(prefix);
      assert forall i :: 0 <= i < n ==> prefix[i] == tools[i];
      assert (set i | 0 <= i < |tools| :: tools[i].name) == (set i | 0 <= i < n :: prefix[i].name) + {tools[n].name};
    }
  }

  /** Each name in the index maps to the last tool in the list that has that name. */
  lemma {:induction false} ToolsByNameLastWins(tools: seq<GraphNodes.Tool>, name: string)
    requires name in ToolsByName(tools)
    ensures exists i :: LastWithName(tools, i, name) && tools[i] == ToolsByName(tools)[name]
    decreases |tools|
  {
    var n := |tools| - 1;
    var prefix := tools[..n];
    if name == tools[n].name {
      assert LastWithName(tools, n, name) && tools[n] == ToolsByName(tools)[name];
    } else {
      ToolsByNameLastWins(prefix, name);
      var i :| LastWithName(prefix, i, name) && prefix[i] == ToolsByName(prefix)[name];
      assert LastWithName(tools, i, name) && tools[i] == ToolsByName(tools)[name];
    }
  }

  /** `get_relevant_memory(...) or "No relevant memory found."`: the lookup when it found something, else the fallback text. */
  function MemoryOrFallback(memory: string): (r: string)
    ensures r != ""
    ensures Truthy(memory) ==> r == memory
    ensures !Truthy(memory) ==> r == NoMemory
  {
    if Truthy(memory) then memory else NoMemory
  }

  /**
   * `process_messages(state.values["messages"]) if state.values else []`:
   * no stored values give an empty history; stored values without
   * `"messages"` raise `KeyError`.
   */
  function ChatHistory(values: map<string, seq<OpenAiMessage>>): (r: Result<seq<Message>, Raise>)
    ensures |values| == 0 ==> r == Ok([])
    ensures |values| > 0 && "messages" !in values ==> r == Err(KeyError("messages"))
    ensures "messages" in values ==> r == Ok(ProcessMessages(values["messages"]))
  {
    if |values| == 0 then Ok([])
    else if "messages" in values then Ok(ProcessMessages(values["messages"]))
    else Err(KeyError("messages"))
  }
}
