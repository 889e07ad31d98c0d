/**
 * The resilient MCP tool-call dispatcher (`handle_mcp_tool_call`).
 *
 * Everything the dispatcher cannot see is an input: the outcome of each tool
 * invocation, the outcome of each `reconnect()` of the session manager, and,
 * when an `on_reconnect` hook is given, the outcome of each of its calls.
 * The k-th attempt of the loop uses the k-th entry of each sequence.
 */
module McpUtils {
  import opened Common

  /** The two error kinds the dispatcher distinguishes: `ClosedResourceError` and every other exception. */
  datatype ErrorKind = ClosedResource | OtherError

  /** How one `tool_fn.ainvoke(args)` ended: a result, or an exception of some kind with its `str()` text. */
  datatype ToolOutcome = ToolOk(result: string) | ToolErr(kind: ErrorKind, text: string)

  /** How one `reconnect()` ended: it returned true, it returned false, or it (or fetching the manager) raised. */
  datatype ReconnectOutcome = Reconnected | NotReconnected | ReconnectRaises

  /** How one call of the `on_reconnect` hook ended. */
  datatype HookOutcome = HookDone | HookRaises

  /** The environment of one dispatch; `onReconnect` is `None` when no hook was given. */
  datatype Env = Env(tools: seq<ToolOutcome>, reconnects: seq<ReconnectOutcome>, onReconnect: Option<seq<HookOutcome>>)

  /** The two entries of `tool_call` the dispatcher reads: `"args"` and `"id"`. */
  datatype ToolCall = ToolCall(args: string, id: string)

  /** LangChain's `ToolMessage(content, name, tool_call_id)`. */
  datatype ToolMessage = ToolMessage(content: string, name: string, toolCallId: string)

  /**
   * What one dispatch did: the message it returned (`None` when the function
   * falls off the end without returning), the arguments handed to each tool
   * invocation in order, and how often `reconnect()` and the hook were called.
   */
  datatype Run = Run(message: Option<ToolMessage>, passedArgs: seq<string>, reconnects: nat, hookCalls: nat)

  const ClosedSuffix: string := " (MCP connection issue. Attempted reconnection.)"

  /** The environment has an outcome ready for every call the loop can make. */
  predicate Supplies(env: Env, maxRetries: int) {
    && |env.tools| > maxRetries
    && |env.reconnects| >= maxRetries
    && (env.onReconnect.Some? ==> |env.onReconnect.value| >= maxRetries)
  }

  /** `n` copies of `x`. */
  function Repeat(x: string, n: nat): (r: seq<string>)
    ensures |r| == n
    ensures forall i :: 0 <= i < n ==> r[i] == x
  {
    if n == 0 then [] else Repeat(x, n - 1) + [x]
  }

  /** Number of hook calls made before attempt `k`: one per earlier retry, when a hook was given. */
  function HookCallsBefore(env: Env, k: nat): nat {
    if env.onReconnect.Some? then k else 0
  }

  /** The text of the error message built when the dispatcher gives up. */
  function ErrorContent(toolName: string, kind: ErrorKind, text: string): string {
    "[ERROR] Tool '" + toolName + "' failed: " + text + (if kind == ClosedResource then ClosedSuffix else "")
  }

  /** Attempt `k` ends in a retry: closed transport, attempts remain, reconnect returned true, the hook (if any) completed. */
  predicate Continues(env: Env, maxRetries: int, k: nat)
    requires Supplies(env, maxRetries)
  {
    && k < maxRetries
    && env.tools[k].ToolErr? && env.tools[k].kind == ClosedResource
    && env.reconnects[k] == Reconnected
    && (env.onReconnect.Some? ==> env.onReconnect.value[k] == HookDone)
  }

  /** The dispatch loop from attempt `attempt` on, as a function of the environment. */
  function DispatchFrom(env: Env, call: ToolCall, toolName: string, maxRetries: int, attempt: nat): Run
    requires Supplies(env, maxRetries)
    requires attempt <= maxRetries
    decreases maxRetries - attempt
  {
    var invoked := Repeat(call.args, attempt + 1);
    var hooks := HookCallsBefore(env, attempt);
    match env.tools[attempt]
    case ToolOk(result) =>
      Run(Some(ToolMessage(result, toolName, call.id)), invoked, attempt, hooks)
    case ToolErr(kind, text) =>
      var failed := Some(ToolMessage(ErrorContent(toolName, kind, text), toolName, call.id));
      if kind == ClosedResource && attempt < maxRetries then
        match env.reconnects[attempt]
        case Reconnected =>
          if env.onReconnect.None? then
            DispatchFrom(env, call, toolName, maxRetries, attempt + 1)
          else if env.onReconnect.value[attempt] == HookDone then
            DispatchFrom(env, call, toolName, maxRetries, attempt + 1)
          else
            Run(failed, invoked, attempt + 1, hooks + 1)
        case _ =>
          Run(failed, invoked, attempt + 1, hooks)
      else
        Run(failed, invoked, attempt, hooks)
  }

  /** The whole of `handle_mcp_tool_call`, as a function of the environment. */
  function Dispatch(env: Env, call: ToolCall, toolName: string, maxRetries: int): Run
    requires Supplies(env, maxRetries)
  {
    if maxRetries < 0 then Run(None, [], 0, 0) else DispatchFrom(env, call, toolName, maxRetries, 0)
  }

  /** The default of `max_retries`: one retry after the first attempt. */
  const DefaultMaxRetries: int := 1

  /**
   * `handle_mcp_tool_call`: the attempt loop. It also returns the correlation
   * id it binds to the logging context.
   */
  method HandleMcpToolCall(env: Env, call: ToolCall, toolName: string, maxRetries: int,
                           correlationId: Option<string>, freshId: string)
    returns (message: Option<ToolMessage>, usedId: string, passedArgs: seq<string>, reconnects: nat, hookCalls: nat)
    requires Supplies(env, maxRetries)
    ensures Run(message, passedArgs, reconnects, hookCalls) == Dispatch(env, call, toolName, maxRetries)
    ensures correlationId.Some? ==> usedId == correlationId.value
    ensures correlationId.None? ==> usedId == freshId
  {
    usedId := if correlationId.None? then freshId else correlationId.value;
    message, passedArgs, reconnects, hookCalls := None, [], 0, 0;
    var attempt: nat := 0;
    while attempt < maxRetries + 1
      invariant attempt == 0 || attempt <= maxRetries
      invariant passedArgs == Repeat(call.args, attempt)
      invariant reconnects == attempt && hookCalls == HookCallsBefore(env, attempt)
      invariant attempt <= maxRetries ==> Dispatch(env, call, toolName, maxRetries) == DispatchFrom(env, call, toolName, maxRetries, attempt)
      invariant message == None
      decreases maxRetries + 1 - attempt
    {
      var outcome := env.tools[attempt];
      passedArgs := passedArgs + [call.args];
      match outcome
      case ToolOk(result) =>
        message := Some(ToolMessage(result, toolName, call.id));
        return;
      case ToolErr(kind, text) =>
        if kind == ClosedResource && attempt < maxRetries {
          var reconnected := env.reconnects[attempt];
          reconnects := reconnects + 1;
          var retry := false;
          if reconnected == Reconnected {
            if env.onReconnect.Some? {
              hookCalls := hookCalls + 1;
              retry := env.onReconnect.value[attempt] == HookDone;
            } else {
              retry := true;
            }
          }
          if retry {
            attempt := attempt + 1;
            continue;
          }
        }
        message := Some(ToolMessage(ErrorContent(toolName, kind, text), toolName, call.id));
        return;
    }
  }

  // ---------------------------------------------------------------------------
  // What the dispatcher promises, stated over the specification function.

  /** The message built from the outcome of the last invocation. */
  function Reply(call: ToolCall, toolName: string, outcome: ToolOutcome): ToolMessage {
    match outcome
    case ToolOk(result) => ToolMessage(result, toolName, call.id)
    case ToolErr(kind, text) => ToolMessage(ErrorContent(toolName, kind, text), toolName, call.id)
  }

  /** Attempt `k` calls `reconnect()`: it failed on a closed transport and attempts remain. */
  predicate TriesReconnect(env: Env, maxRetries: int, k: nat)
    requires Supplies(env, maxRetries)
  {
    k < maxRetries && env.tools[k].ToolErr? && env.tools[k].kind == ClosedResource
  }

  /**
   * `r` is what a loop started at attempt `from` does: every attempt before
   * the last one retried, the last one did not, the message comes from the
   * last outcome, and the reconnect and hook counts follow.
   */
  predicate Explains(env: Env, call: ToolCall, toolName: string, maxRetries: int, from: nat, r: Run)
    requires Supplies(env, maxRetries)
  {
    var n := |r.passedArgs|;
    && from < n <= maxRetries + 1
    && (forall i :: 0 <= i < n ==> r.passedArgs[i] == call.args)
    && (forall k :: from <= k < n - 1 ==> Continues(env, maxRetries, k))
    && !Continues(env, maxRetries, n - 1)
    && r.message == Some(Reply(call, toolName, env.tools[n - 1]))
    && r.reconnects == n - 1 + (if TriesReconnect(env, maxRetries, n - 1) then 1 else 0)
    && r.hookCalls == (if env.onReconnect.None? then 0
                       else n - 1 + (if TriesReconnect(env, maxRetries, n - 1) && env.reconnects[n - 1] == Reconnected then 1 else 0))
  }

  lemma {:induction false} DispatchFromExplained(env: Env, call: ToolCall, toolName: string, maxRetries: int, attempt: nat)
    requires Supplies(env, maxRetries)
    requires attempt <= maxRetries
    ensures Explains(env, call, toolName, maxRetries, attempt, DispatchFrom(env, call, toolName, maxRetries, attempt))
    decreases maxRetries - attempt
  {
    if Continues(env, maxRetries, attempt) {
      DispatchFromExplained(env, call, toolName, maxRetries, attempt + 1);
    }
  }

  /** For `max_retries >= 0` the dispatch is exactly what `Explains` describes, from the first attempt. */
  lemma DispatchExplained(env: Env, call: ToolCall, toolName: string, maxRetries: int)
    requires Supplies(env, maxRetries)
    requires maxRetries >= 0
    ensures Explains(env, call, toolName, maxRetries, 0, Dispatch(env, call, toolName, maxRetries))
  {
    DispatchFromExplained(env, call, toolName, maxRetries, 0);
  }

  /**
   * The tool is invoked at least once and at most `max_retries + 1` times,
   * always with `tool_call["args"]`; `reconnect()` is called at most
   * `max_retries` times; a message is always returned, with the tool's name
   * and the call's id.
   */
  lemma InvocationBounds(env: Env, call: ToolCall, toolName: string, maxRetries: int)
    requires Supplies(env, maxRetries)
    requires maxRetries >= 0
    ensures var r := Dispatch(env, call, toolName, maxRetries);
      && 1 <= |r.passedArgs| <= maxRetries + 1
      && (forall i :: 0 <= i < |r.passedArgs| ==> r.passedArgs[i] == call.args)
      && r.reconnects <= maxRetries
      && r.hookCalls <= r.reconnects
      && r.message.Some?
      && r.message.value.name == toolName
      && r.message.value.toolCallId == call.id
  {
    DispatchExplained(env, call, toolName, maxRetries);
  }

  /**
   * A further attempt happens only after a closed-transport failure with
   * attempts remaining, a `reconnect()` that returned true, and a hook (when
   * given) that completed.
   */
  lemma RetryOnlyAfterReconnect(env: Env, call: ToolCall, toolName: string, maxRetries: int, k: nat)
    requires Supplies(env, maxRetries)
    requires k + 1 < |Dispatch(env, call, toolName, maxRetries).passedArgs|
    ensures k < maxRetries
    ensures env.tools[k].ToolErr? && env.tools[k].kind == ClosedResource
    ensures env.reconnects[k] == Reconnected
    ensures env.onReconnect.Some? ==> env.onReconnect.value[k] == HookDone
  {
    if maxRetries >= 0 {
      DispatchExplained(env, call, toolName, maxRetries);
      assert Continues(env, maxRetries, k);
    }
  }

  /** The first successful invocation ends the loop, and its result is the message content. */
  lemma FirstSuccessReturned(env: Env, call: ToolCall, toolName: string, maxRetries: int, k: nat)
    requires Supplies(env, maxRetries)
    requires k <= maxRetries && env.tools[k].ToolOk?
    requires forall j :: 0 <= j < k ==> Continues(env, maxRetries, j)
    ensures var r := Dispatch(env, call, toolName, maxRetries);
      && |r.passedArgs| == k + 1
      && r.message == Some(ToolMessage(env.tools[k].result, toolName, call.id))
  {
    DispatchExplained(env, call, toolName, maxRetries);
    var n := |Dispatch(env, call, toolName, maxRetries).passedArgs|;
    assert n - 1 > k ==> Continues(env, maxRetries, k);
  }

  /**
   * When attempt `k` is reached and fails on a closed transport with
   * attempts remaining, but `reconnect()` returns false or raises, or the
   * hook raises, there is no further invocation: an error message carrying
   * the connection-issue suffix is returned and nothing propagates.
   */
  lemma GiveUpWhenReconnectFails(env: Env, call: ToolCall, toolName: string, maxRetries: int, k: nat)
    requires Supplies(env, maxRetries)
    requires k < maxRetries && env.tools[k].ToolErr? && env.tools[k].kind == ClosedResource
    requires env.reconnects[k] != Reconnected || (env.onReconnect.Some? && env.onReconnect.value[k] == HookRaises)
    requires forall j :: 0 <= j < k ==> Continues(env, maxRetries, j)
    ensures var r := Dispatch(env, call, toolName, maxRetries);
      && |r.passedArgs| == k + 1
      && r.reconnects == k + 1
      && r.message == Some(ToolMessage(ErrorContent(toolName, ClosedResource, env.tools[k].text) , toolName, call.id))
      && r.message.value.content == "[ERROR] Tool '" + toolName + "' failed: " + env.tools[k].text + ClosedSuffix
  {
    DispatchExplained(env, call, toolName, maxRetries);
    var n := |Dispatch(env, call, toolName, maxRetries).passedArgs|;
    assert n - 1 > k ==> Continues(env, maxRetries, k);
  }

  /** Any other failure, or a closed transport on the last allowed attempt, ends the loop with an error message. */
  lemma GiveUpOnOtherErrors(env: Env, call: ToolCall, toolName: string, maxRetries: int, k: nat)
    requires Supplies(env, maxRetries)
    requires k <= maxRetries && env.tools[k].ToolErr?
    requires env.tools[k].kind == OtherError || k == maxRetries
    requires forall j :: 0 <= j < k ==> Continues(env, maxRetries, j)
    ensures var r := Dispatch(env, call, toolName, maxRetries);
      && |r.passedArgs| == k + 1
      && r.reconnects == k
      && r.message == Some(ToolMessage(ErrorContent(toolName, env.tools[k].kind, env.tools[k].text), toolName, call.id))
  {
    DispatchExplained(env, call, toolName, maxRetries);
    var n := |Dispatch(env, call, toolName, maxRetries).passedArgs|;
    assert n - 1 > k ==> Continues(env, maxRetries, k);
  }

  /** With `max_retries = 0` there is exactly one invocation and `reconnect()` is never called, whatever the error. */
  lemma NoRetryWhenZero(env: Env, call: ToolCall, toolName: string)
    requires Supplies(env, 0)
    ensures var r := Dispatch(env, call, toolName, 0);
      && |r.passedArgs| == 1
      && r.reconnects == 0
      && r.hookCalls == 0
      && r.message == Some(Reply(call, toolName, env.tools[0]))
  {
  }

  /** With the default `max_retries`, the tool is invoked once or twice and `reconnect()` runs at most once. */
  lemma DefaultAllowsOneRetry(env: Env, call: ToolCall, toolName: string)
    requires Supplies(env, DefaultMaxRetries)
    ensures var r := Dispatch(env, call, toolName, DefaultMaxRetries);
      1 <= |r.passedArgs| <= 2 && r.reconnects <= 1 && r.message.Some?
  {
    InvocationBounds(env, call, toolName, DefaultMaxRetries);
  }

  /** With `max_retries < 0` the loop body never runs: no invocation, and no message (the function returns None). */
  lemma NothingWhenNegative(env: Env, call: ToolCall, toolName: string, maxRetries: int)
    requires Supplies(env, maxRetries)
    requires maxRetries < 0
    ensures var r := Dispatch(env, call, toolName, maxRetries);
      r.message == None && r.passedArgs == [] && r.reconnects == 0 && r.hookCalls == 0
  {
  }

  /**
   * The error text starts with `[ERROR] Tool '<name>' failed: <err>` and is
   * longer than that prefix exactly when the error is a closed transport,
   * by the connection-issue suffix.
   */
  lemma ErrorContentShape(toolName: string, kind: ErrorKind, text: string)
    ensures var base := "[ERROR] Tool '" + toolName + "' failed: " + text;
      && ErrorContent(toolName, kind, text)[..|base|] == base
      && (|ErrorContent(toolName, kind, text)| > |base| <==> kind == ClosedResource)
      && (kind == ClosedResource ==> ErrorContent(toolName, kind, text)[|base|..] == ClosedSuffix)
  {
  }

  /** A first call that hits a closed transport, a reconnect that succeeds, and a second call that succeeds. */
  lemma ClosedThenRecovered(call: ToolCall, toolName: string, result: string, text: string)
    ensures var env := Env([ToolErr(ClosedResource, text), ToolOk(result)], [Reconnected], None);
      var r := Dispatch(env, call, toolName, 1);
      && r.message == Some(ToolMessage(result, toolName, call.id))
      && |r.passedArgs| == 2
      && r.reconnects == 1
  {
  }
}
