/**
 * MCP resource aggregation: `mcp_sse_client` opens one initialized client
 * session per host, and `get_mcp_dependencies` folds over the configured
 * hostnames, concatenating each host's tools and appending its session.
 *
 * The transport, the protocol handshake and `load_mcp_tools` are foreign;
 * what each of them does for a host is an input (`HostBehaviour`).
 */
module McpDependencies {
  import opened Common

  /** The host `mcp_sse_client` connects to when it is given none. */
  const DefaultHost: string := "localhost:7001"

  /** The SSE endpoint of an MCP host. */
  function SseUrl(host: string): string {
    "http://" + host + "/sse"
  }

  /** Reads the host back out of an SSE endpoint URL. */
  function HostOfSseUrl(url: string): Option<string> {
    if |url| >= 11 && url[..7] == "http://" && url[|url| - 4..] == "/sse" then Some(url[7..|url| - 4]) else None
  }

  /** The URL keeps the host verbatim between the scheme and the `/sse` path. */
  lemma SseUrlRoundTrip(host: string)
    ensures HostOfSseUrl(SseUrl(host)) == Some(host)
  {
    var url := SseUrl(host);
    assert url[..7] == "http://";
    assert url[|url| - 4..] == "/sse";
    assert url[7..|url| - 4] == host;
  }

  /** Two hosts share an endpoint only if they are the same host. */
  lemma SseUrlInjective(a: string, b: string)
    requires SseUrl(a) == SseUrl(b)
    ensures a == b
  {
    SseUrlRoundTrip(a);
    SseUrlRoundTrip(b);
  }

  /** Without an argument the client connects to the local server on port 7001. */
  lemma DefaultEndpoint()
    ensures SseUrl(DefaultHost) == "http://localhost:7001/sse"
  {
  }

  /** What the network, the server and `load_mcp_tools` do for one host. */
  datatype HostBehaviour =
    | Unreachable                   // `sse_client` fails to connect
    | InitializeRaises              // `session.initialize()` raises
    | LoadRaises                    // `load_mcp_tools(session)` raises
    | Serves(toolNames: seq<string>) // everything succeeds; these tools are listed

  /** The exception that escapes, tagged with the host it came from. */
  datatype Failure = ConnectFailed(host: string) | InitializeFailed(host: string) | LoadToolsFailed(host: string)

  /** An MCP `ClientSession`: its endpoint and whether `initialize()` has completed on it. */
  datatype ClientSession = ClientSession(url: string, initialized: bool)

  /** A LangChain tool loaded from a session; it keeps the endpoint of the session that backs it. */
  datatype McpTool = McpTool(name: string, sessionUrl: string)

  /** The aggregate handed to the application: all tools and all sessions. */
  datatype Resource = Resource(tools: seq<McpTool>, sessions: seq<ClientSession>)

  /** `mcp_sse_client(host)`: connect, open a session, initialize it, and only then yield it. */
  function OpenSseClient(host: string, behaviour: HostBehaviour): (r: Result<ClientSession, Failure>)
    ensures r.Ok? <==> behaviour != Unreachable && behaviour != InitializeRaises
    ensures r.Ok? ==> r.value.initialized && HostOfSseUrl(r.value.url) == Some(host)
  {
    SseUrlRoundTrip(host);
    if behaviour == Unreachable then Err(ConnectFailed(host))
    else
      var session := ClientSession(SseUrl(host), false);
      if behaviour == InitializeRaises then Err(InitializeFailed(host))
      else Ok(session.(initialized := true))
  }

  /** The tools a host lists, each bound to the session it was loaded from. */
  function BindTools(names: seq<string>, session: ClientSession): (r: seq<McpTool>)
    ensures |r| == |names|
    ensures forall i :: 0 <= i < |r| ==> r[i].name == names[i] && r[i].sessionUrl == session.url
  {
    if names == [] then [] else [McpTool(names[0], session.url)] + BindTools(names[1..], session)
  }

  /** `load_mcp_tools(session)`. */
  function LoadMcpTools(host: string, session: ClientSession, behaviour: HostBehaviour): Result<seq<McpTool>, Failure> {
    match behaviour
    case Serves(names) => Ok(BindTools(names, session))
    case _ => Err(LoadToolsFailed(host))
  }

  /** What the loop of `get_mcp_dependencies` has built after the given hosts, in order; the first failure escapes. */
  function Aggregate(hostnames: seq<string>, behaviour: seq<HostBehaviour>): Result<Resource, Failure>
    requires |behaviour| == |hostnames|
    decreases |hostnames|
  {
    if hostnames == [] then Ok(Resource([], []))
    else
      var last := |hostnames| - 1;
      match Aggregate(hostnames[..last], behaviour[..last])
      case Err(e) => Err(e)
      case Ok(res) =>
        match OpenSseClient(hostnames[last], behaviour[last])
        case Err(e) => Err(e)
        case Ok(session) =>
          match LoadMcpTools(hostnames[last], session, behaviour[last])
          case Err(e) => Err(e)
          case Ok(tools) => Ok(Resource(res.tools + tools, res.sessions + [session]))
  }

  /** Once a prefix of the hosts has failed, the whole aggregation fails with that error. */
  lemma {:induction false} AggregateFailureSticks(hostnames: seq<string>, behaviour: seq<HostBehaviour>, i: nat)
    requires |behaviour| == |hostnames| && i <= |hostnames|
    requires Aggregate(hostnames[..i], behaviour[..i]).Err?
    ensures Aggregate(hostnames, behaviour) == Aggregate(hostnames[..i], behaviour[..i])
    decreases |hostnames| - i
  {
    if i < |hostnames| {
      var hs, bs := hostnames[..i + 1], behaviour[..i + 1];
      assert hs[..i] == hostnames[..i] && bs[..i] == behaviour[..i];
      AggregateFailureSticks(hostnames, behaviour, i + 1);
    } else {
      assert hostnames[..i] == hostnames && behaviour[..i] == behaviour;
    }
  }

  /**
   * `get_mcp_dependencies`: for each configured hostname in order, open an
   * initialized session, load its tools, concatenate them and append the
   * session; any failure propagates and no `Resource` is yielded.
   */
  method GetMcpDependencies(hostnames: seq<string>, behaviour: seq<HostBehaviour>) returns (r: Result<Resource, Failure>)
    requires |behaviour| == |hostnames|
    ensures r == Aggregate(hostnames, behaviour)
  {
    var tools: seq<McpTool> := [];
    var sessions: seq<ClientSession> := [];
    var i := 0;
    while i < |hostnames|
      invariant 0 <= i <= |hostnames|
      invariant Aggregate(hostnames[..i], behaviour[..i]) == Ok(Resource(tools, sessions))
    {
      assert hostnames[..i + 1][..i] == hostnames[..i] && behaviour[..i + 1][..i] == behaviour[..i];
      var client := OpenSseClient(hostnames[i], behaviour[i]);
      if client.Err? {
        AggregateFailureSticks(hostnames, behaviour, i + 1);
        return Err(client.error);
      }
      var session := client.value;
      var loaded := LoadMcpTools(hostnames[i], session, behaviour[i]);
      if loaded.Err? {
        AggregateFailureSticks(hostnames, behaviour, i + 1);
        return Err(loaded.error);
      }
      tools := tools + loaded.value;
      sessions := sessions + [session];
      i := i + 1;
    }
    assert hostnames[..i] == hostnames && behaviour[..i] == behaviour;
    r := Ok(Resource(tools, sessions));
  }

  // ---------------------------------------------------------------------------
  // What the aggregation promises.

  /** Each host's tools in hostname order: an independent left-to-right definition of the concatenation. */
  function ConcatTools(hostnames: seq<string>, behaviour: seq<HostBehaviour>): seq<McpTool>
    requires |behaviour| == |hostnames|
    requires forall i :: 0 <= i < |behaviour| ==> behaviour[i].Serves?
  {
    if hostnames == [] then []
    else BindTools(behaviour[0].toolNames, ClientSession(SseUrl(hostnames[0]), true))
         + ConcatTools(hostnames[1..], behaviour[1..])
  }

  lemma {:induction false} ConcatToolsSnoc(hostnames: seq<string>, behaviour: seq<HostBehaviour>)
    requires |behaviour| == |hostnames| > 0
    requires forall i :: 0 <= i < |behaviour| ==> behaviour[i].Serves?
    ensures var last := |hostnames| - 1;
      ConcatTools(hostnames, behaviour)
        == ConcatTools(hostnames[..last], behaviour[..last])
           + BindTools(behaviour[last].toolNames, ClientSession(SseUrl(hostnames[last]), true))
    decreases |hostnames|
  {
    var last := |hostnames| - 1;
    if last > 0 {
      ConcatToolsSnoc(hostnames[1..], behaviour[1..]);
      assert hostnames[1..][..last - 1] == hostnames[..last][1..];
      assert behaviour[1..][..last - 1] == behaviour[..last][1..];
    }
  }

  /** Aggregation succeeds exactly when every host serves. */
  lemma {:induction false} AggregateOkIffAllServe(hostnames: seq<string>, behaviour: seq<HostBehaviour>)
    requires |behaviour| == |hostnames|
    ensures Aggregate(hostnames, behaviour).Ok? <==> forall i :: 0 <= i < |behaviour| ==> behaviour[i].Serves?
    decreases |hostnames|
  {
    if hostnames != [] {
      var last := |hostnames| - 1;
      AggregateOkIffAllServe(hostnames[..last], behaviour[..last]);
      assert forall i :: 0 <= i < last ==> behaviour[..last][i] == behaviour[i];
    }
  }

  /**
   * When every host serves there is one initialized session per hostname, in
   * configuration order, each connected to that host's SSE endpoint, and the
   * tools are each host's tool list concatenated in hostname order.
   */
  lemma {:induction false} AggregateSuccess(hostnames: seq<string>, behaviour: seq<HostBehaviour>)
    requires |behaviour| == |hostnames|
    requires forall i :: 0 <= i < |behaviour| ==> behaviour[i].Serves?
    ensures Aggregate(hostnames, behaviour).Ok?
    ensures var res := Aggregate(hostnames, behaviour).value;
      && |res.sessions| == |hostnames|
      && (forall i :: 0 <= i < |hostnames| ==> res.sessions[i] == ClientSession(SseUrl(hostnames[i]), true))
      && res.tools == ConcatTools(hostnames, behaviour)
    decreases |hostnames|
  {
    if hostnames != [] {
      var last := |hostnames| - 1;
      var hs, bs := hostnames[..last], behaviour[..last];
      assert forall i :: 0 <= i < last ==> bs[i] == behaviour[i];
      AggregateSuccess(hs, bs);
      var prev := Aggregate(hs, bs).value;
      var session := ClientSession(SseUrl(hostnames[last]), true);
      assert OpenSseClient(hostnames[last], behaviour[last]) == Ok(session);
      var tools := BindTools(behaviour[last].toolNames, session);
      assert Aggregate(hostnames, behaviour) == Ok(Resource(prev.tools + tools, prev.sessions + [session]));
      ConcatToolsSnoc(hostnames, behaviour);
    }
  }

  /** When some host fails, the error is the one of the first failing host: no host is skipped. */
  lemma {:induction false} AggregateFirstFailure(hostnames: seq<string>, behaviour: seq<HostBehaviour>, j: nat)
    requires |behaviour| == |hostnames| && j < |hostnames|
    requires !behaviour[j].Serves?
    requires forall i :: 0 <= i < j ==> behaviour[i].Serves?
    ensures Aggregate(hostnames, behaviour) == Err(match behaviour[j]
                                                     case Unreachable => ConnectFailed(hostnames[j])
                                                     case InitializeRaises => InitializeFailed(hostnames[j])
                                                     case _ => LoadToolsFailed(hostnames[j]))
  {
    var hs, bs := hostnames[..j + 1], behaviour[..j + 1];
    assert hs[..j] == hostnames[..j] && bs[..j] == behaviour[..j];
    AggregateSuccess(hostnames[..j], behaviour[..j]);
    AggregateFailureSticks(hostnames, behaviour, j + 1);
  }

  /** Every tool in the yielded resource is backed by one of its sessions. */
  lemma ToolsBackedBySessions(hostnames: seq<string>, behaviour: seq<HostBehaviour>)
    requires |behaviour| == |hostnames|
    requires Aggregate(hostnames, behaviour).Ok?
    ensures var res := Aggregate(hostnames, behaviour).value;
      forall t :: t in res.tools ==> exists s :: s in res.sessions && s.url == t.sessionUrl
  {
    AggregateBacked(hostnames, behaviour);
  }

  lemma {:induction false} AggregateBacked(hostnames: seq<string>, behaviour: seq<HostBehaviour>)
    requires |behaviour| == |hostnames|
    requires Aggregate(hostnames, behaviour).Ok?
    ensures var res := Aggregate(hostnames, behaviour).value;
      forall k :: 0 <= k < |res.tools| ==> exists s :: s in res.sessions && s.url == res.tools[k].sessionUrl
    decreases |hostnames|
  {
    if hostnames != [] {
      var last := |hostnames| - 1;
      AggregateBacked(hostnames[..last], behaviour[..last]);
    }
  }
}
