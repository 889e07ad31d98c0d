/**
 * `LoggingContextMiddleware.dispatch` (app/api/logging_context.py): clear the
 * request's logging context, bind the session id found in a Bearer token,
 * run the rest of the stack, bind the user id it recorded, and clear the
 * context again however the request ends.
 *
 * JWT decoding and the downstream handler are foreign: their outcomes are
 * inputs.
 */
module LoggingContext {
  import opened Common

  const BearerPrefix: string := "Bearer "

  /** The logging context shared by everything that logs during a request. */
  class LogContext {
    var entries: map<string, string>
    /** Every state the context has been in, oldest first. */
    ghost var history: seq<map<string, string>>

    constructor ()
      ensures entries == map[] && history == [map[]]
    {
      entries := map[];
      history := [map[]];
    }

    /** `clear_context()`. */
    method Clear()
      modifies this
      ensures entries == map[] && history == old(history) + [map[]]
    {
      entries := map[];
      history := history + [entries];
    }

    /** `bind_context(key=value)`. */
    method Bind(key: string, value: string)
      modifies this
      ensures entries == old(entries)[key := value] && history == old(history) + [entries]
    {
      entries := entries[key := value];
      history := history + [entries];
    }
  }

  /** Python's `s.split(" ")`: the pieces between single spaces, empty pieces included. */
  function Split(s: string): (r: seq<string>)
    ensures |r| >= 1
    decreases |s|
  {
    if s == [] then [""]
    else
      var rest := Split(s[1..]);
      if s[0] == ' ' then [""] + rest else [[s[0]] + rest[0]] + rest[1..]
  }

  /** The text before the first space (all of it when there is none). */
  function TakeUntilSpace(s: string): (r: string)
    ensures |r| <= |s| && r == s[..|r|]
    ensures forall i :: 0 <= i < |r| ==> r[i] != ' '
    ensures |r| < |s| ==> s[|r|] == ' '
  {
    if s == [] || s[0] == ' ' then [] else [s[0]] + TakeUntilSpace(s[1..])
  }

  /** The first piece of a split is the text before the first space. */
  lemma {:induction false} SplitHead(s: string)
    ensures Split(s)[0] == TakeUntilSpace(s)
    decreases |s|
  {
    if s != [] && s[0] != ' ' {
      SplitHead(s[1..]);
    }
  }

  /** Splitting a word without spaces followed by a space and more text: the word, then the split of the rest. */
  lemma {:induction false} SplitAfterWord(w: string, t: string)
    requires forall i :: 0 <= i < |w| ==> w[i] != ' '
    ensures Split(w + " " + t) == [w] + Split(t)
    decreases |w|
  {
    if w == [] {
      assert (w + " " + t)[1..] == t;
    } else {
      assert (w + " " + t)[1..] == w[1..] + " " + t;
      SplitAfterWord(w[1..], t);
      assert [w[0]] + w[1..] == w;
    }
  }

  /**
   * The token of an `Authorization` header: present only when the header
   * starts with `"Bearer "` (matched case-sensitively), and then
   * `split(" ")[1]`.
   */
  function BearerToken(header: Option<string>): Option<string> {
    if header.Some? && Truthy(header.value) && |header.value| >= |BearerPrefix| && header.value[..|BearerPrefix|] == BearerPrefix then
      var h := header.value;
      SplitAfterWord("Bearer", h[|BearerPrefix|..]);
      assert h == "Bearer" + " " + h[|BearerPrefix|..];
      Some(Split(h)[1])
    else None
  }

  /**
   * The token is the text after `"Bearer "` up to the next space (possibly
   * empty): it holds no space, `"Bearer "` followed by it starts the header,
   * and it is followed by a space or by the end of the header.
   */
  lemma BearerTokenIsNextWord(header: string)
    requires |header| >= |BearerPrefix| && header[..|BearerPrefix|] == BearerPrefix
    ensures BearerToken(Some(header)).Some?
    ensures var token := BearerToken(Some(header)).value;
      && token == TakeUntilSpace(header[|BearerPrefix|..])
      && (forall i :: 0 <= i < |token| ==> token[i] != ' ')
      && |BearerPrefix| + |token| <= |header|
      && header[..|BearerPrefix| + |token|] == BearerPrefix + token
      && (|BearerPrefix| + |token| < |header| ==> header[|BearerPrefix| + |token|] == ' ')
  {
    var rest := header[|BearerPrefix|..];
    SplitAfterWord("Bearer", rest);
    assert header == "Bearer" + " " + rest;
    SplitHead(rest);
    var token := TakeUntilSpace(rest);
    assert header[..|BearerPrefix| + |token|] == header[..|BearerPrefix|] + rest[..|token|];
  }

  /** No token is taken from a missing header or one that does not start with `"Bearer "`; the scheme is case-sensitive. */
  lemma NoTokenWithoutBearer(header: Option<string>)
    requires header.None? || |header.value| < |BearerPrefix| || header.value[..|BearerPrefix|] != BearerPrefix
    ensures BearerToken(header).None?
  {
  }

  /** What `jwt.decode` gives: the payload's `"sub"` claim, or a `JWTError`. */
  datatype Decoded = Claims(sub: Option<string>) | JwtError

  /** The application's response; passed through untouched. */
  datatype Response = Response(status: int, body: string)

  /** How `call_next(request)` ended: a response and the `request.state.user_id` it left (if any), or an exception. */
  datatype HandlerOutcome = Responded(response: Response, stateUserId: Option<string>) | HandlerRaised(error: string)

  /** The session id bound before the request is processed: the token's truthy `"sub"` claim, when decoding succeeds. */
  function SessionIdOf(authorization: Option<string>, decode: string -> Decoded): Option<string> {
    match BearerToken(authorization)
    case None => None
    case Some(token) =>
      match decode(token)
      case JwtError => None
      case Claims(sub) => if sub.Some? && Truthy(sub.value) then sub else None
  }

  /** The context the handler runs under. */
  function ContextDuringRequest(authorization: Option<string>, decode: string -> Decoded): (r: map<string, string>)
    ensures "session_id" in r <==> SessionIdOf(authorization, decode).Some?
    ensures r.Keys <= {"session_id"}
  {
    match SessionIdOf(authorization, decode)
    case None => map[]
    case Some(sid) => map["session_id" := sid]
  }

  /**
   * `dispatch`: the context is cleared on entry; the session id is bound
   * only for a Bearer token that decodes with a truthy `"sub"`; an invalid
   * token is swallowed; the request always reaches the handler; the user id
   * is bound only after it returns and only if it set one; its response is
   * returned unchanged or its exception propagates; and the context is
   * empty again at the end either way.
   */
  method Dispatch(ctx: LogContext, authorization: Option<string>, decode: string -> Decoded, handler: HandlerOutcome)
    returns (r: Result<Response, string>)
    modifies ctx
    ensures ctx.entries == map[]
    ensures handler.Responded? ==> r == Ok(handler.response)
    ensures handler.HandlerRaised? ==> r == Err(handler.error)
    ensures var during := ContextDuringRequest(authorization, decode);
      ctx.history == old(ctx.history) + [map[]]
                     + (if during == map[] then [] else [during])
                     + (if handler.Responded? && handler.stateUserId.Some? then [during["user_id" := handler.stateUserId.value]] else [])
                     + [map[]]
  {
    ctx.Clear();
    var token := BearerToken(authorization);
    if token.Some? {
      var payload := decode(token.value);
      if payload.Claims? {
        var sessionId := payload.sub;
        if sessionId.Some? && Truthy(sessionId.value) {
          ctx.Bind("session_id", sessionId.value);
        }
      }
    }
    assert ctx.entries == ContextDuringRequest(authorization, decode);
    if handler.Responded? {
      if handler.stateUserId.Some? {
        ctx.Bind("user_id", handler.stateUserId.value);
      }
      r := Ok(handler.response);
    } else {
      r := Err(handler.error);
    }
    ctx.Clear();
  }
}
