/**
 * `SessionResponse` (app/core/session/session_dto.py): the session name is
 * limited to 100 characters and stripped of eleven bracket and quote
 * characters by `sanitize_name`.
 */
module SessionDto {
  import opened Common

  /** The characters the validator's character class `[<>{}[\]()'"`]` matches. */
  const Forbidden: set<char> := {'<', '>', '{', '}', '[', ']', '(', ')', '\'', '"', '`'}

  /** The `max_length` of the `name` field. */
  const MaxNameLength: nat := 100

  /** `sanitize_name`: delete every forbidden character, keep the rest in order. */
  function SanitizeName(v: string): (r: string)
    ensures |r| <= |v|
    ensures forall i :: 0 <= i < |r| ==> r[i] !in Forbidden
  {
    if v == [] then []
    else (if v[0] in Forbidden then [] else [v[0]]) + SanitizeName(v[1..])
  }

  /**
   * The sanitizer works character by character: it maps the concatenation of
   * two strings to the concatenation of their sanitized forms, drops a
   * forbidden character and keeps any other one. These two facts determine
   * it completely.
   */
  lemma {:induction false} SanitizeNameConcat(a: string, b: string)
    ensures SanitizeName(a + b) == SanitizeName(a) + SanitizeName(b)
  {
    if a != [] {
      assert (a + b)[1..] == a[1..] + b;
      SanitizeNameConcat(a[1..], b);
    } else {
      assert a + b == b;
    }
  }

  lemma SanitizeNameOneChar(c: char)
    ensures SanitizeName([c]) == if c in Forbidden then [] else [c]
  {
  }

  /** Sanitizing twice is sanitizing once. */
  lemma {:induction false} SanitizeNameIdempotent(v: string)
    ensures SanitizeName(SanitizeName(v)) == SanitizeName(v)
  {
    if v != [] {
      SanitizeNameIdempotent(v[1..]);
      var head := if v[0] in Forbidden then [] else [v[0]];
      SanitizeNameConcat(head, SanitizeName(v[1..]));
    }
  }

  /** A name is left unchanged exactly when it holds no forbidden character; a backslash, in particular, is kept. */
  lemma {:induction false} SanitizeNameFixedPoint(v: string)
    ensures SanitizeName(v) == v <==> forall i :: 0 <= i < |v| ==> v[i] !in Forbidden
  {
    if v != [] {
      SanitizeNameFixedPoint(v[1..]);
      if v[0] in Forbidden {
        assert |SanitizeName(v)| < |v|;
      } else {
        assert forall i :: 1 <= i < |v| ==> v[i] == v[1..][i - 1];
      }
    }
  }

  /** The token part of the response, carried unchanged. */
  datatype Token = Token(accessToken: string, tokenType: string, expiresAt: string)

  datatype SessionResponse = SessionResponse(sessionId: string, name: string, token: Token)

  /** Why pydantic refuses the input. */
  datatype ValidationError = NameTooLong(length: nat)

  /**
   * Building a `SessionResponse`: an omitted name defaults to `""`; a given
   * name longer than 100 characters is refused before the validator runs;
   * otherwise the stored name is the sanitized one.
   */
  function MakeSessionResponse(sessionId: string, name: Option<string>, token: Token): (r: Result<SessionResponse, ValidationError>)
    ensures r.Err? <==> name.Some? && |name.value| > MaxNameLength
    ensures r.Ok? ==> r.value.sessionId == sessionId && r.value.token == token
    ensures r.Ok? ==> |r.value.name| <= MaxNameLength
    ensures r.Ok? ==> forall i :: 0 <= i < |r.value.name| ==> r.value.name[i] !in Forbidden
    ensures name.None? ==> r == Ok(SessionResponse(sessionId, "", token))
    ensures name.Some? && |name.value| <= MaxNameLength ==> r == Ok(SessionResponse(sessionId, SanitizeName(name.value), token))
  {
    match name
    case None => Ok(SessionResponse(sessionId, "", token))
    case Some(v) =>
      if |v| > MaxNameLength then Err(NameTooLong(|v|))
      else Ok(SessionResponse(sessionId, SanitizeName(v), token))
  }
}
