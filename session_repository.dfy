/**
 * `SessionRepository` (app/core/session/session_repository.py). The SQLModel
 * database session is modelled as the table it changes: a map from session
 * id (the primary key) to the stored row. `add` + `commit` store a row,
 * `delete` + `commit` remove one.
 */
module SessionRepo {
  import opened Common

  /** A stored chat session; `createdAt` is the row's creation timestamp. */
  datatype Session = Session(id: string, userId: int, name: string, createdAt: int)

  /** The errors the repository lets escape. */
  datatype RepoError =
    | IntegrityError                     // a commit that would duplicate the primary key
    | HttpError(status: nat, detail: string)

  /** Whether the first session was created no later than the second. */
  predicate NotLater(a: Session, b: Session) {
    a.createdAt <= b.createdAt
  }

  /** A non-empty finite set of sessions has one created no later than all the others. */
  lemma {:induction false} EarliestExists(s: set<Session>)
    requires s != {}
    ensures exists e :: e in s && forall t :: t in s ==> NotLater(e, t)
    decreases |s|
  {
    var x :| x in s;
    var rest := s - {x};
    assert s == rest + {x};
    if rest != {} {
      EarliestExists(rest);
      var e :| e in rest && forall t :: t in rest ==> NotLater(e, t);
      if x.createdAt < e.createdAt {
        assert forall t :: t in s ==> NotLater(x, t);
      } else {
        assert forall t :: t in s ==> NotLater(e, t);
      }
    } else {
      assert s == {x};
    }
  }

  /** In a table where every row is stored under its own id, the id identifies the row. */
  lemma IdsIdentifyRows(table: map<string, Session>, a: Session, b: Session)
    requires forall k :: k in table ==> table[k].id == k
    requires a in table.Values && b in table.Values
    ensures a.id == b.id ==> a == b
  {
    var ka :| ka in table && table[ka] == a;
    var kb :| kb in table && table[kb] == b;
  }

  class SessionRepository {
    /** The session table, keyed by session id. */
    var table: map<string, Session>

    /** Every row is stored under its own id. */
    ghost predicate Valid()
      reads this
    {
      forall k :: k in table ==> table[k].id == k
    }

    constructor (initial: map<string, Session>)
      requires forall k :: k in initial ==> initial[k].id == k
      ensures Valid() && table == initial
    {
      table := initial;
    }

    /** `create_session`: store a new session; its name defaults to `""`. A duplicate id fails at commit. */
    method CreateSession(sessionId: string, userId: int, now: int, name: string := "") returns (r: Result<Session, RepoError>)
      requires Valid()
      modifies this
      ensures Valid()
      ensures sessionId in old(table) ==> r == Err(IntegrityError) && table == old(table)
      ensures sessionId !in old(table) ==>
        && r == Ok(Session(sessionId, userId, name, now))
        && table == old(table)[sessionId := r.value]
    {
      if sessionId in table {
        return Err(IntegrityError);
      }
      var chatSession := Session(sessionId, userId, name, now);
      table := table[sessionId := chatSession];
      r := Ok(chatSession);
    }

    /** `delete_session`: `False` and no change for an unknown id; otherwise remove only that row and return `True`. */
    method DeleteSession(sessionId: string) returns (deleted: bool)
      requires Valid()
      modifies this
      ensures Valid()
      ensures deleted == (sessionId in old(table))
      ensures table == old(table) - {sessionId}
    {
      if sessionId !in table {
        return false;
      }
      table := table - {sessionId};
      deleted := true;
    }

    /** `get_session`: the stored row, or `None`. */
    method GetSession(sessionId: string) returns (r: Option<Session>)
      requires Valid()
      ensures r.Some? <==> sessionId in table
      ensures r.Some? ==> r.value.id == sessionId
      ensures r.Some? ==> r.value == table[sessionId]
    {
      r := if sessionId in table then Some(table[sessionId]) else None;
    }

    /** `get_user_sessions`: exactly the user's sessions, each once, ordered by creation time. */
    method GetUserSessions(userId: int) returns (r: seq<Session>)
      requires Valid()
      ensures forall s :: s in r <==> s in table.Values && s.userId == userId
      ensures forall i, j :: 0 <= i < j < |r| ==> r[i].id != r[j].id
      ensures forall i, j :: 0 <= i < j < |r| ==> NotLater(r[i], r[j])
    {
      var remaining := set s | s in table.Values && s.userId == userId;
      r := [];
      while remaining != {}
        invariant forall s :: s in r || s in remaining <==> s in table.Values && s.userId == userId
        invariant forall s :: s in remaining ==> s !in r
        invariant forall i, j :: 0 <= i < j < |r| ==> r[i] != r[j]
        invariant forall i, j :: 0 <= i < j < |r| ==> NotLater(r[i], r[j])
        invariant forall i, s :: 0 <= i < |r| && s in remaining ==> NotLater(r[i], s)
        decreases remaining
      {
        EarliestExists(remaining);
        var e :| e in remaining && forall t :: t in remaining ==> NotLater(e, t);
        r := r + [e];
        remaining := remaining - {e};
      }
      forall i, j | 0 <= i < j < |r|
        ensures r[i].id != r[j].id
      {
        IdsIdentifyRows(table, r[i], r[j]);
      }
    }

    /** `update_session_name`: 404 for an unknown id; otherwise only that session's name changes. */
    method UpdateSessionName(sessionId: string, name: string) returns (r: Result<Session, RepoError>)
      requires Valid()
      modifies this
      ensures Valid()
      ensures sessionId !in old(table) ==> r == Err(HttpError(404, "Session not found")) && table == old(table)
      ensures sessionId in old(table) ==>
        && r == Ok(old(table)[sessionId].(name := name))
        && table == old(table)[sessionId := r.value]
    {
      if sessionId !in table {
        return Err(HttpError(404, "Session not found"));
      }
      var chatSession := table[sessionId].(name := name);
      table := table[sessionId := chatSession];
      r := Ok(chatSession);
    }
  }
}
