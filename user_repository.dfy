/**
 * `UserRepository` (app/core/user/user_repository.py). The user table is
 * modelled as its rows in insertion order, with an auto-increment counter for
 * the primary key; `.first()` of an unordered query is taken to be the first
 * matching row in that order.
 */
module UserRepo {
  import opened Common

  /** A stored user. */
  datatype User = User(id: int, email: string, hashedPassword: string)

  /** The position of the first row with the given email, if any. */
  function FirstWithEmail(rows: seq<User>, email: string): (r: Option<nat>)
    ensures r.Some? ==> r.value < |rows| && rows[r.value].email == email
    ensures r.Some? ==> forall j :: 0 <= j < r.value ==> rows[j].email != email
    ensures r.None? ==> forall j :: 0 <= j < |rows| ==> rows[j].email != email
  {
    if rows == [] then None
    else if rows[0].email == email then Some(0)
    else match FirstWithEmail(rows[1..], email)
      case None => None
      case Some(k) => Some(k + 1)
  }

  class UserRepository {
    /** The user table's rows, in insertion order. */
    var rows: seq<User>
    /** The next value of the auto-increment primary key. */
    var nextId: int

    /** Ids increase along the rows and stay below the counter, so they are unique. */
    ghost predicate Valid()
      reads this
    {
      && (forall i, j :: 0 <= i < j < |rows| ==> rows[i].id < rows[j].id)
      && (forall i :: 0 <= i < |rows| ==> rows[i].id < nextId)
    }

    /** The repository works over whatever user table the database session already holds. */
    constructor (initial: seq<User>, counter: int)
      requires forall i, j :: 0 <= i < j < |initial| ==> initial[i].id < initial[j].id
      requires forall i :: 0 <= i < |initial| ==> initial[i].id < counter
      ensures Valid() && rows == initial && nextId == counter
    {
      rows := initial;
      nextId := counter;
    }

    /** `create_user`: store a user whose email is the argument and whose `hashed_password` is `password` verbatim. */
    method CreateUser(email: string, password: string) returns (user: User)
      requires Valid()
      modifies this
      ensures Valid()
      ensures user == User(old(nextId), email, password)
      ensures rows == old(rows) + [user] && nextId == old(nextId) + 1
    {
      user := User(nextId, email, password);
      rows := rows + [user];
      nextId := nextId + 1;
    }

    /** `get_user`: the user with that id, or `None`; nothing changes. */
    method GetUser(userId: int) returns (r: Option<User>)
      ensures r.Some? ==> r.value in rows && r.value.id == userId
      ensures r.None? ==> forall i :: 0 <= i < |rows| ==> rows[i].id != userId
    {
      var i := 0;
      while i < |rows|
        invariant 0 <= i <= |rows|
        invariant forall j :: 0 <= j < i ==> rows[j].id != userId
      {
        if rows[i].id == userId {
          return Some(rows[i]);
        }
        i := i + 1;
      }
      r := None;
    }

    /** `get_user_by_email`: the first user with that email, or `None`; nothing changes. */
    method GetUserByEmail(email: string) returns (r: Option<User>)
      ensures FirstWithEmail(rows, email).None? ==> r == None
      ensures FirstWithEmail(rows, email).Some? ==> r == Some(rows[FirstWithEmail(rows, email).value])
    {
      var i := 0;
      while i < |rows|
        invariant 0 <= i <= |rows|
        invariant forall j :: 0 <= j < i ==> rows[j].email != email
      {
        if rows[i].email == email {
          FirstIsUnique(rows, email, i);
          return Some(rows[i]);
        }
        i := i + 1;
      }
      r := None;
    }

    /**
     * `delete_user_by_email`: `False` and no change when no user has that
     * email; otherwise remove the first such user, keep every other row in
     * order, and return `True`.
     */
    method DeleteUserByEmail(email: string) returns (deleted: bool)
      requires Valid()
      modifies this
      ensures Valid() && nextId == old(nextId)
      ensures deleted <==> FirstWithEmail(old(rows), email).Some?
      ensures !deleted ==> rows == old(rows)
      ensures deleted ==>
        var k := FirstWithEmail(old(rows), email).value;
        && rows == old(rows)[..k] + old(rows)[k + 1..]
        && multiset(rows) + multiset{old(rows)[k]} == multiset(old(rows))
    {
      var user := GetUserByEmail(email);
      if user.None? {
        return false;
      }
      var k := FirstWithEmail(rows, email).value;
      RemoveAtKeepsOthers(rows, k);
      rows := rows[..k] + rows[k + 1..];
      deleted := true;
    }
  }

  /** A row with the email, preceded by none, is the one `FirstWithEmail` finds. */
  lemma {:induction false} FirstIsUnique(rows: seq<User>, email: string, i: nat)
    requires i < |rows| && rows[i].email == email
    requires forall j :: 0 <= j < i ==> rows[j].email != email
    ensures FirstWithEmail(rows, email) == Some(i)
  {
    var r := FirstWithEmail(rows, email);
    assert r.Some?;
    assert !(r.value < i) && !(i < r.value);
  }

  /** Removing the row at `k` keeps every other row, in order, and nothing else is lost. */
  lemma RemoveAtKeepsOthers(rows: seq<User>, k: nat)
    requires k < |rows|
    ensures var after := rows[..k] + rows[k + 1..];
      && |after| == |rows| - 1
      && (forall j :: 0 <= j < k ==> after[j] == rows[j])
      && (forall j :: k < j < |rows| ==> after[j - 1] == rows[j])
      && multiset(after) + multiset{rows[k]} == multiset(rows)
  {
    var after := rows[..k] + rows[k + 1..];
    assert rows == rows[..k] + [rows[k]] + rows[k + 1..];
    assert multiset(rows) == multiset(rows[..k]) + multiset{rows[k]} + multiset(rows[k + 1..]);
  }
}
