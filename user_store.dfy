/**
 * The user operations the SQL server calls on its database object but that
 * server2/database.js does not define: `getUserById`, `findUserByEmail`,
 * `checkApiLimit`, `incrementApiCalls`, `logApiUsage`, `updateLastLogin`,
 * `hashPassword` and `verifyPassword`. Their obligations are only visible at
 * the call sites, so the store is a map from user id to record; whether a
 * user is over the limit, the password hash and the password check are
 * left uninterpreted.
 */
module UserStore {
  import opened Wrappers
  import opened JsValues

  /** A row of the `user` table, as far as the server reads it. */
  datatype User = User(
    userId: int,
    email: string,
    passwordHash: string,
    firstName: JsValue,
    lastName: JsValue,
    apiCallsUsed: int,
    apiCallsLimit: int)

  /** A row of `api_usage_log`. */
  datatype UsageEntry = UsageEntry(userId: int, endpoint: string, httpMethod: string)

  /** The user whose id is `id`, for the ids a token can carry. */
  function UserById(users: map<int, User>, id: JsValue): (r: Option<User>)
    ensures r.Some? <==> id.Num? && id.n in users
    ensures r.Some? ==> r.value == users[id.n]
  {
    if id.Num? && id.n in users then Some(users[id.n]) else None
  }

  /** The users map after one more call is counted for `id`. */
  function Counted(users: map<int, User>, id: int): (r: map<int, User>)
    ensures r.Keys == users.Keys
    ensures id in users ==> r[id].apiCallsUsed == users[id].apiCallsUsed + 1
    ensures forall k :: k in users && k != id ==> r[k] == users[k]
  {
    if id in users then users[id := users[id].(apiCallsUsed := users[id].apiCallsUsed + 1)] else users
  }

  /** The user registered under `email`, if any: addresses only match strings. */
  ghost function FindByEmail(users: map<int, User>, email: JsValue): (r: Option<User>)
    ensures r.Some? ==> email == Str(r.value.email) && r.value in users.Values
    ensures r.None? <==> forall id :: id in users ==> email != Str(users[id].email)
  {
    if email.Str? && exists id :: id in users && users[id].email == email.s then
      var id :| id in users && users[id].email == email.s;
      Some(users[id])
    else None
  }

  class UserStore {
    var users: map<int, User>
    /** `api_usage_log`, oldest first. */
    var usage: seq<UsageEntry>
    /** The ids whose `last_login` was updated, oldest first. */
    var logins: seq<int>
    /** `checkApiLimit(id).exceeded`; the source does not show how it is decided. */
    const exceeded: Option<User> -> bool
    /** `hashPassword(password)`. */
    const hash: JsValue -> string
    /** `verifyPassword(password, hash)`. */
    const passwordMatches: (JsValue, string) -> bool

    /** Every record sits under its own id, and e-mail addresses are unique. */
    ghost predicate Valid()
      reads this
    {
      && (forall id :: id in users ==> users[id].userId == id)
      && (forall a, b :: a in users && b in users && users[a].email == users[b].email ==> a == b)
    }

    constructor (users: map<int, User>, exceeded: Option<User> -> bool, hash: JsValue -> string,
                 passwordMatches: (JsValue, string) -> bool)
      ensures this.users == users && usage == [] && logins == []
      ensures this.exceeded == exceeded && this.hash == hash && this.passwordMatches == passwordMatches
    {
      this.users := users;
      usage := [];
      logins := [];
      this.exceeded := exceeded;
      this.hash := hash;
      this.passwordMatches := passwordMatches;
    }

    /** `getUserById(id)`: null for an unknown id. */
    method GetUserById(id: JsValue) returns (u: Option<User>)
      requires Valid()
      ensures u == UserById(users, id)
      ensures u.Some? ==> u.value.userId == id.n
    {
      if id.Num? && id.n in users {
        u := Some(users[id.n]);
      } else {
        u := None;
      }
    }

    /** `findUserByEmail(email)`: the user with exactly this address, or null. */
    method FindUserByEmail(email: JsValue) returns (u: Option<User>)
      requires Valid()
      ensures u == FindByEmail(users, email)
    {
      if email.Str? && exists id :: id in users && users[id].email == email.s {
        var id :| id in users && users[id].email == email.s;
        u := Some(users[id]);
      } else {
        u := None;
      }
    }

    /** `checkApiLimit(id).exceeded`. */
    method CheckApiLimit(id: int) returns (over: bool)
      ensures over == exceeded(if id in users then Some(users[id]) else None)
    {
      over := exceeded(if id in users then Some(users[id]) else None);
    }

    /** `incrementApiCalls(id)`. */
    method IncrementApiCalls(id: int)
      requires Valid()
      modifies this`users
      ensures Valid()
      ensures users == Counted(old(users), id)
    {
      users := Counted(users, id);
    }

    /** `logApiUsage(id, endpoint, method)`. */
    method LogApiUsage(id: int, endpoint: string, httpMethod: string)
      modifies this`usage
      ensures usage == old(usage) + [UsageEntry(id, endpoint, httpMethod)]
    {
      usage := usage + [UsageEntry(id, endpoint, httpMethod)];
    }

    /** `updateLastLogin(id)`. */
    method UpdateLastLogin(id: int)
      modifies this`logins
      ensures logins == old(logins) + [id]
    {
      logins := logins + [id];
    }

    /** `hashPassword(password)`. */
    method HashPassword(password: JsValue) returns (h: string)
      ensures h == hash(password)
    {
      h := hash(password);
    }

    /** `verifyPassword(password, hash)`. */
    method VerifyPassword(password: JsValue, passwordHash: string) returns (ok: bool)
      ensures ok == passwordMatches(password, passwordHash)
    {
      ok := passwordMatches(password, passwordHash);
    }
  }
}
