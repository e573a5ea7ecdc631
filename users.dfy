/** Looking a user up by id in the fetched user list. Ids may arrive as
    strings or numbers; both sides are compared by their string form. */
module Users {
  import opened Wrappers
  import opened JsText

  /** A user id as it may occur in the data: a string or a number. */
  datatype UserId = StrId(s: string) | NumId(n: int)

  /** A user as the user list delivers it. */
  datatype ListedUser = ListedUser(id: UserId, name: string, email: string)

  /** `id.toString()`. */
  function IdString(id: UserId): string {
    match id
    case StrId(s) => s
    case NumId(n) => IntToString(n)
  }

  /** JavaScript truthiness of an optional id: `undefined`, `''` and `0`
      are falsy. */
  predicate IdTruthy(id: Option<UserId>) {
    id.Some? && (match id.value case StrId(s) => s != "" case NumId(n) => n != 0)
  }

  /** `users.find(user => user.id.toString() === key)`, as an index: the
      first user whose id spells `key`. */
  function FindIndex(users: seq<ListedUser>, key: string): (r: Option<nat>)
    ensures r.Some? ==> r.value < |users| && IdString(users[r.value].id) == key
    ensures r.Some? ==> forall j :: 0 <= j < r.value ==> IdString(users[j].id) != key
    ensures r.None? ==> forall j :: 0 <= j < |users| ==> IdString(users[j].id) != key
    decreases |users|
  {
    if users == [] then None
    else if IdString(users[0].id) == key then Some(0)
    else
      match FindIndex(users[1..], key)
      case None => None
      case Some(i) => Some(i + 1)
  }

  /** `users[i]` is the first user whose id spells `key`. */
  predicate FirstWithId(users: seq<ListedUser>, i: int, key: string) {
    0 <= i < |users| && IdString(users[i].id) == key
    && forall j :: 0 <= j < i ==> IdString(users[j].id) != key
  }

  /** `findUserById(users, userId)`: nothing for a falsy id or an empty
      list, otherwise the first user whose id has the same string form. */
  function FindUserById(users: seq<ListedUser>, userId: Option<UserId>): (r: Option<ListedUser>)
    ensures !IdTruthy(userId) || users == [] ==> r.None?
    ensures r.Some? ==> r.value in users && IdString(r.value.id) == IdString(userId.value)
    ensures r.None? && IdTruthy(userId) ==> forall u :: u in users ==> IdString(u.id) != IdString(userId.value)
  {
    if !IdTruthy(userId) || |users| == 0 then None
    else
      match FindIndex(users, IdString(userId.value))
      case None => None
      case Some(i) => Some(users[i])
  }

  /** With several matches, the one earliest in the list is returned. */
  lemma FirstMatchWins(users: seq<ListedUser>, userId: Option<UserId>, i: nat)
    requires IdTruthy(userId) && i < |users| && IdString(users[i].id) == IdString(userId.value)
    ensures FindUserById(users, userId).Some?
    ensures exists k :: 0 <= k <= i && users[k] == FindUserById(users, userId).value
  {
    var r := FindIndex(users, IdString(userId.value));
    assert r.Some?;
    assert r.value <= i;
  }

  /** The number `n` and the string spelling it find the same user. */
  lemma NumberAndStringAlike(users: seq<ListedUser>, n: int)
    requires n != 0
    ensures FindUserById(users, Some(NumId(n))) == FindUserById(users, Some(StrId(IntToString(n))))
  {
    assert IntToString(n) != "";
  }

  /** For instance, `1` and `'1'` find the same user. */
  lemma OneAndStringOne(users: seq<ListedUser>)
    ensures FindUserById(users, Some(NumId(1))) == FindUserById(users, Some(StrId("1")))
  {
    NumberAndStringAlike(users, 1);
    assert IntToString(1) == "1";
  }
}
