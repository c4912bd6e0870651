/**
 * The user table of the server's document store and the lookups that every
 * route performs on it: `Array.prototype.find` over the users, the session
 * user named by the `user` cookie, and that user's permission flags.
 */
module Accounts {

  datatype Option<T> = None | Some(value: T)

  /** Permission name to flag, as stored under a user's `permissions`. */
  type Permissions = map<string, bool>

  /** One record of `db.data.users`. */
  datatype User = User(
    username: string,
    password: string,
    role: string,
    mustChangePassword: bool,
    permissions: Permissions)

  /** A permission is granted when `perms[name]` is truthy: present and true. */
  predicate Granted(perms: Permissions, name: string) {
    name in perms && perms[name]
  }

  /**
   * Index of the first element satisfying `p`, which is the element
   * `find` returns; None when no element satisfies `p`.
   */
  function FirstMatch<T>(s: seq<T>, p: T -> bool): (r: Option<nat>)
    ensures r.Some? ==> r.value < |s| && p(s[r.value])
    ensures r.Some? ==> forall j :: 0 <= j < r.value ==> !p(s[j])
    ensures r.None? ==> forall j :: 0 <= j < |s| ==> !p(s[j])
  {
    if |s| == 0 then None
    else if p(s[0]) then Some(0)
    else match FirstMatch(s[1..], p)
      case None => None
      case Some(k) => Some(k + 1)
  }

  /** Record `i` is the first one whose username is `name`. */
  ghost predicate FirstNamed(users: seq<User>, name: string, i: int) {
    0 <= i < |users| && users[i].username == name
    && forall j :: 0 <= j < i ==> users[j].username != name
  }

  /** `users.find(u => u.username === name)`, as an index. */
  function FindByName(users: seq<User>, name: string): (r: Option<nat>)
    ensures r.Some? ==> FirstNamed(users, name, r.value)
    ensures r.None? <==> forall j :: 0 <= j < |users| ==> users[j].username != name
  {
    FirstMatch(users, (u: User) => u.username == name)
  }

  /**
   * The cookie value as `req.cookies.user || null` reads it: an absent or
   * empty cookie is falsy and names nobody.
   */
  function CookieUser(cookie: Option<string>): (r: Option<string>)
    ensures r.Some? <==> cookie.Some? && cookie.value != ""
    ensures r.Some? ==> r == cookie
  {
    if cookie.Some? && cookie.value != "" then cookie else None
  }

  /**
   * The record the session cookie stands for. A null name never equals a
   * stored username, so an absent or empty cookie names no record.
   */
  function SessionIndex(users: seq<User>, cookie: Option<string>): (r: Option<nat>)
    ensures r.Some? ==> cookie.Some? && cookie.value != "" && FirstNamed(users, cookie.value, r.value)
    ensures r.None? <==>
      (cookie.None? || cookie.value == ""
       || forall j :: 0 <= j < |users| ==> users[j].username != cookie.value)
  {
    match CookieUser(cookie)
    case None => None
    case Some(name) => FindByName(users, name)
  }

  /** `getPermissions`: the session user's permission flags, or `{}`. */
  function GetPermissions(users: seq<User>, cookie: Option<string>): (perms: Permissions)
    ensures (cookie.None? || cookie.value == ""
             || forall j :: 0 <= j < |users| ==> users[j].username != cookie.value)
            ==> perms == map[]
    ensures cookie.Some? ==>
              forall i :: FirstNamed(users, cookie.value, i) && cookie.value != ""
                ==> perms == users[i].permissions
  {
    match SessionIndex(users, cookie)
    case None => map[]
    case Some(i) => users[i].permissions
  }

  /** At most one record is the first one named `name`. */
  lemma FirstNamedUnique(users: seq<User>, name: string, i: int, k: int)
    requires FirstNamed(users, name, i) && FirstNamed(users, name, k)
    ensures i == k
  {
  }

  /** No two records share a username. The source does not enforce it. */
  ghost predicate UniqueNames(users: seq<User>) {
    forall i, j :: 0 <= i < j < |users| ==> users[i].username != users[j].username
  }

  /**
   * Two tables with the same usernames at the same positions resolve every
   * name, and so every session cookie, to the same record.
   */
  lemma SameNamesSameLookup(a: seq<User>, b: seq<User>, cookie: Option<string>)
    requires |a| == |b|
    requires forall j :: 0 <= j < |a| ==> a[j].username == b[j].username
    ensures SessionIndex(a, cookie) == SessionIndex(b, cookie)
  {
    var ra, rb := SessionIndex(a, cookie), SessionIndex(b, cookie);
    if ra.Some? {
      assert FirstNamed(b, cookie.value, ra.value);
      FirstNamedUnique(b, cookie.value, ra.value, rb.value);
    }
    if rb.Some? {
      assert FirstNamed(a, cookie.value, rb.value);
    }
  }
}
