/**
 * The account routes of the server over its in-memory user table: login and
 * `/api/me` only read the table; change-password and the admin reset update
 * the first matching record in place. `UserStore.Handle` runs a request
 * through the middleware registered before the routes and then the route.
 */
module Handlers {
  import opened Accounts
  import opened Http
  import opened Gate

  /** The permission `authorize` demands on the admin reset route. */
  const ResetPermission := "reset-password"
  const ResetPath := "/api/admin/reset-password"

  /** Record `i` is the first one with this username and password. */
  ghost predicate FirstCredentials(users: seq<User>, username: string, password: string, i: int) {
    0 <= i < |users| && users[i].username == username && users[i].password == password
    && forall j :: 0 <= j < i ==> !(users[j].username == username && users[j].password == password)
  }

  /**
   * POST /api/login: succeeds exactly when some record has both the given
   * username and password, and reports the first such record.
   */
  function Login(users: seq<User>, username: string, password: string): (r: Response)
    ensures r.Failure? <==>
      forall i :: 0 <= i < |users| ==> !(users[i].username == username && users[i].password == password)
    ensures r.Failure? ==> r == Failure(Unauthorized, LoginFailedText)
    ensures !r.Failure? ==>
      exists i :: FirstCredentials(users, username, password, i) && r == Info(InfoOf(users[i]))
  {
    match FirstMatch(users, (u: User) => u.username == username && u.password == password)
    case None => Failure(Unauthorized, LoginFailedText)
    case Some(i) =>
      Info(UserInfo(username, users[i].role, users[i].permissions, users[i].mustChangePassword))
  }

  /** GET /api/me: the session user's information, or 401 without one. */
  function Me(users: seq<User>, cookie: Option<string>): (r: Response)
    ensures r.Failure? <==>
      cookie.None? || cookie.value == ""
      || forall j :: 0 <= j < |users| ==> users[j].username != cookie.value
    ensures r.Failure? ==> r == Failure(Unauthorized, NotLoggedInText)
    ensures !r.Failure? ==>
      cookie.Some? && exists i :: FirstNamed(users, cookie.value, i) && r == Info(InfoOf(users[i]))
  {
    match SessionIndex(users, cookie)
    case None => Failure(Unauthorized, NotLoggedInText)
    case Some(i) => Info(InfoOf(users[i]))
  }

  /**
   * `after` is `before` with record `i`'s password and must-change flag
   * set, and every other record as it was.
   */
  ghost predicate PasswordSet(before: seq<User>, after: seq<User>, i: int, password: string, mustChange: bool) {
    0 <= i < |before| && |after| == |before|
    && after[i] == before[i].(password := password, mustChangePassword := mustChange)
    && forall j :: 0 <= j < |before| && j != i ==> after[j] == before[j]
  }

  /** The outcome POST /api/change-password promises. */
  ghost predicate ChangePasswordDone(before: seq<User>, after: seq<User>, cookie: Option<string>,
                                     newPassword: string, r: Response) {
    match SessionIndex(before, cookie)
    case None => r == Failure(Unauthorized, NotLoggedInText) && after == before
    case Some(i) => r == Done && PasswordSet(before, after, i, newPassword, false)
  }

  /** The outcome of the admin reset once the request is admitted. */
  ghost predicate ResetPasswordDone(before: seq<User>, after: seq<User>, target: string,
                                    newPassword: string, r: Response) {
    match FindByName(before, target)
    case None => r == Failure(NotFound, UserNotFoundText) && after == before
    case Some(i) => r == Done && PasswordSet(before, after, i, newPassword, true)
  }

  /** A request: the `user` cookie, if any, and the route it reaches. */
  datatype Route =
    | LoginRoute(username: string, password: string)
    | LogoutRoute
    | MeRoute
    | ChangePasswordRoute(newPassword: string)
    | ResetPasswordRoute(target: string, newPassword: string)
    | OtherRoute(path: string)   // any request none of the routes above answers

  datatype Request = Request(cookie: Option<string>, route: Route)

  function PathOf(route: Route): string {
    match route
    case LoginRoute(_, _) => "/api/login"
    case LogoutRoute => "/api/logout"
    case MeRoute => "/api/me"
    case ChangePasswordRoute(_) => "/api/change-password"
    case ResetPasswordRoute(_, _) => ResetPath
    case OtherRoute(path) => path
  }

  /** The `users` collection of the document store. */
  class UserStore {
    var users: seq<User>

    /** The store holding the users read from the document at start-up. */
    constructor (loaded: seq<User>)
      ensures users == loaded
    {
      users := loaded;
    }

    /** The change-password handler: the session user's own record. */
    method ChangePassword(cookie: Option<string>, newPassword: string) returns (r: Response)
      modifies this
      ensures ChangePasswordDone(old(users), users, cookie, newPassword, r)
    {
      var found := SessionIndex(users, cookie);
      if found.None? {
        return Failure(Unauthorized, NotLoggedInText);
      }
      var i := found.value;
      users := users[i := users[i].(password := newPassword, mustChangePassword := false)];
      r := Done;
    }

    /** The admin reset handler, after the middleware has admitted the request. */
    method ResetPassword(target: string, newPassword: string) returns (r: Response)
      modifies this
      ensures ResetPasswordDone(old(users), users, target, newPassword, r)
    {
      var found := FindByName(users, target);
      if found.None? {
        return Failure(NotFound, UserNotFoundText);
      }
      var i := found.value;
      users := users[i := users[i].(password := newPassword, mustChangePassword := true)];
      r := Done;
    }

    /**
     * One request: the password-change middleware first, then the route,
     * with `authorize('reset-password')` in front of the admin reset.
     */
    method Handle(req: Request) returns (r: Response)
      modifies this
      ensures PasswordGate(old(users), req.cookie, PathOf(req.route)).Stop? ==>
                r == Failure(Forbidden, MustChangeText) && users == old(users)
      ensures !req.route.ChangePasswordRoute? && !req.route.ResetPasswordRoute? ==> users == old(users)
      ensures req.route.LoginRoute? ==> r == Login(old(users), req.route.username, req.route.password)
      ensures req.route.LogoutRoute? ==> r == Done
      ensures req.route.MeRoute? ==>
                r == match PasswordGate(old(users), req.cookie, "/api/me")
                     case Stop(refusal) => refusal
                     case Next => Me(old(users), req.cookie)
      ensures req.route.ChangePasswordRoute? ==>
                ChangePasswordDone(old(users), users, req.cookie, req.route.newPassword, r)
      ensures req.route.ResetPasswordRoute? ==>
                match Admit(old(users), req.cookie, ResetPath, ResetPermission)
                case Stop(refusal) => r == refusal && users == old(users)
                case Next => ResetPasswordDone(old(users), users, req.route.target, req.route.newPassword, r)
      ensures req.route.OtherRoute? && PasswordGate(old(users), req.cookie, req.route.path).Next? ==>
                r == NoRoute
    {
      var gate := PasswordGate(users, req.cookie, PathOf(req.route));
      if gate.Stop? {
        return gate.response;
      }
      match req.route
      case LoginRoute(username, password) =>
        r := Login(users, username, password);
      case LogoutRoute =>
        r := Done;
      case MeRoute =>
        r := Me(users, req.cookie);
      case ChangePasswordRoute(newPassword) =>
        r := ChangePassword(req.cookie, newPassword);
      case ResetPasswordRoute(target, newPassword) =>
        var auth := Authorize(users, req.cookie, ResetPermission);
        if auth.Stop? {
          r := auth.response;
        } else {
          r := ResetPassword(target, newPassword);
        }
      case OtherRoute(_) =>
        r := NoRoute;
    }
  }

  /** Login, logout and change-password are open paths: the gate never answers them. */
  lemma AccountRoutesOpen(users: seq<User>, cookie: Option<string>, route: Route)
    requires route.LoginRoute? || route.LogoutRoute? || route.ChangePasswordRoute?
    ensures PasswordGate(users, cookie, PathOf(route)) == Next
  {
    assert PathOf(route) in OpenPaths;
  }

  /** `/api/me` is not an open path: a user who must change their password cannot read it. */
  lemma MeRefusedWhileMustChange(users: seq<User>, name: string, i: nat)
    requires FirstNamed(users, name, i) && name != "" && users[i].mustChangePassword
    ensures PasswordGate(users, Some(name), PathOf(MeRoute)) == Stop(Failure(Forbidden, MustChangeText))
  {
    assert "/api" <= "/api/me";
    assert "/api/me" !in OpenPaths;
  }

  /**
   * The admin reset route is refused by the password-change gate, not by
   * the capability check, for an administrator who must change their
   * password, whatever permissions they hold.
   */
  lemma ResetRefusedWhileMustChange(users: seq<User>, name: string, i: nat)
    requires FirstNamed(users, name, i) && name != "" && users[i].mustChangePassword
    ensures Admit(users, Some(name), ResetPath, ResetPermission) == Stop(Failure(Forbidden, MustChangeText))
  {
    assert "/api" <= ResetPath;
    assert ResetPath !in OpenPaths;
  }

  /** Setting a password leaves every username, and so every session, where it was. */
  lemma PasswordSetKeepsSessions(before: seq<User>, after: seq<User>, i: int,
                                                     password: string, mustChange: bool, cookie: Option<string>)
    requires PasswordSet(before, after, i, password, mustChange)
    ensures forall j :: 0 <= j < |before| ==> after[j].username == before[j].username
    ensures SessionIndex(after, cookie) == SessionIndex(before, cookie)
  {
    forall j | 0 <= j < |before|
      ensures after[j].username == before[j].username
    {
      if j != i {
        assert after[j] == before[j];
      }
    }
    SameNamesSameLookup(before, after, cookie);
  }

  /** Setting a password keeps usernames unique. */
  lemma PasswordSetKeepsUniqueNames(before: seq<User>, after: seq<User>, i: int,
                                    password: string, mustChange: bool)
    requires PasswordSet(before, after, i, password, mustChange) && UniqueNames(before)
    ensures UniqueNames(after)
  {
    PasswordSetKeepsSessions(before, after, i, password, mustChange, None);
  }

  /**
   * The record first named `name` can log in with its password, and the
   * reply describes that record.
   */
  lemma FirstNamedLogsIn(users: seq<User>, name: string, i: nat)
    requires FirstNamed(users, name, i)
    ensures Login(users, name, users[i].password) == Info(InfoOf(users[i]))
  {
    var r := Login(users, name, users[i].password);
    assert !r.Failure?;
    var k :| FirstCredentials(users, name, users[i].password, k) && r == Info(InfoOf(users[k]));
    assert k == i;
  }

  /**
   * After a successful change of password the user passes the
   * password-change gate on every path, and logs in with the new password
   * without being asked to change it again.
   */
  lemma ChangePasswordLiftsGate(before: seq<User>, after: seq<User>, cookie: Option<string>,
                                                   newPassword: string, r: Response, path: string)
    requires ChangePasswordDone(before, after, cookie, newPassword, r)
    requires SessionIndex(before, cookie).Some?
    ensures r == Done
    ensures PasswordGate(after, cookie, path) == Next
    ensures Login(after, cookie.value, newPassword).Info?
    ensures !Login(after, cookie.value, newPassword).info.mustChangePassword
  {
    var i := SessionIndex(before, cookie).value;
    PasswordSetKeepsSessions(before, after, i, newPassword, false, cookie);
    assert SessionIndex(after, cookie) == Some(i);
    FirstNamedLogsIn(after, cookie.value, i);
  }

  /** Without a session user, change-password answers 401 and writes nothing. */
  lemma ChangePasswordNeedsSession(before: seq<User>, after: seq<User>, cookie: Option<string>,
                                   newPassword: string, r: Response)
    requires ChangePasswordDone(before, after, cookie, newPassword, r)
    requires SessionIndex(before, cookie).None?
    ensures r == Failure(Unauthorized, NotLoggedInText) && after == before
  {
  }

  /**
   * After an admin reset the target logs in with the new password, is told
   * to change it, and is refused on every gated API path until they do.
   */
  lemma ResetBlocksTarget(before: seq<User>, after: seq<User>, target: string,
                                             newPassword: string, r: Response, path: string)
    requires ResetPasswordDone(before, after, target, newPassword, r)
    requires exists j :: 0 <= j < |before| && before[j].username == target
    requires target != "" && IsApiPath(path) && path !in OpenPaths
    ensures r == Done
    ensures PasswordGate(after, Some(target), path) == Stop(Failure(Forbidden, MustChangeText))
    ensures Login(after, target, newPassword).Info?
    ensures Login(after, target, newPassword).info.mustChangePassword
  {
    var i := FindByName(before, target).value;
    PasswordSetKeepsSessions(before, after, i, newPassword, true, Some(target));
    assert SessionIndex(after, Some(target)) == Some(i);
    FirstNamedLogsIn(after, target, i);
  }

  /** An unknown target gets 404 and nothing is written. */
  lemma ResetUnknownTarget(before: seq<User>, after: seq<User>, target: string,
                           newPassword: string, r: Response)
    requires ResetPasswordDone(before, after, target, newPassword, r)
    requires forall j :: 0 <= j < |before| ==> before[j].username != target
    ensures r == Failure(NotFound, UserNotFoundText) && after == before
  {
  }

  /**
   * With unique usernames, the session a successful login opens is the
   * record that logged in. The `/api/me` handler reports what login
   * reported; the route behind the password-change gate does so exactly
   * when login reported no pending password change, and otherwise answers
   * with the gate's 403.
   */
  lemma LoginMatchesSession(users: seq<User>, username: string, password: string)
    requires UniqueNames(users) && username != ""
    requires Login(users, username, password).Info?
    ensures Me(users, Some(username)) == Login(users, username, password)
    ensures match PasswordGate(users, Some(username), PathOf(MeRoute))
            case Next =>
              !Login(users, username, password).info.mustChangePassword
            case Stop(refusal) =>
              Login(users, username, password).info.mustChangePassword
              && refusal == Failure(Forbidden, MustChangeText)
  {
    assert "/api" <= PathOf(MeRoute) && PathOf(MeRoute) !in OpenPaths;
    var r := Login(users, username, password);
    var k :| FirstCredentials(users, username, password, k) && r == Info(InfoOf(users[k]));
    assert FirstNamed(users, username, k);
    var m := Me(users, Some(username));
    assert !m.Failure?;
    var i :| FirstNamed(users, username, i) && m == Info(InfoOf(users[i]));
    FirstNamedUnique(users, username, i, k);
  }

  /**
   * Without unique usernames the two can part: when the first record with
   * the given credentials is not the first record with that username,
   * login reports the former, while the cookie it sets resolves to the
   * latter, which `/api/me` reports and whose permissions `authorize` uses.
   */
  lemma LoginSessionSplit(users: seq<User>, name: string, password: string,
                          i: nat, k: nat, permission: string)
    requires name != "" && FirstNamed(users, name, i)
    requires FirstCredentials(users, name, password, k) && k != i
    ensures Login(users, name, password) == Info(InfoOf(users[k]))
    ensures Me(users, Some(name)) == Info(InfoOf(users[i]))
    ensures Authorize(users, Some(name), permission).Next? <==> Granted(users[i].permissions, permission)
  {
    var r := Login(users, name, password);
    var k' :| FirstCredentials(users, name, password, k') && r == Info(InfoOf(users[k']));
    assert k' == k;
    var m := Me(users, Some(name));
    var i' :| FirstNamed(users, name, i') && m == Info(InfoOf(users[i']));
    FirstNamedUnique(users, name, i, i');
  }

  /**
   * An instance of the split: logging in with the second record's password
   * reports that record, while the cookie resolves to the first record,
   * whose role `/api/me` and `authorize` use.
   */
  lemma DuplicateNamesSplitSession()
    ensures var users := [User("anna", "a", "admin", false, map["reset-password" := true]),
                          User("anna", "b", "user", false, map[])];
            Login(users, "anna", "b") == Info(UserInfo("anna", "user", map[], false))
            && Me(users, Some("anna")) == Info(UserInfo("anna", "admin", map["reset-password" := true], false))
            && Authorize(users, Some("anna"), ResetPermission) == Next
  {
    var users := [User("anna", "a", "admin", false, map["reset-password" := true]),
                  User("anna", "b", "user", false, map[])];
    LoginSessionSplit(users, "anna", "b", 0, 1, ResetPermission);
  }
}
