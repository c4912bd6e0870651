/**
 * The two access checks in front of the API routes: the password-change
 * middleware registered with `app.use` before every route, and the
 * capability check that `authorize(permission)` puts in front of one route.
 */
module Gate {
  import opened Accounts
  import opened Http

  /** Paths the password-change middleware lets through by exact match. */
  const OpenPaths: seq<string> := ["/api/login", "/api/logout", "/api/change-password"]

  /** `req.path.startsWith('/api')`. */
  predicate IsApiPath(path: string) {
    "/api" <= path
  }

  /** A middleware's decision: call `next()` or answer the request itself. */
  datatype Verdict = Next | Stop(response: Response)

  /**
   * The password-change middleware: an API path outside the open paths is
   * refused while the session user must change their password. A cookie
   * naming no user passes.
   */
  function PasswordGate(users: seq<User>, cookie: Option<string>, path: string): (v: Verdict)
    ensures v.Stop? <==>
      IsApiPath(path) && path !in OpenPaths && cookie.Some? && cookie.value != ""
      && exists i :: FirstNamed(users, cookie.value, i) && users[i].mustChangePassword
    ensures v.Stop? ==> v.response == Failure(Forbidden, MustChangeText)
  {
    if IsApiPath(path) && path !in OpenPaths then
      match SessionIndex(users, cookie)
      case Some(i) =>
        if users[i].mustChangePassword then Stop(Failure(Forbidden, MustChangeText)) else Next
      case None => Next
    else Next
  }

  /**
   * `authorize(permission)`: the request goes on only when the first user
   * named by the cookie holds the permission; anyone else gets 403.
   */
  function Authorize(users: seq<User>, cookie: Option<string>, permission: string): (v: Verdict)
    ensures v.Next? <==>
      cookie.Some? && cookie.value != ""
      && exists i :: FirstNamed(users, cookie.value, i) && Granted(users[i].permissions, permission)
    ensures v.Stop? ==> v.response == Failure(Forbidden, NoPermissionText(permission))
  {
    if Granted(GetPermissions(users, cookie), permission) then Next
    else Stop(Failure(Forbidden, NoPermissionText(permission)))
  }

  /**
   * The middleware chain in front of a route guarded by
   * `authorize(permission)`: the password-change gate, registered first,
   * then the capability check. The request goes on only for a session user
   * who holds the permission and is not held back by the gate; a refusal
   * names the password change whenever the gate applies, and the missing
   * permission otherwise.
   */
  function Admit(users: seq<User>, cookie: Option<string>, path: string, permission: string): (v: Verdict)
    ensures v.Next? <==>
      cookie.Some? && cookie.value != ""
      && exists i :: FirstNamed(users, cookie.value, i) && Granted(users[i].permissions, permission)
                     && !(IsApiPath(path) && path !in OpenPaths && users[i].mustChangePassword)
    ensures v.Stop? ==>
      (v.response == Failure(Forbidden, MustChangeText) <==>
         IsApiPath(path) && path !in OpenPaths && cookie.Some? && cookie.value != ""
         && exists i :: FirstNamed(users, cookie.value, i) && users[i].mustChangePassword)
    ensures v.Stop? && v.response != Failure(Forbidden, MustChangeText) ==>
      v.response == Failure(Forbidden, NoPermissionText(permission))
  {
    assert MustChangeText[0] != NoPermissionText(permission)[0];
    match SessionIndex(users, cookie)
    case None => Authorize(users, cookie, permission)
    case Some(i) =>
      assert forall k :: FirstNamed(users, cookie.value, k) ==> k == i by {
        forall k | FirstNamed(users, cookie.value, k) ensures k == i {
          FirstNamedUnique(users, cookie.value, k, i);
        }
      }
      match PasswordGate(users, cookie, path)
      case Stop(r) => Stop(r)
      case Next => Authorize(users, cookie, permission)
  }

  /** Paths outside `/api`, and the three open paths, are never refused by the gate. */
  lemma OpenPathsPass(users: seq<User>, cookie: Option<string>, path: string)
    requires !IsApiPath(path) || path in OpenPaths
    ensures PasswordGate(users, cookie, path) == Next
  {
  }

  /**
   * Open paths are matched exactly, not by prefix: any longer path that
   * starts with an open path is still gated.
   */
  lemma OpenPathsExact(users: seq<User>, cookie: Option<string>, open: string, path: string)
    requires open in OpenPaths && open < path
    ensures IsApiPath(path) && path !in OpenPaths
    ensures PasswordGate(users, cookie, path).Stop? <==>
      cookie.Some? && cookie.value != ""
      && exists i :: FirstNamed(users, cookie.value, i) && users[i].mustChangePassword
  {
    assert "/api" <= open;
    assert "/api" == open[..4] == path[..4];
    // The open paths differ at index 5 or 8, so none is a proper prefix of another.
    assert |open| < |path| && path[5] == open[5] && path[8] == open[8];
  }

  /**
   * Without a session user every permission is refused: `getPermissions`
   * gives `{}`, which holds no flag.
   */
  lemma NoSessionNoPermission(users: seq<User>, cookie: Option<string>, permission: string)
    requires SessionIndex(users, cookie).None?
    ensures Authorize(users, cookie, permission)
         == Stop(Failure(Forbidden, NoPermissionText(permission)))
  {
  }

  /**
   * The password-change gate answers before the capability check: a user
   * who must change their password is refused on a gated path even when
   * they hold the permission the route asks for.
   */
  lemma GateBeforeCapability(users: seq<User>, name: string, i: nat, path: string, permission: string)
    requires FirstNamed(users, name, i) && name != ""
    requires users[i].mustChangePassword && Granted(users[i].permissions, permission)
    requires IsApiPath(path) && path !in OpenPaths
    ensures Admit(users, Some(name), path, permission) == Stop(Failure(Forbidden, MustChangeText))
    ensures Authorize(users, Some(name), permission) == Next
  {
  }
}
