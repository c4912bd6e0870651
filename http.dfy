/**
 * The replies the account routes send: a JSON body with the user's
 * information, `{ success: true }`, or an HTTP error status with the
 * server's (German) error text.
 */
module Http {
  import opened Accounts

  /** The body of a successful login and of `/api/me`. */
  datatype UserInfo = UserInfo(
    user: string,
    role: string,
    permissions: Permissions,
    mustChangePassword: bool)

  datatype Response =
    | Info(info: UserInfo)
    | Done                              // { success: true }
    | Failure(status: int, error: string)
    | NoRoute                           // passed on past the account routes

  const Unauthorized := 401
  const Forbidden := 403
  const NotFound := 404

  const MustChangeText := "Passwort muss geändert werden"
  const LoginFailedText := "Login fehlgeschlagen"
  const NotLoggedInText := "Nicht eingeloggt"
  const UserNotFoundText := "User nicht gefunden"

  /** The text of an `authorize(permission)` denial. */
  function NoPermissionText(permission: string): string {
    "Keine Berechtigung: " + permission
  }

  /** What login and `/api/me` report about a record (`!!mustChangePassword`). */
  function InfoOf(u: User): UserInfo {
    UserInfo(u.username, u.role, u.permissions, u.mustChangePassword)
  }
}
