// The access decision of RolesGuard.canActivate (src/auth/guards/roles.guard.ts),
// as a function of the handler's metadata and the caller's role.
module RolesGuard {
  import opened Common

  /** ROLES.ADMIN and ROLES.EDITOR, the roles that pass any roles metadata. */
  const AdminRole: string := "ADMIN"
  const EditorRole: string := "EDITOR"

  /** The message of the UnauthorizedException the guard raises. */
  const NoAccess: string := "Do not have access for this operation."

  /** The guard lets the request through, or raises an exception. */
  datatype Decision = Allowed | Rejected(status: Status, message: string)

  /** JavaScript truthiness of an optional string: defined and not empty. */
  predicate Truthy(s: Option<string>) {
    s.Some? && s.value != ""
  }

  /** `roles.some((role) => role === roleUser)`. */
  function AnyRoleIs(roles: seq<string>, roleUser: Option<string>): (b: bool)
    ensures b <==> roleUser.Some? && roleUser.value in roles
  {
    if roles == [] then false
    else (roleUser.Some? && roles[0] == roleUser.value) || AnyRoleIs(roles[1..], roleUser)
  }

  /** canActivate. `isPublic`, `roles` and `admin` are the handler's PUBLIC_KEY,
      ROLES_KEY and ADMIN_KEY metadata (None when unset); `roleUser` is the role
      the request carries. */
  function CanActivate(isPublic: bool, roles: Option<seq<string>>, admin: Option<string>,
                       roleUser: Option<string>): (d: Decision)
    // the guard never answers false: it allows or raises Unauthorized
    ensures d.Rejected? ==> d == Rejected(Unauthorized, NoAccess)
    ensures isPublic ==> d == Allowed
    ensures !isPublic && roles.None? ==>
      (d == Allowed <==> !Truthy(admin) || roleUser == admin)
    ensures !isPublic && roles.Some? ==>
      (d == Allowed <==>
         roleUser == Some(AdminRole) || roleUser == Some(EditorRole) ||
         (roleUser.Some? && roleUser.value in roles.value))
  {
    if isPublic then Allowed
    else if roles.None? then
      if !Truthy(admin) then Allowed
      else if Truthy(admin) && roleUser == admin then Allowed
      else Rejected(Unauthorized, NoAccess)
    else if roleUser == Some(AdminRole) || roleUser == Some(EditorRole) then Allowed
    else if !AnyRoleIs(roles.value, roleUser) then Rejected(Unauthorized, NoAccess)
    else Allowed
  }

  /** The admin key is consulted only when the handler has no roles metadata. */
  lemma AdminKeyIgnoredWithRoles(isPublic: bool, roles: seq<string>, a1: Option<string>,
                                 a2: Option<string>, roleUser: Option<string>)
    ensures CanActivate(isPublic, Some(roles), a1, roleUser) ==
            CanActivate(isPublic, Some(roles), a2, roleUser)
  {
  }
}
