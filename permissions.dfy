/** `hasPermission` (src/lib/permissions.ts) and the user the auth context builds. */
module Permissions {
  import opened Wrappers
  import opened JsBuiltins
  import opened Definitions

  const FullAccess: Permission := "fullAccess"

  /**
   * `hasPermission(user, p)`: false for a missing user or a missing list;
   * otherwise true when the list holds "fullAccess" or `p` itself.
   */
  function HasPermission(user: Option<User>, p: Permission): (r: bool)
    ensures r <==> user.Some? && user.value.permissions.Some?
                   && (FullAccess in user.value.permissions.value || p in user.value.permissions.value)
  {
    if user.None? || user.value.permissions.None? then false
    else if Includes(user.value.permissions.value, FullAccess) then true
    else Includes(user.value.permissions.value, p)
  }

  /** A null or undefined user holds no permission. */
  lemma NoUserIsDenied(p: Permission)
    ensures !HasPermission(None, p)
  {
  }

  /** A user without a `permissions` list holds no permission. */
  lemma MissingListIsDenied(u: User, p: Permission)
    requires u.permissions.None?
    ensures !HasPermission(Some(u), p)
  {
  }

  /** "fullAccess" grants every permission. */
  lemma FullAccessGrantsAll(u: User, p: Permission)
    requires u.permissions.Some? && FullAccess in u.permissions.value
    ensures HasPermission(Some(u), p)
  {
  }

  /** Without "fullAccess", a permission is granted exactly when it is listed. */
  lemma GrantedIffListed(u: User, p: Permission)
    requires u.permissions.Some? && FullAccess !in u.permissions.value
    ensures HasPermission(Some(u), p) <==> p in u.permissions.value
  {
  }

  /** Adding entries to a user's list never withdraws a permission. */
  lemma GrantIsMonotonic(u: User, more: seq<Permission>, p: Permission)
    requires u.permissions.Some?
    requires forall q :: q in u.permissions.value ==> q in more
    requires HasPermission(Some(u), p)
    ensures HasPermission(Some(u.(permissions := Some(more))), p)
  {
  }

  /**
   * The user the auth context builds from a signed-in account: its uid as
   * `id`, its e-mail (or "User") as `username`, role "admin" for the
   * configured administrator e-mail and "manager" otherwise, and no
   * `permissions` field. A missing e-mail (null) never equals a missing
   * administrator setting (undefined) under `===`.
   */
  function AuthContextUser(uid: string, email: Option<string>, adminEmail: Option<string>): (u: User)
    ensures u.id == uid && u.permissions.None?
    ensures u.role == "admin" <==> email.Some? && adminEmail.Some? && email.value == adminEmail.value
  {
    User(uid,
         if email.Some? && email.value != "" then email.value else "User",
         if email.Some? && adminEmail.Some? && email.value == adminEmail.value then "admin" else "manager",
         None)
  }

  /** Every user built by the auth context, administrator included, is denied everything. */
  lemma AuthContextUserIsDenied(uid: string, email: Option<string>, adminEmail: Option<string>, p: Permission)
    ensures !HasPermission(Some(AuthContextUser(uid, email, adminEmail)), p)
  {
  }
}
