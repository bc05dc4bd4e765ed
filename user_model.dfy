/**
 * The User schema (models/user.js): six plain fields, none required and none
 * unique; `role` defaults to "user" and `createdAt` to the creation time.
 */
module UserModel {
  import opened Wrappers
  import opened Http

  const DefaultRole: string := "user"

  /** A saved user. */
  datatype User = User(
    provider: string,
    providerId: string,
    displayName: string,
    email: string,
    role: string,
    createdAt: Time)

  /** The object handed to `User.create`: `role` and `createdAt` may be left
      out, and then take their defaults. */
  datatype UserFields = UserFields(
    provider: string,
    providerId: string,
    displayName: string,
    email: string,
    role: Option<string>,
    createdAt: Option<Time>)

  /** Applies the schema defaults at creation time `now`; given fields are
      stored as they are. */
  function Create(f: UserFields, now: Time): (u: User)
    ensures u.provider == f.provider && u.providerId == f.providerId
    ensures u.displayName == f.displayName && u.email == f.email
    ensures f.role.None? ==> u.role == DefaultRole
    ensures f.role.Some? ==> u.role == f.role.value
    ensures f.createdAt.None? ==> u.createdAt == now
    ensures f.createdAt.Some? ==> u.createdAt == f.createdAt.value
  {
    User(f.provider, f.providerId, f.displayName, f.email,
         if f.role.Some? then f.role.value else DefaultRole,
         if f.createdAt.Some? then f.createdAt.value else now)
  }
}
