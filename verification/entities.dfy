/** The domain records of the authentication subsystem: the identity record
    issued by the remote service, the mutable profile row, the opaque session
    and the five-field state the UI observes.
 */
module Entities {
  import opened Outcomes

  /** The three roles a profile row may carry. */
  datatype Role = Adoptante | Publicador | Admin

  /** Identity record `{id, email, created_at}`. */
  datatype User = User(id: string, email: string, created_at: string)

  /** A row of the `profiles` table; `avatar_url` is optional. */
  datatype Profile = Profile(
    id: string,
    role: Role,
    name: string,
    city: string,
    avatar_url: Option<string>,
    verified: bool,
    created_at: string,
    updated_at: string)

  /** `Partial<Profile>`: every field may be absent. It is only forwarded to
      the backend, never applied locally. */
  datatype ProfilePatch = ProfilePatch(
    id: Option<string>,
    role: Option<Role>,
    name: Option<string>,
    city: Option<string>,
    avatar_url: Option<string>,
    verified: Option<bool>,
    created_at: Option<string>,
    updated_at: Option<string>)

  /** The remote service's user object, reduced to the fields the client
      keeps in its identity projection. */
  datatype AuthUser = AuthUser(id: string, email: string, created_at: string)

  /** A session is opaque to the client: `token` stands for the credential
      bundle, and `user` is the only part the client looks into. */
  datatype Session = Session(token: string, user: Option<AuthUser>)

  /** A `File` is known by its name only. */
  datatype File = File(name: string)

  /** The state the UI subscribes to. */
  datatype AuthState = AuthState(
    user: Option<User>,
    profile: Option<Profile>,
    session: Option<Session>,
    loading: bool,
    error: Option<string>)

  /** The identity projection `{id, email, created_at}` used both by the
      repository (of `data.user`) and by the store (of `session.user`). */
  function Identity(u: AuthUser): (r: User)
    ensures r.id == u.id && r.email == u.email && r.created_at == u.created_at
  {
    User(u.id, u.email, u.created_at)
  }
}
