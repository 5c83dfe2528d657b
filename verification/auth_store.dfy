/** The client-side auth state container as pure transitions.

    The container publishes a new state on every `set(partial)`: the fields
    named in the partial object are replaced and the others kept. An action
    is modelled by the `Run` it produces from the current state: the states
    it publishes, in order, and how its promise settles (`Ok`, or the thrown
    value rethrown). Remote work goes through the use-case record `uc`;
    each action is atomic (no other action interleaves with it).
 */
module AuthStore {
  import opened Outcomes
  import opened Entities
  import AuthUseCases

  datatype Completion = Ok | Rethrown(thrown: Thrown)

  datatype Run = Run(trace: seq<AuthState>, completion: Completion)

  /** The partial object given to `set`; `None` leaves a field alone. */
  datatype Patch = Patch(
    user: Option<Option<User>>,
    profile: Option<Option<Profile>>,
    session: Option<Option<Session>>,
    loading: Option<bool>,
    error: Option<Option<string>>)

  const Keep: Patch := Patch(None, None, None, None, None)
  const Begin: Patch := Keep.(loading := Some(true), error := Some(None))
  const End: Patch := Keep.(loading := Some(false))

  const InitializeFallback: string := "Error initializing auth"
  const SignInFallback: string := "Error signing in"
  const SignUpFallback: string := "Error signing up"
  const GoogleFallback: string := "Error signing in with Google"
  const SignOutFallback: string := "Error signing out"
  const ResetPasswordFallback: string := "Error resetting password"
  const UpdateProfileFallback: string := "Error updating profile"
  const UploadAvatarFallback: string := "Error uploading avatar"
  const NoUserLoggedIn: string := "No user logged in"

  /** The state the container is created with. */
  const Initial: AuthState := AuthState(None, None, None, true, None)

  /** The state the `SIGNED_OUT` event forces. */
  const SignedOut: AuthState := AuthState(None, None, None, false, None)

  /** `set(partial)`: a shallow merge. */
  function Set(s: AuthState, p: Patch): AuthState
  {
    AuthState(
      if p.user.Some? then p.user.value else s.user,
      if p.profile.Some? then p.profile.value else s.profile,
      if p.session.Some? then p.session.value else s.session,
      if p.loading.Some? then p.loading.value else s.loading,
      if p.error.Some? then p.error.value else s.error)
  }

  /** The state a run leaves behind. */
  function Final(s: AuthState, r: Run): AuthState
  {
    if |r.trace| == 0 then s else r.trace[|r.trace| - 1]
  }

  // ---------------------------------------------------------------------
  // What the contracts talk about
  // ---------------------------------------------------------------------

  /** Loading and error bookends: the first published state is the old one
      with `loading` on and `error` cleared, and the last has `loading`
      off. */
  ghost predicate Bookended(s: AuthState, r: Run)
  {
    && |r.trace| >= 2
    && r.trace[0] == s.(loading := true, error := None)
    && !Final(s, r).loading
  }

  /** User, profile and session are as they were. */
  ghost predicate SameIdentity(s: AuthState, t: AuthState)
  {
    t.user == s.user && t.profile == s.profile && t.session == s.session
  }

  /** The failure path: the thrown value is rethrown, `error` shows its
      message (or the action's fallback text) and nothing else the action
      could have written changed. */
  ghost predicate FailedWith(s: AuthState, r: Run, thrown: Thrown, fallback: string)
  {
    && r.completion == Rethrown(thrown)
    && Final(s, r).error == Some(ErrorText(thrown, fallback))
    && SameIdentity(s, Final(s, r))
  }

  /** User, profile and session are all absent. */
  ghost predicate Cleared(t: AuthState)
  {
    t.user.None? && t.profile.None? && t.session.None?
  }

  // ---------------------------------------------------------------------
  // The try / catch / finally shape shared by the actions
  // ---------------------------------------------------------------------

  /** `finally { set({loading: false}) }` after a completed `try`. */
  function Settle(trace: seq<AuthState>, completion: Completion): (r: Run)
    requires |trace| >= 1
  {
    Run(trace + [Set(trace[|trace| - 1], End)], completion)
  }

  /** `catch (error) { set({error: ...}); throw error }` then `finally`. */
  function Throw(trace: seq<AuthState>, thrown: Thrown, fallback: string): (r: Run)
    requires |trace| >= 1
  {
    var failed := Set(trace[|trace| - 1], Keep.(error := Some(Some(ErrorText(thrown, fallback)))));
    Settle(trace + [failed], Rethrown(thrown))
  }

  // ---------------------------------------------------------------------
  // Actions
  // ---------------------------------------------------------------------

  /** `initialize`, reading the session from `session` (the outcome of the
      session fetch) and fetching the profile best-effort. It never
      rethrows: a failed session fetch shows in `error`, a failed profile
      fetch shows nowhere. */
  function Initialize(s: AuthState, session: Outcome<Option<Session>>, uc: AuthUseCases.UseCases): (r: Run)
    ensures Bookended(s, r) && r.completion == Ok
    ensures var t := Final(s, r);
            session.Failure? ==>
              SameIdentity(s, t) && t.error == Some(ErrorText(session.thrown, InitializeFallback))
    ensures var t := Final(s, r);
            session.Success? ==> t.session == session.value && t.error == None
    ensures var t := Final(s, r);
            session.Success? && session.value.Some? && session.value.value.user.Some? ==>
              var user := Identity(session.value.value.user.value);
              && t.user == Some(user)
              && (uc.getProfile(user.id).Success? ==> t.profile == Some(uc.getProfile(user.id).value))
              && (uc.getProfile(user.id).Failure? ==> t.profile == s.profile)
    ensures var t := Final(s, r);
            session.Success? && (session.value.None? || session.value.value.user.None?) ==>
              t.user == s.user && t.profile == s.profile
  {
    var s1 := Set(s, Begin);
    match session
    case Failure(thrown) =>
      Settle([s1, Set(s1, Keep.(error := Some(Some(ErrorText(thrown, InitializeFallback)))))], Ok)
    case Success(current) =>
      var s2 := Set(s1, Keep.(session := Some(current)));
      if current.Some? && current.value.user.Some? then
        var user := Identity(current.value.user.value);
        var s3 := Set(s2, Keep.(user := Some(Some(user))));
        match uc.getProfile(user.id)
        case Success(profile) => Settle([s1, s2, s3, Set(s3, Keep.(profile := Some(Some(profile))))], Ok)
        case Failure(_) => Settle([s1, s2, s3], Ok)
      else
        Settle([s1, s2], Ok)
  }

  /** `initialize` as the source writes it: `authUseCases.getSession` is
      not an operation of the use-case object, so calling it throws a
      `TypeError` (an `Error`) whose engine-chosen text is `typeErrorMessage`,
      and the outer catch records it. */
  function InitializeAsWritten(s: AuthState, typeErrorMessage: string): (r: Run)
    ensures Bookended(s, r) && r.completion == Ok
    ensures SameIdentity(s, Final(s, r))
    ensures Final(s, r).error == Some(typeErrorMessage)
  {
    var s1 := Set(s, Begin);
    var thrown := Err(typeErrorMessage);
    Settle([s1, Set(s1, Keep.(error := Some(Some(ErrorText(thrown, InitializeFallback)))))], Ok)
  }

  /** The code as written is the corrected `initialize` meeting a session
      fetch that fails with an `Error`: everything proved of `Initialize`
      for failed fetches (and of the events and sequences built on it)
      covers the code as written too. */
  lemma InitializeAsWrittenIsFailedFetch(s: AuthState, typeErrorMessage: string, uc: AuthUseCases.UseCases)
    ensures InitializeAsWritten(s, typeErrorMessage) == Initialize(s, Failure(Err(typeErrorMessage)), uc)
  {
  }

  function SignIn(s: AuthState, uc: AuthUseCases.UseCases, email: string, password: string): (r: Run)
    ensures Bookended(s, r)
    ensures var out := uc.signIn(email, password); var t := Final(s, r);
            out.Success? ==>
              r.completion == Ok && t.user == Some(out.value) && t.error == None
              && t.profile == s.profile && t.session == s.session
    ensures var out := uc.signIn(email, password);
            out.Failure? ==> FailedWith(s, r, out.thrown, SignInFallback)
  {
    var s1 := Set(s, Begin);
    match uc.signIn(email, password)
    case Success(user) => Settle([s1, Set(s1, Keep.(user := Some(Some(user))))], Ok)
    case Failure(thrown) => Throw([s1], thrown, SignInFallback)
  }

  function SignUp(s: AuthState, uc: AuthUseCases.UseCases, email: string, password: string, name: string, city: string): (r: Run)
    ensures Bookended(s, r)
    ensures var out := uc.signUp(email, password, name, city); var t := Final(s, r);
            out.Success? ==>
              r.completion == Ok && t.user == Some(out.value) && t.error == None
              && t.profile == s.profile && t.session == s.session
    ensures var out := uc.signUp(email, password, name, city);
            out.Failure? ==> FailedWith(s, r, out.thrown, SignUpFallback)
  {
    var s1 := Set(s, Begin);
    match uc.signUp(email, password, name, city)
    case Success(user) => Settle([s1, Set(s1, Keep.(user := Some(Some(user))))], Ok)
    case Failure(thrown) => Throw([s1], thrown, SignUpFallback)
  }

  /** On success nothing but the bookends changes; the redirect happens
      outside the store. */
  function SignInWithGoogle(s: AuthState, uc: AuthUseCases.UseCases): (r: Run)
    ensures Bookended(s, r)
    ensures uc.signInWithGoogle().Success? ==>
              r.completion == Ok && Final(s, r) == s.(loading := false, error := None)
    ensures uc.signInWithGoogle().Failure? ==> FailedWith(s, r, uc.signInWithGoogle().thrown, GoogleFallback)
  {
    var s1 := Set(s, Begin);
    match uc.signInWithGoogle()
    case Success(_) => Settle([s1], Ok)
    case Failure(thrown) => Throw([s1], thrown, GoogleFallback)
  }

  /** Success clears user, profile and session in one `set`, so no published
      state has only some of them cleared; failure clears none. */
  function SignOut(s: AuthState, uc: AuthUseCases.UseCases): (r: Run)
    ensures Bookended(s, r)
    ensures forall i :: 0 <= i < |r.trace| ==> Cleared(r.trace[i]) || SameIdentity(s, r.trace[i])
    ensures uc.signOut().Success? ==>
              r.completion == Ok && Cleared(Final(s, r)) && Final(s, r).error == None
    ensures uc.signOut().Failure? ==> FailedWith(s, r, uc.signOut().thrown, SignOutFallback)
  {
    var s1 := Set(s, Begin);
    match uc.signOut()
    case Success(_) =>
      Settle([s1, Set(s1, Keep.(user := Some(None), profile := Some(None), session := Some(None)))], Ok)
    case Failure(thrown) => Throw([s1], thrown, SignOutFallback)
  }

  function ResetPassword(s: AuthState, uc: AuthUseCases.UseCases, email: string): (r: Run)
    ensures Bookended(s, r)
    ensures uc.resetPassword(email).Success? ==>
              r.completion == Ok && Final(s, r) == s.(loading := false, error := None)
    ensures uc.resetPassword(email).Failure? ==>
              FailedWith(s, r, uc.resetPassword(email).thrown, ResetPasswordFallback)
  {
    var s1 := Set(s, Begin);
    match uc.resetPassword(email)
    case Success(_) => Settle([s1], Ok)
    case Failure(thrown) => Throw([s1], thrown, ResetPasswordFallback)
  }

  /** Without a user the action fails with "No user logged in" before any
      use-case call; with one it sends the user's id and the partial update
      as given and stores the row the backend returns. */
  function UpdateProfile(s: AuthState, uc: AuthUseCases.UseCases, updates: ProfilePatch): (r: Run)
    ensures Bookended(s, r)
    ensures s.user.None? ==> FailedWith(s, r, Err(NoUserLoggedIn), UpdateProfileFallback)
    ensures s.user.None? ==> Final(s, r).error == Some(NoUserLoggedIn)
    ensures s.user.Some? ==>
              var out := uc.updateProfile(s.user.value.id, updates); var t := Final(s, r);
              && (out.Success? ==>
                    r.completion == Ok && t.profile == Some(out.value) && t.error == None
                    && t.user == s.user && t.session == s.session)
              && (out.Failure? ==> FailedWith(s, r, out.thrown, UpdateProfileFallback))
  {
    var s1 := Set(s, Begin);
    match s1.user
    case None => Throw([s1], Err(NoUserLoggedIn), UpdateProfileFallback)
    case Some(user) =>
      match uc.updateProfile(user.id, updates)
      case Success(profile) => Settle([s1, Set(s1, Keep.(profile := Some(Some(profile))))], Ok)
      case Failure(thrown) => Throw([s1], thrown, UpdateProfileFallback)
  }

  /** Without a user the action fails with "No user logged in" before any
      use-case call. On success only `profile.avatar_url` changes, to the
      returned URL, and only when a profile is held. */
  function UploadAvatar(s: AuthState, uc: AuthUseCases.UseCases, file: File): (r: Run)
    ensures Bookended(s, r)
    ensures s.user.None? ==> FailedWith(s, r, Err(NoUserLoggedIn), UploadAvatarFallback)
    ensures s.user.None? ==> Final(s, r).error == Some(NoUserLoggedIn)
    ensures s.user.Some? ==>
              var out := uc.uploadAvatar(s.user.value.id, file); var t := Final(s, r);
              && (out.Success? ==>
                    && r.completion == Ok && t.error == None
                    && t.user == s.user && t.session == s.session
                    && (s.profile.Some? ==> t.profile == Some(s.profile.value.(avatar_url := Some(out.value))))
                    && (s.profile.None? ==> t.profile == None))
              && (out.Failure? ==> FailedWith(s, r, out.thrown, UploadAvatarFallback))
  {
    var s1 := Set(s, Begin);
    match s1.user
    case None => Throw([s1], Err(NoUserLoggedIn), UploadAvatarFallback)
    case Some(user) =>
      match uc.uploadAvatar(user.id, file)
      case Success(avatarUrl) =>
        (match s1.profile
         case Some(profile) =>
           Settle([s1, Set(s1, Keep.(profile := Some(Some(profile.(avatar_url := Some(avatarUrl))))))], Ok)
         case None => Settle([s1], Ok))
      case Failure(thrown) => Throw([s1], thrown, UploadAvatarFallback)
  }

  /** `setError`: one synchronous `set` of the error field alone. */
  function SetError(s: AuthState, error: Option<string>): (r: Run)
    ensures |r.trace| == 1 && r.completion == Ok
    ensures Final(s, r).error == error
    ensures SameIdentity(s, Final(s, r)) && Final(s, r).loading == s.loading
  {
    Run([Set(s, Keep.(error := Some(error)))], Ok)
  }

  /** `clearError`: `setError(null)`. */
  function ClearError(s: AuthState): (r: Run)
    ensures |r.trace| == 1 && r.completion == Ok
    ensures Final(s, r) == s.(error := None)
  {
    Run([Set(s, Keep.(error := Some(None)))], Ok)
  }

  /** The auth-event listener. `SIGNED_IN` and `TOKEN_REFRESHED` re-run
      `initialize`; `SIGNED_OUT` forces the signed-out state in one `set`;
      any other tag publishes nothing. The event's own session argument is
      not looked at. */
  function OnAuthEvent(s: AuthState, tag: string, session: Outcome<Option<Session>>, uc: AuthUseCases.UseCases): (r: Run)
    ensures r.completion == Ok
    ensures tag == "SIGNED_IN" || tag == "TOKEN_REFRESHED" ==> r == Initialize(s, session, uc)
    ensures tag == "SIGNED_OUT" ==> r.trace == [SignedOut]
    ensures tag != "SIGNED_IN" && tag != "TOKEN_REFRESHED" && tag != "SIGNED_OUT" ==> r.trace == []
  {
    if tag == "SIGNED_IN" || tag == "TOKEN_REFRESHED" then
      Initialize(s, session, uc)
    else if tag == "SIGNED_OUT" then
      Run([Set(s, Patch(Some(None), Some(None), Some(None), Some(false), Some(None)))], Ok)
    else
      Run([], Ok)
  }

  // ---------------------------------------------------------------------
  // Properties relating actions
  // ---------------------------------------------------------------------

  /** Without a user, `updateProfile` and `uploadAvatar` never consult the
      use-case layer: any two use-case objects give the same run. */
  lemma NoUserNoCall(s: AuthState, uc1: AuthUseCases.UseCases, uc2: AuthUseCases.UseCases, updates: ProfilePatch, file: File)
    requires s.user.None?
    ensures UpdateProfile(s, uc1, updates) == UpdateProfile(s, uc2, updates)
    ensures UploadAvatar(s, uc1, file) == UploadAvatar(s, uc2, file)
  {
  }

  /** A successful sign-out and the `SIGNED_OUT` event agree on user,
      profile, session, loading and error. */
  lemma SignOutMatchesSignedOutEvent(s: AuthState, uc: AuthUseCases.UseCases, session: Outcome<Option<Session>>)
    requires uc.signOut().Success?
    ensures Final(s, SignOut(s, uc)) == Final(s, OnAuthEvent(s, "SIGNED_OUT", session, uc))
  {
  }

  /** `clearError` undoes `setError`. */
  lemma ClearErrorUndoesSetError(s: AuthState, error: Option<string>)
    ensures Final(Final(s, SetError(s, error)), ClearError(Final(s, SetError(s, error)))) == Final(s, ClearError(s))
  {
  }

  /** The source as written cannot sign anyone in through `initialize`:
      from the initial state it ends signed out with the `TypeError` text
      shown, where the corrected `initialize` stores the session's user. */
  lemma InitializeAsWrittenLosesSession(session: Session, uc: AuthUseCases.UseCases, typeErrorMessage: string)
    requires session.user.Some?
    ensures Final(Initial, InitializeAsWritten(Initial, typeErrorMessage)).user == None
    ensures Final(Initial, InitializeAsWritten(Initial, typeErrorMessage)).session == None
    ensures Final(Initial, Initialize(Initial, Success(Some(session)), uc)).user == Some(Identity(session.user.value))
    ensures Final(Initial, Initialize(Initial, Success(Some(session)), uc)).session == Some(session)
  {
  }
}
