/** The three layers put together: the container's actions answered by the
    use cases over the Supabase repository over one SDK. The session fetch
    of `initialize` goes to the repository's `getSession`, the call the
    container's `initialize` evidently means.
 */
module Stack {
  import opened Outcomes
  import opened Entities
  import AuthUseCases
  import AuthStore
  import Repo = SupabaseAuthRepository

  /** The use-case object the container is wired to, with the clock reading
      `now` for avatar paths. */
  function Backend(sdk: Repo.Sdk, now: nat): (uc: AuthUseCases.UseCases)
    ensures forall email, password :: uc.signIn(email, password) == Repo.SignIn(sdk, email, password)
    ensures forall email, password, name, city ::
              uc.signUp(email, password, name, city) == Repo.SignUp(sdk, email, password, name, city)
    ensures uc.signInWithGoogle() == Repo.SignInWithGoogle(sdk)
    ensures uc.signOut() == Repo.SignOut(sdk)
    ensures forall email :: uc.resetPassword(email) == Repo.ResetPassword(sdk, email)
    ensures forall userId :: uc.getProfile(userId) == Repo.GetProfile(sdk, userId)
    ensures forall userId, updates :: uc.updateProfile(userId, updates) == Repo.UpdateProfile(sdk, userId, updates)
    ensures forall userId, file :: uc.uploadAvatar(userId, file) == Repo.UploadAvatar(sdk, now, userId, file)
  {
    AuthUseCases.Of(Repo.Repository(sdk, now))
  }

  /** Signing in end to end: the SDK user's identity lands in the store; an
      SDK error shows its message; no user and no error shows
      "No user returned". */
  lemma SignInEndToEnd(s: AuthState, sdk: Repo.Sdk, now: nat, email: string, password: string)
    ensures var response := sdk.signInWithPassword(Repo.PasswordCredentials(email, password));
            var r := AuthStore.SignIn(s, Backend(sdk, now), email, password);
            var t := AuthStore.Final(s, r);
            && (response.error.Some? ==>
                  r.completion == AuthStore.Rethrown(response.error.value)
                  && t.error == Some(ErrorText(response.error.value, AuthStore.SignInFallback))
                  && t.user == s.user)
            && (response.error.None? && response.user.None? ==>
                  t.error == Some(Repo.NoUserReturned) && t.user == s.user)
            && (response.error.None? && response.user.Some? ==>
                  t.user == Some(Identity(response.user.value)) && t.error == None)
  {
  }

  /** Initializing end to end with a signed-in session whose profile row
      exists: the whole state is the session, its user, the row, not
      loading and no error. */
  lemma InitializeEndToEnd(s: AuthState, sdk: Repo.Sdk, now: nat, session: Session, row: Profile)
    requires sdk.getSession.session == Some(session) && session.user.Some?
    requires sdk.selectSingle(Repo.SelectSingle(Repo.ProfilesTable, "*", "id", session.user.value.id))
          == Repo.RowResponse(Some(row), None)
    ensures var t := AuthStore.Final(s, AuthStore.Initialize(s, Repo.GetSession(sdk), Backend(sdk, now)));
            t == AuthState(Some(Identity(session.user.value)), Some(row), Some(session), false, None)
  {
  }

  /** A missing profile row during `initialize` is swallowed: the user is
      stored, the old profile stays and `error` stays empty. */
  lemma InitializeMissingProfile(s: AuthState, sdk: Repo.Sdk, now: nat, session: Session)
    requires sdk.getSession.session == Some(session) && session.user.Some?
    requires sdk.selectSingle(Repo.SelectSingle(Repo.ProfilesTable, "*", "id", session.user.value.id)).data.None?
    ensures var t := AuthStore.Final(s, AuthStore.Initialize(s, Repo.GetSession(sdk), Backend(sdk, now)));
            t.user == Some(Identity(session.user.value)) && t.profile == s.profile && t.error == None
  {
  }

  /** Updating the profile end to end targets the signed-in user's row of
      `profiles` with the partial update as given, and stores the returned
      row. */
  lemma UpdateProfileEndToEnd(s: AuthState, sdk: Repo.Sdk, now: nat, updates: ProfilePatch, row: Profile)
    requires s.user.Some?
    requires sdk.updateSingle(Repo.UpdateSingle(Repo.ProfilesTable, updates, "id", s.user.value.id))
          == Repo.RowResponse(Some(row), None)
    ensures var t := AuthStore.Final(s, AuthStore.UpdateProfile(s, Backend(sdk, now), updates));
            t.profile == Some(row) && t.user == s.user && t.error == None && !t.loading
  {
  }

  /** Uploading an avatar end to end: the stored profile differs from the
      old one only in `avatar_url`, which is the public URL of the path
      built from the user id, the clock reading and the file's extension. */
  lemma UploadAvatarEndToEnd(s: AuthState, sdk: Repo.Sdk, now: nat, file: File)
    requires s.user.Some? && s.profile.Some?
    requires sdk.upload(Repo.AvatarBucket, Repo.AvatarPath(s.user.value.id, now, file.name), file).None?
    ensures var t := AuthStore.Final(s, AuthStore.UploadAvatar(s, Backend(sdk, now), file));
            var url := sdk.getPublicUrl(Repo.AvatarBucket, Repo.AvatarPath(s.user.value.id, now, file.name));
            t.profile == Some(s.profile.value.(avatar_url := Some(url)))
  {
  }
}
