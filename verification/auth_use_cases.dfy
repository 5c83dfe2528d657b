/** The use-case layer: one operation per repository operation, each handing
    its arguments to the same-named repository operation and settling as
    that operation settles. It names eight operations; `getSession` is not
    among them.
 */
module AuthUseCases {
  import opened Outcomes
  import opened Entities
  import AuthRepository

  datatype UseCases = UseCases(
    signIn: (string, string) -> Outcome<User>,
    signUp: (string, string, string, string) -> Outcome<User>,
    signInWithGoogle: () -> Outcome<()>,
    signOut: () -> Outcome<()>,
    resetPassword: string -> Outcome<()>,
    getProfile: string -> Outcome<Profile>,
    updateProfile: (string, ProfilePatch) -> Outcome<Profile>,
    uploadAvatar: (string, File) -> Outcome<string>)

  /** `new AuthUseCases(repository)`: every operation is the same-named
      repository operation applied to the same arguments, so results and
      failures (with their messages) pass through unchanged. */
  function Of(repo: AuthRepository.Repository): (uc: UseCases)
    ensures forall email, password :: uc.signIn(email, password) == repo.signIn(email, password)
    ensures forall email, password, name, city ::
              uc.signUp(email, password, name, city) == repo.signUp(email, password, name, city)
    ensures uc.signInWithGoogle() == repo.signInWithGoogle()
    ensures uc.signOut() == repo.signOut()
    ensures forall email :: uc.resetPassword(email) == repo.resetPassword(email)
    ensures forall userId :: uc.getProfile(userId) == repo.getProfile(userId)
    ensures forall userId, updates :: uc.updateProfile(userId, updates) == repo.updateProfile(userId, updates)
    ensures forall userId, file :: uc.uploadAvatar(userId, file) == repo.uploadAvatar(userId, file)
  {
    UseCases(
      (email, password) => repo.signIn(email, password),
      (email, password, name, city) => repo.signUp(email, password, name, city),
      () => repo.signInWithGoogle(),
      () => repo.signOut(),
      email => repo.resetPassword(email),
      userId => repo.getProfile(userId),
      (userId, updates) => repo.updateProfile(userId, updates),
      (userId, file) => repo.uploadAvatar(userId, file))
  }
}
