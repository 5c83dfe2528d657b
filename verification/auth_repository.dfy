/** The capability interface the use-case layer depends on, as a record of
    operations. Each operation is given by the outcome it settles to for
    each argument list; the one implementation is built in
    `SupabaseAuthRepository.Repository`.
 */
module AuthRepository {
  import opened Outcomes
  import opened Entities

  datatype Repository = Repository(
    signIn: (string, string) -> Outcome<User>,
    signUp: (string, string, string, string) -> Outcome<User>,
    signInWithGoogle: () -> Outcome<()>,
    signOut: () -> Outcome<()>,
    resetPassword: string -> Outcome<()>,
    getProfile: string -> Outcome<Profile>,
    updateProfile: (string, ProfilePatch) -> Outcome<Profile>,
    uploadAvatar: (string, File) -> Outcome<string>,
    getSession: () -> Outcome<Option<Session>>)
}
