/** The one implementation of the repository interface. It turns each
    `{data, error}` pair the backend SDK returns into either a thrown error
    or a plain domain record.

    The SDK is an oracle: `Sdk` gives, for every request the repository can
    send, the response the SDK settles to. A request carries everything the
    repository passes, so which table, bucket, column and arguments are used
    is part of what the contracts below state.
 */
module SupabaseAuthRepository {
  import opened Outcomes
  import opened Entities
  import JsText
  import AuthRepository

  /** `{data: {user}, error}` of password sign-in and sign-up. */
  datatype AuthResponse = AuthResponse(user: Option<AuthUser>, error: Option<Thrown>)

  /** `{data, error}` of a `.single()` row query. */
  datatype RowResponse = RowResponse(data: Option<Profile>, error: Option<Thrown>)

  /** `{data: {session}, error}` of the session query. */
  datatype SessionResponse = SessionResponse(session: Option<Session>, error: Option<Thrown>)

  datatype PasswordCredentials = PasswordCredentials(email: string, password: string)

  /** `options.data` of sign-up: the user metadata. */
  datatype SignUpMetadata = SignUpMetadata(name: string, city: string)

  datatype SignUpCredentials = SignUpCredentials(email: string, password: string, data: SignUpMetadata)

  /** `from(table).select(columns).eq(column, value).single()`. */
  datatype SelectQuery = SelectSingle(table: string, columns: string, column: string, value: string)

  /** `from(table).update(values).eq(column, value).select().single()`. */
  datatype UpdateQuery = UpdateSingle(table: string, values: ProfilePatch, column: string, value: string)

  /** The SDK calls the repository makes, each given by its response. The
      calls without arguments are given by their single response. Error
      slots are `Option<Thrown>`. */
  datatype Sdk = Sdk(
    signInWithPassword: PasswordCredentials -> AuthResponse,
    signUp: SignUpCredentials -> AuthResponse,
    signInWithOAuth: string -> Option<Thrown>,
    signOut: Option<Thrown>,
    resetPasswordForEmail: string -> Option<Thrown>,
    selectSingle: SelectQuery -> RowResponse,
    updateSingle: UpdateQuery -> RowResponse,
    upload: (string, string, File) -> Option<Thrown>,
    getPublicUrl: (string, string) -> string,
    getSession: SessionResponse)

  const NoUserReturned: string := "No user returned"
  const ProfileNotFound: string := "Profile not found"
  const ProfilesTable: string := "profiles"
  const AvatarBucket: string := "avatars"
  const GoogleProvider: string := "google"

  /** The normalisation shared by sign-in and sign-up: the error slot wins,
      then a missing user is an error of its own, else the identity
      projection of the user. */
  function UserResult(response: AuthResponse): (r: Outcome<User>)
    ensures response.error.Some? ==> r == Failure(response.error.value)
    ensures response.error.None? && response.user.None? ==> r == Failure(Err(NoUserReturned))
    ensures r.Success? <==> response.error.None? && response.user.Some?
    ensures r.Success? ==> r.value == Identity(response.user.value)
  {
    match response.error
    case Some(e) => Failure(e)
    case None =>
      match response.user
      case None => Failure(Err(NoUserReturned))
      case Some(u) => Success(Identity(u))
  }

  /** The normalisation shared by the two profile queries: the error slot
      wins, then a missing row is "Profile not found", else the row as is. */
  function RowResult(response: RowResponse): (r: Outcome<Profile>)
    ensures response.error.Some? ==> r == Failure(response.error.value)
    ensures response.error.None? && response.data.None? ==> r == Failure(Err(ProfileNotFound))
    ensures r.Success? <==> response.error.None? && response.data.Some?
    ensures r.Success? ==> r.value == response.data.value
  {
    match response.error
    case Some(e) => Failure(e)
    case None =>
      match response.data
      case None => Failure(Err(ProfileNotFound))
      case Some(row) => Success(row)
  }

  /** The void calls succeed exactly when their error slot is empty. */
  function VoidResult(error: Option<Thrown>): (r: Outcome<()>)
    ensures r.Success? <==> error.None?
    ensures error.Some? ==> r == Failure(error.value)
  {
    match error
    case Some(e) => Failure(e)
    case None => Success(())
  }

  function SignIn(sdk: Sdk, email: string, password: string): (r: Outcome<User>)
    ensures var response := sdk.signInWithPassword(PasswordCredentials(email, password));
            && (response.error.Some? ==> r == Failure(response.error.value))
            && (response.error.None? && response.user.None? ==> r == Failure(Err(NoUserReturned)))
            && (response.error.None? && response.user.Some? ==> r == Success(Identity(response.user.value)))
  {
    UserResult(sdk.signInWithPassword(PasswordCredentials(email, password)))
  }

  function SignUp(sdk: Sdk, email: string, password: string, name: string, city: string): (r: Outcome<User>)
    ensures var response := sdk.signUp(SignUpCredentials(email, password, SignUpMetadata(name, city)));
            && (response.error.Some? ==> r == Failure(response.error.value))
            && (response.error.None? && response.user.None? ==> r == Failure(Err(NoUserReturned)))
            && (response.error.None? && response.user.Some? ==> r == Success(Identity(response.user.value)))
  {
    UserResult(sdk.signUp(SignUpCredentials(email, password, SignUpMetadata(name, city))))
  }

  /** The OAuth redirect URL is left out; the provider is fixed. */
  function SignInWithGoogle(sdk: Sdk): (r: Outcome<()>)
    ensures r.Success? <==> sdk.signInWithOAuth(GoogleProvider).None?
    ensures r.Failure? ==> r.thrown == sdk.signInWithOAuth(GoogleProvider).value
  {
    VoidResult(sdk.signInWithOAuth(GoogleProvider))
  }

  function SignOut(sdk: Sdk): (r: Outcome<()>)
    ensures r.Success? <==> sdk.signOut.None?
    ensures r.Failure? ==> r.thrown == sdk.signOut.value
  {
    VoidResult(sdk.signOut)
  }

  /** The reset redirect URL is left out. */
  function ResetPassword(sdk: Sdk, email: string): (r: Outcome<()>)
    ensures r.Success? <==> sdk.resetPasswordForEmail(email).None?
    ensures r.Failure? ==> r.thrown == sdk.resetPasswordForEmail(email).value
  {
    VoidResult(sdk.resetPasswordForEmail(email))
  }

  function GetProfile(sdk: Sdk, userId: string): (r: Outcome<Profile>)
    ensures var response := sdk.selectSingle(SelectSingle(ProfilesTable, "*", "id", userId));
            && (response.error.Some? ==> r == Failure(response.error.value))
            && (response.error.None? && response.data.None? ==> r == Failure(Err(ProfileNotFound)))
            && (response.error.None? && response.data.Some? ==> r == Success(response.data.value))
  {
    RowResult(sdk.selectSingle(SelectSingle(ProfilesTable, "*", "id", userId)))
  }

  function UpdateProfile(sdk: Sdk, userId: string, updates: ProfilePatch): (r: Outcome<Profile>)
    ensures var response := sdk.updateSingle(UpdateSingle(ProfilesTable, updates, "id", userId));
            && (response.error.Some? ==> r == Failure(response.error.value))
            && (response.error.None? && response.data.None? ==> r == Failure(Err(ProfileNotFound)))
            && (response.error.None? && response.data.Some? ==> r == Success(response.data.value))
  {
    RowResult(sdk.updateSingle(UpdateSingle(ProfilesTable, updates, "id", userId)))
  }

  /** `file.name.split('.').pop()`. */
  function FileExtension(fileName: string): (ext: string)
    ensures '.' !in ext
    ensures ext == fileName || (|ext| < |fileName| && fileName == fileName[..|fileName| - |ext| - 1] + "." + ext)
  {
    var ext := JsText.LastPiece(fileName, '.');
    assert |ext| < |fileName| ==> fileName == fileName[..|fileName| - |ext| - 1] + "." + fileName[|fileName| - |ext|..];
    ext
  }

  /** `avatars/${userId}-${Date.now()}.${fileExt}`, with the clock reading
      `now` in milliseconds as a parameter. */
  function AvatarPath(userId: string, now: nat, fileName: string): (path: string)
    ensures |path| > 8 && path[..8] == "avatars/"
  {
    "avatars/" + userId + "-" + JsText.Decimal(now) + "." + FileExtension(fileName)
  }

  /** The path reads back: its text after the last '.' is the file's
      extension, and what precedes that '.' ends, after its last '-', in the
      decimal text of the clock reading. */
  lemma AvatarPathParsesBack(userId: string, now: nat, fileName: string)
    ensures var path, ext := AvatarPath(userId, now, fileName), FileExtension(fileName);
            && JsText.LastPiece(path, '.') == ext
            && |ext| < |path|
            && JsText.LastPiece(path[..|path| - |ext| - 1], '-') == JsText.Decimal(now)
  {
    var ext, digits := FileExtension(fileName), JsText.Decimal(now);
    var stem := "avatars/" + userId + "-" + digits;
    var path := stem + "." + ext;
    assert AvatarPath(userId, now, fileName) == path;
    AvatarPathParts("avatars/" + userId, digits, ext);
    assert |path| - |ext| - 1 == |stem|;
    assert path[..|stem|] == stem;
  }

  /** The path is laid out as `avatars/`, the user id, '-', the clock
      digits, '.' and the extension, in that order and nothing else. */
  lemma AvatarPathLayout(userId: string, now: nat, fileName: string)
    ensures var path, digits, ext := AvatarPath(userId, now, fileName), JsText.Decimal(now), FileExtension(fileName);
            && |path| == 8 + |userId| + 1 + |digits| + 1 + |ext|
            && path[8..8 + |userId|] == userId
            && path[8 + |userId|] == '-'
  {
  }

  /** `head-digits.ext` splits back at its last '.' and then its last '-'. */
  lemma AvatarPathParts(head: string, digits: string, ext: string)
    requires JsText.AllDigits(digits) && '.' !in ext
    ensures JsText.LastPiece(head + "-" + digits + "." + ext, '.') == ext
    ensures (head + "-" + digits + "." + ext)[..|head| + 1 + |digits|] == head + "-" + digits
    ensures JsText.LastPiece(head + "-" + digits, '-') == digits
  {
    var stem := head + "-" + digits;
    var path := stem + "." + ext;
    JsText.LastPieceStrip(stem, '.', ext);
    assert path[..|stem|] == stem;
    DigitsHaveNoDash(digits);
    JsText.LastPieceStrip(head, '-', digits);
  }

  /** Upload to the `avatars` bucket; only when that succeeds is the public
      URL derived, and it is returned as the SDK gives it. */
  function UploadAvatar(sdk: Sdk, now: nat, userId: string, file: File): (r: Outcome<string>)
    ensures var path := AvatarPath(userId, now, file.name);
            && (sdk.upload(AvatarBucket, path, file).Some? ==> r == Failure(sdk.upload(AvatarBucket, path, file).value))
            && (sdk.upload(AvatarBucket, path, file).None? ==> r == Success(sdk.getPublicUrl(AvatarBucket, path)))
  {
    var path := AvatarPath(userId, now, file.name);
    match sdk.upload(AvatarBucket, path, file)
    case Some(uploadError) => Failure(uploadError)
    case None => Success(sdk.getPublicUrl(AvatarBucket, path))
  }

  /** The session as the SDK reports it. Only `data.session` is read: an
      answer carrying an error still succeeds, with whatever session slot
      came with it. */
  function GetSession(sdk: Sdk): (r: Outcome<Option<Session>>)
    ensures r.Success?
    ensures r.value == sdk.getSession.session
  {
    Success(sdk.getSession.session)
  }

  /** The repository object: every interface operation answered through the
      SDK, with the clock reading `now` fixed for the upload's path. */
  function Repository(sdk: Sdk, now: nat): (repo: AuthRepository.Repository)
    ensures forall email, password :: repo.signIn(email, password) == SignIn(sdk, email, password)
    ensures forall email, password, name, city ::
              repo.signUp(email, password, name, city) == SignUp(sdk, email, password, name, city)
    ensures repo.signInWithGoogle() == SignInWithGoogle(sdk)
    ensures repo.signOut() == SignOut(sdk)
    ensures forall email :: repo.resetPassword(email) == ResetPassword(sdk, email)
    ensures forall userId :: repo.getProfile(userId) == GetProfile(sdk, userId)
    ensures forall userId, updates :: repo.updateProfile(userId, updates) == UpdateProfile(sdk, userId, updates)
    ensures forall userId, file :: repo.uploadAvatar(userId, file) == UploadAvatar(sdk, now, userId, file)
    ensures repo.getSession() == GetSession(sdk)
  {
    AuthRepository.Repository(
      (email, password) => SignIn(sdk, email, password),
      (email, password, name, city) => SignUp(sdk, email, password, name, city),
      () => SignInWithGoogle(sdk),
      () => SignOut(sdk),
      email => ResetPassword(sdk, email),
      userId => GetProfile(sdk, userId),
      (userId, updates) => UpdateProfile(sdk, userId, updates),
      (userId, file) => UploadAvatar(sdk, now, userId, file),
      () => GetSession(sdk))
  }

  // ---------------------------------------------------------------------
  // Properties
  // ---------------------------------------------------------------------

  /** The extension is the text after the last '.', or the whole name: no
      other string fits that description. */
  lemma FileExtensionIsLastDotPiece(fileName: string, ext: string)
    requires '.' !in ext
    requires ext == fileName || (|ext| < |fileName| && fileName == fileName[..|fileName| - |ext| - 1] + "." + ext)
    ensures ext == FileExtension(fileName)
  {
    if ext != fileName {
      var prefix := fileName[..|fileName| - |ext| - 1];
      JsText.LastPieceStrip(prefix, '.', ext);
    } else {
      JsText.LastPieceUnique(fileName, '.', ext, JsText.LastPiece(fileName, '.'));
    }
  }

  /** The path splits back into the user id, the clock reading and the
      extension, so no two uploads that differ in any of the three share a
      storage path. */
  lemma AvatarPathInjective(u1: string, t1: nat, f1: string, u2: string, t2: nat, f2: string)
    requires AvatarPath(u1, t1, f1) == AvatarPath(u2, t2, f2)
    ensures u1 == u2 && t1 == t2 && FileExtension(f1) == FileExtension(f2)
  {
    var d1, d2 := JsText.Decimal(t1), JsText.Decimal(t2);
    var e1, e2 := FileExtension(f1), FileExtension(f2);
    assert AvatarPath(u1, t1, f1) == "avatars/" + u1 + "-" + d1 + "." + e1;
    assert AvatarPath(u2, t2, f2) == "avatars/" + u2 + "-" + d2 + "." + e2;
    PathPartsInjective(u1, d1, e1, u2, d2, e2);
    JsText.DecimalInjective(t1, t2);
  }

  /** `avatars/u-d.e` determines `u`, `d` and `e` when `d` is digits and `e`
      has no '.'. */
  lemma PathPartsInjective(u1: string, d1: string, e1: string, u2: string, d2: string, e2: string)
    requires JsText.AllDigits(d1) && JsText.AllDigits(d2) && '.' !in e1 && '.' !in e2
    requires "avatars/" + u1 + "-" + d1 + "." + e1 == "avatars/" + u2 + "-" + d2 + "." + e2
    ensures u1 == u2 && d1 == d2 && e1 == e2
  {
    var x1, x2 := u1 + "-" + d1, u2 + "-" + d2;
    assert "avatars/" + u1 + "-" + d1 + "." + e1 == "avatars/" + (x1 + "." + e1);
    assert "avatars/" + u2 + "-" + d2 + "." + e2 == "avatars/" + (x2 + "." + e2);
    PrefixCancel("avatars/", x1 + "." + e1, x2 + "." + e2);
    JsText.SplitOffLastPiece(x1, x2, '.', e1, e2);
    DigitsHaveNoDash(d1);
    DigitsHaveNoDash(d2);
    JsText.SplitOffLastPiece(u1, u2, '-', d1, d2);
  }

  lemma PrefixCancel(p: string, a: string, b: string)
    requires p + a == p + b
    ensures a == b
  {
    assert a == (p + a)[|p|..];
    assert b == (p + b)[|p|..];
  }

  lemma DigitsHaveNoDash(d: string)
    requires JsText.AllDigits(d)
    ensures '-' !in d
  {
  }

  /** A failed upload derives no public URL: the result does not depend on
      what `getPublicUrl` would have answered. */
  lemma UploadFailureIgnoresPublicUrl(sdk: Sdk, getPublicUrl: (string, string) -> string, now: nat, userId: string, file: File)
    requires sdk.upload(AvatarBucket, AvatarPath(userId, now, file.name), file).Some?
    ensures UploadAvatar(sdk.(getPublicUrl := getPublicUrl), now, userId, file) == UploadAvatar(sdk, now, userId, file)
    ensures UploadAvatar(sdk, now, userId, file).Failure?
  {
  }

  /** The session query's error slot never reaches the caller: two answers
      that differ only in their error give the same result, and an error
      with no session reads as "signed out", not as a failure. */
  lemma GetSessionIgnoresError(sdk: Sdk, error: Thrown)
    ensures GetSession(sdk.(getSession := sdk.getSession.(error := Some(error))))
         == GetSession(sdk.(getSession := sdk.getSession.(error := None)))
    ensures GetSession(sdk.(getSession := SessionResponse(None, Some(error)))) == Success(None)
  {
  }

  /** Sign-up is decided by the SDK's answer to the one request carrying the
      four arguments unchanged: two SDKs that agree on it agree on the
      result. */
  lemma SignUpForwardsArguments(sdk1: Sdk, sdk2: Sdk, email: string, password: string, name: string, city: string)
    requires sdk1.signUp(SignUpCredentials(email, password, SignUpMetadata(name, city)))
          == sdk2.signUp(SignUpCredentials(email, password, SignUpMetadata(name, city)))
    ensures SignUp(sdk1, email, password, name, city) == SignUp(sdk2, email, password, name, city)
  {
  }
}
