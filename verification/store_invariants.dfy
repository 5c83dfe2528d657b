/** What holds of the container across any sequence of actions and auth
    events, each settling against its own use-case object (the backend's
    answers may change between calls).
 */
module StoreInvariants {
  import opened Outcomes
  import opened Entities
  import AuthUseCases
  import AuthStore

  /** Everything the outside world can do to the container. */
  datatype Action =
    | Initialize
    | SignIn(email: string, password: string)
    | SignUp(email: string, password: string, name: string, city: string)
    | SignInWithGoogle
    | SignOut
    | ResetPassword(email: string)
    | UpdateProfile(updates: ProfilePatch)
    | UploadAvatar(file: File)
    | SetError(error: Option<string>)
    | ClearError
    | AuthEvent(tag: string)

  /** An action with the backend it meets: the use-case object and the
      outcome of the session fetch `initialize` makes. */
  datatype Input = Input(action: Action, uc: AuthUseCases.UseCases, session: Outcome<Option<Session>>)

  function Dispatch(s: AuthState, input: Input): AuthStore.Run
  {
    match input.action
    case Initialize => AuthStore.Initialize(s, input.session, input.uc)
    case SignIn(email, password) => AuthStore.SignIn(s, input.uc, email, password)
    case SignUp(email, password, name, city) => AuthStore.SignUp(s, input.uc, email, password, name, city)
    case SignInWithGoogle => AuthStore.SignInWithGoogle(s, input.uc)
    case SignOut => AuthStore.SignOut(s, input.uc)
    case ResetPassword(email) => AuthStore.ResetPassword(s, input.uc, email)
    case UpdateProfile(updates) => AuthStore.UpdateProfile(s, input.uc, updates)
    case UploadAvatar(file) => AuthStore.UploadAvatar(s, input.uc, file)
    case SetError(error) => AuthStore.SetError(s, error)
    case ClearError => AuthStore.ClearError(s)
    case AuthEvent(tag) => AuthStore.OnAuthEvent(s, tag, input.session, input.uc)
  }

  /** The state after the inputs, one after another. */
  function Replay(s: AuthState, inputs: seq<Input>): AuthState
    decreases |inputs|
  {
    if |inputs| == 0 then s
    else Replay(AuthStore.Final(s, Dispatch(s, inputs[0])), inputs[1..])
  }

  /** The actions that end with `loading` off: everything but the two
      synchronous error setters and events the listener ignores. */
  predicate Settles(a: Action)
  {
    match a
    case SetError(_) => false
    case ClearError => false
    case AuthEvent(tag) => tag == "SIGNED_IN" || tag == "TOKEN_REFRESHED" || tag == "SIGNED_OUT"
    case _ => true
  }

  /** A profile is only ever held next to a user. */
  ghost predicate ProfileHasOwner(s: AuthState)
  {
    s.profile.Some? ==> s.user.Some?
  }

  /** Every state a run publishes keeps `ProfileHasOwner`. */
  ghost predicate RunKeepsOwner(r: AuthStore.Run)
  {
    forall i :: 0 <= i < |r.trace| ==> ProfileHasOwner(r.trace[i])
  }

  /** `initialize` stores a profile only after storing its user. */
  lemma InitializeKeepsOwner(s: AuthState, session: Outcome<Option<Session>>, uc: AuthUseCases.UseCases)
    requires ProfileHasOwner(s)
    ensures RunKeepsOwner(AuthStore.Initialize(s, session, uc))
  {
  }

  /** The two profile writers run only with a user present. */
  lemma ProfileWritersKeepOwner(s: AuthState, uc: AuthUseCases.UseCases, updates: ProfilePatch, file: File)
    requires ProfileHasOwner(s)
    ensures RunKeepsOwner(AuthStore.UpdateProfile(s, uc, updates))
    ensures RunKeepsOwner(AuthStore.UploadAvatar(s, uc, file))
  {
  }

  /** Sign-in and sign-up replace the user and leave the profile alone. */
  lemma UserWritersKeepOwner(s: AuthState, uc: AuthUseCases.UseCases, email: string, password: string, name: string, city: string)
    requires ProfileHasOwner(s)
    ensures RunKeepsOwner(AuthStore.SignIn(s, uc, email, password))
    ensures RunKeepsOwner(AuthStore.SignUp(s, uc, email, password, name, city))
  {
  }

  /** The remaining actions either clear all three fields together or
      leave user and profile alone. */
  lemma OtherActionsKeepOwner(s: AuthState, uc: AuthUseCases.UseCases, email: string, error: Option<string>)
    requires ProfileHasOwner(s)
    ensures RunKeepsOwner(AuthStore.SignInWithGoogle(s, uc))
    ensures RunKeepsOwner(AuthStore.SignOut(s, uc))
    ensures RunKeepsOwner(AuthStore.ResetPassword(s, uc, email))
    ensures RunKeepsOwner(AuthStore.SetError(s, error))
    ensures RunKeepsOwner(AuthStore.ClearError(s))
  {
  }

  /** The listener re-runs `initialize` or clears all three fields. */
  lemma EventKeepsOwner(s: AuthState, tag: string, session: Outcome<Option<Session>>, uc: AuthUseCases.UseCases)
    requires ProfileHasOwner(s)
    ensures RunKeepsOwner(AuthStore.OnAuthEvent(s, tag, session, uc))
  {
    InitializeKeepsOwner(s, session, uc);
    assert AuthStore.SignedOut.profile.None?;
  }

  /** No published state of any action breaks `ProfileHasOwner`; each case
      names the action `Dispatch` runs and the lemma covering it. */
  lemma DispatchKeepsOwner(s: AuthState, input: Input)
    requires ProfileHasOwner(s)
    ensures RunKeepsOwner(Dispatch(s, input))
    ensures ProfileHasOwner(AuthStore.Final(s, Dispatch(s, input)))
  {
    var r := Dispatch(s, input);
    var uc := input.uc;
    match input.action {
      case Initialize =>
        assert r == AuthStore.Initialize(s, input.session, uc);
        InitializeKeepsOwner(s, input.session, uc);
      case SignIn(email, password) =>
        assert r == AuthStore.SignIn(s, uc, email, password);
        UserWritersKeepOwner(s, uc, email, password, "", "");
      case SignUp(email, password, name, city) =>
        assert r == AuthStore.SignUp(s, uc, email, password, name, city);
        UserWritersKeepOwner(s, uc, email, password, name, city);
      case SignInWithGoogle =>
        assert r == AuthStore.SignInWithGoogle(s, uc);
        OtherActionsKeepOwner(s, uc, "", None);
      case SignOut =>
        assert r == AuthStore.SignOut(s, uc);
        OtherActionsKeepOwner(s, uc, "", None);
      case ResetPassword(email) =>
        assert r == AuthStore.ResetPassword(s, uc, email);
        OtherActionsKeepOwner(s, uc, email, None);
      case UpdateProfile(updates) =>
        assert r == AuthStore.UpdateProfile(s, uc, updates);
        ProfileWritersKeepOwner(s, uc, updates, File(""));
      case UploadAvatar(file) =>
        assert r == AuthStore.UploadAvatar(s, uc, file);
        ProfileWritersKeepOwner(s, uc, ProfilePatch(None, None, None, None, None, None, None, None), file);
      case SetError(error) =>
        assert r == AuthStore.SetError(s, error);
        OtherActionsKeepOwner(s, uc, "", error);
      case ClearError =>
        assert r == AuthStore.ClearError(s);
        OtherActionsKeepOwner(s, uc, "", None);
      case AuthEvent(tag) =>
        assert r == AuthStore.OnAuthEvent(s, tag, input.session, uc);
        EventKeepsOwner(s, tag, input.session, uc);
    }
    assert RunKeepsOwner(r);
    FinalKeepsOwner(s, r);
  }

  /** The state a run leaves behind is one it published, or the old one. */
  lemma FinalKeepsOwner(s: AuthState, r: AuthStore.Run)
    requires ProfileHasOwner(s) && RunKeepsOwner(r)
    ensures ProfileHasOwner(AuthStore.Final(s, r))
  {
    if |r.trace| > 0 {
      assert ProfileHasOwner(r.trace[|r.trace| - 1]);
    }
  }

  lemma {:induction false} ReplayKeepsOwner(s: AuthState, inputs: seq<Input>)
    requires ProfileHasOwner(s)
    ensures ProfileHasOwner(Replay(s, inputs))
    decreases |inputs|
  {
    if |inputs| > 0 {
      DispatchKeepsOwner(s, inputs[0]);
      ReplayKeepsOwner(AuthStore.Final(s, Dispatch(s, inputs[0])), inputs[1..]);
    }
  }

  /** From the initial state, whatever happens, no profile is held without
      a user. */
  lemma OwnerFromInitial(inputs: seq<Input>)
    ensures ProfileHasOwner(Replay(AuthStore.Initial, inputs))
  {
    ReplayKeepsOwner(AuthStore.Initial, inputs);
  }

  /** One step turns `loading` off exactly when the action settles, and
      leaves it alone otherwise. */
  lemma DispatchLoading(s: AuthState, input: Input)
    ensures AuthStore.Final(s, Dispatch(s, input)).loading == (s.loading && !Settles(input.action))
  {
  }

  /** `loading` is on after a sequence exactly when it was on before and no
      action in the sequence settled. */
  lemma {:induction false} ReplayLoading(s: AuthState, inputs: seq<Input>)
    ensures Replay(s, inputs).loading <==>
              (s.loading && forall i :: 0 <= i < |inputs| ==> !Settles(inputs[i].action))
    decreases |inputs|
  {
    if |inputs| > 0 {
      var t := AuthStore.Final(s, Dispatch(s, inputs[0]));
      DispatchLoading(s, inputs[0]);
      ReplayLoading(t, inputs[1..]);
      assert forall i :: 1 <= i < |inputs| ==> inputs[i] == inputs[1..][i - 1];
    }
  }

  /** The stronger pairing `profile.id == user.id` is not kept: a sign-in as
      another user leaves the previous user's profile in place. */
  lemma SignInKeepsForeignProfile(s: AuthState, uc: AuthUseCases.UseCases, email: string, password: string)
    requires s.profile.Some?
    requires uc.signIn(email, password).Success?
    requires uc.signIn(email, password).value.id != s.profile.value.id
    ensures var t := AuthStore.Final(s, AuthStore.SignIn(s, uc, email, password));
            t.user.Some? && t.profile.Some? && t.user.value.id != t.profile.value.id
  {
  }
}
