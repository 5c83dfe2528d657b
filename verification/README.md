# Auth state container of the pet-finder front-end, in Dafny

This project models the client-side authentication subsystem of the
pet-finder web front-end as pure functions. The subsystem has three layers:

- **State container** (`AuthStore`): holds `user`, `profile`, `session`,
  `loading` and `error` and exposes ten actions plus an auth-event listener.
  Each action is a function from the current state to a `Run`: the states the
  container publishes on each `set`, in order, and how the action's promise
  settles (`Ok` or the thrown value rethrown).
- **Use cases** (`AuthUseCases`): a pass-through object with eight operations.
- **Repository** (`SupabaseAuthRepository`): turns the backend SDK's
  `{data, error}` answers into a thrown error or a domain record, and builds
  the avatar storage path. The SDK is an oracle record (`Sdk`) that gives the
  response to every request, so the table, bucket, column and arguments sent
  are part of the contracts.

Remote calls are never performed. Each call is the value it settles to:
`Outcome.Success(v)` or `Outcome.Failure(thrown)`, where a thrown value is an
`Error` with a message (`Err`) or any other value (`NonError`). The clock
reading `Date.now()` is a `nat` parameter. A `File` is its name.

Modules: `Outcomes` (optional values, thrown values, outcomes), `Entities`
(`User.ts` records), `AuthRepository` (the interface), `JsText` (`split`,
`join`, `pop`, decimal text of integers), `SupabaseAuthRepository`,
`AuthUseCases`, `AuthStore`, `StoreInvariants` (sequences of actions) and
`Stack` (the three layers composed over one SDK).

One might expect `profile.id == user.id` whenever both are present. The
code does not keep this: `signIn` and `signUp` replace the
user and leave the profile alone, and `initialize` keeps the old profile when
the profile fetch fails. The model follows the code.
`StoreInvariants.SignInKeepsForeignProfile` exhibits the break. The weaker
pairing "a profile is only held next to a user" does hold across every
sequence of actions (`StoreInvariants.ReplayKeepsOwner`).

## Model

| member | source | states |
|---|---|---|
| `Outcomes.ErrorText` | src/infrastructure/stores/authStore.ts:69 | the text stored in `error` is the thrown `Error`'s message, or the action's fallback text for a non-`Error` value |
| `Entities.Identity` | src/infrastructure/repositories/SupabaseAuthRepository.ts:23-27 | the `User` kept by the client carries the remote user's id, email and creation time, as both the repository and the store's `initialize` project them |
| `SupabaseAuthRepository.UserResult` | src/infrastructure/repositories/SupabaseAuthRepository.ts:21-28 | an error in the error slot wins; then a missing user fails with "No user returned"; success happens exactly when there is no error and a user, and yields the user's `{id, email, created_at}` |
| `SupabaseAuthRepository.RowResult` | src/infrastructure/repositories/SupabaseAuthRepository.ts:84-87 | an error wins; then a missing row fails with "Profile not found"; success happens exactly when there is no error and a row, and yields the row unchanged |
| `SupabaseAuthRepository.VoidResult` | src/infrastructure/repositories/SupabaseAuthRepository.ts:64-67 | a void call succeeds exactly when its error slot is empty, and otherwise fails with that error |
| `SupabaseAuthRepository.SignIn` | src/infrastructure/repositories/SupabaseAuthRepository.ts:15-29 | sends `{email, password}` as given; the SDK error fails the call; no user fails with "No user returned"; otherwise the result is the identity projection of `data.user` |
| `SupabaseAuthRepository.SignUp` | src/infrastructure/repositories/SupabaseAuthRepository.ts:31-51 | sends email and password as given, with name and city as user metadata, and normalises the answer the same way as sign-in |
| `SupabaseAuthRepository.SignInWithGoogle` | src/infrastructure/repositories/SupabaseAuthRepository.ts:53-62 | asks for the `google` provider and succeeds exactly when the error slot is empty |
| `SupabaseAuthRepository.SignOut` | src/infrastructure/repositories/SupabaseAuthRepository.ts:64-67 | succeeds exactly when the sign-out error slot is empty, and otherwise fails with that error |
| `SupabaseAuthRepository.ResetPassword` | src/infrastructure/repositories/SupabaseAuthRepository.ts:69-75 | sends the email as given and succeeds exactly when the error slot is empty |
| `SupabaseAuthRepository.GetProfile` | src/infrastructure/repositories/SupabaseAuthRepository.ts:77-88 | queries `profiles`, all columns, `id` equal to the user id; an error fails; no row fails with "Profile not found"; otherwise returns the row unchanged |
| `SupabaseAuthRepository.UpdateProfile` | src/infrastructure/repositories/SupabaseAuthRepository.ts:90-102 | sends the partial update unchanged to the `profiles` row whose `id` is the user id, and normalises the answer like `GetProfile` |
| `SupabaseAuthRepository.FileExtension` | src/infrastructure/repositories/SupabaseAuthRepository.ts:105 | the extension has no '.', and it is either the whole file name or what follows the name's last '.' |
| `SupabaseAuthRepository.FileExtensionIsLastDotPiece` | src/infrastructure/repositories/SupabaseAuthRepository.ts:105 | any '.'-free string that is the whole name or follows a final '.' is the extension, so the description fixes it uniquely |
| `SupabaseAuthRepository.AvatarPath` | src/infrastructure/repositories/SupabaseAuthRepository.ts:106-107 | the object path lies under the `avatars/` folder |
| `SupabaseAuthRepository.AvatarPathParsesBack` | src/infrastructure/repositories/SupabaseAuthRepository.ts:105-107 | the path's text after its last '.' is the file's extension, and what precedes that '.' ends, after its last '-', in the decimal text of the clock reading |
| `SupabaseAuthRepository.AvatarPathLayout` | src/infrastructure/repositories/SupabaseAuthRepository.ts:106-107 | after `avatars/` comes the user id itself, then '-'; the length is exactly that of `avatars/`, the id, '-', the clock digits, '.' and the extension, so with the read-back of the extension and digits the path is fixed completely |
| `SupabaseAuthRepository.AvatarPathInjective` | src/infrastructure/repositories/SupabaseAuthRepository.ts:106-107 | equal paths come from the same user id, the same clock reading and the same extension, so different users never share a storage path |
| `SupabaseAuthRepository.UploadAvatar` | src/infrastructure/repositories/SupabaseAuthRepository.ts:104-120 | uploads to the `avatars` bucket at the built path; an upload error fails the call; otherwise the result is the public URL derived for that same path, unchanged |
| `SupabaseAuthRepository.UploadFailureIgnoresPublicUrl` | src/infrastructure/repositories/SupabaseAuthRepository.ts:109-119 | after a failed upload no public URL is derived: the result does not depend on the URL derivation at all |
| `SupabaseAuthRepository.SignUpForwardsArguments` | src/infrastructure/repositories/SupabaseAuthRepository.ts:31-41 | sign-up's result is decided by the SDK's answer to the single request carrying the four arguments unchanged |
| `SupabaseAuthRepository.GetSession` | src/infrastructure/repositories/SupabaseAuthRepository.ts:122-125 | always succeeds, with the session slot of the SDK's answer, present or absent |
| `SupabaseAuthRepository.GetSessionIgnoresError` | src/infrastructure/repositories/SupabaseAuthRepository.ts:123 | only `data.session` is read: answers that differ only in their error slot give the same result, and an error with no session reads as signed out rather than as a failure |
| `SupabaseAuthRepository.Repository` | src/infrastructure/repositories/SupabaseAuthRepository.ts:14-125 | every operation of the repository object is answered by the matching SDK-level function, with the clock reading fixed for the avatar path |
| `JsText.Split` | src/infrastructure/repositories/SupabaseAuthRepository.ts:105 | `split` yields at least one piece, and no piece contains the separator |
| `JsText.JoinSplit` | src/infrastructure/repositories/SupabaseAuthRepository.ts:105 | joining the pieces of `split` with the separator gives back the original text |
| `JsText.SplitJoin` | src/infrastructure/repositories/SupabaseAuthRepository.ts:105 | separator-free pieces survive a join followed by a split |
| `JsText.LastPiece` | src/infrastructure/repositories/SupabaseAuthRepository.ts:105 | `pop` of `split` is a separator-free suffix that is the whole text or follows a separator |
| `JsText.Decimal` | src/infrastructure/repositories/SupabaseAuthRepository.ts:106 | the text of the clock reading in the template literal is a non-empty run of decimal digits with no leading zero |
| `JsText.DecimalRoundTrip` | src/infrastructure/repositories/SupabaseAuthRepository.ts:106 | the decimal text a template literal gives the clock reading reads back as the same number |
| `AuthUseCases.Of` | src/domain/usecases/auth/AuthUseCases.ts:4-38 | each of the eight use cases equals the same-named repository operation on the same arguments, so results and failures pass through unchanged |
| `AuthStore.Initialize` | src/infrastructure/stores/authStore.ts:33-61 | bookended and never rethrows; the session is stored; a session with a user stores that user's identity and, best-effort, the fetched profile; a failed profile fetch keeps the old profile with `error` empty; a session without a user leaves user and profile alone; a failed session fetch keeps all three and shows its message, or "Error initializing auth" for a non-`Error` value |
| `AuthStore.InitializeAsWritten` | src/infrastructure/stores/authStore.ts:37-59 | calling the missing use case throws; user, profile and session are unchanged, `error` holds the thrown message and `loading` ends off |
| `AuthStore.InitializeAsWrittenIsFailedFetch` | src/infrastructure/stores/authStore.ts:37-59 | the code as written behaves exactly like the corrected `initialize` meeting a session fetch that throws the same `Error`, so every result about failed fetches, events and action sequences covers it too |
| `AuthStore.InitializeAsWrittenLosesSession` | src/infrastructure/stores/authStore.ts:37-57 | from the initial state the code as written never stores a session or user, where the corrected `initialize` stores both |
| `AuthStore.SignIn` | src/infrastructure/stores/authStore.ts:63-74 | bookended; success stores the returned user with `error` empty and profile and session unchanged; failure rethrows, shows the message or "Error signing in", and keeps user, profile and session |
| `AuthStore.SignUp` | src/infrastructure/stores/authStore.ts:76-87 | as sign-in, with "Error signing up" as the fallback text |
| `AuthStore.SignInWithGoogle` | src/infrastructure/stores/authStore.ts:89-99 | bookended; success changes nothing but the bookends; failure rethrows, shows the message or "Error signing in with Google", and keeps user, profile and session |
| `AuthStore.SignOut` | src/infrastructure/stores/authStore.ts:101-112 | bookended; no published state has only some of user, profile and session cleared; success clears all three; failure clears none and rethrows |
| `AuthStore.ResetPassword` | src/infrastructure/stores/authStore.ts:114-124 | bookended; success changes nothing but the bookends; failure rethrows with "Error resetting password" as the fallback text |
| `AuthStore.UpdateProfile` | src/infrastructure/stores/authStore.ts:126-140 | with no user it fails with "No user logged in", shown in `error`, and `loading` ends off; with a user it sends that user's id and the update, and stores the returned profile or fails keeping all three fields |
| `AuthStore.UploadAvatar` | src/infrastructure/stores/authStore.ts:142-159 | with no user it fails with "No user logged in"; on success only `profile.avatar_url` changes, to the returned URL, and an absent profile stays absent |
| `AuthStore.NoUserNoCall` | src/infrastructure/stores/authStore.ts:126-146 | without a user, profile update and avatar upload make no use-case call: any two use-case objects give the same run |
| `AuthStore.SetError` | src/infrastructure/stores/authStore.ts:161 | one synchronous publish that sets `error` and leaves every other field alone |
| `AuthStore.ClearError` | src/infrastructure/stores/authStore.ts:162 | one publish that empties `error` and changes nothing else |
| `AuthStore.ClearErrorUndoesSetError` | src/infrastructure/stores/authStore.ts:161-162 | clearing after setting an error gives the same state as clearing directly |
| `AuthStore.OnAuthEvent` | src/infrastructure/stores/authStore.ts:166-180 | `SIGNED_IN` and `TOKEN_REFRESHED` re-run `initialize`; `SIGNED_OUT` publishes exactly the signed-out state in one update; any other tag publishes nothing |
| `AuthStore.SignOutMatchesSignedOutEvent` | src/infrastructure/stores/authStore.ts:101-112 | a successful sign-out and the `SIGNED_OUT` event leave the same state |
| `StoreInvariants.DispatchKeepsOwner` | src/infrastructure/stores/authStore.ts:33-180 | no state published by any action or event holds a profile without a user, provided the state before did not |
| `StoreInvariants.ReplayKeepsOwner` | src/infrastructure/stores/authStore.ts:33-180 | over any sequence of actions and events, a profile is never held without a user |
| `StoreInvariants.OwnerFromInitial` | src/infrastructure/stores/authStore.ts:26-30 | starting from the initial state, whatever happens, no profile is held without a user |
| `StoreInvariants.DispatchLoading` | src/infrastructure/stores/authStore.ts:58-59 | one action turns `loading` off exactly when it is an asynchronous action or a handled event, and otherwise leaves it as it was |
| `StoreInvariants.ReplayLoading` | src/infrastructure/stores/authStore.ts:33-180 | after a sequence `loading` is on exactly when it was on before and no action in the sequence settled |
| `StoreInvariants.SignInKeepsForeignProfile` | src/infrastructure/stores/authStore.ts:63-74 | a sign-in as a different user leaves a profile whose id differs from the user's id |
| `Stack.Backend` | src/infrastructure/stores/authStore.ts:21-22 | the container's use-case object is the use cases over the Supabase repository: each of its eight operations is the SDK-level repository function on the same arguments |
| `Stack.SignInEndToEnd` | src/infrastructure/repositories/SupabaseAuthRepository.ts:15-29 | through all three layers the SDK user's identity lands in the store; an SDK error shows its message, or "Error signing in" for a non-`Error` value; no user and no error shows "No user returned" |
| `Stack.InitializeEndToEnd` | src/infrastructure/stores/authStore.ts:33-61 | a signed-in session whose profile row exists gives exactly user, profile, session, `loading` off and `error` empty |
| `Stack.InitializeMissingProfile` | src/infrastructure/stores/authStore.ts:48-54 | a missing profile row during initialization is swallowed: user stored, profile unchanged, `error` empty |
| `Stack.UpdateProfileEndToEnd` | src/infrastructure/repositories/SupabaseAuthRepository.ts:90-102 | the update goes to the signed-in user's row of `profiles` and the returned row is stored |
| `Stack.UploadAvatarEndToEnd` | src/infrastructure/stores/authStore.ts:142-159 | the stored profile differs only in `avatar_url`, which is the public URL of the path built from the user id, the clock reading and the file's extension |

## Findings

| source | as written | input that shows it | evidently intended | confidence | as-written member | corrected member |
|---|---|---|---|---|---|---|
| src/infrastructure/stores/authStore.ts:37 | `initialize` calls `authUseCases.getSession()`, but the use-case object (src/domain/usecases/auth/AuthUseCases.ts:4-38) has no such operation, so the call throws a `TypeError`, the outer catch shows its text in `error`, and no session or user is ever stored | any call of `initialize`, including those made on `SIGNED_IN` and `TOKEN_REFRESHED` | fetch the session through the repository's `getSession` and store it | high that the operation is missing; not executed | `AuthStore.InitializeAsWritten`, exhibited by `AuthStore.InitializeAsWrittenLosesSession` and tied to the failed-fetch case by `AuthStore.InitializeAsWrittenIsFailedFetch` | `AuthStore.Initialize`, wired to the repository's `getSession` in `Stack.InitializeEndToEnd` |

## Left out

- UI components, form validation and routing: these are rendering and library wiring.
- The query-library hooks: they are bindings owned by the library, and they do not agree with the container. They read a `getProfile` the container does not have, and they use the void results of `updateProfile` and `uploadAvatar` as values.
- Client construction and the environment-variable check: these are configuration.
- The OAuth and password-reset redirect URLs built from `window.location`: they come from the browser environment.
- The listener's subscribe/unsubscribe lifetime: only the handler's effect on the state is modelled. The session argument of the event is ignored by the handler, as in the code.
- Overlapping actions racing on `loading`, `error` or `profile`: every action is atomic here. The code does not guard against races.
- `console.error` when the profile fetch fails during `initialize`: logging has no effect on the state.
- `Entities.Identity`: `email!` is a non-null assertion, and an SDK user without an email would store an undefined email. The model types email as a string.
- `SupabaseAuthRepository.RowResult`: `data as Profile` is an unchecked cast. The model assumes the row has the `Profile` shape.
- `JsText.Decimal`: JavaScript writes integers of 10^21 and above in exponent notation. Clock readings never get that large, so only the plain-digit form is modelled.
- The `Profile` type in `src/lib/supabase.ts` is an older copy without `updated_at`. The model uses the domain `Profile`.
- The test scaffolding for the unrelated pets API.
