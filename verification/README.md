# Sign-in session model of the MySillyDreams Android client

The app signs a user in with Google, exchanges the Google ID token for a
Firebase session, and shows one of two screens: a login screen or a home
screen. Apart from layout and SDK calls, its logic comes down to four parts:

- **AuthRepository** (`auth_repository.dfy`, module `Auth`) is the session
  state machine. It holds the published `authState`
  (`Loading | Authenticated | Unauthenticated | Error(message)`) and the
  published `currentUser`. The constructor, the Firebase auth-state listener,
  `signInWithGoogle`, `handleSignInResult` and `signOut` update them.
  - The class `AuthRepository` has these fields and methods. Each method is
    proved equal to a pure step function on a `Session` value
    (`Initial`, `AfterAuthStateChanged`, `AfterSignInStarted`,
    `AfterSignInResult`, `AfterSignOut`). The lemmas are stated over those
    functions.
  - The SDK calls inside `handleSignInResult` become one input,
    `SignInOutcome`: an exception (with or without a message), a missing ID
    token, an exchange without a user, or an exchange returning user `u`.
  - `backendUser` models `FirebaseAuth.currentUser`, which is what
    `getCurrentUser` reads and what the listener reports. The constructor sets
    it from the cached session. A successful exchange sets it to the returned
    user, `auth.signOut()` clears it, and every listener event carries it.
    The published `currentUser` follows it only when the listener fires.
- **AuthViewModel** (`auth_view_model.dfy`, module `ViewModel`) holds the
  `AuthUiState` record (`isLoading`, `errorMessage`) and re-exposes the
  repository's two flows without writing them.
  - The class `AuthViewModel` holds a `const repo` and the `uiState` field.
  - Each launched coroutine is one atomic step that applies the
    repository's `Result`.
- **AppConfig** (`app_config.dfy`, module `Config`) is the start-up guard.
  `validateConfiguration` checks the three BuildConfig credentials in a fixed
  order, collects the names of the empty ones, and fails with a formatted
  message. The getters return the values unchanged.
  - `Validate` is the specification function.
  - `ValidateConfiguration` is the straight-line method, proved equal to it.
- **MainActivity** (`main_activity.dfy`, module `Activity`) covers three
  things: the early return from `onCreate` when validation fails, the
  `when (authState)` that picks a screen, and the effect that shows an error
  message and clears it.

`lifecycle.dfy` (module `Lifecycle`) joins the repository and the view model
into one value. An event is either a view-model operation or a listener call.
The module proves properties of every finite sequence of events. Kotlin's
nullable values and `kotlin.Result` are in `wrappers.dfy`.

Three facts about the code shape the model:
- `handleSignInResult` sets `Authenticated` without writing `currentUser`, so
  the published state and the published user agree only after the listener
  fires. `Auth.AuthenticatedBeforeListener` shows the gap, and
  `Auth.SignInThenListener` shows it closing.
- The code has no check of the credential's type and never discards a stale
  sign-in result. `handleSignInResult` acts from any prior state.
- `signOut` leaves `currentUser` as it is; the listener clears it when the
  backend reports that no user is signed in.

## Model

| member | source | states |
|---|---|---|
| `Auth.StateFor` | app/src/main/java/com/mysillydeams/app/auth/AuthRepository.kt:49-53 | the derived state is Authenticated iff a user is present and Unauthenticated iff none is |
| `Auth.Initial` | app/src/main/java/com/mysillydeams/app/auth/AuthRepository.kt:46-53 | after construction the published user and the backend's user are the cached user, the pair is consistent, and the state is neither Loading nor Error |
| `Auth.AuthRepository.constructor` | app/src/main/java/com/mysillydeams/app/auth/AuthRepository.kt:46-53 | the new repository's state is `Initial(cached)` |
| `Auth.AfterAuthStateChanged` | app/src/main/java/com/mysillydeams/app/auth/AuthRepository.kt:56-64 | after a listener event carrying user `u`, `currentUser == u` and the state is Authenticated iff `u` is non-null, from any prior state |
| `Auth.AuthRepository.OnAuthStateChanged` | app/src/main/java/com/mysillydeams/app/auth/AuthRepository.kt:56-64 | the listener updates the fields as `AfterAuthStateChanged` says |
| `Auth.AfterSignInStarted` | app/src/main/java/com/mysillydeams/app/auth/AuthRepository.kt:71-79 | signInWithGoogle sets Loading from every state and changes neither the published user nor the backend's |
| `Auth.AuthRepository.SignInWithGoogle` | app/src/main/java/com/mysillydeams/app/auth/AuthRepository.kt:71-79 | sets Loading and always returns success, so the catch branch cannot run |
| `Auth.AfterSignInResult` | app/src/main/java/com/mysillydeams/app/auth/AuthRepository.kt:81-107 | never writes `currentUser`; succeeds iff the exchange returned a user and then returns exactly that user with state Authenticated; every failure sets `Error` with the failure's message, or "Authentication failed" when the exception had none |
| `Auth.AuthRepository.HandleSignInResult` | app/src/main/java/com/mysillydeams/app/auth/AuthRepository.kt:81-107 | all four outcomes end in the new state and result `AfterSignInResult` gives; no exception escapes |
| `Auth.SignInResultCases` | app/src/main/java/com/mysillydeams/app/auth/AuthRepository.kt:87-106 | a missing token gives Error("No ID token received") and a failure with that message; a null user gives "Authentication failed"; an exception gives its message or "Authentication failed"; a user gives Authenticated and success with that user |
| `Auth.SignInResultSettles` | app/src/main/java/com/mysillydeams/app/auth/AuthRepository.kt:81-107 | from any prior state, handleSignInResult ends in Authenticated or Error |
| `Auth.AfterSignOut` | app/src/main/java/com/mysillydeams/app/auth/AuthRepository.kt:109-113 | signOut gives Unauthenticated and clears the backend's user, leaving the published user as it was |
| `Auth.AuthRepository.SignOut` | app/src/main/java/com/mysillydeams/app/auth/AuthRepository.kt:109-113 | the fields change as `AfterSignOut` says |
| `Auth.SignOutIdempotent` | app/src/main/java/com/mysillydeams/app/auth/AuthRepository.kt:109-113 | signOut reaches Unauthenticated from any state, and applying it twice equals applying it once |
| `Auth.AuthRepository.GetCurrentUser` | app/src/main/java/com/mysillydeams/app/auth/AuthRepository.kt:115 | returns the backend's user, not the published flow |
| `Auth.AuthenticatedBeforeListener` | app/src/main/java/com/mysillydeams/app/auth/AuthRepository.kt:92-94 | a successful exchange with no user published yields Authenticated with `currentUser` still null, an inconsistent pair |
| `Auth.SignInThenListener` | app/src/main/java/com/mysillydeams/app/auth/AuthRepository.kt:56-64 | once the listener reports the backend's user after a successful exchange, the published user is the returned one and the pair is consistent |
| `Auth.SignOutThenListener` | app/src/main/java/com/mysillydeams/app/auth/AuthRepository.kt:109-113 | once the listener reports after signOut, no user is published and the state is Unauthenticated |
| `ViewModel.UiAfterSignInStarted` | app/src/main/java/com/mysillydeams/app/auth/AuthViewModel.kt:22-37 | the sign-in coroutine leaves `isLoading` set iff the repository succeeded with no error; on failure the message is the exception's or "Sign in failed" |
| `ViewModel.SignInStartedLeavesLoading` | app/src/main/java/com/mysillydeams/app/auth/AuthViewModel.kt:24-29 | since the repository always succeeds, the coroutine leaves `(true, null)` whatever the prior UI state |
| `ViewModel.AuthViewModel.AuthStateFlow` | app/src/main/java/com/mysillydeams/app/auth/AuthViewModel.kt:16 | the view model's `authState` is the repository's state itself; the method rows below say how each operation moves it |
| `ViewModel.AuthViewModel.CurrentUserFlow` | app/src/main/java/com/mysillydeams/app/auth/AuthViewModel.kt:17 | the view model's `currentUser` is the repository's published user itself; no view-model operation writes it |
| `ViewModel.AuthViewModel.SignInWithGoogle` | app/src/main/java/com/mysillydeams/app/auth/AuthViewModel.kt:22-37 | repository moves to Loading, so the `authState` flow reads Loading and the `currentUser` flow is unchanged; UI state becomes `(true, null)` |
| `ViewModel.UiAfterSignInResult` | app/src/main/java/com/mysillydeams/app/auth/AuthViewModel.kt:43-59 | loading always off; the error is null iff the result is a success; on failure the message is the exception's or "Sign in failed" |
| `ViewModel.AuthViewModel.HandleSignInResult` | app/src/main/java/com/mysillydeams/app/auth/AuthViewModel.kt:43-59 | the repository takes its handleSignInResult step and the UI applies the result that step returned; the `currentUser` flow is unchanged and the `authState` flow reads Authenticated iff a user came back, Error otherwise |
| `ViewModel.UiErrorMirrorsRepository` | app/src/main/java/com/mysillydeams/app/auth/AuthViewModel.kt:45-57 | after a sign-in result the UI has an error iff the repository is in Error, with the same message unless the exception had none |
| `ViewModel.MessagesDifferWithoutExceptionMessage` | app/src/main/java/com/mysillydeams/app/auth/AuthViewModel.kt:52-56 | a message-less exception gives state Error("Authentication failed") but UI message "Sign in failed" |
| `ViewModel.AuthViewModel.SignOut` | app/src/main/java/com/mysillydeams/app/auth/AuthViewModel.kt:61-64 | the repository signs out, so the `authState` flow reads Unauthenticated while the `currentUser` flow is unchanged, and the UI state returns to the defaults `(false, null)` from any value |
| `ViewModel.UiAfterClearError` | app/src/main/java/com/mysillydeams/app/auth/AuthViewModel.kt:66-68 | the error becomes null and `isLoading` is kept |
| `ViewModel.AuthViewModel.ClearError` | app/src/main/java/com/mysillydeams/app/auth/AuthViewModel.kt:66-68 | only the view model's UI state changes, as `UiAfterClearError` says; both flows are unchanged |
| `ViewModel.UiAfterSetLoading` | app/src/main/java/com/mysillydeams/app/auth/AuthViewModel.kt:70-72 | only `isLoading` changes |
| `ViewModel.AuthViewModel.SetLoading` | app/src/main/java/com/mysillydeams/app/auth/AuthViewModel.kt:70-72 | only the view model's UI state changes, as `UiAfterSetLoading` says; both flows are unchanged |
| `ViewModel.ClearErrorAndSetLoadingAreLocal` | app/src/main/java/com/mysillydeams/app/auth/AuthViewModel.kt:66-72 | clearError touches only the error and is idempotent; setLoading touches only the flag |
| `ViewModel.AuthViewModel.constructor` | app/src/main/java/com/mysillydeams/app/auth/AuthViewModel.kt:14-20 | a new view model starts from the default UI state over the given repository |
| `Lifecycle.CurrentUserOnlyFromListener` | app/src/main/java/com/mysillydeams/app/auth/AuthRepository.kt:48-64 | after any sequence of operations and listener events, the published user is the one the listener reported last, or the starting one |
| `Lifecycle.UiOperationsKeepSession` | app/src/main/java/com/mysillydeams/app/auth/AuthViewModel.kt:66-72 | clearError and setLoading leave the repository's state untouched |
| `Lifecycle.RunKeepsSpinner` | app/src/main/java/com/mysillydeams/app/auth/AuthViewModel.kt:22-64 | along any trace without setLoading, Loading comes with the spinner on and Error with it off |
| `Lifecycle.StepKeepsSpinner` | app/src/main/java/com/mysillydeams/app/auth/AuthViewModel.kt:22-68 | each event other than setLoading preserves that agreement |
| `Lifecycle.StartSpinnerAgrees` | app/src/main/java/com/mysillydeams/app/auth/AuthViewModel.kt:19 | the agreement holds at start |
| `Lifecycle.RunAppend` | app/src/main/java/com/mysillydeams/app/auth/AuthViewModel.kt:22-72 | running two traces in turn equals running their concatenation; used to split a replay of the activity into its first tap and the rest |
| `Lifecycle.SignOutResetsEverything` | app/src/main/java/com/mysillydeams/app/auth/AuthViewModel.kt:61-64 | signOut from any state gives Unauthenticated and default UI state whatever the prior error, and twice equals once |
| `Lifecycle.SuccessfulSignInScenario` | app/src/main/java/com/mysillydeams/app/auth/AuthRepository.kt:46-98 | with no cached session the state is Unauthenticated; sign-in gives Loading; a returned user gives Authenticated; the listener then publishes that user |
| `Lifecycle.CanceledSignInScenario` | app/src/main/java/com/mysillydeams/app/auth/AuthRepository.kt:103-106 | a failure with message "user-canceled" shows that message in both the state and the UI, and publishes no user |
| `Config.MissingMembers` | app/src/main/java/com/mysillydeams/app/config/AppConfig.kt:16-28 | the collected keys are exactly the checked keys whose value is empty |
| `Config.MissingOrdered` | app/src/main/java/com/mysillydeams/app/config/AppConfig.kt:16-28 | the collected keys keep the order in which they are checked |
| `Config.Validate` | app/src/main/java/com/mysillydeams/app/config/AppConfig.kt:15-36 | passes iff all three values are non-empty; otherwise the missing list is non-empty, holds only key names, holds a key's name iff its value is empty, follows the check order (so no name twice), and the message is built from it |
| `Config.ValidateConfiguration` | app/src/main/java/com/mysillydeams/app/config/AppConfig.kt:15-36 | the three sequential checks and the throw compute `Validate` |
| `Config.BlankValuesPass` | app/src/main/java/com/mysillydeams/app/config/AppConfig.kt:18-27 | only emptiness is checked: blank values pass |
| `Config.OnlyClientIdMissing` | app/src/main/java/com/mysillydeams/app/config/AppConfig.kt:18-34 | a missing web client id alone is reported as exactly ["GOOGLE_WEB_CLIENT_ID"], with the message around it |
| `Config.AllMissing` | app/src/main/java/com/mysillydeams/app/config/AppConfig.kt:18-28 | with all three empty, the list is GOOGLE_WEB_CLIENT_ID, FIREBASE_PROJECT_ID, FIREBASE_API_KEY in that order |
| `Config.MessageListsNames` | app/src/main/java/com/mysillydeams/app/config/AppConfig.kt:31-34 | the message is the fixed opening, then the names joined by ", ", then the fixed closing sentence |
| `Config.JoinAppend` | app/src/main/java/com/mysillydeams/app/config/AppConfig.kt:32 | `joinToString(", ")` as used in the message: a single name joins to itself, and one more name at the end adds the separator and that name |
| `Config.GettersReturnFields` | app/src/main/java/com/mysillydeams/app/config/AppConfig.kt:41-54 | each getter returns its BuildConfig field unchanged, so the three getters together determine the configuration |
| `Config.GetterEmptyIffReported` | app/src/main/java/com/mysillydeams/app/config/AppConfig.kt:15-54 | a getter's value is empty exactly when validation fails and lists that getter's name |
| `Config.PassedGettersNonEmpty` | app/src/main/java/com/mysillydeams/app/config/AppConfig.kt:41-54 | the getters return the configured values, so after validation has passed none of them is empty |
| `Activity.OnCreate` | app/src/main/java/com/mysillydeams/app/MainActivity.kt:35-41 | content is set iff every value is non-empty; otherwise the activity finishes with "Configuration Error: " and the validation message |
| `Activity.Route` | app/src/main/java/com/mysillydeams/app/MainActivity.kt:68-101 | home is shown iff the state is Authenticated, or Loading with a user present; login's loading flag is always `uiState.isLoading`; home receives the published user |
| `Activity.RouteByState` | app/src/main/java/com/mysillydeams/app/MainActivity.kt:68-101 | per state: Authenticated routes home, Unauthenticated and Error route to login, Loading routes on whether a user is present |
| `Activity.ShowPendingError` | app/src/main/java/com/mysillydeams/app/MainActivity.kt:57-62 | a pending error message is shown once, after which it is null; the loading flag is kept |
| `Activity.LoadingShowsSpinner` | app/src/main/java/com/mysillydeams/app/MainActivity.kt:69-75 | on any trace without setLoading, a sign-in in progress with no user shows login with its spinner on |
| `Activity.Dispatch` | app/src/main/java/com/mysillydeams/app/MainActivity.kt:57-98 | each interaction becomes exactly one event: the activity's sign-in tap, sign-out tap and error effect become signInWithGoogle, signOut and clearError; a backend change is the repository's listener, not an activity call, and carries its user to the listener; `SignInIntentResult` carries its outcome to handleSignInResult and stands for the callback the activity is meant to have and lacks; nothing becomes setLoading |
| `Activity.StuckInLoadingAsWritten` | app/src/main/java/com/mysillydeams/app/MainActivity.kt:68-101 | in the activity as written, once sign-in is Loading with no user and the spinner on, no sign-in tap or error effect leaves Loading or login-with-spinner; only the backend's listener can |
| `Activity.FirstTapSticks` | app/src/main/java/com/mysillydeams/app/MainActivity.kt:72-75 | from a fresh start with no cached session, a tap on sign-in followed by any taps and error effects stays in Loading with login-with-spinner |
| `Activity.ReplayKeepsSpinner` | app/src/main/java/com/mysillydeams/app/MainActivity.kt:68-101 | whatever the user and the backend do, Loading keeps the spinner on and Error keeps it off, since the activity never calls setLoading |
| `Activity.SignInResultEndsLoading` | app/src/main/java/com/mysillydeams/app/auth/AuthViewModel.kt:26-29 | once a sign-in result is delivered, Loading and the spinner end from any state, and home shows iff a user was returned |

## Findings

| source | as written | input that shows it | evidently intended | confidence | as-written member | corrected member |
|---|---|---|---|---|---|---|
| app/src/main/java/com/mysillydeams/app/MainActivity.kt:68-101 | the activity never launches the Google sign-in intent and has no activity-result callback, so `handleSignInResult` is never called; tapping "sign in" only sets Loading and the spinner | start with no cached session and tap sign-in: the state stays Loading and the login screen keeps its spinner until some outside backend change fires the listener | the view model's success branch says the result "is handled in the activity result callback": the activity should launch `getGoogleSignInIntent()` and pass the result to `handleSignInResult` | high (not executed) | `Activity.StuckInLoadingAsWritten` | `Activity.SignInResultEndsLoading` |

## Left out

- Firebase and Google Sign-In SDK calls are not modelled as code: `signInWithCredential`, `getSignedInAccountFromIntent`, `GoogleAuthProvider.getCredential`, `googleSignInClient.signOut` and `getGoogleSignInIntent`. They appear only through their outcomes: the `SignInOutcome` input, and the backend user that `signOut` clears and the listener reports. The unused `oneTapClient` is left out too.
- The best-effort `googleSignInClient.signOut()` is not modelled, because its outcome never reaches any state.
- The lazy `googleSignInClient` calls `validateConfiguration` on first access, so `signOut` and `getGoogleSignInIntent` could throw on a bad configuration. This is not modelled. `onCreate` finishes the activity before any of them can run when validation fails.
- Coroutines and `StateFlow` are not modelled: no `viewModelScope.launch`, no `await`, no subscription. Each launched body is one atomic step, and interleavings of concurrent sign-in flows are not modelled.
- Compose layout, toasts, theming, the system UI controller and `HomeScreen.kt`'s display defaults for a null user are not modelled.
- `AuthViewModelFactory` is reflection-based construction glue and is not modelled.
- `AuthViewModel.getGoogleSignInIntent` only forwards to the SDK and is not modelled.
- `isDebug`, `versionName` and `versionCode` are not modelled. They are plain BuildConfig reads that nothing in the core uses.
- The build scripts are not modelled. A `.env` key the file lacks becomes `""`, which is why the three values are arbitrary strings here.
- The model has no runtime equivalent of the exception object. A failure keeps only the exception's nullable message, the one part the code reads.
