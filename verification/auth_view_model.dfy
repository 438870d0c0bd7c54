/** AuthViewModel: the presentation-facing projection. It re-exposes the
    repository's state and user and keeps its own UI state (a loading flag and
    an error message). Each coroutine it launches is one atomic step. */
module ViewModel {
  import opened Wrappers
  import opened Auth

  datatype AuthUiState = AuthUiState(isLoading: bool, errorMessage: Option<string>)

  /** `AuthUiState()`: not loading, no error. */
  const DefaultUi: AuthUiState := AuthUiState(false, None)

  const SignInFailedMessage: string := "Sign in failed"

  /** signInWithGoogle's coroutine: first loading with no error, then the
      repository's result `r` is applied. */
  function UiAfterSignInStarted(ui: AuthUiState, r: Result<()>): (u: AuthUiState)
    ensures u.isLoading <==> r.Success?
    ensures r.Success? ==> u.errorMessage.None?
    ensures r.Failure? ==> u.errorMessage == Some(OrElse(r.message, SignInFailedMessage))
  {
    var started := ui.(isLoading := true, errorMessage := None);
    match r
    case Success(_) => started
    case Failure(msg) => started.(isLoading := false, errorMessage := Some(OrElse(msg, SignInFailedMessage)))
  }

  /** handleSignInResult's coroutine, applied to the repository's result `r`. */
  function UiAfterSignInResult(ui: AuthUiState, r: Result<User>): (u: AuthUiState)
    ensures !u.isLoading
    ensures u.errorMessage.None? <==> r.Success?
    ensures r.Failure? ==> u.errorMessage == Some(OrElse(r.message, SignInFailedMessage))
  {
    match r
    case Success(_) => ui.(isLoading := false, errorMessage := None)
    case Failure(msg) => ui.(isLoading := false, errorMessage := Some(OrElse(msg, SignInFailedMessage)))
  }

  function UiAfterClearError(ui: AuthUiState): (u: AuthUiState)
    ensures u.errorMessage.None? && u.isLoading == ui.isLoading
  {
    ui.(errorMessage := None)
  }

  function UiAfterSetLoading(ui: AuthUiState, b: bool): (u: AuthUiState)
    ensures u.isLoading == b && u.errorMessage == ui.errorMessage
  {
    ui.(isLoading := b)
  }

  class AuthViewModel {
    const repo: AuthRepository
    var uiState: AuthUiState

    constructor (repo: AuthRepository)
      ensures this.repo == repo && uiState == DefaultUi
    {
      this.repo := repo;
      uiState := DefaultUi;
    }

    /** The `authState` flow: the repository's, re-exposed, never written here. */
    function AuthStateFlow(): (s: AuthState)
      reads repo
      ensures s == repo.Snapshot().authState
    {
      repo.authState
    }

    /** The `currentUser` flow: the repository's, re-exposed, never written here. */
    function CurrentUserFlow(): (u: Option<User>)
      reads repo
      ensures u == repo.Snapshot().currentUser
    {
      repo.currentUser
    }

    /** The coroutine's first write does not depend on the repository call, so
        the two writes are applied together once the result is known. */
    method SignInWithGoogle()
      modifies this, repo
      ensures repo.Snapshot() == AfterSignInStarted(old(repo.Snapshot()))
      ensures AuthStateFlow() == Loading && CurrentUserFlow() == old(CurrentUserFlow())
      ensures uiState == AuthUiState(true, None)
    {
      var r := repo.SignInWithGoogle();
      uiState := UiAfterSignInStarted(uiState, r);
    }

    method HandleSignInResult(o: SignInOutcome)
      modifies this, repo
      ensures repo.Snapshot() == AfterSignInResult(old(repo.Snapshot()), o).0
      ensures CurrentUserFlow() == old(CurrentUserFlow())
      ensures AuthStateFlow() == Authenticated <==> o.SignedIn?
      ensures AuthStateFlow() != Authenticated ==> AuthStateFlow().Error?
      ensures uiState == UiAfterSignInResult(old(uiState), AfterSignInResult(old(repo.Snapshot()), o).1)
    {
      var r := repo.HandleSignInResult(o);
      match r {
        case Success(_) =>
          uiState := uiState.(isLoading := false, errorMessage := None);
        case Failure(msg) =>
          uiState := uiState.(isLoading := false, errorMessage := Some(OrElse(msg, SignInFailedMessage)));
      }
    }

    method SignOut()
      modifies this, repo
      ensures repo.Snapshot() == AfterSignOut(old(repo.Snapshot()))
      ensures AuthStateFlow() == Unauthenticated && CurrentUserFlow() == old(CurrentUserFlow())
      ensures uiState == DefaultUi
    {
      repo.SignOut();
      uiState := AuthUiState(false, None);
    }

    method ClearError()
      modifies this
      ensures uiState == UiAfterClearError(old(uiState))
      ensures AuthStateFlow() == old(AuthStateFlow()) && CurrentUserFlow() == old(CurrentUserFlow())
    {
      uiState := uiState.(errorMessage := None);
    }

    method SetLoading(isLoading: bool)
      modifies this
      ensures uiState == UiAfterSetLoading(old(uiState), isLoading)
      ensures AuthStateFlow() == old(AuthStateFlow()) && CurrentUserFlow() == old(CurrentUserFlow())
    {
      uiState := uiState.(isLoading := isLoading);
    }
  }

  /** The repository's signInWithGoogle always succeeds, so the coroutine leaves
      the UI loading with no error, whatever it held before. */
  lemma SignInStartedLeavesLoading(ui: AuthUiState)
    ensures UiAfterSignInStarted(ui, Success(())) == AuthUiState(true, None)
  {
  }

  /** After handleSignInResult, the UI shows an error exactly when the repository
      is in Error, and shows that state's own message unless the exception had
      none. */
  lemma UiErrorMirrorsRepository(s: Session, ui: AuthUiState, o: SignInOutcome)
    ensures var (t, r) := AfterSignInResult(s, o);
      var u := UiAfterSignInResult(ui, r);
      && (u.errorMessage.Some? <==> t.authState.Error?)
      && (o != Threw(None) && t.authState.Error? ==> u.errorMessage == Some(t.authState.message))
  {
  }

  /** A caught exception without a message: the repository says
      "Authentication failed" while the UI says "Sign in failed". */
  lemma MessagesDifferWithoutExceptionMessage(s: Session, ui: AuthUiState)
    ensures var (t, r) := AfterSignInResult(s, Threw(None));
      && t.authState == Error("Authentication failed")
      && UiAfterSignInResult(ui, r).errorMessage == Some("Sign in failed")
  {
  }

  /** clearError and setLoading each change one field only. */
  lemma ClearErrorAndSetLoadingAreLocal(ui: AuthUiState, b: bool)
    ensures UiAfterClearError(ui) == AuthUiState(ui.isLoading, None)
    ensures UiAfterSetLoading(ui, b) == AuthUiState(b, ui.errorMessage)
    ensures UiAfterClearError(UiAfterClearError(ui)) == UiAfterClearError(ui)
  {
  }
}
