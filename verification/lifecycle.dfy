/** The repository and the view model together, driven by sequences of events:
    the view model's operations and the backend's listener. Each event is one
    atomic step, in the order given. */
module Lifecycle {
  import opened Wrappers
  import opened Auth
  import opened ViewModel

  datatype App = App(session: Session, ui: AuthUiState)

  datatype Event =
    | SignIn                               // AuthViewModel.signInWithGoogle
    | SignInResult(outcome: SignInOutcome) // AuthViewModel.handleSignInResult
    | SignOut                              // AuthViewModel.signOut
    | ClearError                           // AuthViewModel.clearError
    | SetLoading(isLoading: bool)          // AuthViewModel.setLoading
    | AuthChanged(user: Option<User>)      // the backend's auth-state listener

  /** A freshly built view model over a fresh repository. */
  function Start(cached: Option<User>): App
  {
    App(Initial(cached), DefaultUi)
  }

  function Step(a: App, e: Event): App
  {
    match e
    case SignIn =>
      App(AfterSignInStarted(a.session), UiAfterSignInStarted(a.ui, Success(())))
    case SignInResult(o) =>
      var (t, r) := AfterSignInResult(a.session, o);
      App(t, UiAfterSignInResult(a.ui, r))
    case SignOut => App(AfterSignOut(a.session), DefaultUi)
    case ClearError => a.(ui := UiAfterClearError(a.ui))
    case SetLoading(b) => a.(ui := UiAfterSetLoading(a.ui, b))
    case AuthChanged(u) => a.(session := AfterAuthStateChanged(a.session, u))
  }

  function Run(a: App, evs: seq<Event>): App
    decreases evs
  {
    if evs == [] then a else Run(Step(a, evs[0]), evs[1..])
  }

  /** The user the listener reported last in `evs`, or `d` if it never fired. */
  function LastReported(evs: seq<Event>, d: Option<User>): Option<User>
  {
    if evs == [] then d
    else LastReported(evs[1..], if evs[0].AuthChanged? then evs[0].user else d)
  }

  /** Running two traces one after the other is running their concatenation. */
  lemma {:induction false} RunAppend(a: App, xs: seq<Event>, ys: seq<Event>)
    ensures Run(a, xs + ys) == Run(Run(a, xs), ys)
    decreases xs
  {
    if xs == [] {
      assert xs + ys == ys;
    } else {
      assert (xs + ys)[0] == xs[0];
      assert (xs + ys)[1..] == xs[1..] + ys;
      RunAppend(Step(a, xs[0]), xs[1..], ys);
    }
  }

  /** Only the listener writes the published user: after any trace it is the
      user the listener reported last, or the one the trace started with. */
  lemma {:induction false} CurrentUserOnlyFromListener(a: App, evs: seq<Event>)
    ensures Run(a, evs).session.currentUser == LastReported(evs, a.session.currentUser)
    decreases evs
  {
    if evs != [] {
      var b := Step(a, evs[0]);
      assert b.session.currentUser == (if evs[0].AuthChanged? then evs[0].user else a.session.currentUser);
      CurrentUserOnlyFromListener(b, evs[1..]);
    }
  }

  /** clearError and setLoading leave the repository's state untouched. */
  lemma UiOperationsKeepSession(a: App, b: bool)
    ensures Step(a, ClearError).session == a.session
    ensures Step(a, SetLoading(b)).session == a.session
  {
  }

  /** The loading flag agrees with the repository's state: Loading comes with
      the spinner on, Error with the spinner off. */
  predicate SpinnerAgrees(a: App)
  {
    && (a.session.authState == Loading ==> a.ui.isLoading)
    && (a.session.authState.Error? ==> !a.ui.isLoading)
  }

  lemma StartSpinnerAgrees(cached: Option<User>)
    ensures SpinnerAgrees(Start(cached))
  {
  }

  /** Every event but setLoading keeps SpinnerAgrees. */
  lemma StepKeepsSpinner(a: App, e: Event)
    requires SpinnerAgrees(a) && !e.SetLoading?
    ensures SpinnerAgrees(Step(a, e))
  {
  }

  /** No operation the screens use calls setLoading, so along any such trace
      the loading flag keeps agreeing with the repository's state. */
  lemma {:induction false} RunKeepsSpinner(a: App, evs: seq<Event>)
    requires SpinnerAgrees(a)
    requires forall i :: 0 <= i < |evs| ==> !evs[i].SetLoading?
    ensures SpinnerAgrees(Run(a, evs))
    decreases evs
  {
    if evs != [] {
      StepKeepsSpinner(a, evs[0]);
      RunKeepsSpinner(Step(a, evs[0]), evs[1..]);
    }
  }

  /** signOut from any state: Unauthenticated and the default UI state,
      whatever error was shown; a second signOut changes nothing. */
  lemma SignOutResetsEverything(a: App)
    ensures Step(a, SignOut).session.authState == Unauthenticated
    ensures Step(a, SignOut).ui == DefaultUi
    ensures Step(Step(a, SignOut), SignOut) == Step(a, SignOut)
  {
  }

  /** Starting without a cached session, signing in and receiving user `u`
      from the exchange: Loading, then Authenticated with `u` returned; the
      published user appears once the listener reports the backend's user. */
  lemma SuccessfulSignInScenario(u: User)
    ensures Start(None).session.authState == Unauthenticated && Start(None).session.currentUser.None?
    ensures Step(Start(None), SignIn).session.authState == Loading
    ensures var a := Step(Step(Start(None), SignIn), SignInResult(SignedIn(u)));
      && a.session.authState == Authenticated
      && a.session.currentUser.None?
      && a.ui == DefaultUi
      && Step(a, AuthChanged(a.session.backendUser)).session.currentUser == Some(u)
      && Step(a, AuthChanged(a.session.backendUser)).session.authState == Authenticated
  {
  }

  /** A sign-in that fails with message "user-canceled": the state and the UI
      both carry that message and no user is published. */
  lemma CanceledSignInScenario()
    ensures var a := Step(Step(Start(None), SignIn), SignInResult(Threw(Some("user-canceled"))));
      && a.session.authState == Error("user-canceled")
      && a.session.currentUser.None?
      && a.ui == AuthUiState(false, Some("user-canceled"))
  {
  }
}
