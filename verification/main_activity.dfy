/** MainActivity: the start-up guard, the choice of screen from the published
    state, and the effect that shows and then clears an error message. */
module Activity {
  import opened Wrappers
  import opened Config
  import opened Auth
  import opened ViewModel
  import opened Lifecycle

  /** The screen the activity shows, with the arguments the routing decides:
      the login screen's loading flag, the home screen's user. */
  datatype Screen = Login(isLoading: bool) | Home(user: Option<User>)

  /** The `when (authState)` that picks a screen. */
  function Route(state: AuthState, user: Option<User>, ui: AuthUiState): (s: Screen)
    ensures s.Home? <==> state == Authenticated || (state == Loading && user.Some?)
    ensures s.Login? ==> s.isLoading == ui.isLoading
    ensures s.Home? ==> s.user == user
  {
    match state
    case Loading => if user.None? then Login(ui.isLoading) else Home(user)
    case Authenticated => Home(user)
    case Unauthenticated => Login(ui.isLoading)
    case Error(_) => Login(ui.isLoading)
  }

  /** What onCreate ends with: finishing after a configuration error toast, or
      setting the content. */
  datatype Launch = Finished(toast: string) | ContentSet

  /** onCreate's guard: the content is set only when validation passes. */
  function OnCreate(c: BuildConfig): (l: Launch)
    ensures l.ContentSet? <==> forall k: Key :: Get(c, k) != ""
    ensures l.Finished? ==> Validate(c).Failed? && l.toast == "Configuration Error: " + Validate(c).message
  {
    match Validate(c)
    case Passed => ContentSet
    case Failed(_, message) => Finished("Configuration Error: " + message)
  }

  /** The error effect: a non-null message is shown once and then cleared. */
  method ShowPendingError(vm: AuthViewModel) returns (toast: Option<string>)
    modifies vm
    ensures toast == old(vm.uiState.errorMessage)
    ensures vm.uiState.errorMessage.None?
    ensures vm.uiState.isLoading == old(vm.uiState.isLoading)
  {
    toast := vm.uiState.errorMessage;
    if toast.Some? {
      vm.ClearError();
    }
  }

  /** Each state's screen: Authenticated shows home, Unauthenticated and Error
      show login, and Loading keeps home only while a user is published. */
  lemma RouteByState(user: Option<User>, ui: AuthUiState, msg: string)
    ensures Route(Authenticated, user, ui) == Home(user)
    ensures Route(Unauthenticated, user, ui) == Login(ui.isLoading)
    ensures Route(Error(msg), user, ui) == Login(ui.isLoading)
    ensures Route(Loading, None, ui) == Login(ui.isLoading)
    ensures user.Some? ==> Route(Loading, user, ui) == Home(user)
  {
  }

  /** On any trace that does not call setLoading, a sign-in in progress without a
      published user shows the login screen with its spinner on. */
  lemma LoadingShowsSpinner(cached: Option<User>, evs: seq<Event>)
    requires forall i :: 0 <= i < |evs| ==> !evs[i].SetLoading?
    ensures var a := Run(Start(cached), evs);
      a.session.authState == Loading && a.session.currentUser.None? ==>
        Route(a.session.authState, a.session.currentUser, a.ui) == Login(true)
  {
    StartSpinnerAgrees(cached);
    RunKeepsSpinner(Start(cached), evs);
  }

  /** What the user and the backend can do while the activity runs. */
  datatype Interaction =
    | TapSignIn                              // the login screen's button
    | TapSignOut                             // the home screen's button
    | ErrorShown                             // the error effect ran
    | BackendChanged(user: Option<User>)     // the backend's listener fired
    | SignInIntentResult(outcome: SignInOutcome) // the Google sign-in screen returned

  /** The event each interaction becomes: the two taps and the error effect are
      the activity's calls into the view model, a backend change is the
      repository's listener, and a sign-in screen result is the
      handleSignInResult call that the activity as written never makes. */
  function Dispatch(i: Interaction): (e: Event)
    ensures i.TapSignIn? ==> e == SignIn
    ensures i.TapSignOut? ==> e == SignOut
    ensures i.ErrorShown? ==> e == ClearError
    ensures i.BackendChanged? ==> e == AuthChanged(i.user)
    ensures i.SignInIntentResult? ==> e == SignInResult(i.outcome)
    ensures !e.SetLoading?
  {
    match i
    case TapSignIn => SignIn
    case TapSignOut => SignOut
    case ErrorShown => ClearError
    case BackendChanged(u) => AuthChanged(u)
    case SignInIntentResult(o) => SignInResult(o)
  }

  /** The events a sequence of interactions becomes; none of them is setLoading. */
  function Events(xs: seq<Interaction>): (evs: seq<Event>)
    ensures |evs| == |xs|
    ensures forall i :: 0 <= i < |xs| ==> evs[i] == Dispatch(xs[i])
    ensures forall i :: 0 <= i < |evs| ==> !evs[i].SetLoading?
  {
    if xs == [] then [] else [Dispatch(xs[0])] + Events(xs[1..])
  }

  /** The app after a sequence of interactions. */
  function Replay(a: App, xs: seq<Interaction>): App
  {
    Run(a, Events(xs))
  }

  /** Whatever the user and the backend do, the spinner keeps agreeing with
      the repository's state. */
  lemma ReplayKeepsSpinner(a: App, xs: seq<Interaction>)
    requires SpinnerAgrees(a)
    ensures SpinnerAgrees(Replay(a, xs))
  {
    RunKeepsSpinner(a, Events(xs));
  }

  /** The activity as written launches no sign-in intent and has no result
      callback, so SignInIntentResult never happens; it only signs out from the
      home screen. After a tap on sign-in with no published user, nothing it can
      do moves the state out of Loading: only the backend's listener can. */
  predicate ReachableAsWritten(i: Interaction)
  {
    i.TapSignIn? || i.ErrorShown?
  }

  lemma {:induction false} StuckInLoadingAsWritten(a: App, xs: seq<Interaction>)
    requires a.session.authState == Loading && a.session.currentUser.None? && a.ui.isLoading
    requires forall k :: 0 <= k < |xs| ==> ReachableAsWritten(xs[k])
    ensures Replay(a, xs).session.authState == Loading
    ensures Route(Replay(a, xs).session.authState, Replay(a, xs).session.currentUser, Replay(a, xs).ui) == Login(true)
    decreases xs
  {
    if xs != [] {
      var evs := Events(xs);
      assert evs[0] == Dispatch(xs[0]);
      assert evs[1..] == Events(xs[1..]);
      StuckInLoadingAsWritten(Step(a, Dispatch(xs[0])), xs[1..]);
    }
  }

  /** The first tap on sign-in from a fresh start without a cached session
      reaches that stuck state, whatever the activity does afterwards. */
  lemma FirstTapSticks(xs: seq<Interaction>)
    requires forall k :: 0 <= k < |xs| ==> ReachableAsWritten(xs[k])
    ensures var b := Replay(Start(None), [TapSignIn] + xs);
      b.session.authState == Loading && Route(b.session.authState, b.session.currentUser, b.ui) == Login(true)
  {
    var a := Start(None);
    assert Events([TapSignIn] + xs) == [SignIn] + Events(xs) by {
      assert ([TapSignIn] + xs)[1..] == xs;
    }
    RunAppend(a, [SignIn], Events(xs));
    assert Run(a, [SignIn]) == Step(a, SignIn) by {
      assert [SignIn][1..] == [];
    }
    StuckInLoadingAsWritten(Step(a, SignIn), xs);
  }

  /** With the sign-in result delivered to handleSignInResult, as the view
      model's success branch expects, the spinner stops from any state, and
      the screen is home exactly when the exchange returned a user. */
  lemma SignInResultEndsLoading(a: App, o: SignInOutcome)
    ensures var b := Step(a, Dispatch(SignInIntentResult(o)));
      && b.session.authState != Loading
      && !b.ui.isLoading
      && (Route(b.session.authState, b.session.currentUser, b.ui).Home? <==> o.SignedIn?)
  {
  }
}
