/** AuthRepository: the session state machine. It keeps the published
    authentication state and the published current user, and updates them from
    the backend's cached session, from the backend's auth-state listener, and
    from the sign-in and sign-out operations. The identity SDK calls are replaced
    by their outcomes. */
module Auth {
  import opened Wrappers

  /** The signed-in account as the backend reports it. */
  datatype User = User(
    uid: string,
    displayName: Option<string>,
    email: Option<string>,
    photoUrl: Option<string>)

  datatype AuthState = Loading | Authenticated | Unauthenticated | Error(message: string)

  /** What the SDK calls inside handleSignInResult come to: reading the account
      from the sign-in intent and exchanging its ID token with the backend. */
  datatype SignInOutcome =
    | Threw(message: Option<string>)  // one of the calls threw; its message may be null
    | NoIdToken                       // the account carried no ID token
    | NoUser                          // the exchange completed without a user
    | SignedIn(user: User)            // the exchange completed with this user

  const NoIdTokenMessage: string := "No ID token received"
  const AuthFailedMessage: string := "Authentication failed"

  /** The repository's observable state. `backendUser` is the backend SDK's own
      notion of the signed-in user (what `auth.currentUser` reads); the
      published `currentUser` only follows it when the listener fires. */
  datatype Session = Session(authState: AuthState, currentUser: Option<User>, backendUser: Option<User>)

  /** The state the constructor and the listener derive from a user. */
  function StateFor(user: Option<User>): (s: AuthState)
    ensures s == Authenticated <==> user.Some?
    ensures s == Unauthenticated <==> user.None?
  {
    if user.Some? then Authenticated else Unauthenticated
  }

  /** The published pair agrees: Authenticated exactly when a user is published,
      Unauthenticated exactly when none is. */
  predicate Consistent(s: Session)
  {
    s.authState == StateFor(s.currentUser)
  }

  /** Construction, seeded from the backend's cached user. */
  function Initial(cached: Option<User>): (s: Session)
    ensures s.currentUser == cached && s.backendUser == cached
    ensures Consistent(s)
    ensures s.authState != Loading && !s.authState.Error?
  {
    Session(StateFor(cached), cached, cached)
  }

  /** The auth-state listener firing with the backend's current user `user`. */
  function AfterAuthStateChanged(s: Session, user: Option<User>): (t: Session)
    ensures t.currentUser == user && t.backendUser == user
    ensures Consistent(t)
  {
    Session(StateFor(user), user, user)
  }

  /** signInWithGoogle: Loading from every state, and no user changes. */
  function AfterSignInStarted(s: Session): (t: Session)
    ensures t.authState == Loading
    ensures t.currentUser == s.currentUser && t.backendUser == s.backendUser
  {
    s.(authState := Loading)
  }

  /** handleSignInResult: the new session and the returned result. */
  function AfterSignInResult(s: Session, o: SignInOutcome): (out: (Session, Result<User>))
    ensures out.0.currentUser == s.currentUser
    ensures out.1.Success? <==> o.SignedIn?
    ensures o.SignedIn? ==> out.0.authState == Authenticated && out.1.value == o.user
    ensures o.SignedIn? ==> out.0.backendUser == Some(o.user)
    ensures !o.SignedIn? ==> out.0.backendUser == s.backendUser
    ensures !o.SignedIn? ==> out.0.authState == Error(OrElse(out.1.message, AuthFailedMessage))
  {
    match o
    case Threw(msg) => (s.(authState := Error(OrElse(msg, AuthFailedMessage))), Failure(msg))
    case NoIdToken => (s.(authState := Error(NoIdTokenMessage)), Failure(Some(NoIdTokenMessage)))
    case NoUser => (s.(authState := Error(AuthFailedMessage)), Failure(Some(AuthFailedMessage)))
    case SignedIn(u) => (Session(Authenticated, s.currentUser, Some(u)), Success(u))
  }

  /** signOut: the backend drops its session and the state becomes
      Unauthenticated; the published user is left for the listener to clear. */
  function AfterSignOut(s: Session): (t: Session)
    ensures t.authState == Unauthenticated && t.backendUser == None
    ensures t.currentUser == s.currentUser
  {
    Session(Unauthenticated, s.currentUser, None)
  }

  class AuthRepository {
    var authState: AuthState
    var currentUser: Option<User>
    var backendUser: Option<User>

    function Snapshot(): Session
      reads this
    {
      Session(authState, currentUser, backendUser)
    }

    /** Construction: the backend's cached user seeds both published values. */
    constructor (cached: Option<User>)
      ensures Snapshot() == Initial(cached)
    {
      backendUser := cached;
      currentUser := cached;
      authState := if cached.Some? then Authenticated else Unauthenticated;
    }

    /** The auth-state listener, called by the backend with its current user. */
    method OnAuthStateChanged(user: Option<User>)
      modifies this
      ensures Snapshot() == AfterAuthStateChanged(old(Snapshot()), user)
    {
      backendUser := user;
      currentUser := user;
      authState := if user.Some? then Authenticated else Unauthenticated;
    }

    /** signInWithGoogle: nothing inside its try block can throw, so it always
        succeeds and its catch branch never runs. */
    method SignInWithGoogle() returns (r: Result<()>)
      modifies this
      ensures Snapshot() == AfterSignInStarted(old(Snapshot()))
      ensures r == Success(())
    {
      authState := Loading;
      r := Success(());
    }

    /** handleSignInResult with the SDK calls replaced by their outcome `o`. Every
        exception is caught; none leaves the method. */
    method HandleSignInResult(o: SignInOutcome) returns (r: Result<User>)
      modifies this
      ensures (Snapshot(), r) == AfterSignInResult(old(Snapshot()), o)
    {
      match o {
        case Threw(msg) =>
          authState := Error(OrElse(msg, AuthFailedMessage));
          r := Failure(msg);
        case NoIdToken =>
          authState := Error(NoIdTokenMessage);
          r := Failure(Some(NoIdTokenMessage));
        case NoUser =>
          authState := Error(AuthFailedMessage);
          r := Failure(Some(AuthFailedMessage));
        case SignedIn(u) =>
          backendUser := Some(u);
          authState := Authenticated;
          r := Success(u);
      }
    }

    /** signOut: signs the backend out and sets Unauthenticated. */
    method SignOut()
      modifies this
      ensures Snapshot() == AfterSignOut(old(Snapshot()))
    {
      backendUser := None;
      authState := Unauthenticated;
    }

    /** getCurrentUser reads the backend, not the published flow. */
    method GetCurrentUser() returns (u: Option<User>)
      ensures u == backendUser
    {
      u := backendUser;
    }
  }

  /** The three failure messages of handleSignInResult, and the success case. */
  lemma SignInResultCases(s: Session, msg: Option<string>, u: User)
    ensures AfterSignInResult(s, NoIdToken).0.authState == Error("No ID token received")
    ensures AfterSignInResult(s, NoIdToken).1 == Failure(Some("No ID token received"))
    ensures AfterSignInResult(s, NoUser).0.authState == Error("Authentication failed")
    ensures AfterSignInResult(s, NoUser).1 == Failure(Some("Authentication failed"))
    ensures AfterSignInResult(s, Threw(msg)).0.authState == Error(OrElse(msg, "Authentication failed"))
    ensures AfterSignInResult(s, Threw(msg)).1 == Failure(msg)
    ensures AfterSignInResult(s, SignedIn(u)).0.authState == Authenticated
    ensures AfterSignInResult(s, SignedIn(u)).1 == Success(u)
  {
  }

  /** handleSignInResult never ends in Loading or Unauthenticated, whatever the
      prior state: it is not guarded by the state it starts from. */
  lemma SignInResultSettles(s: Session, o: SignInOutcome)
    ensures AfterSignInResult(s, o).0.authState == Authenticated || AfterSignInResult(s, o).0.authState.Error?
  {
  }

  /** signOut reaches Unauthenticated from every state, and a second signOut
      changes nothing. */
  lemma SignOutIdempotent(s: Session)
    ensures AfterSignOut(s).authState == Unauthenticated
    ensures AfterSignOut(AfterSignOut(s)) == AfterSignOut(s)
  {
  }

  /** Authenticated need not come with a published user: a sign-in that succeeds
      from a session without one publishes Authenticated while currentUser stays
      null, until the listener reports the backend's user. */
  lemma AuthenticatedBeforeListener(s: Session, u: User)
    requires s.currentUser.None?
    ensures AfterSignInResult(s, SignedIn(u)).0.authState == Authenticated
    ensures AfterSignInResult(s, SignedIn(u)).0.currentUser.None?
    ensures !Consistent(AfterSignInResult(s, SignedIn(u)).0)
  {
  }

  /** When the backend's listener catches up after a successful sign-in, the
      published user is the one the exchange returned, and the pair agrees. */
  lemma SignInThenListener(s: Session, u: User)
    ensures var t := AfterSignInResult(s, SignedIn(u)).0;
      var w := AfterAuthStateChanged(t, t.backendUser);
      w.authState == Authenticated && w.currentUser == Some(u) && Consistent(w)
  {
  }

  /** When the listener catches up after signOut, no user is published. */
  lemma SignOutThenListener(s: Session)
    ensures var t := AfterSignOut(s);
      var w := AfterAuthStateChanged(t, t.backendUser);
      w.authState == Unauthenticated && w.currentUser.None? && Consistent(w)
  {
  }
}
