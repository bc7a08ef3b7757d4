/** The app-wide authentication state kept by `AuthProvider`: the signed-in
    user and a loading flag, overwritten by the initial session check, by every
    auth-change notification and by sign-out. */
module AuthContext {
  import opened Common

  /** The provider's two state cells. */
  datatype AuthState = AuthState(user: Option<User>, isLoading: bool) {
    /** The derived `isAuthenticated: !!user`. */
    predicate IsAuthenticated() {
      user.Some?
    }
  }

  /** The values the provider's state cells start with. */
  const Initial: AuthState := AuthState(None, true)

  /** What `getSession()` resolves to: a possibly absent session, or an error. */
  datatype SessionResponse = SessionOk(session: Option<Session>) | SessionErr(message: string)

  /** One atomic change of the provider's state. Each awaited completion is
      its own event; the events may arrive in any order. */
  datatype AuthEvent =
    | CheckStarted                                // `checkUser` begins
    | SessionChecked(response: SessionResponse)   // `getSession()` resolved
    | AuthChanged(session: Option<Session>)       // the auth listener fired
    | SignOutStarted                              // `signOut` begins
    | SignOutSettled(remoteError: Option<string>) // the remote sign-out settled

  /** The provider's reaction to one event: starting a remote call only sets
      loading; every completion sets the user it carries and clears it. */
  function Step(s: AuthState, e: AuthEvent): (t: AuthState)
    ensures t.isLoading <==> e.CheckStarted? || e.SignOutStarted?
    ensures e.CheckStarted? || e.SignOutStarted? ==> t.user == s.user
    ensures e.SignOutSettled? || (e.SessionChecked? && e.response.SessionErr?) ==> t.user == None
    ensures e.AuthChanged? ==> (t.user.Some? <==> e.session.Some?)
    ensures e.AuthChanged? && e.session.Some? ==> t.user == Some(e.session.value.user)
  {
    match e
    case CheckStarted => s.(isLoading := true)
    case SessionChecked(r) =>
      if r.SessionErr? then AuthState(None, false)
      else if r.session.Some? then AuthState(Some(r.session.value.user), false)
      else AuthState(None, false)
    case AuthChanged(session) =>
      AuthState(if session.Some? then Some(session.value.user) else None, false)
    case SignOutStarted => s.(isLoading := true)
    case SignOutSettled(_) => AuthState(None, false)
  }

  /** The state after applying `events` in order, starting from `s`. */
  function Replay(s: AuthState, events: seq<AuthEvent>): AuthState
    decreases |events|
  {
    if events == [] then s else Replay(Step(s, events[0]), events[1..])
  }

  /** Whether an event overwrites `user`, and with what: `Some(u)` when it
      writes `u`, `None` when it leaves `user` alone. */
  function UserWrite(e: AuthEvent): Option<Option<User>>
  {
    match e
    case SessionChecked(SessionOk(Some(session))) => Some(Some(session.user))
    case SessionChecked(_) => Some(None)
    case AuthChanged(Some(session)) => Some(Some(session.user))
    case AuthChanged(None) => Some(None)
    case SignOutSettled(_) => Some(None)
    case _ => None
  }

  /** Events that leave the provider waiting on a remote call. */
  predicate StartsWaiting(e: AuthEvent)
  {
    e.CheckStarted? || e.SignOutStarted?
  }

  /** The user written by the last event of `events` that writes one, or
      `current` when none does. */
  function LastWrittenUser(current: Option<User>, events: seq<AuthEvent>): Option<User>
    decreases |events|
  {
    if events == [] then current
    else
      var last := events[|events| - 1];
      if UserWrite(last).Some? then UserWrite(last).value
      else LastWrittenUser(current, events[..|events| - 1])
  }

  lemma StepUser(s: AuthState, e: AuthEvent)
    ensures Step(s, e).user == if UserWrite(e).Some? then UserWrite(e).value else s.user
    ensures Step(s, e).isLoading == StartsWaiting(e)
  {
  }

  lemma {:induction false} ReplaySnoc(s: AuthState, events: seq<AuthEvent>, e: AuthEvent)
    ensures Replay(s, events + [e]) == Step(Replay(s, events), e)
    decreases |events|
  {
    if events == [] {
      assert [] + [e] == [e];
      assert [e][1..] == [];
    } else {
      assert (events + [e])[0] == events[0];
      assert (events + [e])[1..] == events[1..] + [e];
      ReplaySnoc(Step(s, events[0]), events[1..], e);
    }
  }

  /** No sequencing between the session check and the notifications: after
      any sequence of events, `user` is whatever the last user-writing event
      wrote, whichever kind of event that was. */
  lemma {:induction false} LastWriterWins(s: AuthState, events: seq<AuthEvent>)
    ensures Replay(s, events).user == LastWrittenUser(s.user, events)
    decreases |events|
  {
    if events != [] {
      var init, last := events[..|events| - 1], events[|events| - 1];
      assert events == init + [last];
      ReplaySnoc(s, init, last);
      LastWriterWins(s, init);
      StepUser(Replay(s, init), last);
    }
  }

  /** `isLoading` is true after a sequence of events exactly when its last
      event started a remote call: every completion clears it. */
  lemma LoadingFollowsLastEvent(s: AuthState, events: seq<AuthEvent>)
    requires events != []
    ensures Replay(s, events).isLoading <==> StartsWaiting(events[|events| - 1])
  {
    var init, last := events[..|events| - 1], events[|events| - 1];
    assert events == init + [last];
    ReplaySnoc(s, init, last);
    StepUser(Replay(s, init), last);
  }

  /** A completion (session check, notification, settled sign-out) sets the
      whole state regardless of what it was before, and leaves the provider
      not loading. */
  lemma CompletionForgetsPriorState(s1: AuthState, s2: AuthState, e: AuthEvent)
    requires !StartsWaiting(e)
    ensures Step(s1, e) == Step(s2, e)
    ensures !Step(s1, e).isLoading
  {
  }

  /** Sign-out ends signed out whatever the remote call reported. */
  lemma SignOutIgnoresRemote(s: AuthState, r1: Option<string>, r2: Option<string>)
    ensures Step(s, SignOutSettled(r1)) == Step(s, SignOutSettled(r2))
    ensures Step(s, SignOutSettled(r1)) == AuthState(None, false)
    ensures !Step(s, SignOutSettled(r1)).IsAuthenticated()
  {
  }

  /** The hazard the code leaves open: a session check that resolves after a
      newer sign-in notification overwrites it. */
  lemma StaleCheckOverwritesNotification(u: User)
    ensures Replay(Initial, [CheckStarted, AuthChanged(Some(Session(u))), SessionChecked(SessionOk(None))])
            == AuthState(None, false)
    ensures Replay(Initial, [CheckStarted, SessionChecked(SessionOk(None)), AuthChanged(Some(Session(u)))])
            == AuthState(Some(u), false)
  {
    var e1 := [CheckStarted, AuthChanged(Some(Session(u))), SessionChecked(SessionOk(None))];
    var e2 := [CheckStarted, SessionChecked(SessionOk(None)), AuthChanged(Some(Session(u)))];
    LastWriterWins(Initial, e1);
    LastWriterWins(Initial, e2);
    LoadingFollowsLastEvent(Initial, e1);
    LoadingFollowsLastEvent(Initial, e2);
  }

  /** `AuthProvider`: the two state cells and the auth-change subscription. */
  class AuthProvider {
    var user: Option<User>
    var isLoading: bool
    /** The auth-change listener is registered with the auth provider. */
    var subscribed: bool

    function State(): AuthState
      reads this
    {
      AuthState(user, isLoading)
    }

    /** The context's `isAuthenticated`, recomputed from `user` on every read. */
    function IsAuthenticated(): (b: bool)
      reads this
      ensures b <==> user != None
    {
      State().IsAuthenticated()
    }

    /** The state cells before the mount effect runs. */
    constructor ()
      ensures State() == Initial && !IsAuthenticated()
      ensures !subscribed
    {
      user := None;
      isLoading := true;
      subscribed := false;
    }

    /** The mount effect: `checkUser` starts (its synchronous part sets
        `isLoading`) and the auth-change listener is registered. */
    method Mount()
      modifies this`isLoading, this`subscribed
      ensures State() == Step(old(State()), CheckStarted)
      ensures subscribed
    {
      isLoading := true;
      subscribed := true;
    }

    /** `checkUser` after `getSession()` resolved. */
    method CheckUserResolved(response: SessionResponse)
      modifies this`user, this`isLoading
      ensures State() == Step(old(State()), SessionChecked(response))
    {
      if response.SessionErr? {
        user := None;
      } else if response.session.Some? {
        user := Some(response.session.value.user);
      } else {
        user := None;
      }
      isLoading := false;
    }

    /** The auth-change listener. The auth provider delivers notifications
        only to a registered listener. */
    method OnAuthStateChange(session: Option<Session>)
      modifies this`user, this`isLoading
      ensures old(subscribed) ==> State() == Step(old(State()), AuthChanged(session))
      ensures !old(subscribed) ==> State() == old(State())
    {
      if subscribed {
        if session.Some? {
          user := Some(session.value.user);
        } else {
          user := None;
        }
        isLoading := false;
      }
    }

    /** `signOut` up to the awaited remote sign-out. */
    method SignOut()
      modifies this`isLoading
      ensures State() == Step(old(State()), SignOutStarted)
    {
      isLoading := true;
    }

    /** `signOut` after the remote sign-out settled; its result is never
        inspected. Returns where the app navigates. */
    method SignOutCompleted(remoteError: Option<string>) returns (nav: Target)
      modifies this`user, this`isLoading
      ensures State() == Step(old(State()), SignOutSettled(remoteError))
      ensures nav == Path("/")
    {
      user := None;
      isLoading := false;
      nav := Path("/");
    }

    /** The effect's cleanup: the listener is unsubscribed. Calling it again
        changes nothing. */
    method Unmount()
      modifies this`subscribed
      ensures !subscribed
    {
      subscribed := false;
    }
  }
}
