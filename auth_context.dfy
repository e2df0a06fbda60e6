/**
 * The authentication context: the identity and where it is persisted, login
 * and logout, and the session-liveness monitor that runs while an identity
 * with a token exists (inactivity deadline, throttled keep-alive pings and a
 * periodic, fail-closed status check). Every event carries the clock value
 * `now` in milliseconds; remote calls are recorded, and their results arrive
 * as separate events.
 */
module AuthContext {
  import opened JsText
  import opened Browser

  // ---------------------------------------------------------------------------
  // Identity and its persistence
  // ---------------------------------------------------------------------------

  datatype Identity = Identity(token: string, username: Option<string>, isSuperuser: bool)

  datatype SessionInfo = SessionInfo(expiresAt: string, timeRemaining: int)

  /** `auth?.token` is truthy. */
  predicate HasToken(auth: Option<Identity>) {
    auth.Some? && auth.value.token != ""
  }

  /** The initial `auth` state: read from the durable store only. */
  function InitialAuth(local: Store): (r: Option<Identity>)
    ensures r.Some? <==> HasTruthy(local, AuthTokenKey)
    ensures r.Some? ==> r.value.token == local[AuthTokenKey]
    ensures r.Some? ==> r.value.username == GetItem(local, UsernameKey)
    ensures r.Some? ==> (r.value.isSuperuser <==> GetItem(local, SuperuserKey) == Some("true"))
  {
    if HasTruthy(local, AuthTokenKey) then
      Some(Identity(local[AuthTokenKey], GetItem(local, UsernameKey), GetItem(local, SuperuserKey) == Some("true")))
    else None
  }

  /** `String(b)`, which is what `setItem` stores for a boolean. */
  function BoolString(b: bool): string {
    if b then "true" else "false"
  }

  /** The three `setItem` calls of `login` on one store. */
  function StoreIdentity(store: Store, token: string, username: string, isSuperuser: bool): (r: Store)
    ensures r.Keys == store.Keys + IdentityKeys
    ensures r[AuthTokenKey] == token && r[UsernameKey] == username && r[SuperuserKey] == BoolString(isSuperuser)
    ensures forall k :: k in store && k !in IdentityKeys ==> r[k] == store[k]
  {
    store[AuthTokenKey := token][UsernameKey := username][SuperuserKey := BoolString(isSuperuser)]
  }

  /**
   * A login written to the durable store is exactly what a fresh provider
   * reads back, superuser flag included, provided the token is non-empty.
   */
  lemma RememberedLoginSurvivesReload(store: Store, token: string, username: string, isSuperuser: bool)
    ensures InitialAuth(StoreIdentity(store, token, username, isSuperuser)) ==
      if token != "" then Some(Identity(token, Some(username), isSuperuser)) else None
  {
  }

  // ---------------------------------------------------------------------------
  // The session-liveness timers, as values
  // ---------------------------------------------------------------------------

  /** Inactivity timeout, slightly under the server's 20 s session lifetime. */
  const InactivityTimeout: nat := 19000
  /** Minimum gap, exclusive, between two keep-alive pings. */
  const PingThrottle: nat := 10000
  /** Period of the session-status check. */
  const StatusCheckInterval: nat := 10000

  /** The closure variables of the monitoring effect while an inactivity timeout is pending. */
  datatype Timers = Timers(lastActivity: nat, lastPing: nat, deadline: nat)

  datatype TimerReset = TimerReset(timers: Timers, pinged: bool)

  /** `resetInactivityTimer` at time `now`: maybe ping, then re-arm the timeout. */
  function ResetInactivityTimer(t: Timers, now: nat): (r: TimerReset)
    ensures Consistent(r.timers)
  {
    var pinged := now - t.lastPing > PingThrottle;
    TimerReset(Timers(now, if pinged then now else t.lastPing, now + InactivityTimeout), pinged)
  }

  /** The setup: `lastActivityTime = now`, `lastPingTime = 0`, then one `resetInactivityTimer`. */
  function ArmedTimers(now: nat): (r: TimerReset)
    ensures r.pinged <==> now > PingThrottle
  {
    ResetInactivityTimer(Timers(now, 0, now + InactivityTimeout), now)
  }

  /** The pending timeout fires `InactivityTimeout` after the last activity. */
  predicate Consistent(t: Timers) {
    t.deadline == t.lastActivity + InactivityTimeout
  }

  predicate Expired(t: Timers, now: nat) {
    now >= t.deadline
  }

  /** Any two pings in the list are more than `PingThrottle` apart, in order. */
  predicate PingsSpaced(pings: seq<nat>) {
    forall i, j :: 0 <= i < j < |pings| ==> pings[i] + PingThrottle < pings[j]
  }

  lemma SpacedExtend(pings: seq<nat>, now: nat)
    requires PingsSpaced(pings)
    requires pings != [] ==> pings[|pings| - 1] + PingThrottle < now
    ensures PingsSpaced(pings + [now])
  {
    var ext := pings + [now];
    forall i, j | 0 <= i < j < |ext| ensures ext[i] + PingThrottle < ext[j] {
      if j == |pings| && i < |pings| - 1 {
        assert pings[i] + PingThrottle < pings[|pings| - 1];
      }
    }
  }

  /** Events reaching an armed monitor: user activity, or the inactivity timeout's callback. */
  datatype MonitorEvent = ActivityAt(at: nat) | TimeoutCheckAt(at: nat)

  /** Result of a run: still monitoring or logged out, the timers, and the pings sent. */
  datatype Run = Run(alive: bool, timers: Timers, pings: seq<nat>)

  /** An armed monitor driven by a sequence of events; the first expired check ends the run. */
  function Replay(t: Timers, events: seq<MonitorEvent>): Run
    decreases |events|
  {
    if events == [] then Run(true, t, [])
    else match events[0]
      case ActivityAt(at) =>
        var r := ResetInactivityTimer(t, at);
        var rest := Replay(r.timers, events[1..]);
        Run(rest.alive, rest.timers, (if r.pinged then [at] else []) + rest.pings)
      case TimeoutCheckAt(at) =>
        if Expired(t, at) then Run(false, t, []) else Replay(t, events[1..])
  }

  /** Every event comes less than `InactivityTimeout` after the latest activity. */
  predicate WithinWindow(lastActivity: nat, events: seq<MonitorEvent>)
    decreases |events|
  {
    events == [] ||
    (events[0].at < lastActivity + InactivityTimeout &&
     WithinWindow(if events[0].ActivityAt? then events[0].at else lastActivity, events[1..]))
  }

  /** An active user is never logged out for inactivity. */
  lemma {:induction false} ActiveSessionNeverTimesOut(t: Timers, events: seq<MonitorEvent>)
    requires Consistent(t)
    requires WithinWindow(t.lastActivity, events)
    ensures Replay(t, events).alive
    decreases |events|
  {
    if events != [] {
      match events[0]
      case ActivityAt(at) =>
        ActiveSessionNeverTimesOut(ResetInactivityTimer(t, at).timers, events[1..]);
      case TimeoutCheckAt(at) =>
        ActiveSessionNeverTimesOut(t, events[1..]);
    }
  }

  /** The timers after any run still put the deadline `InactivityTimeout` after the last activity. */
  lemma {:induction false} ReplayConsistent(t: Timers, events: seq<MonitorEvent>)
    requires Consistent(t)
    ensures Consistent(Replay(t, events).timers)
    decreases |events|
  {
    if events != [] {
      match events[0]
      case ActivityAt(at) =>
        ReplayConsistent(ResetInactivityTimer(t, at).timers, events[1..]);
      case TimeoutCheckAt(at) =>
        if !Expired(t, at) {
          ReplayConsistent(t, events[1..]);
        }
    }
  }

  /** A timeout check appended to a live run ends it exactly when the deadline has passed. */
  lemma {:induction false} CheckAfterRun(t: Timers, events: seq<MonitorEvent>, at: nat)
    ensures Replay(t, events + [TimeoutCheckAt(at)]).alive <==>
      Replay(t, events).alive && !Expired(Replay(t, events).timers, at)
    decreases |events|
  {
    if events == [] {
      assert events + [TimeoutCheckAt(at)] == [TimeoutCheckAt(at)];
    } else {
      var tail := events + [TimeoutCheckAt(at)];
      assert tail[0] == events[0] && tail[1..] == events[1..] + [TimeoutCheckAt(at)];
      match events[0]
      case ActivityAt(a) =>
        CheckAfterRun(ResetInactivityTimer(t, a).timers, events[1..], at);
      case TimeoutCheckAt(a) =>
        if !Expired(t, a) {
          CheckAfterRun(t, events[1..], at);
        }
    }
  }

  /**
   * After a live run, a timeout check `InactivityTimeout` or more after the
   * last activity logs out, and an earlier one does not.
   */
  lemma IdleSessionTimesOut(t: Timers, events: seq<MonitorEvent>, at: nat)
    requires Consistent(t)
    requires Replay(t, events).alive
    ensures !Replay(t, events + [TimeoutCheckAt(at)]).alive <==>
      at >= Replay(t, events).timers.lastActivity + InactivityTimeout
  {
    ReplayConsistent(t, events);
    CheckAfterRun(t, events, at);
  }

  /** However frequent the activity, pings are more than `PingThrottle` apart and after the last one before the run. */
  lemma {:induction false} PingsThrottled(t: Timers, events: seq<MonitorEvent>)
    ensures PingsSpaced(Replay(t, events).pings)
    ensures forall i :: 0 <= i < |Replay(t, events).pings| ==> t.lastPing + PingThrottle < Replay(t, events).pings[i]
    decreases |events|
  {
    if events != [] {
      match events[0]
      case ActivityAt(at) =>
        var r := ResetInactivityTimer(t, at);
        PingsThrottled(r.timers, events[1..]);
        var rest := Replay(r.timers, events[1..]).pings;
        var all := (if r.pinged then [at] else []) + rest;
        assert Replay(t, events).pings == all;
        forall i | 0 <= i < |all| ensures t.lastPing + PingThrottle < all[i] {
          if r.pinged && i > 0 { assert all[i] == rest[i - 1]; }
        }
        forall i, j | 0 <= i < j < |all| ensures all[i] + PingThrottle < all[j] {
          if r.pinged {
            assert all[j] == rest[j - 1];
            if i > 0 { assert all[i] == rest[i - 1]; }
          }
        }
      case TimeoutCheckAt(at) =>
        if !Expired(t, at) {
          PingsThrottled(t, events[1..]);
        }
    }
  }

  // ---------------------------------------------------------------------------
  // The provider
  // ---------------------------------------------------------------------------

  /** The response of a keep-alive ping. */
  datatype PingReply = PingOk | PingHttpError(status: int) | PingNoResponse

  /**
   * `AuthProvider`: the `auth` and `sessionInfo` state, the stores in the
   * window, and the monitoring effect's closure variables. `monitoring` is
   * true while the status interval and the activity listeners are installed;
   * `deadline` is the pending inactivity timeout.
   */
  class AuthProvider {
    const window: Window
    var auth: Option<Identity>
    var sessionInfo: Option<SessionInfo>
    var lastActivityTime: nat
    var lastPingTime: nat
    var deadline: Option<nat>
    var monitoring: bool
    var nextStatusCheck: nat
    /** Status checks issued since monitoring was last set up. */
    var statusChecks: nat
    /** Times of the keep-alive pings sent since monitoring was last set up. */
    var pings: seq<nat>
    /** `POST /auth/logout/` calls made. */
    var remoteLogouts: nat

    ghost predicate Valid()
      reads this
    {
      && (monitoring <==> HasToken(auth))
      && (deadline.Some? <==> monitoring)
      && (deadline.Some? ==> deadline.value == lastActivityTime + InactivityTimeout)
      && PingsSpaced(pings)
      && (pings != [] ==> pings[|pings| - 1] == lastPingTime)
    }

    /** The closure variables as a value, while a timeout is pending. */
    function CurrentTimers(): Timers
      reads this
      requires deadline.Some?
    {
      Timers(lastActivityTime, lastPingTime, deadline.value)
    }

    /** The effect of the logout procedure, whatever the remote call did. */
    twostate predicate DidLogout()
      reads this, window
    {
      && auth.None? && sessionInfo.None? && !monitoring && deadline.None?
      && window.localStore == RemoveIdentity(old(window.localStore))
      && window.sessionStore == RemoveIdentity(old(window.sessionStore))
      && window.pathname == LoginPath
      && window.navigations == old(window.navigations) + [LoginPath]
      && remoteLogouts == old(remoteLogouts) + (if HasToken(old(auth)) then 1 else 0)
    }

    /** The provider mounts: `auth` from the durable store, and monitoring if it holds a token. */
    constructor (w: Window, now: nat)
      ensures window == w && unchanged(w)
      ensures auth == InitialAuth(w.localStore) && sessionInfo.None? && remoteLogouts == 0
      ensures Valid()
      ensures monitoring ==> statusChecks == 1 && nextStatusCheck == now + StatusCheckInterval
      ensures monitoring ==> CurrentTimers() == ArmedTimers(now).timers
      ensures monitoring ==> pings == if ArmedTimers(now).pinged then [now] else []
    {
      window := w;
      auth := InitialAuth(w.localStore);
      sessionInfo := None;
      lastActivityTime, lastPingTime, deadline := now, 0, None;
      monitoring, nextStatusCheck, statusChecks := false, 0, 0;
      pings, remoteLogouts := [], 0;
      new;
      if HasToken(auth) {
        StartMonitoring(now);
      }
    }

    /** The monitoring effect's setup: interval and listeners, one status check, one timer reset. */
    method StartMonitoring(now: nat)
      requires HasToken(auth)
      modifies this`lastActivityTime, this`lastPingTime, this`deadline, this`monitoring,
               this`nextStatusCheck, this`statusChecks, this`pings
      ensures Valid()
      ensures statusChecks == 1 && nextStatusCheck == now + StatusCheckInterval
      ensures CurrentTimers() == ArmedTimers(now).timers
      ensures pings == if ArmedTimers(now).pinged then [now] else []
    {
      monitoring := true;
      nextStatusCheck := now + StatusCheckInterval;
      statusChecks := 1;
      var r := ArmedTimers(now);
      lastActivityTime, lastPingTime, deadline := r.timers.lastActivity, r.timers.lastPing, Some(r.timers.deadline);
      pings := if r.pinged then [now] else [];
    }

    /** The effect's cleanup: timeout and interval cleared, listeners removed. */
    method StopMonitoring()
      modifies this`monitoring, this`deadline
      ensures !monitoring && deadline.None?
    {
      monitoring, deadline := false, None;
    }

    /**
     * `login(token, username, isSuperuser, remember)`: the three keys go to the
     * durable store when `remember` is truthy, else to the session store; then
     * `auth` is replaced, which re-runs the monitoring effect.
     */
    method Login(token: string, username: string, isSuperuser: bool, remember: bool, now: nat)
      requires Valid()
      modifies this, window`localStore, window`sessionStore
      ensures Valid()
      ensures remember ==>
        window.localStore == StoreIdentity(old(window.localStore), token, username, isSuperuser)
        && window.sessionStore == old(window.sessionStore)
      ensures !remember ==>
        window.sessionStore == StoreIdentity(old(window.sessionStore), token, username, isSuperuser)
        && window.localStore == old(window.localStore)
      ensures auth == Some(Identity(token, Some(username), isSuperuser))
      ensures sessionInfo == old(sessionInfo) && remoteLogouts == old(remoteLogouts)
      ensures monitoring <==> token != ""
      ensures monitoring ==> statusChecks == 1 && nextStatusCheck == now + StatusCheckInterval
      ensures monitoring ==> CurrentTimers() == ArmedTimers(now).timers
      ensures monitoring ==> pings == if ArmedTimers(now).pinged then [now] else []
      ensures !monitoring ==>
        && lastActivityTime == old(lastActivityTime) && lastPingTime == old(lastPingTime)
        && pings == old(pings) && statusChecks == old(statusChecks) && nextStatusCheck == old(nextStatusCheck)
    {
      if remember {
        window.localStore := StoreIdentity(window.localStore, token, username, isSuperuser);
      } else {
        window.sessionStore := StoreIdentity(window.sessionStore, token, username, isSuperuser);
      }
      auth := Some(Identity(token, Some(username), isSuperuser));
      StopMonitoring();
      if token != "" {
        StartMonitoring(now);
      }
    }

    /**
     * `logout()`: the remote call only when a token exists; whatever it does,
     * both stores lose the identity keys, `auth` and `sessionInfo` become null
     * (tearing the monitor down) and the browser goes to the login page.
     */
    method Logout() returns (calledRemote: bool)
      requires Valid()
      modifies this`auth, this`sessionInfo, this`monitoring, this`deadline, this`remoteLogouts, window
      ensures Valid()
      ensures calledRemote == HasToken(old(auth))
      ensures DidLogout()
    {
      calledRemote := HasToken(auth);
      if calledRemote {
        remoteLogouts := remoteLogouts + 1;
      }
      window.ClearIdentity();
      auth, sessionInfo := None, None;
      StopMonitoring();
      window.Navigate(LoginPath);
    }

    /** An activity event (pointer, key, scroll, touch, click) while the listeners are installed. */
    method Activity(now: nat) returns (pinged: bool)
      requires Valid()
      modifies this`lastActivityTime, this`lastPingTime, this`deadline, this`pings
      ensures Valid()
      ensures !old(monitoring) ==> !pinged && unchanged(this)
      ensures old(monitoring) ==>
        var r := ResetInactivityTimer(old(CurrentTimers()), now);
        && deadline.Some? && CurrentTimers() == r.timers && pinged == r.pinged
        && pings == old(pings) + (if pinged then [now] else [])
      ensures old(monitoring) ==> lastActivityTime == now && deadline == Some(now + InactivityTimeout)
      ensures old(monitoring) ==> (pinged <==> now - old(lastPingTime) > PingThrottle)
    {
      pinged := false;
      if monitoring {
        var r := ResetInactivityTimer(CurrentTimers(), now);
        if r.pinged {
          SpacedExtend(pings, now);
          pings := pings + [now];
        }
        pinged := r.pinged;
        lastActivityTime, lastPingTime, deadline := r.timers.lastActivity, r.timers.lastPing, Some(r.timers.deadline);
      }
    }

    /** The inactivity timeout's callback, if it is due at `now`: logout. */
    method Tick(now: nat) returns (timedOut: bool)
      requires Valid()
      modifies this`auth, this`sessionInfo, this`monitoring, this`deadline, this`remoteLogouts, window
      ensures Valid()
      ensures timedOut <==> old(monitoring) && Expired(old(CurrentTimers()), now)
      ensures timedOut ==> now >= old(lastActivityTime) + InactivityTimeout && DidLogout()
      ensures !timedOut ==> unchanged(this) && unchanged(window)
    {
      timedOut := monitoring && Expired(CurrentTimers(), now);
      if timedOut {
        var _ := Logout();
      }
    }

    /** The status interval's callback, if it is due at `now`: one more status check. */
    method StatusIntervalTick(now: nat) returns (issued: bool)
      requires Valid()
      modifies this`statusChecks, this`nextStatusCheck
      ensures Valid()
      ensures issued <==> old(monitoring) && now >= old(nextStatusCheck)
      ensures issued ==> statusChecks == old(statusChecks) + 1 && nextStatusCheck == old(nextStatusCheck) + StatusCheckInterval
      ensures !issued ==> unchanged(this)
    {
      issued := monitoring && now >= nextStatusCheck;
      if issued {
        statusChecks, nextStatusCheck := statusChecks + 1, nextStatusCheck + StatusCheckInterval;
      }
    }

    /**
     * The outcome of a status check. A failure of any kind logs out; a success
     * replaces `sessionInfo` only when `time_remaining` is truthy (non-zero).
     */
    method StatusResult(ok: bool, timeRemaining: int, expiresAt: string)
      requires Valid()
      modifies this`auth, this`sessionInfo, this`monitoring, this`deadline, this`remoteLogouts, window
      ensures Valid()
      ensures !old(monitoring) ==> unchanged(this) && unchanged(window)
      ensures old(monitoring) && !ok ==> DidLogout()
      ensures old(monitoring) && ok ==>
        && unchanged(window) && auth == old(auth) && monitoring && deadline == old(deadline)
        && remoteLogouts == old(remoteLogouts)
        && sessionInfo == if timeRemaining != 0 then Some(SessionInfo(expiresAt, timeRemaining)) else old(sessionInfo)
    {
      if monitoring {
        if !ok {
          var _ := Logout();
        } else if timeRemaining != 0 {
          sessionInfo := Some(SessionInfo(expiresAt, timeRemaining));
        }
      }
    }

    /** The outcome of a keep-alive ping: only an HTTP 401 logs out. */
    method PingResult(reply: PingReply)
      requires Valid()
      modifies this`auth, this`sessionInfo, this`monitoring, this`deadline, this`remoteLogouts, window
      ensures Valid()
      ensures old(monitoring) && reply == PingHttpError(401) ==> DidLogout()
      ensures !(old(monitoring) && reply == PingHttpError(401)) ==> unchanged(this) && unchanged(window)
    {
      if monitoring && reply == PingHttpError(401) {
        var _ := Logout();
      }
    }
  }

  /** A failed status check logs out at once, however recent the activity. */
  method StatusFailureScenario() returns (loggedOut: bool, storesCleared: bool, atLogin: bool)
    ensures loggedOut && storesCleared && atLogin
  {
    var w := new Window(map[], map[], "/dashboard");
    var p := new AuthProvider(w, 50000);
    p.Login("t0k3n", "alice", false, false, 60000);
    var _ := p.Activity(60500);
    p.StatusResult(false, 0, "");
    loggedOut := p.auth.None? && !p.monitoring;
    storesCleared := AuthTokenKey !in w.localStore && AuthTokenKey !in w.sessionStore;
    atLogin := w.pathname == LoginPath;
  }
}
