/**
 * The login page's submit handler: the one caller of `login`, and where the
 * "remember me" choice reaches the authentication context.
 */
module LoginPage {
  import opened JsText
  import opened Browser
  import opened AuthContext

  /** The reply to `POST /auth/login/`. */
  datatype LoginReply =
    | LoginFailed(error: Option<string>)
    | LoginSucceeded(token: string, isSuperuser: bool, username: string,
                     sessionKey: string, expiresAt: string, expiresIn: int)

  const DashboardPath: string := "/dashboard"
  const AdminDashboardPath: string := "/admin-dashboard"
  const LoginFailedMessage: string := "Login failed. Please check your credentials."

  /** Where the page navigates after a successful login. */
  function LandingRoute(isSuperuser: bool): (path: string)
    ensures path == AdminDashboardPath <==> isSuperuser
    ensures path == DashboardPath <==> !isSuperuser
  {
    if isSuperuser then AdminDashboardPath else DashboardPath
  }

  /** `err.response?.data?.error || 'Login failed. …'`. */
  function LoginErrorMessage(error: Option<string>): (message: string)
    ensures message != ""
    ensures error.Some? && error.value != "" ==> message == error.value
    ensures error.None? || error.value == "" ==> message == LoginFailedMessage
  {
    if error.Some? && error.value != "" then error.value else LoginFailedMessage
  }

  /** The durable store after a login that does or does not ask to be remembered. */
  function DurableAfterLogin(local: Store, token: string, username: string, isSuperuser: bool, remember: bool): Store {
    if remember then StoreIdentity(local, token, username, isSuperuser) else local
  }

  /**
   * A reload restores a login exactly when it was remembered (and carried a
   * token); an unremembered login leaves whatever was restorable before.
   */
  lemma ReloadRestoresOnlyRememberedLogin(local: Store, token: string, username: string, isSuperuser: bool, remember: bool)
    ensures InitialAuth(DurableAfterLogin(local, token, username, isSuperuser, remember)) ==
      if remember && token != "" then Some(Identity(token, Some(username), isSuperuser))
      else if remember then None
      else InitialAuth(local)
  {
    if remember {
      RememberedLoginSurvivesReload(local, token, username, isSuperuser);
    }
  }

  /**
   * `handleSubmit` as written: `login` is called with the session data in the
   * fourth position, which is its `remember` parameter, so the (always truthy)
   * object decides the store and the checkbox is never read.
   */
  method SubmitLoginAsWritten(p: AuthProvider, reply: LoginReply, remember: bool, now: nat)
    returns (error: string, route: Option<string>)
    requires p.Valid()
    modifies p, p.window`localStore, p.window`sessionStore
    ensures p.Valid()
    ensures reply.LoginSucceeded? ==>
      && p.window.localStore == StoreIdentity(old(p.window.localStore), reply.token, reply.username, reply.isSuperuser)
      && p.window.sessionStore == old(p.window.sessionStore)
      && p.auth == Some(Identity(reply.token, Some(reply.username), reply.isSuperuser))
      && error == "" && route == Some(LandingRoute(reply.isSuperuser))
    ensures reply.LoginSucceeded? ==> (p.monitoring <==> reply.token != "")
    ensures reply.LoginSucceeded? && p.monitoring ==>
      p.lastActivityTime == now && p.deadline == Some(now + InactivityTimeout)
    ensures reply.LoginFailed? ==>
      unchanged(p) && unchanged(p.window) && error == LoginErrorMessage(reply.error) && route.None?
  {
    match reply
    case LoginFailed(e) =>
      error, route := LoginErrorMessage(e), None;
    case LoginSucceeded(token, isSuperuser, user, _, _, _) =>
      // the session-data object stands where `remember` is expected
      var sessionDataIsTruthy := true;
      p.Login(token, user, isSuperuser, sessionDataIsTruthy, now);
      error, route := "", Some(LandingRoute(isSuperuser));
  }

  /** `handleSubmit` with the checkbox passed as `remember`. */
  method SubmitLogin(p: AuthProvider, reply: LoginReply, remember: bool, now: nat)
    returns (error: string, route: Option<string>)
    requires p.Valid()
    modifies p, p.window`localStore, p.window`sessionStore
    ensures p.Valid()
    ensures reply.LoginSucceeded? ==>
      && p.window.localStore == DurableAfterLogin(old(p.window.localStore), reply.token, reply.username, reply.isSuperuser, remember)
      && p.window.sessionStore ==
           (if remember then old(p.window.sessionStore)
            else StoreIdentity(old(p.window.sessionStore), reply.token, reply.username, reply.isSuperuser))
      && p.auth == Some(Identity(reply.token, Some(reply.username), reply.isSuperuser))
      && error == "" && route == Some(LandingRoute(reply.isSuperuser))
    ensures reply.LoginSucceeded? ==> (p.monitoring <==> reply.token != "")
    ensures reply.LoginSucceeded? && p.monitoring ==>
      p.lastActivityTime == now && p.deadline == Some(now + InactivityTimeout)
    ensures reply.LoginFailed? ==>
      unchanged(p) && unchanged(p.window) && error == LoginErrorMessage(reply.error) && route.None?
  {
    match reply
    case LoginFailed(e) =>
      error, route := LoginErrorMessage(e), None;
    case LoginSucceeded(token, isSuperuser, user, _, _, _) =>
      p.Login(token, user, isSuperuser, remember, now);
      error, route := "", Some(LandingRoute(isSuperuser));
  }

  /** A successful reply from the login endpoint, for the scenarios below. */
  const SampleReply: LoginReply := LoginSucceeded("t0k3n", false, "operator", "k", "2025-03-15T10:42:37", 20)

  /** As written, a login with the checkbox left unticked is restored after a reload. */
  method UncheckedRememberRestoredAsWritten() returns (restored: bool)
    ensures restored
  {
    var w := new Window(map[], map[], LoginPath);
    var p := new AuthProvider(w, 1000);
    var _, _ := SubmitLoginAsWritten(p, SampleReply, false, 2000);
    RememberedLoginSurvivesReload(map[], "t0k3n", "operator", false);
    var reloaded := new Window(w.localStore, map[], DashboardPath);
    var q := new AuthProvider(reloaded, 3000);
    restored := q.auth.Some?;
  }

  /** With the checkbox passed through, the same unticked login is gone after a reload. */
  method UncheckedRememberForgottenOnReload() returns (restored: bool)
    ensures !restored
  {
    var w := new Window(map[], map[], LoginPath);
    var p := new AuthProvider(w, 1000);
    var _, _ := SubmitLogin(p, SampleReply, false, 2000);
    var reloaded := new Window(w.localStore, map[], DashboardPath);
    var q := new AuthProvider(reloaded, 3000);
    restored := q.auth.Some?;
  }

  /**
   * A session-only login that stays idle for the inactivity timeout is logged
   * out: the identity leaves the session store and the browser is sent to the
   * login page.
   */
  method IdleLogoutScenario() returns (loggedOut: bool, sessionCleared: bool, atLogin: bool)
    ensures loggedOut && sessionCleared && atLogin
  {
    var w := new Window(map[], map[], LoginPath);
    var p := new AuthProvider(w, 0);
    var _, _ := SubmitLogin(p, SampleReply, false, 5000);
    var early := p.Tick(5000 + InactivityTimeout - 1);
    var timedOut := p.Tick(5000 + InactivityTimeout);
    loggedOut := !early && timedOut && p.auth.None?;
    sessionCleared := AuthTokenKey !in w.sessionStore;
    atLogin := w.pathname == LoginPath;
  }
}
