/**
 * The HTTP client wrapper: token injection into every request, the
 * session-expired handling of 401/403 responses, polling for a token before a
 * request, the client IP lookup with its fallbacks, and the classification of
 * that IP against the allow-list.
 */
module Api {
  import opened JsText
  import opened Browser

  // ---------------------------------------------------------------------------
  // Token selection and the request interceptor
  // ---------------------------------------------------------------------------

  /** `localStorage.getItem('authToken') || sessionStorage.getItem('authToken')`, kept only when truthy. */
  function SelectToken(local: Store, session: Store): (r: Option<string>)
    ensures r.Some? <==> HasTruthy(local, AuthTokenKey) || HasTruthy(session, AuthTokenKey)
    ensures r.Some? ==> r.value != ""
    ensures HasTruthy(local, AuthTokenKey) ==> r == Some(local[AuthTokenKey])
    ensures !HasTruthy(local, AuthTokenKey) && HasTruthy(session, AuthTokenKey) ==> r == Some(session[AuthTokenKey])
  {
    if HasTruthy(local, AuthTokenKey) then Some(local[AuthTokenKey])
    else if HasTruthy(session, AuthTokenKey) then Some(session[AuthTokenKey])
    else None
  }

  const AuthorizationHeader: string := "Authorization"

  /** The headers after the request interceptor: `Authorization: Token <token>` when a token exists. */
  function WithAuthorization(headers: map<string, string>, token: Option<string>): (r: map<string, string>)
    ensures token.None? ==> r == headers
    ensures token.Some? ==> AuthorizationHeader in r && r[AuthorizationHeader] == "Token " + token.value
    ensures forall k :: k != AuthorizationHeader ==> (k in r <==> k in headers)
    ensures forall k :: k != AuthorizationHeader && k in r ==> r[k] == headers[k]
  {
    if token.Some? then headers[AuthorizationHeader := "Token " + token.value] else headers
  }

  /** An outgoing axios request configuration. */
  class RequestConfig {
    var url: string
    var headers: map<string, string>

    constructor (u: string, h: map<string, string>)
      ensures url == u && headers == h
    {
      url := u;
      headers := h;
    }
  }

  /** The request interceptor: mutates the configuration's headers and returns the same object. */
  method InterceptRequest(config: RequestConfig, window: Window) returns (out: RequestConfig)
    modifies config`headers
    ensures out == config
    ensures config.headers == WithAuthorization(old(config.headers), SelectToken(window.localStore, window.sessionStore))
  {
    var token := SelectToken(window.localStore, window.sessionStore);
    if token.Some? {
      config.headers := config.headers[AuthorizationHeader := "Token " + token.value];
    }
    out := config;
  }

  // ---------------------------------------------------------------------------
  // The response interceptor
  // ---------------------------------------------------------------------------

  /** The fields of an error body the interceptor looks at; an absent string field is "". */
  datatype ErrorBody = ErrorBody(expired: bool, detail: string, error: string)

  /** An HTTP error response; `data` is `None` when the body is empty (falsy). */
  datatype HttpResponse = HttpResponse(status: int, data: Option<ErrorBody>)

  /** An axios error; `response` is `None` for a transport error. */
  datatype ApiError = ApiError(response: Option<HttpResponse>, message: string)

  predicate IsAuthError(err: ApiError) {
    err.response.Some? && (err.response.value.status == 401 || err.response.value.status == 403)
  }

  /** `isSessionExpired`, restricted to 401/403 responses as the interceptor uses it. */
  predicate IsSessionExpired(err: ApiError) {
    && IsAuthError(err)
    && err.response.value.data.Some?
    && var body := err.response.value.data.value;
       body.expired || body.detail == "Invalid token" || body.error == "Session expired"
  }

  /**
   * The error half of the response interceptor. The error is always rejected
   * unchanged; an expired session clears the six identity entries and
   * redirects to the login page unless it is already showing.
   */
  method InterceptResponseError(err: ApiError, window: Window) returns (rejected: ApiError)
    modifies window
    ensures rejected == err
    ensures IsSessionExpired(err) ==>
      && window.localStore == RemoveIdentity(old(window.localStore))
      && window.sessionStore == RemoveIdentity(old(window.sessionStore))
    ensures !IsSessionExpired(err) ==> unchanged(window)
    ensures window.navigations ==
      old(window.navigations) + (if IsSessionExpired(err) && old(window.pathname) != LoginPath then [LoginPath] else [])
    ensures window.pathname == if IsSessionExpired(err) then LoginPath else old(window.pathname)
  {
    if IsSessionExpired(err) {
      window.ClearIdentity();
      if window.pathname != LoginPath {
        window.Navigate(LoginPath);
      }
    }
    rejected := err;
  }

  // ---------------------------------------------------------------------------
  // waitForAuth
  // ---------------------------------------------------------------------------

  /** What the two stores hold when a check runs. */
  datatype Snapshot = Snapshot(localStore: Store, sessionStore: Store)

  predicate TokenPresent(s: Snapshot) {
    SelectToken(s.localStore, s.sessionStore).Some?
  }

  const DefaultMaxAttempts: nat := 5

  /**
   * `waitForAuth(callback, maxAttempts)`: check for a token, and retry after
   * each failed check while fewer than `maxAttempts` retries were made.
   * `storageAt(i)` is the storage seen by the i-th check (the interval between
   * checks is abstracted away). Returns how often `callback` ran and how many
   * checks were made.
   */
  method WaitForAuth(storageAt: nat -> Snapshot, maxAttempts: nat) returns (callbacks: nat, checks: nat)
    ensures 1 <= checks <= maxAttempts + 1
    ensures callbacks <= 1
    ensures forall i :: 0 <= i < checks - 1 ==> !TokenPresent(storageAt(i))
    ensures callbacks == 1 <==> TokenPresent(storageAt(checks - 1))
    ensures callbacks == 0 ==> checks == maxAttempts + 1
  {
    var attempts := 0;
    callbacks, checks := 0, 0;
    while true
      invariant attempts <= maxAttempts
      invariant checks == attempts
      invariant callbacks == 0
      invariant forall i :: 0 <= i < checks ==> !TokenPresent(storageAt(i))
      decreases maxAttempts - attempts
    {
      checks := checks + 1;
      if TokenPresent(storageAt(checks - 1)) {
        callbacks := 1;
        return;
      } else if attempts < maxAttempts {
        attempts := attempts + 1;
      } else {
        return;
      }
    }
  }

  /** `waitForAuth(callback)` with the default `maxAttempts = 5`: six checks at most. */
  method WaitForAuthDefault(storageAt: nat -> Snapshot) returns (callbacks: nat, checks: nat)
    ensures 1 <= checks <= DefaultMaxAttempts + 1
    ensures callbacks <= 1
    ensures forall i :: 0 <= i < checks - 1 ==> !TokenPresent(storageAt(i))
    ensures callbacks == 1 <==> TokenPresent(storageAt(checks - 1))
    ensures callbacks == 0 ==> checks == 6
  {
    callbacks, checks := WaitForAuth(storageAt, DefaultMaxAttempts);
  }

  // ---------------------------------------------------------------------------
  // getClientIP
  // ---------------------------------------------------------------------------

  /** The IP record; an absent string field is "". */
  datatype IpData = IpData(status: string, ip: string, message: string, source: string)

  /** The server's `/api/client-ip/` call: a failure, or a body (`None` for a null body). */
  datatype ServerIpReply = ServerFailed | ServerReplied(data: Option<IpData>)

  /** The external lookup: a failure, or the `ip` field of its JSON ("" when absent). */
  datatype ExternalIpReply = ExternalFailed | ExternalReplied(ip: string)

  const LoopbackIp: string := "127.0.0.1"

  /** `getClientIP()`: the server, else the external service, else loopback on `localhost`, else an error record. */
  function GetClientIp(server: ServerIpReply, external: ExternalIpReply, hostname: string): (r: Option<IpData>)
    ensures server.ServerReplied? ==> r == server.data
    ensures server.ServerFailed? ==> r.Some?
    ensures server.ServerFailed? && external.ExternalReplied? ==>
      r.value == IpData("success", external.ip, "", "external")
    ensures server.ServerFailed? && external.ExternalFailed? && hostname == "localhost" ==>
      r.value == IpData("success", LoopbackIp, "", "fallback")
    ensures server.ServerFailed? && external.ExternalFailed? && hostname != "localhost" ==>
      r.value == IpData("error", "unknown", "Could not determine IP address", "")
  {
    match server
    case ServerReplied(data) => data
    case ServerFailed =>
      match external
      case ExternalReplied(ip) => Some(IpData("success", ip, "", "external"))
      case ExternalFailed =>
        if hostname == "localhost" then Some(IpData("success", LoopbackIp, "", "fallback"))
        else Some(IpData("error", "unknown", "Could not determine IP address", ""))
  }

  // ---------------------------------------------------------------------------
  // validateClientIP
  // ---------------------------------------------------------------------------

  const AllowedIpPrefixes: seq<string> := ["127.0.0.1", "10.72.177.", "192.168.56.1"]

  datatype PrefixCheck = PrefixCheck(prefix: string, matches: bool)

  /** The `debug` field: absent, the empty object, or the prefixes and per-prefix checks. */
  datatype Debug = NoDebug | EmptyDebug | PrefixDebug(prefixes: seq<string>, checks: seq<PrefixCheck>)

  /** The network status record; `error` is only set by the hook's error path. */
  datatype NetworkStatus = NetworkStatus(
    ip: string, network: string, isAllowed: bool, message: string, checked: bool,
    debug: Debug, error: Option<string>)

  /** `prefixes.map(prefix => ({prefix, matches: ip.startsWith(prefix)}))`. */
  function PrefixChecks(ip: string, prefixes: seq<string>): (r: seq<PrefixCheck>)
    ensures |r| == |prefixes|
    ensures forall i :: 0 <= i < |r| ==> r[i] == PrefixCheck(prefixes[i], StartsWith(ip, prefixes[i]))
  {
    if prefixes == [] then []
    else [PrefixCheck(prefixes[0], StartsWith(ip, prefixes[0]))] + PrefixChecks(ip, prefixes[1..])
  }

  /** `checks.some(result => result.matches)`. */
  predicate AnyMatch(checks: seq<PrefixCheck>) {
    exists i :: 0 <= i < |checks| && checks[i].matches
  }

  /** The allow rule: the IP starts with one of the allowed prefixes. */
  predicate IsAllowedIp(ip: string) {
    exists p :: p in AllowedIpPrefixes && StartsWith(ip, p)
  }

  lemma AnyMatchIsAllowed(ip: string)
    ensures AnyMatch(PrefixChecks(ip, AllowedIpPrefixes)) <==> IsAllowedIp(ip)
  {
    var checks := PrefixChecks(ip, AllowedIpPrefixes);
    if IsAllowedIp(ip) {
      var p :| p in AllowedIpPrefixes && StartsWith(ip, p);
      var i :| 0 <= i < |AllowedIpPrefixes| && AllowedIpPrefixes[i] == p;
      assert checks[i].matches;
    }
  }

  /** The label chain of `validateClientIP`; earlier tests win. */
  function NetworkLabel(ip: string): string {
    if ip == LoopbackIp then "Localhost"
    else if StartsWith(ip, "10.72.177.") then "EMI Network"
    else if StartsWith(ip, "192.168.56.") then "VirtualBox Network"
    else "Unknown Network"
  }

  const AuthorizedMessage: string := "Connected from authorized network"
  const OutsideMessage: string := "Warning: You appear to be connecting from outside the authorized network"

  /** The message of a classified IP: decided by `isAllowed` alone. */
  function AllowMessage(isAllowed: bool): string {
    if isAllowed then AuthorizedMessage else OutsideMessage
  }

  /** The record for a usable IP. */
  function Classify(ip: string): (r: NetworkStatus)
    ensures r.ip == ip && r.checked && r.error.None?
    ensures r.isAllowed <==> IsAllowedIp(ip)
    ensures r.network == NetworkLabel(ip)
    ensures r.message == AllowMessage(r.isAllowed)
    ensures r.debug == PrefixDebug(AllowedIpPrefixes, PrefixChecks(ip, AllowedIpPrefixes))
  {
    var checks := PrefixChecks(ip, AllowedIpPrefixes);
    AnyMatchIsAllowed(ip);
    var allowed := AnyMatch(checks);
    NetworkStatus(ip, NetworkLabel(ip), allowed, AllowMessage(allowed), true,
                  PrefixDebug(AllowedIpPrefixes, checks), None)
  }

  /**
   * `validateClientIP()` given what `getClientIP()` produced. A null record
   * makes reading its `status` throw, which lands in the catch branch.
   */
  function ValidateClientIp(ipData: Option<IpData>, hostname: string): (r: NetworkStatus)
    ensures r.checked
    ensures r.network != ""
    ensures r.isAllowed ==> IsAllowedIp(r.ip)
    ensures ipData.Some? && ipData.value.status == "success" && ipData.value.ip != "" ==>
      r == Classify(ipData.value.ip)
    ensures ipData.Some? && !(ipData.value.status == "success" && ipData.value.ip != "") ==>
      && !r.isAllowed && r.network == "Unknown" && r.debug == NoDebug
      && r.ip == (if ipData.value.ip != "" then ipData.value.ip else "unknown")
      && r.message == (if ipData.value.message != "" then ipData.value.message else "Could not validate IP address")
    ensures ipData.None? ==> r.debug == NoDebug && (r.isAllowed <==> hostname == "localhost")
    ensures ipData.None? && hostname == "localhost" ==>
      r.ip == LoopbackIp && r.network == "Localhost" && r.message == "Development mode - localhost"
    ensures ipData.None? && hostname != "localhost" ==>
      r.ip == "error" && r.network == "Error" && r.message == "Error checking network authorization"
  {
    match ipData
    case Some(d) =>
      if d.status == "success" && d.ip != "" then Classify(d.ip)
      else NetworkStatus(if d.ip != "" then d.ip else "unknown", "Unknown", false,
                         if d.message != "" then d.message else "Could not validate IP address",
                         true, NoDebug, None)
    case None =>
      if hostname == "localhost" then
        assert StartsWith(LoopbackIp, AllowedIpPrefixes[0]);
        NetworkStatus(LoopbackIp, "Localhost", true, "Development mode - localhost", true, NoDebug, None)
      else NetworkStatus("error", "Error", false, "Error checking network authorization", true, NoDebug, None)
  }

  /** An address outside every allowed prefix is never reported allowed (the server answered). */
  lemma NonMatchingIpDenied(d: IpData, hostname: string)
    requires !IsAllowedIp(d.ip)
    ensures !ValidateClientIp(Some(d), hostname).isAllowed
  {
  }

  /** Where the allow rule and the label disagree: full addresses listed as prefixes also admit longer addresses. */
  lemma AllowAndLabelDisagree()
    ensures IsAllowedIp("192.168.56.10") && NetworkLabel("192.168.56.10") == "VirtualBox Network"
    ensures !IsAllowedIp("192.168.56.2") && NetworkLabel("192.168.56.2") == "VirtualBox Network"
    ensures IsAllowedIp("127.0.0.10") && NetworkLabel("127.0.0.10") == "Unknown Network"
  {
    var vbox10, vbox2, lo10 := "192.168.56.10", "192.168.56.2", "127.0.0.10";
    assert vbox10[..12] == AllowedIpPrefixes[2];
    assert AllowedIpPrefixes[2] in AllowedIpPrefixes && StartsWith(vbox10, AllowedIpPrefixes[2]);
    assert vbox10[..11] == "192.168.56.";
    assert vbox10[1] != LoopbackIp[1] && vbox10[1] != "10.72.177."[1];
    assert vbox2[..11] == "192.168.56.";
    assert vbox2[1] != LoopbackIp[1] && vbox2[1] != "10.72.177."[1];
    assert vbox2[1] != "127.0.0.1"[1] && vbox2[1] != "10.72.177."[1] && vbox2[11] != "192.168.56.1"[11];
    assert !IsAllowedIp(vbox2) by {
      forall p | p in AllowedIpPrefixes ensures !StartsWith(vbox2, p) {
        if p == AllowedIpPrefixes[2] {
          assert vbox2[..|p|][11] != p[11];
        } else {
          assert vbox2[..|p|][1] != p[1];
        }
      }
    }
    assert lo10[..9] == AllowedIpPrefixes[0];
    assert AllowedIpPrefixes[0] in AllowedIpPrefixes && StartsWith(lo10, AllowedIpPrefixes[0]);
    assert lo10 != LoopbackIp;
    assert lo10[1] != "10.72.177."[1] && lo10[1] != "192.168.56."[1];
  }

  /** An allowed address is labelled Unknown exactly when it extends "127.0.0.1". */
  lemma AllowedButUnknown(ip: string)
    ensures (IsAllowedIp(ip) && NetworkLabel(ip) == "Unknown Network") <==>
            (StartsWith(ip, LoopbackIp) && ip != LoopbackIp)
  {
    var emi, vbox := "10.72.177.", "192.168.56.";
    assert LoopbackIp[1] == '2' && emi[1] == '0' && vbox[1] == '9';
    if StartsWith(ip, LoopbackIp) {
      StartsWithAt(ip, LoopbackIp, 1);
      assert !StartsWith(ip, emi) by {
        if StartsWith(ip, emi) { StartsWithAt(ip, emi, 1); }
      }
      assert !StartsWith(ip, vbox) by {
        if StartsWith(ip, vbox) { StartsWithAt(ip, vbox, 1); }
      }
    }
    if StartsWith(ip, AllowedIpPrefixes[2]) {
      assert ip[..11] == vbox;
      StartsWithAt(ip, vbox, 1);
      assert ip[1] != LoopbackIp[1];
      assert !StartsWith(ip, emi) by {
        if StartsWith(ip, emi) { StartsWithAt(ip, emi, 1); }
      }
    }
    if StartsWith(ip, emi) {
      StartsWithAt(ip, emi, 1);
      assert ip[1] != LoopbackIp[1];
    }
  }
}
