/** The session logic of the biometric sign-up / log-in page, stated on values.

    The page keeps two kinds of state: the browser's `localStorage` (a durable
    key-value store, here `Store`) and three React state fields (`email`,
    `status`, `isLoggedIn`). Every handler of the page is a transition of the
    pair. The outside world (the WebAuthn ceremony, the HTTP API, the UUID
    generator and the clock) enters as parameters. The class `App.AppFlask`
    performs these transitions step by step; this module says what each one
    computes and proves what follows from it. */
module Session {

  // ---------------------------------------------------------------------------
  // Storage keys, constants and status messages

  const DeviceIdKey := "deviceId"
  const AuthTokenKey := "authToken"
  const UserEmailKey := "userEmail"

  /** The placeholder token written on a successful login. */
  const DemoToken := "demo-token"

  /** Lifetime of a registration, in seconds (24 hours). */
  const ExpirySeconds := 86400

  const EnterEmailFirst := "Enter your email first."
  const Registering := "Registering..."
  const RegistrationSuccessful := "Registration successful!"
  const ErrorPrefix := "Error: "
  const RegistrationFailedPrefix := "Registration failed: "
  const LoginSuccessful := "Login successful!"
  const LoginFailedPrefix := "Login failed: "
  const LoggedOutMessage := "Logged out"

  // ---------------------------------------------------------------------------
  // Data model

  /** `localStorage`: string keys to string values. */
  type Store = map<string, string>

  /** A value of `crypto.randomUUID()`: always 36 characters, never empty. */
  type Uuid = s: string | |s| == 36 witness "00000000-0000-0000-0000-000000000000"

  datatype Option<T> = None | Some(value: T)

  /** Outcome of the WebAuthn `navigator.credentials.create` call: it resolves,
      or it rejects with an error carrying a message. */
  datatype Ceremony = Success | Fail(message: string)

  /** Outcome of one `apiCall`: a decoded JSON body whose `success` (for
      register-device) or `valid` (for verify-token) field is `flag` and whose
      optional `error` field is `error`; or a thrown error (network or JSON). */
  datatype ApiResult = Resp(flag: bool, error: Option<string>) | Throw(message: string)

  /** The JSON payload the page posts to the API. */
  datatype ApiRequest =
    | RegisterDevice(deviceId: string, email: string, expires: int)
    | VerifyToken(deviceId: string, email: string)

  /** The whole observable state of the page: storage plus the React state. */
  datatype State = State(store: Store, email: string, status: string, loggedIn: bool)

  /** Result of `getDeviceId`: the id returned and the store afterwards. */
  datatype Issued = Issued(id: string, store: Store)

  /** Result of a handler: the new state and the request posted, if any. */
  datatype Outcome = Outcome(state: State, sent: Option<ApiRequest>)

  // ---------------------------------------------------------------------------
  // Reading the store with JavaScript truthiness

  /** `localStorage.getItem(k)`: `null` when the key is absent. */
  function Get(m: Store, k: string): Option<string> {
    if k in m then Some(m[k]) else None
  }

  /** A value read from storage is truthy unless it is `null` or "". */
  predicate IsTruthy(v: Option<string>) {
    v.Some? && v.value != ""
  }

  predicate Truthy(m: Store, k: string) {
    IsTruthy(Get(m, k))
  }

  /** How a template literal renders the response's `error` field: a missing
      field prints as "undefined". */
  function ErrorText(e: Option<string>): string {
    match e
    case Some(t) => t
    case None => "undefined"
  }

  /** `Math.floor(Date.now() / 1000) + 86400`. */
  function Expires(nowMs: int): (r: int)
    ensures (r - ExpirySeconds) * 1000 <= nowMs < (r - ExpirySeconds + 1) * 1000
  {
    nowMs / 1000 + ExpirySeconds
  }

  // ---------------------------------------------------------------------------
  // Device identity

  /** `getDeviceId`: reuse a stored non-empty id, or store `uuid` and use it. */
  function DeviceId(store: Store, uuid: Uuid): (r: Issued)
    ensures r.id != ""
    ensures DeviceIdKey in r.store && r.store[DeviceIdKey] == r.id
    ensures r.store.Keys == store.Keys + {DeviceIdKey}
    ensures r.store - {DeviceIdKey} == store - {DeviceIdKey}
    ensures Truthy(store, DeviceIdKey) ==> r.id == store[DeviceIdKey]
    ensures !Truthy(store, DeviceIdKey) ==> r.id == uuid
    ensures r.store == store <==> Truthy(store, DeviceIdKey)
  {
    var stored := Get(store, DeviceIdKey);
    if IsTruthy(stored) then Issued(stored.value, store)
    else Issued(uuid, store[DeviceIdKey := uuid])
  }

  /** Two consecutive calls return the same id, and the second writes nothing. */
  lemma DeviceIdIdempotent(store: Store, first: Uuid, second: Uuid)
    ensures DeviceId(DeviceId(store, first).store, second) == DeviceId(store, first)
  {
  }

  // ---------------------------------------------------------------------------
  // Startup

  /** How the mount effect's first step, the platform-authenticator probe,
      ends: its promise resolves, or the probe throws (`PublicKeyCredential`
      is not defined, or the promise rejects). */
  datatype Probe = Resolves | Throws

  /** The mount effect: the React state starts empty. When the probe resolves,
      the page is logged in as the stored user exactly when both `authToken`
      and `userEmail` are truthy in storage; when it throws, the effect stops
      before the restore and the page stays logged out. */
  function Startup(stored: Store, probe: Probe): (s: State)
    ensures s.store == stored && s.status == ""
    ensures s.loggedIn <==> probe.Resolves? && Truthy(stored, AuthTokenKey) && Truthy(stored, UserEmailKey)
    ensures s.loggedIn ==> s.email == stored[UserEmailKey]
    ensures !s.loggedIn ==> s.email == ""
  {
    var initial := State(stored, "", "", false);
    if probe.Throws? then initial
    else
      var storedEmail := Get(stored, UserEmailKey);
      var authToken := Get(stored, AuthTokenKey);
      if IsTruthy(authToken) && IsTruthy(storedEmail) then initial.(email := storedEmail.value, loggedIn := true)
      else initial
  }

  // ---------------------------------------------------------------------------
  // Handlers

  /** `handleRegister`. Registration never changes the login flag or the
      session keys; at most it creates the device id, and only when a request
      is actually posted. */
  function Register(s: State, c: Ceremony, api: ApiResult, uuid: Uuid, nowMs: int): (r: Outcome)
    ensures r.state.loggedIn == s.loggedIn && r.state.email == s.email
    ensures r.state.store - {DeviceIdKey} == s.store - {DeviceIdKey}
    ensures r.sent.Some? <==> s.email != "" && c.Success?
    ensures r.sent.None? ==> r.state.store == s.store
    // validation: no ceremony, no call, nothing but the status changes
    ensures s.email == "" ==> r.state == s.(status := EnterEmailFirst)
    // the ceremony failed: getDeviceId is never reached
    ensures s.email != "" && c.Fail? ==> r.state == s.(status := RegistrationFailedPrefix + c.message)
    // the ceremony succeeded: the request carries the device id, the email and the expiry
    ensures r.sent.Some? ==>
              var issued := DeviceId(s.store, uuid);
              && r.state.store == issued.store
              && r.sent.value == RegisterDevice(issued.id, s.email, Expires(nowMs))
    ensures r.sent.Some? && api.Resp? && api.flag ==> r.state.status == RegistrationSuccessful
    ensures r.sent.Some? && api.Resp? && !api.flag ==> r.state.status == ErrorPrefix + ErrorText(api.error)
    ensures r.sent.Some? && api.Throw? ==> r.state.status == RegistrationFailedPrefix + api.message
  {
    if s.email == "" then Outcome(s.(status := EnterEmailFirst), None)
    else match c
      case Fail(msg) => Outcome(s.(status := RegistrationFailedPrefix + msg), None)
      case Success =>
        var issued := DeviceId(s.store, uuid);
        var request := RegisterDevice(issued.id, s.email, Expires(nowMs));
        var status := match api
          case Resp(success, error) => if success then RegistrationSuccessful else ErrorPrefix + ErrorText(error)
          case Throw(msg) => RegistrationFailedPrefix + msg;
        Outcome(s.(store := issued.store, status := status), Some(request))
  }

  /** The verification response that logs the user in. */
  predicate Accepted(c: Ceremony, api: ApiResult) {
    c.Success? && api.Resp? && api.flag
  }

  /** `handleLogin`. Only an accepted verification writes the session keys and
      sets the login flag; every failure leaves both exactly as they were. */
  function Login(s: State, c: Ceremony, api: ApiResult, uuid: Uuid): (r: Outcome)
    ensures r.state.email == s.email
    ensures r.sent.Some? <==> c.Success?
    // the ceremony failed: getDeviceId is never reached, only the status changes
    ensures c.Fail? ==> r.state == s.(status := LoginFailedPrefix + c.message)
    ensures c.Success? ==> r.sent == Some(VerifyToken(DeviceId(s.store, uuid).id, s.email))
    ensures Accepted(c, api) ==>
              && r.state.loggedIn
              && r.state.status == LoginSuccessful
              && AuthTokenKey in r.state.store && r.state.store[AuthTokenKey] == DemoToken
              && UserEmailKey in r.state.store && r.state.store[UserEmailKey] == s.email
              && r.state.store - {AuthTokenKey, UserEmailKey}
                 == DeviceId(s.store, uuid).store - {AuthTokenKey, UserEmailKey}
    ensures !Accepted(c, api) ==>
              && r.state.loggedIn == s.loggedIn
              && r.state.store - {DeviceIdKey} == s.store - {DeviceIdKey}
    ensures c.Success? && !Accepted(c, api) ==> r.state.store == DeviceId(s.store, uuid).store
    ensures c.Success? && api.Resp? && !api.flag ==> r.state.status == LoginFailedPrefix + ErrorText(api.error)
    ensures c.Success? && api.Throw? ==> r.state.status == LoginFailedPrefix + api.message
  {
    match c
    case Fail(msg) => Outcome(s.(status := LoginFailedPrefix + msg), None)
    case Success =>
      var issued := DeviceId(s.store, uuid);
      var request := Some(VerifyToken(issued.id, s.email));
      match api
      case Throw(msg) => Outcome(s.(store := issued.store, status := LoginFailedPrefix + msg), request)
      case Resp(valid, error) =>
        if valid then
          var store := issued.store[AuthTokenKey := DemoToken][UserEmailKey := s.email];
          Outcome(State(store, s.email, LoginSuccessful, true), request)
        else
          Outcome(s.(store := issued.store, status := LoginFailedPrefix + ErrorText(error)), request)
  }

  /** `handleLogout`: drop exactly the two session keys and reset the page. */
  function Logout(s: State): (r: State)
    ensures r.store.Keys == s.store.Keys - {AuthTokenKey, UserEmailKey}
    ensures forall k :: k in r.store ==> r.store[k] == s.store[k]
    ensures !r.loggedIn && r.email == "" && r.status == LoggedOutMessage
  {
    State(s.store - {AuthTokenKey, UserEmailKey}, "", LoggedOutMessage, false)
  }

  /** Logging out twice leaves the same state as logging out once. */
  lemma LogoutIdempotent(s: State)
    ensures Logout(Logout(s)) == Logout(s)
  {
  }

  // ---------------------------------------------------------------------------
  // Sequences of user actions

  /** What the user can do on the page: type into the email field, or press
      one of the three buttons. The world's answers travel with each press. */
  datatype Action =
    | TypeEmail(text: string)
    | PressSignUp(ceremony: Ceremony, api: ApiResult, uuid: Uuid, nowMs: int)
    | PressLogin(ceremony: Ceremony, api: ApiResult, uuid: Uuid)
    | PressLogout

  function Step(s: State, a: Action): Outcome {
    match a
    case TypeEmail(text) => Outcome(s.(email := text), None)
    case PressSignUp(c, api, uuid, nowMs) => Register(s, c, api, uuid, nowMs)
    case PressLogin(c, api, uuid) => Login(s, c, api, uuid)
    case PressLogout => Outcome(Logout(s), None)
  }

  function Requests(o: Outcome): seq<ApiRequest> {
    match o.sent
    case Some(req) => [req]
    case None => []
  }

  /** The final state and every request posted, in order. */
  datatype History = History(final: State, requests: seq<ApiRequest>)

  function Replay(s: State, acts: seq<Action>): History
    decreases |acts|
  {
    if acts == [] then History(s, [])
    else
      var o := Step(s, acts[0]);
      var rest := Replay(o.state, acts[1..]);
      History(rest.final, Requests(o) + rest.requests)
  }

  /** Every posted request carries the device id stored after that step. */
  lemma StepRequestsUseStoredId(s: State, a: Action)
    ensures var o := Step(s, a);
            forall req | req in Requests(o) ::
              Truthy(o.state.store, DeviceIdKey) && req.deviceId == o.state.store[DeviceIdKey]
  {
  }

  /** A step keeps a stored device id, and when it posts nothing it does not
      touch the device id entry at all. */
  lemma StepKeepsDeviceId(s: State, a: Action)
    ensures var o := Step(s, a);
            && (Truthy(s.store, DeviceIdKey) ==> Get(o.state.store, DeviceIdKey) == Get(s.store, DeviceIdKey))
            && (o.sent.None? ==> Get(o.state.store, DeviceIdKey) == Get(s.store, DeviceIdKey))
  {
  }

  /** Once a device id is stored it is never regenerated, and every request of
      the session is correlated by it. */
  lemma {:induction false} ReplayKeepsDeviceId(s: State, acts: seq<Action>)
    requires Truthy(s.store, DeviceIdKey)
    ensures var h := Replay(s, acts);
            && Get(h.final.store, DeviceIdKey) == Get(s.store, DeviceIdKey)
            && forall i | 0 <= i < |h.requests| :: h.requests[i].deviceId == s.store[DeviceIdKey]
    decreases |acts|
  {
    if acts != [] {
      var o := Step(s, acts[0]);
      StepKeepsDeviceId(s, acts[0]);
      StepRequestsUseStoredId(s, acts[0]);
      ReplayKeepsDeviceId(o.state, acts[1..]);
    }
  }

  /** All requests name the same device. */
  ghost predicate OneDeviceId(reqs: seq<ApiRequest>) {
    forall i, j | 0 <= i < |reqs| && 0 <= j < |reqs| :: reqs[i].deviceId == reqs[j].deviceId
  }

  /** All the requests one page posts carry one and the same device id, however
      the session starts (the first request creates it, if need be). */
  lemma {:induction false} ReplayUsesOneDeviceId(s: State, acts: seq<Action>)
    ensures OneDeviceId(Replay(s, acts).requests)
    decreases |acts|
  {
    if Truthy(s.store, DeviceIdKey) {
      ReplayKeepsDeviceId(s, acts);
    } else if acts != [] {
      var o := Step(s, acts[0]);
      var rest := Replay(o.state, acts[1..]).requests;
      var reqs := Replay(s, acts).requests;
      assert reqs == Requests(o) + rest;
      StepKeepsDeviceId(s, acts[0]);
      if o.sent.Some? {
        // this step created the id; the rest of the session reuses it
        StepRequestsUseStoredId(s, acts[0]);
        ReplayKeepsDeviceId(o.state, acts[1..]);
        var id := o.state.store[DeviceIdKey];
        assert reqs == [o.sent.value] + rest;
        assert forall i | 0 <= i < |reqs| :: reqs[i].deviceId == id;
      } else {
        assert reqs == rest;
        ReplayUsesOneDeviceId(o.state, acts[1..]);
      }
    }
  }

  /** While the page shows the user as logged in, storage holds a truthy auth
      token and a user email. */
  ghost predicate LoggedInHasKeys(s: State) {
    s.loggedIn ==> Truthy(s.store, AuthTokenKey) && UserEmailKey in s.store
  }

  /** Truthy session keys in storage mean the page shows the user logged in. */
  ghost predicate KeysMeanLoggedIn(s: State) {
    Truthy(s.store, AuthTokenKey) && Truthy(s.store, UserEmailKey) ==> s.loggedIn
  }

  /** The login flag agrees with the stored session keys, in both directions. */
  ghost predicate SessionInvariant(s: State) {
    LoggedInHasKeys(s) && KeysMeanLoggedIn(s)
  }

  /** Startup always makes the flag imply the keys; it makes the keys imply the
      flag exactly unless the probe threw while truthy keys were stored. */
  lemma StartupEstablishesSession(stored: Store, probe: Probe)
    ensures LoggedInHasKeys(Startup(stored, probe))
    ensures probe.Resolves? ==> SessionInvariant(Startup(stored, probe))
    ensures KeysMeanLoggedIn(Startup(stored, probe))
            <==> probe.Resolves? || !(Truthy(stored, AuthTokenKey) && Truthy(stored, UserEmailKey))
  {
  }

  /** Every sequence of user actions keeps each half of the session invariant. */
  lemma {:induction false} ReplayKeepsSession(s: State, acts: seq<Action>)
    ensures LoggedInHasKeys(s) ==> LoggedInHasKeys(Replay(s, acts).final)
    ensures KeysMeanLoggedIn(s) ==> KeysMeanLoggedIn(Replay(s, acts).final)
    ensures SessionInvariant(s) ==> SessionInvariant(Replay(s, acts).final)
    decreases |acts|
  {
    if acts != [] {
      ReplayKeepsSession(Step(s, acts[0]).state, acts[1..]);
    }
  }

  /** Login never checks the email: an accepted login with an empty email logs
      in and stores an empty `userEmail`, which the next startup treats as
      absent, so the restored page is logged out. */
  lemma EmptyEmailLoginIsNotRestored(uuid: Uuid)
    ensures var r := Login(State(map[], "", "", false), Success, Resp(true, None), uuid);
            && r.state.loggedIn
            && Get(r.state.store, UserEmailKey) == Some("")
            && !Startup(r.state.store, Resolves).loggedIn
  {
  }

  /** A press of Login that the ceremony and the service both accept. */
  predicate GrantsLogin(a: Action) {
    a.PressLogin? && Accepted(a.ceremony, a.api)
  }

  /** Only an accepted login logs the user in: neither registration, nor a
      rejected or failed login, nor typing ever does. */
  lemma {:induction false} OnlyAcceptedLoginLogsIn(s: State, acts: seq<Action>)
    requires !s.loggedIn
    requires forall i | 0 <= i < |acts| :: !GrantsLogin(acts[i])
    ensures !Replay(s, acts).final.loggedIn
    decreases |acts|
  {
    if acts != [] {
      OnlyAcceptedLoginLogsIn(Step(s, acts[0]).state, acts[1..]);
    }
  }

  /** Sign up, then log in with the same email, both accepted: the page ends
      logged in, the token is stored, and both requests name the same device. */
  lemma SignUpThenLogIn(stored: Store, probe: Probe, email: string, first: Uuid, second: Uuid, nowMs: int)
    requires email != ""
    ensures var s := Startup(stored, probe).(email := email);
            var reg := Register(s, Success, Resp(true, None), first, nowMs);
            var log := Login(reg.state, Success, Resp(true, None), second);
            && reg.state.status == RegistrationSuccessful && reg.state.loggedIn == s.loggedIn
            && log.state.loggedIn && log.state.status == LoginSuccessful
            && Get(log.state.store, AuthTokenKey) == Some(DemoToken)
            && Get(log.state.store, UserEmailKey) == Some(email)
            && reg.sent.Some? && log.sent.Some? && reg.sent.value.deviceId == log.sent.value.deviceId
  {
  }

  /** A rejected verification reports the service's message verbatim. */
  lemma RejectedLoginReportsError(s: State, uuid: Uuid)
    ensures var r := Login(s, Success, Resp(false, Some("device not found")), uuid);
            r.state.status == "Login failed: device not found" && r.state.loggedIn == s.loggedIn
  {
  }
}
