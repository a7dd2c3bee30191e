# Biometric sign-up and log-in page: session model

This project models the session logic of the `AppFlask` React component in
`src/App.js`. The page binds a platform authenticator (WebAuthn) to a device
identity that is generated once and kept in `localStorage`. It registers that
device with a remote verification service, then logs the user in after a fresh
biometric ceremony and a `verify-token` call.

Two modules:

- `Session` (`session.dfy`) states everything on values. A `State` is the
  store (`localStorage` as a `map<string, string>`) together with the three
  React state fields `email`, `status` and `isLoggedIn`. Each handler is a
  function from the old state and the world's answers to the new state and
  the request posted (`Outcome`). The contracts say which keys each outcome may
  write, which status string results, and when a request is posted. The module
  then replays arbitrary sequences of user actions (`Replay`) and proves
  invariants over them: the device id is never regenerated, every request of a
  page carries one device id, only an accepted login logs in, and while logged
  in the session keys are present.
- `App` (`app.dfy`) is the component as an object. `AppFlask` has the store and
  the React state as fields. Its constructor runs the mount effect, and
  `GetDeviceId`, `HandleRegister`, `HandleLogin` and `HandleLogout` update the
  fields step by step, as the handlers do. Logout removes the two keys in a
  loop, like the source's `forEach`. Each method is proved to produce exactly
  the transition `Session` specifies.

The outside world arrives as parameters:

- the WebAuthn ceremony outcome, `Ceremony` = `Success` | `Fail(message)`;
- the API answer, `ApiResult` = `Resp(flag, error)` | `Throw(message)`, where
  `flag` is the response's `success` or `valid` field;
- the fresh UUID, `Uuid`, a 36-character string like `crypto.randomUUID()`'s;
- the clock, `nowMs`, as `Date.now()` in milliseconds;
- how the mount effect's capability probe ends, `Probe` = `Resolves` | `Throws`.

The model follows the code as written, including these points where one might expect otherwise:

- A failed registration or login does not set the login flag to false. The
  handlers never touch `isLoggedIn` on failure, so it keeps its old value.
- A rejected registration reports `Error: <error>`, and a rejected login
  reports `Login failed: <error>`. An absent `error` field renders as the
  text `undefined`; there is no generic message.
- Registration never writes the session keys and never logs in.
- The device id is created on every path that reaches the API call. This
  includes a call that then throws, because `getDeviceId()` runs while the
  request payload is built.
- The mount effect restores the session only after the capability probe.
  `PublicKeyCredential?.…` does not guard an undeclared global, so where
  WebAuthn is missing the probe throws. It also throws when its promise
  rejects. In both cases the effect stops before the restore, and the page
  starts logged out even with a stored session.
- Login never checks the email. An accepted login with an empty email logs
  in and stores `userEmail` = "". The next startup treats that value as
  absent, so it starts logged out.

`ErrorText` (how `${res.error}` renders), `Step` (which handler a user
action runs) and `Replay` (a sequence of actions) are helpers. They carry no
contract of their own and appear in the lemmas below.

## Model

| member | source | states |
|---|---|---|
| `Session.Expires` | src/App.js:75 | the expiry is the floor of the clock in seconds plus 86400: `(r - 86400) * 1000 <= nowMs < (r - 86400 + 1) * 1000` |
| `Session.DeviceId` | src/App.js:38-45 | the returned id is non-empty and is what storage holds under `deviceId` afterwards; a truthy stored id is returned and storage is unchanged; otherwise the fresh UUID is stored and returned; storage changes iff the stored id was missing or empty, and only under `deviceId` |
| `Session.DeviceIdIdempotent` | src/App.js:38-45 | two consecutive calls return the same id, and the second leaves storage as the first left it |
| `Session.Startup` | src/App.js:10-22 | the page starts logged in iff the capability probe resolves and both `authToken` and `userEmail` are truthy in storage; if so, the email is the stored one, otherwise empty; storage is untouched and the status is empty |
| `Session.Register` | src/App.js:65-88 | never changes the login flag, the email or any key except `deviceId`; with an empty email sets "Enter your email first." and posts nothing; if the ceremony fails sets "Registration failed: <msg>" and changes nothing else; otherwise posts `register-device` with `getDeviceId()`, the email and `floor(nowMs/1000) + 86400`, and sets "Registration successful!", "Error: <error>" or "Registration failed: <msg>" by the answer; storage changes only when a request is posted |
| `Session.Login` | src/App.js:90-111 | if the ceremony fails sets "Login failed: <msg>" and changes nothing else; otherwise posts `verify-token` with `getDeviceId()` and the email; an accepted answer stores `authToken` = "demo-token" and `userEmail` = email, logs in and sets "Login successful!"; any other outcome keeps the login flag and every key but `deviceId`, and sets "Login failed: <error or msg>" |
| `Session.Logout` | src/App.js:113-118 | removes exactly `authToken` and `userEmail` (so `deviceId` survives), keeps every other stored value, logs out, empties the email and sets "Logged out" |
| `Session.LogoutIdempotent` | src/App.js:113-118 | logging out twice gives the same state as logging out once |
| `Session.StepRequestsUseStoredId` | src/App.js:72-73 | any request a user action posts carries the device id that storage holds after that action |
| `Session.StepKeepsDeviceId` | src/App.js:38-45 | no user action changes a truthy stored device id; an action that posts nothing does not touch the `deviceId` entry |
| `Session.ReplayKeepsDeviceId` | src/App.js:38-45 | once a device id is stored, no sequence of user actions changes it, and every request they post carries it |
| `Session.ReplayUsesOneDeviceId` | src/App.js:93-94 | over any sequence of user actions from any start, all posted requests carry one and the same device id |
| `Session.StartupEstablishesSession` | src/App.js:10-22 | after startup, a logged-in page has a truthy `authToken` and a `userEmail` in storage; truthy session keys mean logged in, in every case but a probe that throws while such keys are stored |
| `Session.ReplayKeepsSession` | src/App.js:98-117 | no sequence of user actions breaks either half of the session invariant: logged in implies a truthy `authToken` and a stored `userEmail`, and a truthy `authToken` and `userEmail` imply logged in |
| `Session.EmptyEmailLoginIsNotRestored` | src/App.js:90-100 | an accepted login with an empty email logs in and stores `userEmail` = "", and a startup on that storage is logged out |
| `Session.OnlyAcceptedLoginLogsIn` | src/App.js:98-101 | from a logged-out page, a sequence of actions without a login that both the ceremony and the service accept never ends logged in; registration alone never logs in |
| `Session.SignUpThenLogIn` | src/App.js:65-111 | sign-up then log-in with the same email, both accepted, ends logged in with "Login successful!" and `authToken` = "demo-token"; sign-up alone leaves the flag as it was; both requests carry the same device id |
| `Session.RejectedLoginReportsError` | src/App.js:103-105 | a `verify-token` answer `{valid: false, error: "device not found"}` gives status "Login failed: device not found" and keeps the login flag |
| `App.AppFlask.constructor` | src/App.js:5-22 | mounting the component yields exactly `Session.Startup` of the stored values and the probe's outcome; a probe that throws skips the restore |
| `App.AppFlask.TypeEmail` | src/App.js:150 | typing changes the email field and nothing else |
| `App.AppFlask.GetDeviceId` | src/App.js:38-45 | returns the id and leaves storage as `Session.DeviceId` says, without touching the React state |
| `App.AppFlask.HandleRegister` | src/App.js:65-88 | updates the fields and returns the posted request exactly as `Session.Register` specifies; the login flag is unchanged |
| `App.AppFlask.HandleLogin` | src/App.js:90-111 | updates the fields and returns the posted request exactly as `Session.Login` specifies |
| `App.AppFlask.HandleLogout` | src/App.js:113-118 | the key-removal loop and the resets produce exactly `Session.Logout` of the old state |
| `App.FirstVisitSignUpAndLogIn` | src/App.js:65-111 | on an empty storage: type an email, sign up and log in, all accepted; the page ends logged in with "Login successful!", and both requests carry the first UUID as the device id |

## Left out

- The value of the capability probe `PublicKeyCredential?.isUserVerifyingPlatformAuthenticatorAvailable()` and the `biometricsAvailable` field it sets. The value only enables or disables buttons and shows a warning. Whether the probe throws is modelled, because a throw skips the session restore.
- JSX rendering, including the buttons' `disabled` gating and the rule that the email field is shown only while logged out. The model lets every action happen in every state.
- The WebAuthn ceremony (`navigator.credentials.create`) and the options it builds: challenge, relying party, user id, algorithm and authenticator selection. Only its success or its failure message is modelled.
- `apiCall`'s `fetch` and JSON decoding. Only the decoded `success`/`valid` flag, the optional `error` string and a thrown error's message are modelled. An `error` field that is not a string is not modelled.
- `crypto.randomUUID` and `Date.now`. They are parameters.
- Session.Expires: `Date.now() / 1000` is a floating-point division in the source; the model uses exact integer floor division, which does not capture floating-point rounding.
- The outer `try`/`catch` of `handleRegister` and the handlers' `return false`. The inner `catch` already handles every thrown error, and nothing reads the return value.
- The transient status "Registering..." becomes visible only while the handler waits. The method sets it, but the contracts describe only the final state.
- `console.error` logging, the asynchronous scheduling of the handlers, and interleavings of concurrent handler runs. Each handler is modelled as one atomic transition.
- Storage that is unavailable or throws. `localStorage` is modelled as a map that always accepts writes.
