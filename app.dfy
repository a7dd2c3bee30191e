/** The page component itself: `localStorage` and the React state as fields of
    one object, and each handler as a method that updates them in the order
    the component does. Every method is proved to compute exactly the
    transition `Session` specifies, so the properties proved there hold of
    the object. */
module App {
  import opened Session

  class AppFlask {
    /** `localStorage` */
    var storage: Store
    /** The React state of the component. */
    var email: string
    var status: string
    var isLoggedIn: bool

    function Snapshot(): State
      reads this
    {
      State(storage, email, status, isLoggedIn)
    }

    /** Mounting the component on a browser whose storage holds `stored`: the
        initial React state, then the mount effect, whose probe ends as
        `probe` and which restores the session only if the probe resolves. */
    constructor (stored: Store, probe: Probe)
      ensures Snapshot() == Startup(stored, probe)
    {
      storage := stored;
      email := "";
      status := "";
      isLoggedIn := false;
      new;
      if probe.Throws? {
        return;
      }
      var storedEmail := Get(storage, UserEmailKey);
      var authToken := Get(storage, AuthTokenKey);
      if IsTruthy(authToken) && IsTruthy(storedEmail) {
        email := storedEmail.value;
        isLoggedIn := true;
      }
    }

    /** The email field's change handler. */
    method TypeEmail(text: string)
      modifies this
      ensures Snapshot() == old(Snapshot()).(email := text)
    {
      email := text;
    }

    method GetDeviceId(uuid: Uuid) returns (deviceId: string)
      modifies this
      ensures Issued(deviceId, storage) == DeviceId(old(storage), uuid)
      ensures email == old(email) && status == old(status) && isLoggedIn == old(isLoggedIn)
    {
      var stored := Get(storage, DeviceIdKey);
      if !IsTruthy(stored) {
        deviceId := uuid;
        storage := storage[DeviceIdKey := deviceId];
      } else {
        deviceId := stored.value;
      }
    }

    /** `handleRegister`, given the ceremony's outcome, the API's answer, the
        UUID a new device id would get and the clock in milliseconds; returns
        the request posted, if any. */
    method HandleRegister(ceremony: Ceremony, api: ApiResult, uuid: Uuid, nowMs: int)
      returns (sent: Option<ApiRequest>)
      modifies this
      ensures Outcome(Snapshot(), sent) == Register(old(Snapshot()), ceremony, api, uuid, nowMs)
      ensures isLoggedIn == old(isLoggedIn)
    {
      sent := None;
      if email == "" {
        status := EnterEmailFirst;
        return;
      }
      status := Registering;
      if ceremony.Fail? {
        status := RegistrationFailedPrefix + ceremony.message;
        return;
      }
      var deviceId := GetDeviceId(uuid);
      sent := Some(RegisterDevice(deviceId, email, nowMs / 1000 + ExpirySeconds));
      match api {
        case Throw(msg) =>
          status := RegistrationFailedPrefix + msg;
        case Resp(success, error) =>
          if success {
            status := RegistrationSuccessful;
          } else {
            status := ErrorPrefix + ErrorText(error);
          }
      }
    }

    /** `handleLogin`, given the ceremony's outcome, the API's answer and the
        UUID a new device id would get; returns the request posted, if any. */
    method HandleLogin(ceremony: Ceremony, api: ApiResult, uuid: Uuid)
      returns (sent: Option<ApiRequest>)
      modifies this
      ensures Outcome(Snapshot(), sent) == Login(old(Snapshot()), ceremony, api, uuid)
    {
      sent := None;
      if ceremony.Fail? {
        status := LoginFailedPrefix + ceremony.message;
        return;
      }
      var deviceId := GetDeviceId(uuid);
      sent := Some(VerifyToken(deviceId, email));
      match api {
        case Throw(msg) =>
          status := LoginFailedPrefix + msg;
        case Resp(valid, error) =>
          if valid {
            storage := storage[AuthTokenKey := DemoToken];
            storage := storage[UserEmailKey := email];
            isLoggedIn := true;
            status := LoginSuccessful;
          } else {
            status := LoginFailedPrefix + ErrorText(error);
          }
      }
    }

    /** `handleLogout`: remove the session keys one by one, then reset the
        React state. */
    method HandleLogout()
      modifies this
      ensures Snapshot() == Logout(old(Snapshot()))
    {
      var keys := [AuthTokenKey, UserEmailKey];
      for i := 0 to |keys|
        invariant storage == old(storage) - (set j | 0 <= j < i :: keys[j])
      {
        storage := storage - {keys[i]};
      }
      assert keys[0] == AuthTokenKey && keys[1] == UserEmailKey;
      assert (set j | 0 <= j < |keys| :: keys[j]) == {AuthTokenKey, UserEmailKey};
      isLoggedIn := false;
      email := "";
      status := LoggedOutMessage;
    }
  }

  /** A fresh browser: type an email, sign up, log in, all accepted. The page
      ends logged in with the success message, and both requests carry the
      device id that signing up created. */
  method FirstVisitSignUpAndLogIn(email: string, first: Uuid, second: Uuid, nowMs: int)
    returns (status: string, loggedIn: bool, registered: Option<ApiRequest>, verified: Option<ApiRequest>)
    requires email != ""
    ensures status == LoginSuccessful && loggedIn
    ensures registered == Some(RegisterDevice(first, email, Expires(nowMs)))
    ensures verified == Some(VerifyToken(first, email))
  {
    var page := new AppFlask(map[], Resolves);
    page.TypeEmail(email);
    registered := page.HandleRegister(Success, Resp(true, None), first, nowMs);
    assert page.status == RegistrationSuccessful && !page.isLoggedIn;
    verified := page.HandleLogin(Success, Resp(true, None), second);
    status, loggedIn := page.status, page.isLoggedIn;
  }
}
