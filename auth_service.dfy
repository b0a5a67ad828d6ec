/**
 * The session store logic of src/services/authService.js. Browser storage
 * is a map from key to string; a stored value of "" reads as absent,
 * because the source tests `getItem` results for truthiness. JSON
 * serialisation and parsing are parameters: `stringify` is total and
 * `parse` is partial (None when the text does not parse, or parses to null).
 * HTTP answers are parameters too, already past the transport.
 */
module AuthService {
  import opened Common

  type Storage = map<string, string>

  /** The fields of a user object sent or received as JSON. */
  type UserData = map<string, string>

  const CurrentUserKey := "currentUser"
  const UserKey := "user"
  /** The key `isAuthenticated` reads as its fallback: a misspelling of CurrentUserKey, kept as written. */
  const MisspeltKey := "currentUSer"
  const LoginTimeField := "loginTime"
  const LoginFailedMessage := "Login failed, please check if you have entered the correct credentials"
  const SignupFailedMessage := "Signed failed, please check if you have entered the correct credentials"

  datatype HttpError =
    /** The server answered with an error status. `responseMessage` is `error.response.message`,
        a field axios never sets on a response, so it is "" for every real answer. */
    | ErrorResponse(status: int, responseMessage: string)
    | NoResponse                                  // the request went out, no answer came back
    | RequestFailed(message: string)              // the request could not be made

  datatype HttpResult = Ok(data: UserData) | Err(error: HttpError)

  predicate Is401(e: HttpError)
  {
    e.ErrorResponse? && e.status == 401
  }

  /** `localStorage.getItem(k)` tested for truthiness. */
  predicate Present(s: Storage, k: string)
  {
    k in s && s[k] != ""
  }

  // ----------------------------------------------------------------- queries

  /**
   * The stored user: the parsed `currentUser` record whenever that key is
   * present, whatever `user` holds; else the parsed `user` record; null when
   * neither is present or the chosen record does not parse.
   */
  function GetCurrentUser(s: Storage, parse: string -> Option<UserData>): (r: Option<UserData>)
    ensures Present(s, CurrentUserKey) ==> r == parse(s[CurrentUserKey])
    ensures !Present(s, CurrentUserKey) && Present(s, UserKey) ==> r == parse(s[UserKey])
    ensures !Present(s, CurrentUserKey) && !Present(s, UserKey) ==> r == None
    ensures r.Some? ==> Present(s, CurrentUserKey) || Present(s, UserKey)
  {
    if Present(s, CurrentUserKey) then parse(s[CurrentUserKey])
    else if Present(s, UserKey) then parse(s[UserKey])
    else None
  }

  /** Signed in exactly when `user` or the misspelt `currentUSer` key is present. */
  function IsAuthenticated(s: Storage): (b: bool)
    ensures b <==> Present(s, UserKey) || Present(s, MisspeltKey)
  {
    Present(s, UserKey) || Present(s, MisspeltKey)
  }

  // ------------------------------------------------------ storage transitions

  /** Both session keys removed; every other key keeps its value. */
  function LoggedOut(s: Storage): (r: Storage)
    ensures CurrentUserKey !in r && UserKey !in r
    ensures forall k :: k != CurrentUserKey && k != UserKey ==> (k in r <==> k in s)
    ensures forall k :: k in r ==> r[k] == s[k]
  {
    s - {CurrentUserKey, UserKey}
  }

  /** `{...data, loginTime: now}`: the response fields with the login time set. */
  function WithLoginTime(data: UserData, now: string): (u: UserData)
    ensures LoginTimeField in u && u[LoginTimeField] == now
    ensures forall k :: k != LoginTimeField ==> (k in u <==> k in data)
    ensures forall k :: k != LoginTimeField && k in data ==> u[k] == data[k]
  {
    data[LoginTimeField := now]
  }

  /**
   * The store after a successful login: the stamped record under
   * `currentUser`, the raw response data under `user`, nothing else touched.
   */
  function LoggedIn(s: Storage, data: UserData, now: string, stringify: UserData -> string): (r: Storage)
    ensures CurrentUserKey in r && r[CurrentUserKey] == stringify(WithLoginTime(data, now))
    ensures UserKey in r && r[UserKey] == stringify(data)
    ensures forall k :: k != CurrentUserKey && k != UserKey ==> (k in r <==> k in s)
    ensures forall k :: k != CurrentUserKey && k != UserKey && k in s ==> r[k] == s[k]
  {
    s[CurrentUserKey := stringify(WithLoginTime(data, now))][UserKey := stringify(data)]
  }

  /**
   * The store after `login`'s own code: a success writes the two session
   * keys; a failure reaches the `catch`, which writes nothing.
   */
  function AfterLogin(s: Storage, response: HttpResult, now: string, stringify: UserData -> string): (r: Storage)
    ensures response.Ok? ==> r == LoggedIn(s, response.data, now, stringify)
    ensures response.Err? ==> r == s
  {
    match response
    case Ok(data) => LoggedIn(s, data, now, stringify)
    case Err(_) => s
  }

  /** `error.response?.message || fallback`: the response's own `message` field if set, else the fixed text. */
  function ErrorMessage(e: HttpError, fallback: string): (msg: string)
    ensures e.ErrorResponse? && e.responseMessage != "" ==> msg == e.responseMessage
    ensures !(e.ErrorResponse? && e.responseMessage != "") ==> msg == fallback
  {
    if e.ErrorResponse? && e.responseMessage != "" then e.responseMessage else fallback
  }

  /**
   * The store after `fetchCurrentUser`: a success overwrites `user` only; a
   * 401 logs out; any other failure leaves the store as it was.
   */
  function AfterFetchCurrentUser(s: Storage, response: HttpResult, stringify: UserData -> string): (r: Storage)
    ensures response.Ok? ==> UserKey in r && r[UserKey] == stringify(response.data)
    ensures response.Ok? ==> forall k :: k != UserKey ==> (k in r <==> k in s)
    ensures response.Ok? ==> forall k :: k != UserKey && k in s ==> r[k] == s[k]
    ensures response.Err? && Is401(response.error) ==> r == LoggedOut(s)
    ensures response.Err? && !Is401(response.error) ==> r == s
  {
    match response
    case Ok(data) => s[UserKey := stringify(data)]
    case Err(e) => if Is401(e) then LoggedOut(s) else s
  }

  /**
   * The store after the response interceptor sees an error: a 401 logs out;
   * 403, 404 and 500 only log, and any other status or a missing
   * response does nothing.
   */
  function AfterInterceptedError(s: Storage, e: HttpError): (r: Storage)
    ensures Is401(e) ==> r == LoggedOut(s)
    ensures !Is401(e) ==> r == s
  {
    if Is401(e) then LoggedOut(s) else s
  }

  // ------------------------------------------------------------------ lemmas

  /**
   * After a login, `getCurrentUser` gives back the stamped record, provided
   * parsing inverts serialisation on it and its serialisation is non-empty.
   */
  lemma LoginThenCurrentUser(s: Storage, data: UserData, now: string,
                             stringify: UserData -> string, parse: string -> Option<UserData>)
    requires stringify(WithLoginTime(data, now)) != ""
    requires parse(stringify(WithLoginTime(data, now))) == Some(WithLoginTime(data, now))
    ensures GetCurrentUser(LoggedIn(s, data, now, stringify), parse) == Some(WithLoginTime(data, now))
  {
  }

  /** A login makes the store authenticated when the raw data serialises to non-empty text. */
  lemma LoginAuthenticates(s: Storage, data: UserData, now: string, stringify: UserData -> string)
    requires stringify(data) != ""
    ensures IsAuthenticated(LoggedIn(s, data, now, stringify))
  {
  }

  /**
   * After a logout no user is found, and the store still counts as signed
   * in exactly when it holds the misspelt key, which logout never removes.
   */
  lemma LogoutForgetsUser(s: Storage, parse: string -> Option<UserData>)
    ensures GetCurrentUser(LoggedOut(s), parse) == None
    ensures IsAuthenticated(LoggedOut(s)) <==> Present(s, MisspeltKey)
  {
  }

  /** Logging out twice is the same as logging out once. */
  lemma LogoutIdempotent(s: Storage)
    ensures LoggedOut(LoggedOut(s)) == LoggedOut(s)
  {
  }

  /**
   * A successful `fetchCurrentUser` does not change what `getCurrentUser`
   * returns while a `currentUser` record is present: that record wins.
   */
  lemma FetchKeepsLoginRecord(s: Storage, data: UserData, stringify: UserData -> string,
                              parse: string -> Option<UserData>)
    requires Present(s, CurrentUserKey)
    ensures GetCurrentUser(AfterFetchCurrentUser(s, Ok(data), stringify), parse) == GetCurrentUser(s, parse)
  {
  }

  /** A store holding only a `currentUser` record yields a user but is not authenticated. */
  lemma CurrentUserAloneIsNotAuthenticated(s: Storage, parse: string -> Option<UserData>)
    requires Present(s, CurrentUserKey) && !Present(s, UserKey) && !Present(s, MisspeltKey)
    ensures !IsAuthenticated(s)
    ensures GetCurrentUser(s, parse) == parse(s[CurrentUserKey])
  {
  }

  /** A 401 seen by the interceptor and by `fetchCurrentUser` clears the session once. */
  lemma Double401ClearsOnce(s: Storage, stringify: UserData -> string, e: HttpError)
    requires Is401(e)
    ensures AfterFetchCurrentUser(AfterInterceptedError(s, e), Err(e), stringify) == LoggedOut(s)
  {
    LogoutIdempotent(s);
  }

  /**
   * Every request goes through the shared client's interceptor before the
   * caller's `catch`. A login answered with 401 (bad credentials) therefore
   * ends with both session keys removed: the interceptor logs out before
   * `login`'s own failure branch runs, which writes nothing more. `signup`
   * writes no storage at all, so a 401 on signup ends in the same store.
   */
  lemma Failed401LoginLogsOut(s: Storage, e: HttpError, now: string, stringify: UserData -> string)
    requires Is401(e)
    ensures AfterLogin(AfterInterceptedError(s, e), Err(e), now, stringify) == LoggedOut(s)
    ensures CurrentUserKey !in AfterLogin(AfterInterceptedError(s, e), Err(e), now, stringify)
    ensures UserKey !in AfterLogin(AfterInterceptedError(s, e), Err(e), now, stringify)
    ensures AfterInterceptedError(s, e) == LoggedOut(s)  // signup: nothing written after the interceptor
  {
  }

  /**
   * Since axios sets no `message` on a response, every failed login and
   * signup reports its fixed fallback text.
   */
  lemma ErrorMessageIsAlwaysFallback(e: HttpError, fallback: string)
    requires e.ErrorResponse? ==> e.responseMessage == ""
    ensures ErrorMessage(e, fallback) == fallback
  {
  }

  /** A failed login whose status is not 401 leaves the store exactly as it was. */
  lemma FailedLoginOtherwiseKeepsStore(s: Storage, e: HttpError, now: string, stringify: UserData -> string)
    requires !Is401(e)
    ensures AfterLogin(AfterInterceptedError(s, e), Err(e), now, stringify) == s
  {
  }

  // ------------------------------------------------------------------- store

  /** Browser storage, changed in place by the session operations. */
  class SessionStore {
    var items: Storage

    constructor (initial: Storage)
      ensures items == initial
    {
      items := initial;
    }

    /**
     * `login`'s own code: on success the session keys are written and the
     * stamped record returned; on failure this code writes nothing and
     * returns the server's message, or the fixed fallback, as the error.
     * The interceptor runs first on a failure: see Failed401LoginLogsOut.
     */
    method Login(response: HttpResult, now: string, stringify: UserData -> string) returns (r: Result<UserData>)
      modifies this
      ensures items == AfterLogin(old(items), response, now, stringify)
      ensures response.Ok? ==> items == LoggedIn(old(items), response.data, now, stringify)
      ensures response.Ok? ==> r == Success(WithLoginTime(response.data, now))
      ensures response.Err? ==> items == old(items)
      ensures response.Err? ==> r == Failure(ErrorMessage(response.error, LoginFailedMessage))
    {
      match response
      case Ok(data) =>
        var userData := WithLoginTime(data, now);
        items := items[CurrentUserKey := stringify(userData)];
        items := items[UserKey := stringify(data)];
        r := Success(userData);
      case Err(e) =>
        r := Failure(ErrorMessage(e, LoginFailedMessage));
    }

    /** `signup`: returns the created user or the error message; storage is not touched. */
    method Signup(response: HttpResult) returns (r: Result<UserData>)
      ensures response.Ok? ==> r == Success(response.data)
      ensures response.Err? ==> r == Failure(ErrorMessage(response.error, SignupFailedMessage))
    {
      match response
      case Ok(data) => r := Success(data);
      case Err(e) => r := Failure(ErrorMessage(e, SignupFailedMessage));
    }

    /** `logout`: both session keys go, whatever the remote call answered. */
    method Logout(remote: HttpResult)
      modifies this
      ensures items == LoggedOut(old(items))
    {
      items := items - {CurrentUserKey};
      items := items - {UserKey};
    }

    /** `fetchCurrentUser`: refreshes `user` on success, logs out on a 401. */
    method FetchCurrentUser(response: HttpResult, stringify: UserData -> string, logoutRemote: HttpResult)
      returns (r: Option<UserData>)
      modifies this
      ensures items == AfterFetchCurrentUser(old(items), response, stringify)
      ensures response.Ok? ==> r == Some(response.data)
      ensures response.Err? ==> r == None
    {
      match response
      case Ok(data) =>
        items := items[UserKey := stringify(data)];
        r := Some(data);
      case Err(e) =>
        if Is401(e) {
          Logout(logoutRemote);
        }
        r := None;
    }

    /** The response interceptor's error branch: a 401 logs out. */
    method InterceptError(e: HttpError, logoutRemote: HttpResult)
      modifies this
      ensures items == AfterInterceptedError(old(items), e)
    {
      if e.ErrorResponse? {
        match e.status
        case 401 => Logout(logoutRemote);
        case 403 =>
        case 404 =>
        case 500 =>
        case _ =>
      }
    }
  }
}
