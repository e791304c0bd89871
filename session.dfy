/**
 * The session state machine of `AuthViewModel`, as values.
 *
 * Every asynchronous call is split in two events: issuing the request (which
 * appends it to `inFlight`, the subscriptions kept in `cancellables` that have
 * not delivered yet) and delivering its result (which names the in-flight
 * request by index and carries `Success(v)` or `Failure(message)`). The one
 * persisted slot, `UserDefaults.standard`, is the `defaults` map; only the key
 * `"authToken"` is ever written.
 */
module Session {
  import opened Wrappers
  import opened Http

  const AuthTokenKey := "authToken"
  const LoginUrl := "http://localhost:5500/api/auth/login"
  const ProfileUrl := "http://localhost:5500/api/profile"

  const NoTokenMessage := "No token found"
  const LoginFailedPrefix := "Login failed: "
  const ProfileFailedPrefix := "Error fetching profile: "

  /** The profile the server returns, as `ProfileView` reads it. */
  datatype UserProfile = UserProfile(
    name: string,
    role: string,
    phoneNumber: Option<string>,
    age: int,
    about: Option<string>)

  /** The decoded body of a successful login. */
  datatype LoginResponse = LoginResponse(token: string)

  /** The observable fields of the view model, the persisted key-value store
      and the requests still waiting for their result. */
  datatype AuthState = AuthState(
    isLoggedIn: bool,
    errorMessage: Option<string>,
    userProfile: Option<UserProfile>,
    defaults: map<string, string>,
    inFlight: seq<HttpRequest>)

  /** `UserDefaults.standard.string(forKey: "authToken")`. */
  function StoredToken(defaults: map<string, string>): Option<string>
  {
    if AuthTokenKey in defaults then Some(defaults[AuthTokenKey]) else None
  }

  function LoginRequest(email: string, password: string): HttpRequest
  {
    HttpRequest("POST", LoginUrl, ContentTypeJson, Some(map["email" := email, "password" := password]))
  }

  function ProfileRequest(token: string): HttpRequest
  {
    HttpRequest("GET", ProfileUrl, map["Authorization" := "Bearer " + token], None)
  }

  predicate IsLoginRequest(request: HttpRequest)
  {
    request.url == LoginUrl
  }

  predicate IsProfileRequest(request: HttpRequest)
  {
    request.url == ProfileUrl
  }

  /** `q` with its `i`-th element taken out. */
  function Without<T>(q: seq<T>, i: nat): (r: seq<T>)
    requires i < |q|
    ensures |r| == |q| - 1
    ensures forall k :: 0 <= k < i ==> r[k] == q[k]
    ensures forall k :: i <= k < |r| ==> r[k] == q[k + 1]
  {
    q[..i] + q[i + 1..]
  }

  /** A fresh view model over whatever the store already holds. */
  function Initial(defaults: map<string, string>): AuthState
  {
    AuthState(false, None, None, defaults, [])
  }

  /** The object invariant: being logged in means a token is stored. */
  predicate Invariant(s: AuthState)
  {
    s.isLoggedIn ==> AuthTokenKey in s.defaults
  }

  /** `login(email:password:)`: only subscribes to the login request. */
  function Login(s: AuthState, email: string, password: string): AuthState
  {
    s.(inFlight := s.inFlight + [LoginRequest(email, password)])
  }

  /** `fetchUserProfile()`. */
  function FetchUserProfile(s: AuthState): AuthState
  {
    match StoredToken(s.defaults)
    case None => s.(errorMessage := Some(NoTokenMessage))
    case Some(token) => s.(inFlight := s.inFlight + [ProfileRequest(token)])
  }

  /** The login pipeline's `sink`: failure completion or received value. */
  function ReceiveLoginResult(s: AuthState, i: nat, result: Result<LoginResponse>): AuthState
    requires i < |s.inFlight| && IsLoginRequest(s.inFlight[i])
  {
    var rest := s.(inFlight := Without(s.inFlight, i));
    match result
    case Failure(message) =>
      rest.(errorMessage := Some(LoginFailedPrefix + message), isLoggedIn := false)
    case Success(response) =>
      FetchUserProfile(rest.(defaults := rest.defaults[AuthTokenKey := response.token], isLoggedIn := true))
  }

  /** The profile pipeline's `sink`: failure completion or received value. */
  function ReceiveProfileResult(s: AuthState, i: nat, result: Result<UserProfile>): AuthState
    requires i < |s.inFlight| && IsProfileRequest(s.inFlight[i])
  {
    var rest := s.(inFlight := Without(s.inFlight, i));
    match result
    case Failure(message) =>
      rest.(errorMessage := Some(ProfileFailedPrefix + message), isLoggedIn := false)
    case Success(profile) =>
      rest.(userProfile := Some(profile))
  }

  /** `logout()`: in-flight subscriptions are not cancelled. */
  function Logout(s: AuthState): AuthState
  {
    s.(defaults := s.defaults - {AuthTokenKey}, userProfile := None, isLoggedIn := false)
  }

  /** What can happen to the view model: a call from the UI or a delivery. */
  datatype Event =
    | LoginCalled(email: string, password: string)
    | LoginDelivered(index: nat, loginResult: Result<LoginResponse>)
    | FetchCalled
    | ProfileDelivered(index: nat, profileResult: Result<UserProfile>)
    | LogoutCalled

  /** A delivery must name an in-flight request of its own kind. */
  predicate Enabled(s: AuthState, e: Event)
  {
    match e
    case LoginDelivered(i, _) => i < |s.inFlight| && IsLoginRequest(s.inFlight[i])
    case ProfileDelivered(i, _) => i < |s.inFlight| && IsProfileRequest(s.inFlight[i])
    case _ => true
  }

  function Step(s: AuthState, e: Event): AuthState
    requires Enabled(s, e)
  {
    match e
    case LoginCalled(email, password) => Login(s, email, password)
    case LoginDelivered(i, r) => ReceiveLoginResult(s, i, r)
    case FetchCalled => FetchUserProfile(s)
    case ProfileDelivered(i, r) => ReceiveProfileResult(s, i, r)
    case LogoutCalled => Logout(s)
  }

  /** The state after a sequence of events, or `None` if some delivery names
      no matching in-flight request. */
  function Run(s: AuthState, trace: seq<Event>): Option<AuthState>
    decreases |trace|
  {
    if trace == [] then Some(s)
    else if Enabled(s, trace[0]) then Run(Step(s, trace[0]), trace[1..])
    else None
  }

  // ---------------------------------------------------------------------------
  // One transition at a time

  /** Logging in only issues a JSON POST carrying the credentials. */
  lemma LoginIssuesPost(s: AuthState, email: string, password: string)
    ensures var t := Login(s, email, password);
      && t.inFlight == s.inFlight + [t.inFlight[|s.inFlight|]]
      && t.inFlight[|s.inFlight|].httpMethod == "POST"
      && t.inFlight[|s.inFlight|].url == LoginUrl
      && t.inFlight[|s.inFlight|].headers == map["Content-Type" := "application/json"]
      && t.inFlight[|s.inFlight|].jsonBody == Some(map["email" := email, "password" := password])
      && t.(inFlight := s.inFlight) == s
  {
  }

  /** A successful login stores the token, sets `isLoggedIn`, and issues the
      profile request with that token; nothing else changes. */
  lemma LoginSuccessStoresTokenThenFetches(s: AuthState, i: nat, token: string)
    requires i < |s.inFlight| && IsLoginRequest(s.inFlight[i])
    ensures var t := ReceiveLoginResult(s, i, Success(LoginResponse(token)));
      && StoredToken(t.defaults) == Some(token)
      && t.defaults - {AuthTokenKey} == s.defaults - {AuthTokenKey}
      && t.isLoggedIn
      && t.inFlight == Without(s.inFlight, i) + [ProfileRequest(token)]
      && t.errorMessage == s.errorMessage
      && t.userProfile == s.userProfile
  {
  }

  /** A failed login reports the error, clears `isLoggedIn`, and leaves the
      store and the profile as they were: no token is ever persisted. */
  lemma LoginFailureKeepsStore(s: AuthState, i: nat, message: string)
    requires i < |s.inFlight| && IsLoginRequest(s.inFlight[i])
    ensures var t := ReceiveLoginResult(s, i, Failure(message));
      && t.errorMessage == Some("Login failed: " + message)
      && !t.isLoggedIn
      && t.defaults == s.defaults
      && t.userProfile == s.userProfile
      && t.inFlight == Without(s.inFlight, i)
  {
  }

  /** Without a stored token, fetching reports it and issues nothing. */
  lemma FetchWithoutTokenIssuesNothing(s: AuthState)
    requires AuthTokenKey !in s.defaults
    ensures FetchUserProfile(s) == s.(errorMessage := Some("No token found"))
  {
  }

  /** With a stored token, fetching issues exactly one GET whose bearer
      credential is the stored token, and changes nothing else. */
  lemma FetchSendsStoredToken(s: AuthState)
    requires AuthTokenKey in s.defaults
    ensures var t := FetchUserProfile(s);
      && |t.inFlight| == |s.inFlight| + 1
      && t.inFlight[..|s.inFlight|] == s.inFlight
      && t.inFlight[|s.inFlight|].httpMethod == "GET"
      && t.inFlight[|s.inFlight|].url == ProfileUrl
      && t.inFlight[|s.inFlight|].headers["Authorization"] == "Bearer " + s.defaults[AuthTokenKey]
      && t.(inFlight := s.inFlight) == s
  {
  }

  /** A delivered profile is stored; login state and error are untouched. */
  lemma ProfileSuccessSetsProfile(s: AuthState, i: nat, profile: UserProfile)
    requires i < |s.inFlight| && IsProfileRequest(s.inFlight[i])
    ensures var t := ReceiveProfileResult(s, i, Success(profile));
      && t.userProfile == Some(profile)
      && t.isLoggedIn == s.isLoggedIn
      && t.errorMessage == s.errorMessage
      && t.defaults == s.defaults
      && t.inFlight == Without(s.inFlight, i)
  {
  }

  /** A failed profile fetch reports the error and clears `isLoggedIn`, but
      keeps the stored token and the last profile. */
  lemma ProfileFailureKeepsToken(s: AuthState, i: nat, message: string)
    requires i < |s.inFlight| && IsProfileRequest(s.inFlight[i])
    ensures var t := ReceiveProfileResult(s, i, Failure(message));
      && t.errorMessage == Some("Error fetching profile: " + message)
      && !t.isLoggedIn
      && t.defaults == s.defaults
      && t.userProfile == s.userProfile
      && t.inFlight == Without(s.inFlight, i)
  {
  }

  /** Logging out empties the token slot, the profile and `isLoggedIn`; the
      error message and the in-flight requests stay. */
  lemma LogoutClearsSession(s: AuthState)
    ensures var t := Logout(s);
      && StoredToken(t.defaults) == None
      && t.userProfile == None
      && !t.isLoggedIn
      && t.errorMessage == s.errorMessage
      && t.inFlight == s.inFlight
  {
  }

  lemma LogoutIdempotent(s: AuthState)
    ensures Logout(Logout(s)) == Logout(s)
  {
  }

  // ---------------------------------------------------------------------------
  // The invariant over whole runs

  lemma StepPreservesInvariant(s: AuthState, e: Event)
    requires Invariant(s) && Enabled(s, e)
    ensures Invariant(Step(s, e))
  {
  }

  lemma {:induction false} RunPreservesInvariant(s: AuthState, trace: seq<Event>)
    requires Invariant(s)
    ensures Run(s, trace).Some? ==> Invariant(Run(s, trace).value)
    decreases |trace|
  {
    if trace != [] && Enabled(s, trace[0]) {
      StepPreservesInvariant(s, trace[0]);
      RunPreservesInvariant(Step(s, trace[0]), trace[1..]);
    }
  }

  /** Every state reachable from a fresh view model keeps the invariant. */
  lemma ReachableStatesLoggedInHaveToken(defaults: map<string, string>, trace: seq<Event>)
    ensures var r := Run(Initial(defaults), trace);
      r.Some? && r.value.isLoggedIn ==> StoredToken(r.value.defaults).Some?
  {
    RunPreservesInvariant(Initial(defaults), trace);
  }

  // ---------------------------------------------------------------------------
  // Traces

  /** Login, token delivered, profile delivered: logged in with that profile
      and that token, and nothing left in flight. */
  lemma LoginThenProfile(defaults: map<string, string>, email: string, password: string,
                         token: string, profile: UserProfile)
    ensures Run(Initial(defaults),
                [LoginCalled(email, password),
                 LoginDelivered(0, Success(LoginResponse(token))),
                 ProfileDelivered(0, Success(profile))])
         == Some(AuthState(true, None, Some(profile), defaults[AuthTokenKey := token], []))
  {
    var trace := [LoginCalled(email, password),
                  LoginDelivered(0, Success(LoginResponse(token))),
                  ProfileDelivered(0, Success(profile))];
    var s1 := Login(Initial(defaults), email, password);
    var s2 := ReceiveLoginResult(s1, 0, Success(LoginResponse(token)));
    assert s2.inFlight == [ProfileRequest(token)];
    var s3 := ReceiveProfileResult(s2, 0, Success(profile));
    assert s3 == AuthState(true, None, Some(profile), defaults[AuthTokenKey := token], []);
    assert trace[1..][1..][1..] == [];
    assert Run(s2, trace[1..][1..]) == Some(s3);
    assert Run(s1, trace[1..]) == Run(s2, trace[1..][1..]);
  }

  /** A login result that arrives after `logout()` still logs the user in and
      stores its token: nothing tags requests with the session they belong to. */
  lemma LateLoginResultAfterLogout(defaults: map<string, string>, email: string, password: string, token: string)
    ensures var r := Run(Initial(defaults),
                         [LoginCalled(email, password),
                          LogoutCalled,
                          LoginDelivered(0, Success(LoginResponse(token)))]);
      && r.Some?
      && r.value.isLoggedIn
      && StoredToken(r.value.defaults) == Some(token)
      && r.value.inFlight == [ProfileRequest(token)]
  {
    var trace := [LoginCalled(email, password),
                  LogoutCalled,
                  LoginDelivered(0, Success(LoginResponse(token)))];
    var s1 := Login(Initial(defaults), email, password);
    var s2 := Logout(s1);
    assert s2.inFlight == [LoginRequest(email, password)];
    var s3 := ReceiveLoginResult(s2, 0, Success(LoginResponse(token)));
    assert s3.inFlight == [ProfileRequest(token)];
    assert trace[1..][1..][1..] == [];
    assert Run(s2, trace[1..][1..]) == Some(s3);
    assert Run(s1, trace[1..]) == Run(s2, trace[1..][1..]);
  }

  /** A profile result that arrives after `logout()` sets `userProfile` again,
      although the user stays logged out and no token is stored. */
  lemma LateProfileResultAfterLogout(defaults: map<string, string>, email: string, password: string,
                                     token: string, profile: UserProfile)
    ensures var r := Run(Initial(defaults),
                         [LoginCalled(email, password),
                          LoginDelivered(0, Success(LoginResponse(token))),
                          LogoutCalled,
                          ProfileDelivered(0, Success(profile))]);
      && r.Some?
      && !r.value.isLoggedIn
      && StoredToken(r.value.defaults) == None
      && r.value.userProfile == Some(profile)
      && r.value.inFlight == []
  {
    var trace := [LoginCalled(email, password),
                  LoginDelivered(0, Success(LoginResponse(token))),
                  LogoutCalled,
                  ProfileDelivered(0, Success(profile))];
    var s1 := Login(Initial(defaults), email, password);
    var s2 := ReceiveLoginResult(s1, 0, Success(LoginResponse(token)));
    assert s2.inFlight == [ProfileRequest(token)];
    var s3 := Logout(s2);
    assert s3.inFlight == [ProfileRequest(token)];
    var s4 := ReceiveProfileResult(s3, 0, Success(profile));
    assert s4.inFlight == [];
    assert trace[1..][1..][1..][1..] == [];
    assert Run(s3, trace[1..][1..][1..]) == Some(s4);
    assert Run(s2, trace[1..][1..]) == Run(s3, trace[1..][1..][1..]);
    assert Run(s1, trace[1..]) == Run(s2, trace[1..][1..]);
  }
}
