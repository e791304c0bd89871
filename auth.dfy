/**
 * `AuthViewModel` and the persisted store it writes, as objects updated in
 * place. Each method is proved against the transition of the same name in
 * module Session, so everything proved there holds of these objects.
 */
module Auth {
  import opened Wrappers
  import opened Http
  import opened Session

  /** `UserDefaults.standard`: a key-value store that outlives the view model. */
  class UserDefaults {
    var values: map<string, string>

    constructor (values: map<string, string>)
      ensures this.values == values
    {
      this.values := values;
    }

    /** `set(_:forKey:)` overwrites any earlier value. */
    method Set(value: string, key: string)
      modifies this
      ensures values == old(values)[key := value]
    {
      values := values[key := value];
    }

    /** `string(forKey:)`. */
    method StringForKey(key: string) returns (r: Option<string>)
      ensures r.Some? <==> key in values
      ensures r.Some? ==> r.value == values[key]
    {
      r := if key in values then Some(values[key]) else None;
    }

    /** `removeObject(forKey:)` is a no-op when nothing is stored. */
    method RemoveObject(key: string)
      modifies this
      ensures values == old(values) - {key}
    {
      values := values - {key};
    }
  }

  class AuthViewModel {
    var isLoggedIn: bool
    var errorMessage: Option<string>
    var userProfile: Option<UserProfile>
    /** Requests whose subscription in `cancellables` has not delivered yet. */
    var inFlight: seq<HttpRequest>
    const defaults: UserDefaults

    /** The abstract value of the view model and the store. */
    function State(): AuthState
      reads this, defaults
    {
      AuthState(isLoggedIn, errorMessage, userProfile, defaults.values, inFlight)
    }

    ghost predicate Valid()
      reads this, defaults
    {
      Invariant(State())
    }

    constructor (defaults: UserDefaults)
      ensures this.defaults == defaults
      ensures State() == Initial(defaults.values)
      ensures Valid()
    {
      isLoggedIn := false;
      errorMessage := None;
      userProfile := None;
      inFlight := [];
      this.defaults := defaults;
    }

    /** `login(email:password:)`: builds the POST and subscribes to it. */
    method Login(email: string, password: string)
      requires Valid()
      modifies this
      ensures Valid()
      ensures State() == Session.Login(old(State()), email, password)
    {
      inFlight := inFlight + [LoginRequest(email, password)];
    }

    /** `fetchUserProfile()`. */
    method FetchUserProfile()
      requires Valid()
      modifies this
      ensures Valid()
      ensures State() == Session.FetchUserProfile(old(State()))
    {
      var token := defaults.StringForKey(AuthTokenKey);
      if token.None? {
        errorMessage := Some(NoTokenMessage);
        return;
      }
      inFlight := inFlight + [ProfileRequest(token.value)];
    }

    /** The login subscription's `sink`, for the request at `inFlight[i]`. */
    method ReceiveLoginResult(i: nat, result: Result<LoginResponse>)
      requires Valid()
      requires i < |inFlight| && IsLoginRequest(inFlight[i])
      modifies this, defaults
      ensures Valid()
      ensures State() == Session.ReceiveLoginResult(old(State()), i, result)
    {
      inFlight := inFlight[..i] + inFlight[i + 1..];
      match result
      case Failure(message) =>
        errorMessage := Some(LoginFailedPrefix + message);
        isLoggedIn := false;
      case Success(response) =>
        defaults.Set(response.token, AuthTokenKey);
        isLoggedIn := true;
        FetchUserProfile();
    }

    /** The profile subscription's `sink`, for the request at `inFlight[i]`. */
    method ReceiveProfileResult(i: nat, result: Result<UserProfile>)
      requires Valid()
      requires i < |inFlight| && IsProfileRequest(inFlight[i])
      modifies this
      ensures Valid()
      ensures State() == Session.ReceiveProfileResult(old(State()), i, result)
    {
      inFlight := inFlight[..i] + inFlight[i + 1..];
      match result
      case Failure(message) =>
        errorMessage := Some(ProfileFailedPrefix + message);
        isLoggedIn := false;
      case Success(profile) =>
        userProfile := Some(profile);
    }

    /** `logout()`. */
    method Logout()
      requires Valid()
      modifies this, defaults
      ensures Valid()
      ensures State() == Session.Logout(old(State()))
    {
      defaults.RemoveObject(AuthTokenKey);
      userProfile := None;
      isLoggedIn := false;
    }
  }
}
