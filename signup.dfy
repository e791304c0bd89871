/**
 * `SignUpView.signUpUser`: three guards in a fixed order, then a POST to the
 * sign-up endpoint whose completion handler sets the view's state.
 */
module SignUp {
  import opened Wrappers
  import opened Http
  import opened Email

  const SignUpUrl := "http://localhost:5500/api/auth/signup"

  const FillAllFields := "Please fill in all fields."
  const PasswordsDoNotMatch := "Passwords do not match."
  const EnterValidEmail := "Please enter a valid email address."
  const NetworkErrorPrefix := "Network error: "
  const UnknownError := "Unknown error"

  /** The message of the first guard that fails, or `None` when all pass. */
  function ValidationError(name: string, email: string, password: string, confirmPassword: string): Option<string>
  {
    if name == [] || email == [] || password == [] || confirmPassword == [] then Some(FillAllFields)
    else if password != confirmPassword then Some(PasswordsDoNotMatch)
    else if !IsValidEmail(email) then Some(EnterValidEmail)
    else None
  }

  function SignUpRequest(name: string, email: string, password: string): HttpRequest
  {
    HttpRequest("POST", SignUpUrl, ContentTypeJson,
                Some(map["name" := name, "email" := email, "password" := password]))
  }

  /** The sign-up request is a JSON POST to the sign-up endpoint whose body
      holds exactly the three form fields, under their own names. */
  lemma SignUpRequestCarriesForm(name: string, email: string, password: string)
    ensures var r := SignUpRequest(name, email, password);
      && r.httpMethod == "POST"
      && r.url == "http://localhost:5500/api/auth/signup"
      && r.headers == map["Content-Type" := "application/json"]
      && r.jsonBody.Some?
      && r.jsonBody.value.Keys == {"name", "email", "password"}
      && r.jsonBody.value["name"] == name
      && r.jsonBody.value["email"] == email
      && r.jsonBody.value["password"] == password
  {
  }

  /** What the data task hands its completion handler: the transport error's
      description, the HTTP status if the response is an HTTP response, and
      the body if there is one that decodes as UTF-8. */
  datatype SignUpResponse = SignUpResponse(
    error: Option<string>,
    statusCode: Option<int>,
    body: Option<string>)

  /** The completion handler's effect besides clearing `isLoading`. */
  datatype Completion = NavigateToLogin | ShowError(message: string)

  function HandleResponse(response: SignUpResponse): Completion
  {
    if response.error.Some? then ShowError(NetworkErrorPrefix + response.error.value)
    else if response.statusCode.Some? && 200 <= response.statusCode.value <= 201 then NavigateToLogin
    else ShowError(if response.body.Some? then response.body.value else UnknownError)
  }

  /** The guards, in order: empty fields first, then the password match, then
      the address format; all pass only when none of them fires. */
  lemma ValidationOrder(name: string, email: string, password: string, confirmPassword: string)
    ensures ValidationError(name, email, password, confirmPassword) == Some("Please fill in all fields.")
      <==> name == [] || email == [] || password == [] || confirmPassword == []
    ensures ValidationError(name, email, password, confirmPassword) == Some("Passwords do not match.")
      <==> name != [] && email != [] && password != [] && confirmPassword != [] && password != confirmPassword
    ensures ValidationError(name, email, password, confirmPassword) == Some("Please enter a valid email address.")
      <==> name != [] && email != [] && password != [] && confirmPassword != []
           && password == confirmPassword && !IsValidEmail(email)
    ensures ValidationError(name, email, password, confirmPassword) == None
      <==> name != [] && password != [] && password == confirmPassword && IsValidEmail(email)
  {
  }

  /** When validation passes, the address has the shape the pattern demands. */
  lemma PassedValidationHasAddressShape(name: string, email: string, password: string, confirmPassword: string)
    requires ValidationError(name, email, password, confirmPassword) == None
    ensures exists at, dot :: AddressShape(email, at, dot)
  {
    ValidEmailShape(email);
  }

  /** Status 200 and 201 navigate; any other status shows the body, or
      "Unknown error" without one; a transport error wins over both. */
  lemma ResponseOutcomes(response: SignUpResponse)
    ensures HandleResponse(response) == NavigateToLogin
      <==> response.error == None && response.statusCode in {Some(200), Some(201)}
    ensures response.error.Some? ==>
      HandleResponse(response) == ShowError("Network error: " + response.error.value)
    ensures response.error == None && response.statusCode !in {Some(200), Some(201)} ==>
      HandleResponse(response) == ShowError(if response.body.Some? then response.body.value else "Unknown error")
  {
  }

  class SignUpView {
    var name: string
    var email: string
    var password: string
    var confirmPassword: string
    var errorMessage: string
    var isLoading: bool
    var navigateToLogin: bool
    /** Sign-up requests whose completion handler has not run yet. */
    var inFlight: seq<HttpRequest>

    constructor ()
      ensures name == email == password == confirmPassword == errorMessage == ""
      ensures !isLoading && !navigateToLogin && inFlight == []
    {
      name, email, password, confirmPassword := "", "", "", "";
      errorMessage := "";
      isLoading, navigateToLogin := false, false;
      inFlight := [];
    }

    /** The text fields' bindings. */
    method EditFields(name: string, email: string, password: string, confirmPassword: string)
      modifies this
      ensures this.name == name && this.email == email
      ensures this.password == password && this.confirmPassword == confirmPassword
      ensures errorMessage == old(errorMessage) && isLoading == old(isLoading)
      ensures navigateToLogin == old(navigateToLogin) && inFlight == old(inFlight)
    {
      this.name, this.email, this.password, this.confirmPassword := name, email, password, confirmPassword;
    }

    /** `signUpUser()`: a failed guard shows its message and sends nothing; when
        all pass, the error is cleared, loading starts and the POST is sent. */
    method SignUpUser()
      modifies this
      ensures name == old(name) && email == old(email)
      ensures password == old(password) && confirmPassword == old(confirmPassword)
      ensures navigateToLogin == old(navigateToLogin)
      ensures match ValidationError(name, email, password, confirmPassword)
        case Some(message) =>
          errorMessage == message && isLoading == old(isLoading) && inFlight == old(inFlight)
        case None =>
          errorMessage == "" && isLoading && inFlight == old(inFlight) + [SignUpRequest(name, email, password)]
    {
      errorMessage := "";
      if name == [] || email == [] || password == [] || confirmPassword == [] {
        errorMessage := FillAllFields;
        return;
      }
      if password != confirmPassword {
        errorMessage := PasswordsDoNotMatch;
        return;
      }
      if !IsValidEmail(email) {
        errorMessage := EnterValidEmail;
        return;
      }
      isLoading := true;
      inFlight := inFlight + [SignUpRequest(name, email, password)];
    }

    /** The data task's completion handler, for the request at `inFlight[i]`. */
    method ReceiveResponse(i: nat, response: SignUpResponse)
      requires i < |inFlight|
      modifies this
      ensures !isLoading
      ensures inFlight == old(inFlight[..i] + inFlight[i + 1..])
      ensures name == old(name) && email == old(email)
      ensures password == old(password) && confirmPassword == old(confirmPassword)
      ensures match HandleResponse(response)
        case NavigateToLogin => navigateToLogin && errorMessage == old(errorMessage)
        case ShowError(message) => errorMessage == message && navigateToLogin == old(navigateToLogin)
    {
      inFlight := inFlight[..i] + inFlight[i + 1..];
      isLoading := false;
      if response.error.Some? {
        errorMessage := NetworkErrorPrefix + response.error.value;
        return;
      }
      if response.statusCode.Some? && 200 <= response.statusCode.value <= 201 {
        navigateToLogin := true;
      } else {
        errorMessage := if response.body.Some? then response.body.value else UnknownError;
      }
    }
  }
}
