/**
 * `useLogin` (src/lib/hooks/useLogin.ts): the sign-in form, its validation, the login request,
 * the session it stores, the message it shows when sign-in fails, and the remembered email.
 */
module LoginHook {
  import opened Wrappers
  import opened Text
  import opened Thrown
  import opened Browser
  import opened ApiClient
  import opened HookCommon
  import ApiErrorHandler
  import EH = ErrorHandler
  import opened ErrorHandlingHook
  import opened AdminsHook

  const LoginEndpoint := "/admin/login"
  const LoginFallback := "Login failed"

  /** The data of a successful login: the administrator and the tokens. */
  datatype LoginResponse = LoginResponse(admin: Admin, accessToken: string, refreshToken: Option<string>)

  const EmailRequired := "Email is required"
  const PasswordRequired := "Password is required"
  const InvalidEmail := "Please enter a valid email address"

  /**
   * `validateCredentials()`'s verdict, checked in order: a blank email, a blank password, then
   * an email (as typed, untrimmed) that the email pattern does not match.
   */
  function CredentialsProblem(email: string, password: string): Option<string> {
    if Trim(email) == "" then Some(EmailRequired)
    else if Trim(password) == "" then Some(PasswordRequired)
    else if !ApiErrorHandler.IsValidEmail(email) then Some(InvalidEmail)
    else None
  }

  /**
   * The form passes exactly when both fields hold something other than whitespace and the email
   * matches the email pattern; otherwise the first failing test names the problem.
   */
  lemma CredentialsProblemCases(email: string, password: string)
    ensures CredentialsProblem(email, password).None? <==>
              !IsBlank(email) && !IsBlank(password) && ApiErrorHandler.MatchesEmailPattern(email)
    ensures IsBlank(email) ==> CredentialsProblem(email, password) == Some(EmailRequired)
    ensures !IsBlank(email) && IsBlank(password) ==> CredentialsProblem(email, password) == Some(PasswordRequired)
    ensures !IsBlank(email) && !IsBlank(password) && !ApiErrorHandler.MatchesEmailPattern(email) ==>
              CredentialsProblem(email, password) == Some(InvalidEmail)
  {
    TrimEmptyIffBlank(email);
    TrimEmptyIffBlank(password);
    ApiErrorHandler.IsValidEmailMatchesPattern(email);
  }

  /**
   * An email that passes validation contains no whitespace at all, so the `email.trim()` of the
   * request and of the remembered email never changes it.
   */
  lemma ValidatedEmailIsTrimmed(email: string, password: string)
    requires CredentialsProblem(email, password).None?
    ensures Trim(email) == email
  {
    CredentialsProblemCases(email, password);
    var i, j :| ApiErrorHandler.EmailSplit(email, i, j);
    assert email[..i][0] == email[0];
    assert !IsSpace(email[0]);
    assert email[j + 1..][|email| - j - 2] == email[|email| - 1];
    assert !IsSpace(email[|email| - 1]);
    assert TrimStart(email) == email;
  }

  /** The login request body: `{ email: email.trim(), password: password.trim() }`. */
  function CredentialsJson(email: string, password: string): Json {
    JObject([("email", JString(Trim(email))), ("password", JString(Trim(password)))])
  }

  /**
   * The storage after `handleSuccessfulLogin`: the access token and the serialised admin are
   * written, the refresh token when it is truthy, and the remember-me pair is written or removed.
   */
  function SessionAfterLogin(items: map<string, string>, data: LoginResponse, userJson: string,
                             rememberMe: bool, email: string): (r: map<string, string>)
    ensures AuthTokenKey in r && r[AuthTokenKey] == data.accessToken
    ensures UserKey in r && r[UserKey] == userJson
    ensures data.refreshToken.Some? && data.refreshToken.value != "" ==> GetItem(r, RefreshTokenKey) == data.refreshToken
    ensures !(data.refreshToken.Some? && data.refreshToken.value != "") ==> GetItem(r, RefreshTokenKey) == GetItem(items, RefreshTokenKey)
    ensures rememberMe ==> GetItem(r, RememberMeKey) == Some("true") && GetItem(r, LastEmailKey) == Some(Trim(email))
    ensures !rememberMe ==> RememberMeKey !in r && LastEmailKey !in r
  {
    var withToken := items[AuthTokenKey := data.accessToken][UserKey := userJson];
    var withRefresh :=
      if data.refreshToken.Some? && data.refreshToken.value != "" then withToken[RefreshTokenKey := data.refreshToken.value]
      else withToken;
    if rememberMe then withRefresh[RememberMeKey := "true"][LastEmailKey := Trim(email)]
    else withRefresh - {RememberMeKey, LastEmailKey}
  }

  /** Signing in touches no storage key outside the session's own. */
  lemma SessionAfterLoginKeepsOtherKeys(items: map<string, string>, data: LoginResponse, userJson: string,
                                        rememberMe: bool, email: string, k: string)
    requires k !in SessionKeys
    ensures GetItem(SessionAfterLogin(items, data, userJson, rememberMe, email), k) == GetItem(items, k)
  {
  }

  /** What the mount effect restores: the last email, when remember-me is "true" and an email is stored. */
  function RememberedEmail(items: map<string, string>): (r: Option<string>)
    ensures r.Some? <==> GetItem(items, RememberMeKey) == Some("true") && IsSet(items, LastEmailKey)
    ensures r.Some? ==> r.value == items[LastEmailKey]
  {
    if GetItem(items, RememberMeKey) == Some("true") && IsSet(items, LastEmailKey) then Some(items[LastEmailKey]) else None
  }

  /**
   * The mount effect undoes the remember-me write: after a remembered sign-in with a valid email
   * the form comes back with that email; after a sign-in without remember-me it comes back empty.
   */
  lemma RememberedEmailRoundTrip(items: map<string, string>, data: LoginResponse, userJson: string,
                                 rememberMe: bool, email: string, password: string)
    requires CredentialsProblem(email, password).None?
    ensures rememberMe ==> RememberedEmail(SessionAfterLogin(items, data, userJson, rememberMe, email)) == Some(email)
    ensures !rememberMe ==> RememberedEmail(SessionAfterLogin(items, data, userJson, rememberMe, email)) == None
  {
    ValidatedEmailIsTrimmed(email, password);
    TrimEmptyIffBlank(email);
  }

  const ConnectionMessage := "Unable to connect to server. Please check your connection."
  const WrongCredentialsMessage := "Invalid email or password. Please try again."
  const BadRequestMessage := "Please check your login credentials."
  const LoginFailedMessage := "Login failed. Please try again."
  const UnexpectedLoginMessage := "An unexpected error occurred. Please try again."

  /** The message mentions either word. */
  predicate MentionsEither(message: string, a: string, b: string) {
    Contains(message, a) || Contains(message, b)
  }

  /**
   * The message `handleLoginError` shows, by the first matching test on the error's message:
   * a connection problem, a 401, a 400, otherwise the message itself (or a generic sentence
   * when it is empty); a thrown value that is not an `Error` gets the unexpected-error sentence.
   */
  function LoginErrorMessage(err: Thrown): (r: string)
    ensures r != ""
    ensures !err.IsError() ==> r == UnexpectedLoginMessage
    ensures err.IsError() && MentionsEither(err.message, "fetch", "network") ==> r == ConnectionMessage
    ensures (err.IsError() && !MentionsEither(err.message, "fetch", "network") &&
             MentionsEither(err.message, "401", "Unauthorized")) ==> r == WrongCredentialsMessage
    ensures (err.IsError() && !MentionsEither(err.message, "fetch", "network") &&
             !MentionsEither(err.message, "401", "Unauthorized") &&
             MentionsEither(err.message, "400", "Bad Request")) ==> r == BadRequestMessage
    ensures (err.IsError() && !MentionsEither(err.message, "fetch", "network") &&
             !MentionsEither(err.message, "401", "Unauthorized") &&
             !MentionsEither(err.message, "400", "Bad Request")) ==>
              r == (if err.message != "" then err.message else LoginFailedMessage)
  {
    if !err.IsError() then UnexpectedLoginMessage
    else if MentionsEither(err.message, "fetch", "network") then ConnectionMessage
    else if MentionsEither(err.message, "401", "Unauthorized") then WrongCredentialsMessage
    else if MentionsEither(err.message, "400", "Bad Request") then BadRequestMessage
    else if err.message != "" then err.message
    else LoginFailedMessage
  }

  class Login {
    const api: Api
    const nav: Navigator
    /** The hook's own `useErrorHandling` instance. */
    const errors: ErrorHandling
    var email: string
    var password: string
    var rememberMe: bool
    var showPassword: bool
    var isLoading: bool
    var error: Option<string>

    constructor (api: Api, nav: Navigator, errors: ErrorHandling)
      ensures this.api == api && this.nav == nav && this.errors == errors
      ensures email == "" && password == "" && !rememberMe && !showPassword && !isLoading && error == None
    {
      this.api := api;
      this.nav := nav;
      this.errors := errors;
      email := "";
      password := "";
      rememberMe := false;
      showPassword := false;
      isLoading := false;
      error := None;
    }

    /** `togglePasswordVisibility()` */
    method TogglePasswordVisibility()
      modifies this
      ensures showPassword == !old(showPassword)
      ensures email == old(email) && password == old(password) && rememberMe == old(rememberMe)
      ensures isLoading == old(isLoading) && error == old(error)
    {
      showPassword := !showPassword;
    }

    /** `clearError()`: both the form's message and the error-handling state. */
    method ClearError()
      modifies this, errors
      ensures error == None && errors.error == None
      ensures email == old(email) && password == old(password) && rememberMe == old(rememberMe)
      ensures isLoading == old(isLoading) && showPassword == old(showPassword)
    {
      error := None;
      errors.ClearError();
    }

    /** `validateCredentials()`: true when the form may be submitted; otherwise the problem is shown. */
    method ValidateCredentials() returns (ok: bool)
      modifies this
      ensures ok <==> CredentialsProblem(email, password).None?
      ensures error == if ok then old(error) else CredentialsProblem(email, password)
      ensures email == old(email) && password == old(password) && rememberMe == old(rememberMe)
      ensures isLoading == old(isLoading) && showPassword == old(showPassword)
    {
      if Trim(email) == "" {
        error := Some(EmailRequired);
        return false;
      }
      if Trim(password) == "" {
        error := Some(PasswordRequired);
        return false;
      }
      if !ApiErrorHandler.IsValidEmail(email) {
        error := Some(InvalidEmail);
        return false;
      }
      return true;
    }

    /** `performLogin()`: a POST of the trimmed credentials, then the envelope check. */
    method PerformLogin(outcome: HttpOutcome<LoginResponse>) returns (r: Result<LoginResponse, Thrown>)
      modifies api, api.store
      ensures api.sent == old(api.sent) + [old(api.RequestFor(POST, LoginEndpoint, Some(CredentialsJson(email, password))))]
      ensures api.store.items == AfterRequest(POST, outcome, old(api.store.items))
      ensures r == Settle(POST, outcome, LoginFallback)
    {
      var body := CredentialsJson(email, password);
      assert RequestBody(Some(body)) == Some(body);
      var response := api.Post(LoginEndpoint, Some(body), outcome);
      match response {
        case Failure(e) =>
          r := Failure(e);
        case Success(env) =>
          if env.status != "success" || env.data.None? {
            r := Failure(PlainError(FailureMessage(env, LoginFallback)));
          } else {
            r := Success(env.data.value);
          }
      }
    }

    /** `handleSuccessfulLogin(admin, token, refreshToken)`, with `JSON.stringify` as a parameter. */
    method HandleSuccessfulLogin(data: LoginResponse, stringify: Admin -> string)
      modifies api.store
      ensures api.store.items == SessionAfterLogin(old(api.store.items), data, stringify(data.admin), rememberMe, email)
    {
      api.SetToken(data.accessToken);
      api.store.SetItem(UserKey, stringify(data.admin));
      if data.refreshToken.Some? && data.refreshToken.value != "" {
        api.store.SetItem(RefreshTokenKey, data.refreshToken.value);
      }
      if rememberMe {
        api.store.SetItem(RememberMeKey, "true");
        api.store.SetItem(LastEmailKey, Trim(email));
      } else {
        api.store.RemoveItem(RememberMeKey);
        api.store.RemoveItem(LastEmailKey);
      }
    }

    /** `handleLoginError(err)`: the sign-in message, and the error classified as an authentication error. */
    method HandleLoginError(err: Thrown)
      modifies this, errors
      ensures error == Some(LoginErrorMessage(err))
      ensures errors.error == Some(EH.HandleAuthError(err))
      ensures email == old(email) && password == old(password) && rememberMe == old(rememberMe)
      ensures isLoading == old(isLoading) && showPassword == old(showPassword)
    {
      error := Some(LoginErrorMessage(err));
      errors.HandleAuthError(err);
    }

    /**
     * `handleSubmit()`: an invalid form shows its problem and sends nothing; otherwise the login
     * request is sent, and either the session is stored and the browser goes to the dashboard, or
     * the failure message is shown. Loading is over when it returns.
     */
    method HandleSubmit(outcome: HttpOutcome<LoginResponse>, stringify: Admin -> string)
      modifies this, errors, api, api.store, nav
      ensures email == old(email) && password == old(password) && rememberMe == old(rememberMe)
      ensures CredentialsProblem(email, password).Some? ==>
                error == CredentialsProblem(email, password) && errors.error == None &&
                isLoading == old(isLoading) &&
                api.sent == old(api.sent) && api.store.items == old(api.store.items) && nav.visited == old(nav.visited)
      ensures CredentialsProblem(email, password).None? ==>
                !isLoading &&
                api.sent == old(api.sent) + [old(api.RequestFor(POST, LoginEndpoint, Some(CredentialsJson(email, password))))]
      ensures CredentialsProblem(email, password).None? && Settle(POST, outcome, LoginFallback).Success? ==>
                var data := Settle(POST, outcome, LoginFallback).value;
                api.store.items == SessionAfterLogin(old(api.store.items), data, stringify(data.admin), rememberMe, email) &&
                nav.visited == old(nav.visited) + [DashboardPath] && error == None && errors.error == None
      ensures CredentialsProblem(email, password).None? && Settle(POST, outcome, LoginFallback).Failure? ==>
                var e := Settle(POST, outcome, LoginFallback).error;
                api.store.items == AfterRequest(POST, outcome, old(api.store.items)) &&
                nav.visited == old(nav.visited) &&
                error == Some(LoginErrorMessage(e)) && errors.error == Some(EH.HandleAuthError(e))
    {
      ClearError();
      var ok := ValidateCredentials();
      if !ok {
        return;
      }
      isLoading := true;
      var loginData := PerformLogin(outcome);
      match loginData {
        case Success(data) =>
          SettleSuccessKeepsStorage(POST, outcome, LoginFallback, old(api.store.items));
          HandleSuccessfulLogin(data, stringify);
          nav.Push(DashboardPath);
        case Failure(err) =>
          HandleLoginError(err);
      }
      isLoading := false;
    }

    /** The mount effect: restore the remembered email and tick remember-me. */
    method LoadRememberedEmail()
      modifies this
      ensures RememberedEmail(api.store.items).Some? ==>
                email == RememberedEmail(api.store.items).value && rememberMe
      ensures RememberedEmail(api.store.items).None? ==> email == old(email) && rememberMe == old(rememberMe)
      ensures password == old(password) && isLoading == old(isLoading) && error == old(error)
    {
      var rememberedEmail := GetItem(api.store.items, LastEmailKey);
      var shouldRemember := GetItem(api.store.items, RememberMeKey) == Some("true");
      if shouldRemember && rememberedEmail.Some? && rememberedEmail.value != "" {
        email := rememberedEmail.value;
        rememberMe := true;
      }
    }
  }

  /** "Invalid credentials" has none of the words `handleLoginError` looks for. */
  lemma InvalidCredentialsLacksFetch()
    ensures !Contains(InvalidCredentials, "fetch")
  {
    MissingCharNotContained("Invalid credentials", "fetch", 'f');
  }

  lemma InvalidCredentialsLacksNetwork()
    ensures !Contains(InvalidCredentials, "network")
  {
    MissingCharNotContained("Invalid credentials", "network", 'w');
  }

  lemma InvalidCredentialsLacks401()
    ensures !Contains(InvalidCredentials, "401")
  {
    MissingCharNotContained("Invalid credentials", "401", '4');
  }

  lemma InvalidCredentialsLacksUnauthorized()
    ensures !Contains(InvalidCredentials, "Unauthorized")
  {
    MissingCharNotContained("Invalid credentials", "Unauthorized", 'U');
  }

  lemma InvalidCredentialsLacks400()
    ensures !Contains(InvalidCredentials, "400")
  {
    MissingCharNotContained("Invalid credentials", "400", '4');
  }

  lemma InvalidCredentialsLacksBadRequest()
    ensures !Contains(InvalidCredentials, "Bad Request")
  {
    MissingCharNotContained("Invalid credentials", "Bad Request", 'q');
  }

  /**
   * The login request's 401 reaches `handleLoginError` as "Invalid credentials" (the client's
   * POST message), which mentions neither 401 nor Unauthorized: it is shown as it is.
   */
  lemma LoginRejectionShownVerbatim(statusText: string, body: Envelope<LoginResponse>)
    ensures var s := Settle(POST, Response(401, statusText, body), LoginFallback);
            s == Failure(PlainError(InvalidCredentials)) && LoginErrorMessage(s.error) == InvalidCredentials
  {
    InvalidCredentialsLacksFetch();
    InvalidCredentialsLacksNetwork();
    InvalidCredentialsLacks401();
    InvalidCredentialsLacksUnauthorized();
    InvalidCredentialsLacks400();
    InvalidCredentialsLacksBadRequest();
  }
}
