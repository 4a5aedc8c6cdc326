/**
 * The `ApiErrorHandler` helpers and the form validators of src/lib/utils/errorHandling.ts:
 * extracting a message from any thrown value, recognising the backend's error objects
 * (`{ status: 'error', message, errors?, statusCode? }`), and validating form fields.
 */
module ApiErrorHandler {
  import opened Wrappers
  import opened Text
  import opened Thrown
  import ApiClient

  const UnexpectedMessage := "An unexpected error occurred"

  /**
   * `ApiErrorHandler.handleError`: an `Error`'s message, a thrown string itself, the `message`
   * property of any object that has one, and the generic sentence otherwise.
   */
  function HandleError(e: Thrown): (r: string)
    ensures e.IsError() ==> r == e.message
    ensures e.StringValue? ==> r == e.text
    ensures e.ObjectValue? && e.messageField.Some? ==> r == e.messageField.value
    ensures e.OtherValue? || (e.ObjectValue? && e.messageField.None?) ==> r == UnexpectedMessage
  {
    match e
    case PlainError(m) => m
    case TypeError(m) => m
    case ApiError(m, _, _) => m
    case StringValue(s) => s
    case ObjectValue(_, message, _, _) => message.GetOr(UnexpectedMessage)
    case OtherValue => UnexpectedMessage
  }

  /** `ApiErrorHandler.isApiError`: an object with a `message` and `status === 'error'`. */
  predicate IsApiError(e: Thrown) {
    e.ObjectValue? && e.statusField == Some("error") && e.messageField.Some?
  }

  /** The backend object carries a non-empty list of field errors. */
  predicate HasErrorList(e: Thrown) {
    e.ObjectValue? && e.errors.Some? && |e.errors.value| > 0
  }

  /**
   * `ApiErrorHandler.getErrorMessage`: the field errors joined by ", " when a backend error
   * object lists any; otherwise the message `handleError` extracts.
   */
  function GetErrorMessage(e: Thrown): (r: string)
    ensures IsApiError(e) && HasErrorList(e) ==> r == Join(e.errors.value, ", ")
    ensures !(IsApiError(e) && HasErrorList(e)) ==> r == HandleError(e)
  {
    if IsApiError(e) then
      if e.errors.Some? && |e.errors.value| > 0 then Join(e.errors.value, ", ") else e.messageField.value
    else
      HandleError(e)
  }

  /**
   * `ApiErrorHandler.isAuthError`: a backend error object with status code 401 or 403, or an
   * `Error` whose lower-cased message mentions unauthorized, forbidden, token or authentication.
   */
  predicate IsAuthError(e: Thrown) {
    if IsApiError(e) then
      e.statusCode == Some(401) || e.statusCode == Some(403)
    else if e.IsError() then
      var message := Lower(e.message);
      Contains(message, "unauthorized") || Contains(message, "forbidden") ||
      Contains(message, "token") || Contains(message, "authentication")
    else
      false
  }

  /** `ApiErrorHandler.isValidationError`: a backend error object with 400 and a field-error list. */
  predicate IsValidationError(e: Thrown) {
    IsApiError(e) && e.statusCode == Some(400) && HasErrorList(e)
  }

  /** `ApiErrorHandler.getValidationErrors`: the field-error list of a backend error object, or none. */
  function GetValidationErrors(e: Thrown): (r: seq<string>)
    ensures IsApiError(e) && e.errors.Some? ==> r == e.errors.value
    ensures !(IsApiError(e) && e.errors.Some?) ==> r == []
  {
    if IsApiError(e) && e.errors.Some? then e.errors.value else []
  }

  /** A validation error always has field errors, and its message is exactly those errors joined. */
  lemma ValidationErrorMessage(e: Thrown)
    requires IsValidationError(e)
    ensures GetValidationErrors(e) != []
    ensures GetErrorMessage(e) == Join(GetValidationErrors(e), ", ")
  {
  }

  /**
   * The client's own thrown errors are `Error` instances, never backend error objects: their
   * message is taken as it is, and they are never validation errors.
   */
  lemma ClientErrorsAreNotApiErrors(e: Thrown)
    requires e.IsError()
    ensures !IsApiError(e) && !IsValidationError(e)
    ensures GetErrorMessage(e) == e.message
  {
  }

  /** For a backend error object the status code alone decides: 401 and 403 are auth errors. */
  lemma AuthErrorByStatus(e: Thrown)
    requires IsApiError(e)
    ensures IsAuthError(e) <==> e.statusCode == Some(401) || e.statusCode == Some(403)
  {
  }

  /** A thrown string, a value that is no object, or an object that is not a backend error is never an auth error. */
  lemma NonErrorsAreNotAuthErrors(e: Thrown)
    requires !e.IsError() && !IsApiError(e)
    ensures !IsAuthError(e)
  {
  }

  /** A validation error (400) is never an auth error. */
  lemma ValidationErrorIsNotAuthError(e: Thrown)
    requires IsValidationError(e)
    ensures !IsAuthError(e)
  {
  }

  /** The client's "Authentication required" (a 401 on a read) is an auth error: it mentions authentication. */
  lemma AuthenticationRequiredIsAuthError()
    ensures IsAuthError(PlainError(ApiClient.AuthenticationRequired))
  {
    var m := Lower(ApiClient.AuthenticationRequired);
    assert m[0] == 'a';
    assert m[..14] == "authentication";
  }

  /** The client's "Invalid credentials" (a 401 on a write) is not: it names none of the four words. */
  lemma InvalidCredentialsIsNotAuthError()
    ensures !IsAuthError(PlainError(ApiClient.InvalidCredentials))
  {
    LowerInvalidCredentials();
    LacksUnauthorized();
    LacksForbidden();
    LacksToken();
    LacksAuthentication();
  }

  lemma LowerInvalidCredentials()
    ensures Lower(ApiClient.InvalidCredentials) == "invalid credentials"
  {
  }

  lemma LacksUnauthorized()
    ensures !Contains("invalid credentials", "unauthorized")
  {
    MissingCharNotContained("invalid credentials", "unauthorized", 'u');
  }

  lemma LacksForbidden()
    ensures !Contains("invalid credentials", "forbidden")
  {
    MissingCharNotContained("invalid credentials", "forbidden", 'b');
  }

  lemma LacksToken()
    ensures !Contains("invalid credentials", "token")
  {
    MissingCharNotContained("invalid credentials", "token", 'k');
  }

  lemma LacksAuthentication()
    ensures !Contains("invalid credentials", "authentication")
  {
    MissingCharNotContained("invalid credentials", "authentication", 'u');
  }

  /** For anything but a backend error object with field errors, both message helpers agree. */
  lemma MessageHelpersAgree(e: Thrown)
    requires !HasErrorList(e)
    ensures GetErrorMessage(e) == HandleError(e)
  {
  }

  /** `validateRequired`: missing, empty or whitespace-only values are rejected with the field name. */
  function ValidateRequired(value: string, fieldName: string): (r: Option<string>)
    ensures r.Some? <==> IsBlank(value)
    ensures r.Some? ==> r.value == fieldName + " is required"
  {
    TrimEmptyIffBlank(value);
    if value == "" || |Trim(value)| == 0 then Some(fieldName + " is required") else None
  }

  /** Characters allowed by the class `[^\s@]`, over a whole string. */
  predicate NoSpaceOrAt(s: string) {
    forall k | 0 <= k < |s| :: !IsSpace(s[k]) && s[k] != '@'
  }

  /**
   * `/^[^\s@]+@[^\s@]+\.[^\s@]+$/` matches `s` splitting it at an '@' at `i` and a '.' at `j`,
   * each of the three parts non-empty and free of whitespace and '@'.
   */
  predicate EmailSplit(s: string, i: int, j: int) {
    0 < i && i + 1 < j && j + 1 < |s| && s[i] == '@' && s[j] == '.' &&
    NoSpaceOrAt(s[..i]) && NoSpaceOrAt(s[i + 1..j]) && NoSpaceOrAt(s[j + 1..])
  }

  /** The language of the email regular expression. */
  ghost predicate MatchesEmailPattern(s: string) {
    exists i, j :: EmailSplit(s, i, j)
  }

  /** Position of the first `c` in `s`, or `|s|` when there is none. */
  function IndexOf(s: string, c: char): (i: nat)
    ensures i <= |s|
    ensures i < |s| ==> s[i] == c
  {
    if s == [] || s[0] == c then 0 else 1 + IndexOf(s[1..], c)
  }

  /** `IndexOf` reports a position holding `c` with no `c` before it. */
  lemma {:induction false} IndexOfFirst(s: string, c: char, i: int)
    requires 0 <= i < |s| && s[i] == c
    requires forall k | 0 <= k < i :: s[k] != c
    ensures IndexOf(s, c) == i
  {
    if i > 0 {
      IndexOfFirst(s[1..], c, i - 1);
    }
  }

  /** A '.' somewhere strictly inside `d`. */
  predicate HasInnerDot(d: string) {
    exists j | 0 < j < |d| - 1 :: d[j] == '.'
  }

  /** `emailRegex.test(s)`, decided without backtracking: split at the first '@'. */
  predicate IsValidEmail(s: string) {
    var at := IndexOf(s, '@');
    0 < at < |s| && NoSpaceOrAt(s[..at]) && NoSpaceOrAt(s[at + 1..]) && HasInnerDot(s[at + 1..])
  }

  /** Every string the decision procedure accepts is matched by the regular expression. */
  lemma ValidEmailMatches(s: string)
    requires IsValidEmail(s)
    ensures MatchesEmailPattern(s)
  {
    var at := IndexOf(s, '@');
    var d := s[at + 1..];
    var k :| 0 < k < |d| - 1 && d[k] == '.';
    var j := at + 1 + k;
    assert s[at + 1..j] == d[..k];
    assert s[j + 1..] == d[k + 1..];
    assert EmailSplit(s, at, j);
  }

  /** In a match, the '@' of the split is the first '@' of the string. */
  lemma SplitAtFirstAt(s: string, i: int, j: int)
    requires EmailSplit(s, i, j)
    ensures IndexOf(s, '@') == i
  {
    assert forall k | 0 <= k < i :: s[k] == s[..i][k];
    IndexOfFirst(s, '@', i);
  }

  /** Every string the regular expression matches is accepted by the decision procedure. */
  lemma MatchedEmailValid(s: string)
    requires MatchesEmailPattern(s)
    ensures IsValidEmail(s)
  {
    var i, j :| EmailSplit(s, i, j);
    SplitAtFirstAt(s, i, j);
    var d := s[i + 1..];
    assert d[j - i - 1] == '.';
    forall k | 0 <= k < |d|
      ensures !IsSpace(d[k]) && d[k] != '@'
    {
      if k < j - i - 1 {
        assert d[k] == s[i + 1..j][k];
      } else if k > j - i - 1 {
        assert d[k] == s[j + 1..][k - (j - i)];
      }
    }
  }

  /** The first-'@' decision procedure accepts exactly the strings the regular expression matches. */
  lemma IsValidEmailMatchesPattern(s: string)
    ensures IsValidEmail(s) <==> MatchesEmailPattern(s)
  {
    if IsValidEmail(s) {
      ValidEmailMatches(s);
    }
    if MatchesEmailPattern(s) {
      MatchedEmailValid(s);
    }
  }

  const InvalidEmailMessage := "Please enter a valid email address"

  /** `validateEmail`: rejected exactly when the email regular expression does not match. */
  function ValidateEmail(email: string): (r: Option<string>)
    ensures r.Some? <==> !MatchesEmailPattern(email)
    ensures r.Some? ==> r.value == InvalidEmailMessage
  {
    IsValidEmailMatchesPattern(email);
    if !IsValidEmail(email) then Some(InvalidEmailMessage) else None
  }

  /** `validatePassword`: fewer than six characters is rejected. */
  function ValidatePassword(password: string): (r: Option<string>)
    ensures r.Some? <==> |password| < 6
    ensures r.Some? ==> r.value == "Password must be at least 6 characters long"
  {
    if |password| < 6 then Some("Password must be at least 6 characters long") else None
  }

  /** `validatePasswordConfirmation`: any difference between the two entries is rejected. */
  function ValidatePasswordConfirmation(password: string, confirmation: string): (r: Option<string>)
    ensures r.Some? <==> password != confirmation
    ensures r.Some? ==> r.value == "Passwords do not match"
  {
    if password != confirmation then Some("Passwords do not match") else None
  }
}
