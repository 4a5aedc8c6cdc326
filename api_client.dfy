/**
 * The `Api` singleton of src/lib/api.ts: five HTTP verbs against `baseUrl + endpoint`, each
 * carrying `Authorization: Bearer <authToken>` when a token is stored, each turning a
 * non-2xx response into a thrown `Error`; GET and POST also forget the stored token on 401.
 *
 * `fetch` itself is not modelled: each verb takes the outcome of the request as a parameter
 * (a response, or a network failure, which `fetch` reports as a `TypeError`), and the `Api`
 * object records every request it issues in `sent`.
 */
module ApiClient {
  import opened Wrappers
  import opened Text
  import opened Thrown
  import opened Browser

  /** `ApiResponse<T>`: `{ status, data?, message?, error? }` */
  datatype Envelope<T> = Envelope(status: string, data: Option<T>, message: Option<string>, error: Option<string>)

  /** What `fetch` settles with: a response with its status line and parsed body, or a `TypeError`. */
  datatype HttpOutcome<T> =
    | Response(code: int, statusText: string, body: Envelope<T>)
    | NetworkFailure(reason: string)

  /** Request bodies, as the JSON values passed to `JSON.stringify`. */
  datatype Json =
    | JNull
    | JBool(b: bool)
    | JNumber(n: int)
    | JString(s: string)
    | JObject(fields: seq<(string, Json)>)
  {
    /** JavaScript truthiness of the value. */
    predicate IsTruthy() {
      match this
      case JNull => false
      case JBool(b) => b
      case JNumber(n) => n != 0
      case JString(s) => s != ""
      case JObject(_) => true
    }
  }

  /** The HTTP method of a request. */
  datatype Verb = GET | POST | PUT | DELETE | PATCH

  /** One `fetch` call: method, URL, `Authorization` header (if any) and body (if any). */
  datatype Request = Request(verb: Verb, url: string, authorization: Option<string>, body: Option<Json>)

  const DefaultBaseUrl := "http://localhost:3000/api"

  /** `getAuthHeaders()`: a bearer header exactly when a non-empty token is stored. */
  function BearerHeader(items: map<string, string>): (h: Option<string>)
    ensures h.Some? <==> IsSet(items, AuthTokenKey)
    ensures h.Some? ==> h.value == "Bearer " + items[AuthTokenKey]
  {
    if IsSet(items, AuthTokenKey) then Some("Bearer " + items[AuthTokenKey]) else None
  }

  /** The token can be read back from the header the client sends. */
  lemma BearerHeaderCarriesToken(items: map<string, string>)
    requires IsSet(items, AuthTokenKey)
    ensures var h := BearerHeader(items).value;
            |h| > 7 && h[..7] == "Bearer " && h[7..] == items[AuthTokenKey]
  {
  }

  /** `data ? JSON.stringify(data) : undefined` */
  function RequestBody(data: Option<Json>): (b: Option<Json>)
    ensures b.Some? <==> data.Some? && data.value.IsTruthy()
    ensures b.Some? ==> b == data
  {
    if data.Some? && data.value.IsTruthy() then data else None
  }

  /** `response.ok` */
  predicate IsOk(code: int) {
    200 <= code <= 299
  }

  /** `HTTP ${response.status}: ${response.statusText}` */
  function HttpMessage(code: int, statusText: string): (m: string)
    ensures |m| > 5 && m[..5] == "HTTP " && Contains(m, statusText)
  {
    var m := "HTTP " + IntToDecimal(code) + ": " + statusText;
    assert OccursAt(m, statusText, |m| - |statusText|);
    ContainsIffOccurs(m, statusText);
    m
  }

  /** The status code can be read back from the message of a failed request. */
  lemma HttpMessageDistinguishesCodes(a: int, b: int, text: string)
    requires HttpMessage(a, text) == HttpMessage(b, text)
    ensures a == b
  {
    var ma := "HTTP " + IntToDecimal(a) + ": " + text;
    var mb := "HTTP " + IntToDecimal(b) + ": " + text;
    assert ma[5..|ma| - |text| - 2] == IntToDecimal(a);
    assert mb[5..|mb| - |text| - 2] == IntToDecimal(b);
    IntToDecimalInjective(a, b);
  }

  const AuthenticationRequired := "Authentication required"
  const InvalidCredentials := "Invalid credentials"
  const AccessForbidden := "Access forbidden"

  /**
   * How a verb settles for a given fetch outcome: a network failure rethrows the `TypeError`,
   * a 2xx response resolves with its body, and any other status throws an `Error` whose
   * message depends on the verb: GET names a 401, POST names a 401 and a 403, and every
   * other case is the generic HTTP status message.
   */
  function VerbResult<T>(verb: Verb, outcome: HttpOutcome<T>): (r: Result<Envelope<T>, Thrown>)
    ensures outcome.NetworkFailure? ==> r == Failure(TypeError(outcome.reason))
    ensures outcome.Response? && IsOk(outcome.code) ==> r == Success(outcome.body)
    ensures outcome.Response? && !IsOk(outcome.code) ==> r.Failure? && r.error.PlainError?
  {
    match outcome
    case NetworkFailure(reason) => Failure(TypeError(reason))
    case Response(code, statusText, body) =>
      if IsOk(code) then Success(body)
      else if verb == GET && code == 401 then Failure(PlainError(AuthenticationRequired))
      else if verb == POST && code == 401 then Failure(PlainError(InvalidCredentials))
      else if verb == POST && code == 403 then Failure(PlainError(AccessForbidden))
      else Failure(PlainError(HttpMessage(code, statusText)))
  }

  /** Whether the verb removes the stored `authToken` before throwing. */
  predicate RemovesToken<T>(verb: Verb, outcome: HttpOutcome<T>) {
    outcome.Response? && outcome.code == 401 && (verb == GET || verb == POST)
  }

  /** The storage left behind by one request. */
  function AfterRequest<T>(verb: Verb, outcome: HttpOutcome<T>, items: map<string, string>): (r: map<string, string>)
    ensures RemovesToken(verb, outcome) ==> r == items - {AuthTokenKey}
    ensures !RemovesToken(verb, outcome) ==> r == items
  {
    if RemovesToken(verb, outcome) then items - {AuthTokenKey} else items
  }

  /** A GET answered 401 forgets the token and throws "Authentication required". */
  lemma GetUnauthorized<T>(statusText: string, body: Envelope<T>, items: map<string, string>)
    ensures var outcome := Response(401, statusText, body);
            VerbResult(GET, outcome) == Failure(PlainError(AuthenticationRequired)) &&
            AuthTokenKey !in AfterRequest(GET, outcome, items) &&
            AfterRequest(GET, outcome, items) == items - {AuthTokenKey}
  {
  }

  /** A POST answered 401 forgets the token and throws "Invalid credentials"; a 403 keeps it and throws "Access forbidden". */
  lemma PostUnauthorizedOrForbidden<T>(statusText: string, body: Envelope<T>, items: map<string, string>)
    ensures VerbResult(POST, Response(401, statusText, body)) == Failure(PlainError(InvalidCredentials))
    ensures AfterRequest(POST, Response(401, statusText, body), items) == items - {AuthTokenKey}
    ensures VerbResult(POST, Response(403, statusText, body)) == Failure(PlainError(AccessForbidden))
    ensures AfterRequest(POST, Response(403, statusText, body), items) == items
  {
  }

  /** PUT, DELETE and PATCH never touch storage and report every failing status the same way. */
  lemma WriteVerbsKeepToken<T>(verb: Verb, outcome: HttpOutcome<T>, items: map<string, string>)
    requires verb in {PUT, DELETE, PATCH}
    ensures AfterRequest(verb, outcome, items) == items
    ensures outcome.Response? && !IsOk(outcome.code) ==>
              VerbResult(verb, outcome) == Failure(PlainError(HttpMessage(outcome.code, outcome.statusText)))
  {
  }

  /** Storage changes only by losing the token, and only when the request throws. */
  lemma StorageChangesOnlyOnFailure<T>(verb: Verb, outcome: HttpOutcome<T>, items: map<string, string>)
    ensures AfterRequest(verb, outcome, items) != items ==>
              VerbResult(verb, outcome).Failure? && AuthTokenKey in items &&
              AfterRequest(verb, outcome, items) == items - {AuthTokenKey}
  {
  }

  class Api {
    const baseUrl: string
    const store: LocalStorage
    var sent: seq<Request>

    /** `new Api(baseUrl)`, sharing the browser's storage. */
    constructor (baseUrl: string, store: LocalStorage)
      ensures this.baseUrl == baseUrl && this.store == store && sent == []
    {
      this.baseUrl := baseUrl;
      this.store := store;
      sent := [];
    }

    /** The request this client issues for a verb, endpoint and body in the current state. */
    function RequestFor(verb: Verb, endpoint: string, body: Option<Json>): (r: Request)
      reads store
      ensures r.url == baseUrl + endpoint && r.verb == verb && r.body == body
      ensures r.authorization == BearerHeader(store.items)
    {
      Request(verb, baseUrl + endpoint, BearerHeader(store.items), body)
    }

    /** `getToken()` */
    method GetToken() returns (token: Option<string>)
      ensures token == GetItem(store.items, AuthTokenKey)
    {
      token := GetItem(store.items, AuthTokenKey);
    }

    /** `setToken(token)` */
    method SetToken(token: string)
      modifies store
      ensures store.items == old(store.items)[AuthTokenKey := token]
    {
      store.SetItem(AuthTokenKey, token);
    }

    /** `removeToken()` */
    method RemoveToken()
      modifies store
      ensures store.items == old(store.items) - {AuthTokenKey}
    {
      store.RemoveItem(AuthTokenKey);
    }

    method Issue(verb: Verb, endpoint: string, body: Option<Json>)
      modifies this
      ensures sent == old(sent) + [RequestFor(verb, endpoint, body)]
    {
      sent := sent + [Request(verb, baseUrl + endpoint, BearerHeader(store.items), body)];
    }

    /** `api.get(endpoint)` */
    method Get<T>(endpoint: string, outcome: HttpOutcome<T>) returns (r: Result<Envelope<T>, Thrown>)
      modifies this, store
      ensures sent == old(sent) + [old(RequestFor(GET, endpoint, None))]
      ensures r == VerbResult(GET, outcome)
      ensures store.items == AfterRequest(GET, outcome, old(store.items))
    {
      Issue(GET, endpoint, None);
      match outcome
      case NetworkFailure(reason) =>
        r := Failure(TypeError(reason));
      case Response(code, statusText, body) =>
        if !IsOk(code) {
          if code == 401 {
            RemoveToken();
            r := Failure(PlainError(AuthenticationRequired));
            return;
          }
          r := Failure(PlainError(HttpMessage(code, statusText)));
          return;
        }
        r := Success(body);
    }

    /** `api.post(endpoint, data)` */
    method Post<T>(endpoint: string, data: Option<Json>, outcome: HttpOutcome<T>) returns (r: Result<Envelope<T>, Thrown>)
      modifies this, store
      ensures sent == old(sent) + [old(RequestFor(POST, endpoint, RequestBody(data)))]
      ensures r == VerbResult(POST, outcome)
      ensures store.items == AfterRequest(POST, outcome, old(store.items))
    {
      Issue(POST, endpoint, RequestBody(data));
      match outcome
      case NetworkFailure(reason) =>
        r := Failure(TypeError(reason));
      case Response(code, statusText, body) =>
        if !IsOk(code) {
          if code == 401 {
            RemoveToken();
            r := Failure(PlainError(InvalidCredentials));
            return;
          }
          if code == 403 {
            r := Failure(PlainError(AccessForbidden));
            return;
          }
          r := Failure(PlainError(HttpMessage(code, statusText)));
          return;
        }
        r := Success(body);
    }

    /** `api.put(endpoint, data)` */
    method Put<T>(endpoint: string, data: Option<Json>, outcome: HttpOutcome<T>) returns (r: Result<Envelope<T>, Thrown>)
      modifies this
      ensures sent == old(sent) + [old(RequestFor(PUT, endpoint, RequestBody(data)))]
      ensures r == VerbResult(PUT, outcome)
    {
      Issue(PUT, endpoint, RequestBody(data));
      match outcome
      case NetworkFailure(reason) =>
        r := Failure(TypeError(reason));
      case Response(code, statusText, body) =>
        if !IsOk(code) {
          r := Failure(PlainError(HttpMessage(code, statusText)));
          return;
        }
        r := Success(body);
    }

    /** `api.delete(endpoint)` */
    method Delete<T>(endpoint: string, outcome: HttpOutcome<T>) returns (r: Result<Envelope<T>, Thrown>)
      modifies this
      ensures sent == old(sent) + [old(RequestFor(DELETE, endpoint, None))]
      ensures r == VerbResult(DELETE, outcome)
    {
      Issue(DELETE, endpoint, None);
      match outcome
      case NetworkFailure(reason) =>
        r := Failure(TypeError(reason));
      case Response(code, statusText, body) =>
        if !IsOk(code) {
          r := Failure(PlainError(HttpMessage(code, statusText)));
          return;
        }
        r := Success(body);
    }

    /** `api.patch(endpoint, data)` */
    method Patch<T>(endpoint: string, data: Option<Json>, outcome: HttpOutcome<T>) returns (r: Result<Envelope<T>, Thrown>)
      modifies this
      ensures sent == old(sent) + [old(RequestFor(PATCH, endpoint, RequestBody(data)))]
      ensures r == VerbResult(PATCH, outcome)
    {
      Issue(PATCH, endpoint, RequestBody(data));
      match outcome
      case NetworkFailure(reason) =>
        r := Failure(TypeError(reason));
      case Response(code, statusText, body) =>
        if !IsOk(code) {
          r := Failure(PlainError(HttpMessage(code, statusText)));
          return;
        }
        r := Success(body);
    }
  }
}
