/**
 * `useUsers` (src/lib/hooks/useUsers.ts): the registered users, with an optional page and
 * limit, accepting either a bare array or a `{ data, count?, pagination? }` wrapper.
 */
module UsersHook {
  import opened Wrappers
  import opened Text
  import opened Thrown
  import opened ApiClient
  import opened HookCommon

  const UsersEndpoint := "/users"
  const FetchFallback := "Failed to fetch users"

  /** A registered user as the backend reports it. */
  datatype User = User(
    id: string,
    email: string,
    name: string,
    emailVerified: bool,
    phoneNumber: Option<string>,
    createdAt: string,
    lastLogin: string,
    isActive: bool,
    countryCode: string,
    currencyCode: string,
    disabled: bool)

  datatype Pagination = Pagination(currentPage: int, totalPages: int, totalUsers: int, hasNextPage: bool, hasPrevPage: bool)

  /** The shapes `response.data` may take. */
  datatype UsersPayload =
    /** A bare array of users. */
    | UserArray(users: seq<User>)
    /** An object with a `data` property (possibly `null`), and optional `count` and `pagination`. */
    | Wrapped(data: Option<seq<User>>, count: Option<int>, pagination: Option<Pagination>)
    /** Any other object. */
    | OtherShape

  /** What the hook stores from one successful response. */
  datatype UsersPage = UsersPage(users: seq<User>, totalCount: int, pagination: Option<Pagination>)

  /** The server's own count, when it gives a non-zero one. */
  predicate ReportsCount(p: UsersPayload) {
    p.Wrapped? && p.count.Some? && p.count.value != 0
  }

  /**
   * The normalisation of a response: a bare array is the whole list; a wrapper yields
   * `data || []`, `count || data?.length || 0` and `pagination || null`; any other shape is empty.
   */
  function Normalize(p: UsersPayload): (r: UsersPage)
    ensures p.UserArray? ==> r.users == p.users
    ensures p.Wrapped? ==> r.users == p.data.GetOr([]) && r.pagination == p.pagination
    ensures p.OtherShape? ==> r == UsersPage([], 0, None)
    ensures !ReportsCount(p) ==> r.totalCount == |r.users|
    ensures ReportsCount(p) ==> r.totalCount == p.count.value
    ensures !p.Wrapped? ==> r.pagination == None
  {
    match p
    case UserArray(users) => UsersPage(users, |users|, None)
    case Wrapped(data, count, pagination) =>
      var users := data.GetOr([]);
      var total :=
        if count.Some? && count.value != 0 then count.value
        else if data.Some? && |data.value| != 0 then |data.value|
        else 0;
      UsersPage(users, total, pagination)
    case OtherShape => UsersPage([], 0, None)
  }

  /** `page=<n>` as `URLSearchParams` writes it. */
  function PageParam(page: int): string {
    "page=" + IntToDecimal(page)
  }

  /** `limit=<n>` as `URLSearchParams` writes it. */
  function LimitParam(limit: int): string {
    "limit=" + IntToDecimal(limit)
  }

  /** `new URLSearchParams(...)`, holding `page` then `limit`, those that are given, joined by '&'. */
  function QueryString(page: Option<int>, limit: Option<int>): string {
    var params := (if page.Some? then [PageParam(page.value)] else []) + (if limit.Some? then [LimitParam(limit.value)] else []);
    Join(params, "&")
  }

  /** The endpoint of `fetchUsers(page, limit)`: a query string only when either is given. */
  function UsersUrl(page: Option<int>, limit: Option<int>): (r: string)
    ensures page.None? && limit.None? ==> r == UsersEndpoint
    ensures page.Some? && limit.None? ==> r == UsersEndpoint + "?" + PageParam(page.value)
    ensures page.None? && limit.Some? ==> r == UsersEndpoint + "?" + LimitParam(limit.value)
    ensures page.Some? && limit.Some? ==>
              r == UsersEndpoint + "?" + PageParam(page.value) + "&" + LimitParam(limit.value)
  {
    if page.Some? || limit.Some? then
      var query := QueryString(page, limit);
      assert page.Some? && limit.Some? ==> query == PageParam(page.value) + "&" + LimitParam(limit.value) by {
        if page.Some? && limit.Some? {
          var params := [PageParam(page.value)] + [LimitParam(limit.value)];
          assert params[1..] == [LimitParam(limit.value)];
          assert Join(params, "&") == params[0] + "&" + Join(params[1..], "&");
          assert query == Join(params, "&");
        }
      }
      UsersEndpoint + "?" + query
    else UsersEndpoint
  }

  /** What one fetch settles with: the normalised page of users, or the thrown error. */
  function FetchedUsers(outcome: HttpOutcome<UsersPayload>): Result<UsersPage, Thrown> {
    match Settle(GET, outcome, FetchFallback)
    case Success(p) => Success(Normalize(p))
    case Failure(e) => Failure(e)
  }

  class Users {
    const api: Api
    var users: seq<User>
    var isLoading: bool
    var error: Option<string>
    var totalCount: int
    var pagination: Option<Pagination>

    constructor (api: Api)
      ensures this.api == api && users == [] && !isLoading && error == None
      ensures totalCount == 0 && pagination == None
    {
      this.api := api;
      users := [];
      isLoading := false;
      error := None;
      totalCount := 0;
      pagination := None;
    }

    /** The part of the state one successful fetch replaces. */
    function Page(): UsersPage
      reads this
    {
      UsersPage(users, totalCount, pagination)
    }

    method ClearError()
      modifies this
      ensures error == None && Page() == old(Page()) && isLoading == old(isLoading)
    {
      error := None;
    }

    /**
     * `fetchUsers(page, limit)`: one GET; on success the normalised users, count and pagination
     * replace the old ones together, on failure they all stay and the error's message is kept.
     */
    method FetchUsers(page: Option<int>, limit: Option<int>, outcome: HttpOutcome<UsersPayload>) returns (rejection: Option<Thrown>)
      modifies this, api, api.store
      ensures api.sent == old(api.sent) + [old(api.RequestFor(GET, UsersUrl(page, limit), None))]
      ensures api.store.items == AfterRequest(GET, outcome, old(api.store.items))
      ensures !isLoading && rejection == None
      ensures var s := FetchedUsers(outcome);
              (s.Success? ==> Page() == s.value && error == None) &&
              (s.Failure? ==> Page() == old(Page()) && error == Some(MessageOr(s.error, FetchFallback)))
    {
      isLoading := true;
      ClearError();
      var endpoint := UsersEndpoint;
      if page.Some? || limit.Some? {
        endpoint := endpoint + "?" + QueryString(page, limit);
      }
      var response := api.Get(endpoint, outcome);
      var caught: Option<Thrown> := None;
      match response {
        case Failure(e) =>
          caught := Some(e);
        case Success(env) =>
          if env.status != "success" || env.data.None? {
            caught := Some(PlainError(FailureMessage(env, FetchFallback)));
          } else {
            var normalized := Normalize(env.data.value);
            users := normalized.users;
            totalCount := normalized.totalCount;
            pagination := normalized.pagination;
          }
      }
      if caught.Some? {
        error := Some(MessageOr(caught.value, FetchFallback));
      }
      isLoading := false;
      rejection := None;
    }

    /** `refreshUsers()`: the fetch without page or limit. */
    method RefreshUsers(outcome: HttpOutcome<UsersPayload>) returns (rejection: Option<Thrown>)
      modifies this, api, api.store
      ensures api.sent == old(api.sent) + [old(api.RequestFor(GET, UsersEndpoint, None))]
      ensures api.store.items == AfterRequest(GET, outcome, old(api.store.items))
      ensures !isLoading && rejection == None
      ensures var s := FetchedUsers(outcome);
              (s.Success? ==> Page() == s.value && error == None) &&
              (s.Failure? ==> Page() == old(Page()) && error == Some(MessageOr(s.error, FetchFallback)))
    {
      rejection := FetchUsers(None, None, outcome);
    }
  }
}
