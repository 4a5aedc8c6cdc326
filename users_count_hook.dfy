/** `useUsersCount` (src/lib/hooks/useUsersCount.ts): the total number of registered users. */
module UsersCountHook {
  import opened Wrappers
  import opened Thrown
  import opened ApiClient
  import opened HookCommon

  const UsersCountEndpoint := "/users/count"
  const FetchFallback := "Failed to fetch users count"

  /** `{ totalUsers }`; `None` when the property is missing. */
  datatype UsersCountResponse = UsersCountResponse(totalUsers: Option<int>)

  /** `data.totalUsers || 0`: a missing count reads as zero. */
  function TotalOf(data: UsersCountResponse): (n: int)
    ensures data.totalUsers.None? ==> n == 0
    ensures data.totalUsers.Some? ==> n == data.totalUsers.value
  {
    data.totalUsers.GetOr(0)
  }

  /** What one fetch settles with: the total, or the thrown error. */
  function FetchedTotal(outcome: HttpOutcome<UsersCountResponse>): Result<int, Thrown> {
    match Settle(GET, outcome, FetchFallback)
    case Success(d) => Success(TotalOf(d))
    case Failure(e) => Failure(e)
  }

  class UsersCount {
    const api: Api
    var totalUsers: int
    var isLoading: bool
    var error: Option<string>

    constructor (api: Api)
      ensures this.api == api && totalUsers == 0 && !isLoading && error == None
    {
      this.api := api;
      totalUsers := 0;
      isLoading := false;
      error := None;
    }

    method ClearError()
      modifies this
      ensures error == None && totalUsers == old(totalUsers) && isLoading == old(isLoading)
    {
      error := None;
    }

    /**
     * `fetchUsersCount()`: one GET of /users/count; on success the total replaces the old one,
     * on failure the old total stays and the error's message is kept. Never rejects.
     */
    method FetchUsersCount(outcome: HttpOutcome<UsersCountResponse>) returns (rejection: Option<Thrown>)
      modifies this, api, api.store
      ensures api.sent == old(api.sent) + [old(api.RequestFor(GET, UsersCountEndpoint, None))]
      ensures api.store.items == AfterRequest(GET, outcome, old(api.store.items))
      ensures !isLoading && rejection == None
      ensures FetchedTotal(outcome).Success? ==> totalUsers == FetchedTotal(outcome).value && error == None
      ensures FetchedTotal(outcome).Failure? ==>
                totalUsers == old(totalUsers) && error == Some(MessageOr(FetchedTotal(outcome).error, FetchFallback))
    {
      isLoading := true;
      ClearError();
      var response := api.Get(UsersCountEndpoint, outcome);
      var caught: Option<Thrown> := None;
      match response {
        case Failure(e) =>
          caught := Some(e);
        case Success(env) =>
          if env.status != "success" || env.data.None? {
            caught := Some(PlainError(FailureMessage(env, FetchFallback)));
          } else {
            totalUsers := TotalOf(env.data.value);
          }
      }
      if caught.Some? {
        error := Some(MessageOr(caught.value, FetchFallback));
      }
      isLoading := false;
      rejection := None;
    }

    /** `refreshCount()`: the same fetch again. */
    method RefreshCount(outcome: HttpOutcome<UsersCountResponse>) returns (rejection: Option<Thrown>)
      modifies this, api, api.store
      ensures api.sent == old(api.sent) + [old(api.RequestFor(GET, UsersCountEndpoint, None))]
      ensures api.store.items == AfterRequest(GET, outcome, old(api.store.items))
      ensures !isLoading && rejection == None
      ensures FetchedTotal(outcome).Success? ==> totalUsers == FetchedTotal(outcome).value && error == None
      ensures FetchedTotal(outcome).Failure? ==>
                totalUsers == old(totalUsers) && error == Some(MessageOr(FetchedTotal(outcome).error, FetchFallback))
    {
      rejection := FetchUsersCount(outcome);
    }
  }
}
