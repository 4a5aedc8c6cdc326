/** `useUserAnalytics` (src/lib/hooks/useUserAnalytics.ts): the analytics summary, absent until fetched. */
module UserAnalyticsHook {
  import opened Wrappers
  import opened Thrown
  import opened ApiClient
  import opened HookCommon
  import CountryAnalyticsHook
  import CurrencyAnalyticsHook

  const UserAnalyticsEndpoint := "/users/analytics"
  const FetchFallback := "Failed to fetch analytics"

  /** `{ totalUsers, topCountryCodes, topCurrencyCodes }` */
  datatype UserAnalytics = UserAnalytics(
    totalUsers: int,
    topCountryCodes: seq<CountryAnalyticsHook.CountryAnalytics>,
    topCurrencyCodes: seq<CurrencyAnalyticsHook.CurrencyAnalytics>)

  class UserAnalyticsState {
    const api: Api
    var analytics: Option<UserAnalytics>
    var isLoading: bool
    var error: Option<string>

    constructor (api: Api)
      ensures this.api == api && analytics == None && !isLoading && error == None
    {
      this.api := api;
      analytics := None;
      isLoading := false;
      error := None;
    }

    method ClearError()
      modifies this
      ensures error == None && analytics == old(analytics) && isLoading == old(isLoading)
    {
      error := None;
    }

    /**
     * `fetchAnalytics()`: one GET of /users/analytics; on success the summary is held, on
     * failure whatever was held before stays and the error's message is kept.
     */
    method FetchAnalytics(outcome: HttpOutcome<UserAnalytics>) returns (rejection: Option<Thrown>)
      modifies this, api, api.store
      ensures api.sent == old(api.sent) + [old(api.RequestFor(GET, UserAnalyticsEndpoint, None))]
      ensures api.store.items == AfterRequest(GET, outcome, old(api.store.items))
      ensures !isLoading && rejection == None
      ensures var s := Settle(GET, outcome, FetchFallback);
              (s.Success? ==> analytics == Some(s.value) && error == None) &&
              (s.Failure? ==> analytics == old(analytics) && error == Some(MessageOr(s.error, FetchFallback)))
    {
      isLoading := true;
      ClearError();
      var response := api.Get(UserAnalyticsEndpoint, outcome);
      var caught: Option<Thrown> := None;
      match response {
        case Failure(e) =>
          caught := Some(e);
        case Success(env) =>
          if env.status != "success" || env.data.None? {
            caught := Some(PlainError(FailureMessage(env, FetchFallback)));
          } else {
            analytics := Some(env.data.value);
          }
      }
      if caught.Some? {
        error := Some(MessageOr(caught.value, FetchFallback));
      }
      isLoading := false;
      rejection := None;
    }

    /** `refreshAnalytics()`: the same fetch again. */
    method RefreshAnalytics(outcome: HttpOutcome<UserAnalytics>) returns (rejection: Option<Thrown>)
      modifies this, api, api.store
      ensures api.sent == old(api.sent) + [old(api.RequestFor(GET, UserAnalyticsEndpoint, None))]
      ensures api.store.items == AfterRequest(GET, outcome, old(api.store.items))
      ensures !isLoading && rejection == None
      ensures var s := Settle(GET, outcome, FetchFallback);
              (s.Success? ==> analytics == Some(s.value) && error == None) &&
              (s.Failure? ==> analytics == old(analytics) && error == Some(MessageOr(s.error, FetchFallback)))
    {
      rejection := FetchAnalytics(outcome);
    }
  }
}
