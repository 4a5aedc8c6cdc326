/** `useCountryAnalytics` (src/lib/hooks/useCountryAnalytics.ts): the number of users per country code. */
module CountryAnalyticsHook {
  import opened Wrappers
  import opened Thrown
  import opened ApiClient
  import opened HookCommon

  const CountryAnalyticsEndpoint := "/users/analytics/country-codes"
  const FetchFallback := "Failed to fetch country analytics"

  /** `{ countryCode, count }` */
  datatype CountryAnalytics = CountryAnalytics(countryCode: string, count: int)

  class CountryAnalyticsState {
    const api: Api
    var countryAnalytics: seq<CountryAnalytics>
    var isLoading: bool
    var error: Option<string>

    constructor (api: Api)
      ensures this.api == api && countryAnalytics == [] && !isLoading && error == None
    {
      this.api := api;
      countryAnalytics := [];
      isLoading := false;
      error := None;
    }

    method ClearError()
      modifies this
      ensures error == None && countryAnalytics == old(countryAnalytics) && isLoading == old(isLoading)
    {
      error := None;
    }

    /**
     * `fetchCountryAnalytics(limit)`: one GET, with `?limit=` only when a limit is given; on success the
     * list replaces the old one, on failure the old list stays and the error's message is kept.
     */
    method FetchCountryAnalytics(limit: Option<int>, outcome: HttpOutcome<seq<CountryAnalytics>>) returns (rejection: Option<Thrown>)
      modifies this, api, api.store
      ensures api.sent == old(api.sent) + [old(api.RequestFor(GET, WithLimit(CountryAnalyticsEndpoint, limit), None))]
      ensures api.store.items == AfterRequest(GET, outcome, old(api.store.items))
      ensures !isLoading && rejection == None
      ensures var s := Settle(GET, outcome, FetchFallback);
              (s.Success? ==> countryAnalytics == s.value && error == None) &&
              (s.Failure? ==> countryAnalytics == old(countryAnalytics) && error == Some(MessageOr(s.error, FetchFallback)))
    {
      isLoading := true;
      ClearError();
      var endpoint := CountryAnalyticsEndpoint;
      if limit.Some? {
        endpoint := endpoint + "?limit=" + Text.IntToDecimal(limit.value);
      }
      var response := api.Get(endpoint, outcome);
      var caught: Option<Thrown> := None;
      match response {
        case Failure(e) =>
          caught := Some(e);
        case Success(env) =>
          if env.status != "success" || env.data.None? {
            caught := Some(PlainError(FailureMessage(env, FetchFallback)));
          } else {
            countryAnalytics := env.data.value;
          }
      }
      if caught.Some? {
        error := Some(MessageOr(caught.value, FetchFallback));
      }
      isLoading := false;
      rejection := None;
    }

    /** `refreshCountryAnalytics()`: the fetch without a limit. */
    method RefreshCountryAnalytics(outcome: HttpOutcome<seq<CountryAnalytics>>) returns (rejection: Option<Thrown>)
      modifies this, api, api.store
      ensures api.sent == old(api.sent) + [old(api.RequestFor(GET, CountryAnalyticsEndpoint, None))]
      ensures api.store.items == AfterRequest(GET, outcome, old(api.store.items))
      ensures !isLoading && rejection == None
      ensures var s := Settle(GET, outcome, FetchFallback);
              (s.Success? ==> countryAnalytics == s.value && error == None) &&
              (s.Failure? ==> countryAnalytics == old(countryAnalytics) && error == Some(MessageOr(s.error, FetchFallback)))
    {
      rejection := FetchCountryAnalytics(None, outcome);
    }
  }
}
