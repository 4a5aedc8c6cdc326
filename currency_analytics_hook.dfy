/** `useCurrencyAnalytics` (src/lib/hooks/useCurrencyAnalytics.ts): the number of users per currency code. */
module CurrencyAnalyticsHook {
  import opened Wrappers
  import opened Thrown
  import opened ApiClient
  import opened HookCommon

  const CurrencyAnalyticsEndpoint := "/users/analytics/currency-codes"
  const FetchFallback := "Failed to fetch currency analytics"

  /** `{ currencyCode, count }` */
  datatype CurrencyAnalytics = CurrencyAnalytics(currencyCode: string, count: int)

  class CurrencyAnalyticsState {
    const api: Api
    var currencyAnalytics: seq<CurrencyAnalytics>
    var isLoading: bool
    var error: Option<string>

    constructor (api: Api)
      ensures this.api == api && currencyAnalytics == [] && !isLoading && error == None
    {
      this.api := api;
      currencyAnalytics := [];
      isLoading := false;
      error := None;
    }

    method ClearError()
      modifies this
      ensures error == None && currencyAnalytics == old(currencyAnalytics) && isLoading == old(isLoading)
    {
      error := None;
    }

    /**
     * `fetchCurrencyAnalytics(limit)`: one GET, with `?limit=` only when a limit is given; on success the
     * list replaces the old one, on failure the old list stays and the error's message is kept.
     */
    method FetchCurrencyAnalytics(limit: Option<int>, outcome: HttpOutcome<seq<CurrencyAnalytics>>) returns (rejection: Option<Thrown>)
      modifies this, api, api.store
      ensures api.sent == old(api.sent) + [old(api.RequestFor(GET, WithLimit(CurrencyAnalyticsEndpoint, limit), None))]
      ensures api.store.items == AfterRequest(GET, outcome, old(api.store.items))
      ensures !isLoading && rejection == None
      ensures var s := Settle(GET, outcome, FetchFallback);
              (s.Success? ==> currencyAnalytics == s.value && error == None) &&
              (s.Failure? ==> currencyAnalytics == old(currencyAnalytics) && error == Some(MessageOr(s.error, FetchFallback)))
    {
      isLoading := true;
      ClearError();
      var endpoint := CurrencyAnalyticsEndpoint;
      if limit.Some? {
        endpoint := endpoint + "?limit=" + Text.IntToDecimal(limit.value);
      }
      var response := api.Get(endpoint, outcome);
      var caught: Option<Thrown> := None;
      match response {
        case Failure(e) =>
          caught := Some(e);
        case Success(env) =>
          if env.status != "success" || env.data.None? {
            caught := Some(PlainError(FailureMessage(env, FetchFallback)));
          } else {
            currencyAnalytics := env.data.value;
          }
      }
      if caught.Some? {
        error := Some(MessageOr(caught.value, FetchFallback));
      }
      isLoading := false;
      rejection := None;
    }

    /** `refreshCurrencyAnalytics()`: the fetch without a limit. */
    method RefreshCurrencyAnalytics(outcome: HttpOutcome<seq<CurrencyAnalytics>>) returns (rejection: Option<Thrown>)
      modifies this, api, api.store
      ensures api.sent == old(api.sent) + [old(api.RequestFor(GET, CurrencyAnalyticsEndpoint, None))]
      ensures api.store.items == AfterRequest(GET, outcome, old(api.store.items))
      ensures !isLoading && rejection == None
      ensures var s := Settle(GET, outcome, FetchFallback);
              (s.Success? ==> currencyAnalytics == s.value && error == None) &&
              (s.Failure? ==> currencyAnalytics == old(currencyAnalytics) && error == Some(MessageOr(s.error, FetchFallback)))
    {
      rejection := FetchCurrencyAnalytics(None, outcome);
    }
  }
}
