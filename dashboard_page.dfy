/**
 * The dashboard page (src/app/dashboard/page.tsx): its session guard, the four data loads of
 * its mount effect with their catch block, the row caps and percentages of its lists, and the
 * choice between the login prompt, the loading view, the error view and the content.
 */
module DashboardPage {
  import opened Wrappers
  import opened Text
  import opened Thrown
  import opened Browser
  import opened ApiClient
  import opened PageGuard
  import opened HookCommon
  import opened UsersCountHook
  import opened CountryAnalyticsHook
  import opened CurrencyAnalyticsHook
  import opened UserAnalyticsHook

  const CountryLimit := 5
  const CurrencyLimit := 3

  /** `xs.slice(0, cap)` */
  function Rows<T>(xs: seq<T>, cap: nat): (r: seq<T>)
    ensures |r| <= cap && |r| <= |xs|
    ensures r == xs[..|r|]
    ensures |xs| <= cap ==> r == xs
  {
    if |xs| <= cap then xs else xs[..cap]
  }

  /** `currencyAnalytics.reduce((sum, c) => sum + (c.count || 0), 0)` */
  function CountSum(xs: seq<CurrencyAnalytics>): int {
    if xs == [] then 0 else xs[0].count + CountSum(xs[1..])
  }

  /** With no negative counts, each count is at most the sum. */
  lemma {:induction false} CountSumBoundsEach(xs: seq<CurrencyAnalytics>)
    requires forall i | 0 <= i < |xs| :: xs[i].count >= 0
    ensures CountSum(xs) >= 0
    ensures forall i | 0 <= i < |xs| :: xs[i].count <= CountSum(xs)
  {
    if xs != [] {
      CountSumBoundsEach(xs[1..]);
      forall i | 0 <= i < |xs|
        ensures xs[i].count <= CountSum(xs)
      {
        if i > 0 {
          assert xs[i] == xs[1..][i - 1];
        }
      }
    }
  }

  /**
   * `total > 0 ? Math.round(count / total * 100) : 0`, on exact rationals: half-way values
   * round up, as `Math.round` does.
   */
  function Percentage(count: int, total: int): int {
    if total > 0 then (200 * count + total) / (2 * total) else 0
  }

  /**
   * The percentage is 0 for an empty total; otherwise it is the integer nearest to
   * 100 * count / total (half-way up), and it lies in 0..100 when 0 <= count <= total.
   */
  lemma PercentageIsRounded(count: int, total: int)
    ensures total <= 0 ==> Percentage(count, total) == 0
    ensures total > 0 ==> var p := Percentage(count, total);
              2 * total * p <= 200 * count + total < 2 * total * (p + 1)
    ensures 0 <= count <= total ==> 0 <= Percentage(count, total) <= 100
  {
    if total > 0 {
      var p := Percentage(count, total);
      var n := 200 * count + total;
      assert n == (2 * total) * p + n % (2 * total);
      if 0 <= count <= total {
        assert 0 <= n < 2 * total * 101;
      }
    }
  }

  /** The currency rows with their percentages of the summed count. */
  function CurrencyShares(xs: seq<CurrencyAnalytics>): (r: seq<(CurrencyAnalytics, int)>)
    ensures |r| == |Rows(xs, CurrencyLimit)|
    ensures forall i | 0 <= i < |r| :: r[i].0 == xs[i] && r[i].1 == Percentage(xs[i].count, CountSum(xs))
  {
    var rows := Rows(xs, CurrencyLimit);
    seq(|rows|, i requires 0 <= i < |rows| => (rows[i], Percentage(rows[i].count, CountSum(xs))))
  }

  /** With no negative counts, every shown share is a percentage between 0 and 100. */
  lemma CurrencySharesInRange(xs: seq<CurrencyAnalytics>)
    requires forall i | 0 <= i < |xs| :: xs[i].count >= 0
    ensures forall i | 0 <= i < |CurrencyShares(xs)| :: 0 <= CurrencyShares(xs)[i].1 <= 100
  {
    CountSumBoundsEach(xs);
    forall i | 0 <= i < |CurrencyShares(xs)|
      ensures 0 <= CurrencyShares(xs)[i].1 <= 100
    {
      PercentageIsRounded(xs[i].count, CountSum(xs));
    }
  }

  /** What the page renders. */
  datatype View = LoginPrompt | Loading | ErrorView(message: string) | Content

  /** `a || b || c || d` over the four hooks' errors: the first present, non-empty one. */
  function FirstError(errors: seq<Option<string>>): (r: Option<string>)
    ensures r.Some? ==> r.value != "" && r in errors
    ensures r.None? <==> forall i | 0 <= i < |errors| :: errors[i].None? || errors[i].value == ""
    ensures r.Some? ==> exists i | 0 <= i < |errors| :: errors[i] == r &&
                          forall j | 0 <= j < i :: errors[j].None? || errors[j].value == ""
  {
    if errors == [] then None
    else if errors[0].Some? && errors[0].value != "" then errors[0]
    else
      var rest := FirstError(errors[1..]);
      assert rest.Some? ==> exists i | 0 <= i < |errors[1..]| :: errors[1..][i] == rest &&
                              forall j | 0 <= j < i :: errors[1..][j].None? || errors[1..][j].value == "";
      rest
  }

  /**
   * The render decision: no session shows the login prompt; then any hook loading shows the
   * loading view; then any error shows the error view with the first error; otherwise the content.
   */
  function ViewOf(hasSession: bool, loading: seq<bool>, errors: seq<Option<string>>): (v: View)
    ensures v == LoginPrompt <==> !hasSession
    ensures v == Loading <==> hasSession && true in loading
    ensures v.ErrorView? <==> hasSession && true !in loading && FirstError(errors).Some?
    ensures v.ErrorView? ==> v.message != "" && Some(v.message) in errors
  {
    if !hasSession then LoginPrompt
    else if true in loading then Loading
    else if FirstError(errors).Some? then ErrorView(FirstError(errors).value)
    else Content
  }

  /** The storage left by the four loads, each of which may drop the token on a 401. */
  function AfterLoads(items: map<string, string>, users: HttpOutcome<UsersCountResponse>,
                      countries: HttpOutcome<seq<CountryAnalytics>>,
                      currencies: HttpOutcome<seq<CurrencyAnalytics>>,
                      analytics: HttpOutcome<UserAnalytics>): map<string, string>
  {
    AfterRequest(GET, analytics, AfterRequest(GET, currencies, AfterRequest(GET, countries, AfterRequest(GET, users, items))))
  }

  /** The loads never touch `user`, and remove `authToken` exactly when one of them is answered 401. */
  lemma AfterLoadsKeepsUser(items: map<string, string>, users: HttpOutcome<UsersCountResponse>,
                            countries: HttpOutcome<seq<CountryAnalytics>>,
                            currencies: HttpOutcome<seq<CurrencyAnalytics>>,
                            analytics: HttpOutcome<UserAnalytics>)
    ensures var after := AfterLoads(items, users, countries, currencies, analytics);
            GetItem(after, UserKey) == GetItem(items, UserKey) &&
            (forall k | k != AuthTokenKey :: GetItem(after, k) == GetItem(items, k)) &&
            (AuthTokenKey in after <==>
               (AuthTokenKey in items &&
                !RemovesToken(GET, users) && !RemovesToken(GET, countries) &&
                !RemovesToken(GET, currencies) && !RemovesToken(GET, analytics)))
  {
  }

  class Dashboard {
    const api: Api
    const nav: Navigator
    const usersCount: UsersCount
    const countries: CountryAnalyticsState
    const currencies: CurrencyAnalyticsState
    const analytics: UserAnalyticsState

    /** All four hooks talk through the page's one API client. */
    ghost predicate Valid() {
      usersCount.api == api && countries.api == api && currencies.api == api && analytics.api == api
    }

    constructor (api: Api, nav: Navigator)
      ensures Valid() && this.api == api && this.nav == nav
      ensures fresh(usersCount) && fresh(countries) && fresh(currencies) && fresh(analytics)
    {
      this.api := api;
      this.nav := nav;
      usersCount := new UsersCount(api);
      countries := new CountryAnalyticsState(api);
      currencies := new CurrencyAnalyticsState(api);
      analytics := new UserAnalyticsState(api);
    }

    /** The view for the current state of storage and of the four hooks. */
    function View(): View
      reads api.store, usersCount, countries, currencies, analytics
    {
      ViewOf(HasSession(api.store.items),
             [usersCount.isLoading, countries.isLoading, currencies.isLoading, analytics.isLoading],
             [usersCount.error, countries.error, currencies.error, analytics.error])
    }

    /**
     * The catch of `fetchAllData`: an `Error` mentioning "Authentication required" clears
     * `authToken` and `user` and leaves for /login; anything else is only logged.
     */
    method CatchLoadError(caught: Option<Thrown>)
      modifies api.store, nav
      ensures api.store.items == StorageAfterCatch(old(api.store.items), caught)
      ensures nav.visited == old(nav.visited) + (if CatchEndsSession(caught) then [LoginPath] else [])
    {
      if CatchEndsSession(caught) {
        api.store.RemoveItem(AuthTokenKey);
        api.store.RemoveItem(UserKey);
        nav.Push(LoginPath);
      }
    }

    /**
     * Both mount effects. The guard sends a visitor without a session to /login; `fetchAllData`
     * does the same, so that visitor goes there twice. With a session, a `user` entry that is
     * not JSON throws `syntaxError` into the catch; one that is JSON starts the four loads,
     * countries limited to 5 and currencies to 3, whose failures the hooks keep to themselves.
     */
    method Mount(wellFormed: string -> bool, syntaxError: string,
                 users: HttpOutcome<UsersCountResponse>, countryData: HttpOutcome<seq<CountryAnalytics>>,
                 currencyData: HttpOutcome<seq<CurrencyAnalytics>>, analyticsData: HttpOutcome<UserAnalytics>)
      requires Valid()
      modifies api, api.store, nav, usersCount, countries, currencies, analytics
      ensures !HasSession(old(api.store.items)) ==>
                api.sent == old(api.sent) && api.store.items == old(api.store.items) &&
                nav.visited == old(nav.visited) + [LoginPath, LoginPath]
      ensures HasSession(old(api.store.items)) && !wellFormed(old(api.store.items)[UserKey]) ==>
                api.sent == old(api.sent) &&
                api.store.items == StorageAfterCatch(old(api.store.items), Some(PlainError(syntaxError))) &&
                nav.visited == old(nav.visited) +
                  (if CatchEndsSession(Some(PlainError(syntaxError))) then [LoginPath] else [])
      ensures HasSession(old(api.store.items)) && wellFormed(old(api.store.items)[UserKey]) ==>
                |api.sent| == |old(api.sent)| + 4 && api.sent[..|old(api.sent)|] == old(api.sent) &&
                api.sent[|old(api.sent)|].url == api.baseUrl + UsersCountEndpoint &&
                api.sent[|old(api.sent)| + 1].url == api.baseUrl + WithLimit(CountryAnalyticsEndpoint, Some(CountryLimit)) &&
                api.sent[|old(api.sent)| + 2].url == api.baseUrl + WithLimit(CurrencyAnalyticsEndpoint, Some(CurrencyLimit)) &&
                api.sent[|old(api.sent)| + 3].url == api.baseUrl + UserAnalyticsEndpoint &&
                api.store.items == AfterLoads(old(api.store.items), users, countryData, currencyData, analyticsData) &&
                nav.visited == old(nav.visited) &&
                !usersCount.isLoading && !countries.isLoading && !currencies.isLoading && !analytics.isLoading
      ensures HasSession(old(api.store.items)) && wellFormed(old(api.store.items)[UserKey]) ==>
                var t := FetchedTotal(users);
                (t.Success? ==> usersCount.totalUsers == t.value && usersCount.error == None) &&
                (t.Failure? ==> usersCount.totalUsers == old(usersCount.totalUsers) &&
                                usersCount.error == Some(MessageOr(t.error, UsersCountHook.FetchFallback)))
      ensures HasSession(old(api.store.items)) && wellFormed(old(api.store.items)[UserKey]) ==>
                var c := Settle(GET, countryData, CountryAnalyticsHook.FetchFallback);
                (c.Success? ==> countries.countryAnalytics == c.value && countries.error == None) &&
                (c.Failure? ==> countries.countryAnalytics == old(countries.countryAnalytics) &&
                                countries.error == Some(MessageOr(c.error, CountryAnalyticsHook.FetchFallback)))
      ensures HasSession(old(api.store.items)) && wellFormed(old(api.store.items)[UserKey]) ==>
                var m := Settle(GET, currencyData, CurrencyAnalyticsHook.FetchFallback);
                (m.Success? ==> currencies.currencyAnalytics == m.value && currencies.error == None) &&
                (m.Failure? ==> currencies.currencyAnalytics == old(currencies.currencyAnalytics) &&
                                currencies.error == Some(MessageOr(m.error, CurrencyAnalyticsHook.FetchFallback)))
      ensures HasSession(old(api.store.items)) && wellFormed(old(api.store.items)[UserKey]) ==>
                var a := Settle(GET, analyticsData, UserAnalyticsHook.FetchFallback);
                (a.Success? ==> analytics.analytics == Some(a.value) && analytics.error == None) &&
                (a.Failure? ==> analytics.analytics == old(analytics.analytics) &&
                                analytics.error == Some(MessageOr(a.error, UserAnalyticsHook.FetchFallback)))
      ensures !(HasSession(old(api.store.items)) && wellFormed(old(api.store.items)[UserKey])) ==>
                unchanged(usersCount, countries, currencies, analytics)
    {
      var token := GetItem(api.store.items, AuthTokenKey);
      var user := GetItem(api.store.items, UserKey);
      if !(token.Some? && token.value != "" && user.Some? && user.value != "") {
        nav.Push(LoginPath);
      }
      if token.Some? && token.value != "" && user.Some? && user.value != "" {
        var caught: Option<Thrown> := None;
        if !wellFormed(user.value) {
          caught := Some(PlainError(syntaxError));
        } else {
          ghost var sent0 := api.sent;
          var r1 := usersCount.FetchUsersCount(users);
          var r2 := countries.FetchCountryAnalytics(Some(CountryLimit), countryData);
          var r3 := currencies.FetchCurrencyAnalytics(Some(CurrencyLimit), currencyData);
          var r4 := analytics.FetchAnalytics(analyticsData);
          caught := if r1.Some? then r1 else if r2.Some? then r2 else if r3.Some? then r3 else r4;
          assert api.sent[|sent0|] == api.sent[..|sent0| + 1][|sent0|];
        }
        CatchLoadError(caught);
      } else {
        nav.Push(LoginPath);
      }
    }
  }
}
