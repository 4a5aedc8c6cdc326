/**
 * The session handling the dashboard and users pages share: the guard that sends a visitor
 * without a session to /login, and the catch block that ends the session when a load fails
 * with "Authentication required" (src/app/dashboard/page.tsx, src/app/dashboard/users/page.tsx).
 */
module PageGuard {
  import opened Wrappers
  import opened Text
  import opened Thrown
  import opened Browser
  import opened ApiClient

  /** `error instanceof Error && error.message.includes('Authentication required')` */
  predicate SignalsAuthenticationRequired(e: Thrown) {
    e.IsError() && Contains(e.message, AuthenticationRequired)
  }

  /** The error a GET throws on a 401 is exactly what the catch blocks look for. */
  lemma GetUnauthorizedSignalsAuthenticationRequired<T>(statusText: string, body: Envelope<T>)
    ensures var r := VerbResult(GET, Response(401, statusText, body));
            r.Failure? && SignalsAuthenticationRequired(r.error)
  {
    assert AuthenticationRequired <= AuthenticationRequired;
  }

  /** Whether the catch block ends the session for what it caught (nothing caught: it never runs). */
  predicate CatchEndsSession(caught: Option<Thrown>) {
    caught.Some? && SignalsAuthenticationRequired(caught.value)
  }

  /** The storage the catch block leaves: `authToken` and `user` removed when it ends the session. */
  function StorageAfterCatch(items: map<string, string>, caught: Option<Thrown>): (r: map<string, string>)
    ensures CatchEndsSession(caught) ==> !HasSession(r) && UserKey !in r && AuthTokenKey !in r
    ensures !CatchEndsSession(caught) ==> r == items
    ensures forall k | k != UserKey && k != AuthTokenKey :: GetItem(r, k) == GetItem(items, k)
  {
    if CatchEndsSession(caught) then items - {AuthTokenKey, UserKey} else items
  }
}
