/**
 * `useLogout` (src/lib/hooks/useLogout.ts): tell the backend about the refresh token when one
 * is stored, then tear the local session down and go to the login page, whatever the backend said.
 */
module LogoutHook {
  import opened Wrappers
  import opened Thrown
  import opened Browser
  import opened ApiClient
  import opened ErrorHandlingHook

  const LogoutEndpoint := "/admin/logout"

  /** The body of the remote logout: `{ refreshToken }`. */
  function LogoutBody(refreshToken: string): Json {
    JObject([("refreshToken", JString(refreshToken))])
  }

  /** The storage after the teardown: the five session keys removed, nothing else touched. */
  function SessionCleared(items: map<string, string>): map<string, string> {
    items - SessionKeys
  }

  /** The teardown ends the session, forgets the remembered e-mail, and keeps every other key. */
  lemma SessionClearedForgetsSession(items: map<string, string>)
    ensures forall k | k in SessionKeys :: GetItem(SessionCleared(items), k) == None
    ensures forall k | k !in SessionKeys :: GetItem(SessionCleared(items), k) == GetItem(items, k)
    ensures !HasSession(SessionCleared(items))
  {
  }

  /** Logging out twice leaves the same storage as logging out once. */
  lemma SessionClearedIdempotent(items: map<string, string>)
    ensures SessionCleared(SessionCleared(items)) == SessionCleared(items)
  {
  }

  /** Whatever a request did to the token first, the teardown ends in the same storage. */
  lemma SessionClearedAbsorbsTokenRemoval(items: map<string, string>)
    ensures SessionCleared(items - {AuthTokenKey}) == SessionCleared(items)
  {
  }

  class Logout {
    const api: Api
    const nav: Navigator
    /** The hook's own `useErrorHandling`, whose error `clearError` also resets. */
    const errors: ErrorHandling
    var isLoading: bool
    var error: Option<string>

    constructor (api: Api, nav: Navigator, errors: ErrorHandling)
      ensures this.api == api && this.nav == nav && this.errors == errors
      ensures !isLoading && error == None
    {
      this.api := api;
      this.nav := nav;
      this.errors := errors;
      isLoading := false;
      error := None;
    }

    method ClearError()
      modifies this, errors
      ensures error == None && errors.error == None && isLoading == old(isLoading)
    {
      error := None;
      errors.ClearError();
    }

    /** `api.removeToken()` followed by the removal of the four other session keys. */
    method ClearSession()
      modifies api.store
      ensures api.store.items == SessionCleared(old(api.store.items))
    {
      api.RemoveToken();
      api.store.RemoveItem(UserKey);
      api.store.RemoveItem(RememberMeKey);
      api.store.RemoveItem(LastEmailKey);
      api.store.RemoveItem(RefreshTokenKey);
    }

    /**
     * `logout()`: a POST of the stored refresh token when there is one; a rejected or unsuccessful
     * call is only logged. Both the normal and the catch path clear the session and go to /login
     * once, so the call never rejects and leaves no error behind.
     */
    method Logout<T>(outcome: HttpOutcome<T>)
      modifies this, errors, api, api.store, nav
      ensures IsSet(old(api.store.items), RefreshTokenKey) ==>
                api.sent == old(api.sent) + [old(api.RequestFor(POST, LogoutEndpoint,
                                                                Some(LogoutBody(api.store.items[RefreshTokenKey]))))]
      ensures !IsSet(old(api.store.items), RefreshTokenKey) ==> api.sent == old(api.sent)
      ensures api.store.items == SessionCleared(old(api.store.items))
      ensures nav.visited == old(nav.visited) + [LoginPath]
      ensures !isLoading && error == None && errors.error == None
    {
      isLoading := true;
      ClearError();
      ghost var before := api.store.items;
      var refreshToken := GetItem(api.store.items, RefreshTokenKey);
      var caught: Option<Thrown> := None;
      if refreshToken.Some? && refreshToken.value != "" {
        var response := api.Post(LogoutEndpoint, Some(LogoutBody(refreshToken.value)), outcome);
        if response.Failure? {
          caught := Some(response.error);
        }
        SessionClearedAbsorbsTokenRemoval(before);
      }
      if caught.None? {
        ClearSession();
        nav.Push(LoginPath);
      } else {
        ClearSession();
        nav.Push(LoginPath);
      }
      isLoading := false;
    }
  }
}
