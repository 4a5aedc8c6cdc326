/**
 * The browser facilities the dashboard touches: `localStorage`, a string-to-string map
 * with the five session keys, and navigation (`router.push` / `window.location.href`),
 * recorded as the sequence of paths visited.
 */
module Browser {
  import opened Wrappers

  const AuthTokenKey := "authToken"
  const RefreshTokenKey := "refreshToken"
  const UserKey := "user"
  const RememberMeKey := "rememberMe"
  const LastEmailKey := "lastEmail"

  /** Every key the session flows read or write. */
  const SessionKeys: set<string> := {AuthTokenKey, RefreshTokenKey, UserKey, RememberMeKey, LastEmailKey}

  const LoginPath := "/login"
  const DashboardPath := "/dashboard"

  /** `localStorage.getItem(key)`: `null` when the key is absent. */
  function GetItem(items: map<string, string>, key: string): (r: Option<string>)
    ensures r.Some? <==> key in items
    ensures r.Some? ==> r.value == items[key]
  {
    if key in items then Some(items[key]) else None
  }

  /** `if (localStorage.getItem(key))`: present and not the empty string. */
  predicate IsSet(items: map<string, string>, key: string) {
    key in items && items[key] != ""
  }

  /** `token && user`: the test every page guard and the sidebar make before loading data. */
  predicate HasSession(items: map<string, string>) {
    IsSet(items, AuthTokenKey) && IsSet(items, UserKey)
  }

  class LocalStorage {
    var items: map<string, string>

    constructor (initial: map<string, string>)
      ensures items == initial
    {
      items := initial;
    }

    /** `localStorage.setItem(key, value)` */
    method SetItem(key: string, value: string)
      modifies this
      ensures items == old(items)[key := value]
    {
      items := items[key := value];
    }

    /** `localStorage.removeItem(key)`: removing an absent key changes nothing. */
    method RemoveItem(key: string)
      modifies this
      ensures items == old(items) - {key}
    {
      items := items - {key};
    }
  }

  class Navigator {
    var visited: seq<string>

    constructor ()
      ensures visited == []
    {
      visited := [];
    }

    /** `router.push(path)` or an assignment to `window.location.href`. */
    method Push(path: string)
      modifies this
      ensures visited == old(visited) + [path]
    {
      visited := visited + [path];
    }
  }
}
