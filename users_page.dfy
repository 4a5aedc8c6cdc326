/**
 * The users page (src/app/dashboard/users/page.tsx): its guarded load of the user list, the
 * search and status filters, the status badge, the avatar initials and the counters.
 */
module UsersPage {
  import opened Wrappers
  import opened Text
  import opened Lists
  import opened Thrown
  import opened Browser
  import opened ApiClient
  import opened PageGuard
  import opened UsersHook

  /**
   * The search box: an empty term matches everyone; otherwise name, e-mail or country code
   * contain it ignoring case, or the phone number contains it exactly.
   */
  predicate SearchMatches(u: User, term: string) {
    term == "" ||
    ContainsIgnoreCase(u.name, term) ||
    ContainsIgnoreCase(u.email, term) ||
    (u.phoneNumber.Some? && Contains(u.phoneNumber.value, term)) ||
    ContainsIgnoreCase(u.countryCode, term)
  }

  /** The status filter: "active", "disabled" and "verified" test flags; any other value passes everyone. */
  predicate StatusMatches(u: User, status: string) {
    if status == "active" then u.isActive && !u.disabled
    else if status == "disabled" then u.disabled
    else if status == "verified" then u.emailVerified
    else true
  }

  predicate IsShown(u: User, term: string, status: string) {
    SearchMatches(u, term) && StatusMatches(u, status)
  }

  /** `filteredUsers` */
  function FilteredUsers(users: seq<User>, term: string, status: string): seq<User> {
    Filter(users, u => IsShown(u, term, status))
  }

  /**
   * The filtered list keeps, in their original order, exactly the users that match both the
   * search and the status filter.
   */
  lemma FilteredUsersSelects(users: seq<User>, term: string, status: string)
    ensures IsSubsequence(FilteredUsers(users, term, status), users)
    ensures forall u :: u in FilteredUsers(users, term, status) <==>
                          u in users && SearchMatches(u, term) && StatusMatches(u, status)
  {
    FilterIsSubsequence(users, u => IsShown(u, term, status));
  }

  /** With an empty search and a status other than the three known ones, every user is listed. */
  lemma UnfilteredListsEveryone(users: seq<User>, status: string)
    requires status != "active" && status != "disabled" && status != "verified"
    ensures FilteredUsers(users, "", status) == users
  {
    FilterKeepsAll(users, u => IsShown(u, "", status));
  }

  /** The badge: "Disabled" wins over "Active", which wins over "Inactive". */
  function StatusLabel(u: User): (badge: string)
    ensures badge == "Disabled" <==> StatusMatches(u, "disabled")
    ensures badge == "Active" <==> StatusMatches(u, "active")
    ensures badge == "Inactive" <==> !u.disabled && !u.isActive
  {
    if u.disabled then "Disabled" else if u.isActive then "Active" else "Inactive"
  }

  /** `getUserInitials(name)`: "U" for an empty name, otherwise up to two upper-case word initials. */
  function UserInitials(name: string): (r: string)
    ensures name == "" ==> r == "U"
    ensures name != "" ==> r == Initials(name)
    ensures |r| <= 2 && forall i | 0 <= i < |r| :: !('a' <= r[i] <= 'z')
  {
    if name == "" then "U" else Initials(name)
  }

  predicate IsActiveUser(u: User) {
    u.isActive && !u.disabled
  }

  predicate IsDisabledUser(u: User) {
    u.disabled
  }

  /** The "Active Users" card. */
  function ActiveCount(users: seq<User>): nat {
    Count(users, IsActiveUser)
  }

  /** The "Disabled Users" card. */
  function DisabledCount(users: seq<User>): nat {
    Count(users, IsDisabledUser)
  }

  /**
   * No user is counted both active and disabled, so the two cards add up to at most the total;
   * each card is the length of the list the matching status filter shows.
   */
  lemma CountersPartition(users: seq<User>)
    ensures ActiveCount(users) + DisabledCount(users) <= |users|
    ensures ActiveCount(users) == |FilteredUsers(users, "", "active")|
    ensures DisabledCount(users) == |FilteredUsers(users, "", "disabled")|
  {
    CountDisjoint(users, IsActiveUser, IsDisabledUser);
    CountComplement(users, u => IsActiveUser(u) || IsDisabledUser(u));
    FilterExtensional(users, IsActiveUser, u => IsShown(u, "", "active"));
    FilterExtensional(users, IsDisabledUser, u => IsShown(u, "", "disabled"));
  }

  class UsersPageState {
    const api: Api
    const nav: Navigator
    const usersHook: Users

    constructor (usersHook: Users, nav: Navigator)
      ensures this.usersHook == usersHook && this.api == usersHook.api && this.nav == nav
    {
      this.usersHook := usersHook;
      this.api := usersHook.api;
      this.nav := nav;
    }

    /**
     * The catch of `fetchData`: an `Error` mentioning "Authentication required" clears
     * `authToken` and `user` and leaves for /login; anything else is only logged.
     */
    method CatchFetchError(caught: Option<Thrown>)
      modifies api.store, nav
      ensures api.store.items == StorageAfterCatch(old(api.store.items), caught)
      ensures nav.visited == old(nav.visited) + (if CatchEndsSession(caught) then [LoginPath] else [])
    {
      if CatchEndsSession(caught) {
        api.store.RemoveItem(AuthTokenKey);
        api.store.RemoveItem(UserKey);
        nav.Push(LoginPath);
      }
    }

    /**
     * The mount effect: without a session, go to /login and load nothing; with one, load the
     * users. The load never rejects, so the catch leaves storage and navigation alone.
     */
    method Mount(outcome: HttpOutcome<UsersPayload>)
      requires usersHook.api == api
      modifies api, api.store, nav, usersHook
      ensures !HasSession(old(api.store.items)) ==>
                api.sent == old(api.sent) && api.store.items == old(api.store.items) &&
                nav.visited == old(nav.visited) + [LoginPath] &&
                unchanged(usersHook)
      ensures HasSession(old(api.store.items)) ==>
                api.sent == old(api.sent) + [old(api.RequestFor(GET, UsersEndpoint, None))] &&
                api.store.items == AfterRequest(GET, outcome, old(api.store.items)) &&
                nav.visited == old(nav.visited) && !usersHook.isLoading &&
                var s := FetchedUsers(outcome);
                (s.Success? ==> usersHook.Page() == s.value && usersHook.error == None) &&
                (s.Failure? ==> usersHook.Page() == old(usersHook.Page()) &&
                                usersHook.error == Some(MessageOr(s.error, FetchFallback)))
    {
      var token := GetItem(api.store.items, AuthTokenKey);
      var user := GetItem(api.store.items, UserKey);
      if !(token.Some? && token.value != "" && user.Some? && user.value != "") {
        nav.Push(LoginPath);
        return;
      }
      var rejection := usersHook.FetchUsers(None, None, outcome);
      CatchFetchError(rejection);
    }
  }
}
