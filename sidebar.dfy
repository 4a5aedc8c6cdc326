/**
 * The sidebar (src/components/layout/Sidebar.tsx): which navigation entries it shows, which one
 * it highlights, the name, e-mail, role and initials of the signed-in administrator, and the
 * mount-time check of the stored session.
 */
module SidebarNav {
  import opened Wrappers
  import opened Text
  import opened Lists
  import opened Browser
  import opened ApiClient
  import opened HookCommon
  import opened AdminsHook
  import opened LogoutHook

  datatype NavItem = NavItem(title: string, href: string)

  const AdminHref := "/dashboard/admin"
  const SuperAdminRole := "super_admin"
  const AdminItem := NavItem("Admin", AdminHref)

  const NavigationItems: seq<NavItem> := [
    NavItem("Dashboard", "/dashboard"),
    NavItem("Profile", "/dashboard/profile"),
    NavItem("Users", "/dashboard/users"),
    AdminItem,
    NavItem("Reports", "/dashboard/reports")
  ]

  const BottomNavigationItems: seq<NavItem> := [NavItem("Help", "/dashboard/help")]

  /**
   * The fields the sidebar reads from `JSON.parse(localStorage.user)`; a stored `null` reads
   * like an object with none of them.
   */
  datatype StoredUser = StoredUser(name: Option<string>, email: Option<string>, role: Option<string>)

  /** A string operand of `||` that is kept: present and not empty. */
  predicate IsTruthyText(s: Option<string>) {
    s.Some? && s.value != ""
  }

  /** `a || b || fallback` */
  function Fallback(a: Option<string>, b: Option<string>, fallback: string): (r: string)
    ensures IsTruthyText(a) ==> r == a.value
    ensures !IsTruthyText(a) && IsTruthyText(b) ==> r == b.value
    ensures !IsTruthyText(a) && !IsTruthyText(b) ==> r == fallback
    ensures fallback != "" ==> r != ""
  {
    if IsTruthyText(a) then a.value else if IsTruthyText(b) then b.value else fallback
  }

  function ProfileName(profile: Option<Admin>): Option<string> {
    if profile.Some? then Some(profile.value.name) else None
  }

  function ProfileEmail(profile: Option<Admin>): Option<string> {
    if profile.Some? then Some(profile.value.email) else None
  }

  function ProfileRole(profile: Option<Admin>): Option<string> {
    if profile.Some? then Some(profile.value.role) else None
  }

  function StoredName(stored: Option<StoredUser>): Option<string> {
    if stored.Some? then stored.value.name else None
  }

  function StoredEmail(stored: Option<StoredUser>): Option<string> {
    if stored.Some? then stored.value.email else None
  }

  function StoredRole(stored: Option<StoredUser>): Option<string> {
    if stored.Some? then stored.value.role else None
  }

  /** `getStoredUser()`: the parsed `user` entry, or none when it is missing, empty or malformed. */
  function GetStoredUser(items: map<string, string>, parse: string -> Option<StoredUser>): (r: Option<StoredUser>)
    ensures !IsSet(items, UserKey) ==> r == None
    ensures IsSet(items, UserKey) && parse(items[UserKey]).None? ==> r == None
    ensures r.Some? ==> IsSet(items, UserKey) && parse(items[UserKey]) == r
  {
    if IsSet(items, UserKey) then parse(items[UserKey]) else None
  }

  /** `profile?.role || storedUser?.role` */
  function UserRole(profile: Option<Admin>, stored: Option<StoredUser>): Option<string> {
    if IsTruthyText(ProfileRole(profile)) then ProfileRole(profile) else StoredRole(stored)
  }

  /** Every entry is rendered except the Admin one, which needs the super-administrator role. */
  predicate IsShown(item: NavItem, role: Option<string>) {
    item.href != AdminHref || role == Some(SuperAdminRole)
  }

  function VisibleItems(role: Option<string>): seq<NavItem> {
    Filter(NavigationItems, item => IsShown(item, role))
  }

  /**
   * The Admin entry is shown exactly when the loaded profile's role is `super_admin`, or the
   * profile has no role and the stored user's is; the other four entries are always shown.
   */
  lemma AdminShownOnlyToSuperAdmin(profile: Option<Admin>, stored: Option<StoredUser>)
    ensures AdminItem in VisibleItems(UserRole(profile, stored)) <==>
              ProfileRole(profile) == Some(SuperAdminRole) ||
              (!IsTruthyText(ProfileRole(profile)) && StoredRole(stored) == Some(SuperAdminRole))
    ensures forall item | item in NavigationItems && item != AdminItem :: item in VisibleItems(UserRole(profile, stored))
  {
    var role := UserRole(profile, stored);
    FilterIsSubsequence(NavigationItems, item => IsShown(item, role));
    assert AdminItem == NavigationItems[3];
    forall item | item in NavigationItems && item != AdminItem
      ensures item.href != AdminHref
    {
    }
  }

  /** `pathname === item.href` */
  predicate IsHighlighted(pathname: string, item: NavItem) {
    pathname == item.href
  }

  /** No two entries share an href, so at most one entry is highlighted for any path. */
  lemma AtMostOneHighlighted(pathname: string)
    ensures var all := NavigationItems + BottomNavigationItems;
            forall i, j | 0 <= i < |all| && 0 <= j < |all| &&
                          IsHighlighted(pathname, all[i]) && IsHighlighted(pathname, all[j]) :: i == j
  {
    var all := NavigationItems + BottomNavigationItems;
    assert all[0].href[|all[0].href| - 1] == 'd';
    assert all[1].href[|all[1].href| - 1] == 'e';
    assert all[2].href[|all[2].href| - 2] == 'r';
    assert all[3].href[|all[3].href| - 1] == 'n';
    assert all[4].href[|all[4].href| - 2] == 't';
    assert all[5].href[|all[5].href| - 1] == 'p';
    assert |all[0].href| == 10 && |all[2].href| == 16 && |all[3].href| == 16 && |all[4].href| == 18;
  }

  /** The name shown under the avatar: profile, then stored user, then "Admin User". */
  function DisplayName(profile: Option<Admin>, stored: Option<StoredUser>): string {
    Fallback(ProfileName(profile), StoredName(stored), "Admin User")
  }

  function DisplayEmail(profile: Option<Admin>, stored: Option<StoredUser>): string {
    Fallback(ProfileEmail(profile), StoredEmail(stored), "admin@deni.com")
  }

  function DisplayRole(profile: Option<Admin>, stored: Option<StoredUser>): string {
    Fallback(ProfileRole(profile), StoredRole(stored), "Administrator")
  }

  /** The avatar letters: initials of the profile name, else of the stored name, else "AD". */
  function SidebarInitials(profile: Option<Admin>, stored: Option<StoredUser>): (r: string)
    ensures |r| <= 2 && forall i | 0 <= i < |r| :: !('a' <= r[i] <= 'z')
    ensures IsTruthyText(ProfileName(profile)) ==> r == Initials(profile.value.name)
    ensures !IsTruthyText(ProfileName(profile)) && IsTruthyText(StoredName(stored)) ==> r == Initials(stored.value.name.value)
    ensures !IsTruthyText(ProfileName(profile)) && !IsTruthyText(StoredName(stored)) ==> r == "AD"
  {
    if IsTruthyText(ProfileName(profile)) then Initials(profile.value.name)
    else if IsTruthyText(StoredName(stored)) then Initials(stored.value.name.value)
    else "AD"
  }

  /** Whether the mount check goes on to load the profile: a session whose `user` entry parses. */
  predicate MountFetchesProfile(items: map<string, string>, parse: string -> Option<StoredUser>) {
    HasSession(items) && parse(items[UserKey]).Some?
  }

  /** The storage after the mount check: a session whose `user` entry is malformed is dropped. */
  function MountStorage(items: map<string, string>, parse: string -> Option<StoredUser>): map<string, string> {
    if HasSession(items) && parse(items[UserKey]).None? then items - {UserKey, AuthTokenKey} else items
  }

  /**
   * The mount check removes `user` and `authToken`, and nothing else, exactly when both are set
   * and `user` does not parse; afterwards no session is left. Otherwise storage is untouched.
   */
  lemma MountStorageDropsMalformedSession(items: map<string, string>, parse: string -> Option<StoredUser>)
    ensures !HasSession(items) || parse(items[UserKey]).Some? ==> MountStorage(items, parse) == items
    ensures HasSession(items) && parse(items[UserKey]).None? ==>
              GetItem(MountStorage(items, parse), UserKey) == None &&
              GetItem(MountStorage(items, parse), AuthTokenKey) == None &&
              !HasSession(MountStorage(items, parse)) &&
              forall k | k != UserKey && k != AuthTokenKey :: GetItem(MountStorage(items, parse), k) == GetItem(items, k)
  {
  }

  class Sidebar {
    const profileHook: AdminProfile
    const logoutHook: Logout

    constructor (profileHook: AdminProfile, logoutHook: Logout)
      ensures this.profileHook == profileHook && this.logoutHook == logoutHook
    {
      this.profileHook := profileHook;
      this.logoutHook := logoutHook;
    }

    /**
     * The mount effect: with a token and a `user` entry, parse the entry; if it parses, load the
     * profile, otherwise remove `user` and then `authToken`. Without both entries nothing happens.
     */
    method Mount(parse: string -> Option<StoredUser>, outcome: HttpOutcome<Admin>)
      modifies profileHook, profileHook.api, profileHook.api.store
      ensures var api := profileHook.api;
              MountFetchesProfile(old(api.store.items), parse) ==>
                api.sent == old(api.sent) + [old(api.RequestFor(GET, AdminProfileEndpoint, None))] &&
                api.store.items == AfterRequest(GET, outcome, old(api.store.items)) &&
                var s := Settle(GET, outcome, FetchProfileFallback);
                (s.Success? ==> profileHook.profile == Some(s.value)) &&
                (s.Failure? ==> profileHook.profile == old(profileHook.profile))
      ensures var api := profileHook.api;
              !MountFetchesProfile(old(api.store.items), parse) ==>
                api.sent == old(api.sent) &&
                api.store.items == MountStorage(old(api.store.items), parse) &&
                profileHook.profile == old(profileHook.profile)
    {
      var store := profileHook.api.store;
      var token := GetItem(store.items, AuthTokenKey);
      var user := GetItem(store.items, UserKey);
      if token.Some? && token.value != "" && user.Some? && user.value != "" {
        var parsed := parse(user.value);
        if parsed.Some? {
          profileHook.FetchProfile(outcome);
        } else {
          store.RemoveItem(UserKey);
          store.RemoveItem(AuthTokenKey);
        }
      }
    }

    /**
     * `handleLogout()`: awaits `logout()`. Its catch is never entered, because `logout` settles
     * every failure itself; the session is cleared and /login visited once.
     */
    method HandleLogout<T>(outcome: HttpOutcome<T>)
      modifies logoutHook, logoutHook.errors, logoutHook.api, logoutHook.api.store, logoutHook.nav
      ensures logoutHook.api.store.items == SessionCleared(old(logoutHook.api.store.items))
      ensures logoutHook.nav.visited == old(logoutHook.nav.visited) + [LoginPath]
      ensures !logoutHook.isLoading && logoutHook.error == None
    {
      logoutHook.Logout(outcome);
    }
  }
}
