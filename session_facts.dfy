/**
 * Facts that tie several files together: how sign-in, sign-out, the sidebar, the page guards
 * and the data hooks treat the same stored session, and where the pages' display rules differ.
 */
module SessionFacts {
  import opened Wrappers
  import opened Text
  import opened Thrown
  import opened Browser
  import opened ApiClient
  import opened PageGuard
  import opened LoginHook
  import opened LogoutHook
  import AdminsHook
  import SidebarNav
  import AdminPage
  import ProfilePage
  import UsersPage
  import ReportsPage

  /**
   * Signing out after signing in leaves exactly the storage that signing out alone would:
   * every key sign-in writes is one sign-out removes.
   */
  lemma LogoutUndoesLogin(items: map<string, string>, data: LoginResponse, userJson: string,
                          rememberMe: bool, email: string)
    ensures SessionCleared(SessionAfterLogin(items, data, userJson, rememberMe, email)) == SessionCleared(items)
  {
    var after := SessionAfterLogin(items, data, userJson, rememberMe, email);
    forall k | k !in SessionKeys
      ensures GetItem(after, k) == GetItem(items, k)
    {
      SessionAfterLoginKeepsOtherKeys(items, data, userJson, rememberMe, email, k);
    }
    assert forall k :: k in SessionCleared(after) <==> k in SessionCleared(items);
  }

  /**
   * A sign-in with a non-empty token and user record opens a session every guard accepts; a
   * sign-out closes it, so guards redirect, requests go without a bearer header, and the login
   * form no longer offers a remembered e-mail.
   */
  lemma LoginOpensLogoutCloses(items: map<string, string>, data: LoginResponse, userJson: string,
                               rememberMe: bool, email: string)
    ensures data.accessToken != "" && userJson != "" ==>
              HasSession(SessionAfterLogin(items, data, userJson, rememberMe, email))
    ensures var out := SessionCleared(items);
            !HasSession(out) && BearerHeader(out) == None && RememberedEmail(out) == None
  {
    SessionClearedForgetsSession(items);
  }

  /**
   * A stored `user` that is not JSON: the sidebar's mount check removes it and the token, while
   * the dashboard's catch, given the parser's own error message, leaves storage alone, so the
   * dashboard still counts the visitor as signed in.
   */
  lemma MalformedUserHandlingDiffers(items: map<string, string>, parse: string -> Option<SidebarNav.StoredUser>,
                                     syntaxError: string)
    requires HasSession(items) && parse(items[UserKey]).None?
    requires !Contains(syntaxError, AuthenticationRequired)
    ensures StorageAfterCatch(items, Some(PlainError(syntaxError))) == items
    ensures HasSession(StorageAfterCatch(items, Some(PlainError(syntaxError))))
    ensures UserKey !in SidebarNav.MountStorage(items, parse) && !HasSession(SidebarNav.MountStorage(items, parse))
  {
    SidebarNav.MountStorageDropsMalformedSession(items, parse);
  }

  /**
   * A data load answered 401: the API drops the token, but the hook swallows the error, so the
   * page's catch sees nothing and `user` stays; the session is gone only in that the next guard
   * finds no token.
   */
  lemma UnauthorizedLoadKeepsUser<T>(items: map<string, string>, statusText: string, body: Envelope<T>)
    ensures var after := AfterRequest(GET, Response(401, statusText, body), items);
            StorageAfterCatch(after, None) == after &&
            GetItem(after, UserKey) == GetItem(items, UserKey) &&
            AuthTokenKey !in after && !HasSession(after)
  {
    GetUnauthorized(statusText, body, items);
  }

  /**
   * An administrator whose role is the empty string is labelled three ways: "Admin" on the
   * administrators page, "" on the profile page, and "Administrator" under the sidebar.
   */
  lemma EmptyRoleLabels(p: AdminsHook.Admin)
    requires p.role == ""
    ensures AdminPage.RoleDisplay(p.role) == "Admin"
    ensures ProfilePage.RoleLabel(Some(p)) == ""
    ensures SidebarNav.DisplayRole(Some(p), None) == "Administrator"
  {
  }

  /** An empty name gets a different avatar on every page that draws one. */
  lemma EmptyNameInitials()
    ensures UsersPage.UserInitials("") == "U"
    ensures AdminPage.AdminInitials("") == "A"
    ensures ReportsPage.ReportInitials("") == ""
    ensures SidebarNav.SidebarInitials(None, None) == "AD"
    ensures ProfilePage.ProfileInitials(None) == "AD"
  {
  }
}
