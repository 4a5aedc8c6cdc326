/**
 * The administrators page (src/app/dashboard/admin/page.tsx): the add-administrator form and
 * its checks, the search, role and status filters, the filter badge, the counters, the role
 * labels and initials, and the confirmed status toggle and deletion.
 */
module AdminPage {
  import opened Wrappers
  import opened Text
  import opened Lists
  import opened Thrown
  import opened ApiClient
  import opened HookCommon
  import opened AdminsHook

  /** The add-administrator form. */
  datatype AdminForm = AdminForm(name: string, email: string, password: string, role: string, isActive: bool)

  /** The form as the page first shows it, and as a successful submission leaves it. */
  const DefaultForm := AdminForm("", "", "", "admin", true)

  const NameRequired := "Name required"
  const EmailRequired := "Email required"
  const PasswordRequired := "Password required"
  const PasswordTooShort := "Password too short"
  const MinPasswordLength := 6

  /**
   * The title of the first warning `handleSubmit` shows, if any: name, e-mail and password are
   * tested for being blank (`!x.trim()`), then the password's untrimmed length against 6.
   */
  function AdminFormProblem(form: AdminForm): Option<string> {
    if IsBlank(form.name) then Some(NameRequired)
    else if IsBlank(form.email) then Some(EmailRequired)
    else if IsBlank(form.password) then Some(PasswordRequired)
    else if |form.password| < MinPasswordLength then Some(PasswordTooShort)
    else None
  }

  /**
   * A form is accepted exactly when no field is blank and the password has at least six
   * characters, counting the surrounding whitespace the check does not trim.
   */
  lemma AdminFormProblemCases(form: AdminForm)
    ensures AdminFormProblem(form).None? <==>
              Trim(form.name) != "" && Trim(form.email) != "" && Trim(form.password) != "" &&
              |form.password| >= MinPasswordLength
    ensures AdminFormProblem(form) == Some(PasswordTooShort) ==>
              Trim(form.name) != "" && Trim(form.email) != "" && Trim(form.password) != "" &&
              |form.password| < MinPasswordLength
    ensures AdminFormProblem(AdminForm("Ann", "a@b.c", "  ab  ", "admin", true)).None?
  {
    TrimEmptyIffBlank(form.name);
    TrimEmptyIffBlank(form.email);
    TrimEmptyIffBlank(form.password);
    assert !IsSpace("  ab  "[2]);
    assert !IsSpace("Ann"[0]);
    assert !IsSpace("a@b.c"[0]);
  }

  /** `{ name, email, role, password }`, the body `createAdmin` sends. */
  function CreateBody(form: AdminForm): Json {
    JObject([("name", JString(form.name)), ("email", JString(form.email)),
             ("role", JString(form.role)), ("password", JString(form.password))])
  }

  /** `{ isActive: !currentStatus }`, the body of a status toggle. */
  function ToggleBody(currentStatus: bool): Json {
    JObject([("isActive", JBool(!currentStatus))])
  }

  /** The search box: empty, or name, e-mail or role contain the query ignoring case. */
  predicate SearchMatches(a: Admin, query: string) {
    query == "" || ContainsIgnoreCase(a.name, query) || ContainsIgnoreCase(a.email, query) ||
    ContainsIgnoreCase(a.role, query)
  }

  predicate RoleMatches(a: Admin, role: string) {
    role == "all" || a.role == role
  }

  /** The status filter; a value other than "all", "active" and "inactive" matches nobody. */
  predicate StatusMatches(a: Admin, status: string) {
    status == "all" || (status == "active" && a.isActive) || (status == "inactive" && !a.isActive)
  }

  predicate IsShown(a: Admin, query: string, role: string, status: string) {
    SearchMatches(a, query) && RoleMatches(a, role) && StatusMatches(a, status)
  }

  /** `filteredAdmins` */
  function FilteredAdmins(admins: seq<Admin>, query: string, role: string, status: string): seq<Admin> {
    Filter(admins, a => IsShown(a, query, role, status))
  }

  /** The filtered list keeps, in order, exactly the administrators passing all three filters. */
  lemma FilteredAdminsSelects(admins: seq<Admin>, query: string, role: string, status: string)
    ensures IsSubsequence(FilteredAdmins(admins, query, role, status), admins)
    ensures forall a :: a in FilteredAdmins(admins, query, role, status) <==>
                          a in admins && SearchMatches(a, query) && RoleMatches(a, role) && StatusMatches(a, status)
  {
    FilterIsSubsequence(admins, a => IsShown(a, query, role, status));
  }

  /**
   * With every filter cleared the whole list shows; with an unknown status value nothing does;
   * and the "active" and "inactive" views split the list between them.
   */
  lemma FilteredAdminsExtremes(admins: seq<Admin>, status: string)
    ensures FilteredAdmins(admins, "", "all", "all") == admins
    ensures status != "all" && status != "active" && status != "inactive" ==>
              FilteredAdmins(admins, "", "all", status) == []
    ensures |FilteredAdmins(admins, "", "all", "active")| + |FilteredAdmins(admins, "", "all", "inactive")| == |admins|
  {
    FilterKeepsAll(admins, a => IsShown(a, "", "all", "all"));
    if status != "all" && status != "active" && status != "inactive" {
      FilterKeepsNone(admins, a => IsShown(a, "", "all", status));
    }
    CountersAddUp(admins);
    FilterExtensional(admins, IsActiveAdmin, a => IsShown(a, "", "all", "active"));
    FilterExtensional(admins, IsInactiveAdmin, a => IsShown(a, "", "all", "inactive"));
  }

  /** The number on the filter button: one for each of role and status not set to "all". */
  function FilterBadgeCount(role: string, status: string): (n: nat)
    ensures n <= 2
    ensures n == 0 <==> role == "all" && status == "all"
    ensures n == 2 <==> role != "all" && status != "all"
  {
    (if role != "all" then 1 else 0) + (if status != "all" then 1 else 0)
  }

  /** `getAdminInitials(name)`: "A" for an empty name, otherwise up to two upper-case word initials. */
  function AdminInitials(name: string): (r: string)
    ensures name == "" ==> r == "A"
    ensures name != "" ==> r == Initials(name)
    ensures |r| <= 2 && forall i | 0 <= i < |r| :: !('a' <= r[i] <= 'z')
  {
    if name == "" then "A" else Initials(name)
  }

  /** `getRoleDisplay(role)`: fixed labels for the three known roles, otherwise `role || 'Admin'`. */
  function RoleDisplay(role: string): (r: string)
    ensures role == "super_admin" ==> r == "Super Administrator"
    ensures role == "admin" ==> r == "Administrator"
    ensures role == "moderator" ==> r == "Moderator"
    ensures role !in {"super_admin", "admin", "moderator"} && role != "" ==> r == role
    ensures role == "" ==> r == "Admin"
    ensures r != ""
  {
    match role
    case "super_admin" => "Super Administrator"
    case "admin" => "Administrator"
    case "moderator" => "Moderator"
    case _ => if role != "" then role else "Admin"
  }

  predicate IsSuperAdmin(a: Admin) {
    a.role == "super_admin"
  }

  predicate IsActiveAdmin(a: Admin) {
    a.isActive
  }

  predicate IsInactiveAdmin(a: Admin) {
    !a.isActive
  }

  /** The Active and Inactive cards add up to the Total card; Super Admins never exceed it. */
  lemma CountersAddUp(admins: seq<Admin>)
    ensures Count(admins, IsActiveAdmin) + Count(admins, IsInactiveAdmin) == |admins|
    ensures Count(admins, IsSuperAdmin) <= |admins|
  {
    CountSplit(admins, IsActiveAdmin, IsInactiveAdmin);
    CountComplement(admins, IsSuperAdmin);
  }

  class AdminPageState {
    const admins: Admins
    var formData: AdminForm
    var isAddModalOpen: bool
    var isSubmitting: bool

    constructor (admins: Admins)
      ensures this.admins == admins && formData == DefaultForm && !isAddModalOpen && !isSubmitting
    {
      this.admins := admins;
      formData := DefaultForm;
      isAddModalOpen := false;
      isSubmitting := false;
    }

    /** The mount effect: load the list. */
    method Mount(outcome: HttpOutcome<seq<Admin>>)
      modifies admins, admins.api, admins.api.store
      ensures admins.api.sent == old(admins.api.sent) + [old(admins.api.RequestFor(GET, AdminsEndpoint, None))]
      ensures admins.api.store.items == AfterRequest(GET, outcome, old(admins.api.store.items))
      ensures !admins.isLoading
      ensures var s := Settle(GET, outcome, FetchAdminsFallback);
              (s.Success? ==> admins.admins == s.value && admins.error == None) &&
              (s.Failure? ==> admins.admins == old(admins.admins) &&
                              admins.error == Some(MessageOr(s.error, FetchAdminsFallback)))
    {
      admins.FetchAdmins(outcome);
    }

    /**
     * `handleSubmit`: a form with a problem shows its warning and sends nothing. A valid one is
     * posted; success resets the form, closes the dialog and refetches the list; a failure
     * (recorded by the hook) leaves form and dialog as they were; either way `isSubmitting`
     * ends false.
     */
    method HandleSubmit(outcome: HttpOutcome<Admin>, refetch: HttpOutcome<seq<Admin>>) returns (warning: Option<string>)
      modifies this, admins, admins.api, admins.api.store
      ensures warning == AdminFormProblem(old(formData))
      ensures warning.Some? ==>
                admins.api.sent == old(admins.api.sent) && admins.api.store.items == old(admins.api.store.items) &&
                admins.admins == old(admins.admins) && admins.error == old(admins.error) &&
                admins.isLoading == old(admins.isLoading) &&
                formData == old(formData) && isAddModalOpen == old(isAddModalOpen) && isSubmitting == old(isSubmitting)
      ensures warning.None? ==> !isSubmitting && !admins.isLoading
      ensures warning.None? && Settle(POST, outcome, CreateAdminFallback).Success? ==>
                formData == DefaultForm && !isAddModalOpen &&
                admins.api.sent == old(admins.api.sent) +
                                   [old(admins.api.RequestFor(POST, AdminsEndpoint, Some(CreateBody(formData)))),
                                    old(admins.api.RequestFor(GET, AdminsEndpoint, None))] &&
                admins.api.store.items == AfterRequest(GET, refetch, old(admins.api.store.items)) &&
                var s := Settle(GET, refetch, FetchAdminsFallback);
                (s.Success? ==> admins.admins == s.value && admins.error == None) &&
                (s.Failure? ==> admins.admins == old(admins.admins) &&
                                admins.error == Some(MessageOr(s.error, FetchAdminsFallback)))
      ensures warning.None? && Settle(POST, outcome, CreateAdminFallback).Failure? ==>
                formData == old(formData) && isAddModalOpen == old(isAddModalOpen) &&
                admins.api.sent == old(admins.api.sent) +
                                   [old(admins.api.RequestFor(POST, AdminsEndpoint, Some(CreateBody(formData))))] &&
                admins.api.store.items == AfterRequest(POST, outcome, old(admins.api.store.items)) &&
                admins.admins == old(admins.admins) &&
                admins.error == Some(MessageOr(Settle(POST, outcome, CreateAdminFallback).error, CreateAdminFallback))
    {
      warning := AdminFormProblem(formData);
      if warning.Some? {
        return;
      }
      isSubmitting := true;
      var body := CreateBody(formData);
      assert body.JObject?;
      assert body.IsTruthy();
      var r := admins.CreateAdmin(body, outcome, refetch);
      if r.Success? {
        formData := DefaultForm;
        isAddModalOpen := false;
      }
      isSubmitting := false;
    }

    /**
     * The confirmed toggle: a PUT of /admin/<id> asking for the opposite of the current status;
     * on success the list is refetched, on failure the hook keeps the error and nothing else is sent.
     */
    method ConfirmToggleStatus(id: string, currentStatus: bool, outcome: HttpOutcome<Admin>,
                               refetch: HttpOutcome<seq<Admin>>) returns (r: Result<Admin, Thrown>)
      modifies admins, admins.api, admins.api.store
      ensures r == Settle(PUT, outcome, UpdateAdminFallback)
      ensures !admins.isLoading
      ensures r.Success? ==>
                admins.api.sent == old(admins.api.sent) +
                                   [old(admins.api.RequestFor(PUT, AdminUrl(id), Some(ToggleBody(currentStatus)))),
                                    old(admins.api.RequestFor(GET, AdminsEndpoint, None))] &&
                admins.api.store.items == AfterRequest(GET, refetch, old(admins.api.store.items)) &&
                var s := Settle(GET, refetch, FetchAdminsFallback);
                (s.Success? ==> admins.admins == s.value && admins.error == None) &&
                (s.Failure? ==> admins.admins == old(admins.admins) &&
                                admins.error == Some(MessageOr(s.error, FetchAdminsFallback)))
      ensures r.Failure? ==>
                admins.api.sent == old(admins.api.sent) +
                                   [old(admins.api.RequestFor(PUT, AdminUrl(id), Some(ToggleBody(currentStatus))))] &&
                admins.api.store.items == old(admins.api.store.items) &&
                admins.admins == old(admins.admins) && admins.error == Some(MessageOr(r.error, UpdateAdminFallback))
    {
      var body := ToggleBody(currentStatus);
      assert body.JObject?;
      assert body.IsTruthy();
      r := admins.UpdateAdmin(id, body, outcome, refetch);
    }

    /**
     * The confirmed deletion: a DELETE of /admin/<id>, whose rejection nobody handles; on
     * success the list is refetched, on failure the hook keeps the error.
     */
    method ConfirmDelete<T>(id: string, outcome: HttpOutcome<T>, refetch: HttpOutcome<seq<Admin>>)
      returns (r: Result<(), Thrown>)
      modifies admins, admins.api, admins.api.store
      ensures r == SettleStatus(DELETE, outcome, DeleteAdminFallback)
      ensures !admins.isLoading
      ensures r.Success? ==>
                admins.api.sent == old(admins.api.sent) + [old(admins.api.RequestFor(DELETE, AdminUrl(id), None)),
                                                           old(admins.api.RequestFor(GET, AdminsEndpoint, None))] &&
                admins.api.store.items == AfterRequest(GET, refetch, old(admins.api.store.items)) &&
                var s := Settle(GET, refetch, FetchAdminsFallback);
                (s.Success? ==> admins.admins == s.value && admins.error == None) &&
                (s.Failure? ==> admins.admins == old(admins.admins) &&
                                admins.error == Some(MessageOr(s.error, FetchAdminsFallback)))
      ensures r.Failure? ==>
                admins.api.sent == old(admins.api.sent) + [old(admins.api.RequestFor(DELETE, AdminUrl(id), None))] &&
                admins.api.store.items == old(admins.api.store.items) &&
                admins.admins == old(admins.admins) && admins.error == Some(MessageOr(r.error, DeleteAdminFallback))
    {
      r := admins.DeleteAdmin(id, outcome, refetch);
    }
  }
}
