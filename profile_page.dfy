/**
 * The profile page (src/app/dashboard/profile/page.tsx): the edit form kept in step with the
 * loaded profile, cancel and save, and the role label, initials and date fallback it displays.
 */
module ProfilePage {
  import opened Wrappers
  import opened Text
  import opened Thrown
  import opened ApiClient
  import opened HookCommon
  import opened AdminsHook

  /** `editedProfile` */
  datatype EditForm = EditForm(name: string, email: string)

  const EmptyForm := EditForm("", "")

  /** `{ name: profile.name || '', email: profile.email || '' }` */
  function FormOf(profile: Admin): (f: EditForm)
    ensures f.name == profile.name && f.email == profile.email
  {
    EditForm(profile.name, profile.email)
  }

  /**
   * The role badge: fixed text for `super_admin` and `admin`, otherwise `profile?.role ?? 'Admin'`,
   * which keeps an empty role as it is.
   */
  function RoleLabel(profile: Option<Admin>): (r: string)
    ensures profile.None? ==> r == "Admin"
    ensures profile.Some? && profile.value.role == "super_admin" ==> r == "Super Administrator"
    ensures profile.Some? && profile.value.role == "admin" ==> r == "Administrator"
    ensures profile.Some? && profile.value.role !in {"super_admin", "admin"} ==> r == profile.value.role
    ensures r == "" <==> profile.Some? && profile.value.role == ""
  {
    if profile.Some? && profile.value.role == "super_admin" then "Super Administrator"
    else if profile.Some? && profile.value.role == "admin" then "Administrator"
    else if profile.Some? then profile.value.role
    else "Admin"
  }

  /** `getUserInitials()`: initials of a non-empty profile name, otherwise "AD". */
  function ProfileInitials(profile: Option<Admin>): (r: string)
    ensures |r| <= 2 && forall i | 0 <= i < |r| :: !('a' <= r[i] <= 'z')
    ensures profile.Some? && profile.value.name != "" ==> r == Initials(profile.value.name)
    ensures profile.None? || profile.value.name == "" ==> r == "AD"
  {
    if profile.Some? && profile.value.name != "" then Initials(profile.value.name) else "AD"
  }

  const NotAvailable := "Not available"

  /** `formatDate(timestamp)`; the locale formatting itself is the parameter `format`. */
  function FormatDate(timestamp: Option<string>, format: string -> string): (r: string)
    ensures timestamp.None? || timestamp.value == "" ==> r == NotAvailable
    ensures timestamp.Some? && timestamp.value != "" ==> r == format(timestamp.value)
  {
    if timestamp.None? || timestamp.value == "" then NotAvailable else format(timestamp.value)
  }

  class ProfilePageState {
    const profileHook: AdminProfile
    var isEditing: bool
    var isSaving: bool
    var editedProfile: EditForm

    constructor (profileHook: AdminProfile)
      ensures this.profileHook == profileHook && !isEditing && !isSaving && editedProfile == EmptyForm
    {
      this.profileHook := profileHook;
      isEditing := false;
      isSaving := false;
      editedProfile := EmptyForm;
    }

    /** The effect on a newly loaded profile: the form takes its name and e-mail. */
    method OnProfileLoaded()
      modifies this
      ensures profileHook.profile.Some? ==> editedProfile == FormOf(profileHook.profile.value)
      ensures profileHook.profile.None? ==> editedProfile == old(editedProfile)
      ensures isEditing == old(isEditing) && isSaving == old(isSaving)
    {
      if profileHook.profile.Some? {
        editedProfile := FormOf(profileHook.profile.value);
      }
    }

    /** The mount effect loads the profile; a loaded profile then fills the form. */
    method Mount(outcome: HttpOutcome<Admin>)
      modifies this, profileHook, profileHook.api, profileHook.api.store
      ensures profileHook.api.sent == old(profileHook.api.sent) + [old(profileHook.api.RequestFor(GET, AdminProfileEndpoint, None))]
      ensures profileHook.api.store.items == AfterRequest(GET, outcome, old(profileHook.api.store.items))
      ensures !profileHook.isLoading
      ensures var s := Settle(GET, outcome, FetchProfileFallback);
              (s.Success? ==> profileHook.profile == Some(s.value) && profileHook.error == None &&
                              editedProfile == FormOf(s.value)) &&
              (s.Failure? ==> profileHook.profile == old(profileHook.profile) &&
                              profileHook.error == Some(MessageOr(s.error, FetchProfileFallback)) &&
                              editedProfile == old(editedProfile))
      ensures isEditing == old(isEditing) && isSaving == old(isSaving)
    {
      profileHook.FetchProfile(outcome);
      if Settle(GET, outcome, FetchProfileFallback).Success? {
        OnProfileLoaded();
      }
    }

    /** `handleInputChange('name', value)` */
    method EditName(value: string)
      modifies this
      ensures editedProfile == old(editedProfile).(name := value)
      ensures isEditing == old(isEditing) && isSaving == old(isSaving)
    {
      editedProfile := editedProfile.(name := value);
    }

    /** `handleInputChange('email', value)` */
    method EditEmail(value: string)
      modifies this
      ensures editedProfile == old(editedProfile).(email := value)
      ensures isEditing == old(isEditing) && isSaving == old(isSaving)
    {
      editedProfile := editedProfile.(email := value);
    }

    /** `handleCancel()`: edits are thrown away in favour of the loaded profile, and editing ends. */
    method HandleCancel()
      modifies this
      ensures profileHook.profile.Some? ==> editedProfile == FormOf(profileHook.profile.value)
      ensures profileHook.profile.None? ==> editedProfile == old(editedProfile)
      ensures !isEditing && isSaving == old(isSaving)
    {
      if profileHook.profile.Some? {
        editedProfile := FormOf(profileHook.profile.value);
      }
      isEditing := false;
    }

    /**
     * `handleSave()`: after the simulated delay editing ends and the profile is fetched again.
     * Nothing but that GET is sent, so the edits are never submitted; a profile that comes back
     * replaces them in the form. `isSaving` ends false.
     */
    method HandleSave(outcome: HttpOutcome<Admin>)
      modifies this, profileHook, profileHook.api, profileHook.api.store
      ensures profileHook.api.sent == old(profileHook.api.sent) + [old(profileHook.api.RequestFor(GET, AdminProfileEndpoint, None))]
      ensures profileHook.api.store.items == AfterRequest(GET, outcome, old(profileHook.api.store.items))
      ensures !profileHook.isLoading
      ensures var s := Settle(GET, outcome, FetchProfileFallback);
              (s.Success? ==> profileHook.profile == Some(s.value) && profileHook.error == None &&
                              editedProfile == FormOf(s.value)) &&
              (s.Failure? ==> profileHook.profile == old(profileHook.profile) &&
                              profileHook.error == Some(MessageOr(s.error, FetchProfileFallback)) &&
                              editedProfile == old(editedProfile))
      ensures !isEditing && !isSaving
    {
      isSaving := true;
      isEditing := false;
      profileHook.FetchProfile(outcome);
      if Settle(GET, outcome, FetchProfileFallback).Success? {
        OnProfileLoaded();
      }
      isSaving := false;
    }
  }
}
