/**
 * `useAdmins` and `useAdminProfile` (src/lib/hooks/useAdmins.ts): the administrator list with
 * its create, update and delete calls, each of which refetches the list on success and
 * rethrows on failure; and the signed-in administrator's own profile.
 */
module AdminsHook {
  import opened Wrappers
  import opened Thrown
  import opened ApiClient
  import opened HookCommon

  const AdminsEndpoint := "/admin"
  const AdminProfileEndpoint := "/admin/profile"

  const FetchAdminsFallback := "Failed to fetch admins"
  const CreateAdminFallback := "Failed to create admin"
  const UpdateAdminFallback := "Failed to update admin"
  const DeleteAdminFallback := "Failed to delete admin"
  const FetchProfileFallback := "Failed to fetch profile"
  const UpdateProfileFallback := "Failed to update profile"

  /** An administrator account; timestamps are kept as the strings the backend sends. */
  datatype Admin = Admin(
    id: string,
    email: string,
    name: string,
    role: string,
    isActive: bool,
    createdAt: string,
    updatedAt: Option<string>,
    lastLogin: Option<string>)

  /** `ADMIN_BY_ID(id)` */
  function AdminUrl(id: string): (r: string)
    ensures |r| == |AdminsEndpoint| + 1 + |id|
    ensures r[..|AdminsEndpoint| + 1] == AdminsEndpoint + "/" && r[|AdminsEndpoint| + 1..] == id
  {
    AdminsEndpoint + "/" + id
  }

  class Admins {
    const api: Api
    var admins: seq<Admin>
    var isLoading: bool
    var error: Option<string>

    constructor (api: Api)
      ensures this.api == api && admins == [] && !isLoading && error == None
    {
      this.api := api;
      admins := [];
      isLoading := false;
      error := None;
    }

    method ClearError()
      modifies this
      ensures error == None && admins == old(admins) && isLoading == old(isLoading)
    {
      error := None;
    }

    /** `fetchAdmins()`: one GET of /admin; the list is replaced on success, the error kept on failure. */
    method FetchAdmins(outcome: HttpOutcome<seq<Admin>>)
      modifies this, api, api.store
      ensures api.sent == old(api.sent) + [old(api.RequestFor(GET, AdminsEndpoint, None))]
      ensures api.store.items == AfterRequest(GET, outcome, old(api.store.items))
      ensures !isLoading
      ensures var s := Settle(GET, outcome, FetchAdminsFallback);
              (s.Success? ==> admins == s.value && error == None) &&
              (s.Failure? ==> admins == old(admins) && error == Some(MessageOr(s.error, FetchAdminsFallback)))
    {
      isLoading := true;
      ClearError();
      var response := api.Get(AdminsEndpoint, outcome);
      var caught: Option<Thrown> := None;
      match response {
        case Failure(e) =>
          caught := Some(e);
        case Success(env) =>
          if env.status != "success" || env.data.None? {
            caught := Some(PlainError(FailureMessage(env, FetchAdminsFallback)));
          } else {
            admins := env.data.value;
          }
      }
      if caught.Some? {
        error := Some(MessageOr(caught.value, FetchAdminsFallback));
      }
      isLoading := false;
    }

    /**
     * `createAdmin(data)`: a POST of /admin; on success the list is refetched and the created
     * admin returned; on failure the error is kept, nothing is refetched, and the error rethrown.
     */
    method CreateAdmin(data: Json, outcome: HttpOutcome<Admin>, refetch: HttpOutcome<seq<Admin>>)
      returns (r: Result<Admin, Thrown>)
      modifies this, api, api.store
      ensures r == Settle(POST, outcome, CreateAdminFallback)
      ensures !isLoading
      ensures r.Success? ==>
                api.sent == old(api.sent) + [old(api.RequestFor(POST, AdminsEndpoint, RequestBody(Some(data)))),
                                             old(api.RequestFor(GET, AdminsEndpoint, None))] &&
                api.store.items == AfterRequest(GET, refetch, old(api.store.items)) &&
                var s := Settle(GET, refetch, FetchAdminsFallback);
                (s.Success? ==> admins == s.value && error == None) &&
                (s.Failure? ==> admins == old(admins) && error == Some(MessageOr(s.error, FetchAdminsFallback)))
      ensures r.Failure? ==>
                api.sent == old(api.sent) + [old(api.RequestFor(POST, AdminsEndpoint, RequestBody(Some(data))))] &&
                api.store.items == AfterRequest(POST, outcome, old(api.store.items)) &&
                admins == old(admins) && error == Some(MessageOr(r.error, CreateAdminFallback))
    {
      isLoading := true;
      ClearError();
      var response := api.Post(AdminsEndpoint, Some(data), outcome);
      var caught: Option<Thrown> := None;
      match response {
        case Failure(e) =>
          caught := Some(e);
        case Success(env) =>
          if env.status != "success" || env.data.None? {
            caught := Some(PlainError(FailureMessage(env, CreateAdminFallback)));
          } else {
            FetchAdmins(refetch);
            r := Success(env.data.value);
          }
      }
      if caught.Some? {
        error := Some(MessageOr(caught.value, CreateAdminFallback));
        r := Failure(caught.value);
      }
      isLoading := false;
    }

    /**
     * `updateAdmin(id, data)`: a PUT of /admin/<id>; on success the list is refetched and the
     * updated admin returned; on failure the error is kept and rethrown.
     */
    method UpdateAdmin(id: string, data: Json, outcome: HttpOutcome<Admin>, refetch: HttpOutcome<seq<Admin>>)
      returns (r: Result<Admin, Thrown>)
      modifies this, api, api.store
      ensures r == Settle(PUT, outcome, UpdateAdminFallback)
      ensures !isLoading
      ensures r.Success? ==>
                api.sent == old(api.sent) + [old(api.RequestFor(PUT, AdminUrl(id), RequestBody(Some(data)))),
                                             old(api.RequestFor(GET, AdminsEndpoint, None))] &&
                api.store.items == AfterRequest(GET, refetch, old(api.store.items)) &&
                var s := Settle(GET, refetch, FetchAdminsFallback);
                (s.Success? ==> admins == s.value && error == None) &&
                (s.Failure? ==> admins == old(admins) && error == Some(MessageOr(s.error, FetchAdminsFallback)))
      ensures r.Failure? ==>
                api.sent == old(api.sent) + [old(api.RequestFor(PUT, AdminUrl(id), RequestBody(Some(data))))] &&
                api.store.items == old(api.store.items) &&
                admins == old(admins) && error == Some(MessageOr(r.error, UpdateAdminFallback))
    {
      isLoading := true;
      ClearError();
      var response := api.Put(AdminUrl(id), Some(data), outcome);
      var caught: Option<Thrown> := None;
      match response {
        case Failure(e) =>
          caught := Some(e);
        case Success(env) =>
          if env.status != "success" || env.data.None? {
            caught := Some(PlainError(FailureMessage(env, UpdateAdminFallback)));
          } else {
            FetchAdmins(refetch);
            r := Success(env.data.value);
          }
      }
      if caught.Some? {
        error := Some(MessageOr(caught.value, UpdateAdminFallback));
        r := Failure(caught.value);
      }
      isLoading := false;
    }

    /**
     * `deleteAdmin(id)`: a DELETE of /admin/<id>, checked on its status only; on success the
     * list is refetched; on failure the error is kept and rethrown.
     */
    method DeleteAdmin<T>(id: string, outcome: HttpOutcome<T>, refetch: HttpOutcome<seq<Admin>>)
      returns (r: Result<(), Thrown>)
      modifies this, api, api.store
      ensures r == SettleStatus(DELETE, outcome, DeleteAdminFallback)
      ensures !isLoading
      ensures r.Success? ==>
                api.sent == old(api.sent) + [old(api.RequestFor(DELETE, AdminUrl(id), None)),
                                             old(api.RequestFor(GET, AdminsEndpoint, None))] &&
                api.store.items == AfterRequest(GET, refetch, old(api.store.items)) &&
                var s := Settle(GET, refetch, FetchAdminsFallback);
                (s.Success? ==> admins == s.value && error == None) &&
                (s.Failure? ==> admins == old(admins) && error == Some(MessageOr(s.error, FetchAdminsFallback)))
      ensures r.Failure? ==>
                api.sent == old(api.sent) + [old(api.RequestFor(DELETE, AdminUrl(id), None))] &&
                api.store.items == old(api.store.items) &&
                admins == old(admins) && error == Some(MessageOr(r.error, DeleteAdminFallback))
    {
      isLoading := true;
      ClearError();
      var response := api.Delete(AdminUrl(id), outcome);
      var caught: Option<Thrown> := None;
      match response {
        case Failure(e) =>
          caught := Some(e);
        case Success(env) =>
          if env.status != "success" {
            caught := Some(PlainError(FailureMessage(env, DeleteAdminFallback)));
          } else {
            FetchAdmins(refetch);
            r := Success(());
          }
      }
      if caught.Some? {
        error := Some(MessageOr(caught.value, DeleteAdminFallback));
        r := Failure(caught.value);
      }
      isLoading := false;
    }

    /** `refreshAdmins()`: the same fetch again. */
    method RefreshAdmins(outcome: HttpOutcome<seq<Admin>>)
      modifies this, api, api.store
      ensures api.sent == old(api.sent) + [old(api.RequestFor(GET, AdminsEndpoint, None))]
      ensures api.store.items == AfterRequest(GET, outcome, old(api.store.items))
      ensures !isLoading
      ensures var s := Settle(GET, outcome, FetchAdminsFallback);
              (s.Success? ==> admins == s.value && error == None) &&
              (s.Failure? ==> admins == old(admins) && error == Some(MessageOr(s.error, FetchAdminsFallback)))
    {
      FetchAdmins(outcome);
    }
  }

  class AdminProfile {
    const api: Api
    var profile: Option<Admin>
    var isLoading: bool
    var error: Option<string>

    constructor (api: Api)
      ensures this.api == api && profile == None && !isLoading && error == None
    {
      this.api := api;
      profile := None;
      isLoading := false;
      error := None;
    }

    method ClearError()
      modifies this
      ensures error == None && profile == old(profile) && isLoading == old(isLoading)
    {
      error := None;
    }

    /** `fetchProfile()`: one GET of /admin/profile; the profile is replaced on success, the error kept on failure. */
    method FetchProfile(outcome: HttpOutcome<Admin>)
      modifies this, api, api.store
      ensures api.sent == old(api.sent) + [old(api.RequestFor(GET, AdminProfileEndpoint, None))]
      ensures api.store.items == AfterRequest(GET, outcome, old(api.store.items))
      ensures !isLoading
      ensures var s := Settle(GET, outcome, FetchProfileFallback);
              (s.Success? ==> profile == Some(s.value) && error == None) &&
              (s.Failure? ==> profile == old(profile) && error == Some(MessageOr(s.error, FetchProfileFallback)))
    {
      isLoading := true;
      ClearError();
      var response := api.Get(AdminProfileEndpoint, outcome);
      var caught: Option<Thrown> := None;
      match response {
        case Failure(e) =>
          caught := Some(e);
        case Success(env) =>
          if env.status != "success" || env.data.None? {
            caught := Some(PlainError(FailureMessage(env, FetchProfileFallback)));
          } else {
            profile := Some(env.data.value);
          }
      }
      if caught.Some? {
        error := Some(MessageOr(caught.value, FetchProfileFallback));
      }
      isLoading := false;
    }

    /**
     * `updateProfile(data)`: a PUT of /admin/profile; on success the returned profile replaces
     * the held one and is returned; on failure the error is kept and rethrown.
     */
    method UpdateProfile(data: Json, outcome: HttpOutcome<Admin>) returns (r: Result<Admin, Thrown>)
      modifies this, api, api.store
      ensures r == Settle(PUT, outcome, UpdateProfileFallback)
      ensures api.sent == old(api.sent) + [old(api.RequestFor(PUT, AdminProfileEndpoint, RequestBody(Some(data))))]
      ensures api.store.items == old(api.store.items)
      ensures !isLoading
      ensures r.Success? ==> profile == Some(r.value) && error == None
      ensures r.Failure? ==> profile == old(profile) && error == Some(MessageOr(r.error, UpdateProfileFallback))
    {
      isLoading := true;
      ClearError();
      var response := api.Put(AdminProfileEndpoint, Some(data), outcome);
      var caught: Option<Thrown> := None;
      match response {
        case Failure(e) =>
          caught := Some(e);
        case Success(env) =>
          if env.status != "success" || env.data.None? {
            caught := Some(PlainError(FailureMessage(env, UpdateProfileFallback)));
          } else {
            profile := Some(env.data.value);
            r := Success(env.data.value);
          }
      }
      if caught.Some? {
        error := Some(MessageOr(caught.value, UpdateProfileFallback));
        r := Failure(caught.value);
      }
      isLoading := false;
    }

    /** `refreshProfile()`: the same fetch again. */
    method RefreshProfile(outcome: HttpOutcome<Admin>)
      modifies this, api, api.store
      ensures api.sent == old(api.sent) + [old(api.RequestFor(GET, AdminProfileEndpoint, None))]
      ensures api.store.items == AfterRequest(GET, outcome, old(api.store.items))
      ensures !isLoading
      ensures var s := Settle(GET, outcome, FetchProfileFallback);
              (s.Success? ==> profile == Some(s.value) && error == None) &&
              (s.Failure? ==> profile == old(profile) && error == Some(MessageOr(s.error, FetchProfileFallback)))
    {
      FetchProfile(outcome);
    }
  }
}
