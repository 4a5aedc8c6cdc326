# Deni admin dashboard — a Dafny model of its client-side core

This project models the browser-side core of the Deni admin dashboard, a Next.js application. It covers:

- the HTTP wrapper `api`, which attaches the bearer token, turns bad statuses into thrown errors and drops the token on a 401;
- the two error-normalising utilities (`errorHandler` and `ApiErrorHandler`) and the form validators;
- `cn`, the class-name joiner;
- the data hooks `useLogin`, `useLogout`, `useAdmins`, `useAdminProfile`, `useUsers`, `useUsersCount`, and the country, currency and user analytics hooks, plus `useErrorHandling`;
- the `Sidebar` component;
- the dashboard, users, admin, reports and profile pages.

## How the model is organised

The browser's `localStorage` is a `map<string, string>` held in a `Browser.LocalStorage` object. The router is a `Browser.Navigator` that records the paths pushed to it. The `api` singleton is the class `ApiClient.Api`; its log `sent` records every request issued, with its URL, verb, body and `Authorization` header.

`fetch` is not executed. Each request takes its settled response as a parameter, `HttpOutcome`: either a status code, status text and decoded JSON envelope, or a network `TypeError`. `JSON.parse` and `JSON.stringify` also become function parameters.

A value thrown in JavaScript is the datatype `Thrown`, whose cases are:

- `Error`
- `TypeError`
- the admin client's `ApiError` class
- an API error object
- a string
- any other value

Every hook is a class whose fields are its React state. Each hook callback is a method that updates those fields and states its whole new state.

The pages follow the same pattern: each page component is a class that holds its state and the hooks it uses. Each effect or handler is a method. The values the page derives for rendering are pure functions:

- filtered lists;
- counters;
- badges;
- initials;
- percentages;
- the choice between login prompt, loading spinner, error card and content.

Where the natural-language description of the system and the code disagree, the model follows the code:

- A 401 while a page loads data neither removes `user` nor redirects at once; only the next session check, finding no token, sends the visitor to the login page. `api.get` removes only `authToken` and throws. Every data hook catches that error into its `error` field, so the pages' `catch` blocks that would remove `user` and redirect never run. `DashboardPage.Dashboard.Mount`, `UsersPage.UsersPageState.Mount` and `SessionFacts.UnauthorizedLoadKeepsUser` prove this.
- The dashboard's `catch` can still run, but only when `JSON.parse` of the stored user throws. When the parser's `SyntaxError` message does not contain "Authentication required", the malformed user is kept. The Sidebar, by contrast, removes it (`SessionFacts.MalformedUserHandlingDiffers`).
- The profile page's Save does not submit the edits. It waits, leaves edit mode and re-fetches the profile (`ProfilePage.ProfilePageState.HandleSave`).

## Model

| member | source | states |
|---|---|---|
| ApiClient.BearerHeader | src/lib/api.ts:152-163 | an Authorization header is produced exactly when a non-empty token is stored, and it is "Bearer " followed by that token |
| ApiClient.BearerHeaderCarriesToken | src/lib/api.ts:152-155 | the token can be read back from the header by dropping the "Bearer " prefix |
| ApiClient.RequestBody | src/lib/api.ts:59 | a body is sent exactly when the data argument is truthy, and it is that data unchanged |
| ApiClient.HttpMessage | src/lib/api.ts:40 | the generic failure message starts with "HTTP " and contains the status text |
| ApiClient.HttpMessageDistinguishesCodes | src/lib/api.ts:40 | two failures with the same status text but different codes give different messages |
| ApiClient.VerbResult | src/lib/api.ts:33-46 | a network failure is rethrown as the same TypeError; a 2xx status yields the decoded body; any other status throws an Error |
| ApiClient.AfterRequest | src/lib/api.ts:35-38 | storage changes only by losing authToken, and only on a 401 answer to GET or POST |
| ApiClient.GetUnauthorized | src/lib/api.ts:35-38 | GET on 401 throws "Authentication required" and drops only authToken |
| ApiClient.PostUnauthorizedOrForbidden | src/lib/api.ts:66-72 | POST on 401 throws "Invalid credentials" and drops the token; on 403 it throws "Access forbidden" and keeps it |
| ApiClient.WriteVerbsKeepToken | src/lib/api.ts:95-97 | PUT, DELETE and PATCH never touch storage, and every non-2xx answer gives the generic HTTP message |
| ApiClient.StorageChangesOnlyOnFailure | src/lib/api.ts:33-41 | if a request changes storage, the request threw and storage lost exactly the stored authToken |
| ApiClient.Api.constructor | src/lib/api.ts:16-18 | a fresh client has its base URL and has sent nothing |
| ApiClient.Api.RequestFor | src/lib/api.ts:23-31 | a request goes to base URL + endpoint and carries the header derived from the current storage |
| ApiClient.Api.GetToken | src/lib/api.ts:158-163 | returns the stored authToken, or none |
| ApiClient.Api.SetToken | src/lib/api.ts:166-170 | storage afterwards is the old storage with authToken set to the token |
| ApiClient.Api.RemoveToken | src/lib/api.ts:173-177 | storage afterwards is the old storage without authToken |
| ApiClient.Api.Get | src/lib/api.ts:21-48 | exactly one GET is logged, with the header from before the call; the result and the new storage follow VerbResult and AfterRequest |
| ApiClient.Api.Post | src/lib/api.ts:51-81 | exactly one POST is logged, carrying the truthy data as its body; the result and storage follow the POST rules |
| ApiClient.Api.Put | src/lib/api.ts:84-104 | one PUT is logged; the result follows VerbResult and storage is unchanged |
| ApiClient.Api.Delete | src/lib/api.ts:107-126 | one DELETE without a body is logged; the result follows VerbResult and storage is unchanged |
| ApiClient.Api.Patch | src/lib/api.ts:129-149 | one PATCH is logged; the result follows VerbResult and storage is unchanged |
| ErrorHandler.NewApiError | src/lib/errorHandling.ts:10-19 | an ApiError is an Error that keeps its message |
| ErrorHandler.HandleApiError | src/lib/errorHandling.ts:25-45 | keeps an Error's message; keeps code and status only for ApiError, otherwise uses UNKNOWN_ERROR and no status; non-errors get the fixed unexpected-error message |
| ErrorHandler.HandleApiErrorRoundTrip | src/lib/errorHandling.ts:26-32 | normalising an ApiError built from an AppError gives back that AppError |
| ErrorHandler.HandleNetworkError | src/lib/errorHandling.ts:48-57 | a TypeError mentioning "fetch" becomes the NETWORK_ERROR record; anything else is handled like an API error |
| ErrorHandler.NetworkCodeOrigin | src/lib/errorHandling.ts:48-57 | the NETWORK_ERROR code appears exactly for fetch TypeErrors or ApiErrors that already carry that code |
| ErrorHandler.HandleAuthError | src/lib/errorHandling.ts:60-72 | a 401 or 403 status becomes the AUTH_ERROR record with the same status; any other error normalises as usual |
| ErrorHandler.AuthCodeOrigin | src/lib/errorHandling.ts:60-72 | AUTH_ERROR appears exactly when the status is 401 or 403 or the ApiError already carried that code |
| ErrorHandler.HandleAuthErrorIdempotent | src/lib/errorHandling.ts:60-72 | rebuilding the normalised record as an ApiError and normalising again changes nothing |
| ErrorHandler.GetUserMessage | src/lib/errorHandling.ts:75-88 | each known code maps to its fixed text; other codes show the message, or a default when it is empty; the result is never empty |
| ErrorHandler.AuthStatusShowsSessionExpired | src/lib/errorHandling.ts:63-68 | an ApiError with status 401 or 403 is shown as "Session expired" |
| ErrorHandler.PlainErrorShowsOwnMessage | src/lib/errorHandling.ts:34-39 | a plain Error or TypeError is shown with its own message, or the default when that is empty |
| ApiErrorHandler.HandleError | src/lib/utils/errorHandling.ts:5-19 | the message comes from an Error, a string, or an object's message field, in that order; otherwise the fixed fallback |
| ApiErrorHandler.GetErrorMessage | src/lib/utils/errorHandling.ts:31-40 | an API error object with a non-empty error list shows the list joined by ", "; anything else falls back to HandleError |
| ApiErrorHandler.GetValidationErrors | src/lib/utils/errorHandling.ts:66-72 | an API error object's error list, or [] when there is none |
| ApiErrorHandler.ValidationErrorMessage | src/lib/utils/errorHandling.ts:58-64 | a validation error always has a non-empty list, and its message is that list joined |
| ApiErrorHandler.ClientErrorsAreNotApiErrors | src/lib/utils/errorHandling.ts:21-29 | an `Error` is never recognised as a backend error object (status "error" and a message), so its own message is shown and it is never a validation error |
| ApiErrorHandler.AuthErrorByStatus | src/lib/utils/errorHandling.ts:42-45 | a backend error object is an auth error exactly when its status code is 401 or 403 |
| ApiErrorHandler.NonErrorsAreNotAuthErrors | src/lib/utils/errorHandling.ts:42-56 | a value that is neither a backend error object nor an `Error` is never an auth error |
| ApiErrorHandler.ValidationErrorIsNotAuthError | src/lib/utils/errorHandling.ts:42-64 | a validation error (code 400 with field errors) is never an auth error |
| ApiErrorHandler.AuthenticationRequiredIsAuthError | src/lib/utils/errorHandling.ts:47-53 | the client's "Authentication required" error is an auth error, its lower-cased message mentioning "authentication" |
| ApiErrorHandler.InvalidCredentialsIsNotAuthError | src/lib/utils/errorHandling.ts:47-53 | the client's "Invalid credentials" error is not an auth error: none of the four words occurs in it |
| ApiErrorHandler.MessageHelpersAgree | src/lib/utils/errorHandling.ts:31-40 | without an error list the two message helpers agree |
| ApiErrorHandler.ValidateRequired | src/lib/utils/errorHandling.ts:136-141 | "<field> is required" is returned exactly for empty or all-whitespace values |
| ApiErrorHandler.IndexOf | src/lib/utils/errorHandling.ts:144 | the position returned holds the character sought, or is the length when the character is absent |
| ApiErrorHandler.IndexOfFirst | src/lib/utils/errorHandling.ts:144 | IndexOf returns the first occurrence |
| ApiErrorHandler.ValidEmailMatches | src/lib/utils/errorHandling.ts:144 | the executable email check implies the regular expression /^[^\s@]+@[^\s@]+\.[^\s@]+$/ matches |
| ApiErrorHandler.SplitAtFirstAt | src/lib/utils/errorHandling.ts:144 | any match of the expression splits at the only '@' |
| ApiErrorHandler.MatchedEmailValid | src/lib/utils/errorHandling.ts:144 | a match of the expression passes the executable check |
| ApiErrorHandler.IsValidEmailMatchesPattern | src/lib/utils/errorHandling.ts:143-149 | the executable check accepts exactly the strings the regular expression matches |
| ApiErrorHandler.ValidateEmail | src/lib/utils/errorHandling.ts:143-149 | the invalid-email message is returned exactly when the expression does not match |
| ApiErrorHandler.ValidatePassword | src/lib/utils/errorHandling.ts:151-156 | the message is returned exactly for passwords shorter than 6 |
| ApiErrorHandler.ValidatePasswordConfirmation | src/lib/utils/errorHandling.ts:158-163 | the mismatch message is returned exactly when the two strings differ |
| ClassNames.TruthyClasses | src/lib/utils/index.ts:5-7 | keeps at most as many entries as given, none of them empty; a string is in the result exactly when it is a non-empty string argument |
| ClassNames.CnEmptyIff | src/lib/utils/index.ts:5-7 | the joined class string is empty exactly when no argument is truthy |
| ClassNames.TruthyNoneIff | src/lib/utils/index.ts:6 | nothing survives the filter exactly when no argument is truthy |
| ClassNames.CnSplitsBack | src/lib/utils/index.ts:6 | for space-free class names, splitting the result on ' ' recovers exactly the truthy arguments in order |
| ClassNames.TruthyClassesInOrder | src/lib/utils/index.ts:6 | the result is the string of each argument `Boolean` keeps, in argument order (the kept arguments are a subsequence of the arguments) |
| ClassNames.CnSingle | src/lib/utils/index.ts:5-7 | a single non-empty class string, spaces included, comes back unchanged |
| ClassNames.CnAppend | src/lib/utils/index.ts:5-7 | one more argument: a falsy one changes nothing, a truthy one is appended after one space (or alone if nothing before was truthy); with `cn() == ""` this fixes the result for every argument list |
| Text.JoinAppend | src/lib/utils/index.ts:6 | joining one more piece adds one separator and the piece |
| ErrorHandlingHook.UserMessageOf | src/lib/hooks/useErrorHandling.ts:48-51 | "" exactly when no error is recorded, otherwise the user message of the recorded error |
| ErrorHandlingHook.ErrorHandling.constructor | src/lib/hooks/useErrorHandling.ts:18 | starts with no error |
| ErrorHandlingHook.ErrorHandling.ClearError | src/lib/hooks/useErrorHandling.ts:20-22 | the error becomes none |
| ErrorHandlingHook.ErrorHandling.HandleError | src/lib/hooks/useErrorHandling.ts:24-28 | records the API-normalised error |
| ErrorHandlingHook.ErrorHandling.HandleApiError | src/lib/hooks/useErrorHandling.ts:30-34 | records the API-normalised error |
| ErrorHandlingHook.ErrorHandling.HandleNetworkError | src/lib/hooks/useErrorHandling.ts:36-40 | records the network-normalised error |
| ErrorHandlingHook.ErrorHandling.HandleAuthError | src/lib/hooks/useErrorHandling.ts:42-46 | records the auth-normalised error |
| ErrorHandlingHook.ErrorHandling.GetUserMessage | src/lib/hooks/useErrorHandling.ts:48-51 | returns "" exactly when there is no error |
| HookCommon.FailureMessage | src/lib/hooks/useAdmins.ts:91-93 | the thrown message is the envelope's message, else its error, else the fallback; it is never empty when the fallback is not |
| HookCommon.RequireData | src/lib/hooks/useAdmins.ts:91-93 | a response is accepted exactly when status is "success" and data is present; otherwise it throws the failure message |
| HookCommon.RequireSuccess | src/lib/hooks/useAdmins.ts:168-170 | the delete response is accepted exactly when status is "success" |
| HookCommon.SettleSucceedsIff | src/lib/hooks/useAdmins.ts:89-93 | a hook call succeeds exactly on a 2xx answer whose envelope is a success with data, and then yields that data |
| HookCommon.SettleSuccessKeepsStorage | src/lib/hooks/useAdmins.ts:89-95 | a successful hook call never changes storage |
| HookCommon.SettleRejectsWithErrors | src/lib/hooks/useAdmins.ts:97-99 | every hook failure is an Error value, so the hook shows its message rather than the fallback |
| HookCommon.WithLimit | src/lib/hooks/useCountryAnalytics.ts:48-53 | the endpoint gains "?limit=<n>" exactly when a limit is given |
| HookCommon.WithLimitInjective | src/lib/hooks/useCountryAnalytics.ts:48-53 | different limits give different URLs |
| LoginHook.CredentialsProblemCases | src/lib/hooks/useLogin.ts:86-103 | validation passes exactly for non-blank email and password with a valid email, and reports the first failing check |
| LoginHook.ValidatedEmailIsTrimmed | src/lib/hooks/useLogin.ts:97 | an email that passes validation has no surrounding whitespace |
| LoginHook.SessionAfterLogin | src/lib/hooks/useLogin.ts:120-139 | after login the token and user are stored; the refresh token is stored when it is a non-empty string and otherwise left as it was; rememberMe and lastEmail are set or removed according to the checkbox |
| LoginHook.SessionAfterLoginKeepsOtherKeys | src/lib/hooks/useLogin.ts:120-139 | keys outside the session keys are untouched by login |
| LoginHook.RememberedEmail | src/lib/hooks/useLogin.ts:182-192 | an email is remembered exactly when rememberMe is "true" and lastEmail is non-empty |
| LoginHook.RememberedEmailRoundTrip | src/lib/hooks/useLogin.ts:131-137 | after a login with "remember me" the next mount pre-fills the same email; without it nothing is pre-filled |
| LoginHook.LoginErrorMessage | src/lib/hooks/useLogin.ts:142-155 | classifies the failure as connection, invalid credentials, bad request or other, in that order; never empty |
| LoginHook.Login.constructor | src/lib/hooks/useLogin.ts:67-74 | the form starts empty and unchecked, with no error |
| LoginHook.Login.TogglePasswordVisibility | src/lib/hooks/useLogin.ts:76-78 | flips the visibility and nothing else |
| LoginHook.Login.ClearError | src/lib/hooks/useLogin.ts:80-83 | clears both the hook's error and the shared error state |
| LoginHook.Login.ValidateCredentials | src/lib/hooks/useLogin.ts:86-103 | returns true exactly when the credentials have no problem, and otherwise shows the first problem |
| LoginHook.Login.PerformLogin | src/lib/hooks/useLogin.ts:106-117 | posts the trimmed credentials once to /admin/login and settles the answer |
| LoginHook.Login.HandleSuccessfulLogin | src/lib/hooks/useLogin.ts:120-139 | storage becomes SessionAfterLogin of the old storage |
| LoginHook.Login.HandleLoginError | src/lib/hooks/useLogin.ts:142-158 | shows LoginErrorMessage and records the auth-normalised error |
| LoginHook.Login.HandleSubmit | src/lib/hooks/useLogin.ts:160-179 | invalid input sends nothing; otherwise one login POST; success stores the session and goes to /dashboard; failure shows the error; loading ends false |
| LoginHook.Login.LoadRememberedEmail | src/lib/hooks/useLogin.ts:182-192 | pre-fills the email and ticks "remember me" exactly when an email is remembered |
| LoginHook.LoginRejectionShownVerbatim | src/lib/hooks/useLogin.ts:150-151 | a 401 at login is shown as "Invalid credentials" itself, not as the "Invalid email or password" message |
| LogoutHook.SessionClearedForgetsSession | src/lib/hooks/useLogout.ts:61-69 | after logout no session key is readable and no session exists; other keys keep their values |
| LogoutHook.SessionClearedIdempotent | src/lib/hooks/useLogout.ts:61-69 | clearing twice is clearing once |
| LogoutHook.SessionClearedAbsorbsTokenRemoval | src/lib/hooks/useLogout.ts:62 | an earlier token removal makes no difference to the cleared storage |
| LogoutHook.Logout.constructor | src/lib/hooks/useLogout.ts:27-28 | starts idle with no error |
| LogoutHook.Logout.ClearError | src/lib/hooks/useLogout.ts:30-33 | clears both error states |
| LogoutHook.Logout.ClearSession | src/lib/hooks/useLogout.ts:61-69 | storage becomes SessionCleared of the old storage |
| LogoutHook.Logout.Logout | src/lib/hooks/useLogout.ts:36-91 | the server logout is sent, with the stored refresh token, exactly when one is stored; whatever the answer, the session is cleared and /login pushed once; loading ends false |
| AdminsHook.AdminUrl | src/lib/hooks/useAdmins.ts:67 | "/admin/" followed by the id, from which the id can be read back |
| AdminsHook.Admins.constructor | src/lib/hooks/useAdmins.ts:74-76 | starts with no admins, idle, no error |
| AdminsHook.Admins.ClearError | src/lib/hooks/useAdmins.ts:78-81 | clears the error and keeps the list |
| AdminsHook.Admins.FetchAdmins | src/lib/hooks/useAdmins.ts:84-104 | one GET /admin; success replaces the list, failure keeps it and shows the message; loading ends false |
| AdminsHook.Admins.CreateAdmin | src/lib/hooks/useAdmins.ts:107-131 | one POST; on success the list is re-fetched and the created admin returned; on failure nothing more is sent and the error is shown and rethrown |
| AdminsHook.Admins.UpdateAdmin | src/lib/hooks/useAdmins.ts:134-158 | one PUT to /admin/<id>, then a re-fetch on success; failure is shown and rethrown |
| AdminsHook.Admins.DeleteAdmin | src/lib/hooks/useAdmins.ts:161-183 | one DELETE to /admin/<id>, accepted on status "success" alone, then a re-fetch; failure is shown and rethrown |
| AdminsHook.Admins.RefreshAdmins | src/lib/hooks/useAdmins.ts:186-188 | behaves as FetchAdmins |
| AdminsHook.AdminProfile.constructor | src/lib/hooks/useAdmins.ts:209-211 | starts with no profile |
| AdminsHook.AdminProfile.ClearError | src/lib/hooks/useAdmins.ts:213-216 | clears the error and keeps the profile |
| AdminsHook.AdminProfile.FetchProfile | src/lib/hooks/useAdmins.ts:219-239 | one GET /admin/profile; success sets the profile, failure keeps it and shows the message |
| AdminsHook.AdminProfile.UpdateProfile | src/lib/hooks/useAdmins.ts:242-265 | one PUT /admin/profile; success sets and returns the profile, failure shows and rethrows; storage is unchanged |
| AdminsHook.AdminProfile.RefreshProfile | src/lib/hooks/useAdmins.ts:268-270 | behaves as FetchProfile |
| UsersHook.Normalize | src/lib/hooks/useUsers.ts:94-107 | an array is the user list itself; a wrapper yields its data, count and pagination; any other shape yields an empty page; the count defaults to the list length |
| UsersHook.UsersUrl | src/lib/hooks/useUsers.ts:75-83 | /users with page and limit parameters, present exactly when given, page first |
| UsersHook.Users.constructor | src/lib/hooks/useUsers.ts:58-62 | starts with an empty page |
| UsersHook.Users.ClearError | src/lib/hooks/useUsers.ts:64-67 | clears the error and keeps the page |
| UsersHook.Users.FetchUsers | src/lib/hooks/useUsers.ts:70-124 | one GET of UsersUrl; success installs the normalised page, failure keeps it and shows the message; it never rejects |
| UsersHook.Users.RefreshUsers | src/lib/hooks/useUsers.ts:127-129 | behaves as FetchUsers without paging |
| UsersCountHook.TotalOf | src/lib/hooks/useUsersCount.ts:53 | the reported total, or 0 when it is absent |
| UsersCountHook.UsersCount.constructor | src/lib/hooks/useUsersCount.ts:32-34 | starts at 0 |
| UsersCountHook.UsersCount.ClearError | src/lib/hooks/useUsersCount.ts:36-39 | clears the error and keeps the total |
| UsersCountHook.UsersCount.FetchUsersCount | src/lib/hooks/useUsersCount.ts:42-62 | one GET /users/count; success sets the total, failure keeps it and shows the message; it never rejects |
| UsersCountHook.UsersCount.RefreshCount | src/lib/hooks/useUsersCount.ts:65-67 | behaves as FetchUsersCount |
| CountryAnalyticsHook.CountryAnalyticsState.constructor | src/lib/hooks/useCountryAnalytics.ts:33-35 | starts empty |
| CountryAnalyticsHook.CountryAnalyticsState.ClearError | src/lib/hooks/useCountryAnalytics.ts:37-40 | clears the error and keeps the data |
| CountryAnalyticsHook.CountryAnalyticsState.FetchCountryAnalytics | src/lib/hooks/useCountryAnalytics.ts:43-70 | one GET with the optional limit; success replaces the data, failure shows the message; it never rejects |
| CountryAnalyticsHook.CountryAnalyticsState.RefreshCountryAnalytics | src/lib/hooks/useCountryAnalytics.ts:73-75 | behaves as a fetch without a limit |
| CurrencyAnalyticsHook.CurrencyAnalyticsState.constructor | src/lib/hooks/useCurrencyAnalytics.ts:33-35 | starts empty |
| CurrencyAnalyticsHook.CurrencyAnalyticsState.ClearError | src/lib/hooks/useCurrencyAnalytics.ts:37-40 | clears the error and keeps the data |
| CurrencyAnalyticsHook.CurrencyAnalyticsState.FetchCurrencyAnalytics | src/lib/hooks/useCurrencyAnalytics.ts:43-70 | one GET with the optional limit; success replaces the data, failure shows the message; it never rejects |
| CurrencyAnalyticsHook.CurrencyAnalyticsState.RefreshCurrencyAnalytics | src/lib/hooks/useCurrencyAnalytics.ts:73-75 | behaves as a fetch without a limit |
| UserAnalyticsHook.UserAnalyticsState.constructor | src/lib/hooks/useUserAnalytics.ts:46-48 | starts with no analytics |
| UserAnalyticsHook.UserAnalyticsState.ClearError | src/lib/hooks/useUserAnalytics.ts:50-53 | clears the error and keeps the data |
| UserAnalyticsHook.UserAnalyticsState.FetchAnalytics | src/lib/hooks/useUserAnalytics.ts:56-76 | one GET /users/analytics; success sets the analytics, failure shows the message; it never rejects |
| UserAnalyticsHook.UserAnalyticsState.RefreshAnalytics | src/lib/hooks/useUserAnalytics.ts:79-81 | behaves as FetchAnalytics |
| Text.Initials | src/app/dashboard/users/page.tsx:82-87 | at most two characters, none of them a lower-case letter |
| Text.InitialsAreWordStarts | src/app/dashboard/users/page.tsx:82-87 | the initials are the first letters of the space-separated words, upper-cased, keeping the first two |
| SidebarNav.Fallback | src/components/layout/Sidebar.tsx:297-303 | the profile value if truthy, else the stored value if truthy, else the default, which is never empty |
| SidebarNav.GetStoredUser | src/components/layout/Sidebar.tsx:101-113 | no stored user, or one that fails to parse, reads as none; otherwise the parsed user |
| SidebarNav.AdminShownOnlyToSuperAdmin | src/components/layout/Sidebar.tsx:182-187 | the Admin entry is listed exactly when the profile role, or else the stored role, is super_admin; every other entry is always listed |
| SidebarNav.AtMostOneHighlighted | src/components/layout/Sidebar.tsx:189 | no path highlights two navigation entries |
| SidebarNav.SidebarInitials | src/components/layout/Sidebar.tsx:286-291 | the initials of the profile name, else of the stored name, else "AD" |
| SidebarNav.MountStorageDropsMalformedSession | src/components/layout/Sidebar.tsx:72-89 | mounting removes user and authToken exactly when both are set and the user fails to parse |
| SidebarNav.Sidebar.constructor | src/components/layout/Sidebar.tsx:67-69 | holds the profile and logout hooks |
| SidebarNav.Sidebar.Mount | src/components/layout/Sidebar.tsx:72-89 | the profile is fetched exactly when a session with a parsable user is stored; a malformed one is removed and nothing is sent |
| SidebarNav.Sidebar.HandleLogout | src/components/layout/Sidebar.tsx:92-98 | the session is cleared and /login pushed |
| PageGuard.GetUnauthorizedSignalsAuthenticationRequired | src/lib/api.ts:35-38 | a 401 on GET throws an error the pages recognise as "Authentication required" |
| PageGuard.StorageAfterCatch | src/app/dashboard/page.tsx:63-71 | an "Authentication required" error leaves no session; any other error leaves storage as it was; other keys never change |
| DashboardPage.Rows | src/app/dashboard/page.tsx:136 | shows a prefix of the list of at most the cap, the whole list when shorter |
| DashboardPage.CountSumBoundsEach | src/app/dashboard/page.tsx:137 | with non-negative counts the total is at least each count |
| DashboardPage.PercentageIsRounded | src/app/dashboard/page.tsx:138 | 0 for a non-positive total; otherwise the nearest integer to count / total * 100, halves rounded up, and within 0..100 for counts within the total |
| DashboardPage.CurrencyShares | src/app/dashboard/page.tsx:136-138 | one row per shown currency, each with its percentage of the total over all currencies |
| DashboardPage.CurrencySharesInRange | src/app/dashboard/page.tsx:136-138 | every shown percentage is between 0 and 100 |
| DashboardPage.FirstError | src/app/dashboard/page.tsx:266-275 | the first non-empty error in order, or none exactly when all are empty |
| DashboardPage.ViewOf | src/app/dashboard/page.tsx:97-275 | login prompt exactly without a session; loading exactly while a hook loads; error card exactly when some hook has an error, showing one of them |
| DashboardPage.AfterLoadsKeepsUser | src/app/dashboard/page.tsx:57-62 | the four loads keep the stored user and every key but authToken, which survives exactly when no load was answered 401 |
| DashboardPage.Dashboard.constructor | src/app/dashboard/page.tsx:38-41 | the four hooks share the page's api client |
| DashboardPage.Dashboard.CatchLoadError | src/app/dashboard/page.tsx:63-71 | storage follows StorageAfterCatch and /login is pushed exactly when the session ends |
| DashboardPage.Dashboard.Mount | src/app/dashboard/page.tsx:27-80 | without a session nothing is sent and both effects push /login; with a malformed user nothing is sent and storage follows the catch block; otherwise exactly four GETs are sent, in order: the user count, five countries, three currencies and the analytics; storage becomes AfterLoads, there is no redirect and no hook is still loading; each hook then holds its own settled answer (total, countries, currencies, analytics with no error) or keeps its old data with its failure message, which decides the view; without the loads the four hooks are untouched |
| UsersPage.FilteredUsersSelects | src/app/dashboard/users/page.tsx:91-118 | the result keeps list order, and a user is listed exactly when it matches the search and the status filter |
| UsersPage.UnfilteredListsEveryone | src/app/dashboard/users/page.tsx:111-114 | an empty search with "all" or an unknown status lists everyone |
| UsersPage.StatusLabel | src/app/dashboard/users/page.tsx:475-479 | "Disabled" exactly for disabled users, "Active" exactly for those the active filter selects, otherwise "Inactive" |
| UsersPage.UserInitials | src/app/dashboard/users/page.tsx:80-88 | "U" for an empty name, otherwise the name's initials |
| UsersPage.CountersPartition | src/app/dashboard/users/page.tsx:219-233 | the Active and Disabled cards count what the matching filters list, and together they never exceed the total |
| UsersPage.UsersPageState.constructor | src/app/dashboard/users/page.tsx:23-24 | holds the users hook and its client |
| UsersPage.UsersPageState.CatchFetchError | src/app/dashboard/users/page.tsx:49-56 | storage follows StorageAfterCatch and /login is visited exactly when the session ends |
| UsersPage.UsersPageState.Mount | src/app/dashboard/users/page.tsx:33-61 | without a session nothing is sent, the hook is untouched and /login is visited; otherwise one GET /users is sent, storage follows the GET rules, there is no redirect, loading has ended, and the page is replaced with no error on success or kept with the failure message as the hook's error |
| AdminPage.AdminFormProblemCases | src/app/dashboard/admin/page.tsx:81-107 | a form is accepted exactly when name, email and password are non-blank and the untrimmed password has at least 6 characters, so "  ab  " passes |
| AdminPage.FilteredAdminsSelects | src/app/dashboard/admin/page.tsx:242-255 | keeps order and lists an admin exactly when search, role and status all match |
| AdminPage.FilteredAdminsExtremes | src/app/dashboard/admin/page.tsx:242-255 | no filters list everyone; an unknown status lists no one; the active and inactive views partition the list |
| AdminPage.FilterBadgeCount | src/app/dashboard/admin/page.tsx:524-527 | counts the active filters: 0 exactly when both are "all", 2 exactly when neither is |
| AdminPage.AdminInitials | src/app/dashboard/admin/page.tsx:161-169 | "A" for an empty name, otherwise the name's initials |
| AdminPage.RoleDisplay | src/app/dashboard/admin/page.tsx:172-183 | known roles get their titles; an unknown role shows itself; the empty role shows "Admin" |
| AdminPage.CountersAddUp | src/app/dashboard/admin/page.tsx:446-488 | the Active and Inactive cards add up to the total, and the super-admin card never exceeds it |
| AdminPage.AdminPageState.constructor | src/app/dashboard/admin/page.tsx:42-48 | the form starts with the default values, closed and not submitting |
| AdminPage.AdminPageState.Mount | src/app/dashboard/admin/page.tsx:50-52 | one GET of /admin; storage as after that request (a 401 drops the token); the list is replaced on success and kept with the hook's error on failure; loading ends false |
| AdminPage.AdminPageState.HandleSubmit | src/app/dashboard/admin/page.tsx:77-132 | an invalid form returns its warning and changes nothing; a valid one is posted: on success the form is reset and closed and exactly the POST and a refetch GET are sent, the list and error settling as that GET does; on failure only the POST is sent, the form and list are kept and the hook holds the create error; submitting and loading end false |
| AdminPage.AdminPageState.ConfirmToggleStatus | src/app/dashboard/admin/page.tsx:217-240 | a PUT to /admin/<id> with the inverted status; on success it is followed by the refetch GET and the list settles as that GET does; on failure nothing else is sent, the list is kept and the hook holds the update error |
| AdminPage.AdminPageState.ConfirmDelete | src/app/dashboard/admin/page.tsx:200-214 | a DELETE of /admin/<id>; on success it is followed by the refetch GET and the list settles as that GET does; on failure nothing else is sent, the list is kept and the hook holds the delete error |
| ReportsPage.RespondedReportsChangesOnlyMatching | src/app/dashboard/reports/page.tsx:186-196 | only reports with the given id change: each becomes the spread of itself with the status, the response, "Current Admin" and the date, every other field (user id and e-mail, priority, created/updated dates, admin id) kept; order and length are kept |
| ReportsPage.FilteredReportsSelects | src/app/dashboard/reports/page.tsx:208-217 | keeps order and lists a report exactly when status, type and search all match |
| ReportsPage.StatsAddUp | src/app/dashboard/reports/page.tsx:220-225 | the pending, in-progress and resolved counts plus the uncounted ones equal the total |
| ReportsPage.StatusText | src/app/dashboard/reports/page.tsx:409 | only the first '_' becomes a space; every other character is kept |
| ReportsPage.StatusTextWithoutUnderscore | src/app/dashboard/reports/page.tsx:409 | a status without '_' is shown unchanged |
| ReportsPage.StatusTextReplacesFirstOnly | src/app/dashboard/reports/page.tsx:409 | "in_progress" reads "in progress", and a second '_' stays |
| ReportsPage.CanSubmitResponseIff | src/app/dashboard/reports/page.tsx:455 | Resolve and Reject are enabled exactly when not responding and the text is not blank |
| ReportsPage.ReportInitials | src/app/dashboard/reports/page.tsx:166-168 | the name's initials, "" for an empty name |
| ReportsPage.ReportsPageState.constructor | src/app/dashboard/reports/page.tsx:42-46 | starts with the given reports, nothing selected, an empty response and not responding |
| ReportsPage.ReportsPageState.SelectReport | src/app/dashboard/reports/page.tsx:411-420 | a pending report becomes the selected one |
| ReportsPage.ReportsPageState.HandleResponse | src/app/dashboard/reports/page.tsx:180-205 | the reports become RespondedReports of the old ones with the typed text; the dialog is closed and emptied |
| ProfilePage.FormOf | src/app/dashboard/profile/page.tsx:38-45 | the edit form takes the profile's name and email |
| ProfilePage.RoleLabel | src/app/dashboard/profile/page.tsx:178-182 | known roles get their titles, other roles show themselves, no profile shows "Admin"; the label is empty exactly for an empty role |
| ProfilePage.ProfileInitials | src/app/dashboard/profile/page.tsx:88-98 | the profile name's initials, or "AD" |
| ProfilePage.FormatDate | src/app/dashboard/profile/page.tsx:101-102 | a missing or empty timestamp reads "Not available"; any other is formatted |
| ProfilePage.ProfilePageState.constructor | src/app/dashboard/profile/page.tsx:26-31 | not editing, not saving, an empty form |
| ProfilePage.ProfilePageState.OnProfileLoaded | src/app/dashboard/profile/page.tsx:38-45 | a loaded profile fills the form; without one the form is kept |
| ProfilePage.ProfilePageState.Mount | src/app/dashboard/profile/page.tsx:33-45 | one GET of /admin/profile; storage as after that request; on success the hook's profile and the form take the answer, on failure both are kept and the hook holds the fetch error; loading ends false |
| ProfilePage.ProfilePageState.EditName | src/app/dashboard/profile/page.tsx:47-52 | changes only the name field |
| ProfilePage.ProfilePageState.EditEmail | src/app/dashboard/profile/page.tsx:47-52 | changes only the email field |
| ProfilePage.ProfilePageState.HandleCancel | src/app/dashboard/profile/page.tsx:76-85 | restores the form from the profile and leaves edit mode |
| ProfilePage.ProfilePageState.HandleSave | src/app/dashboard/profile/page.tsx:54-74 | sends only a profile GET (the edits are never submitted); storage as after that request; on success the hook's profile and the form take the answer, on failure both are kept and the hook holds the fetch error; edit mode and saving end |
| SessionFacts.LogoutUndoesLogin | src/lib/hooks/useLogout.ts:61-69 | logging out after a login leaves storage as logging out before it would |
| SessionFacts.LoginOpensLogoutCloses | src/lib/hooks/useLogin.ts:120-139 | a login with a token and user opens a session; after logout there is no session, no bearer header and no remembered email |
| SessionFacts.MalformedUserHandlingDiffers | src/app/dashboard/page.tsx:54-71 | on a malformed stored user the dashboard keeps the session while the Sidebar removes it |
| SessionFacts.UnauthorizedLoadKeepsUser | src/lib/api.ts:35-38 | a 401 while loading data drops only authToken and keeps the user entry; the page's catch sees nothing, and the next guard finds no session |
| SessionFacts.EmptyRoleLabels | src/app/dashboard/admin/page.tsx:172-183 | an empty role reads "Admin" on the admin page, "" on the profile page and "Administrator" in the Sidebar |
| SessionFacts.EmptyNameInitials | src/app/dashboard/users/page.tsx:80-88 | the fallbacks for an empty name differ by page: "U", "A", "", "AD" and "AD" |

## Left out

- Rendering, React effects and re-renders are left out. Each effect or handler is a method called once, at the moment it would run.
- The four loads in the dashboard's `Promise.all` are modelled as four sequential fetches. In the browser all four requests are issued before any answer arrives. So a 401 on an earlier request, which removes the token, does not change the headers of the later ones, as it does in the model.
- `fetch`, `response.json()`, `JSON.parse` and `JSON.stringify` are parameters. A 2xx response whose body is not JSON is not modelled.
- Dates, the clock and locale formatting: the current time and the date formatter are parameters.
- The 1-second and 1.5-second delays before a report response and a profile save are left out.
- The dashboard's growth rate and other floating-point display values are left out.
- DashboardPage.PercentageIsRounded: the percentage is modelled on exact rationals, not IEEE-754 doubles.
- Case folding and whitespace are ASCII only. JavaScript's `toLowerCase`, `toUpperCase` and `trim` cover all of Unicode.
- ApiErrorHandler.ValidatePassword: strings are sequences of Unicode characters, so the 6-character minimum counts characters, while JavaScript's `.length` counts UTF-16 code units; a password with characters outside the Basic Multilingual Plane (an emoji, say) can be shorter here than in the browser.
- AdminPage.AdminFormProblemCases: the same holds for the admin form's `formData.password.length < 6`: the model counts characters, not UTF-16 code units.
- Text.Initials: `charAt(0)` takes the first UTF-16 code unit, which for a word starting with a character outside the Basic Multilingual Plane is half a surrogate pair; the model takes the whole first character.
- The `useToast` hook and every toast are left out. The admin page's `handleSubmit` returns the warning it would show instead.
- `NotificationService` and `withErrorHandling` in `src/lib/utils/errorHandling.ts` are left out. They only log and rethrow.
- `console` logging is left out.
- The mock report data on the reports page is left out. The page starts from the given list.
- The admin page's `sessionStorage` welcome toast (src/app/dashboard/admin/page.tsx:54-66) is left out, like every other toast.
- Each data hook's private `useErrorHandling` state is left out, because no caller can see it. `useLogin` and `useLogout` do share theirs, and it is modelled.
- A stored user that is the JSON `null` is not distinguished from a missing one.
- Markup-only files are not part of this model: `Header.tsx`, the login, help and not-found pages, `States.tsx`, `StatsCard.tsx`, styles, constants and the index files that only re-export.
- `window.location.href = '/login'` on the users page is modelled as a navigation push, like `router.push`.
