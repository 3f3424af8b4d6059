# Court-App core, modelled in Dafny

Court-App is a React Native case-management app for a court. Its staff sign in, browse cases, upload documents, and (as admins) manage users. The back end is a hosted Postgres/auth/storage service. This project models the deterministic logic around those remote calls:

- The role hierarchy and the permission predicates built on it.
- The authenticated-session state machine of the auth slice.
- The per-user biometric flag in secure storage, and the toggle protocol on the settings screen.
- The list reducers of the cases, documents and users slices.
- The theme slice.
- The content-type, extension, storage-path and byte-copy helpers of the document service.
- The password generator, and the row the user service inserts.
- The user search filter and the create/edit user screens.
- Root-screen and tab selection in the navigator.
- The validation ladder of the welcome-email edge function.
- The logger's formatting and routing.

How the source maps onto Dafny:

- Each Redux slice is a class. Its fields are the slice state, and each reducer case is a method that assigns them.
- Secure storage is a class holding a `map<string, string>`.
- Every remote or device call is an input to the model: a `Response(data, error)`, a device description, a random-pick oracle, or a clock reading. The model never performs such a call.

Modules follow the source files:

- `Constants`, `Permissions`
- `AuthService`, `SecureStorage`, `AuthSlice`, `SettingsScreen`
- `CasesSlice`, `DocumentsSlice`, `UsersSlice`, `ThemeSlice`
- `DocumentService`, `UserService`
- `UsersListScreen`, `CreateUserScreen`, `EditUserScreen`
- `AppNavigator`, `WelcomeEmail`, `Logger`

Shared helpers live in `Wrappers`, `Strings`, `Types` and `ListOps`.

The model follows the code as written, including these behaviours:

- **Disabling biometrics stores `"true"`.** The disable branch of the settings toggle calls `enableBiometric`, so it stores `"true"` (see Findings).
- **Sign-out leaves the per-user flags in place.** It deletes only the un-namespaced key `biometric_enabled`; every `biometric_enabled_<id>` flag survives sign-out.
- **A failed session check keeps a stale user.** A rejected `checkSession` leaves `user` in place while clearing `isAuthenticated`. `App.tsx` (lines 16-18) dispatches `checkSession` only once, when the app mounts, before anyone can sign in; so in the app as wired the stale state needs a later remount, and with it a second session check, after a sign-in. A following successful sign-in repairs it.
- **Sign-in can return neither user nor error.** `signIn` returns `(null, null)` when the profile lookup answers with neither a row nor an error. The slice then ends unauthenticated and with no error message.

## Model

| member | source | states |
|---|---|---|
| Constants.Rank | src/constants/index.ts:23-27 | every role has a rank between 1 and 3; rank 1 is exactly staff and rank 3 exactly super_admin |
| Constants.RanksStrictlyIncreasing | src/constants/index.ts:23-27 | staff < admin < super_admin, and distinct roles have distinct ranks |
| Constants.StorageKeysDistinct | src/constants/index.ts:2-6 | the three storage keys are pairwise distinct |
| Constants.MaxFileSizeIsTenMebibytes | src/constants/index.ts:9 | the upload limit is 10485760 bytes |
| Constants.AllowedFileTypesDistinct | src/constants/index.ts:10-17 | exactly six allowed MIME types, all distinct |
| Permissions.HasPermission | src/utils/permissions.ts:4-7 | no role never passes; super_admin always passes; admin passes for all but super_admin; staff passes only for staff |
| Permissions.HasPermissionPreorder | src/utils/permissions.ts:4-7 | the permission relation on roles is reflexive, transitive and antisymmetric |
| Permissions.CanCreateUsers | src/utils/permissions.ts:9-11 | agrees with `hasPermission(role, 'admin')` on every input, including no role |
| Permissions.CanCreateAdmins | src/utils/permissions.ts:13-15 | agrees with `hasPermission(role, 'super_admin')` and implies `canCreateUsers` |
| Permissions.CanDeleteDocuments | src/utils/permissions.ts:17-19 | agrees with `canCreateUsers` on every input |
| Permissions.CanManageCases | src/utils/permissions.ts:21-23 | agrees with `canCreateUsers` on every input |
| AuthService.IsBiometricAvailable | src/lib/services/authService.ts:9-13 | available iff the device has the hardware and a biometric is enrolled |
| AuthService.AuthenticateWithBiometric | src/lib/services/authService.ts:16-28 | the prompt's success value, and false when the prompt throws |
| AuthService.RequiresBiometric | src/lib/services/authService.ts:93-95 | true iff the role is admin or super_admin |
| AuthService.SignIn | src/lib/services/authService.ts:31-53 | an error always comes without a user; no error iff the credentials and the profile lookup both succeed, and then the user is the looked-up row |
| AuthService.GetCurrentUser | src/lib/services/authService.ts:67-79 | a user iff there is a session and the lookup returns a row without error |
| AuthService.BiometricKey | src/lib/services/authService.ts:83 | the key is `biometric_enabled`, then `_` at that position, then exactly the user id |
| AuthService.BiometricKeyInjective | src/lib/services/authService.ts:83 | different users never share a flag key |
| AuthService.BiometricKeyIsNamespaced | src/lib/services/authService.ts:56-59 | no user's flag key equals the key sign-out deletes |
| AuthService.IsBiometricEnabled | src/lib/services/authService.ts:82-85 | true iff the user's key is stored with exactly the value `"true"` |
| AuthService.EnableBiometric | src/lib/services/authService.ts:88-90 | the store gains the user's key set to `"true"` and nothing else changes; the flag then reads as on |
| AuthService.EnableBiometricFlags | src/lib/services/authService.ts:88-90 | enabling one user turns their flag on and leaves every other user's flag as it was |
| AuthService.SignOut | src/lib/services/authService.ts:56-59 | removes exactly `biometric_enabled`; every user's flag is unchanged |
| SecureStorage.SecureStore.GetItem | src/lib/services/authService.ts:83 | the stored value for the key, or none |
| SecureStorage.SecureStore.SetItem | src/lib/services/authService.ts:89 | the key maps to the value; all other keys unchanged |
| SecureStorage.SecureStore.DeleteItem | src/lib/services/authService.ts:58 | the key is gone; all other keys unchanged |
| AuthSlice.AuthState.constructor | src/store/slices/authSlice.ts:14-21 | no user or session, not authenticated, loading, biometrics off, no error |
| AuthSlice.AuthState.SetUser | src/store/slices/authSlice.ts:56-59 | sets the user and authentication together, keeping the invariant |
| AuthSlice.AuthState.SetBiometricEnabled | src/store/slices/authSlice.ts:60-62 | sets only the biometric flag |
| AuthSlice.AuthState.ClearError | src/store/slices/authSlice.ts:63-65 | clears only the error |
| AuthSlice.AuthState.CheckSessionPending | src/store/slices/authSlice.ts:69-71 | sets only isLoading |
| AuthSlice.AuthState.CheckSessionFulfilled | src/store/slices/authSlice.ts:72-78 | user, session and flag from the payload; authenticated iff a user; loading cleared |
| AuthSlice.AuthState.CheckSessionRejected | src/store/slices/authSlice.ts:79-82 | clears loading and authentication and keeps the user, so the invariant holds afterwards iff there was no user |
| AuthSlice.AuthState.SignInPending | src/store/slices/authSlice.ts:83-86 | sets loading, clears the error, nothing else |
| AuthSlice.AuthState.SignInFulfilled | src/store/slices/authSlice.ts:87-92 | user and flag from the payload; authenticated iff a user |
| AuthSlice.AuthState.SignInRejected | src/store/slices/authSlice.ts:93-96 | clears loading; the error is the message or `Sign in failed`; user and authentication unchanged |
| AuthSlice.AuthState.SignOutFulfilled | src/store/slices/authSlice.ts:97-102 | clears user, session, authentication and flag |
| AuthSlice.CheckSession | src/store/slices/authSlice.ts:24-34 | no session gives an empty payload; otherwise the current user, and the flag is on iff a user has it stored |
| AuthSlice.SignIn | src/store/slices/authSlice.ts:36-46 | rejects with the service's error message; with a user, a throwing flag read rejects with that error's message; otherwise fulfils with the service's user, the flag on iff there is a user whose stored flag is `"true"` |
| AuthSlice.DispatchCheckSession | src/store/slices/authSlice.ts:24-34 | the full check: loading ends and the error is kept; a fulfilled check keeps the invariant and reads the flag from the store; a thrown one keeps the old user, session and flag and clears authentication |
| AuthSlice.DispatchSignIn | src/store/slices/authSlice.ts:36-46 | loading ends, the session is untouched; keeps the invariant when it held; a successful sign-in establishes it from any state and sets the flag iff the user's stored flag is `"true"`; a rejected one leaves user, authentication and flag and stores the thrown message (the service's or the flag read's) or `Sign in failed`; becoming authenticated needs good credentials and a profile row |
| AuthSlice.DispatchSignOut | src/store/slices/authSlice.ts:48-50 | signs out and deletes only `biometric_enabled` from the store; a throw changes neither slice nor store; loading and error are kept |
| AuthSlice.RejectedCheckKeepsStaleUser | src/store/slices/authSlice.ts:79-82 | a reachable state with a user but not authenticated |
| AuthSlice.SignInRepairsStaleUser | src/store/slices/authSlice.ts:87-92 | from that stale state, a successful sign-in restores the invariant |
| SettingsScreen.ShowBiometricSwitch | src/components/SettingsScreen.tsx:56 | shown iff a user is present and `requiresBiometric(role)` |
| SettingsScreen.HandleToggleBiometric | src/components/SettingsScreen.tsx:17-34 | user, session, authentication, loading and error never change; no user: nothing happens; unavailable device or failed challenge: store and flag unchanged; success: writes `"true"` and sets the flag; disabling skips both checks, writes `"true"` and clears the flag; a throwing write changes neither store nor flag; each outcome with its sequence of external calls |
| SettingsScreen.DisableThenRestore | src/components/SettingsScreen.tsx:30-32 | after disabling, the next session check turns biometrics back on |
| SettingsScreen.HandleToggleBiometricIntended | src/components/SettingsScreen.tsx:17-34 | the same frames, outcomes and call sequences, except that disabling stores `"false"`; after enabling or disabling, the in-memory flag matches the stored one |
| SettingsScreen.DisableThenRestoreIntended | src/components/SettingsScreen.tsx:30-32 | with the corrected handler, disabling survives the next session check |
| ListOps.Filter | src/screens/users/UsersListScreen.tsx:28 | keeps exactly the elements satisfying the predicate, with their multiplicities, in their original order |
| ListOps.IndexOfId | src/store/slices/casesSlice.ts:100 | the first index with the id, or -1 iff there is none |
| ListOps.ReplaceFirstById | src/store/slices/casesSlice.ts:99-103 | same length; only the first element with the id is replaced; no match changes nothing |
| ListOps.RemoveById | src/store/slices/casesSlice.ts:107 | removes every element with the id, keeps the rest in order; no match changes nothing |
| Types.FetchList | src/store/slices/casesSlice.ts:17-21 | rejects with the error's message iff there is an error; otherwise fulfils with the data, or `[]` when it is missing |
| Types.FetchOne | src/store/slices/casesSlice.ts:32-39 | rejects with the error's message iff there is an error; otherwise fulfils with the data as returned |
| Types.MessageOr | src/store/slices/casesSlice.ts:91 | the message when non-empty, else the fallback |
| CasesSlice.CasesState.constructor | src/store/slices/casesSlice.ts:11-15 | empty list, not loading, no error |
| CasesSlice.CasesState.ClearError | src/store/slices/casesSlice.ts:75-77 | clears only the error |
| CasesSlice.CasesState.FetchCasesPending | src/store/slices/casesSlice.ts:81-84 | loading, no error, cases unchanged |
| CasesSlice.CasesState.FetchCasesFulfilled | src/store/slices/casesSlice.ts:85-88 | cases replaced by the payload, loading cleared |
| CasesSlice.CasesState.FetchCasesRejected | src/store/slices/casesSlice.ts:89-92 | loading cleared; the error is the message or `Failed to fetch cases`; cases unchanged |
| CasesSlice.CasesState.CreateCaseFulfilled | src/store/slices/casesSlice.ts:93-97 | a payload is prepended (old list is the tail); none changes nothing |
| CasesSlice.CasesState.UpdateCaseFulfilled | src/store/slices/casesSlice.ts:98-105 | replaces the first case with the payload's id, in place |
| CasesSlice.CasesState.DeleteCaseFulfilled | src/store/slices/casesSlice.ts:106-108 | removes every case with the id, order kept |
| CasesSlice.CasesState.Dispatch | src/store/slices/casesSlice.ts:80-109 | each action's effect; writes keep loading and error, and a null payload keeps the list; a fetch rejection stores the message or `Failed to fetch cases`, a fetch success keeps the error; search, assign and unassign completions and rejected writes leave the state unchanged |
| CasesSlice.DeleteCase | src/store/slices/casesSlice.ts:41-45 | fulfils with the id iff there is no error |
| DocumentsSlice.DocumentsState.constructor | src/store/slices/documentsSlice.ts:11-15 | empty list, not loading, no error |
| DocumentsSlice.DocumentsState.ClearError | src/store/slices/documentsSlice.ts:60-62 | clears only the error |
| DocumentsSlice.DocumentsState.ClearDocuments | src/store/slices/documentsSlice.ts:63-65 | empties the list; loading and error unchanged |
| DocumentsSlice.DocumentsState.FetchPending | src/store/slices/documentsSlice.ts:69-72 | loading, no error, documents unchanged |
| DocumentsSlice.DocumentsState.FetchFulfilled | src/store/slices/documentsSlice.ts:73-76 | documents replaced by the payload, loading cleared |
| DocumentsSlice.DocumentsState.FetchRejected | src/store/slices/documentsSlice.ts:77-80 | loading cleared; the error is the message or `Failed to fetch documents`; documents unchanged |
| DocumentsSlice.DocumentsState.UploadDocumentFulfilled | src/store/slices/documentsSlice.ts:93-97 | a payload is prepended; none changes nothing |
| DocumentsSlice.DocumentsState.UpdateDocumentFulfilled | src/store/slices/documentsSlice.ts:98-105 | replaces the first document with the payload's id |
| DocumentsSlice.DocumentsState.DeleteDocumentFulfilled | src/store/slices/documentsSlice.ts:106-108 | removes every document with the id, order kept |
| DocumentsSlice.DocumentsState.Dispatch | src/store/slices/documentsSlice.ts:68-108 | both fetch thunks have identical pending, fulfilled and rejected effects; writes keep loading and error, and a null payload keeps the list; rejected writes change nothing |
| UsersSlice.UsersState.constructor | src/store/slices/usersSlice.ts:11-15 | empty list, not loading, no error |
| UsersSlice.UsersState.ClearError | src/store/slices/usersSlice.ts:51-53 | clears only the error |
| UsersSlice.UsersState.FetchUsersPending | src/store/slices/usersSlice.ts:57-60 | loading, no error, users unchanged |
| UsersSlice.UsersState.FetchUsersFulfilled | src/store/slices/usersSlice.ts:61-64 | users replaced by the payload, loading cleared |
| UsersSlice.UsersState.FetchUsersRejected | src/store/slices/usersSlice.ts:65-68 | the error is the message or `Failed to fetch users`; users unchanged |
| UsersSlice.UsersState.CreateUserFulfilled | src/store/slices/usersSlice.ts:69-73 | a payload is prepended; loading and error unchanged |
| UsersSlice.UsersState.UpdateUserFulfilled | src/store/slices/usersSlice.ts:74-81 | replaces the first user with the payload's id; loading and error unchanged |
| UsersSlice.UsersState.DeleteUserFulfilled | src/store/slices/usersSlice.ts:82-84 | removes every user with the id, order kept; loading and error unchanged |
| ThemeSlice.Toggled | src/store/slices/themeSlice.ts:23 | the toggled mode always differs from the old one |
| ThemeSlice.ToggleTwice | src/store/slices/themeSlice.ts:22-25 | toggling twice restores the mode |
| ThemeSlice.ThemeState.constructor | src/store/slices/themeSlice.ts:10-12 | the initial mode is light |
| ThemeSlice.ThemeState.SetTheme | src/store/slices/themeSlice.ts:18-21 | sets the mode and persists it under `theme_mode` |
| ThemeSlice.ThemeState.ToggleTheme | src/store/slices/themeSlice.ts:22-25 | flips the mode and persists the new one under `theme_mode` |
| ThemeSlice.SetThemeTwice | src/store/slices/themeSlice.ts:18-21 | setting the same mode twice equals setting it once, in state and in the store |
| DocumentService.LastSegment | src/lib/services/documentService.ts:73 | the longest suffix without the separator |
| DocumentService.FileExtension | src/lib/services/documentService.ts:73 | the lower-cased text after the last dot |
| DocumentService.FileExtensionEdgeCases | src/lib/services/documentService.ts:73 | no dot gives the whole lower-cased name; a trailing dot gives the empty extension |
| DocumentService.GetContentType | src/lib/services/documentService.ts:187-198 | a known extension gives an allowed MIME type; anything else gives `application/octet-stream` |
| DocumentService.ContentTypesCoverAllowedTypes | src/lib/services/documentService.ts:188-196 | every allowed type is produced by some extension |
| DocumentService.UpperCaseExtension | src/lib/services/documentService.ts:73-74 | `A.PDF` is typed `application/pdf` |
| DocumentService.StoragePath | src/lib/services/documentService.ts:77 | the path starts with the case id and `/`, and ends with `_` and the filename |
| DocumentService.StoragePathTimestamp | src/lib/services/documentService.ts:77 | between those parts sits a run of decimal digits that reads back as the timestamp |
| DocumentService.Base64ToArrayBuffer | src/lib/services/documentService.ts:201-208 | one byte per character; byte i is character i's code, truncated to 8 bits |
| UserService.CharsetSize | src/lib/services/userService.ts:101 | the charset has 70 characters |
| UserService.GeneratePassword | src/lib/services/userService.ts:100-107 | the length is the requested length (none below one); character i is the charset character at the i-th random pick |
| UserService.NewUserRow | src/lib/services/userService.ts:46-53 | the inserted row is active, has biometrics off, and carries the given id, email, role and creator |
| UsersListScreen.FilteredUsers | src/screens/users/UsersListScreen.tsx:28-32 | a user is kept iff the lower-cased query occurs in its lower-cased email or role; the result is an order-preserving subsequence |
| UsersListScreen.EmptyQueryKeepsAll | src/screens/users/UsersListScreen.tsx:28-32 | the empty query keeps the whole list |
| UsersListScreen.RoleNamesAreLowerCase | src/screens/users/UsersListScreen.tsx:31 | lower-casing a role name leaves it unchanged |
| UsersListScreen.AdminQueryMatchesAdmins | src/screens/users/UsersListScreen.tsx:30-31 | the query `ADMIN` matches every admin and super_admin |
| UsersListScreen.CanCreate | src/screens/users/UsersListScreen.tsx:34 | the create button is offered iff a user is present and is not staff |
| CreateUserScreen.CanCreateAdmin | src/screens/users/CreateUserScreen.tsx:24 | true iff the current user is a super_admin |
| CreateUserScreen.RoleOptions | src/screens/users/CreateUserScreen.tsx:74-77 | staff first and always; admin iff allowed; never super_admin; no duplicates |
| CreateUserScreen.OfferedRolesArePermitted | src/screens/users/CreateUserScreen.tsx:74-77 | every offered role is one the signed-in user's rank covers |
| CreateUserScreen.InitialForm | src/screens/users/CreateUserScreen.tsx:15-17 | the form starts empty with role staff |
| CreateUserScreen.HandleCreate | src/screens/users/CreateUserScreen.tsx:26-51 | no email or no user: nothing is called; an empty password falls back to a 12-character generated one; an auth failure stops before the record; the record gets the auth id and the creator's id |
| EditUserScreen.CanCreateAdmin | src/screens/users/EditUserScreen.tsx:30 | agrees with `canCreateAdmins` and with the create screen |
| EditUserScreen.RoleOptions | src/screens/users/EditUserScreen.tsx:127-130 | the same options as the create screen: admin iff super_admin, never super_admin |
| EditUserScreen.StatusOptions | src/screens/users/EditUserScreen.tsx:142-146 | three distinct statuses, in the order active, suspended, deactivated |
| EditUserScreen.StatusOptionsCoverAll | src/screens/users/EditUserScreen.tsx:142-146 | every status is offered |
| EditUserScreen.EditUserForm.constructor | src/screens/users/EditUserScreen.tsx:20-24 | empty email, staff, active, loading, not saving |
| EditUserScreen.EditUserForm.LoadUser | src/screens/users/EditUserScreen.tsx:36-62 | a failed or empty lookup navigates back without touching the fields; a thrown lookup neither navigates nor sets fields; loading always ends |
| EditUserScreen.EditUserForm.HandleSave | src/screens/users/EditUserScreen.tsx:64-87 | nothing without a user id; otherwise the update carries exactly role and status, and saving ends false |
| AppNavigator.RootScreenFor | src/navigation/AppNavigator.tsx:111-159 | nothing while loading; otherwise Login iff not authenticated and Main iff authenticated |
| AppNavigator.RootScreenOf | src/navigation/AppNavigator.tsx:112 | nothing exactly while loading; Main exactly when authenticated and not loading, Login otherwise; under the auth invariant, Main exactly when a user is signed in |
| AppNavigator.StaleUserSeesLogin | src/navigation/AppNavigator.tsx:152-153 | after a sign-in and a rejected session check, Login is shown although the slice still holds a user; as wired, `App.tsx` runs that check only at mount, so this needs a remount after the sign-in |
| AppNavigator.MainTabs | src/navigation/AppNavigator.tsx:70-109 | Cases first, Settings last, Users in between iff `canCreateUsers`; no duplicates |
| AppNavigator.UsersTabMatchesCreateGate | src/navigation/AppNavigator.tsx:73 | the Users tab appears for exactly those who see the users list's create button |
| WelcomeEmail.FromAddress | supabase/functions/send-welcome-email/index.ts:42 | the configured sender, or `onboarding@resend.dev` when unset or empty |
| WelcomeEmail.RoleLabel | supabase/functions/send-welcome-email/index.ts:62 | only the first underscore becomes a space |
| WelcomeEmail.RoleLabelOfSplit | supabase/functions/send-welcome-email/index.ts:62 | for any role `head_tail` with no underscore in head, the label is `head tail`, later underscores kept |
| WelcomeEmail.SuperAdminLabel | supabase/functions/send-welcome-email/index.ts:62 | `super_admin` is labelled `super admin` |
| WelcomeEmail.OnlyFirstUnderscoreReplaced | supabase/functions/send-welcome-email/index.ts:62 | `a_b_c` is labelled `a b_c` |
| WelcomeEmail.Handle | supabase/functions/send-welcome-email/index.ts:4-118 | 405 iff not POST; 400 for a non-JSON type or missing fields; 200 iff every check passes and the provider delivers; 502 iff the provider refuses; the provider is called iff every check passes |
| WelcomeEmail.MissingContentTypeRefused | supabase/functions/send-welcome-email/index.ts:12-18 | a POST without a content-type header gets 400 |
| WelcomeEmail.FirstFailureDecides | supabase/functions/send-welcome-email/index.ts:5-36 | the checks run in order method, content type, body, fields, API key, and the first failure decides the status: 405, 400, 500, 400, then 500 with nothing sent for a missing API key |
| Logger.CreateEntry | src/utils/logger.ts:31-44 | level, source, message and data are copied unchanged; the timestamp is the given clock reading |
| Logger.ConsoleFor | src/utils/logger.ts:16-28 | error, warn and debug get their own console method; info goes to `console.log` |
| Logger.LevelTag | src/utils/logger.ts:14 | the level name upper-cased letter by letter: `INFO`, `WARN`, `ERROR`, `DEBUG` |
| Logger.LevelTagsDistinct | src/utils/logger.ts:14 | different levels give different tags |
| Logger.FormatLine | src/utils/logger.ts:14 | the line is `[`, timestamp, `] [`, level tag, `] [`, source, `] `, message, each at its position |
| Logger.LogToConsole | src/utils/logger.ts:12-29 | the level's console method, the formatted line, and the data or the empty string |
| Logger.LevelForStatus | src/utils/logger.ts:92 | error iff status >= 400, warn iff 300 <= status < 400, info iff status < 300 |
| Logger.LevelForStatusMonotone | src/utils/logger.ts:92 | a larger status never gets a lower level |
| Logger.RequestMessage | src/utils/logger.ts:77 | `HTTP `, the upper-cased method, a space and the URL, each at its position |
| Logger.ResponseMessage | src/utils/logger.ts:93 | the request message followed by ` - ` and the status digits |
| Logger.LogRequest | src/utils/logger.ts:71-82 | logged at debug level with the request message |
| Logger.LogResponse | src/utils/logger.ts:85-94 | the console method follows the status class |

## Left out

- Remote calls are not modelled. Every call to the hosted database, auth, storage and edge-function client is an input, and the model never calls anything itself. This covers caseService, documentService, userService, emailService and authService. It includes the remote half of `signOut` and the profile inserts.
- Device and browser APIs are not modelled. Local authentication, secure storage, the file system, `atob`, `Date.now` and `Math.random` become parameters: a device description, a map, a decoded string, a clock reading and a pick oracle.
- Async timing is not modelled. Each reducer case is one atomic transition, so the interleaving of concurrent thunks is not captured.
- Rendering is not modelled: styles, themes, alerts, the loading skeleton, typography, and the empty and error states.
- The case, document, login and upload screens are not part of this model. Their gates reuse `canManageCases` and `canDeleteDocuments`.
- `App.tsx`, `src/store/index.ts` and `src/lib/supabase.ts` are not part of this model. They only wire the store and the client.
- Strings.ToLower: maps ASCII letters only. JavaScript's Unicode case mapping of other letters is not modelled.
- Strings.ToUpper: maps ASCII letters only, like `ToLower`. The level names are ASCII, so `Logger.LevelTag` is exact; `Logger.RequestMessage` differs from JavaScript for a method name with non-ASCII letters.
- AuthSlice.CheckSession: `getSession` is called twice, once by the thunk and once inside `getCurrentUser`. The model assumes both calls give the same answer.
- AuthSlice.DispatchCheckSession: a thrown remote call is one boolean input. The model does not say which call threw.
- AuthSlice.DispatchSignOut: a throw from the remote sign-out or from the key deletion is one boolean input; either leaves the store as it was.
- SettingsScreen.HandleToggleBiometric: a throwing availability query (`hasHardwareAsync`, `isEnrolledAsync`) is not modelled; it would end the handler with nothing changed. The challenge cannot throw, because `authenticateWithBiometric` catches.
- DocumentService.GetContentType: the model uses a Dafny map. An extension that names an `Object.prototype` member, such as `constructor`, would make the source return a function instead of a MIME type; that case is not modelled.
- DocumentService.Base64ToArrayBuffer: the input is the string `atob` returns. Base64 decoding itself is not modelled.
- UserService.GeneratePassword: the length is an integer. A fractional length, where the JavaScript loop runs `ceil(length)` times, is not modelled.
- UserService.NewUserRow: this is the row sent to the insert. The row returned by the database is an input.
- CreateUserScreen.HandleCreate: the form's role is taken as given, because the picker restricts it. The `createUser` dispatch and its reducer are modelled in `UsersSlice`. The screen awaits that dispatch but never checks whether it was fulfilled, so the password is shown and the screen closes either way; the model's outcome does not depend on it.
- EditUserScreen.EditUserForm.HandleSave: the `updateUser` and `fetchUsers` dispatches are modelled in `UsersSlice`.
- WelcomeEmail.Handle: body fields are strings or absent. A non-string field is not modelled: it makes `role.replace` throw (500) or is passed through.
- WelcomeEmail.Handle: the HTML body of the mail and the provider's JSON reply are not modelled.
- Logger.LogResponse: for error-level responses, `Logger.error` wraps the attachment into an `{error, stack, ...}` object. The model passes the attachment through unchanged.
- Logger.LogToConsole: the attachment is opaque text, so `data || ''` maps an absent attachment to `''`. Other falsy values are not distinguished.
- No permission or auth transition checks a user's status (suspended or deactivated), because no such check exists in the code.

## Findings

| source | as written | input that shows it | evidently intended | confidence | as-written member | corrected member |
|---|---|---|---|---|---|---|
| src/components/SettingsScreen.tsx:30-32 | the disable branch calls `enableBiometric`, which stores `"true"` for the user, while the in-memory flag is set to false | a signed-in admin with biometrics on presses the switch, then the app restarts and `checkSession` reads the stored flag | disabling stores a value other than `"true"` (or deletes the key), so the flag stays off after the next session check | high; not executed | SettingsScreen.DisableThenRestore | SettingsScreen.DisableThenRestoreIntended |
