# Strive website: role-based access control, authentication and setup scripts

A Dafny model of the authorisation core of the Strive website, a React client
talking to an Express server backed by Supabase. The model covers:

- the server's role hierarchy (`master_admin` > `admin` > `employee` > `client`);
- the static permission matrix and the checks built on it: `hasPermission`,
  `hasRoleLevel`, `canAccessResource`, `canManageUser`, `getAllowedActions`;
- the Express middleware `requireRole`, `requirePermission` and
  `requireOwnershipOrAdmin`;
- the per-user grant table (`grantPermission`, `revokePermission`,
  `revokeAllPermissions`, `hasSpecificPermission`, `getUserPermissions`),
  as a class whose methods update its rows;
- the Supabase-backed routes: bearer-token extraction, `requireAuth`, the
  admin gate, sign-up, login, the contact and newsletter handlers, and the
  role-based project filter;
- the browser side: the auth provider as a class (`AuthStore`) holding the
  auth state, `ProtectedRoute`, the browser's own role hierarchy and access
  matrix, the navigation's role-dependent links, the dashboard redirects,
  the user-management page's filters, badges and counters, the sign-up
  form's validation and name split, and the deprecated legacy auth facade;
- the server-side admin helpers (`createUser`, `getUserById`,
  `updateUserRole`, `deleteUser`, `masterAdminExists`, `migrateUser`) over
  an in-memory store of auth users and profile rows;
- the three setup scripts: `init-master-admin`, `check-env` and
  `migrate-to-supabase`.

Every call into Supabase, the database or the network is a parameter that
says how the call turned out (an error or none, the row returned, whether
the service was reachable). Roles, permission keys and resource types are
strings, so unknown roles can be represented. JavaScript's truthiness of
optional strings is `Js.Truthy`.

Modules follow the source files:

| module | file | models |
|---|---|---|
| `Js` | js.dfy | JavaScript string and array semantics the code relies on |
| `Schema` | schema.dfy | the profile row and the role names of `types/supabase.ts` |
| `Permissions` | permissions.dfy | `server/utils/permissions.ts` |
| `AdminStore` | admin_store.dfy | `server/utils/supabase-admin.ts` |
| `SupabaseAuth` | supabase_auth.dfy | `client/src/lib/supabase-auth.tsx` and the routes of `client/src/App.tsx` |
| `Routes` | routes.dfy | `server/routes-supabase.ts` |
| `UserManagement` | user_management.dfy | `client/src/pages/dashboard/admin/users.tsx` |
| `Navigation` | navigation.dfy | `client/src/components/layout/navigation.tsx` |
| `Dashboard` | dashboard.dfy | `client/src/pages/dashboard/index.tsx` and `client/src/pages/auth/login.tsx` |
| `Signup` | signup.dfy | `client/src/pages/auth/signup.tsx` |
| `LegacyAuth` | legacy_auth.dfy | `client/src/lib/auth-old.tsx` |
| `Env` | env.dfy | the scripts' reading of `process.env` |
| `MasterAdminInit` | master_admin_init.dfy | `scripts/init-master-admin.ts` |
| `EnvCheck` | env_check.dfy | `scripts/check-env.ts` |
| `Migration` | migration.dfy | `scripts/migrate-to-supabase.ts` |

## Model

| member | source | states |
|---|---|---|
| Js.Take | scripts/check-env.ts:31 | `substring(0, n)` yields min(n, length) characters, a prefix of the value, and the whole value when it is short enough |
| Js.Split | client/src/pages/auth/signup.tsx:71 | `split` on one character always yields at least one part, and yields the whole string when the separator does not occur |
| Js.JoinSplit | client/src/pages/auth/signup.tsx:72 | joining the parts of a split with the same separator gives back the original string |
| Js.Filter | client/src/pages/dashboard/admin/users.tsx:136-158 | `filter` keeps exactly the elements that pass, in their original order, and returns everything when all pass |
| Js.FilterTwice | client/src/pages/dashboard/admin/users.tsx:131-163 | two filters in a row are one filter by the conjunction of their predicates |
| Js.NatToString | scripts/check-env.ts:59 | a number is printed as a non-empty string of decimal digits, one digit exactly when it is below ten |
| Js.DecimalRoundTrip | scripts/check-env.ts:59 | reading back the printed decimal digits of a number gives the number |
| Js.NatToStringInjective | scripts/check-env.ts:59 | different numbers print differently |
| Schema.RoleLabel | client/src/components/layout/navigation.tsx:57-69 | each known role has its own label; an unknown role shows as Client, and among the others only the client does |
| Schema.SingleRow | scripts/init-master-admin.ts:77-85 | `.single()` yields a row exactly when one row matches, and then it is every matching row |
| Permissions.GetRoleLevel | server/utils/permissions.ts:10-15 | unknown roles have level 0; a known role's level is one more than its index in the hierarchy, so it identifies the role |
| Permissions.HasRoleLevel | server/utils/permissions.ts:103-107 | the master admin passes every level check; reaching a known level requires a known role; an unknown minimum admits everyone |
| Permissions.HasPermission | server/utils/permissions.ts:87-90 | a permission is held only when it is a key of the matrix and the role is listed under it |
| Permissions.HasAnyPermission | server/utils/permissions.ts:93-95 | holds exactly when some listed permission is held |
| Permissions.HasAllPermissions | server/utils/permissions.ts:98-100 | holds exactly when every listed permission is held |
| Permissions.CanAccessResource | server/utils/permissions.ts:115-137 | the matrix permission `type.action` suffices; without it, access needs an owner equal to the user and a read or update action |
| Permissions.CanManageUser | server/utils/permissions.ts:341-361 | the master admin manages everyone; anyone else manages only roles strictly below their own level |
| Permissions.GetAllowedActions | server/utils/permissions.ts:364-370 | the allowed actions are exactly the CRUD actions whose matrix permission is held, in CRUD order |
| Permissions.MasterAdminHoldsEveryPermission | server/utils/permissions.ts:19-79 | the master admin is listed under every permission of the matrix |
| Permissions.ClientHoldsOnlyBetaParticipate | server/utils/permissions.ts:19-79 | the only permission a client holds is `beta.participate` |
| Permissions.MasterAdminOnlyPermissions | server/utils/permissions.ts:19-79 | user deletion, role changes and the system permissions are held by the master admin and nobody else |
| Permissions.UnknownRoleHoldsNothing | server/utils/permissions.ts:87-90 | a role outside the hierarchy holds no permission |
| Permissions.MatrixEntriesAreSuffixes | server/utils/permissions.ts:19-79 | every matrix entry lists a top segment of the hierarchy, from some role up to the master admin |
| Permissions.PermissionsAreUpwardClosed | server/utils/permissions.ts:10-79 | a permission held by a role is held by every known role at the same or a higher level |
| Permissions.RoleLevelIsTotalPreorder | server/utils/permissions.ts:103-107 | the level check is reflexive, total and transitive |
| Permissions.RoleLevelFollowsEnumOrder | server/utils/permissions.ts:10-15 | for known roles, the level check follows their position in the hierarchy |
| Permissions.ManageableRolesAreStrictlyLower | server/utils/permissions.ts:341-361 | between known roles, management means the manager is the master admin or strictly higher than the target |
| Permissions.UnknownManagerManagesNobody | server/utils/permissions.ts:341-361 | a manager with an unknown role manages nobody |
| Permissions.ManagementIsIndependentOfMatrix | server/utils/permissions.ts:19-79 | `canManageUser` and the matrix disagree: an employee manages clients without any user permission, and an admin may update users but manages no other admin |
| Permissions.OwnershipGrantsOnlyReadAndUpdate | server/utils/permissions.ts:128-134 | for actions other than read and update, ownership adds nothing to the matrix |
| Permissions.NoOwnerMeansMatrixOnly | server/utils/permissions.ts:115-137 | without an owner id, resource access is exactly the matrix permission |
| Permissions.CrudKeyIsNotBetaParticipate | server/utils/permissions.ts:364-370 | no CRUD key coincides with `beta.participate` |
| Permissions.ClientHasNoCrudActions | server/utils/permissions.ts:364-370 | a client is allowed no CRUD action on any resource type |
| Permissions.MasterAdminManagesUsersFully | server/utils/permissions.ts:364-370 | the master admin is allowed all four CRUD actions on users, in order |
| Permissions.RequireRole | server/utils/permissions.ts:268-287 | passes exactly a user with a role at the minimum level; no user or no role gives 401; otherwise 403 with the required and the current role |
| Permissions.RequirePermission | server/utils/permissions.ts:289-308 | passes exactly a user holding the permission; no user or role gives 401; otherwise 403 naming the permission and the role |
| Permissions.RequireOwnershipOrAdmin | server/utils/permissions.ts:310-335 | 401 exactly when the user, its role or the resource id is missing; otherwise passes exactly admins and the owner named in params or body, and rejects everyone else with 403 and the own-resources message |
| Permissions.AnyGrantMatches | server/utils/permissions.ts:159-191 | a grant matches when some row for the user, type and action is unexpired and either type-wide or scoped to the requested resource |
| Permissions.GrantTable.GrantPermission | server/utils/permissions.ts:195-223 | an available store gets one new row with the requested fields and a fresh id; an unavailable one is unchanged |
| Permissions.GrantTable.RevokePermission | server/utils/permissions.ts:226-237 | removes exactly the row with the given id when the store is available, and changes nothing otherwise |
| Permissions.GrantTable.RevokeAllPermissions | server/utils/permissions.ts:240-261 | removes exactly the user's rows for the type (only those scoped to the resource when an id is given), keeping the rest in order |
| Permissions.GrantTable.HasSpecificPermission | server/utils/permissions.ts:159-191 | holds exactly when the store is available and some unexpired row matches |
| Permissions.GrantTable.GetUserPermissions | server/utils/permissions.ts:144-156 | returns exactly the user's unexpired rows, in table order, or nothing when the store fails |
| Permissions.AdminGateAdmitsAdminsOnly | server/routes-supabase.ts:519 | `requireRole('admin')` admits exactly admins and the master admin |
| Permissions.ExpiredGrantIsIgnored | server/utils/permissions.ts:168-172 | adding an expired row never changes the answer |
| Permissions.TypeWideGrantCoversEveryResource | server/utils/permissions.ts:174-178 | an unexpired row without a resource id covers every resource of its type |
| Permissions.ScopedGrantCoversOnlyItsResource | server/utils/permissions.ts:174-178 | a row scoped to a resource matches only that resource |
| Permissions.GrantedRowIsFound | server/utils/permissions.ts:159-191 | a fitting unexpired row is found after it is added |
| Permissions.RevokeAllWithoutIdEndsAccess | server/utils/permissions.ts:240-261 | after revoking all of a user's rows for a type, no grant matches that user and type |
| Permissions.RevokeAllWithIdKeepsTypeWideRows | server/utils/permissions.ts:248-250 | revoking for one resource keeps the user's type-wide rows |
| AdminStore.NewProfile | server/utils/supabase-admin.ts:64-78 | the new profile carries the id, email and username given, the requested role or client, and a verified email |
| AdminStore.MigratedProfile | server/utils/supabase-admin.ts:357-372 | a migrated profile keeps id, email, username and creation time, is a client, and is verified exactly when the legacy flag is the string "true" |
| AdminStore.Store.CreateUser | server/utils/supabase-admin.ts:35-92 | an auth failure changes nothing; a failed profile insert (a duplicate id, or the insert's own error) stores no profile, returns that error, and deletes the new auth user again unless the cleanup delete itself fails, when the orphaned auth user remains; success adds both the auth user and the profile |
| AdminStore.Store.GetUserById | server/utils/supabase-admin.ts:95-107 | returns the profile exactly when the id has one |
| AdminStore.Store.UpdateUserRole | server/utils/supabase-admin.ts:125-138 | changes only the role of that one profile and returns the updated row; a missing row or unavailable store changes nothing |
| AdminStore.Store.DeleteUser | server/utils/supabase-admin.ts:141-155 | on success removes the auth user and its profile; on failure changes nothing and returns the error |
| AdminStore.Store.MasterAdminExists | server/utils/supabase-admin.ts:321-333 | reports failure exactly when the store is unavailable, and found exactly when some profile is a master admin |
| AdminStore.Store.MigrateUser | server/utils/supabase-admin.ts:336-378 | an id the lookup finds is skipped unchanged; when the lookup fails (its error is dropped) a stored id fails on the key and nothing changes; a new id gets the migrated profile unless the insert fails |
| SupabaseAuth.ClientRoleLevel | client/src/lib/supabase-auth.tsx:421-433 | the browser level is defined exactly for known roles and is their index in the hierarchy |
| SupabaseAuth.HasRole | client/src/lib/supabase-auth.tsx:421-433 | an unknown required role is never met; a known one is met exactly when the user's index is at least its index, an unknown user role counting as the client's |
| SupabaseAuth.ClientLevelIsServerLevelMinusOne | client/src/lib/supabase-auth.tsx:421-433 | for known roles the browser level is the server level minus one |
| SupabaseAuth.HierarchiesAgreeOnKnownRoles | client/src/lib/supabase-auth.tsx:421-433 | on known roles the browser's `hasRole` and the server's `hasRoleLevel` agree |
| SupabaseAuth.HierarchiesDisagreeOnUnknownRoles | client/src/lib/supabase-auth.tsx:421-433 | an unknown user role passes the browser's client check but not the server's, and an unknown required role is the reverse |
| SupabaseAuth.Entries | client/src/lib/supabase-auth.tsx:441-446 | a role outside the browser matrix has no entries |
| SupabaseAuth.CanAccessResource | client/src/lib/supabase-auth.tsx:435-454 | the master admin may do everything, unknown roles nothing; access means a `*`, `type.*` or `type.action` entry for the role |
| SupabaseAuth.TypeWildcardAllowsEveryAction | client/src/lib/supabase-auth.tsx:449-453 | a `type.*` entry allows every action on that type |
| SupabaseAuth.AdminHoldsWholeTypes | client/src/lib/supabase-auth.tsx:443 | an admin may do anything to projects, content, crm, social and analytics |
| SupabaseAuth.PlainKeyIsNotTypeWildcard | client/src/lib/supabase-auth.tsx:449-453 | an entry not ending in `*` is never a type wildcard |
| SupabaseAuth.ClientBrowserAccess | client/src/lib/supabase-auth.tsx:446 | the browser lets a client exactly read users and read projects |
| SupabaseAuth.BrowserMatrixIsLooserThanServer | client/src/lib/supabase-auth.tsx:441-446 | the browser lets clients and employees read users although the server matrix does not |
| SupabaseAuth.InitialStateAsWritten | client/src/lib/supabase-auth.tsx:26-32 | the initial state as written: loading exactly when the client is not configured, with an error exactly then |
| SupabaseAuth.InitialState | client/src/lib/supabase-auth.tsx:26-32 | the corrected initial state: loading exactly when the client is configured; the error is set exactly when it is not |
| SupabaseAuth.ProfileRole | client/src/lib/supabase-auth.tsx:352 | the profile role is defined exactly when a profile is loaded |
| SupabaseAuth.UserRole | client/src/lib/supabase-auth.tsx:352 | the user role is the profile's role when truthy, and client otherwise |
| SupabaseAuth.IsAuthenticated | client/src/lib/supabase-auth.tsx:349 | in a coherent state, authenticated exactly when a session is held; a signed-out state is no admin and has the client role |
| SupabaseAuth.IsAdmin | client/src/lib/supabase-auth.tsx:350 | `isAdmin` holds exactly when the user role passes the server's admin-level check |
| SupabaseAuth.IsMasterAdmin | client/src/lib/supabase-auth.tsx:351 | `isMasterAdmin` holds exactly when the user role is the master admin, and implies `isAdmin` |
| SupabaseAuth.DerivedFlagsMatchServerGate | client/src/lib/supabase-auth.tsx:349-352 | `isAdmin` is the server's admin-level check on the user role; `isMasterAdmin` implies `isAdmin`; no profile means a non-admin client |
| SupabaseAuth.ProtectedRoute | client/src/lib/supabase-auth.tsx:365-418 | loading shows the fallback; no user redirects; a signed-in user is denied exactly when a required role differs from the profile's and both levels are defined with the user's lower, and is shown the page otherwise |
| SupabaseAuth.ProtectedRouteFollowsHasRole | client/src/lib/supabase-auth.tsx:365-418 | once loaded with a user, a known required role admits exactly the user roles `hasRole` admits, and unknown user roles are admitted |
| SupabaseAuth.DashboardRoutesFollowServerHierarchy | client/src/App.tsx:97-129 | each guarded dashboard route admits a known role exactly when the server's level check would |
| SupabaseAuth.InitialStateRedirectsBeforeSessionIsRead | client/src/lib/supabase-auth.tsx:30 | as written, a configured client redirects a protected page to login before the session is read; corrected, it shows the fallback |
| SupabaseAuth.SignUpProfile | client/src/lib/supabase-auth.tsx:185-198 | the profile row inserted at sign-up has the new user's id and email, the chosen username, the client role and an unverified email |
| SupabaseAuth.AuthStore.constructor | client/src/lib/supabase-auth.tsx:26-32 | a new store starts in the corrected `SupabaseAuth.InitialState` for its configuration (loading while configured); the program as written starts in `SupabaseAuth.InitialStateAsWritten` (see Findings) |
| SupabaseAuth.AuthStore.UpdateAuthState | client/src/lib/supabase-auth.tsx:58-79 | a session sets user, profile and session and stops loading; no session signs out |
| SupabaseAuth.AuthStore.Init | client/src/lib/supabase-auth.tsx:82-101 | unconfigured or sessionless startup ends signed out; a session error is recorded and loading stops; a session is applied |
| SupabaseAuth.AuthStore.OnAuthEvent | client/src/lib/supabase-auth.tsx:104-138 | sign-out clears the state; sign-in and token refresh apply the session; a user update refreshes the profile; other events change nothing |
| SupabaseAuth.AuthStore.SignUp | client/src/lib/supabase-auth.tsx:144-213 | without configuration returns the not-configured error; on success returns the user and the client profile row it inserts; an auth failure is returned and recorded |
| SupabaseAuth.AuthStore.SignIn | client/src/lib/supabase-auth.tsx:216-251 | without configuration returns the not-configured error; success returns the user; failure is returned and recorded |
| SupabaseAuth.AuthStore.SignOut | client/src/lib/supabase-auth.tsx:254-278 | without configuration returns the not-configured error unchanged; success clears the state; failure records the error |
| SupabaseAuth.AuthStore.UpdateProfile | client/src/lib/supabase-auth.tsx:299-324 | without a user fails unchanged; otherwise stores the updated profile or records the query error |
| SupabaseAuth.AuthStore.RefreshProfile | client/src/lib/supabase-auth.tsx:327-332 | with a user replaces only the profile; without one changes nothing |
| Routes.BearerToken | server/routes-supabase.ts:11-17 | a token is found exactly when the header starts with `Bearer `, and it is the rest of the header |
| Routes.BearerTokenRoundTrip | server/routes-supabase.ts:11-17 | the token put after `Bearer ` is the token extracted |
| Routes.Request.ExtractSupabaseUser | server/routes-supabase.ts:9-49 | the request's user is set only from a valid bearer token of a known session with a profile, and is that profile |
| Routes.PrincipalOf | server/routes-supabase.ts:519-592 | the middleware sees the profile's id and role |
| Routes.RequireAuth | server/routes-supabase.ts:52-60 | passes exactly a request with a user; otherwise 401 |
| Routes.AdminGate | server/routes-supabase.ts:519 | the admin routes admit exactly admins and the master admin; no user or no role gives 401 |
| Routes.ProjectFilterFor | server/routes-supabase.ts:462-466 | clients are filtered by client id, employees by team membership, everyone else sees everything |
| Routes.VisibleProjects | server/routes-supabase.ts:453-469 | the visible projects are exactly those passing the caller's filter, in order |
| Routes.ProjectVisibilityByRole | server/routes-supabase.ts:462-466 | a client sees exactly their projects, an employee exactly those they are assigned to, and admins every project |
| Routes.AdminsSeeAllProjects | server/routes-supabase.ts:462-466 | admins and the master admin see the whole list, unchanged |
| Routes.UsernameRow | server/routes-supabase.ts:208-213 | `.single()` on a username yields a row exactly when one profile holds it, and then every holder is that row |
| Routes.LoginEmail | server/routes-supabase.ts:295-313 | an identifier with `@` is the email itself; otherwise the email of the one profile holding the username, and none when no profile or several do |
| Routes.UsernameAndEmailLoginAgree | server/routes-supabase.ts:295-313 | logging in with a unique username or with its profile's email resolves to the same email |
| Routes.CreateErrorMessage | server/routes-supabase.ts:232-238 | the signup error message is the `createUser` error's message, or "Failed to create account" when that is empty |
| Routes.SignupUser | server/routes-supabase.ts:222-230 | `createUser` gets the submitted username, email, password and names, the client role, and no company or phone |
| Routes.Login | server/routes-supabase.ts:283-391 | missing credentials give 400; a throwing backend gives 500 "Failed to login"; otherwise, when the identifier's email (`Routes.LoginEmail`) names an account with that password and the account has a profile, 200 with that profile and the session's access token; a wrong password, an unknown account or an unresolved username gives 401 "Invalid credentials"; a missing profile 401 "User profile not found" |
| Routes.Signup | server/routes-supabase.ts:195-281 | a missing field gives 400; a throwing backend gives 500; a username held by exactly one profile gives 409; a `createUser` error gives 400 with `Routes.CreateErrorMessage`; otherwise 200 with the new client profile, which is then stored; any other status leaves the profiles unchanged, and the auth users too unless the cleanup delete fails |
| Routes.NewsletterStatus | server/routes-supabase.ts:131-190 | an invalid body is 400; a duplicate email is 409; other insert errors are 500 |
| Routes.ContactStatus | server/routes-supabase.ts:72-128 | an invalid body is 400; any insert error is 500; otherwise 200 |
| Routes.UniqueViolationIsConflictOnlyForNewsletter | server/routes-supabase.ts:145-151 | a unique violation is a conflict for the newsletter and a server error for the contact form |
| UserManagement.FilterUsers | client/src/pages/dashboard/admin/users.tsx:131-163 | keeps exactly the users matching search, role and status, in order, and everyone when no filter is set |
| UserManagement.GetStatusBadge | client/src/pages/dashboard/admin/users.tsx:290-298 | inactive users are marked inactive, active unconfirmed ones unverified, the rest active |
| UserManagement.RoleChangeRequest | client/src/pages/dashboard/admin/users.tsx:165-173 | only a master-admin viewer sends a role change, and it carries the chosen user and role |
| UserManagement.RoleChangeGuardMatchesMatrix | client/src/pages/dashboard/admin/users.tsx:165-173 | the page's guard is the server's `users.update_role` permission |
| UserManagement.StatusChangeRequest | client/src/pages/dashboard/admin/users.tsx:202-211 | the toggle sends the row's id with the opposite of its current flag |
| UserManagement.ApplyStatus | client/src/pages/dashboard/admin/users.tsx:202-211 | an applied status change sets the flag it carries and leaves every other field of the user as it was |
| UserManagement.ToggleMovesBetweenFilters | client/src/pages/dashboard/admin/users.tsx:150-158 | a toggled user moves between the "active" and "inactive" filters and in or out of the Inactive badge, and toggling twice restores the row |
| UserManagement.SearchIgnoresCase | client/src/pages/dashboard/admin/users.tsx:136-140 | a search term and its lower-cased form find the same users |
| UserManagement.StatusFiltersSplitUsers | client/src/pages/dashboard/admin/users.tsx:150-159 | each user passes exactly one of "active" and "inactive" and exactly one of "verified" and "unverified"; any other status value passes everyone |
| UserManagement.ActiveAndInactivePartition | client/src/pages/dashboard/admin/users.tsx:347 | active and inactive users add up to the total |
| UserManagement.ActiveCardMatchesFilter | client/src/pages/dashboard/admin/users.tsx:347 | the active-users card counts what the "active" status filter shows |
| UserManagement.VerifiedCardMatchesFilter | client/src/pages/dashboard/admin/users.tsx:357 | the Verified card counts what the "verified" status filter shows |
| UserManagement.AdminCountMatchesServerGate | client/src/pages/dashboard/admin/users.tsx:367 | the admin card counts exactly the users who pass the server's admin gate |
| UserManagement.CountsBoundedByTotal | client/src/pages/dashboard/admin/users.tsx:338-367 | no card exceeds the total |
| Navigation.IsActive | client/src/components/layout/navigation.tsx:99-103 | a link is active only on locations it prefixes |
| Navigation.LinkIsActiveOnItsOwnPage | client/src/components/layout/navigation.tsx:99-103 | every link is active on its own page |
| Navigation.RootIsActiveOnlyAtRoot | client/src/components/layout/navigation.tsx:99-103 | the home link is active only at `/` |
| Navigation.OtherLinksArePrefixes | client/src/components/layout/navigation.tsx:99-103 | other links are active on every location they prefix, including `/aboutus` for `/about` |
| Navigation.DashboardPath | client/src/components/layout/navigation.tsx:74-85 | admins go to the admin dashboard, employees to theirs, every other role to the client dashboard |
| Navigation.ManageUsersVisible | client/src/components/layout/navigation.tsx:225 | "Manage Users" is shown exactly to roles at the server's admin level |
| Navigation.ManageUsersFollowsAdminGate | client/src/components/layout/navigation.tsx:225 | "Manage Users" is shown exactly to roles passing the admin gate, which are exactly those sent to the admin dashboard |
| Navigation.DashboardLinkIsAdmitted | client/src/components/layout/navigation.tsx:74-85 | a loaded user with a known role links to a dashboard route that admits them |
| Navigation.DisplayNameAsWritten | client/src/components/layout/navigation.tsx:37-38 | the name as written is always "User" |
| Navigation.DisplayName | client/src/components/layout/navigation.tsx:37-38 | the corrected name is the profile's username when set, and "User" otherwise |
| Navigation.DisplayNameIgnoresProfile | client/src/components/layout/navigation.tsx:37-38 | with a username other than "User", the shown name differs from the intended one |
| Dashboard.RedirectTarget | client/src/pages/dashboard/index.tsx:12-33 | no redirect while loading, signed out or without a role; otherwise admins to the admin dashboard, employees to theirs, others to the client one |
| Dashboard.RedirectAgreesWithNavigation | client/src/pages/dashboard/index.tsx:12-33 | the landing redirect goes where the navigation's dashboard link points |
| Dashboard.PreviewTitle | client/src/pages/dashboard/index.tsx:50-82 | each known role has its dashboard title, built from the same label as the navigation; unknown roles get the client one |
| Dashboard.LoginRedirectAsWritten | client/src/pages/auth/login.tsx:28-40 | as written, every signed-in user is sent to the client dashboard |
| Dashboard.LoginRedirect | client/src/pages/auth/login.tsx:28-40 | corrected, a signed-in user is sent to the dashboard of their role |
| Dashboard.LoginRedirectAgreesWithLanding | client/src/pages/auth/login.tsx:28-40 | the corrected login redirect agrees with the dashboard landing redirect |
| Dashboard.LoginRedirectSendsAdminsToClientDashboard | client/src/pages/auth/login.tsx:31 | an admin is sent to the client dashboard as written and to the admin dashboard as intended |
| Signup.Check | client/src/pages/auth/signup.tsx:15-29 | a check reports nothing when it passes and its own issue when it fails |
| Signup.Validate | client/src/pages/auth/signup.tsx:15-29 | the form is valid exactly when every field rule and the password match hold, and each failed rule reports its message |
| Signup.ValidateReportsOnlyFailedRules | client/src/pages/auth/signup.tsx:15-29 | each issue is reported only when its own rule fails |
| Signup.FirstName | client/src/pages/auth/signup.tsx:71 | the first name is the text before the first space, or the whole name when there is none or it starts with a space |
| Signup.LastName | client/src/pages/auth/signup.tsx:72 | the last name is everything after the first space, or empty |
| Signup.NameSplitRoundTrip | client/src/pages/auth/signup.tsx:71-72 | for a name with a space not at its start, first name, a space and last name give the full name back |
| Signup.SignUpArguments | client/src/pages/auth/signup.tsx:60-76 | the form forwards email, password, username, the split name and the company, and no phone |
| Signup.DroppedFieldsAreNotForwarded | client/src/pages/auth/signup.tsx:63 | confirmation, consent and job title do not affect what is sent |
| LegacyAuth.ConvertToLegacyUser | client/src/lib/auth-old.tsx:28-38 | a profile becomes a legacy user with the same identity fields and the flag "true" or "false" |
| LegacyAuth.LegacyRecordMigratesBack | client/src/lib/auth-old.tsx:28-38 | migrating a converted record back keeps its id, email, username, verification and creation time |
| LegacyAuth.Token | client/src/lib/auth-old.tsx:55 | the token is the session's non-empty access token |
| LegacyAuth.Rethrow | client/src/lib/auth-old.tsx:93-98 | an error is thrown with its message exactly when there is one |
| LegacyAuth.Login | client/src/lib/auth-old.tsx:58-73 | a username without `@` throws before Supabase is contacted and leaves the auth state unchanged; otherwise `signIn`'s error is rethrown, and the auth state only stops loading and records that error (none on success), the user arriving later through the auth listener |
| LegacyAuth.Signup | client/src/lib/auth-old.tsx:75-91 | signs up with the given username and names and rethrows the error; the auth state only stops loading and records that error (none on success) |
| LegacyAuth.Logout | client/src/lib/auth-old.tsx:93-98 | signs out and rethrows the error; success clears the state, failure records the error and stops loading |
| Env.MissingNames | scripts/init-master-admin.ts:30-35 | the missing names are exactly those not set, and never more than the names checked |
| Env.MissingNamesIsFilter | scripts/init-master-admin.ts:30-35 | the missing names are the names not set, in the order checked |
| Env.NothingMissingMeansAllPresent | scripts/init-master-admin.ts:37-42 | nothing is missing exactly when every name is set |
| MasterAdminInit.Configured | scripts/init-master-admin.ts:44-45 | a set variable's value is read as it is |
| MasterAdminInit.CollectMissing | scripts/init-master-admin.ts:30-35 | the loop collects exactly the missing names, in order |
| MasterAdminInit.LocalPart | scripts/init-master-admin.ts:107 | the part before the first `@`, or the whole address without one |
| MasterAdminInit.AdminUsername | scripts/init-master-admin.ts:107 | the username is the local part followed by `_admin`, and has no `@` |
| MasterAdminInit.NamePart | scripts/init-master-admin.ts:111-112 | a non-empty part is capitalised; otherwise the fallback is used |
| MasterAdminInit.FirstNameFromEmail | scripts/init-master-admin.ts:110-111 | the first name is the local part's text before its first dot (all of it when undotted), capitalised, or "Master" when that text is empty; it is never empty |
| MasterAdminInit.LastNameFromEmail | scripts/init-master-admin.ts:110-112 | the last name is "Admin" when the local part has no dot; otherwise the text between its first and second dots (or to its end), capitalised, or "Admin" when that text is empty; it is never empty |
| MasterAdminInit.AdminNamesFromDottedAddress | scripts/init-master-admin.ts:107-112 | for `first.last@domain`, the names are the capitalised parts and the username is `first.last_admin` |
| MasterAdminInit.ConnectionFailureReason | scripts/init-master-admin.ts:53-61 | the reason is the error's message, or "Unknown error" when there is none |
| MasterAdminInit.MasterAdminIds | scripts/init-master-admin.ts:77-85 | exactly the ids of master-admin profiles |
| MasterAdminInit.SingleMasterAdmin | scripts/init-master-admin.ts:81-85 | `.single()` yields a row exactly when one master admin exists, and it is that profile |
| MasterAdminInit.ExistingAdminOutcome | scripts/init-master-admin.ts:87-98 | an existing master admin is success exactly when it has the configured email, and a failure naming the other email otherwise |
| MasterAdminInit.ExistingAdminOutcomeAsWritten | scripts/init-master-admin.ts:81-85 | as written, the existing admin is always reported as differing, with no email |
| MasterAdminInit.ExistingAdminIsNeverRecognised | scripts/init-master-admin.ts:81-98 | when the one master admin has the configured email, the intended decision succeeds and the written one fails |
| MasterAdminInit.InitializeMasterAdmin | scripts/init-master-admin.ts:19-170 | fails on missing variables, connection and lookup failures in order; decides an existing admin; with none, creates the admin exactly when `createUser` meets no auth error, no profile error and no stored id, and a failed creation reports the auth error, else the key conflict, else the profile error; changes no profile unless it creates, and no auth user unless it creates or the cleanup of a failed creation fails |
| EnvCheck.DisplayValue | scripts/check-env.ts:25-68 | a value is shown exactly when the variable is set: its first min(width, length) characters followed by "...", the raw value, or its length only |
| EnvCheck.HiddenLength | scripts/check-env.ts:59 | the hidden-length text is never empty |
| EnvCheck.HiddenLengthShowsOnlyLength | scripts/check-env.ts:59 | two hidden texts are equal exactly when the lengths are |
| EnvCheck.PasswordReportShowsOnlyLength | scripts/check-env.ts:53-60 | two set passwords are reported alike exactly when they have the same length |
| EnvCheck.Report | scripts/check-env.ts:80-88 | a set variable shows its value; an unset one is reported missing when required and not set when optional |
| EnvCheck.RequiredVariables | scripts/check-env.ts:25-68 | every listed name comes from a required row, and there are no more names than rows |
| EnvCheck.RequiredRowsAreListed | scripts/check-env.ts:25-68 | every required row's variable is listed |
| EnvCheck.RequiredVariablesAppend | scripts/check-env.ts:70-91 | the required names of two tables in sequence are the first's followed by the second's: the list keeps table order |
| EnvCheck.CriticalMissingIsUnsetRequired | scripts/check-env.ts:70-91 | the critical list holds only unset variables of required rows, and every unset variable of a required row |
| EnvCheck.CriticalMissingIsMissingRequired | scripts/check-env.ts:70-91 | the critical list is the required names not set, in table order |
| EnvCheck.CheckEnvironmentVariables | scripts/check-env.ts:70-91 | one report per row, the critical list, and "all present" exactly when the list is empty |
| EnvCheck.RequiredVariablesOfTheTable | scripts/check-env.ts:25-68 | the table requires exactly the five Supabase and master-admin variables |
| EnvCheck.TableCriticalMissing | scripts/check-env.ts:70-110 | DATABASE_URL is never critical, and a clean check means the master-admin script finds its variables |
| Migration.Bump | scripts/migrate-to-supabase.ts:60-73 | one outcome increments exactly its own counter |
| Migration.TallyCountsEveryItem | scripts/migrate-to-supabase.ts:22-26 | the three counters add up to the number of items |
| Migration.TallyOfAppend | scripts/migrate-to-supabase.ts:48-74 | counting one more item bumps the tally by its outcome |
| Migration.CountedFromZero | scripts/migrate-to-supabase.ts:22-26 | counting from the zero stats accounts for every item |
| Migration.ClassifyUser | scripts/migrate-to-supabase.ts:60-73 | a user fails on an exception or error, is skipped when reported so, and migrates otherwise |
| Migration.ClassifyInsert | scripts/migrate-to-supabase.ts:105-118 | an insert is skipped on a duplicate, fails on other errors or an exception, and migrates otherwise |
| Migration.Summarize | scripts/migrate-to-supabase.ts:177-186 | "no failures" exactly when every counter of failures is zero, and "mostly successful" exactly when successes outnumber failures |
| Migration.NoFailedItemCountsNoFailure | scripts/migrate-to-supabase.ts:48-161 | with no failed item, the failure counter is zero |
| Migration.NoFailedItemsMeansNoFailures | scripts/migrate-to-supabase.ts:177-186 | with no failed item anywhere, the summary reports no failures |
| Migration.RunsMigration | scripts/migrate-to-supabase.ts:215-220 | the migration runs exactly when `--confirm` is among the arguments |
| Migration.InsertOutcomes | scripts/migrate-to-supabase.ts:87-158 | one outcome per attempt, in order, each its classification |
| Migration.MigratedUsers | scripts/migrate-to-supabase.ts:48-74 | each row meets the table the earlier rows left; no row is removed, and every row that did not fail is in the table afterwards |
| Migration.MigratedUsersPrefix | scripts/migrate-to-supabase.ts:48-74 | the outcomes of a shorter run are the first outcomes of a longer one |
| Migration.MigratedUserAt | scripts/migrate-to-supabase.ts:48-74 | row j is classified against the table the first j rows left |
| Migration.MigratedUsersOnlyFromRows | scripts/migrate-to-supabase.ts:48-74 | no id arrives in the table except from the rows |
| Migration.FreshRowsMigrateUnlessInsertFails | server/utils/supabase-admin.ts:336-378 | rows with distinct ids not yet stored are each migrated, unless their own insert fails |
| Migration.RerunSkipsMigratedUsers | server/utils/supabase-admin.ts:336-348 | running the users loop again never migrates a row the first run did not fail: it is skipped, or fails on the key when its lookup fails |
| Migration.CountInserts | scripts/migrate-to-supabase.ts:87-158 | the outcomes are `Migration.InsertOutcomes` of the attempts, and the tally is the start plus their count per outcome |
| Migration.MigrateUsers | scripts/migrate-to-supabase.ts:48-74 | the profiles table and the per-row outcomes are those of `Migration.MigratedUsers`, and the tally is the start plus their count per outcome |
| Migration.MigrateUserRows | scripts/migrate-to-supabase.ts:48-77 | fetched rows give the tally and the table of `Migration.MigratedUsers`; a failed fetch counts nothing and leaves the store unchanged |
| Migration.InsertRows | scripts/migrate-to-supabase.ts:87-161 | fetched rows are tallied by their classified outcomes; a failed fetch counts nothing |
| Migration.RunMigration | scripts/migrate-to-supabase.ts:19-199 | without a database URL nothing runs; otherwise the users' tally and the table are those of `Migration.MigratedUsers`, each insert table's tally is that of its classified attempts, and the summary is drawn from the stats |

## Left out

- Console output, emoji and message texts beyond the status codes and error messages that callers see.
- Timestamps are opaque strings or integers passed in; the login handler's `last_login` update is not modelled.
- The zod email pattern is a boolean parameter of `Signup.Validate`.
- Upper and lower case are ASCII only; Unicode case mapping is not modelled.
- Lookups in object literals do not model JavaScript prototype keys such as `constructor`.
- The order of projects by `created_at`, and `isResourceOwner`, `createProject`, `getProjectsForClient`, `getPublishedContent` and `getUserByEmail` in the server helpers are not modelled.
- The `/api/auth/me`, logout and `/api/beta-programs` handlers, and the contact form's field schema, are not modelled; only the outcome of body validation is, as a boolean.
- The `conditions` column of grant rows is stored but never interpreted, as in the source.
- Interleavings of asynchronous calls are not modelled; each call runs to completion.
- `resetPassword` and `updatePassword` (client/src/lib/supabase-auth.tsx:281-297) only forward to Supabase and are not modelled.
- The activity log and the init script's final auth-user check (scripts/init-master-admin.ts:136-164) are not modelled.
- `testDatabaseConnection` is the `connected` parameter of `MasterAdminInit.InitializeMasterAdmin`.
- The deprecated no-op helpers of the legacy facade (client/src/lib/auth-old.tsx:141-165) are not modelled.
- Process exit codes of the scripts are not modelled; their outcomes are return values.
- The check-env field descriptions and its summary text are not modelled.
- Migration.MigrateUserRows: does not restate the store's validity; that is stated on `Migration.MigrateUsers`.
- Migration.RunMigration: does not restate the store's validity.
- Migration.MigrateUsers: `migrateUser` is modelled as returning; a throw out of it (counted as failed by `Migration.ClassifyUser`) is not an input of the loop.
- Lengths are counted in Unicode characters, not in UTF-16 code units as JavaScript's `length` and `substring` do; this affects `Signup.Validate`, `Js.Take` and `EnvCheck.HiddenLength` for text outside the Basic Multilingual Plane.
- Routes.Login and Routes.Signup: a throw is modelled only before any backend call has an effect; a throw after `createUser` has changed the store is not modelled.
- Signup.Validate: whether the email is well formed is a parameter, not the zod pattern.

## Findings

| source | as written | input that shows it | evidently intended | confidence | as-written member | corrected member |
|---|---|---|---|---|---|---|
| client/src/components/layout/navigation.tsx:37-38 | reads `profile`, which the auth state does not have, so the name falls back to "User" | any signed-in user with username "alice" | show the profile's username | not executed | Navigation.DisplayNameAsWritten | Navigation.DisplayName |
| client/src/pages/auth/login.tsx:31 | reads the missing `profile` field, so the role is undefined and every user goes to the client dashboard | a signed-in admin | redirect by the profile's role | not executed | Dashboard.LoginRedirectAsWritten | Dashboard.LoginRedirect |
| scripts/init-master-admin.ts:81-85 | destructures `user` from a response that carries `data`, so an existing master admin is never recognised | one master admin whose email is the configured one | report that the master admin already exists | not executed | MasterAdminInit.ExistingAdminOutcomeAsWritten | MasterAdminInit.ExistingAdminOutcome |
| client/src/lib/supabase-auth.tsx:30 | `loading: !supabase` starts a configured client not loading, with no user | any protected page opened with Supabase configured | be loading until the session is read | not executed | SupabaseAuth.InitialStateAsWritten | SupabaseAuth.InitialState |
