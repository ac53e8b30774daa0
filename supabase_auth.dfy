/**
 * The browser side of authentication: a second role hierarchy (0-3) with
 * `hasRole`, a wildcard access matrix, the `ProtectedRoute` decision, the
 * flags derived from the auth state, and the auth-state record that sign-up,
 * sign-in, sign-out and the auth-event listener replace step by step.
 * Backend answers (sessions, fetched profiles, errors) are parameters.
 */
module SupabaseAuth {
  import opened Js
  import opened Schema
  import Permissions

  // ---------------------------------------------------------------------------
  // Client-side role hierarchy
  // ---------------------------------------------------------------------------

  /** The client's hierarchy object: client 0 ... master_admin 3. */
  const ClientHierarchy: map<string, nat> := map[Client := 0, Employee := 1, Admin := 2, MasterAdmin := 3]

  /** Looking a role up in the hierarchy object: `undefined` (None) for other strings. */
  function ClientRoleLevel(role: string): (level: Option<nat>)
    ensures level.Some? <==> IsKnownRole(role)
    ensures level.Some? ==> level.value < |RoleOrder| && RoleOrder[level.value] == role
  {
    if role in ClientHierarchy then Some(ClientHierarchy[role]) else None
  }

  /**
   * `hasRole`: an unknown user role counts as level 0 (`|| 0`); an unknown
   * required role gives `undefined`, and `n >= undefined` is false.
   */
  predicate HasRole(userRole: string, requiredRole: string)
    ensures !IsKnownRole(requiredRole) ==> !HasRole(userRole, requiredRole)
    ensures IsKnownRole(requiredRole) ==>
              (HasRole(userRole, requiredRole) <==> ClientRoleLevel(userRole).GetOr(0) >= ClientRoleLevel(requiredRole).value)
  {
    var required := ClientRoleLevel(requiredRole);
    required.Some? && ClientRoleLevel(userRole).GetOr(0) >= required.value
  }

  /** On the enum, the client level is the server level minus one. */
  lemma ClientLevelIsServerLevelMinusOne(role: string)
    requires IsKnownRole(role)
    ensures ClientRoleLevel(role) == Some(Permissions.GetRoleLevel(role) - 1)
  {
  }

  /** The two hierarchies order the enum's roles the same way. */
  lemma HierarchiesAgreeOnKnownRoles(userRole: string, requiredRole: string)
    requires IsKnownRole(userRole) && IsKnownRole(requiredRole)
    ensures HasRole(userRole, requiredRole) <==> Permissions.HasRoleLevel(userRole, requiredRole)
  {
    ClientLevelIsServerLevelMinusOne(userRole);
    ClientLevelIsServerLevelMinusOne(requiredRole);
  }

  /**
   * Off the enum they disagree: an unknown user role passes a `client`
   * requirement on the client but not on the server, and an unknown required
   * role is met by everybody on the server but by nobody on the client.
   */
  lemma HierarchiesDisagreeOnUnknownRoles(unknown: string, role: string)
    requires !IsKnownRole(unknown)
    ensures HasRole(unknown, Client) && !Permissions.HasRoleLevel(unknown, Client)
    ensures !HasRole(role, unknown) && Permissions.HasRoleLevel(role, unknown)
  {
  }

  // ---------------------------------------------------------------------------
  // Client-side wildcard access matrix
  // ---------------------------------------------------------------------------

  const Wildcard: string := "*"

  /** Role -> entries; `*` allows everything, `type.*` every action on a type. */
  const AccessMatrix: map<string, seq<string>> := map[
    MasterAdmin := [Wildcard],
    Admin := ["users.read", "projects.*", "content.*", "crm.*", "social.*", "analytics.*"],
    Employee := ["users.read", "projects.read", "content.create", "content.update", "crm.read", "crm.update"],
    Client := ["users.read", "projects.read"]
  ]

  /** The role's entries, or none for a role outside the matrix. */
  function Entries(userRole: string): (entries: seq<string>)
    ensures userRole !in AccessMatrix ==> entries == []
  {
    if userRole in AccessMatrix then AccessMatrix[userRole] else []
  }

  /** `canAccessResource` of the browser: `*`, the exact key, or `type.*`. */
  predicate CanAccessResource(userRole: string, resourceType: string, action: string)
    ensures userRole == MasterAdmin ==> CanAccessResource(userRole, resourceType, action)
    ensures !IsKnownRole(userRole) ==> !CanAccessResource(userRole, resourceType, action)
    ensures CanAccessResource(userRole, resourceType, action) <==>
              Wildcard in Entries(userRole) ||
              Permissions.PermissionKey(resourceType, action) in Entries(userRole) ||
              resourceType + ".*" in Entries(userRole)
  {
    var entries := Entries(userRole);
    Wildcard in entries || Permissions.PermissionKey(resourceType, action) in entries || resourceType + ".*" in entries
  }

  /** A `type.*` entry allows every action on that type. */
  lemma TypeWildcardAllowsEveryAction(userRole: string, resourceType: string, action: string)
    requires resourceType + ".*" in Entries(userRole)
    ensures CanAccessResource(userRole, resourceType, action)
  {
  }

  /** Admins hold every action on projects, content, crm, social and analytics. */
  lemma AdminHoldsWholeTypes(resourceType: string, action: string)
    requires resourceType in ["projects", "content", "crm", "social", "analytics"]
    ensures CanAccessResource(Admin, resourceType, action)
  {
    assert "projects" + ".*" == "projects.*" && "content" + ".*" == "content.*" && "crm" + ".*" == "crm.*";
    assert "social" + ".*" == "social.*" && "analytics" + ".*" == "analytics.*";
  }

  /** A key that ends in a letter is never a `type.*` entry. */
  lemma PlainKeyIsNotTypeWildcard(key: string, resourceType: string)
    requires |key| > 0 && key[|key| - 1] != '*'
    ensures key != resourceType + ".*"
  {
    assert (resourceType + ".*")[|resourceType| + 1] == '*';
  }

  /** A client may do exactly two things in the browser: read users and read projects. */
  lemma ClientBrowserAccess(resourceType: string, action: string)
    ensures CanAccessResource(Client, resourceType, action) <==>
              Permissions.PermissionKey(resourceType, action) in ["users.read", "projects.read"]
  {
    PlainKeyIsNotTypeWildcard("users.read", resourceType);
    PlainKeyIsNotTypeWildcard("projects.read", resourceType);
  }

  /**
   * The browser matrix is not the server matrix: it lets clients and employees
   * read users, which the server reserves for admins.
   */
  lemma BrowserMatrixIsLooserThanServer()
    ensures CanAccessResource(Client, "users", "read") && !Permissions.HasPermission(Client, "users.read")
    ensures CanAccessResource(Employee, "users", "read") && !Permissions.HasPermission(Employee, "users.read")
  {
    assert Permissions.PermissionKey("users", "read") == "users.read";
  }

  // ---------------------------------------------------------------------------
  // Auth state
  // ---------------------------------------------------------------------------

  /** The user object of an auth session. */
  datatype SessionUser = SessionUser(id: string, email: string)

  /** An auth session. */
  datatype Session = Session(user: SessionUser, accessToken: string)

  /** An `AuthError` (message and code). */
  datatype AuthError = AuthError(message: string, code: string)

  const NotConfigured: AuthError := AuthError("Supabase not configured", "SUPABASE_NOT_CONFIGURED")
  const NoAuthenticatedUser: AuthError := AuthError("No authenticated user", "AUTH_ERROR")

  /** The `AuthState` record. */
  datatype AuthState = AuthState(
    user: Option<SessionUser>,
    userProfile: Option<Profile>,
    session: Option<Session>,
    loading: bool,
    error: Option<AuthError>)

  /** The record every sign-out path installs. */
  const SignedOut: AuthState := AuthState(None, None, None, false, None)

  /** The user and profile follow the session: no user without a session, no profile without a user. */
  predicate Coherent(s: AuthState) {
    && (s.user.Some? <==> s.session.Some?)
    && (s.session.Some? ==> s.user == Some(s.session.value.user))
    && (s.userProfile.Some? ==> s.user.Some?)
  }

  /**
   * The initial record as written: `loading: !supabase`. With a configured
   * backend the first render sees "not loading and no user".
   */
  function InitialStateAsWritten(configured: bool): (s: AuthState)
    ensures Coherent(s) && s.user.None?
    ensures s.loading <==> !configured
    ensures s.error.Some? <==> !configured
  {
    AuthState(None, None, None, !configured, if configured then None else Some(NotConfigured))
  }

  /** The initial record as intended: loading until the session is restored, when there is a backend. */
  function InitialState(configured: bool): (s: AuthState)
    ensures Coherent(s) && s.user.None?
    ensures s.loading <==> configured
    ensures s.error.Some? <==> !configured
  {
    AuthState(None, None, None, configured, if configured then None else Some(NotConfigured))
  }

  /** `isAuthenticated` */
  predicate IsAuthenticated(s: AuthState)
    ensures Coherent(s) ==> (IsAuthenticated(s) <==> s.session.Some?)
    ensures Coherent(s) && !IsAuthenticated(s) ==> !IsAdmin(s) && UserRole(s) == Client
  {
    s.user.Some?
  }

  /** The role of the loaded profile, or None when no profile is loaded (`userProfile?.role`). */
  function ProfileRole(s: AuthState): (role: Option<string>)
    ensures role.Some? <==> s.userProfile.Some?
  {
    if s.userProfile.Some? then Some(s.userProfile.value.role) else None
  }

  /** `userRole`: the profile's role, or 'client' when there is none (or it is empty). */
  function UserRole(s: AuthState): (role: string)
    ensures Truthy(ProfileRole(s)) ==> role == s.userProfile.value.role
    ensures !Truthy(ProfileRole(s)) ==> role == Client
  {
    OrElse(ProfileRole(s), Client)
  }

  /** `isAdmin` */
  predicate IsAdmin(s: AuthState)
    ensures IsAdmin(s) <==> Permissions.HasRoleLevel(UserRole(s), Admin)
  {
    ProfileRole(s) == Some(Admin) || ProfileRole(s) == Some(MasterAdmin)
  }

  /** `isMasterAdmin` */
  predicate IsMasterAdmin(s: AuthState)
    ensures IsMasterAdmin(s) <==> UserRole(s) == MasterAdmin
    ensures IsMasterAdmin(s) ==> IsAdmin(s)
  {
    ProfileRole(s) == Some(MasterAdmin)
  }

  /**
   * The derived flags agree with the server's gate: `isAdmin` holds exactly
   * when `userRole` passes `hasRoleLevel(_, 'admin')`, and master admins are admins.
   */
  lemma DerivedFlagsMatchServerGate(s: AuthState)
    ensures IsAdmin(s) <==> Permissions.HasRoleLevel(UserRole(s), Admin)
    ensures IsMasterAdmin(s) ==> IsAdmin(s)
    ensures IsMasterAdmin(s) <==> UserRole(s) == MasterAdmin
    ensures s.userProfile.None? ==> UserRole(s) == Client && !IsAdmin(s)
  {
  }

  // ---------------------------------------------------------------------------
  // ProtectedRoute
  // ---------------------------------------------------------------------------

  /** What `ProtectedRoute` renders. */
  datatype RouteView = Fallback | RedirectTo(path: string) | AccessDenied | Children

  const LoginPath: string := "/login"

  /**
   * `ProtectedRoute`: loading shows the fallback, no user redirects, and a
   * required role that differs from the profile's denies only when both levels
   * are defined and the user's is lower. A missing profile counts as client.
   */
  function ProtectedRoute(s: AuthState, requiredRole: Option<string>, redirectTo: string): (v: RouteView)
    ensures s.loading ==> v == Fallback
    ensures !s.loading && s.user.None? ==> v == RedirectTo(redirectTo)
    ensures !s.loading && s.user.Some? ==>
              (v == AccessDenied <==>
                 Truthy(requiredRole) && ProfileRole(s) != requiredRole &&
                 ClientRoleLevel(OrElse(ProfileRole(s), Client)).Some? && ClientRoleLevel(requiredRole.value).Some? &&
                 ClientRoleLevel(OrElse(ProfileRole(s), Client)).value < ClientRoleLevel(requiredRole.value).value)
    ensures !s.loading && s.user.Some? ==> v == AccessDenied || v == Children
    ensures !s.loading && s.user.Some? && !Truthy(requiredRole) ==> v == Children
  {
    if s.loading then Fallback
    else if s.user.None? then RedirectTo(redirectTo)
    else if Truthy(requiredRole) && ProfileRole(s) != requiredRole then
      var userLevel := ClientRoleLevel(OrElse(ProfileRole(s), Client));
      var requiredLevel := ClientRoleLevel(requiredRole.value);
      // `undefined < n` and `n < undefined` are both false
      if userLevel.Some? && requiredLevel.Some? && userLevel.value < requiredLevel.value then AccessDenied
      else Children
    else Children
  }

  /**
   * For a signed-in user and a required role of the enum, the page renders
   * exactly when `hasRole` holds for the user's role (client without a profile),
   * unless that role is outside the enum, which is never denied.
   */
  lemma ProtectedRouteFollowsHasRole(s: AuthState, requiredRole: string)
    requires !s.loading && s.user.Some? && IsKnownRole(requiredRole)
    ensures IsKnownRole(UserRole(s)) ==>
              (ProtectedRoute(s, Some(requiredRole), LoginPath) == Children <==> HasRole(UserRole(s), requiredRole))
    ensures !IsKnownRole(UserRole(s)) ==> ProtectedRoute(s, Some(requiredRole), LoginPath) == Children
    ensures ProtectedRoute(s, Some(requiredRole), LoginPath) != Fallback
  {
    if ProfileRole(s) == Some(requiredRole) {
      assert UserRole(s) == requiredRole;
    }
  }

  /** The guarded routes of the application and the role each requires. */
  const DashboardRoutes: seq<(string, Option<string>)> := [
    ("/dashboard", None),
    ("/dashboard/client", Some(Client)),
    ("/dashboard/admin", Some(Admin)),
    ("/dashboard/employee", Some(Employee)),
    ("/dashboard/admin/users", Some(Admin))
  ]

  /**
   * With roles of the enum, every guarded route renders exactly for the users
   * the server hierarchy would admit at the route's role.
   */
  lemma DashboardRoutesFollowServerHierarchy(s: AuthState, i: nat)
    requires !s.loading && s.user.Some? && IsKnownRole(UserRole(s)) && i < |DashboardRoutes|
    ensures DashboardRoutes[i].1.None? ==> ProtectedRoute(s, DashboardRoutes[i].1, LoginPath) == Children
    ensures DashboardRoutes[i].1.Some? ==>
              (ProtectedRoute(s, DashboardRoutes[i].1, LoginPath) == Children <==>
               Permissions.HasRoleLevel(UserRole(s), DashboardRoutes[i].1.value))
  {
    var required := DashboardRoutes[i].1;
    if required.Some? {
      ProtectedRouteFollowsHasRole(s, required.value);
      HierarchiesAgreeOnKnownRoles(UserRole(s), required.value);
    }
  }

  /**
   * With a configured backend the initial record as written sends a visitor of
   * a guarded page to the login page before the stored session is read; the
   * intended record shows the fallback instead.
   */
  lemma InitialStateRedirectsBeforeSessionIsRead()
    ensures ProtectedRoute(InitialStateAsWritten(true), None, LoginPath) == RedirectTo(LoginPath)
    ensures ProtectedRoute(InitialState(true), None, LoginPath) == Fallback
  {
  }

  // ---------------------------------------------------------------------------
  // The auth-state holder
  // ---------------------------------------------------------------------------

  /** The events of the auth listener that the switch distinguishes. */
  datatype AuthEvent = SignedInEvent | SignedOutEvent | TokenRefreshed | UserUpdated | OtherEvent(name: string)

  /** What the auth service answered to a sign-up or sign-in call. */
  datatype AuthCall =
    | AuthSucceeded(user: Option<SessionUser>)
    | AuthFailed(error: AuthError)
    | AuthThrew(error: AuthError)

  /** The extra fields of `signUp`. */
  datatype SignUpData = SignUpData(username: string, firstName: string, lastName: string,
                                   company: Option<string>, phone: Option<string>)

  /** The row `signUp` inserts into `users`. */
  datatype ProfileInsert = ProfileInsert(id: string, email: string, username: string, firstName: string,
                                         lastName: string, company: Option<string>, phone: Option<string>,
                                         role: string, emailVerified: bool)

  /** The profile row a browser sign-up asks for: a client, not yet verified. */
  function SignUpProfile(user: SessionUser, data: SignUpData): (row: ProfileInsert)
    ensures row.id == user.id && row.email == user.email && row.username == data.username
    ensures row.role == Client && !row.emailVerified
  {
    ProfileInsert(user.id, user.email, data.username, data.firstName, data.lastName,
                  data.company, data.phone, Client, false)
  }

  /** The result of the profile update query. */
  datatype ProfileQuery = ProfileUpdated(profile: Profile) | ProfileQueryFailed(error: AuthError)

  class AuthStore {
    const configured: bool
    var state: AuthState

    constructor (configured: bool)
      ensures this.configured == configured && state == InitialState(configured)
    {
      this.configured := configured;
      state := InitialState(configured);
    }

    /**
     * `updateAuthState(session)`: with a session, the user, the fetched profile
     * (None when the fetch failed) and the session; without one, signed out.
     */
    method UpdateAuthState(session: Option<Session>, fetchedProfile: Option<Profile>)
      modifies this`state
      ensures session.Some? ==> state == AuthState(Some(session.value.user), fetchedProfile, session, false, None)
      ensures session.None? ==> state == SignedOut
      ensures Coherent(state)
    {
      state := state.(loading := true);
      if session.Some? {
        state := AuthState(Some(session.value.user), fetchedProfile, session, false, None);
      } else {
        state := SignedOut;
      }
    }

    /**
     * The mount effect: without a backend, signed out and no error; a failed
     * session read records the error; otherwise `updateAuthState`.
     */
    method Init(sessionError: Option<AuthError>, session: Option<Session>, fetchedProfile: Option<Profile>)
      requires Coherent(state)
      modifies this`state
      ensures Coherent(state)
      ensures !configured ==> state == SignedOut
      ensures configured && sessionError.Some? ==> state == old(state).(error := sessionError, loading := false)
      ensures configured && sessionError.None? && session.Some? ==>
                state == AuthState(Some(session.value.user), fetchedProfile, session, false, None)
      ensures configured && sessionError.None? && session.None? ==> state == SignedOut
    {
      if !configured {
        state := SignedOut;
        return;
      }
      if sessionError.Some? {
        state := state.(error := sessionError, loading := false);
      } else {
        UpdateAuthState(session, fetchedProfile);
      }
    }

    /** The `onAuthStateChange` switch. */
    method OnAuthEvent(event: AuthEvent, session: Option<Session>, fetchedProfile: Option<Profile>)
      requires Coherent(state)
      modifies this`state
      ensures Coherent(state)
      ensures event == SignedOutEvent ==> state == SignedOut
      ensures (event == SignedInEvent || event == TokenRefreshed) && session.Some? ==>
                state == AuthState(Some(session.value.user), fetchedProfile, session, false, None)
      ensures (event == SignedInEvent || event == TokenRefreshed) && session.None? ==> state == SignedOut
      ensures event == UserUpdated && session.Some? ==>
                state == old(state).(user := Some(session.value.user), userProfile := fetchedProfile, session := session)
      ensures event == UserUpdated && session.None? ==> state == old(state)
      ensures event.OtherEvent? ==> state == old(state)
    {
      match event
      case SignedInEvent => UpdateAuthState(session, fetchedProfile);
      case TokenRefreshed => UpdateAuthState(session, fetchedProfile);
      case SignedOutEvent => state := SignedOut;
      case UserUpdated =>
        if session.Some? {
          state := state.(user := Some(session.value.user), userProfile := fetchedProfile, session := session);
        }
      case OtherEvent(_) =>
    }

    /**
     * `signUp`: the auth outcome decides the returned user and error; when a
     * user comes back, a client profile row is requested, and a failure of that
     * insert is not reported.
     */
    method SignUp(email: string, password: string, data: SignUpData, outcome: AuthCall, profileInsertFails: bool)
      returns (user: Option<SessionUser>, error: Option<AuthError>, inserted: Option<ProfileInsert>)
      requires Coherent(state)
      modifies this`state
      ensures Coherent(state)
      ensures !configured ==> user.None? && error == Some(NotConfigured) && inserted.None? &&
                              state == old(state).(error := Some(NotConfigured), loading := false)
      ensures configured && outcome.AuthSucceeded? ==>
                user == outcome.user && error.None? && state == old(state).(loading := false, error := None)
      ensures configured && outcome.AuthSucceeded? && outcome.user.Some? ==>
                inserted == Some(SignUpProfile(outcome.user.value, data))
      ensures configured && !outcome.AuthSucceeded? ==>
                user.None? && error == Some(outcome.error) && inserted.None? &&
                state == old(state).(loading := false, error := Some(outcome.error))
    {
      if !configured {
        state := state.(error := Some(NotConfigured), loading := false);
        return None, Some(NotConfigured), None;
      }
      state := state.(loading := true, error := None);
      if !outcome.AuthSucceeded? {
        state := state.(error := Some(outcome.error), loading := false);
        return None, Some(outcome.error), None;
      }
      inserted := None;
      if outcome.user.Some? {
        inserted := Some(SignUpProfile(outcome.user.value, data));
        // a failed insert (profileInsertFails) is only logged
      }
      state := state.(loading := false);
      user := outcome.user;
      error := None;
    }

    /** `signIn`: like `signUp` without the profile row; the session arrives later as an event. */
    method SignIn(email: string, password: string, outcome: AuthCall)
      returns (user: Option<SessionUser>, error: Option<AuthError>)
      requires Coherent(state)
      modifies this`state
      ensures Coherent(state)
      ensures !configured ==> user.None? && error == Some(NotConfigured) &&
                              state == old(state).(error := Some(NotConfigured), loading := false)
      ensures configured && outcome.AuthSucceeded? ==>
                user == outcome.user && error.None? && state == old(state).(loading := false, error := None)
      ensures configured && !outcome.AuthSucceeded? ==>
                user.None? && error == Some(outcome.error) &&
                state == old(state).(loading := false, error := Some(outcome.error))
    {
      if !configured {
        state := state.(error := Some(NotConfigured), loading := false);
        return None, Some(NotConfigured);
      }
      state := state.(loading := true, error := None);
      if !outcome.AuthSucceeded? {
        state := state.(error := Some(outcome.error), loading := false);
        return None, Some(outcome.error);
      }
      state := state.(loading := false);
      user := outcome.user;
      error := None;
    }

    /**
     * `signOut`: success resets to signed out; a failure keeps user, profile
     * and session and records the error; without a backend nothing changes.
     */
    method SignOut(signOutError: Option<AuthError>) returns (error: Option<AuthError>)
      requires Coherent(state)
      modifies this`state
      ensures Coherent(state)
      ensures !configured ==> error == Some(NotConfigured) && state == old(state)
      ensures configured ==> error == signOutError
      ensures configured && signOutError.None? ==> state == SignedOut
      ensures configured && signOutError.Some? ==>
                state == old(state).(loading := false, error := signOutError)
    {
      if !configured {
        return Some(NotConfigured);
      }
      state := state.(loading := true, error := None);
      if signOutError.Some? {
        state := state.(error := signOutError, loading := false);
        return signOutError;
      }
      state := SignedOut;
      error := None;
    }

    /**
     * `updateProfile`: without a user nothing is sent; otherwise the profile
     * becomes the updated row, or the query's error is recorded.
     */
    method UpdateProfile(query: ProfileQuery) returns (error: Option<AuthError>)
      requires Coherent(state)
      modifies this`state
      ensures Coherent(state)
      ensures old(state).user.None? ==> error == Some(NoAuthenticatedUser) && state == old(state)
      ensures old(state).user.Some? && query.ProfileUpdated? ==>
                error.None? && state == old(state).(userProfile := Some(query.profile), loading := false, error := None)
      ensures old(state).user.Some? && query.ProfileQueryFailed? ==>
                error == Some(query.error) && state == old(state).(error := Some(query.error), loading := false)
    {
      if state.user.None? {
        return Some(NoAuthenticatedUser);
      }
      state := state.(loading := true);
      if query.ProfileQueryFailed? {
        state := state.(error := Some(query.error), loading := false);
        return Some(query.error);
      }
      state := state.(userProfile := Some(query.profile), loading := false, error := None);
      error := None;
    }

    /** `refreshProfile`: with a user, the profile becomes the fetched one (None on failure). */
    method RefreshProfile(fetchedProfile: Option<Profile>)
      requires Coherent(state)
      modifies this`state
      ensures Coherent(state)
      ensures old(state).user.None? ==> state == old(state)
      ensures old(state).user.Some? ==> state == old(state).(userProfile := fetchedProfile)
    {
      if state.user.Some? {
        state := state.(userProfile := fetchedProfile);
      }
    }
  }
}
