/**
 * The site navigation's decisions: which link is active for the current
 * location, where the Dashboard link leads, the role label, whether the Manage
 * Users link shows, and the name in the user menu.
 */
module Navigation {
  import opened Js
  import opened Schema
  import Permissions
  import SupabaseAuth

  const Root: string := "/"
  const AdminDashboard: string := "/dashboard/admin"
  const EmployeeDashboard: string := "/dashboard/employee"
  const ClientDashboard: string := "/dashboard/client"

  /** `isActive(path)`: the root only at the root, any other path as a raw prefix of the location. */
  predicate IsActive(path: string, location: string)
    ensures IsActive(path, location) ==> StartsWith(location, path)
  {
    (path == Root && location == Root) || (path != Root && StartsWith(location, path))
  }

  /** Every link is highlighted on its own page. */
  lemma LinkIsActiveOnItsOwnPage(path: string)
    ensures IsActive(path, path)
  {
  }

  /** The root link is active exactly at "/", not on every page (every location starts with "/"). */
  lemma RootIsActiveOnlyAtRoot(location: string)
    ensures IsActive(Root, location) <==> location == Root
  {
  }

  /**
   * Any other link is active exactly when the location starts with it, with no
   * segment boundary: "/about" is also active at "/aboutus".
   */
  lemma OtherLinksArePrefixes(path: string, location: string)
    requires path != Root
    ensures IsActive(path, location) <==> StartsWith(location, path)
    ensures IsActive("/about", "/aboutus") && IsActive("/about", "/about/team")
  {
    assert "/aboutus"[..6] == "/about";
    assert "/about/team"[..6] == "/about";
  }

  /** `getDashboardPath`: admins of both kinds share the admin dashboard; unknown roles get the client's. */
  function DashboardPath(userRole: string): (path: string)
    ensures path == AdminDashboard <==> userRole == MasterAdmin || userRole == Admin
    ensures path == EmployeeDashboard <==> userRole == Employee
    ensures path == ClientDashboard <==> userRole != MasterAdmin && userRole != Admin && userRole != Employee
  {
    if userRole == MasterAdmin || userRole == Admin then AdminDashboard
    else if userRole == Employee then EmployeeDashboard
    else ClientDashboard
  }

  /** The Manage Users link shows for master admins and admins. */
  predicate ManageUsersVisible(userRole: string)
    ensures ManageUsersVisible(userRole) <==> Permissions.HasRoleLevel(userRole, Admin)
  {
    userRole == MasterAdmin || userRole == Admin
  }

  /**
   * The link shows exactly when the server's admin gate would admit the role,
   * exactly when the auth hook's `isAdmin` holds, and exactly when the
   * Dashboard link leads to the admin dashboard.
   */
  lemma ManageUsersFollowsAdminGate(s: SupabaseAuth.AuthState)
    ensures ManageUsersVisible(SupabaseAuth.UserRole(s)) <==> Permissions.HasRoleLevel(SupabaseAuth.UserRole(s), Admin)
    ensures ManageUsersVisible(SupabaseAuth.UserRole(s)) <==> SupabaseAuth.IsAdmin(s)
    ensures ManageUsersVisible(SupabaseAuth.UserRole(s)) <==> DashboardPath(SupabaseAuth.UserRole(s)) == AdminDashboard
  {
    SupabaseAuth.DerivedFlagsMatchServerGate(s);
  }

  /**
   * The Dashboard link of a signed-in user with a role of the enum leads to a
   * guarded route that lets that user in.
   */
  lemma DashboardLinkIsAdmitted(s: SupabaseAuth.AuthState)
    requires !s.loading && s.user.Some? && IsKnownRole(SupabaseAuth.UserRole(s))
    ensures exists i :: 0 <= i < |SupabaseAuth.DashboardRoutes| &&
              SupabaseAuth.DashboardRoutes[i].0 == DashboardPath(SupabaseAuth.UserRole(s)) &&
              SupabaseAuth.ProtectedRoute(s, SupabaseAuth.DashboardRoutes[i].1, SupabaseAuth.LoginPath) == SupabaseAuth.Children
  {
    var role := SupabaseAuth.UserRole(s);
    var i := if role == MasterAdmin || role == Admin then 2 else if role == Employee then 3 else 1;
    SupabaseAuth.DashboardRoutesFollowServerHierarchy(s, i);
    assert SupabaseAuth.DashboardRoutes[i].0 == DashboardPath(role);
  }

  /**
   * The user-menu name as written: it reads a `profile` field that the auth
   * state does not have, so the name is "User" whoever is signed in.
   */
  function DisplayNameAsWritten(s: SupabaseAuth.AuthState): (name: string)
    ensures name == "User"
  {
    // `state.profile` is undefined, so `user?.username` and `user?.full_name` are too
    var username: Option<string> := None;
    var fullName: Option<string> := None;
    OrElse(username, OrElse(fullName, "User"))
  }

  /**
   * The user-menu name as intended: the loaded profile's username, else
   * "User" (the `users` row has no `full_name`, so that fallback is absent).
   */
  function DisplayName(s: SupabaseAuth.AuthState): (name: string)
    ensures s.userProfile.Some? && s.userProfile.value.username != "" ==> name == s.userProfile.value.username
    ensures s.userProfile.None? || s.userProfile.value.username == "" ==> name == "User"
  {
    var username := if s.userProfile.Some? then Some(s.userProfile.value.username) else None;
    OrElse(username, "User")
  }

  /** A signed-in user with a username sees "User" as written, and the username as intended. */
  lemma DisplayNameIgnoresProfile(s: SupabaseAuth.AuthState)
    requires s.userProfile.Some? && s.userProfile.value.username != "" && s.userProfile.value.username != "User"
    ensures DisplayNameAsWritten(s) != DisplayName(s)
  {
  }
}
