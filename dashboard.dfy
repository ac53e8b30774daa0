/**
 * The role-based redirects into the dashboards: the `/dashboard` landing page's
 * redirect and preview title, and the redirect of the login page for a user
 * who is already signed in.
 */
module Dashboard {
  import opened Js
  import opened Schema
  import SupabaseAuth
  import Navigation

  /**
   * The landing page's redirect effect: nothing while loading, while signed
   * out, or while the profile has no role; otherwise the role's dashboard.
   */
  function RedirectTarget(s: SupabaseAuth.AuthState): (target: Option<string>)
    ensures target.None? <==> s.loading || !SupabaseAuth.IsAuthenticated(s) || !Truthy(SupabaseAuth.ProfileRole(s))
    ensures target.Some? && s.userProfile.value.role in {MasterAdmin, Admin} ==> target.value == Navigation.AdminDashboard
    ensures target.Some? && s.userProfile.value.role == Employee ==> target.value == Navigation.EmployeeDashboard
    ensures target.Some? && s.userProfile.value.role !in {MasterAdmin, Admin, Employee} ==> target.value == Navigation.ClientDashboard
  {
    if s.loading || !SupabaseAuth.IsAuthenticated(s) then None
    else if !Truthy(SupabaseAuth.ProfileRole(s)) then None
    else
      var role := s.userProfile.value.role;
      if role == MasterAdmin then Some("/dashboard/admin")
      else if role == Admin then Some("/dashboard/admin")
      else if role == Employee then Some("/dashboard/employee")
      else Some("/dashboard/client")
  }

  /** The landing page sends every user where the navigation's Dashboard link points. */
  lemma RedirectAgreesWithNavigation(s: SupabaseAuth.AuthState)
    requires RedirectTarget(s).Some?
    ensures RedirectTarget(s).value == Navigation.DashboardPath(SupabaseAuth.UserRole(s))
  {
  }

  /** The preview title of the landing page: the shared role label and " Dashboard". */
  function PreviewTitle(role: string): (title: string)
    ensures role == MasterAdmin ==> title == "Master Admin Dashboard"
    ensures role == Admin ==> title == "Admin Dashboard"
    ensures role == Employee ==> title == "Employee Dashboard"
    ensures !IsKnownRole(role) || role == Client ==> title == "Client Dashboard"
  {
    RoleLabel(role) + " Dashboard"
  }

  /**
   * The login page's redirect as written: it reads the role from a `profile`
   * field the auth state does not have, so every signed-in user is sent to
   * the client dashboard.
   */
  function LoginRedirectAsWritten(s: SupabaseAuth.AuthState): (target: Option<string>)
    ensures target.Some? <==> SupabaseAuth.IsAuthenticated(s)
    ensures target.Some? ==> target.value == Navigation.ClientDashboard
  {
    var missingRole: Option<string> := None;
    if !SupabaseAuth.IsAuthenticated(s) then None
    else if missingRole == Some(MasterAdmin) || missingRole == Some(Admin) then Some("/dashboard/admin")
    else if missingRole == Some(Employee) then Some("/dashboard/employee")
    else Some("/dashboard/client")
  }

  /** The login page's redirect as intended: the role of the loaded profile. */
  function LoginRedirect(s: SupabaseAuth.AuthState): (target: Option<string>)
    ensures target.Some? <==> SupabaseAuth.IsAuthenticated(s)
    ensures target.Some? ==> target.value == Navigation.DashboardPath(SupabaseAuth.UserRole(s))
  {
    var role := SupabaseAuth.ProfileRole(s);
    if !SupabaseAuth.IsAuthenticated(s) then None
    else if role == Some(MasterAdmin) || role == Some(Admin) then Some("/dashboard/admin")
    else if role == Some(Employee) then Some("/dashboard/employee")
    else Some("/dashboard/client")
  }

  /** Once the landing page redirects, the intended login redirect goes to the same place. */
  lemma LoginRedirectAgreesWithLanding(s: SupabaseAuth.AuthState)
    requires RedirectTarget(s).Some?
    ensures LoginRedirect(s) == RedirectTarget(s)
  {
    RedirectAgreesWithNavigation(s);
  }

  /** A signed-in admin is sent to the client dashboard as written, and to the admin dashboard as intended. */
  lemma LoginRedirectSendsAdminsToClientDashboard(s: SupabaseAuth.AuthState)
    requires SupabaseAuth.IsAuthenticated(s) && SupabaseAuth.ProfileRole(s) == Some(Admin)
    ensures LoginRedirectAsWritten(s) == Some(Navigation.ClientDashboard)
    ensures LoginRedirect(s) == Some(Navigation.AdminDashboard)
  {
  }
}
