/**
 * The admin user-management page: the list filter (search, role, status), the
 * status and role badges, the guard in front of role changes, and the counts
 * of the stat cards.
 */
module UserManagement {
  import opened Js
  import opened Schema
  import Permissions

  /** A user as the page lists it. */
  datatype ManagedUser = ManagedUser(
    id: string,
    email: string,
    username: Option<string>,
    fullName: Option<string>,
    role: string,
    company: Option<string>,
    emailConfirmedAt: Option<string>,
    isActive: bool)

  const All: string := "all"

  // ---------------------------------------------------------------------------
  // Filtering
  // ---------------------------------------------------------------------------

  /** An optional field contains the lower-cased term, lower-cased (`field?.toLowerCase().includes(...)`). */
  predicate FieldMatches(field: Option<string>, term: string) {
    field.Some? && Includes(Lower(field.value), Lower(term))
  }

  /** The search pass: email, username, full name or company contains the term, ignoring case. */
  predicate SearchMatches(u: ManagedUser, searchTerm: string) {
    Includes(Lower(u.email), Lower(searchTerm)) ||
    FieldMatches(u.username, searchTerm) || FieldMatches(u.fullName, searchTerm) || FieldMatches(u.company, searchTerm)
  }

  /** The status pass: active/inactive on the flag, verified/unverified on the confirmation date, else all. */
  predicate StatusMatches(u: ManagedUser, statusFilter: string) {
    if statusFilter == "active" then u.isActive
    else if statusFilter == "inactive" then !u.isActive
    else if statusFilter == "verified" then Truthy(u.emailConfirmedAt)
    else if statusFilter == "unverified" then !Truthy(u.emailConfirmedAt)
    else true
  }

  /** The search ignores case: a term and its lower-cased form find the same users. */
  lemma SearchIgnoresCase(u: ManagedUser, searchTerm: string)
    ensures SearchMatches(u, searchTerm) <==> SearchMatches(u, Lower(searchTerm))
  {
    assert Lower(Lower(searchTerm)) == Lower(searchTerm);
  }

  /**
   * Each user passes exactly one of "active" and "inactive" and exactly one of
   * "verified" and "unverified"; any other status value passes everyone.
   */
  lemma StatusFiltersSplitUsers(u: ManagedUser, other: string)
    requires other != "active" && other != "inactive" && other != "verified" && other != "unverified"
    ensures StatusMatches(u, "active") != StatusMatches(u, "inactive")
    ensures StatusMatches(u, "verified") != StatusMatches(u, "unverified")
    ensures StatusMatches(u, other)
  {
  }

  /** Whether a user survives all three passes of `filterUsers`. */
  predicate Kept(u: ManagedUser, searchTerm: string, roleFilter: string, statusFilter: string) {
    && (searchTerm != "" ==> SearchMatches(u, searchTerm))
    && (roleFilter != All ==> u.role == roleFilter)
    && (statusFilter != All ==> StatusMatches(u, statusFilter))
  }

  /**
   * `filterUsers`: the list is narrowed by up to three successive passes. The
   * result is the order-preserving selection of the users that pass all
   * three, and with no search and both filters at "all" it is the whole list.
   */
  method FilterUsers(users: seq<ManagedUser>, searchTerm: string, roleFilter: string, statusFilter: string)
    returns (filtered: seq<ManagedUser>)
    ensures filtered == Filter(users, (u: ManagedUser) => Kept(u, searchTerm, roleFilter, statusFilter))
    ensures forall u :: u in filtered <==> u in users && Kept(u, searchTerm, roleFilter, statusFilter)
    ensures IsSubsequence(filtered, users)
    ensures searchTerm == "" && roleFilter == All && statusFilter == All ==> filtered == users
  {
    // what the list is after each pass
    ghost var afterSearch := (u: ManagedUser) => searchTerm != "" ==> SearchMatches(u, searchTerm);
    ghost var afterRole := (u: ManagedUser) => afterSearch(u) && (roleFilter != All ==> u.role == roleFilter);
    ghost var afterStatus := (u: ManagedUser) => Kept(u, searchTerm, roleFilter, statusFilter);

    filtered := users;
    if searchTerm != "" {
      filtered := Filter(filtered, (u: ManagedUser) => SearchMatches(u, searchTerm));
      FilterAgreeing(users, (u: ManagedUser) => SearchMatches(u, searchTerm), afterSearch);
    }
    assert filtered == Filter(users, afterSearch);

    if roleFilter != All {
      filtered := Filter(filtered, (u: ManagedUser) => u.role == roleFilter);
      FilterNarrow(users, afterSearch, (u: ManagedUser) => u.role == roleFilter, afterRole);
    } else {
      FilterAgreeing(users, afterSearch, afterRole);
    }
    assert filtered == Filter(users, afterRole);

    if statusFilter != All {
      if statusFilter == "active" {
        filtered := Filter(filtered, (u: ManagedUser) => u.isActive);
        FilterNarrow(users, afterRole, (u: ManagedUser) => u.isActive, afterStatus);
      } else if statusFilter == "inactive" {
        filtered := Filter(filtered, (u: ManagedUser) => !u.isActive);
        FilterNarrow(users, afterRole, (u: ManagedUser) => !u.isActive, afterStatus);
      } else if statusFilter == "verified" {
        filtered := Filter(filtered, (u: ManagedUser) => Truthy(u.emailConfirmedAt));
        FilterNarrow(users, afterRole, (u: ManagedUser) => Truthy(u.emailConfirmedAt), afterStatus);
      } else if statusFilter == "unverified" {
        filtered := Filter(filtered, (u: ManagedUser) => !Truthy(u.emailConfirmedAt));
        FilterNarrow(users, afterRole, (u: ManagedUser) => !Truthy(u.emailConfirmedAt), afterStatus);
      } else {
        FilterAgreeing(users, afterRole, afterStatus);
      }
    } else {
      FilterAgreeing(users, afterRole, afterStatus);
    }
  }

  // ---------------------------------------------------------------------------
  // Badges and guards
  // ---------------------------------------------------------------------------

  datatype StatusBadge = InactiveBadge | UnverifiedBadge | ActiveBadge

  /** `getStatusBadge`: inactive first, then unverified, else active. */
  function GetStatusBadge(u: ManagedUser): (b: StatusBadge)
    ensures b == InactiveBadge <==> !u.isActive
    ensures b == UnverifiedBadge <==> u.isActive && !Truthy(u.emailConfirmedAt)
    ensures b == ActiveBadge <==> u.isActive && Truthy(u.emailConfirmedAt)
  {
    if !u.isActive then InactiveBadge
    else if !Truthy(u.emailConfirmedAt) then UnverifiedBadge
    else ActiveBadge
  }

  /** The role-change request `updateUserRole` sends, if any. */
  datatype RoleChange = RoleChange(userId: string, newRole: string)

  /** `updateUserRole`'s guard: only a master admin's page sends the request. */
  function RoleChangeRequest(viewerRole: string, userId: string, newRole: string): (request: Option<RoleChange>)
    ensures request.Some? <==> viewerRole == MasterAdmin
    ensures request.Some? ==> request.value == RoleChange(userId, newRole)
  {
    if viewerRole != MasterAdmin then None else Some(RoleChange(userId, newRole))
  }

  /** The page's guard is the server matrix's `users.update_role`. */
  lemma RoleChangeGuardMatchesMatrix(viewerRole: string, userId: string, newRole: string)
    ensures RoleChangeRequest(viewerRole, userId, newRole).Some? <==> Permissions.HasPermission(viewerRole, "users.update_role")
  {
    Permissions.MasterAdminOnlyPermissions(viewerRole, "users.update_role");
  }

  /** The request `toggleUserStatus` sends: `PUT /api/users/:id/status` with a new `is_active`. */
  datatype StatusChange = StatusChange(userId: string, isActive: bool)

  /** The user as the list shows it once the server has applied a status change to it. */
  function ApplyStatus(u: ManagedUser, change: StatusChange): (v: ManagedUser)
    requires change.userId == u.id
    ensures v.isActive == change.isActive && v.(isActive := u.isActive) == u
  {
    u.(isActive := change.isActive)
  }

  /** `toggleUserStatus(user.id, user.is_active)`: the row's id with the opposite of its flag. */
  function StatusChangeRequest(u: ManagedUser): (request: StatusChange)
    ensures request.userId == u.id
    ensures request.isActive != u.isActive
  {
    StatusChange(u.id, !u.isActive)
  }

  /**
   * Applying the toggle moves a user between the active and inactive filters
   * (and in or out of the Inactive badge), and toggling twice restores the row.
   */
  lemma ToggleMovesBetweenFilters(u: ManagedUser)
    ensures var v := ApplyStatus(u, StatusChangeRequest(u));
            (StatusMatches(v, "active") <==> StatusMatches(u, "inactive")) &&
            (GetStatusBadge(v) == InactiveBadge <==> GetStatusBadge(u) != InactiveBadge) &&
            ApplyStatus(v, StatusChangeRequest(v)) == u
  {
  }

  // ---------------------------------------------------------------------------
  // Stat cards
  // ---------------------------------------------------------------------------

  /** "Active Users" */
  function ActiveCount(users: seq<ManagedUser>): nat {
    |Filter(users, (u: ManagedUser) => u.isActive)|
  }

  /** The users the Active card leaves out. */
  function InactiveCount(users: seq<ManagedUser>): nat {
    |Filter(users, (u: ManagedUser) => !u.isActive)|
  }

  /** "Verified" */
  function VerifiedCount(users: seq<ManagedUser>): nat {
    |Filter(users, (u: ManagedUser) => Truthy(u.emailConfirmedAt))|
  }

  /** "Admins" */
  function AdminCount(users: seq<ManagedUser>): nat {
    |Filter(users, (u: ManagedUser) => u.role == Admin || u.role == MasterAdmin)|
  }

  /** Active and inactive users together are all users ("Total Users"). */
  lemma ActiveAndInactivePartition(users: seq<ManagedUser>)
    ensures ActiveCount(users) + InactiveCount(users) == |users|
  {
    FilterPartition(users, (u: ManagedUser) => u.isActive, (u: ManagedUser) => !u.isActive);
  }

  /** The Active card counts exactly what the "active" status filter lists. */
  lemma ActiveCardMatchesFilter(users: seq<ManagedUser>)
    ensures |Filter(users, (u: ManagedUser) => Kept(u, "", All, "active"))| == ActiveCount(users)
  {
    FilterAgreeing(users, (u: ManagedUser) => Kept(u, "", All, "active"), (u: ManagedUser) => u.isActive);
  }

  /** The Verified card counts exactly what the "verified" status filter lists. */
  lemma VerifiedCardMatchesFilter(users: seq<ManagedUser>)
    ensures |Filter(users, (u: ManagedUser) => Kept(u, "", All, "verified"))| == VerifiedCount(users)
  {
    FilterAgreeing(users, (u: ManagedUser) => Kept(u, "", All, "verified"), (u: ManagedUser) => Truthy(u.emailConfirmedAt));
  }

  /** With roles of the enum, the Admins card counts the users the server's admin gate admits. */
  lemma AdminCountMatchesServerGate(users: seq<ManagedUser>)
    requires forall u :: u in users ==> IsKnownRole(u.role)
    ensures AdminCount(users) == |Filter(users, (u: ManagedUser) => Permissions.HasRoleLevel(u.role, Admin))|
  {
    FilterAgreeing(users, (u: ManagedUser) => u.role == Admin || u.role == MasterAdmin,
                   (u: ManagedUser) => Permissions.HasRoleLevel(u.role, Admin));
  }

  /** Every count is bounded by the total. */
  lemma CountsBoundedByTotal(users: seq<ManagedUser>)
    ensures ActiveCount(users) <= |users| && VerifiedCount(users) <= |users| && AdminCount(users) <= |users|
  {
  }
}
