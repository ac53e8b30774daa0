/**
 * The server-side RBAC authorizer: a static permission matrix, a numeric role
 * hierarchy, the decision functions built on them, a table of dynamic grants,
 * and the three request middlewares.
 */
module Permissions {
  import opened Js
  import opened Schema

  // ---------------------------------------------------------------------------
  // Static policy
  // ---------------------------------------------------------------------------

  /** Role levels; a role outside the map has level 0. */
  const RoleHierarchy: map<string, nat> := map[Client := 1, Employee := 2, Admin := 3, MasterAdmin := 4]

  /** Permission key -> roles allowed to exercise it. Lookup is by exact key. */
  const PermissionsMatrix: map<string, seq<string>> := map[
    "users.read" := [Admin, MasterAdmin],
    "users.create" := [Admin, MasterAdmin],
    "users.update" := [Admin, MasterAdmin],
    "users.delete" := [MasterAdmin],
    "users.update_role" := [MasterAdmin],
    "projects.read" := [Employee, Admin, MasterAdmin],
    "projects.create" := [Admin, MasterAdmin],
    "projects.update" := [Admin, MasterAdmin],
    "projects.delete" := [Admin, MasterAdmin],
    "projects.assign" := [Admin, MasterAdmin],
    "content.read" := [Employee, Admin, MasterAdmin],
    "content.create" := [Employee, Admin, MasterAdmin],
    "content.update" := [Employee, Admin, MasterAdmin],
    "content.delete" := [Admin, MasterAdmin],
    "content.publish" := [Admin, MasterAdmin],
    "crm.read" := [Employee, Admin, MasterAdmin],
    "crm.create" := [Employee, Admin, MasterAdmin],
    "crm.update" := [Employee, Admin, MasterAdmin],
    "crm.delete" := [Admin, MasterAdmin],
    "crm.assign" := [Admin, MasterAdmin],
    "social.read" := [Employee, Admin, MasterAdmin],
    "social.create" := [Employee, Admin, MasterAdmin],
    "social.update" := [Employee, Admin, MasterAdmin],
    "social.delete" := [Admin, MasterAdmin],
    "social.publish" := [Admin, MasterAdmin],
    "analytics.read" := [Admin, MasterAdmin],
    "analytics.export" := [Admin, MasterAdmin],
    "beta.read" := [Employee, Admin, MasterAdmin],
    "beta.create" := [Admin, MasterAdmin],
    "beta.update" := [Admin, MasterAdmin],
    "beta.delete" := [Admin, MasterAdmin],
    "beta.participate" := [Client, Employee, Admin, MasterAdmin],
    "system.logs" := [MasterAdmin],
    "system.config" := [MasterAdmin],
    "system.backup" := [MasterAdmin],
    "contact.read" := [Employee, Admin, MasterAdmin],
    "contact.update" := [Employee, Admin, MasterAdmin],
    "contact.delete" := [Admin, MasterAdmin],
    "newsletter.read" := [Admin, MasterAdmin],
    "newsletter.create" := [Admin, MasterAdmin],
    "newsletter.send" := [Admin, MasterAdmin]
  ]

  // ---------------------------------------------------------------------------
  // Decision functions
  // ---------------------------------------------------------------------------

  /** A role's level: its 1-based position in the enum order, or 0 when unknown. */
  function GetRoleLevel(role: string): (level: nat)
    ensures level <= |RoleOrder|
    ensures level == 0 <==> !IsKnownRole(role)
    ensures level > 0 ==> RoleOrder[level - 1] == role
  {
    if role in RoleHierarchy then RoleHierarchy[role] else 0
  }

  /** `hasRoleLevel`: the user's level is at least the minimum's. */
  predicate HasRoleLevel(userRole: string, minimumRole: string)
    ensures userRole == MasterAdmin ==> HasRoleLevel(userRole, minimumRole)
    ensures HasRoleLevel(userRole, minimumRole) && IsKnownRole(minimumRole) ==> IsKnownRole(userRole)
    ensures !IsKnownRole(minimumRole) ==> HasRoleLevel(userRole, minimumRole)
  {
    GetRoleLevel(userRole) >= GetRoleLevel(minimumRole)
  }

  /** `hasPermission`: exact-key lookup; an absent key denies every role. */
  predicate HasPermission(userRole: string, permission: string)
    ensures HasPermission(userRole, permission) ==> permission in PermissionsMatrix
    ensures HasPermission(userRole, permission) ==> userRole in PermissionsMatrix[permission]
  {
    permission in PermissionsMatrix && userRole in PermissionsMatrix[permission]
  }

  /** `hasAnyPermission`: some listed key is granted (false for the empty list). */
  predicate HasAnyPermission(userRole: string, permissions: seq<string>)
    ensures HasAnyPermission(userRole, permissions) <==> exists p :: p in permissions && HasPermission(userRole, p)
  {
    if |permissions| == 0 then false
    else HasPermission(userRole, permissions[0]) || HasAnyPermission(userRole, permissions[1..])
  }

  /** `hasAllPermissions`: every listed key is granted (true for the empty list). */
  predicate HasAllPermissions(userRole: string, permissions: seq<string>)
    ensures HasAllPermissions(userRole, permissions) <==> forall p :: p in permissions ==> HasPermission(userRole, p)
  {
    if |permissions| == 0 then true
    else HasPermission(userRole, permissions[0]) && HasAllPermissions(userRole, permissions[1..])
  }

  const ReadAction: string := "read"
  const UpdateAction: string := "update"

  /** The permission key for an action on a resource type. */
  function PermissionKey(resourceType: string, action: string): string {
    resourceType + "." + action
  }

  /**
   * `canAccessResource`: the matrix decides; when it denies, an owner may still
   * read or update a resource whose owner id equals the caller's id.
   */
  predicate CanAccessResource(userRole: string, resourceType: string, action: string,
                              resourceOwnerId: Option<string>, userId: Option<string>)
    ensures HasPermission(userRole, PermissionKey(resourceType, action)) ==> CanAccessResource(userRole, resourceType, action, resourceOwnerId, userId)
    ensures CanAccessResource(userRole, resourceType, action, resourceOwnerId, userId) && !HasPermission(userRole, PermissionKey(resourceType, action)) ==>
              Truthy(resourceOwnerId) && resourceOwnerId == userId && (action == ReadAction || action == UpdateAction)
    ensures Truthy(resourceOwnerId) && resourceOwnerId == userId && (action == ReadAction || action == UpdateAction) ==>
              CanAccessResource(userRole, resourceType, action, resourceOwnerId, userId)
  {
    if !HasPermission(userRole, PermissionKey(resourceType, action)) then
      if Truthy(resourceOwnerId) && Truthy(userId) && resourceOwnerId.value == userId.value then
        action == ReadAction || action == UpdateAction
      else false
    else true
  }

  /**
   * `canManageUser`: a hierarchy of its own, separate from the matrix.
   * Only master_admin may manage a role at or above its own level.
   */
  predicate CanManageUser(managerRole: string, targetRole: string)
    ensures managerRole == MasterAdmin ==> CanManageUser(managerRole, targetRole)
    ensures CanManageUser(managerRole, targetRole) && managerRole != MasterAdmin ==>
              IsKnownRole(targetRole) && GetRoleLevel(targetRole) < GetRoleLevel(managerRole)
  {
    if managerRole == MasterAdmin then true
    else if managerRole == Admin then targetRole == Employee || targetRole == Client
    else if managerRole == Employee then targetRole == Client
    else false
  }

  /** The fixed action vocabulary, in the order the source lists it. */
  const CrudActions: seq<string> := ["create", "read", "update", "delete"]

  /** `getAllowedActions`: the CRUD actions the matrix grants on a resource type. */
  function GetAllowedActions(userRole: string, resourceType: string): (allowed: seq<string>)
    ensures forall a :: a in allowed <==> a in CrudActions && HasPermission(userRole, PermissionKey(resourceType, a))
    ensures IsSubsequence(allowed, CrudActions)
  {
    Filter(CrudActions, a => HasPermission(userRole, PermissionKey(resourceType, a)))
  }

  // ---------------------------------------------------------------------------
  // Properties of the static policy
  // ---------------------------------------------------------------------------

  /** master_admin holds every permission in the matrix. */
  lemma MasterAdminHoldsEveryPermission(permission: string)
    requires permission in PermissionsMatrix
    ensures HasPermission(MasterAdmin, permission)
  {
  }

  /** A client holds exactly one matrix permission: `beta.participate`. */
  lemma ClientHoldsOnlyBetaParticipate(permission: string)
    ensures HasPermission(Client, permission) <==> permission == "beta.participate"
  {
  }

  /** Deleting users, changing roles and the system keys belong to master_admin alone. */
  lemma MasterAdminOnlyPermissions(role: string, permission: string)
    requires permission in ["users.delete", "users.update_role", "system.logs", "system.config", "system.backup"]
    ensures HasPermission(role, permission) <==> role == MasterAdmin
  {
  }

  /** A role outside the enum holds no permission. */
  lemma UnknownRoleHoldsNothing(role: string, permission: string)
    requires !IsKnownRole(role)
    ensures !HasPermission(role, permission)
  {
    if permission in PermissionsMatrix {
      MatrixEntriesAreSuffixes(permission);
    }
  }

  /** Every matrix entry is a tail of the enum order: "this level and above". */
  lemma MatrixEntriesAreSuffixes(permission: string)
    requires permission in PermissionsMatrix
    ensures |PermissionsMatrix[permission]| <= |RoleOrder|
    ensures PermissionsMatrix[permission] == RoleOrder[|RoleOrder| - |PermissionsMatrix[permission]|..]
  {
  }

  /**
   * The matrix is monotone in the hierarchy: a permission held by a role is held
   * by every known role at the same or a higher level.
   */
  lemma PermissionsAreUpwardClosed(lower: string, higher: string, permission: string)
    requires HasPermission(lower, permission)
    requires IsKnownRole(higher) && GetRoleLevel(lower) <= GetRoleLevel(higher)
    ensures HasPermission(higher, permission)
  {
    MatrixEntriesAreSuffixes(permission);
    var entry := PermissionsMatrix[permission];
    var start := |RoleOrder| - |entry|;
    var i :| 0 <= i < |entry| && entry[i] == lower;
    assert RoleOrder[start + i] == lower;
    assert GetRoleLevel(lower) == start + i + 1;
    var j := GetRoleLevel(higher) - 1;
    assert RoleOrder[j] == higher;
    assert entry[j - start] == higher;
  }

  /** `hasRoleLevel` is a total preorder on role names. */
  lemma RoleLevelIsTotalPreorder(a: string, b: string, c: string)
    ensures HasRoleLevel(a, a)
    ensures HasRoleLevel(a, b) || HasRoleLevel(b, a)
    ensures HasRoleLevel(a, b) && HasRoleLevel(b, c) ==> HasRoleLevel(a, c)
  {
  }

  /** On the enum, `hasRoleLevel` is the enum order itself. */
  lemma RoleLevelFollowsEnumOrder(i: nat, j: nat)
    requires i < |RoleOrder| && j < |RoleOrder|
    ensures HasRoleLevel(RoleOrder[i], RoleOrder[j]) <==> i >= j
  {
  }

  /** Between known roles, a manager manages exactly the strictly lower roles, and master_admin everyone. */
  lemma ManageableRolesAreStrictlyLower(managerRole: string, targetRole: string)
    requires IsKnownRole(managerRole) && IsKnownRole(targetRole)
    ensures CanManageUser(managerRole, targetRole) <==>
              managerRole == MasterAdmin || GetRoleLevel(targetRole) < GetRoleLevel(managerRole)
  {
  }

  /** A manager whose role is not in the enum manages nobody. */
  lemma UnknownManagerManagesNobody(managerRole: string, targetRole: string)
    requires !IsKnownRole(managerRole)
    ensures !CanManageUser(managerRole, targetRole)
  {
  }

  /**
   * `canManageUser` is not derived from the matrix: an employee may manage a
   * client although the matrix grants employees neither `users.update` nor
   * `users.update_role`, and an admin may not manage an admin although it
   * holds `users.update`.
   */
  lemma ManagementIsIndependentOfMatrix()
    ensures CanManageUser(Employee, Client)
    ensures !HasPermission(Employee, "users.update") && !HasPermission(Employee, "users.update_role")
    ensures !CanManageUser(Admin, Admin) && HasPermission(Admin, "users.update")
  {
  }

  /** Ownership never grants an action other than read or update. */
  lemma OwnershipGrantsOnlyReadAndUpdate(userRole: string, resourceType: string, action: string,
                                         resourceOwnerId: Option<string>, userId: Option<string>)
    requires action != ReadAction && action != UpdateAction
    ensures CanAccessResource(userRole, resourceType, action, resourceOwnerId, userId) <==>
              HasPermission(userRole, PermissionKey(resourceType, action))
  {
  }

  /** Without an owner id on both sides, access is exactly the matrix. */
  lemma NoOwnerMeansMatrixOnly(userRole: string, resourceType: string, action: string, userId: Option<string>)
    ensures CanAccessResource(userRole, resourceType, action, None, userId) <==>
              HasPermission(userRole, PermissionKey(resourceType, action))
  {
  }

  /** No CRUD key of any resource type is `beta.participate`: its '.' sits elsewhere. */
  lemma CrudKeyIsNotBetaParticipate(resourceType: string, action: string)
    requires action in CrudActions
    ensures PermissionKey(resourceType, action) != "beta.participate"
  {
    var key := PermissionKey(resourceType, action);
    assert key[|resourceType|] == '.';
    if |key| == 16 {
      assert |action| == 4 || |action| == 6;
      assert "beta.participate"[|resourceType|] == 'i';
    }
  }

  /** A client is granted no CRUD action on any resource type by the matrix. */
  lemma ClientHasNoCrudActions(resourceType: string)
    ensures GetAllowedActions(Client, resourceType) == []
  {
    forall a | a in CrudActions
      ensures !HasPermission(Client, PermissionKey(resourceType, a))
    {
      CrudKeyIsNotBetaParticipate(resourceType, a);
      ClientHoldsOnlyBetaParticipate(PermissionKey(resourceType, a));
    }
  }

  /** master_admin is granted all four CRUD actions on users, in order. */
  lemma MasterAdminManagesUsersFully()
    ensures GetAllowedActions(MasterAdmin, "users") == CrudActions
  {
    forall a | a in CrudActions
      ensures HasPermission(MasterAdmin, PermissionKey("users", a))
    {
      MasterAdminHoldsUsersKey(a);
    }
  }

  /** Each CRUD key on users lists master_admin. */
  lemma MasterAdminHoldsUsersKey(action: string)
    requires action in CrudActions
    ensures HasPermission(MasterAdmin, PermissionKey("users", action))
  {
    if action == "create" {
      assert PermissionKey("users", action) == "users.create";
      MasterAdminHoldsEveryPermission("users.create");
    } else if action == "read" {
      assert PermissionKey("users", action) == "users.read";
      MasterAdminHoldsEveryPermission("users.read");
    } else if action == "update" {
      assert PermissionKey("users", action) == "users.update";
      MasterAdminHoldsEveryPermission("users.update");
    } else {
      assert PermissionKey("users", action) == "users.delete";
      MasterAdminHoldsEveryPermission("users.delete");
    }
  }

  // ---------------------------------------------------------------------------
  // Middleware
  // ---------------------------------------------------------------------------

  /** The authenticated caller as the middlewares see it (`req.user`). */
  datatype Principal = Principal(id: string, role: string)

  /** What a middleware does: call `next()`, or answer with a status. */
  datatype Decision =
    | Next
    | Reject(status: int, error: string, required: Option<string>, current: Option<string>)

  const AuthenticationRequired: string := "Authentication required"
  const InsufficientPermissions: string := "Insufficient permissions"
  const OwnResourcesOnly: string := "Access denied - can only access own resources"

  /** `requireRole(minimumRole)` applied to a request whose `req.user` is `user`. */
  function RequireRole(minimumRole: string, user: Option<Principal>): (d: Decision)
    ensures d == Next <==> user.Some? && user.value.role != "" && HasRoleLevel(user.value.role, minimumRole)
    ensures d.Reject? && d.status == 401 <==> user.None? || user.value.role == ""
    ensures d.Reject? ==> d.status == 401 || (d.status == 403 && d.required == Some(minimumRole) && d.current == Some(user.value.role))
  {
    if user.None? || user.value.role == "" then Reject(401, AuthenticationRequired, None, None)
    else if !HasRoleLevel(user.value.role, minimumRole) then
      Reject(403, InsufficientPermissions, Some(minimumRole), Some(user.value.role))
    else Next
  }

  /**
   * `requirePermission(permission)` applied to a request whose `req.user` is `user`.
   * Its 403 body labels the caller's role `role` where `requireRole` says
   * `current`; the model carries it in `current` for both.
   */
  function RequirePermission(permission: string, user: Option<Principal>): (d: Decision)
    ensures d == Next <==> user.Some? && user.value.role != "" && HasPermission(user.value.role, permission)
    ensures d.Reject? && d.status == 401 <==> user.None? || user.value.role == ""
    ensures d.Reject? ==> d.status == 401 || (d.status == 403 && d.required == Some(permission) && d.current == Some(user.value.role))
  {
    if user.None? || user.value.role == "" then Reject(401, AuthenticationRequired, None, None)
    else if !HasPermission(user.value.role, permission) then
      Reject(403, InsufficientPermissions, Some(permission), Some(user.value.role))
    else Next
  }

  /** A field of `req.params` / `req.body`. */
  function Field(m: map<string, string>, name: string): Option<string> {
    if name in m then Some(m[name]) else None
  }

  /**
   * `requireOwnershipOrAdmin(field)`: admins pass, others only when the resource's
   * user id (`req.params[field] || req.body[field]`) is their own id.
   */
  function RequireOwnershipOrAdmin(resourceUserIdField: string, user: Option<Principal>,
                                   params: map<string, string>, body: map<string, string>): (d: Decision)
    ensures user.None? || user.value.role == "" || user.value.id == "" ==> d.Reject? && d.status == 401
    ensures d.Reject? && d.status == 401 <==> user.None? || user.value.role == "" || user.value.id == ""
    ensures d.Reject? && d.status == 401 ==> d.error == AuthenticationRequired
    ensures d == Next <==>
              user.Some? && user.value.role != "" && user.value.id != "" &&
              (HasRoleLevel(user.value.role, Admin) ||
               user.value.id == OrElse(Field(params, resourceUserIdField), OrElse(Field(body, resourceUserIdField), "")))
    // a present caller who is neither an admin nor the owner is refused with 403
    ensures d.Reject? && d.status != 401 ==> d == Reject(403, OwnResourcesOnly, None, None)
    ensures d.Reject? ==> d.status == 401 || d.status == 403
  {
    var paramValue := Field(params, resourceUserIdField);
    var resourceUserId := if Truthy(paramValue) then paramValue else Field(body, resourceUserIdField);
    if user.None? || user.value.role == "" || user.value.id == "" then
      Reject(401, AuthenticationRequired, None, None)
    else if HasRoleLevel(user.value.role, Admin) then Next
    else if resourceUserId == Some(user.value.id) then Next
    else Reject(403, OwnResourcesOnly, None, None)
  }

  // ---------------------------------------------------------------------------
  // Dynamic grants (the `permissions` table)
  // ---------------------------------------------------------------------------

  /**
   * A row of the `permissions` table. `resourceId == None` grants the actions on
   * every resource of the type; `expiresAt == None` never expires. Times are
   * abstract integers.
   */
  datatype Grant = Grant(
    id: nat,
    userId: string,
    resourceType: string,
    resourceId: Option<string>,
    actions: seq<string>,
    grantedBy: string,
    expiresAt: Option<int>)

  /** `expires_at is null or expires_at > now()` */
  predicate Unexpired(g: Grant, now: int) {
    g.expiresAt.None? || g.expiresAt.value > now
  }

  /**
   * The filters of `hasSpecificPermission`: same user and type, the action is
   * listed, not expired, and a requested id matches a wildcard or equal grant,
   * while no requested id matches only wildcard grants.
   */
  predicate GrantMatches(g: Grant, userId: string, resourceType: string, action: string,
                         resourceId: Option<string>, now: int)
  {
    && g.userId == userId
    && g.resourceType == resourceType
    && action in g.actions
    && Unexpired(g, now)
    && (if Truthy(resourceId) then g.resourceId.None? || g.resourceId == resourceId else g.resourceId.None?)
  }

  /** Some row passes the filters (the query's `limit(1)` found a row). */
  predicate AnyGrantMatches(rows: seq<Grant>, userId: string, resourceType: string, action: string,
                            resourceId: Option<string>, now: int)
    ensures AnyGrantMatches(rows, userId, resourceType, action, resourceId, now) <==>
              exists g :: g in rows && GrantMatches(g, userId, resourceType, action, resourceId, now)
  {
    if |rows| == 0 then false
    else GrantMatches(rows[0], userId, resourceType, action, resourceId, now) ||
         AnyGrantMatches(rows[1..], userId, resourceType, action, resourceId, now)
  }

  /** The rows `revokeAllPermissions` deletes. */
  predicate RevokeTarget(g: Grant, userId: string, resourceType: string, resourceId: Option<string>) {
    g.userId == userId && g.resourceType == resourceType && (Truthy(resourceId) ==> g.resourceId == resourceId)
  }

  /** Row ids strictly increase along the table (so they are unique). */
  ghost predicate IdsIncreasing(rows: seq<Grant>) {
    forall i, j :: 0 <= i < j < |rows| ==> rows[i].id < rows[j].id
  }

  lemma {:induction false} SubsequenceKeepsIdsIncreasing(r: seq<Grant>, s: seq<Grant>)
    requires IsSubsequence(r, s) && IdsIncreasing(s)
    ensures IdsIncreasing(r)
    ensures forall g :: g in r ==> g in s
    decreases |s|
  {
    if |r| > 0 && |s| > 0 {
      if r[0] == s[0] {
        SubsequenceKeepsIdsIncreasing(r[1..], s[1..]);
        forall g | g in r ensures g in s {
          if g != r[0] {
            assert g in r[1..];
          }
        }
        forall j | 0 < j < |r| ensures r[0].id < r[j].id {
          assert r[j] in r[1..];
          var k :| 0 <= k < |s[1..]| && s[1..][k] == r[j];
          assert s[k + 1] == r[j];
        }
      } else {
        SubsequenceKeepsIdsIncreasing(r, s[1..]);
        forall g | g in r ensures g in s {
          assert g in s[1..];
        }
      }
    }
  }

  /** The `permissions` table, updated in place by grant and revoke. */
  class GrantTable {
    var rows: seq<Grant>
    var nextId: nat

    ghost predicate Valid()
      reads this
    {
      IdsIncreasing(rows) && forall g :: g in rows ==> g.id < nextId
    }

    constructor ()
      ensures Valid() && rows == [] && nextId == 0
    {
      rows := [];
      nextId := 0;
    }

    /** `grantPermission`: inserts one row; a store failure changes nothing. */
    method GrantPermission(userId: string, resourceType: string, actions: seq<string>, grantedBy: string,
                           resourceId: Option<string>, expiresAt: Option<int>, storeAvailable: bool)
      returns (granted: Option<Grant>)
      requires Valid()
      modifies this
      ensures Valid()
      ensures !storeAvailable ==> granted.None? && rows == old(rows) && nextId == old(nextId)
      ensures storeAvailable ==>
                granted == Some(Grant(old(nextId), userId, resourceType, resourceId, actions, grantedBy, expiresAt)) &&
                rows == old(rows) + [granted.value]
    {
      if !storeAvailable {
        return None;
      }
      var g := Grant(nextId, userId, resourceType, resourceId, actions, grantedBy, expiresAt);
      rows := rows + [g];
      nextId := nextId + 1;
      granted := Some(g);
    }

    /** `revokePermission`: deletes the row with the given id. */
    method RevokePermission(permissionId: nat, storeAvailable: bool) returns (ok: bool)
      requires Valid()
      modifies this`rows
      ensures Valid()
      ensures ok == storeAvailable
      ensures ok ==> rows == Filter(old(rows), (g: Grant) => g.id != permissionId)
      ensures !ok ==> rows == old(rows)
    {
      if !storeAvailable {
        return false;
      }
      var kept := Filter(rows, (g: Grant) => g.id != permissionId);
      SubsequenceKeepsIdsIncreasing(kept, rows);
      rows := kept;
      ok := true;
    }

    /**
     * `revokeAllPermissions`: deletes exactly the rows of the user and type (and,
     * when an id is given, of that resource id); every other row stays, in order.
     */
    method RevokeAllPermissions(userId: string, resourceType: string, resourceId: Option<string>, storeAvailable: bool)
      returns (ok: bool)
      requires Valid()
      modifies this`rows
      ensures Valid()
      ensures ok == storeAvailable
      ensures ok ==> rows == Filter(old(rows), (g: Grant) => !RevokeTarget(g, userId, resourceType, resourceId))
      ensures ok ==> forall g :: g in rows <==> g in old(rows) && !RevokeTarget(g, userId, resourceType, resourceId)
      ensures !ok ==> rows == old(rows)
    {
      if !storeAvailable {
        return false;
      }
      var kept := Filter(rows, (g: Grant) => !RevokeTarget(g, userId, resourceType, resourceId));
      SubsequenceKeepsIdsIncreasing(kept, rows);
      rows := kept;
      ok := true;
    }

    /**
     * `hasSpecificPermission`: true iff the query succeeds and finds a matching
     * row; a failed query answers false.
     */
    predicate HasSpecificPermission(userId: string, resourceType: string, action: string,
                                    resourceId: Option<string>, now: int, storeAvailable: bool)
      reads this
      ensures HasSpecificPermission(userId, resourceType, action, resourceId, now, storeAvailable) <==>
                storeAvailable && exists g :: g in rows && GrantMatches(g, userId, resourceType, action, resourceId, now)
    {
      storeAvailable && AnyGrantMatches(rows, userId, resourceType, action, resourceId, now)
    }

    /** `getUserPermissions`: the user's unexpired rows, or None when the query fails. */
    function GetUserPermissions(userId: string, now: int, storeAvailable: bool): (r: Option<seq<Grant>>)
      reads this
      ensures storeAvailable <==> r.Some?
      ensures r.Some? ==> forall g :: g in r.value <==> g in rows && g.userId == userId && Unexpired(g, now)
      ensures r.Some? ==> IsSubsequence(r.value, rows)
    {
      if storeAvailable then Some(Filter(rows, (g: Grant) => g.userId == userId && Unexpired(g, now))) else None
    }
  }

  // ---------------------------------------------------------------------------
  // Properties of the middleware and of grants
  // ---------------------------------------------------------------------------

  /** The admin routes' `requireRole('admin')` admits exactly admins and master admins. */
  lemma AdminGateAdmitsAdminsOnly(caller: Principal)
    ensures RequireRole(Admin, Some(caller)) == Next <==> caller.role == Admin || caller.role == MasterAdmin
  {
  }

  /** An expired row never makes a check succeed. */
  lemma ExpiredGrantIsIgnored(rows: seq<Grant>, g: Grant, userId: string, resourceType: string, action: string,
                              resourceId: Option<string>, now: int)
    requires !Unexpired(g, now)
    ensures AnyGrantMatches(rows + [g], userId, resourceType, action, resourceId, now) ==
            AnyGrantMatches(rows, userId, resourceType, action, resourceId, now)
  {
    assert forall h :: h in rows + [g] <==> h in rows || h == g;
  }

  /** A type-wide row answers for every resource id, and for the no-id check. */
  lemma TypeWideGrantCoversEveryResource(g: Grant, action: string, resourceId: Option<string>, now: int)
    requires g.resourceId.None? && action in g.actions && Unexpired(g, now)
    ensures GrantMatches(g, g.userId, g.resourceType, action, resourceId, now)
  {
  }

  /** A row scoped to one resource answers only for that resource id. */
  lemma ScopedGrantCoversOnlyItsResource(g: Grant, userId: string, resourceType: string, action: string,
                                         resourceId: Option<string>, now: int)
    requires g.resourceId.Some?
    ensures GrantMatches(g, userId, resourceType, action, resourceId, now) ==> resourceId == g.resourceId
  {
  }

  /** A freshly inserted unexpired row is found by the check it was granted for. */
  lemma GrantedRowIsFound(rows: seq<Grant>, g: Grant, action: string, resourceId: Option<string>, now: int)
    requires action in g.actions && Unexpired(g, now)
    requires if Truthy(resourceId) then g.resourceId.None? || g.resourceId == resourceId else g.resourceId.None?
    ensures AnyGrantMatches(rows + [g], g.userId, g.resourceType, action, resourceId, now)
  {
    assert g in rows + [g];
  }

  /** Revoking all of a user's rows on a type, with no id, ends every check on that type. */
  lemma RevokeAllWithoutIdEndsAccess(rows: seq<Grant>, userId: string, resourceType: string, action: string,
                                     resourceId: Option<string>, now: int)
    ensures !AnyGrantMatches(Filter(rows, (g: Grant) => !RevokeTarget(g, userId, resourceType, None)),
                             userId, resourceType, action, resourceId, now)
  {
  }

  /** Revoking a user's rows on one resource id keeps their type-wide rows. */
  lemma RevokeAllWithIdKeepsTypeWideRows(rows: seq<Grant>, g: Grant, resourceId: string)
    requires g in rows && g.resourceId.None? && resourceId != ""
    ensures g in Filter(rows, (h: Grant) => !RevokeTarget(h, g.userId, g.resourceType, Some(resourceId)))
  {
  }
}
