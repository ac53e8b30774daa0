/**
 * The service-role table operations of the server: the hosted auth service's
 * user list and the `users` profile table, held in memory and changed in place
 * by user creation (with its compensating delete), role update, deletion and
 * the migration of legacy rows. Failures of the backend are parameters.
 */
module AdminStore {
  import opened Js
  import opened Schema

  /** An account of the hosted auth service. */
  datatype AuthUser = AuthUser(email: string, emailConfirmed: bool)

  /** The argument of `createUser`; `role == None` means "not given". */
  datatype NewUser = NewUser(
    email: string,
    password: string,
    username: string,
    firstName: string,
    lastName: string,
    role: Option<string>,
    company: Option<string>,
    phone: Option<string>)

  /** A row of the legacy database as handed to `migrateUser`. */
  datatype LegacyUser = LegacyUser(
    id: string,
    email: string,
    username: string,
    firstName: string,
    lastName: string,
    emailVerified: string,
    createdAt: string)

  /** `{ user, error }`: the profile row or the backend's error. */
  datatype UserResult = UserOk(user: Profile) | UserErr(error: DbError)

  /** `{ user, error, skipped }` of `migrateUser`. */
  datatype MigrateOutcome = MigrateOutcome(user: Option<Profile>, error: Option<DbError>, skipped: bool)

  /** `{ exists, error }` of `masterAdminExists` (`found` is `exists`). */
  datatype ExistsAnswer = ExistsAnswer(found: bool, failed: bool)

  /** The insert's error when the id already has a profile row. */
  const DuplicateProfile: DbError := DbError(UniqueViolation, "duplicate key value violates unique constraint")

  /** The error PostgREST's `.single()` reports when no row matched. */
  const NoRows: DbError := DbError("PGRST116", "JSON object requested, multiple (or no) rows returned")

  /** The profile `createUser` inserts: the given role or 'client', pre-verified. */
  function NewProfile(id: string, data: NewUser, createdAt: string): (p: Profile)
    ensures p.id == id && p.email == data.email && p.username == data.username
    ensures p.role == OrElse(data.role, Client)
    ensures p.emailVerified
  {
    Profile(id, data.email, data.username, data.firstName, data.lastName,
            OrElse(data.role, Client), true, createdAt, data.company, data.phone)
  }

  /** The profile `migrateUser` inserts: always a client, verified iff the legacy flag is "true". */
  function MigratedProfile(data: LegacyUser): (p: Profile)
    ensures p.id == data.id && p.email == data.email && p.username == data.username
    ensures p.role == Client
    ensures p.emailVerified <==> data.emailVerified == "true"
    ensures p.createdAt == data.createdAt
  {
    Profile(data.id, data.email, data.username, data.firstName, data.lastName,
            Client, data.emailVerified == "true", data.createdAt, None, None)
  }

  class Store {
    var authUsers: map<string, AuthUser>
    var users: map<string, Profile>

    /** Every profile is filed under its own id. */
    ghost predicate Valid()
      reads this
    {
      forall id :: id in users ==> users[id].id == id
    }

    constructor (authUsers0: map<string, AuthUser>, users0: map<string, Profile>)
      requires forall id :: id in users0 ==> users0[id].id == id
      ensures Valid() && authUsers == authUsers0 && users == users0
    {
      authUsers := authUsers0;
      users := users0;
    }

    /**
     * `createUser`. The auth service assigns `newId` (an id it does not use yet)
     * or fails with `authError`; the profile insert then fails with
     * `profileError`, or with a unique violation when the id already has a
     * profile. A failed insert deletes the new auth account again; that delete's
     * own failure (`cleanupFails`) is ignored and leaves the account behind.
     */
    method CreateUser(data: NewUser, newId: string, createdAt: string,
                      authError: Option<DbError>, profileError: Option<DbError>, cleanupFails: bool)
      returns (r: UserResult)
      requires Valid() && newId !in authUsers
      modifies this
      ensures Valid()
      ensures authError.Some? ==> r == UserErr(authError.value) && authUsers == old(authUsers) && users == old(users)
      ensures authError.None? && (profileError.Some? || newId in old(users)) ==>
                r == UserErr(if newId in old(users) then DuplicateProfile else profileError.value) &&
                users == old(users) &&
                authUsers == (if cleanupFails then old(authUsers)[newId := AuthUser(data.email, true)] else old(authUsers))
      ensures authError.None? && profileError.None? && newId !in old(users) ==>
                r == UserOk(NewProfile(newId, data, createdAt)) &&
                authUsers == old(authUsers)[newId := AuthUser(data.email, true)] &&
                users == old(users)[newId := r.user]
      // no auth account is left without a profile unless the compensating delete fails
      ensures !cleanupFails ==> forall id :: id in authUsers ==> id in old(authUsers) || id in users
    {
      if authError.Some? {
        return UserErr(authError.value);
      }
      authUsers := authUsers[newId := AuthUser(data.email, true)];
      var insertError := if newId in users then Some(DuplicateProfile) else profileError;
      if insertError.Some? {
        // compensation: remove the auth account created above, unless that fails
        if !cleanupFails {
          authUsers := authUsers - {newId};
          assert authUsers == old(authUsers);
        }
        return UserErr(insertError.value);
      }
      var profile := NewProfile(newId, data, createdAt);
      users := users[newId := profile];
      r := UserOk(profile);
    }

    /** `getUserById`: the row, or the no-rows error. */
    function GetUserById(userId: string): (r: UserResult)
      reads this
      ensures r.UserOk? <==> userId in users
      ensures r.UserOk? ==> r.user == users[userId]
    {
      if userId in users then UserOk(users[userId]) else UserErr(NoRows)
    }

    /** `updateUserRole`: only the role of the row with that id changes. */
    method UpdateUserRole(userId: string, role: string, storeAvailable: bool) returns (r: UserResult)
      requires Valid()
      modifies this`users
      ensures Valid()
      ensures r.UserOk? <==> storeAvailable && userId in old(users)
      ensures r.UserOk? ==> r.user == old(users)[userId].(role := role) && users == old(users)[userId := r.user]
      ensures r.UserErr? ==> users == old(users)
      ensures forall id :: id in users <==> id in old(users)
      ensures forall id :: id in users && id != userId ==> users[id] == old(users)[id]
    {
      if !storeAvailable {
        return UserErr(DbError("", "network error"));
      }
      if userId !in users {
        return UserErr(NoRows);
      }
      var updated := users[userId].(role := role);
      users := users[userId := updated];
      r := UserOk(updated);
    }

    /** `deleteUser`: removes the auth account; the profile follows by cascade. */
    method DeleteUser(userId: string, authError: Option<DbError>) returns (error: Option<DbError>)
      requires Valid()
      modifies this
      ensures Valid()
      ensures error == authError
      ensures authError.Some? ==> authUsers == old(authUsers) && users == old(users)
      ensures authError.None? ==> authUsers == old(authUsers) - {userId} && users == old(users) - {userId}
    {
      if authError.Some? {
        return authError;
      }
      authUsers := authUsers - {userId};
      users := users - {userId};
      error := None;
    }

    /** `masterAdminExists`: some row has role master_admin; a failed query answers "no". */
    function MasterAdminExists(storeAvailable: bool): (r: ExistsAnswer)
      reads this
      ensures r.failed <==> !storeAvailable
      ensures r.found <==> storeAvailable && exists id :: id in users && users[id].role == MasterAdmin
    {
      ExistsAnswer(storeAvailable && exists id | id in users :: users[id].role == MasterAdmin, !storeAvailable)
    }

    /**
     * `migrateUser`: an id the lookup finds is skipped without an insert. The
     * lookup's own error is dropped, so when it fails (`lookupFails`) the row
     * goes on to the insert, which an id already stored makes fail on the key.
     * Otherwise the migrated profile is inserted, or `insertError` is reported
     * and nothing changes.
     */
    method MigrateUser(data: LegacyUser, lookupFails: bool, insertError: Option<DbError>) returns (r: MigrateOutcome)
      requires Valid()
      modifies this`users
      ensures Valid()
      ensures old(data.id in users) && !lookupFails ==> r.skipped && r.error.None? && users == old(users)
      ensures old(data.id in users) && lookupFails ==>
                !r.skipped && r.error == Some(DuplicateProfile) && r.user.None? && users == old(users)
      ensures data.id !in old(users) && insertError.Some? ==>
                !r.skipped && r.error == insertError && r.user.None? && users == old(users)
      ensures data.id !in old(users) && insertError.None? ==>
                !r.skipped && r.error.None? && r.user == Some(MigratedProfile(data)) &&
                users == old(users)[data.id := MigratedProfile(data)]
      // afterwards the id has a row unless the insert failed, so a repeated call is skipped
      ensures r.error.None? ==> data.id in users
    {
      if data.id in users && !lookupFails {
        return MigrateOutcome(Some(users[data.id]), None, true);
      }
      if data.id in users {
        return MigrateOutcome(None, Some(DuplicateProfile), false);
      }
      if insertError.Some? {
        return MigrateOutcome(None, insertError, false);
      }
      var profile := MigratedProfile(data);
      users := users[data.id := profile];
      r := MigrateOutcome(Some(profile), None, false);
    }
  }
}
