/**
 * The master-admin initialisation script: it checks the environment, the
 * database connection and whether a master admin exists, and otherwise creates
 * one from the configured email and password, deriving the username and the
 * names from the email address. The connection test and the backend's
 * failures are parameters; console output is not modelled.
 */
module MasterAdminInit {
  import opened Js
  import opened Schema
  import opened Env
  import AdminStore

  const SupabaseUrlVar: string := "SUPABASE_URL"
  const ServiceRoleKeyVar: string := "SUPABASE_SERVICE_ROLE_KEY"
  const MasterAdminEmailVar: string := "MASTER_ADMIN_EMAIL"
  const MasterAdminPasswordVar: string := "MASTER_ADMIN_PASSWORD"

  /** `process.env[name]!`: the variable's value, read after the check that it is set. */
  function Configured(env: Environment, name: string): (value: string)
    ensures Present(env, name) ==> value == env[name] && value != ""
  {
    if name in env then env[name] else ""
  }

  /** The variables the script cannot run without, in the order it reports them. */
  const RequiredEnvVars: seq<string> := [SupabaseUrlVar, ServiceRoleKeyVar, MasterAdminEmailVar, MasterAdminPasswordVar]

  /** The `forEach` over the required names, pushing each one that is not set. */
  method CollectMissing(env: Environment, names: seq<string>) returns (missing: seq<string>)
    ensures missing == MissingNames(names, env)
  {
    missing := [];
    for i := 0 to |names|
      invariant missing == MissingNames(names[..i], env)
    {
      MissingNamesSnoc(names, i, env);
      missing := missing + (if Present(env, names[i]) then [] else [names[i]]);
    }
    assert names[..|names|] == names;
  }

  /** `email.split('@')[0]`: the text before the first '@', or all of it. */
  function LocalPart(email: string): (local: string)
    ensures '@' !in local
    ensures '@' !in email ==> local == email
    ensures '@' in email ==> local == email[..IndexOf(email, '@')]
  {
    SplitHead(email, '@');
    Split(email, '@')[0]
  }

  /** The username: the local part followed by "_admin"; it never holds an '@'. */
  function AdminUsername(email: string): (username: string)
    ensures '@' !in username
    ensures |username| == |LocalPart(email)| + 6 && username[|LocalPart(email)|..] == "_admin"
    ensures StartsWith(username, LocalPart(email))
  {
    LocalPart(email) + "_admin"
  }

  /**
   * `part?.charAt(0).toUpperCase() + part?.slice(1) || fallback`: a missing
   * part (NaN) and an empty part ("") both give the fallback.
   */
  function NamePart(part: Option<string>, fallback: string): (name: string)
    ensures Truthy(part) ==> |name| == |part.value| && name[0] == UpperChar(part.value[0]) && name[1..] == part.value[1..]
    ensures !Truthy(part) ==> name == fallback
  {
    if Truthy(part) then Capitalize(part.value) else fallback
  }

  /**
   * The first name: the text of the local part before its first '.',
   * capitalised, or "Master" when that text is empty.
   */
  function FirstNameFromEmail(email: string): (first: string)
    ensures first != ""
    ensures var local := LocalPart(email);
            var head := if '.' in local then local[..IndexOf(local, '.')] else local;
            first == if head == "" then "Master" else Capitalize(head)
  {
    var local := LocalPart(email);
    SplitHead(local, '.');
    var parts := Split(local, '.');
    NamePart(Some(parts[0]), "Master")
  }

  /**
   * The last name: the text between the first and the second '.' of the local
   * part (or to its end), capitalised, or "Admin" when there is no '.' or that
   * text is empty. Any further parts are ignored.
   */
  function LastNameFromEmail(email: string): (last: string)
    ensures last != ""
    ensures '.' !in LocalPart(email) ==> last == "Admin"
    ensures var local := LocalPart(email);
            '.' in local ==>
              var rest := local[IndexOf(local, '.') + 1..];
              var second := if '.' in rest then rest[..IndexOf(rest, '.')] else rest;
              last == if second == "" then "Admin" else Capitalize(second)
  {
    var local := LocalPart(email);
    SplitHead(local, '.');
    var parts := Split(local, '.');
    if '.' in local then
      SplitHead(local[IndexOf(local, '.') + 1..], '.');
      NamePart(Some(parts[1]), "Admin")
    else
      NamePart(None, "Admin")
  }

  /**
   * An address `first.last@domain` (no further dots or '@' in the names)
   * gives the names capitalised and the username `first.last_admin`.
   */
  lemma AdminNamesFromDottedAddress(first: string, last: string, domain: string)
    requires first != "" && last != ""
    requires '.' !in first && '.' !in last && '@' !in first && '@' !in last
    ensures var email := first + "." + last + "@" + domain;
            FirstNameFromEmail(email) == Capitalize(first) &&
            LastNameFromEmail(email) == Capitalize(last) &&
            AdminUsername(email) == first + "." + last + "_admin"
  {
    var local := first + "." + last;
    var email := local + "@" + domain;
    assert email == first + "." + last + "@" + domain;
    assert email[..|local|] == local;
    IndexOfFirst(email, '@', |local|);
    assert LocalPart(email) == local;
    assert local[..|first|] == first;
    IndexOfFirst(local, '.', |first|);
    SplitHead(local, '.');
    assert local[|first| + 1..] == last;
    var parts := Split(local, '.');
    assert parts[0] == first && parts[1..] == [last];
  }

  /** How the script ends; `AlreadyInitialised` and `Created` are its two successes. */
  datatype InitOutcome =
    | MissingEnv(names: seq<string>)
    | ConnectionFailed(reason: string, error: Option<DbError>)
    | ExistsCheckFailed
    | AlreadyInitialised(user: Profile)
    | ExistingAdminDiffers(existingEmail: Option<string>)
    | CreateFailed(createError: DbError)
    | Created(user: Profile)

  predicate Succeeded(outcome: InitOutcome) {
    outcome.AlreadyInitialised? || outcome.Created?
  }

  /** `connectionError?.message || 'Unknown error'` */
  function ConnectionFailureReason(connectionError: Option<DbError>): (reason: string)
    ensures connectionError.Some? && connectionError.value.message != "" ==> reason == connectionError.value.message
    ensures connectionError.None? || connectionError.value.message == "" ==> reason == "Unknown error"
  {
    OrElse(if connectionError.Some? then Some(connectionError.value.message) else None, "Unknown error")
  }

  /** The ids of the master-admin rows. */
  function MasterAdminIds(users: map<string, Profile>): (ids: set<string>)
    ensures forall id :: id in ids <==> id in users && users[id].role == MasterAdmin
  {
    set id | id in users && users[id].role == MasterAdmin
  }

  /**
   * `.eq('role', 'master_admin').single()`: the master-admin row when there is
   * exactly one, no row when there are none or several.
   */
  function SingleMasterAdmin(users: map<string, Profile>): (row: Option<Profile>)
    ensures row.Some? <==> |MasterAdminIds(users)| == 1
    ensures row.Some? ==> row.value.role == MasterAdmin && exists id :: id in users && users[id] == row.value
  {
    var ids := MasterAdminIds(users);
    var row := SingleRow(users, ids);
    if row.Some? then
      var id :| id in ids;
      row
    else row
  }

  /**
   * The decision on an existing master admin, as intended: success exactly when
   * the row read back has the configured email; otherwise the failure names the
   * email found, if any.
   */
  function ExistingAdminOutcome(existingUser: Option<Profile>, email: string): (outcome: InitOutcome)
    ensures Succeeded(outcome) <==> existingUser.Some? && existingUser.value.email == email
    ensures outcome.AlreadyInitialised? ==> outcome.user == existingUser.value
    ensures !Succeeded(outcome) ==>
              outcome.ExistingAdminDiffers? &&
              (outcome.existingEmail.Some? <==> existingUser.Some?) &&
              (existingUser.Some? ==> outcome.existingEmail.value == existingUser.value.email)
  {
    match existingUser
    case Some(u) => if u.email == email then AlreadyInitialised(u) else ExistingAdminDiffers(Some(u.email))
    case None => ExistingAdminDiffers(None)
  }

  /**
   * The decision as written: the query result is destructured as `{ user }`,
   * a field the response does not have, so the existing user is always
   * undefined and the run fails even when the configured admin exists.
   */
  function ExistingAdminOutcomeAsWritten(row: Option<Profile>, email: string): (outcome: InitOutcome)
    ensures outcome == ExistingAdminDiffers(None)
  {
    var existingUser: Option<Profile> := None;
    ExistingAdminOutcome(existingUser, email)
  }

  /** A rerun with the configured master admin in place fails as written and succeeds as intended. */
  lemma ExistingAdminIsNeverRecognised(users: map<string, Profile>, email: string)
    requires |MasterAdminIds(users)| == 1
    requires SingleMasterAdmin(users).value.email == email
    ensures Succeeded(ExistingAdminOutcome(SingleMasterAdmin(users), email))
    ensures !Succeeded(ExistingAdminOutcomeAsWritten(SingleMasterAdmin(users), email))
  {
  }

  /** Every required variable is set. */
  predicate EnvComplete(env: Environment) {
    MissingNames(RequiredEnvVars, env) == []
  }

  /**
   * `initializeMasterAdmin`, with the existing-admin decision as intended.
   * `connected` and `connectionError` are the connection test's answer,
   * `storeAvailable` whether the existence query succeeds, and `newId`,
   * `createdAt`, `authError`, `profileError`, `cleanupFails` what `createUser` meets.
   */
  method InitializeMasterAdmin(store: AdminStore.Store, env: Environment,
                               connected: bool, connectionError: Option<DbError>, storeAvailable: bool,
                               newId: string, createdAt: string,
                               authError: Option<DbError>, profileError: Option<DbError>, cleanupFails: bool)
    returns (outcome: InitOutcome)
    requires store.Valid() && newId !in store.authUsers
    modifies store
    ensures store.Valid()
    ensures outcome.MissingEnv? <==> !EnvComplete(env)
    ensures outcome.MissingEnv? ==> outcome.names == MissingNames(RequiredEnvVars, env)
    ensures outcome.ConnectionFailed? <==> EnvComplete(env) && !connected
    ensures outcome.ConnectionFailed? ==> outcome == ConnectionFailed(ConnectionFailureReason(connectionError), connectionError)
    ensures outcome.ExistsCheckFailed? <==> EnvComplete(env) && connected && !storeAvailable
    ensures EnvComplete(env) && connected && storeAvailable && MasterAdminIds(old(store.users)) != {} ==>
              outcome == ExistingAdminOutcome(SingleMasterAdmin(old(store.users)), Configured(env, MasterAdminEmailVar))
    ensures outcome.Created? ==> MasterAdminIds(old(store.users)) == {}
    // with no master admin yet, the creation happens exactly when createUser meets no error
    ensures EnvComplete(env) && connected && storeAvailable && MasterAdminIds(old(store.users)) == {} ==>
              (outcome.Created? <==> authError.None? && profileError.None? && newId !in old(store.users))
    ensures outcome.CreateFailed? ==>
              outcome.createError == (if authError.Some? then authError.value
                                else if newId in old(store.users) then AdminStore.DuplicateProfile
                                else profileError.value)
    ensures outcome.Created? ==>
              outcome.user.id == newId && outcome.user.role == MasterAdmin &&
              outcome.user.email == Configured(env, MasterAdminEmailVar) &&
              outcome.user.username == AdminUsername(Configured(env, MasterAdminEmailVar)) &&
              outcome.user.firstName == FirstNameFromEmail(Configured(env, MasterAdminEmailVar)) &&
              outcome.user.lastName == LastNameFromEmail(Configured(env, MasterAdminEmailVar)) &&
              store.users == old(store.users)[newId := outcome.user]
    ensures !outcome.Created? ==> store.users == old(store.users)
    // only a failed creation whose compensating delete also fails leaves an auth account behind
    ensures !outcome.Created? && !(outcome.CreateFailed? && cleanupFails) ==> store.authUsers == old(store.authUsers)
    // after a successful run the store holds a master admin with the configured email
    ensures Succeeded(outcome) ==>
              exists id :: id in store.users && store.users[id].role == MasterAdmin &&
                           store.users[id].email == Configured(env, MasterAdminEmailVar)
  {
    var missingVars := CollectMissing(env, RequiredEnvVars);
    if |missingVars| > 0 {
      return MissingEnv(missingVars);
    }
    NothingMissingMeansAllPresent(RequiredEnvVars, env);
    assert RequiredEnvVars[2] == MasterAdminEmailVar && RequiredEnvVars[3] == MasterAdminPasswordVar;
    var email := Configured(env, MasterAdminEmailVar);
    var password := Configured(env, MasterAdminPasswordVar);

    if !connected {
      return ConnectionFailed(ConnectionFailureReason(connectionError), connectionError);
    }

    var answer := store.MasterAdminExists(storeAvailable);
    if answer.failed {
      return ExistsCheckFailed;
    }
    if answer.found {
      var someId :| someId in store.users && store.users[someId].role == MasterAdmin;
      assert someId in MasterAdminIds(store.users);
      var existingUser := SingleMasterAdmin(store.users);
      return ExistingAdminOutcome(existingUser, email);
    }
    assert MasterAdminIds(store.users) == {};

    var data := AdminStore.NewUser(email, password, AdminUsername(email),
                                   FirstNameFromEmail(email), LastNameFromEmail(email),
                                   Some(MasterAdmin), None, None);
    var r := store.CreateUser(data, newId, createdAt, authError, profileError, cleanupFails);
    if r.UserErr? {
      return CreateFailed(r.error);
    }
    assert store.users[newId] == r.user;
    outcome := Created(r.user);
  }
}
