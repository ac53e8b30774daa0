/**
 * The request boundary of the server: bearer-token extraction into `req.user`,
 * the `requireAuth` gate, the admin route gate, role-based project visibility,
 * the login and signup handlers, and the status codes of the public forms.
 * The auth service and the `users` table are in-memory maps.
 */
module Routes {
  import opened Js
  import opened Schema
  import Permissions
  import AdminStore

  // ---------------------------------------------------------------------------
  // Bearer token and req.user
  // ---------------------------------------------------------------------------

  const BearerPrefix: string := "Bearer "

  /** The token of an `Authorization` header: what follows "Bearer ", if it starts so. */
  function BearerToken(header: Option<string>): (token: Option<string>)
    ensures token.Some? <==> header.Some? && StartsWith(header.value, BearerPrefix)
    ensures token.Some? ==> header.value == BearerPrefix + token.value
  {
    if Truthy(header) && StartsWith(header.value, BearerPrefix) then
      assert header.value == header.value[..7] + header.value[7..];
      Some(header.value[7..])
    else None
  }

  /** Every token round-trips through its header. */
  lemma BearerTokenRoundTrip(token: string)
    ensures BearerToken(Some(BearerPrefix + token)) == Some(token)
  {
    assert (BearerPrefix + token)[..|BearerPrefix|] == BearerPrefix;
    assert (BearerPrefix + token)[7..] == token;
  }

  /** The account a token belongs to, as the auth service reports it. */
  datatype AuthIdentity = AuthIdentity(id: string, email: string)

  /** An incoming request: its `Authorization` header and the `req.user` the middleware sets. */
  class Request {
    const authorization: Option<string>
    var user: Option<Profile>

    constructor (authorization: Option<string>)
      ensures this.authorization == authorization && user.None?
    {
      this.authorization := authorization;
      user := None;
    }

    /**
     * `extractSupabaseUser`: `req.user` becomes the caller's profile when the
     * header carries a bearer token the auth service knows and that account
     * has a profile row; on every other path it becomes null, and the request
     * always proceeds. The profile's own fields win over the auth account's
     * (`{ id, email, ...userProfile }`).
     */
    method ExtractSupabaseUser(sessions: map<string, AuthIdentity>, profiles: map<string, Profile>, backendAvailable: bool)
      modifies this`user
      ensures var token := BearerToken(authorization);
              user.Some? <==> backendAvailable && token.Some? && token.value in sessions && sessions[token.value].id in profiles
      ensures user.Some? ==> user == Some(profiles[sessions[BearerToken(authorization).value].id])
    {
      if !backendAvailable {
        // the catch branch
        user := None;
        return;
      }
      if !Truthy(authorization) || !StartsWith(authorization.value, BearerPrefix) {
        user := None;
        return;
      }
      var token := authorization.value[7..];
      assert BearerToken(authorization) == Some(token);
      if token !in sessions {
        user := None;
        return;
      }
      var identity := sessions[token];
      if identity.id !in profiles {
        user := None;
        return;
      }
      var profile := profiles[identity.id];
      user := Some(profile);
    }
  }

  /** The principal the permission middlewares read from `req.user`. */
  function PrincipalOf(user: Option<Profile>): (p: Option<Permissions.Principal>)
    ensures p.Some? <==> user.Some?
    ensures p.Some? ==> p.value.id == user.value.id && p.value.role == user.value.role
  {
    if user.Some? then Some(Permissions.Principal(user.value.id, user.value.role)) else None
  }

  /** `requireAuth`: 401 exactly when there is no `req.user`. */
  function RequireAuth(user: Option<Profile>): (d: Permissions.Decision)
    ensures d == Permissions.Next <==> user.Some?
    ensures d.Reject? ==> d.status == 401
  {
    if user.None? then Permissions.Reject(401, Permissions.AuthenticationRequired, None, None)
    else Permissions.Next
  }

  /** The admin routes: `requireAuth` followed by `requireRole('admin')`. */
  function AdminGate(user: Option<Profile>): (d: Permissions.Decision)
    ensures d == Permissions.Next <==> user.Some? && (user.value.role == Admin || user.value.role == MasterAdmin)
    ensures d.Reject? && d.status == 401 <==> user.None? || user.value.role == ""
  {
    var auth := RequireAuth(user);
    if auth.Reject? then auth
    else
      Permissions.AdminGateAdmitsAdminsOnly(PrincipalOf(user).value);
      Permissions.RequireRole(Admin, PrincipalOf(user))
  }

  // ---------------------------------------------------------------------------
  // Project visibility
  // ---------------------------------------------------------------------------

  /** A row of `projects` (the columns the filter reads). */
  datatype Project = Project(id: string, clientId: Option<string>, assignedTeamMembers: seq<string>)

  /** The filter `/api/projects` adds for the caller's role. */
  datatype ProjectFilter = ByClient(clientId: string) | ByTeamMember(memberId: string) | Unfiltered

  function ProjectFilterFor(user: Profile): (f: ProjectFilter)
    ensures user.role == Client ==> f == ByClient(user.id)
    ensures user.role == Employee ==> f == ByTeamMember(user.id)
    ensures user.role != Client && user.role != Employee ==> f == Unfiltered
  {
    if user.role == Client then ByClient(user.id)
    else if user.role == Employee then ByTeamMember(user.id)
    else Unfiltered
  }

  predicate PassesFilter(f: ProjectFilter, p: Project) {
    match f
    case ByClient(id) => p.clientId == Some(id)
    case ByTeamMember(id) => id in p.assignedTeamMembers
    case Unfiltered => true
  }

  /** The projects `/api/projects` returns to the caller (before ordering). */
  function VisibleProjects(projects: seq<Project>, user: Profile): (visible: seq<Project>)
    ensures IsSubsequence(visible, projects)
    ensures forall p :: p in visible <==> p in projects && PassesFilter(ProjectFilterFor(user), p)
  {
    Filter(projects, (p: Project) => PassesFilter(ProjectFilterFor(user), p))
  }

  /**
   * A client sees exactly its own projects, an employee exactly those it is
   * assigned to, and admins and master admins every project.
   */
  lemma ProjectVisibilityByRole(projects: seq<Project>, user: Profile, p: Project)
    requires p in projects
    ensures user.role == Client ==> (p in VisibleProjects(projects, user) <==> p.clientId == Some(user.id))
    ensures user.role == Employee ==> (p in VisibleProjects(projects, user) <==> user.id in p.assignedTeamMembers)
    ensures Permissions.HasRoleLevel(user.role, Admin) ==> p in VisibleProjects(projects, user)
  {
  }

  /** Admins and master admins get the whole list, in its order. */
  lemma AdminsSeeAllProjects(projects: seq<Project>, user: Profile)
    requires user.role == Admin || user.role == MasterAdmin
    ensures VisibleProjects(projects, user) == projects
  {
  }

  // ---------------------------------------------------------------------------
  // Login and signup
  // ---------------------------------------------------------------------------

  /** The ids of the rows holding a username. */
  function UsernameOwners(users: map<string, Profile>, username: string): (owners: set<string>)
    ensures forall id :: id in owners <==> id in users && users[id].username == username
  {
    set id | id in users && users[id].username == username
  }

  /**
   * `.eq('username', username).single()`: the row holding the username when
   * exactly one row does; no row when none or several do.
   */
  function UsernameRow(users: map<string, Profile>, username: string): (row: Option<Profile>)
    ensures row.Some? <==> |UsernameOwners(users, username)| == 1
    ensures row.Some? ==> row.value.username == username
    ensures row.Some? ==> forall id :: id in users && users[id].username == username ==> users[id] == row.value
  {
    SingleRow(users, UsernameOwners(users, username))
  }

  /**
   * The email a login identifier stands for: the identifier itself when it
   * contains '@'; otherwise the email of the one row with that username, and
   * none when no row or several rows hold it.
   */
  function LoginEmail(identifier: string, users: map<string, Profile>): (email: Option<string>)
    ensures Includes(identifier, "@") ==> email == Some(identifier)
    ensures !Includes(identifier, "@") ==> (email.Some? <==> |UsernameOwners(users, identifier)| == 1)
    ensures !Includes(identifier, "@") && email.Some? ==>
              forall id :: id in users && users[id].username == identifier ==> users[id].email == email.value
  {
    if Includes(identifier, "@") then Some(identifier)
    else
      var row := UsernameRow(users, identifier);
      if row.Some? then Some(row.value.email) else None
  }

  /** Logging in with a username, or with the email of the one row holding it, uses the same email. */
  lemma UsernameAndEmailLoginAgree(users: map<string, Profile>, id: string)
    requires id in users && !Includes(users[id].username, "@") && Includes(users[id].email, "@")
    requires |UsernameOwners(users, users[id].username)| == 1
    ensures LoginEmail(users[id].username, users) == LoginEmail(users[id].email, users) == Some(users[id].email)
  {
  }

  /** An account of the auth service: its password and the access token a sign-in yields. */
  datatype Account = Account(identity: AuthIdentity, password: string, accessToken: string)

  /** A JSON answer of a handler. */
  datatype Response = Response(status: int, message: string, user: Option<Profile>, token: Option<string>)

  const InvalidCredentials: string := "Invalid credentials"
  const ProfileNotFound: string := "User profile not found"
  const AllFieldsRequired: string := "All fields are required"
  const CredentialsRequired: string := "Username/email and password are required"
  const UsernameExists: string := "Username already exists"
  const LoginSucceeded: string := "Login successful"
  const LoginFailed: string := "Failed to login"
  const AccountCreated: string := "Account created successfully! You can now log in."
  const SignupFailed: string := "Failed to create account"

  /**
   * `POST /api/auth/login`. An identifier with '@' is the email; any other is
   * a username whose single row supplies the email, and a username that does
   * not name exactly one row is refused before any password is checked.
   * `accounts` is the auth service, keyed by email; `backendThrows` is a
   * backend call that throws, which the handler answers with 500.
   */
  method Login(username: Option<string>, password: Option<string>, users: map<string, Profile>,
               accounts: map<string, Account>, backendThrows: bool)
    returns (r: Response)
    ensures !Truthy(username) || !Truthy(password) ==> r == Response(400, CredentialsRequired, None, None)
    ensures Truthy(username) && Truthy(password) && backendThrows ==> r == Response(500, LoginFailed, None, None)
    ensures Truthy(username) && Truthy(password) && !backendThrows ==>
              var email := LoginEmail(username.value, users);
              if email.None? || email.value !in accounts || accounts[email.value].password != password.value then
                r == Response(401, InvalidCredentials, None, None)
              else if accounts[email.value].identity.id !in users then
                r == Response(401, ProfileNotFound, None, None)
              else
                r == Response(200, LoginSucceeded, Some(users[accounts[email.value].identity.id]),
                              Some(accounts[email.value].accessToken))
    ensures r.status in {200, 400, 401, 500}
  {
    if !Truthy(username) || !Truthy(password) {
      return Response(400, CredentialsRequired, None, None);
    }
    if backendThrows {
      return Response(500, LoginFailed, None, None);
    }
    var email := username.value;
    if !Includes(username.value, "@") {
      var row := UsernameRow(users, username.value);
      if row.None? {
        return Response(401, InvalidCredentials, None, None);
      }
      email := row.value.email;
    }
    if email !in accounts || accounts[email].password != password.value {
      return Response(401, InvalidCredentials, None, None);
    }
    var account := accounts[email];
    if account.identity.id !in users {
      return Response(401, ProfileNotFound, None, None);
    }
    r := Response(200, LoginSucceeded, Some(users[account.identity.id]), Some(account.accessToken));
  }

  /** `error.message || "Failed to create account"` */
  function CreateErrorMessage(error: DbError): (message: string)
    ensures error.message != "" ==> message == error.message
    ensures error.message == "" ==> message == SignupFailed
  {
    OrElse(Some(error.message), SignupFailed)
  }

  /** The `createUser` argument of the signup handler: the given fields and the client role. */
  function SignupUser(username: string, email: string, password: string, firstName: string, lastName: string)
    : (data: AdminStore.NewUser)
    ensures data.email == email && data.password == password && data.username == username
    ensures data.firstName == firstName && data.lastName == lastName
    ensures data.role == Some(Client) && data.company.None? && data.phone.None?
  {
    AdminStore.NewUser(email, password, username, firstName, lastName, Some(Client), None, None)
  }

  /**
   * `POST /api/auth/signup`: all five fields must be truthy (400); a backend
   * call that throws gives 500; a username held by exactly one row is refused
   * (409); otherwise `createUser` with role client, whose error becomes a 400.
   */
  method Signup(store: AdminStore.Store, username: Option<string>, email: Option<string>, password: Option<string>,
                firstName: Option<string>, lastName: Option<string>, backendThrows: bool,
                newId: string, createdAt: string, authError: Option<DbError>, profileError: Option<DbError>,
                cleanupFails: bool)
    returns (r: Response)
    requires store.Valid() && newId !in store.authUsers
    modifies store
    ensures store.Valid()
    ensures !(Truthy(username) && Truthy(email) && Truthy(password) && Truthy(firstName) && Truthy(lastName)) ==>
              r == Response(400, AllFieldsRequired, None, None)
    ensures Truthy(username) && Truthy(email) && Truthy(password) && Truthy(firstName) && Truthy(lastName) ==>
              if backendThrows then
                r == Response(500, SignupFailed, None, None)
              else if UsernameRow(old(store.users), username.value).Some? then
                r == Response(409, UsernameExists, None, None)
              else if authError.Some? then
                r == Response(400, CreateErrorMessage(authError.value), None, None)
              else if profileError.Some? || newId in old(store.users) then
                r == Response(400, CreateErrorMessage(if newId in old(store.users) then AdminStore.DuplicateProfile
                                                      else profileError.value), None, None)
              else
                r == Response(200, AccountCreated,
                              Some(AdminStore.NewProfile(newId, SignupUser(username.value, email.value, password.value,
                                                                           firstName.value, lastName.value), createdAt)),
                              None)
    ensures r.status == 200 ==>
              r.user.Some? && newId in store.users && store.users[newId] == r.user.value &&
              r.user.value.role == Client && r.user.value.username == username.value &&
              store.users == old(store.users)[newId := r.user.value]
    ensures r.status != 200 ==> store.users == old(store.users)
    // an auth account is left behind only when the profile insert and its compensating delete both fail
    ensures r.status != 200 && !cleanupFails ==> store.authUsers == old(store.authUsers)
    ensures r.status in {200, 400, 409, 500}
  {
    if !(Truthy(username) && Truthy(email) && Truthy(password) && Truthy(firstName) && Truthy(lastName)) {
      return Response(400, AllFieldsRequired, None, None);
    }
    if backendThrows {
      return Response(500, SignupFailed, None, None);
    }
    if UsernameRow(store.users, username.value).Some? {
      return Response(409, UsernameExists, None, None);
    }
    var data := SignupUser(username.value, email.value, password.value, firstName.value, lastName.value);
    var created := store.CreateUser(data, newId, createdAt, authError, profileError, cleanupFails);
    if created.UserErr? {
      return Response(400, CreateErrorMessage(created.error), None, None);
    }
    r := Response(200, AccountCreated, Some(created.user), None);
  }

  // ---------------------------------------------------------------------------
  // Public forms
  // ---------------------------------------------------------------------------

  /** `POST /api/newsletter`: invalid body 400, a duplicate email 409, another insert error 500. */
  function NewsletterStatus(bodyValid: bool, insertError: Option<DbError>): (status: int)
    ensures !bodyValid ==> status == 400
    ensures bodyValid && insertError.None? ==> status == 200
    ensures bodyValid && insertError.Some? ==> (status == 409 <==> insertError.value.code == UniqueViolation)
    ensures bodyValid && insertError.Some? ==> status in {409, 500}
  {
    if !bodyValid then 400
    else if insertError.None? then 200
    else if insertError.value.code == UniqueViolation then 409
    else 500
  }

  /** `POST /api/contact`: invalid body 400, any insert error 500. */
  function ContactStatus(bodyValid: bool, insertError: Option<DbError>): (status: int)
    ensures !bodyValid ==> status == 400
    ensures bodyValid ==> (status == 200 <==> insertError.None?)
    ensures bodyValid && insertError.Some? ==> status == 500
  {
    if !bodyValid then 400
    else if insertError.None? then 200
    else 500
  }

  /** Only the newsletter form turns a unique violation into a conflict. */
  lemma UniqueViolationIsConflictOnlyForNewsletter(message: string)
    ensures NewsletterStatus(true, Some(DbError(UniqueViolation, message))) == 409
    ensures ContactStatus(true, Some(DbError(UniqueViolation, message))) == 500
  {
  }
}
