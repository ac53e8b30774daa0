/**
 * The backwards-compatible auth context: the legacy user record derived from
 * the profile, the token derived from the session, and the `login`, `signup`
 * and `logout` wrappers that turn an error result into a thrown error.
 */
module LegacyAuth {
  import opened Js
  import opened Schema
  import SupabaseAuth
  import AdminStore

  /** The legacy user record: the verification flag is the string "true" or "false". */
  datatype LegacyUser = LegacyUser(id: string, username: string, email: string, emailVerified: string, createdAt: string)

  /** How a wrapper call ends: it settles, or it throws an error with a message. */
  datatype Outcome = Settled | Thrown(message: string)

  const EmailRequired: string := "Please use your email address to login"

  /** `convertToLegacyUser`: no profile gives no user; otherwise the profile's fields, the flag as a string. */
  function ConvertToLegacyUser(userProfile: Option<Profile>): (user: Option<LegacyUser>)
    ensures user.None? <==> userProfile.None?
    ensures user.Some? ==>
              user.value.id == userProfile.value.id && user.value.username == userProfile.value.username &&
              user.value.email == userProfile.value.email && user.value.createdAt == userProfile.value.createdAt
    ensures user.Some? ==> (user.value.emailVerified == "true" <==> userProfile.value.emailVerified)
    ensures user.Some? ==> user.value.emailVerified in {"true", "false"}
  {
    match userProfile
    case None => None
    case Some(p) => Some(LegacyUser(p.id, p.username, p.email, if p.emailVerified then "true" else "false", p.createdAt))
  }

  /**
   * A profile converted to the legacy record and migrated back (with its own
   * names) keeps its identity and verification flag; it comes back a client
   * without company or phone.
   */
  lemma LegacyRecordMigratesBack(p: Profile)
    ensures var l := ConvertToLegacyUser(Some(p)).value;
            AdminStore.MigratedProfile(AdminStore.LegacyUser(l.id, l.email, l.username, p.firstName, p.lastName,
                                                             l.emailVerified, l.createdAt)) ==
            p.(role := Client, company := None, phone := None)
  {
  }

  /** `session?.access_token || null`: the access token, absent without a session or with an empty token. */
  function Token(session: Option<SupabaseAuth.Session>): (token: Option<string>)
    ensures token.Some? <==> session.Some? && session.value.accessToken != ""
    ensures token.Some? ==> token.value == session.value.accessToken
  {
    if session.Some? && session.value.accessToken != "" then Some(session.value.accessToken) else None
  }

  /** The wrappers' rethrow: an error result throws with the error's message, anything else settles. */
  function Rethrow(error: Option<SupabaseAuth.AuthError>): (outcome: Outcome)
    ensures outcome.Thrown? <==> error.Some?
    ensures outcome.Thrown? ==> outcome.message == error.value.message
  {
    if error.Some? then Thrown(error.value.message) else Settled
  }

  /**
   * `login`: an identifier without '@' throws before `signIn` is called, and
   * the auth state is untouched; otherwise `signIn`'s error is rethrown.
   */
  method Login(auth: SupabaseAuth.AuthStore, username: string, password: string, outcome: SupabaseAuth.AuthCall)
    returns (result: Outcome)
    requires SupabaseAuth.Coherent(auth.state)
    modifies auth`state
    ensures SupabaseAuth.Coherent(auth.state)
    ensures '@' !in username ==> result == Thrown(EmailRequired) && auth.state == old(auth.state)
    ensures '@' in username && !auth.configured ==>
              result == Thrown(SupabaseAuth.NotConfigured.message) &&
              auth.state == old(auth.state).(error := Some(SupabaseAuth.NotConfigured), loading := false)
    ensures '@' in username && auth.configured ==>
              (result == Settled <==> outcome.AuthSucceeded?) &&
              (!outcome.AuthSucceeded? ==> result == Thrown(outcome.error.message))
    // the session's user arrives later through the auth-state listener; the call only settles loading and error
    ensures '@' in username && auth.configured ==>
              auth.state == old(auth.state).(loading := false,
                                             error := if outcome.AuthSucceeded? then None else Some(outcome.error))
  {
    if '@' !in username {
      return Thrown(EmailRequired);
    }
    var email := username;
    var _, error := auth.SignIn(email, password, outcome);
    result := Rethrow(error);
  }

  /** `signup`: the names go on as the profile fields, with no company and no phone; an error is rethrown. */
  method Signup(auth: SupabaseAuth.AuthStore, username: string, email: string, password: string,
                firstName: string, lastName: string, outcome: SupabaseAuth.AuthCall, profileInsertFails: bool)
    returns (result: Outcome)
    requires SupabaseAuth.Coherent(auth.state)
    modifies auth`state
    ensures SupabaseAuth.Coherent(auth.state)
    ensures !auth.configured ==>
              result == Thrown(SupabaseAuth.NotConfigured.message) &&
              auth.state == old(auth.state).(error := Some(SupabaseAuth.NotConfigured), loading := false)
    ensures auth.configured ==>
              (result == Settled <==> outcome.AuthSucceeded?) &&
              (!outcome.AuthSucceeded? ==> result == Thrown(outcome.error.message))
    ensures auth.configured ==>
              auth.state == old(auth.state).(loading := false,
                                             error := if outcome.AuthSucceeded? then None else Some(outcome.error))
  {
    var data := SupabaseAuth.SignUpData(username, firstName, lastName, None, None);
    var _, error, _ := auth.SignUp(email, password, data, outcome, profileInsertFails);
    result := Rethrow(error);
  }

  /** `logout`: throws with the sign-out error's message, settles otherwise. */
  method Logout(auth: SupabaseAuth.AuthStore, signOutError: Option<SupabaseAuth.AuthError>) returns (result: Outcome)
    requires SupabaseAuth.Coherent(auth.state)
    modifies auth`state
    ensures SupabaseAuth.Coherent(auth.state)
    ensures !auth.configured ==> result == Thrown(SupabaseAuth.NotConfigured.message) && auth.state == old(auth.state)
    ensures auth.configured ==> result == Rethrow(signOutError)
    ensures auth.configured && signOutError.None? ==> auth.state == SupabaseAuth.SignedOut
    ensures auth.configured && signOutError.Some? ==>
              auth.state == old(auth.state).(loading := false, error := signOutError)
  {
    var error := auth.SignOut(signOutError);
    result := Rethrow(error);
  }
}
