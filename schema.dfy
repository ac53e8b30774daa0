/**
 * The row shapes and enums of the hosted database that the rest of the model
 * shares (the `users` table row and the `user_role` enum).
 */
module Schema {
  import opened Js

  const Client: string := "client"
  const Employee: string := "employee"
  const Admin: string := "admin"
  const MasterAdmin: string := "master_admin"

  /** The four values of the `user_role` enum, from least to most privileged. */
  const RoleOrder: seq<string> := [Client, Employee, Admin, MasterAdmin]

  predicate IsKnownRole(role: string) {
    role in RoleOrder
  }

  /**
   * The label every page shows for a role: the known roles by name, anything
   * else as a client (the `default` branch of each page's role switch).
   */
  function RoleLabel(role: string): (text: string)
    ensures role == MasterAdmin ==> text == "Master Admin"
    ensures role == Admin ==> text == "Admin"
    ensures role == Employee ==> text == "Employee"
    ensures !IsKnownRole(role) || role == Client ==> text == "Client"
    ensures role != Client ==> (text == "Client" <==> !IsKnownRole(role))
  {
    if role == MasterAdmin then "Master Admin"
    else if role == Admin then "Admin"
    else if role == Employee then "Employee"
    else "Client"
  }

  /** A row of the `users` table (the columns the modelled code reads or writes). */
  datatype Profile = Profile(
    id: string,
    email: string,
    username: string,
    firstName: string,
    lastName: string,
    role: string,
    emailVerified: bool,
    createdAt: string,
    company: Option<string>,
    phone: Option<string>)

  /** An error object returned by the backend (`{ code, message }`). */
  datatype DbError = DbError(code: string, message: string)

  /** Postgres' unique-violation SQLSTATE. */
  const UniqueViolation: string := "23505"

  /** A set of one element has no two different elements. */
  lemma SingletonIsUnique<T>(ids: set<T>)
    requires |ids| == 1
    ensures forall a, b :: a in ids && b in ids ==> a == b
  {
    var x :| x in ids;
    assert |ids - {x}| == 0;
    assert ids - {x} == {};
    forall a | a in ids
      ensures a == x
    {
      assert a !in ids - {x};
    }
  }

  /**
   * PostgREST's `.single()` over the rows with the given ids: the row when
   * exactly one matches, no row (an error) when none or several do.
   */
  function SingleRow(users: map<string, Profile>, ids: set<string>): (row: Option<Profile>)
    requires ids <= users.Keys
    ensures row.Some? <==> |ids| == 1
    ensures row.Some? ==> forall id :: id in ids ==> users[id] == row.value
  {
    if |ids| == 1 then
      SingletonIsUnique(ids);
      var id :| id in ids;
      Some(users[id])
    else None
  }
}
