/**
 * The `User` model: the columns of the `users` table, their nullability,
 * the unique email and the role enumeration with its default.
 */
module UserModel {
  import opened Wrappers

  /** Primary keys are auto-increment ids; the first one handed out is 1. */
  type Id = n: int | 1 <= n witness 1

  /** The ENUM('admin', 'patient', 'doctor') column. */
  datatype Role = Admin | Patient | Doctor

  /** The column's default value. */
  const DefaultRole: Role := Patient

  /** The string the ENUM column stores for a role. */
  function RoleName(r: Role): string
  {
    match r
    case Admin => "admin"
    case Patient => "patient"
    case Doctor => "doctor"
  }

  /** The role an ENUM column accepts for a string, if any: exactly the three names. */
  function ParseRole(s: string): (r: Option<Role>)
    ensures r.Some? ==> RoleName(r.value) == s
    ensures r.None? ==> forall role: Role :: RoleName(role) != s
  {
    if s == "admin" then Some(Admin)
    else if s == "patient" then Some(Patient)
    else if s == "doctor" then Some(Doctor)
    else None
  }

  /**
   * One row. `name`, `email` and `password` are NOT NULL columns and so plain
   * strings; the two reset columns are nullable, each on its own.
   */
  datatype User = User(
    name: string,
    email: string,
    password: string,
    role: Role,
    resetToken: Option<string>,
    resetTokenExpiration: Option<int>)

  /** A freshly inserted row: the nullable reset columns start out NULL. */
  function NewUser(name: string, email: string, passwordHash: string, role: Role): User
  {
    User(name, email, passwordHash, role, None, None)
  }

  /** The UNIQUE constraint on `email`. */
  ghost predicate UniqueEmails(users: map<Id, User>)
  {
    forall i, j :: i in users && j in users && i != j ==> users[i].email != users[j].email
  }

  /** Parsing a stored role name gives back the role. */
  lemma ParseRoleName(r: Role)
    ensures ParseRole(RoleName(r)) == Some(r)
  {
  }
}
