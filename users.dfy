/**
 * Users as the account services see them: the `user` table, its two
 * single-row lookups, and the password encoder. bcrypt is a pair of
 * functions given by the caller; a fresh bcrypt salt is a parameter of each
 * call that hashes.
 */
module Users {
  import opened Wrappers
  import opened Domain
  import Primitives

  /** A row of the `user` table. `deleted` is the soft-deletion time, if any. */
  datatype UserRow = UserRow(
    id: string,
    email: string,
    password: Option<string>,
    firstName: Option<Primitives.ValueObject>,
    lastName: Option<Primitives.ValueObject>,
    middleName: Option<Primitives.ValueObject>,
    deleted: Option<int>,
    isAdmin: bool,
    credentialVersion: string)

  /** `PasswordEncoder`: `hash(password, salt)` is `bcrypt.hashpw`, `check(candidate, hash)` is `bcrypt.checkpw`. */
  datatype PasswordEncoder = PasswordEncoder(hash: (string, string) -> string, check: (string, string) -> bool)

  /** Whether the encoder accepts a password against the hash it made of it with that salt. */
  predicate Recognises(enc: PasswordEncoder, password: string, salt: string)
  {
    enc.check(password, enc.hash(password, salt))
  }

  /** The `unique=True` constraint on `user.email`. */
  predicate UniqueEmails(rows: seq<UserRow>)
  {
    forall i, j :: 0 <= i < j < |rows| ==> rows[i].email != rows[j].email
  }

  predicate ByEmail(email: string, withDeleted: bool, row: UserRow)
  {
    row.email == email && (withDeleted || row.deleted.None?)
  }

  predicate ById(id: string, withDeleted: bool, row: UserRow)
  {
    row.id == id && (withDeleted || row.deleted.None?)
  }

  function ByEmailFilter(email: string, withDeleted: bool): UserRow -> bool
  {
    row => ByEmail(email, withDeleted, row)
  }

  function ByIdFilter(id: string, withDeleted: bool): UserRow -> bool
  {
    row => ById(id, withDeleted, row)
  }

  /** `get_by_email`: the position of the one user with that email (live only, unless `withDeleted`). */
  function UserByEmail(rows: seq<UserRow>, email: string, withDeleted: bool): (r: Result<Option<nat>, ServiceError>)
    ensures r.Ok? && r.value.Some? ==> r.value.value < |rows| && ByEmail(email, withDeleted, rows[r.value.value])
    ensures r == Ok(None) <==> forall i :: 0 <= i < |rows| ==> !ByEmail(email, withDeleted, rows[i])
  {
    Lookup(rows, ByEmailFilter(email, withDeleted))
  }

  /** `get`: the position of the one user with that id (live only, unless `withDeleted`). */
  function UserById(rows: seq<UserRow>, id: string, withDeleted: bool): (r: Result<Option<nat>, ServiceError>)
    ensures r.Ok? && r.value.Some? ==> r.value.value < |rows| && ById(id, withDeleted, rows[r.value.value])
    ensures r == Ok(None) <==> forall i :: 0 <= i < |rows| ==> !ById(id, withDeleted, rows[i])
  {
    Lookup(rows, ByIdFilter(id, withDeleted))
  }

  /** The users repository over the rows its session sees. A returned user is its position in `rows`. */
  class UsersRepo {
    var rows: seq<UserRow>

    constructor (rows: seq<UserRow>)
      ensures this.rows == rows
    {
      this.rows := rows;
    }

    method GetByEmail(email: string, withDeleted: bool) returns (r: Result<Option<nat>, ServiceError>)
      ensures r == UserByEmail(rows, email, withDeleted)
    {
      r := FindOne(rows, ByEmailFilter(email, withDeleted));
    }

    method Get(id: string, withDeleted: bool) returns (r: Result<Option<nat>, ServiceError>)
      ensures r == UserById(rows, id, withDeleted)
    {
      r := FindOne(rows, ByIdFilter(id, withDeleted));
    }

    method Add(user: UserRow)
      modifies this
      ensures rows == old(rows) + [user]
    {
      rows := rows + [user];
    }
  }
}
