/** `RegistrationService`: a new user for an email nobody has used, deleted users included. */
module Registration {
  import opened Wrappers
  import opened Domain
  import opened Users
  import Auth
  import Primitives

  /** `RegistrationInput`; `password` defaults to `None`. */
  datatype RegistrationInput = RegistrationInput(
    lastName: Primitives.ValueObject,
    firstName: Primitives.ValueObject,
    middleName: Primitives.ValueObject,
    email: string,
    password: Option<string>)

  /**
   * `register` on the rows the repository sees. `newId` is the fresh
   * `uuid4()`, `salt` the fresh bcrypt salt and `credentialVersion` the
   * column's fresh default. A password of `None` cannot be hashed
   * (`None.encode` raises) and nothing is stored.
   */
  function Registered(rows: seq<UserRow>, input: RegistrationInput, enc: PasswordEncoder, newId: string, salt: string, credentialVersion: string)
    : (r: Result<UserRow, ServiceError>)
    ensures r.Ok? <==> (forall i :: 0 <= i < |rows| ==> rows[i].email != input.email) && input.password.Some?
    ensures (exists i :: 0 <= i < |rows| && rows[i].email == input.email)
            ==> r == Err(UserCreationError) || r == Err(MultipleResultsFound)
    ensures r.Ok? ==> && r.value.id == newId && r.value.email == input.email
                      && r.value.firstName == Some(input.firstName) && r.value.lastName == Some(input.lastName)
                      && r.value.middleName == Some(input.middleName)
                      && r.value.password == Some(enc.hash(input.password.value, salt))
                      && r.value.deleted.None? && !r.value.isAdmin
  {
    match UserByEmail(rows, input.email, true)
    case Err(e) => Err(e)
    case Ok(Some(_)) => Err(UserCreationError)
    case Ok(None) =>
      if input.password.None? then Err(AttributeError)
      else Ok(UserRow(newId, input.email, Some(enc.hash(input.password.value, salt)),
                      Some(input.firstName), Some(input.lastName), Some(input.middleName), None, false, credentialVersion))
  }

  /** Once an email is registered, registering it again fails with `UserCreationError`. */
  lemma EmailTakenAfterRegister(rows: seq<UserRow>, input: RegistrationInput, again: RegistrationInput, enc: PasswordEncoder,
                                id1: string, id2: string, salt1: string, salt2: string, cv1: string, cv2: string)
    requires Registered(rows, input, enc, id1, salt1, cv1).Ok?
    requires again.email == input.email
    ensures Registered(rows + [Registered(rows, input, enc, id1, salt1, cv1).value], again, enc, id2, salt2, cv2) == Err(UserCreationError)
  {
    var all := rows + [Registered(rows, input, enc, id1, salt1, cv1).value];
    forall j | 0 <= j < |all| - 1
      ensures !ByEmail(input.email, true, all[j])
    {
      assert all[j] == rows[j];
    }
    OnlyMatch(all, ByEmailFilter(input.email, true), |all| - 1);
  }

  /** Registration keeps the emails of the `user` table unique. */
  lemma RegisterKeepsEmailsUnique(rows: seq<UserRow>, input: RegistrationInput, enc: PasswordEncoder, newId: string, salt: string, cv: string)
    requires UniqueEmails(rows) && Registered(rows, input, enc, newId, salt, cv).Ok?
    ensures UniqueEmails(rows + [Registered(rows, input, enc, newId, salt, cv).value])
  {
    var all := rows + [Registered(rows, input, enc, newId, salt, cv).value];
    forall i, j | 0 <= i < j < |all|
      ensures all[i].email != all[j].email
    {
      assert all[i] == rows[i];
      if j < |rows| {
        assert all[j] == rows[j];
      }
    }
  }

  /** A newly registered user logs in with the password given at registration. */
  lemma RegisteredUserAuthenticates(rows: seq<UserRow>, input: RegistrationInput, enc: PasswordEncoder, newId: string, salt: string, cv: string)
    requires Registered(rows, input, enc, newId, salt, cv).Ok?
    requires Recognises(enc, input.password.value, salt)
    ensures Auth.Authenticated(rows + [Registered(rows, input, enc, newId, salt, cv).value], enc, input.email, input.password.value)
            == Ok(Some(|rows|))
  {
    var all := rows + [Registered(rows, input, enc, newId, salt, cv).value];
    forall j | 0 <= j < |rows|
      ensures !ByEmail(input.email, false, all[j])
    {
      assert all[j] == rows[j];
    }
    OnlyMatch(all, ByEmailFilter(input.email, false), |rows|);
  }

  class RegistrationService {
    var events: seq<Event>

    constructor ()
      ensures events == []
    {
      events := [];
    }

    method Register(repo: UsersRepo, input: RegistrationInput, enc: PasswordEncoder, newId: string, salt: string, credentialVersion: string)
      returns (r: Result<UserRow, ServiceError>)
      modifies this, repo
      ensures r == Registered(old(repo.rows), input, enc, newId, salt, credentialVersion)
      ensures r.Ok? ==> repo.rows == old(repo.rows) + [r.value] && events == old(events) + [UserCreated(newId)]
      ensures r.Err? ==> repo.rows == old(repo.rows) && events == old(events)
    {
      var check := CheckUserDoesntExist(repo, input);
      if check.Err? {
        return Err(check.error);
      }
      if input.password.None? {
        return Err(AttributeError);
      }
      var user := UserRow(newId, input.email, Some(enc.hash(input.password.value, salt)),
                          Some(input.firstName), Some(input.lastName), Some(input.middleName), None, false, credentialVersion);
      repo.Add(user);
      events := events + [UserCreated(user.id)];
      r := Ok(user);
    }

    /** `_check_user_doesnt_exists`: any user with the email, even a deleted one, is an error. */
    method CheckUserDoesntExist(repo: UsersRepo, input: RegistrationInput) returns (r: Result<(), ServiceError>)
      ensures r.Ok? <==> UserByEmail(repo.rows, input.email, true) == Ok(None)
      ensures r.Err? ==> r.error == (if UserByEmail(repo.rows, input.email, true).Err? then MultipleResultsFound else UserCreationError)
    {
      var user := repo.GetByEmail(input.email, true);
      if user.Err? {
        return Err(user.error);
      }
      if user.value.Some? {
        return Err(UserCreationError);
      }
      r := Ok(());
    }
  }
}
