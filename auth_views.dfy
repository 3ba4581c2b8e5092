/**
 * The decisions of src/backend/authentication/views.py: `register`, `login`, `logout` and
 * `profile`. Issuing and blacklisting JWT tokens and the bcrypt check are not modelled:
 * a session stands for the issued tokens, and `check_password` is the parameter
 * `checkPassword`, applied to the raw password and the stored digest.
 */
module AuthViews {
  import opened Wrappers
  import opened Permissions
  import opened Accounts
  import opened AuthSerializers

  /** A login payload that passed `LoginSerializer`. */
  datatype Credentials = Credentials(email: string, password: string)

  /** Why `login` refused: 400 for an invalid payload, 401 with one of two messages otherwise. */
  datatype LoginError = InvalidPayload | WrongCredentials | Deactivated

  /** The identical message of an unknown email and a wrong password. */
  const WrongCredentialsMessage := "wrong email or password"
  const DeactivatedMessage := "account is deactivated"

  function LoginStatus(e: LoginError): nat {
    if e == InvalidPayload then 400 else 401
  }

  function LoginMessage(e: LoginError): string {
    if e == Deactivated then DeactivatedMessage else WrongCredentialsMessage
  }

  /** `get_tokens_for_user`: the tokens name the user and carry the email claim. */
  datatype Session = Session(userId: UserId, email: string)

  /** `UserProfileSerializer(user).data`. */
  datatype ProfileData = ProfileData(
    id: UserId, email: string, firstName: string, lastName: string, patronymic: string,
    fullName: string, isActive: bool)

  function ProfileOf(u: User): ProfileData
    reads u
  {
    ProfileData(u.id, u.email, u.firstName, u.lastName, u.patronymic, u.FullName(), u.isActive)
  }

  /**
   * `login`: 400 for an invalid payload; 401 with the same message for an unknown email
   * and for a wrong password; the password is checked before `is_active`, so only a correct
   * password learns that the account is deactivated; otherwise tokens for the user.
   */
  function Login(table: UserTable, payload: Option<Credentials>, checkPassword: (string, Option<string>) -> bool)
    : (r: Result<Session, LoginError>)
    reads table, table.rows
    ensures payload.None? <==> r == Failure(InvalidPayload)
    ensures payload.Some? && payload.value.email !in table.Emails() ==> r == Failure(WrongCredentials)
    ensures r.Success? || r == Failure(Deactivated) ==>
      && payload.Some?
      && var u := FindEmail(table.rows, payload.value.email);
         u.Some? && u.value in table.rows && checkPassword(payload.value.password, u.value.password)
         && (r.Success? <==> u.value.isActive)
         && (r.Success? ==> r.value == Session(u.value.id, payload.value.email))
    ensures payload.Some? && FindEmail(table.rows, payload.value.email).Some?
            && !checkPassword(payload.value.password, FindEmail(table.rows, payload.value.email).value.password)
            ==> r == Failure(WrongCredentials)
    ensures payload.Some? && FindEmail(table.rows, payload.value.email).Some?
            && checkPassword(payload.value.password, FindEmail(table.rows, payload.value.email).value.password)
            && FindEmail(table.rows, payload.value.email).value.isActive
            ==> r == Success(Session(FindEmail(table.rows, payload.value.email).value.id, payload.value.email))
  {
    if payload.None? then Failure(InvalidPayload)
    else
      var found := FindEmail(table.rows, payload.value.email);
      if found.None? then
        assert payload.value.email !in table.Emails();
        Failure(WrongCredentials)
      else if !checkPassword(payload.value.password, found.value.password) then Failure(WrongCredentials)
      else if !found.value.isActive then Failure(Deactivated)
      else Success(Session(found.value.id, found.value.email))
  }

  /** In a table with unique emails, the user `login` finds is the one holding that email. */
  lemma FindsTheUser(table: UserTable, u: User)
    requires table.Valid() && u in table.rows
    ensures FindEmail(table.rows, u.email) == Some(u)
  {
    var found := FindEmail(table.rows, u.email).value;
    var i :| 0 <= i < |table.rows| && table.rows[i] == u;
    var j :| 0 <= j < |table.rows| && table.rows[j] == found;
    if i != j {
      assert table.rows[i].email == table.rows[j].email;
    }
  }

  /**
   * An unknown email and a wrong password get the same status and message, so the answer
   * does not reveal which emails are registered; only a stored user whose password is
   * right can hear that the account is deactivated.
   */
  lemma LoginDoesNotRevealEmails(table: UserTable, c: Credentials, checkPassword: (string, Option<string>) -> bool)
    requires table.Valid()
    ensures c.email !in table.Emails() ==> Login(table, Some(c), checkPassword) == Failure(WrongCredentials)
    ensures forall u :: u in table.rows && u.email == c.email && !checkPassword(c.password, u.password)
                        ==> Login(table, Some(c), checkPassword) == Failure(WrongCredentials)
    ensures Login(table, Some(c), checkPassword) == Failure(Deactivated)
            <==> exists u :: u in table.rows && u.email == c.email && checkPassword(c.password, u.password) && !u.isActive
    ensures LoginStatus(WrongCredentials) == LoginStatus(Deactivated) == 401
  {
    forall u | u in table.rows && u.email == c.email
      ensures FindEmail(table.rows, c.email) == Some(u)
    {
      FindsTheUser(table, u);
    }
  }

  /** `register`: 201 with the new user's profile for a valid payload, 400 with the errors otherwise. */
  method Register(table: UserTable, data: RegisterData, digest: string)
    returns (r: Result<ProfileData, map<Field, FieldError>>)
    requires table.Valid()
    modifies table
    ensures table.Valid()
    ensures r.Success? <==> ValidateRegistration(data, old(table.Emails())).Success?
    ensures r.Failure? ==> r.error == ValidateRegistration(data, old(table.Emails())).error
                           && table.rows == old(table.rows)
    ensures r.Success? ==>
      && data.email.Some? && data.password.Some?
      && |table.rows| == |old(table.rows)| + 1 && table.rows[..|old(table.rows)|] == old(table.rows)
      && var u := table.rows[|old(table.rows)|];
         fresh(u) && u.email == data.email.value && u.password == Some(digest) && u.isActive
         && r.value == ProfileOf(u)
    ensures forall u :: u in old(table.rows) ==> u.Record() == old(u.Record())
  {
    var valid := ValidateRegistration(data, table.Emails());
    if valid.Failure? {
      return Failure(valid.error);
    }
    RegistrationAccepts(data, table.Emails());
    var created := CreateAccount(table, valid.value, digest);
    var u := created.value;
    assert table.rows[|old(table.rows)|] == u;
    r := Success(ProfileOf(u));
  }

  /** The HTTP status `register` answers with. */
  function RegisterStatus<T, E>(r: Result<T, E>): nat {
    if r.Success? then 201 else 400
  }

  /** `logout`'s outcome of the blacklisting attempt, which it swallows. */
  datatype Blacklisting = NoRefreshToken | Blacklisted | Raised

  datatype Response = Response(status: nat, message: string)

  const LoggedOutMessage := "logged out"

  /** `logout`: whatever blacklisting did, the answer is the success message. */
  function Logout(attempt: Blacklisting): (r: Response)
    ensures r.status == 200 && r.message == LoggedOutMessage
  {
    match attempt
    case NoRefreshToken => Response(200, LoggedOutMessage)
    case Blacklisted => Response(200, LoggedOutMessage)
    case Raised => Response(200, LoggedOutMessage)
  }

  datatype ProfileRequest = GetProfile | PutProfile(data: map<string, string>) | DeleteProfile

  /** What `profile` answers with HTTP 200. */
  datatype ProfileAnswer = ProfileBody(profile: ProfileData) | AccountDeactivated

  /**
   * `profile` for the requesting user `u`: GET reads the profile; PUT applies the partial
   * update of the three name fields (400 with the offending keys); DELETE soft-deletes the
   * user and answers 200. The row stays, so its email stays taken for registration.
   */
  method Profile(table: UserTable, u: User, req: ProfileRequest, now: Timestamp)
    returns (r: Result<ProfileAnswer, set<string>>)
    requires table.Valid() && u in table.rows
    modifies u
    ensures table.Valid() && table.Emails() == old(table.Emails()) && u.email == old(u.email)
    ensures req.GetProfile? ==> r == Success(ProfileBody(ProfileOf(u))) && u.Record() == old(u.Record())
    ensures req.DeleteProfile? ==>
      && r == Success(AccountDeactivated)
      && u.Record() == old(u.Record()).(isActive := false, deletedAt := Some(now))
    ensures req.PutProfile? ==>
      && (r.Success? <==> TooLongKeys(req.data) == {})
      && (r.Success? ==> r == Success(ProfileBody(ProfileOf(u))))
      && (r.Failure? ==> r.error == TooLongKeys(req.data) && u.Record() == old(u.Record()))
      && (r.Success? ==> u.Record() == old(u.Record()).(
            firstName := Updated(req.data, "first_name", old(u.firstName)),
            lastName := Updated(req.data, "last_name", old(u.lastName)),
            patronymic := Updated(req.data, "patronymic", old(u.patronymic))))
      && u.isActive == old(u.isActive) && u.password == old(u.password)
  {
    match req
    case GetProfile =>
      r := Success(ProfileBody(ProfileOf(u)));
    case PutProfile(data) =>
      var saved := ApplyUpdate(u, data);
      if saved.Failure? {
        return Failure(saved.error);
      }
      r := Success(ProfileBody(ProfileOf(u)));
    case DeleteProfile =>
      u.SoftDelete(now);
      r := Success(AccountDeactivated);
  }
}
