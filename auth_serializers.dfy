/**
 * The validation logic of auth-project/src/backend/authentication/serializers.py:
 * `RegisterSerializer` (field checks, `validate_email`, `validate_password`, the
 * password-confirmation check of `validate`, and `create`) and the field whitelist of
 * `UserUpdateSerializer`.
 *
 * Field-level validation runs for every field and collects one error per failing field;
 * each field stops at its first failing stage (presence, length, then its `validate_<field>`
 * method). The object-level `validate` runs only when no field failed.
 */
module AuthSerializers {
  import opened Wrappers
  import opened Accounts

  /** `min_length=8` of `password` and `password_confirm`, and the first test of `validate_password`. */
  const PasswordMinLength := 8

  datatype Field = EmailField | FirstNameField | LastNameField | PatronymicField | PasswordField | PasswordConfirmField

  datatype FieldError =
    | Required         // missing, null or blank
    | TooLong          // over `max_length`
    | TooShort         // under 8 characters
    | NoDigit          // no character 0-9
    | NoLetter         // no character a-z or A-Z
    | EmailExists      // `validate_email`: a user with this email exists
    | PasswordsDiffer  // `validate`: `password` and `password_confirm` differ

  /** The registration payload; None for a key that is absent. */
  datatype RegisterData = RegisterData(
    email: Option<string>, firstName: Option<string>, lastName: Option<string>, patronymic: Option<string>,
    password: Option<string>, passwordConfirm: Option<string>)

  /** `validated_data` of a valid payload; a name that was not sent takes the model's default "". */
  datatype ValidatedData = ValidatedData(
    email: string, firstName: string, lastName: string, patronymic: string,
    password: string, passwordConfirm: string)

  predicate IsDigit(c: char) { '0' <= c <= '9' }
  predicate IsAsciiLetter(c: char) { 'a' <= c <= 'z' || 'A' <= c <= 'Z' }

  /** `re.search(r'[0-9]', s)` finds a match. */
  predicate HasDigit(s: string) { exists i | 0 <= i < |s| :: IsDigit(s[i]) }

  /** `re.search(r'[a-zA-Z]', s)` finds a match. */
  predicate HasLetter(s: string) { exists i | 0 <= i < |s| :: IsAsciiLetter(s[i]) }

  /** `validate_password`: length first, then a digit, then a letter; a valid value is returned as is. */
  function ValidatePassword(value: string): (r: Result<string, FieldError>)
    ensures r.Success? <==> |value| >= PasswordMinLength && HasDigit(value) && HasLetter(value)
    ensures r.Success? ==> r.value == value
    ensures |value| < PasswordMinLength ==> r == Failure(TooShort)
    ensures |value| >= PasswordMinLength && !HasDigit(value) ==> r == Failure(NoDigit)
    ensures |value| >= PasswordMinLength && HasDigit(value) && !HasLetter(value) ==> r == Failure(NoLetter)
  {
    if |value| < PasswordMinLength then Failure(TooShort)
    else if !HasDigit(value) then Failure(NoDigit)
    else if !HasLetter(value) then Failure(NoLetter)
    else Success(value)
  }

  /** `email`: required and not blank, then `validate_email` against the emails already stored. */
  function CheckEmail(v: Option<string>, taken: set<string>): Result<string, FieldError> {
    if v.None? || v.value == "" then Failure(Required)
    else if v.value in taken then Failure(EmailExists)
    else Success(v.value)
  }

  /** `first_name`, `last_name`, `patronymic`: optional, blank allowed, at most 150 characters. */
  function CheckName(v: Option<string>): Result<string, FieldError> {
    if v.None? then Success("")
    else if |v.value| > NameMaxLength then Failure(TooLong)
    else Success(v.value)
  }

  /** `password`: required and not blank, `min_length=8`, then `validate_password`. */
  function CheckPassword(v: Option<string>): Result<string, FieldError> {
    if v.None? || v.value == "" then Failure(Required)
    else if |v.value| < PasswordMinLength then Failure(TooShort)
    else ValidatePassword(v.value)
  }

  /** `password_confirm`: required and not blank, `min_length=8`. */
  function CheckConfirm(v: Option<string>): Result<string, FieldError> {
    if v.None? || v.value == "" then Failure(Required)
    else if |v.value| < PasswordMinLength then Failure(TooShort)
    else Success(v.value)
  }

  /** The error of one field's check, entered under its key. */
  function ErrorEntry<T>(errors: map<Field, FieldError>, f: Field, r: Result<T, FieldError>): map<Field, FieldError> {
    if r.Failure? then errors[f := r.error] else errors
  }

  /** The field-level errors of a payload, one per failing field. */
  function FieldErrors(data: RegisterData, taken: set<string>): map<Field, FieldError> {
    var e0 := ErrorEntry(map[], EmailField, CheckEmail(data.email, taken));
    var e1 := ErrorEntry(e0, FirstNameField, CheckName(data.firstName));
    var e2 := ErrorEntry(e1, LastNameField, CheckName(data.lastName));
    var e3 := ErrorEntry(e2, PatronymicField, CheckName(data.patronymic));
    var e4 := ErrorEntry(e3, PasswordField, CheckPassword(data.password));
    ErrorEntry(e4, PasswordConfirmField, CheckConfirm(data.passwordConfirm))
  }

  /** `is_valid()` of `RegisterSerializer`, given the emails already in the user table. */
  function ValidateRegistration(data: RegisterData, taken: set<string>): (r: Result<ValidatedData, map<Field, FieldError>>)
    ensures r.Failure? ==> r.error != map[]
  {
    var errors := FieldErrors(data, taken);
    if errors != map[] then Failure(errors)
    else
      FieldErrorsExact(data, taken);
      if data.password.value != data.passwordConfirm.value then Failure(map[PasswordField := PasswordsDiffer])
      else
        Success(ValidatedData(data.email.value, CheckName(data.firstName).value, CheckName(data.lastName).value,
                              CheckName(data.patronymic).value, data.password.value, data.passwordConfirm.value))
  }

  /** Each field fails exactly when its own check fails, with that check's error. */
  lemma FieldErrorsExact(data: RegisterData, taken: set<string>)
    ensures EmailField in FieldErrors(data, taken) <==> CheckEmail(data.email, taken).Failure?
    ensures FirstNameField in FieldErrors(data, taken) <==> CheckName(data.firstName).Failure?
    ensures LastNameField in FieldErrors(data, taken) <==> CheckName(data.lastName).Failure?
    ensures PatronymicField in FieldErrors(data, taken) <==> CheckName(data.patronymic).Failure?
    ensures PasswordField in FieldErrors(data, taken) <==> CheckPassword(data.password).Failure?
    ensures PasswordConfirmField in FieldErrors(data, taken) <==> CheckConfirm(data.passwordConfirm).Failure?
    ensures PasswordField in FieldErrors(data, taken) ==> FieldErrors(data, taken)[PasswordField] == CheckPassword(data.password).error
    ensures EmailField in FieldErrors(data, taken) ==> FieldErrors(data, taken)[EmailField] == CheckEmail(data.email, taken).error
  {
  }

  /** The payload is accepted iff the password is strong, confirmed, the email new and every name short enough. */
  lemma RegistrationAccepts(data: RegisterData, taken: set<string>)
    ensures ValidateRegistration(data, taken).Success? <==>
      && data.email.Some? && data.email.value != "" && data.email.value !in taken
      && data.password.Some? && ValidatePassword(data.password.value).Success?
      && data.passwordConfirm == data.password
      && (data.firstName.None? || |data.firstName.value| <= NameMaxLength)
      && (data.lastName.None? || |data.lastName.value| <= NameMaxLength)
      && (data.patronymic.None? || |data.patronymic.value| <= NameMaxLength)
    ensures ValidateRegistration(data, taken).Success? ==>
      var v := ValidateRegistration(data, taken).value;
      v.email == data.email.value && v.password == data.password.value && v.password == v.passwordConfirm
  {
    FieldErrorsExact(data, taken);
    if FieldErrors(data, taken) != map[] {
      var f :| f in FieldErrors(data, taken);
    }
  }

  /** Two well-formed but different passwords fail with an error under `password` only. */
  lemma MismatchKeyedPassword(data: RegisterData, taken: set<string>)
    requires FieldErrors(data, taken) == map[]
    requires data.password != data.passwordConfirm
    ensures ValidateRegistration(data, taken) == Failure(map[PasswordField := PasswordsDiffer])
  {
    FieldErrorsExact(data, taken);
  }

  /** An email already in the table is refused under `email`, whatever the other fields hold. */
  lemma TakenEmailRefused(data: RegisterData, taken: set<string>)
    requires data.email.Some? && data.email.value != "" && data.email.value in taken
    ensures ValidateRegistration(data, taken).Failure?
    ensures ValidateRegistration(data, taken).error == FieldErrors(data, taken)
    ensures FieldErrors(data, taken)[EmailField] == EmailExists
  {
    FieldErrorsExact(data, taken);
  }

  /**
   * `RegisterSerializer.create`: `password_confirm` and `password` are popped; the user is
   * built from the rest, gets the digest of the password through `set_password`, and is saved.
   */
  method CreateAccount(table: UserTable, v: ValidatedData, digest: string) returns (r: Result<User, AccountError>)
    requires table.Valid()
    modifies table
    ensures table.Valid()
    ensures r.Success? <==> v.email !in old(table.Emails())
    ensures r.Failure? ==> table.rows == old(table.rows) && table.nextId == old(table.nextId)
    ensures r.Success? ==>
      && fresh(r.value) && table.rows == old(table.rows) + [r.value]
      && r.value.Record() == UserRecord(old(table.nextId), v.email, v.firstName, v.lastName, v.patronymic,
                                        true, false, false, Some(digest), None)
    ensures forall u :: u in old(table.rows) ==> u.Record() == old(u.Record())
  {
    var u := new User(v.email, Extra(v.firstName, v.lastName, v.patronymic, None, None, None));
    u.SetPassword(digest);
    var saved := table.Insert(u);
    if saved.Failure? {
      return Failure(saved.error);
    }
    r := Success(u);
  }

  // ----- UserUpdateSerializer -----

  /** The three keys of `UserUpdateSerializer.Meta.fields`. */
  const UpdateFields: set<string> := {"first_name", "last_name", "patronymic"}

  /** One key's verdict: the key if it is sent with a value longer than `max_length`. */
  function TooLongKey(data: map<string, string>, key: string): set<string> {
    if key in data && |data[key]| > NameMaxLength then {key} else {}
  }

  /**
   * The whitelisted keys whose value is longer than `max_length`: each of the three name
   * fields is judged on its own, no other key can be blamed, and the update is valid iff
   * every sent name is at most 150 characters.
   */
  function TooLongKeys(data: map<string, string>): (bad: set<string>)
    ensures bad == TooLongKey(data, "first_name") + TooLongKey(data, "last_name") + TooLongKey(data, "patronymic")
    ensures bad <= UpdateFields
    ensures bad == {} <==> forall k :: k in data && k in UpdateFields ==> |data[k]| <= NameMaxLength
  {
    set k | k in UpdateFields && k in data && |data[k]| > NameMaxLength
  }

  /** The value the partial update gives a field: the sent one, or the old one. */
  function Updated(data: map<string, string>, key: string, old_: string): string {
    if key in data then data[key] else old_
  }

  /**
   * A partial `UserUpdateSerializer` save: only the three name fields can change; any other
   * key (`email`, `is_active`, `password` ...) is ignored. A value over 150 characters
   * fails validation and nothing changes.
   */
  method ApplyUpdate(u: User, data: map<string, string>) returns (r: Result<(), set<string>>)
    modifies u
    ensures r.Failure? <==> TooLongKeys(data) != {}
    ensures r.Failure? ==> r.error == TooLongKeys(data) && u.Record() == old(u.Record())
    ensures r.Success? ==> u.Record() == old(u.Record()).(
      firstName := Updated(data, "first_name", old(u.firstName)),
      lastName := Updated(data, "last_name", old(u.lastName)),
      patronymic := Updated(data, "patronymic", old(u.patronymic)))
    ensures u.id == old(u.id) && u.email == old(u.email) && u.isActive == old(u.isActive)
    ensures u.isStaff == old(u.isStaff) && u.isSuperuser == old(u.isSuperuser)
    ensures u.password == old(u.password) && u.deletedAt == old(u.deletedAt)
  {
    var bad := TooLongKeys(data);
    if bad != {} {
      return Failure(bad);
    }
    u.firstName := Updated(data, "first_name", u.firstName);
    u.lastName := Updated(data, "last_name", u.lastName);
    u.patronymic := Updated(data, "patronymic", u.patronymic);
    r := Success(());
  }
}
