/**
 * The user model of auth-project/src/backend/authentication/models.py: the `User` record
 * with its defaults, `set_password`, `soft_delete` and `full_name`, and `UserManager`
 * (`create_user`, `create_superuser`) over the table of saved users. Emails are unique in
 * the table (`unique=True`), and a row is never removed: soft deletion only deactivates.
 */
module Accounts {
  import opened Wrappers
  import opened Permissions

  /** A `datetime`, taken from the caller. */
  type Timestamp = nat

  /** `max_length` of `first_name`, `last_name` and `patronymic`. */
  const NameMaxLength := 150

  /** The keyword arguments `**extra_fields`; a flag left None takes the model's default. */
  datatype Extra = Extra(
    firstName: string, lastName: string, patronymic: string,
    isActive: Option<bool>, isStaff: Option<bool>, isSuperuser: Option<bool>)

  datatype AccountError = EmailRequired | EmailTaken

  /**
   * Every field of a user. `password` holds the bcrypt digest, or None while no password
   * has been set; `deletedAt` is the soft-deletion time.
   */
  datatype UserRecord = UserRecord(
    id: UserId, email: string, firstName: string, lastName: string, patronymic: string,
    isActive: bool, isStaff: bool, isSuperuser: bool,
    password: Option<string>, deletedAt: Option<Timestamp>)

  /** The record `self.model(email=email, **extra_fields)` builds before it is saved. */
  function NewRecord(email: string, extra: Extra): (u: UserRecord)
    ensures u.isActive == extra.isActive.GetOr(true)
    ensures u.isStaff == extra.isStaff.GetOr(false) && u.isSuperuser == extra.isSuperuser.GetOr(false)
    ensures u.password.None? && u.deletedAt.None?
  {
    UserRecord(0, email, extra.firstName, extra.lastName, extra.patronymic,
               extra.isActive.GetOr(true), extra.isStaff.GetOr(false), extra.isSuperuser.GetOr(false),
               None, None)
  }

  /** New users are active, not staff and not superusers unless the caller says otherwise. */
  lemma NewUserDefaults(email: string)
    ensures var u := NewRecord(email, Extra("", "", "", None, None, None));
            u.isActive && !u.isStaff && !u.isSuperuser && u.email == email
  {
  }

  // ----- full_name -----

  /** `filter(None, parts)`: the non-empty parts, in order. */
  function NonEmptyParts(parts: seq<string>): (r: seq<string>)
    ensures forall s :: s in r <==> s in parts && s != ""
    ensures |r| <= |parts|
  {
    if parts == [] then [] else (if parts[0] == "" then [] else [parts[0]]) + NonEmptyParts(parts[1..])
  }

  /** `sep.join(xs)`. */
  function JoinWith(sep: string, xs: seq<string>): string {
    if xs == [] then "" else if |xs| == 1 then xs[0] else xs[0] + sep + JoinWith(sep, xs[1..])
  }

  /** `full_name`: last name, first name and patronymic with single spaces, empty parts skipped. */
  function FullNameOf(last: string, first: string, patronymic: string): string {
    JoinWith(" ", NonEmptyParts([last, first, patronymic]))
  }

  /** Two strings joined by one space unless one of them is empty. */
  function Glue(a: string, b: string): string {
    if a == "" then b else if b == "" then a else a + " " + b
  }

  /** `full_name` is the pairwise gluing of the three parts, left to right. */
  lemma FullNameIsGlued(last: string, first: string, patronymic: string)
    ensures FullNameOf(last, first, patronymic) == Glue(Glue(last, first), patronymic)
  {
    var xs := [last, first, patronymic];
    assert xs[1..] == [first, patronymic] && xs[1..][1..] == [patronymic] && [patronymic][1..] == [];
    var p3 := if patronymic == "" then [] else [patronymic];
    var p23 := (if first == "" then [] else [first]) + p3;
    assert NonEmptyParts([patronymic]) == p3 + NonEmptyParts([]);
    assert NonEmptyParts([first, patronymic]) == (if first == "" then [] else [first]) + NonEmptyParts([patronymic]);
    assert NonEmptyParts(xs) == (if last == "" then [] else [last]) + p23;
    if last == "" && first == "" {
    } else if last == "" {
      if patronymic != "" {
        assert NonEmptyParts(xs) == [first, patronymic];
        JoinTwo(first, patronymic);
      }
    } else if first == "" {
      if patronymic != "" {
        assert NonEmptyParts(xs) == [last, patronymic];
        JoinTwo(last, patronymic);
      }
    } else if patronymic == "" {
      assert NonEmptyParts(xs) == [last, first];
      JoinTwo(last, first);
    } else {
      assert NonEmptyParts(xs) == xs;
      JoinTwo(first, patronymic);
      assert xs[1..] == [first, patronymic];
      assert JoinWith(" ", xs) == last + " " + JoinWith(" ", [first, patronymic]);
    }
  }

  lemma JoinTwo(a: string, b: string)
    ensures JoinWith(" ", [a, b]) == a + " " + b
  {
    assert [a, b][1..] == [b];
  }

  /** `full_name` is empty exactly when all three parts are; with all three it is `last first patronymic`. */
  lemma FullNameShape(last: string, first: string, patronymic: string)
    ensures FullNameOf(last, first, patronymic) == "" <==> last == "" && first == "" && patronymic == ""
    ensures last != "" && first != "" && patronymic != ""
            ==> FullNameOf(last, first, patronymic) == last + " " + first + " " + patronymic
    ensures last == "" && patronymic == "" ==> FullNameOf(last, first, patronymic) == first
  {
    FullNameIsGlued(last, first, patronymic);
  }

  /** A user, whose fields `set_password`, `soft_delete` and the profile update change in place. */
  class User {
    var id: UserId
    var email: string
    var firstName: string
    var lastName: string
    var patronymic: string
    var isActive: bool
    var isStaff: bool
    var isSuperuser: bool
    var password: Option<string>
    var deletedAt: Option<Timestamp>

    function Record(): UserRecord
      reads this
    {
      UserRecord(id, email, firstName, lastName, patronymic, isActive, isStaff, isSuperuser, password, deletedAt)
    }

    /** `User(email=..., **extra_fields)`: an unsaved user with the model's defaults. */
    constructor (email: string, extra: Extra)
      ensures Record() == NewRecord(email, extra)
    {
      this.id, this.email := 0, email;
      firstName, lastName, patronymic := extra.firstName, extra.lastName, extra.patronymic;
      isActive, isStaff, isSuperuser := extra.isActive.GetOr(true), extra.isStaff.GetOr(false), extra.isSuperuser.GetOr(false);
      password, deletedAt := None, None;
    }

    /** `full_name`. */
    function FullName(): string
      reads this
    {
      FullNameOf(lastName, firstName, patronymic)
    }

    /** `set_password`: stores the digest bcrypt computed for the raw password; nothing else changes. */
    method SetPassword(digest: string)
      modifies this
      ensures Record() == old(Record()).(password := Some(digest))
    {
      password := Some(digest);
    }

    /** `soft_delete`: deactivates the user and records when; every other field, the email included, stays. */
    method SoftDelete(now: Timestamp)
      modifies this
      ensures Record() == old(Record()).(isActive := false, deletedAt := Some(now))
    {
      isActive, deletedAt := false, Some(now);
    }
  }

  /** The user with this email in `rows`, if any. */
  function FindEmail(rows: seq<User>, email: string): (r: Option<User>)
    reads rows
    ensures r.Some? ==> r.value in rows && r.value.email == email
    ensures r.None? <==> forall u :: u in rows ==> u.email != email
  {
    if rows == [] then None
    else if rows[0].email == email then Some(rows[0])
    else FindEmail(rows[1..], email)
  }

  /** The `users` table, with `UserManager`'s operations. */
  class UserTable {
    var rows: seq<User>
    var nextId: UserId

    /** The email column is unique, and ids come from a counter. */
    ghost predicate Valid()
      reads this, rows
    {
      && (forall i, j :: 0 <= i < j < |rows| ==> rows[i].email != rows[j].email)
      && (forall i :: 0 <= i < |rows| ==> rows[i].id < nextId)
    }

    constructor ()
      ensures Valid() && rows == [] && nextId == 0
    {
      rows, nextId := [], 0;
    }

    function Emails(): set<string>
      reads this, rows
    {
      set u | u in rows :: u.email
    }

    /** `user.save()` of a new user: the unique email column refuses a taken email. */
    method Insert(u: User) returns (r: Result<UserId, AccountError>)
      requires Valid() && u !in rows
      modifies this, u
      ensures Valid()
      ensures r.Success? <==> old(u.email) !in old(Emails())
      ensures r.Success? ==> rows == old(rows) + [u] && r.value == old(nextId) && u.Record() == old(u.Record()).(id := r.value)
      ensures r.Failure? ==> r.error == EmailTaken && rows == old(rows) && nextId == old(nextId) && u.Record() == old(u.Record())
      ensures forall v :: v in old(rows) ==> v.Record() == old(v.Record())
    {
      if FindEmail(rows, u.email).Some? {
        return Failure(EmailTaken);
      }
      u.id := nextId;
      rows, nextId := rows + [u], nextId + 1;
      r := Success(u.id);
    }

    /**
     * `create_user`: an empty email is refused before anything is saved; the password is
     * set only when one is supplied.
     */
    method CreateUser(email: string, password: Option<string>, extra: Extra, digest: string)
      returns (r: Result<User, AccountError>)
      requires Valid()
      modifies this
      ensures Valid()
      ensures email == "" ==> r == Failure(EmailRequired)
      ensures r.Success? <==> email != "" && email !in old(Emails())
      ensures r.Failure? ==> rows == old(rows) && nextId == old(nextId)
      ensures r.Success? ==>
        && fresh(r.value) && rows == old(rows) + [r.value]
        && r.value.Record() == NewRecord(email, extra).(
             id := old(nextId),
             password := if Given(password) then Some(digest) else None)
      ensures forall v :: v in old(rows) ==> v.Record() == old(v.Record())
    {
      if email == "" {
        return Failure(EmailRequired);
      }
      var u := new User(email, extra);
      if Given(password) {
        u.SetPassword(digest);
      }
      var saved := Insert(u);
      if saved.Failure? {
        return Failure(saved.error);
      }
      r := Success(u);
    }

    /** `create_superuser`: `is_staff` and `is_superuser` default to True unless given. */
    method CreateSuperuser(email: string, password: Option<string>, extra: Extra, digest: string)
      returns (r: Result<User, AccountError>)
      requires Valid()
      modifies this
      ensures Valid()
      ensures email == "" ==> r == Failure(EmailRequired)
      ensures r.Success? <==> email != "" && email !in old(Emails())
      ensures r.Failure? ==> rows == old(rows) && nextId == old(nextId)
      ensures r.Success? ==>
        && fresh(r.value) && rows == old(rows) + [r.value]
        && r.value.isStaff == extra.isStaff.GetOr(true) && r.value.isSuperuser == extra.isSuperuser.GetOr(true)
        && r.value.isActive == extra.isActive.GetOr(true)
        && r.value.email == email
        && r.value.password == (if Given(password) then Some(digest) else None)
        && r.value.Record() == NewRecord(email, extra.(isStaff := Some(extra.isStaff.GetOr(true)),
                                                       isSuperuser := Some(extra.isSuperuser.GetOr(true)))).(
             id := old(nextId),
             password := if Given(password) then Some(digest) else None)
    {
      var extra' := extra.(isStaff := Some(extra.isStaff.GetOr(true)), isSuperuser := Some(extra.isSuperuser.GetOr(true)));
      r := CreateUser(email, password, extra', digest);
    }
  }
}
