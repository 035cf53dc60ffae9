/** Users (apps/users/models.py): the manager's two constructors and the
    staff flag Django's admin reads. */
module Users {
  import opened Common

  /** A value passed for one of the boolean flags in `**extra_fields`: a
      Python `bool`; a value `BooleanField.to_python` turns into one when the
      row is saved (`1`, `0`, `"t"`, `"f"`, `"True"`, `"False"`, `"1"`, `"0"`);
      or anything else, which it rejects. */
  datatype FieldValue = BoolValue(b: bool) | CoercedValue(b: bool) | OtherValue

  /** `openid` is a `CharField(max_length=100, unique=True)`. */
  const OPENID_MAX_LENGTH: nat := 100

  /** A row of the `users` table (the fields the core reads). */
  datatype User = User(id: UserId, openid: string, isActive: bool, isAdmin: bool, isSuperuser: bool)
  {
    /** `is_staff`: the admin flag under Django's name. */
    predicate IsStaff() {
      isAdmin
    }
  }

  /** The value a boolean flag is saved with: the caller's, as the field
      converts it, or the field default. */
  function Flag(extra: map<string, FieldValue>, key: string, default: bool): (r: Result<bool>)
    ensures key !in extra ==> r == Success(default)
    ensures key in extra && !extra[key].OtherValue? ==> r == Success(extra[key].b)
    ensures key in extra && extra[key].OtherValue? ==> r == Failure(InvalidBooleanField)
  {
    if key !in extra then Success(default)
    else match extra[key]
      case BoolValue(b) => Success(b)
      case CoercedValue(b) => Success(b)
      case OtherValue => Failure(InvalidBooleanField)
  }

  /** All three flags of `extra` can be saved. */
  predicate FlagsSave(extra: map<string, FieldValue>) {
    Flag(extra, "is_active", true).Success? && Flag(extra, "is_admin", false).Success? &&
    Flag(extra, "is_superuser", false).Success?
  }

  /** `create_user(openid, **extra_fields)` against the openids already
      stored in `taken`: an empty or missing openid is refused; then the save
      converts the flags, which default to active, not admin, not superuser;
      then the insert refuses an openid longer than the column (strict SQL
      mode) or one already stored (`unique=True`). */
  function CreateUser(id: UserId, openid: Option<string>, extra: map<string, FieldValue>, taken: set<string>)
    : (r: Result<User>)
    ensures !Truthy(openid) ==> r == Failure(OpenidRequired)
    ensures Truthy(openid) && !FlagsSave(extra) ==> r == Failure(InvalidBooleanField)
    ensures Truthy(openid) && FlagsSave(extra) && |openid.value| > OPENID_MAX_LENGTH ==> r == Failure(OpenidTooLong)
    ensures Truthy(openid) && FlagsSave(extra) && |openid.value| <= OPENID_MAX_LENGTH && openid.value in taken ==>
      r == Failure(OpenidTaken)
    ensures r.Success? <==>
      Truthy(openid) && FlagsSave(extra) && |openid.value| <= OPENID_MAX_LENGTH && openid.value !in taken
    ensures r.Success? ==> r.value.openid == openid.value && r.value.id == id
    ensures r.Success? ==>
      Flag(extra, "is_active", true) == Success(r.value.isActive) &&
      Flag(extra, "is_admin", false) == Success(r.value.isAdmin) &&
      Flag(extra, "is_superuser", false) == Success(r.value.isSuperuser)
  {
    if !Truthy(openid) then Failure(OpenidRequired)
    else match (Flag(extra, "is_active", true), Flag(extra, "is_admin", false), Flag(extra, "is_superuser", false))
      case (Success(active), Success(admin), Success(superuser)) =>
        if |openid.value| > OPENID_MAX_LENGTH then Failure(OpenidTooLong)
        else if openid.value in taken then Failure(OpenidTaken)
        else Success(User(id, openid.value, active, admin, superuser))
      case _ => Failure(InvalidBooleanField)
  }

  /** A user created with no flags is an active customer without staff access. */
  lemma DefaultUserIsNotStaff(id: UserId, openid: string, taken: set<string>)
    requires openid != "" && |openid| <= OPENID_MAX_LENGTH && openid !in taken
    ensures CreateUser(id, Some(openid), map[], taken).Success?
    ensures var u := CreateUser(id, Some(openid), map[], taken).value;
      u.isActive && !u.isAdmin && !u.IsStaff() && !u.isSuperuser
  {
  }

  /** A converted flag is saved as the boolean it stands for: `is_admin=1`
      creates an admin, as `is_admin=True` does. */
  lemma CoercedFlagSaves(id: UserId, openid: string, taken: set<string>)
    requires openid != "" && |openid| <= OPENID_MAX_LENGTH && openid !in taken
    ensures CreateUser(id, Some(openid), map["is_admin" := CoercedValue(true)], taken) ==
            CreateUser(id, Some(openid), map["is_admin" := BoolValue(true)], taken)
    ensures CreateUser(id, Some(openid), map["is_admin" := CoercedValue(true)], taken).Success?
    ensures CreateUser(id, Some(openid), map["is_admin" := CoercedValue(true)], taken).value.IsStaff()
  {
  }

  /** Once a user is stored, creating another with the same openid is
      refused, whatever its flags. */
  lemma OpenidStaysUnique(id: UserId, openid: Option<string>, extra: map<string, FieldValue>, taken: set<string>,
                          id2: UserId, extra2: map<string, FieldValue>)
    requires CreateUser(id, openid, extra, taken).Success?
    ensures var u := CreateUser(id, openid, extra, taken).value;
      CreateUser(id2, Some(u.openid), extra2, taken + {u.openid}).Failure?
  {
  }

  /** `create_superuser(openid, **extra_fields)`: the three flags default to
      true, and a caller-supplied admin or superuser flag that is not exactly
      `True` is refused before the user is created; a converted value such as
      `is_admin=1` is not `True` and is refused. */
  method CreateSuperuser(id: UserId, openid: Option<string>, extra: map<string, FieldValue>, taken: set<string>)
    returns (r: Result<User>)
    ensures "is_admin" in extra && extra["is_admin"] != BoolValue(true) ==> r == Failure(SuperuserNeedsAdmin)
    ensures ("is_admin" !in extra || extra["is_admin"] == BoolValue(true)) &&
            "is_superuser" in extra && extra["is_superuser"] != BoolValue(true) ==>
            r == Failure(SuperuserNeedsSuperuser)
    ensures ("is_admin" !in extra || extra["is_admin"] == BoolValue(true)) &&
            ("is_superuser" !in extra || extra["is_superuser"] == BoolValue(true)) ==>
            r == CreateUser(id, openid, extra["is_admin" := BoolValue(true)]["is_superuser" := BoolValue(true)]
                                        ["is_active" := if "is_active" in extra then extra["is_active"] else BoolValue(true)],
                            taken)
    ensures r.Success? ==> r.value.isAdmin && r.value.IsStaff() && r.value.isSuperuser
    ensures r.Success? && "is_active" !in extra ==> r.value.isActive
  {
    var fields := extra;
    if "is_admin" !in fields {
      fields := fields["is_admin" := BoolValue(true)];
    }
    if "is_superuser" !in fields {
      fields := fields["is_superuser" := BoolValue(true)];
    }
    if "is_active" !in fields {
      fields := fields["is_active" := BoolValue(true)];
    }
    if fields["is_admin"] != BoolValue(true) {
      return Failure(SuperuserNeedsAdmin);
    }
    if fields["is_superuser"] != BoolValue(true) {
      return Failure(SuperuserNeedsSuperuser);
    }
    assert fields == extra["is_admin" := BoolValue(true)]["is_superuser" := BoolValue(true)]
                          ["is_active" := if "is_active" in extra then extra["is_active"] else BoolValue(true)];
    r := CreateUser(id, openid, fields, taken);
  }
}
