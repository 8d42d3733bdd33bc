// The User model of app/Models/V1/User.php: registration with its
// defaults, the MD5 password check, the profile reads and writes that
// keep the password, role and active flag out, the password change, the
// role whitelist, and the admin listings that strip passwords.
module Users {
  import opened Wrappers
  import opened Strings
  import opened Php
  import opened Tables
  import opened Sql
  import opened Db
  import opened Models
  import opened Effects

  /** The roles changeRole accepts. */
  const Roles := ["customer", "admin"]

  const PasswordKey := StrKey("password")
  const RoleKey := StrKey("role")
  const ActiveKey := StrKey("is_active")

  // ---------------------------------------------------------------
  // Passwords
  // ---------------------------------------------------------------

  /** hashPassword: PHP's md5 of the text, given as a parameter. */
  function HashPassword(md5: string -> string, password: string): string
  {
    md5(password)
  }

  /** verifyPassword: `md5($plain) === $hashed`, so only a string equal to the hash passes. */
  predicate VerifyPassword(md5: string -> string, plain: string, hashed: Value)
  {
    hashed == Str(md5(plain))
  }

  /** Every password verifies against its own hash. */
  lemma VerifyHashed(md5: string -> string, password: string)
    ensures VerifyPassword(md5, password, Str(HashPassword(md5, password)))
  {
  }

  /** Nothing but a string verifies, so a missing user's null password never does. */
  lemma VerifyNeedsString(md5: string -> string, plain: string, hashed: Value)
    requires !hashed.Str?
    ensures !VerifyPassword(md5, plain, hashed)
  {
  }

  // ---------------------------------------------------------------
  // register
  // ---------------------------------------------------------------

  /**
   * The data register hands to create: the password replaced by its
   * hash, role 'customer' and is_active 1 only where they are unset, and
   * every other key as given.
   */
  function RegisterData(md5: string -> string, data: Dict): (r: Dict)
    ensures Lookup(r, PasswordKey) == Some(Str(HashPassword(md5, ToStr(Field(data, "password")))))
    ensures Lookup(r, RoleKey) == if Isset(data, RoleKey) then Lookup(data, RoleKey) else Some(Str("customer"))
    ensures Lookup(r, ActiveKey) == if Isset(data, ActiveKey) then Lookup(data, ActiveKey) else Some(Int(1))
    ensures forall k :: k != PasswordKey && k != RoleKey && k != ActiveKey ==> Lookup(r, k) == Lookup(data, k)
  {
    var d1 := Put(data, PasswordKey, Str(HashPassword(md5, ToStr(Field(data, "password")))));
    assert Isset(d1, RoleKey) == Isset(data, RoleKey);
    var d2 := if !Isset(d1, RoleKey) then Put(d1, RoleKey, Str("customer")) else d1;
    assert Isset(d2, ActiveKey) == Isset(data, ActiveKey);
    if !Isset(d2, ActiveKey) then Put(d2, ActiveKey, Int(1)) else d2
  }

  /** register: one create of the prepared data; the answer is the new id, or false. */
  function RegisterRun(d: Driver, md5: string -> string, data: Dict, now: string, accepted: bool, st: ConnState)
    : (Value, ConnState)
  {
    (if accepted then Int(NextId(st.store, "users")) else Bool(false),
     Created(st, "users", "id", d, Stamped(true, RegisterData(md5, data), now), accepted))
  }

  /**
   * An accepted registration stores the user under the new id with the
   * hash of the given password, so that password verifies against the
   * stored row; a role or active flag the caller set is kept.
   */
  lemma RegisteredUser(d: Driver, md5: string -> string, data: Dict, now: string, st: ConnState)
    ensures var run := RegisterRun(d, md5, data, now, true, st);
      var id := NextId(st.store, "users");
      var row := RowAt(run.1.store, "users", id);
      run.0 == Int(id) && row.Some? &&
      VerifyPassword(md5, ToStr(Field(data, "password")), Field(row.value, "password")) &&
      Lookup(row.value, RoleKey) == Lookup(RegisterData(md5, data), RoleKey) &&
      Lookup(row.value, ActiveKey) == Lookup(RegisterData(md5, data), ActiveKey)
  {
    var reg := RegisterData(md5, data);
    var stamped := Stamped(true, reg, now);
    var id := NextId(st.store, "users");
    InsertNew(st.store, "users", "id", stamped);
    var row := Put(stamped, StrKey("id"), Int(id));
    assert Lookup(row, PasswordKey) == Lookup(stamped, PasswordKey) == Lookup(reg, PasswordKey);
    assert Lookup(row, RoleKey) == Lookup(stamped, RoleKey) == Lookup(reg, RoleKey);
    assert Lookup(row, ActiveKey) == Lookup(stamped, ActiveKey) == Lookup(reg, ActiveKey);
  }

  // ---------------------------------------------------------------
  // Profiles
  // ---------------------------------------------------------------

  /** getProfile: a found user without the password key; none stays none. */
  function Profile(user: Option<Dict>): (r: Option<Dict>)
    ensures r.Some? <==> user.Some?
  {
    match user
    case None => None
    case Some(u) => Some(Remove(u, PasswordKey))
  }

  /** A profile has no password, and every other column of the user. */
  lemma ProfileHidesPassword(u: Dict, k: Key)
    ensures Lookup(Profile(Some(u)).value, PasswordKey).None?
    ensures k != PasswordKey ==> Lookup(Profile(Some(u)).value, k) == Lookup(u, k)
  {
    RemoveLookup(u, PasswordKey, PasswordKey);
    RemoveLookup(u, PasswordKey, k);
  }

  /** updateProfile's data: password, role and is_active unset. */
  function ProfileChanges(data: Dict): Dict
  {
    Remove(Remove(Remove(data, PasswordKey), RoleKey), ActiveKey)
  }

  /** The three guarded keys are gone and every other key passes through unchanged. */
  lemma ProfileChangesKeys(data: Dict, k: Key)
    ensures Lookup(ProfileChanges(data), k) ==
      if k == PasswordKey || k == RoleKey || k == ActiveKey then None else Lookup(data, k)
  {
    RemoveLookup(data, PasswordKey, k);
    RemoveLookup(Remove(data, PasswordKey), RoleKey, k);
    RemoveLookup(Remove(Remove(data, PasswordKey), RoleKey), ActiveKey, k);
  }

  /** updateProfile: one update of the filtered data. */
  function UpdateProfileRun(d: Driver, userId: Value, data: Dict, now: string, accepted: bool, st: ConnState)
    : (bool, ConnState)
  {
    (accepted, Updated(st, "users", "id", d, userId, Touched(true, ProfileChanges(data), now), accepted))
  }

  /** Whatever the data holds, updateProfile leaves a stored user's password, role and active flag as they were. */
  lemma UpdateProfileGuards(d: Driver, userId: Value, data: Dict, now: string, accepted: bool, st: ConnState, k: Key)
    requires RowAt(st.store, "users", RowKey(userId)).Some?
    requires k == PasswordKey || k == RoleKey || k == ActiveKey
    ensures var s' := UpdateProfileRun(d, userId, data, now, accepted, st).1.store;
      RowAt(s', "users", RowKey(userId)).Some? &&
      Lookup(RowAt(s', "users", RowKey(userId)).value, k) == Lookup(RowAt(st.store, "users", RowKey(userId)).value, k)
  {
    var changes := Touched(true, ProfileChanges(data), now);
    ProfileChangesKeys(data, k);
    assert !HasKey(changes, k);
    AssignLookup(RowAt(st.store, "users", RowKey(userId)).value, changes, k);
  }

  // ---------------------------------------------------------------
  // Password change, role and status
  // ---------------------------------------------------------------

  /** The password column update writes, with updated_at from the stamp. */
  function PasswordChange(hash: string, now: string): Dict
  {
    [Entry(PasswordKey, Str(hash)), Entry(StrKey("updated_at"), Str(now))]
  }

  lemma PasswordTouched(hash: string, now: string)
    ensures Touched(true, [Entry(PasswordKey, Str(hash))], now) == PasswordChange(hash, now)
  {
    PutNew([Entry(PasswordKey, Str(hash))], Entry(StrKey("updated_at"), Str(now)));
  }

  /**
   * changePassword: find, then the old password, as text, must verify
   * against the stored hash (a missing user reads as null and fails),
   * then the hash of the new one's text is written.
   */
  function ChangePasswordRun(d: Driver, md5: string -> string, userId: Value, oldPassword: Value,
                             newPassword: Value, now: string, findAccepted: bool, accepted: bool, st: ConnState)
    : (bool, ConnState)
  {
    var st1 := Sent(st, FindSql("users", "id", d, userId));
    var user := FindAnswer(st, "users", userId, findAccepted);
    var stored := if user.Some? then Field(user.value, "password") else Null;
    if !VerifyPassword(md5, ToStr(oldPassword), stored) then (false, st1)
    else (accepted, Updated(st1, "users", "id", d, userId, PasswordChange(HashPassword(md5, ToStr(newPassword)), now), accepted))
  }

  /** A missing user or a wrong old password: false, after the one SELECT, with nothing written. */
  lemma ChangePasswordRefused(d: Driver, md5: string -> string, userId: Value, oldPassword: Value,
                              newPassword: Value, now: string, findAccepted: bool, accepted: bool, st: ConnState)
    requires var user := FindAnswer(st, "users", userId, findAccepted);
      user.None? || !VerifyPassword(md5, ToStr(oldPassword), Field(user.value, "password"))
    ensures ChangePasswordRun(d, md5, userId, oldPassword, newPassword, now, findAccepted, accepted, st) ==
            (false, Sent(st, FindSql("users", "id", d, userId)))
  {
  }

  /** An accepted change: the new password verifies against the stored row afterwards. */
  lemma ChangePasswordStored(d: Driver, md5: string -> string, userId: Value, oldPassword: Value,
                             newPassword: Value, now: string, st: ConnState)
    requires Found(st.store, "users", userId).Some?
    requires VerifyPassword(md5, ToStr(oldPassword), Field(Found(st.store, "users", userId).value, "password"))
    ensures var run := ChangePasswordRun(d, md5, userId, oldPassword, newPassword, now, true, true, st);
      var row := RowAt(run.1.store, "users", RowKey(userId));
      run.0 && row.Some? && VerifyPassword(md5, ToStr(newPassword), Field(row.value, "password"))
  {
    var changes := PasswordChange(HashPassword(md5, ToStr(newPassword)), now);
    assert UniqueKeys(changes);
    LookupFirst(changes, 0);
    UpdatedColumn(st.store, "users", RowKey(userId), changes, PasswordKey);
  }

  /** changeRole's whitelist: in_array's loose comparison with 'customer' and 'admin'. */
  predicate RoleAllowed(role: Value)
  {
    InList(role, Roles)
  }

  /**
   * A string role passes exactly when it is 'customer' or 'admin'; the
   * loose test also lets true through, refuses null, and lets an integer
   * through exactly when it is 0, which PHP 7 finds equal to both names.
   */
  lemma RoleAllowedCases(s: string, i: int)
    ensures RoleAllowed(Str(s)) <==> s == "customer" || s == "admin"
    ensures RoleAllowed(Bool(true)) && !RoleAllowed(Null)
    ensures RoleAllowed(Int(i)) <==> i == 0
  {
    assert forall t :: t in Roles ==> LetterFirst(t);
    InListString(s, Roles);
    InListInt(i, Roles);
    assert LooseEquals(Bool(true), Str(Roles[0]));
  }

  /** changeRole: a role outside the list is false with nothing sent; else one update of the role. */
  function ChangeRoleRun(d: Driver, userId: Value, role: Value, now: string, accepted: bool, st: ConnState)
    : (bool, ConnState)
  {
    if !RoleAllowed(role) then (false, st)
    else (accepted, Updated(st, "users", "id", d, userId, Touched(true, [Entry(RoleKey, role)], now), accepted))
  }

  /** setActiveStatus's value: 1 for a truthy argument, else 0. */
  function ActiveFlag(isActive: Value): (n: int)
    ensures n == 1 <==> Truthy(isActive)
    ensures n == 0 || n == 1
  {
    if Truthy(isActive) then 1 else 0
  }

  // ---------------------------------------------------------------
  // Admin listings
  // ---------------------------------------------------------------

  /** The foreach by reference that unsets every row's password. */
  function Stripped(rows: seq<Dict>): (r: seq<Dict>)
    ensures |r| == |rows|
    ensures forall i :: 0 <= i < |rows| ==> r[i] == Remove(rows[i], PasswordKey)
  {
    seq(|rows|, i requires 0 <= i < |rows| => Remove(rows[i], PasswordKey))
  }

  /** No listed user has a password, and every other column is as fetched. */
  lemma StrippedRows(rows: seq<Dict>, i: int, k: Key)
    requires 0 <= i < |rows|
    ensures Lookup(Stripped(rows)[i], PasswordKey).None?
    ensures k != PasswordKey ==> Lookup(Stripped(rows)[i], k) == Lookup(rows[i], k)
  {
    RemoveLookup(rows[i], PasswordKey, PasswordKey);
    RemoveLookup(rows[i], PasswordKey, k);
  }

  /**
   * getUsersByRole's statement: limit() only writes builder fields, and
   * findAll without arguments adds no LIMIT, so no limit or offset the
   * caller passes reaches it.
   */
  lemma ByRoleIgnoresLimit(d: Driver, ws: seq<Condition>, os: seq<string>)
    ensures SelectSql("users", d, ws, os, Null, Null) == SelectHead("users") + WhereClause(d, ws) + OrderByClause(os)
  {
    assert LimitClause(Null, Null) == "";
  }

  class User {
    const base: BaseModel

    predicate Valid()
    {
      base.Valid() && base.table == "users" && base.primaryKey == "id" && base.timestamps
    }

    constructor (rawUrl: string, db: Database, driver: Driver)
      requires db.Valid() && db.mysqliInitialized
      ensures Valid() && fresh(base) && base.Cleared()
      ensures base.apiVersion == DetectApiVersion(rawUrl) && base.driver == driver
      ensures base.connection == (if base.apiVersion == "v1" then db.mysqli else null)
    {
      base := new BaseModel("users", "id", true, rawUrl, db, driver);
    }

    /** register (app/Models/V1/User.php:59-85). */
    method Register(md5: string -> string, data: Dict, now: string, accepted: bool) returns (r: Outcome<Value>)
      requires Valid()
      modifies base.connection
      ensures base.connectionType == "pdo" ==> r == Fatal
      ensures base.connectionType == "mysqli" ==>
        var run := RegisterRun(base.driver, md5, data, now, accepted, old(base.connection.State()));
        r == Done(run.0) && base.connection.State() == run.1
    {
      var prepared := Put(data, PasswordKey, Str(HashPassword(md5, ToStr(Field(data, "password")))));
      if !Isset(prepared, RoleKey) {
        prepared := Put(prepared, RoleKey, Str("customer"));
      }
      if !Isset(prepared, ActiveKey) {
        prepared := Put(prepared, ActiveKey, Int(1));
      }
      assert prepared == RegisterData(md5, data);
      r := base.Create(prepared, now, accepted);
    }

    /** getProfile (app/Models/V1/User.php:94-104). */
    method GetProfile(userId: Value, findAccepted: bool) returns (r: Outcome<Option<Dict>>)
      requires Valid()
      modifies base.connection
      ensures base.connectionType == "pdo" ==> r == Fatal
      ensures base.connectionType == "mysqli" ==>
        r == Done(Profile(FindAnswer(old(base.connection.State()), "users", userId, findAccepted))) &&
        base.connection.State() == Sent(old(base.connection.State()), FindSql("users", "id", base.driver, userId))
    {
      var user := base.Find(userId, findAccepted);
      if user.Fatal? {
        return Fatal;
      }
      if user.value.Some? {
        return Done(Some(Remove(user.value.value, PasswordKey)));
      }
      r := Done(None);
    }

    /** updateProfile (app/Models/V1/User.php:107-119). */
    method UpdateProfile(userId: Value, data: Dict, now: string, accepted: bool) returns (r: Outcome<bool>)
      requires Valid()
      modifies base.connection
      ensures base.connectionType == "pdo" ==> r == Fatal
      ensures base.connectionType == "mysqli" ==>
        var run := UpdateProfileRun(base.driver, userId, data, now, accepted, old(base.connection.State()));
        r == Done(run.0) && base.connection.State() == run.1
    {
      var changes := Remove(data, PasswordKey);
      changes := Remove(changes, RoleKey);
      changes := Remove(changes, ActiveKey);
      r := base.Update(userId, changes, now, accepted);
    }

    /** The update of changePassword and resetPasswordDirect: the new hash. */
    method WritePassword(userId: Value, hash: string, now: string, accepted: bool) returns (r: Outcome<bool>)
      requires Valid()
      modifies base.connection
      ensures base.connectionType == "pdo" ==> r == Fatal
      ensures base.connectionType == "mysqli" ==>
        r == Done(accepted) &&
        base.connection.State() ==
          Updated(old(base.connection.State()), "users", "id", base.driver, userId, PasswordChange(hash, now), accepted)
    {
      r := base.Update(userId, [Entry(PasswordKey, Str(hash))], now, accepted);
      PasswordTouched(hash, now);
    }

    /** changePassword (app/Models/V1/User.php:124-140). */
    method ChangePassword(md5: string -> string, userId: Value, oldPassword: Value, newPassword: Value,
                          now: string, findAccepted: bool, accepted: bool) returns (r: Outcome<bool>)
      requires Valid()
      modifies base.connection
      ensures base.connectionType == "pdo" ==> r == Fatal
      ensures base.connectionType == "mysqli" ==>
        var run := ChangePasswordRun(base.driver, md5, userId, oldPassword, newPassword, now, findAccepted, accepted,
                                     old(base.connection.State()));
        r == Done(run.0) && base.connection.State() == run.1
    {
      if base.connectionType != "mysqli" {
        return Fatal;
      }
      ghost var st0 := base.connection.State();
      var user := base.Find(userId, findAccepted);
      if user.Fatal? {
        return Fatal;
      }
      assert user.value == FindAnswer(st0, "users", userId, findAccepted);
      var stored := if user.value.Some? then Field(user.value.value, "password") else Null;
      if !VerifyPassword(md5, ToStr(oldPassword), stored) {
        return Done(false);
      }
      if user.value.None? {
        return Done(false);
      }
      r := WritePassword(userId, HashPassword(md5, ToStr(newPassword)), now, accepted);
    }

    /** changeRole (app/Models/V1/User.php:250-258). */
    method ChangeRole(userId: Value, role: Value, now: string, accepted: bool) returns (r: Outcome<bool>)
      requires Valid()
      modifies base.connection
      ensures base.connectionType == "pdo" ==> r == (if RoleAllowed(role) then Fatal else Done(false))
      ensures base.connectionType == "mysqli" ==>
        var run := ChangeRoleRun(base.driver, userId, role, now, accepted, old(base.connection.State()));
        r == Done(run.0) && base.connection.State() == run.1
    {
      if !InList(role, Roles) {
        return Done(false);
      }
      r := base.Update(userId, [Entry(RoleKey, role)], now, accepted);
    }

    /** setActiveStatus (app/Models/V1/User.php:243-246). */
    method SetActiveStatus(userId: Value, isActive: Value, now: string, accepted: bool) returns (r: Outcome<bool>)
      requires Valid()
      modifies base.connection
      ensures base.connectionType == "pdo" ==> r == Fatal
      ensures base.connectionType == "mysqli" ==>
        r == Done(accepted) &&
        base.connection.State() ==
          Updated(old(base.connection.State()), "users", "id", base.driver, userId,
                  Touched(true, [Entry(ActiveKey, Int(ActiveFlag(isActive)))], now), accepted)
    {
      r := base.Update(userId, [Entry(ActiveKey, Int(if Truthy(isActive) then 1 else 0))], now, accepted);
    }

    /** The foreach by reference of getAllUsers and getUsersByRole. */
    method StripPasswords(users: seq<Dict>) returns (rows: seq<Dict>)
      ensures rows == Stripped(users)
    {
      rows := users;
      var i := 0;
      while i < |rows|
        invariant 0 <= i <= |rows| && |rows| == |users|
        invariant forall j :: 0 <= j < i ==> rows[j] == Remove(users[j], PasswordKey)
        invariant forall j :: i <= j < |rows| ==> rows[j] == users[j]
      {
        rows := rows[i := Remove(rows[i], PasswordKey)];
        i := i + 1;
      }
    }

    /** getAllUsers (app/Models/V1/User.php:214-225). */
    method GetAllUsers(limit: Value, offset: Value, reply: Option<seq<Dict>>) returns (r: Outcome<seq<Dict>>)
      requires Valid()
      modifies base, base.connection
      ensures base.connectionType == "pdo" ==> r == Fatal
      ensures base.connectionType == "mysqli" ==>
        r == Done(Stripped(RowsOf(reply))) && base.Cleared() &&
        base.connection.State() ==
          Sent(old(base.connection.State()),
               SelectSql("users", base.driver, old(base.where), old(base.orderBy), limit, offset))
    {
      var users := base.FindAll(limit, offset, reply);
      if users.Fatal? {
        return Fatal;
      }
      var rows := StripPasswords(users.value);
      r := Done(rows);
    }

    /** getUsersByRole (app/Models/V1/User.php:228-240). */
    method GetUsersByRole(role: Value, limit: Value, offset: Value, reply: Option<seq<Dict>>)
      returns (r: Outcome<seq<Dict>>)
      requires Valid()
      modifies base, base.connection
      ensures base.connectionType == "pdo" ==> r == Fatal
      ensures base.connectionType == "mysqli" ==>
        r == Done(Stripped(RowsOf(reply))) && base.Cleared() &&
        base.connection.State() ==
          Sent(old(base.connection.State()),
               SelectSql("users", base.driver, old(base.where) + [Condition("role", "=", role)], old(base.orderBy),
                         Null, Null))
    {
      var b := base.Where("role", "=", role);
      b := b.Limit(limit, offset);
      var users := b.FindAll(Null, Null, reply);
      if users.Fatal? {
        return Fatal;
      }
      var rows := StripPasswords(users.value);
      r := Done(rows);
    }
  }
}
