/**
 * User administration (controllers/user_manager_controller.go): account
 * status, role assignment and removal, creation, deletion, and password and
 * profile updates, each checked against the rank of the acting user, read
 * from the role names in their token.
 */
module UserManagerController {
  import opened Wrappers
  import opened Store
  import opened Users
  import Roles
  import Rbac
  import Tables

  /** The loop every handler runs over the token's role names: the largest known level, 0 when none is known. */
  method ActingLevel(tokenRoles: seq<string>) returns (level: nat)
    ensures level == Roles.MaxLevel(tokenRoles)
  {
    level := 0;
    var i := 0;
    while i < |tokenRoles|
      invariant 0 <= i <= |tokenRoles|
      invariant level == Roles.MaxLevel(tokenRoles[..i])
    {
      assert tokenRoles[..i + 1][..i] == tokenRoles[..i];
      var name := tokenRoles[i];
      if name in Roles.Hierarchy && Roles.Hierarchy[name] > level {
        level := Roles.Hierarchy[name];
      }
      i := i + 1;
    }
    assert tokenRoles[..i] == tokenRoles;
  }

  /** Granting or withdrawing a role: it is ranked, and the acting level reaches its level. */
  predicate MayGrant(tokenRoles: seq<string>, role: string) {
    role in Roles.Hierarchy && Roles.MaxLevel(tokenRoles) >= Roles.Hierarchy[role]
  }

  /** Whether user `uid` holds role `name`. */
  predicate Holds(table: seq<UserRole>, uid: nat, name: string) {
    exists i :: 0 <= i < |HeldBy(table, uid)| && HeldBy(table, uid)[i].roleName == name
  }

  /** The effective rank of user `uid`, from the roles the table gives them. */
  function TargetLevel(table: seq<UserRole>, uid: nat): nat {
    Roles.MaxLevel(RoleNames(HeldBy(table, uid)))
  }

  /**
   * Granting is not strict: a coordinator may grant the coordinator role,
   * although no role manages its own rank.
   */
  lemma GrantingIsNotStrict()
    ensures MayGrant(["coordinator"], "coordinator") && !Roles.CanManageRole("coordinator", "coordinator")
  {
    assert ["coordinator"][..0] == [];
  }

  /** The seeded role "retur" has no level, so nobody can grant or withdraw it. */
  lemma UnrankedRoleCannotBeGranted(tokenRoles: seq<string>)
    ensures "retur" in Roles.SeededRoles && !MayGrant(tokenRoles, "retur")
  {}

  /** `UpdateUserStatus` (coordinator route). */
  method UpdateUserStatus(db: Database, roles: seq<string>, id: nat, isActive: bool) returns (r: Result<User>)
    requires Rbac.Admits(roles, Rbac.CoordinatorRoles)
    requires db.Valid()
    modifies db`users
    ensures db.Valid()
    ensures UserById(old(db.users), id).None? ==> r == Err(NotFound("user")) && db.users == old(db.users)
    ensures UserById(old(db.users), id).Some? ==> var k := UserById(old(db.users), id).value;
      r == Ok(old(db.users)[k].(isActive := isActive)) && db.users == old(db.users)[k := r.value]
  {
    var found := UserById(db.users, id);
    if found.None? {
      return Err(NotFound("user"));
    }
    var k := found.value;
    r := Ok(db.users[k].(isActive := isActive));
    db.users := db.users[k := r.value];
  }

  /** `AssignRole` (coordinator route): the already-held check comes before the rank check. */
  method AssignRole(db: Database, roles: seq<string>, id: nat, role: string, actor: nat) returns (r: Result<User>)
    requires Rbac.Admits(roles, Rbac.CoordinatorRoles)
    requires db.Valid()
    modifies db`userRoles
    ensures db.Valid()
    ensures UserById(db.users, id).None? ==> r == Err(NotFound("user"))
    ensures UserById(db.users, id).Some? && role !in db.roles ==> r == Err(NotFound("role"))
    ensures UserById(db.users, id).Some? && role in db.roles && Holds(old(db.userRoles), id, role) ==>
              r == Err(Conflict("role already assigned"))
    ensures UserById(db.users, id).Some? && role in db.roles && !Holds(old(db.userRoles), id, role) && !MayGrant(roles, role) ==>
              r == Err(Forbidden("permission denied"))
    ensures r.Ok? <==> UserById(db.users, id).Some? && role in db.roles && !Holds(old(db.userRoles), id, role) && MayGrant(roles, role)
    ensures r.Ok? ==> r.value == db.users[UserById(db.users, id).value]
                      && db.userRoles == old(db.userRoles) + [UserRole(id, role, actor)]
    ensures r.Err? ==> db.userRoles == old(db.userRoles)
  {
    var found := UserById(db.users, id);
    if found.None? {
      return Err(NotFound("user"));
    }
    if role !in db.roles {
      return Err(NotFound("role"));
    }
    var already := HasRole(HeldBy(db.userRoles, id), role);
    if already {
      return Err(Conflict("role already assigned"));
    }
    var level := ActingLevel(roles);
    if role !in Roles.Hierarchy || level < Roles.Hierarchy[role] {
      return Err(Forbidden("permission denied"));
    }
    db.userRoles := db.userRoles + [UserRole(id, role, actor)];
    r := Ok(db.users[found.value]);
  }

  /** After a grant the user holds the role, so granting it again is a conflict. */
  lemma GrantIsRecorded(table: seq<UserRole>, id: nat, role: string, actor: nat)
    ensures Holds(table + [UserRole(id, role, actor)], id, role)
  {
    var held := HeldBy(table + [UserRole(id, role, actor)], id);
    assert UserRole(id, role, actor) in held;
  }

  /** The user-roles table without user `uid`'s rows for role `name` (soft-deleted rows are not kept). */
  function Without(table: seq<UserRole>, uid: nat, name: string): (t: seq<UserRole>)
    ensures forall x :: x in t <==> x in table && !(x.userId == uid && x.roleName == name)
    ensures |t| <= |table|
  {
    if table == [] then []
    else
      var rest := Without(table[1..], uid, name);
      assert forall x :: x in table <==> x == table[0] || x in table[1..];
      if table[0].userId == uid && table[0].roleName == name then rest else [table[0]] + rest
  }

  /** Removing a role leaves other users' roles exactly as they were, in order. */
  lemma {:induction false} WithoutKeepsOthers(table: seq<UserRole>, uid: nat, name: string, other: nat)
    requires other != uid
    ensures HeldBy(Without(table, uid, name), other) == HeldBy(table, other)
  {
    if table != [] {
      WithoutKeepsOthers(table[1..], uid, name, other);
      var rest := Without(table[1..], uid, name);
      if !(table[0].userId == uid && table[0].roleName == name) {
        assert ([table[0]] + rest)[1..] == rest;
      }
    }
  }

  /** Removing a role the user was just granted leaves them without it. */
  lemma RemoveUndoesGrant(table: seq<UserRole>, id: nat, role: string, actor: nat)
    ensures !Holds(Without(table + [UserRole(id, role, actor)], id, role), id, role)
  {
    var t := Without(table + [UserRole(id, role, actor)], id, role);
    if Holds(t, id, role) {
      var i :| 0 <= i < |HeldBy(t, id)| && HeldBy(t, id)[i].roleName == role;
      assert HeldBy(t, id)[i] in HeldBy(t, id);
    }
  }

  /** `RemoveRole` (coordinator route): the target user is not looked up; removing a role nobody holds succeeds. */
  method RemoveRole(db: Database, roles: seq<string>, id: nat, role: string) returns (r: Result<()>)
    requires Rbac.Admits(roles, Rbac.CoordinatorRoles)
    requires db.Valid()
    modifies db`userRoles
    ensures db.Valid()
    ensures role !in db.roles ==> r == Err(NotFound("role"))
    ensures role in db.roles && !MayGrant(roles, role) ==> r == Err(Forbidden("permission denied"))
    ensures r.Ok? <==> role in db.roles && MayGrant(roles, role)
    ensures r.Ok? ==> db.userRoles == Without(old(db.userRoles), id, role)
    ensures r.Err? ==> db.userRoles == old(db.userRoles)
  {
    if role !in db.roles {
      return Err(NotFound("role"));
    }
    var level := ActingLevel(roles);
    if role !in Roles.Hierarchy || level < Roles.Hierarchy[role] {
      return Err(Forbidden("permission denied"));
    }
    db.userRoles := Without(db.userRoles, id, role);
    r := Ok(());
  }

  /** A user-creation request; `initialRole` is empty when none is given. */
  datatype NewUser = NewUser(username: string, email: string, password: string, fullName: string, isActive: bool, initialRole: string)

  /** `Where("username = ? OR email = ?")`: a live user already using the name or the email. */
  function LiveHolder(users: seq<User>, username: string, email: string): Option<nat> {
    Tables.Find(users, (u: User) => !u.deleted && (u.username == username || u.email == email))
  }

  /** Some row, soft-deleted or not, holds the username or the email: the unique constraints refuse a new row. */
  predicate KeysTaken(users: seq<User>, username: string, email: string) {
    exists i :: 0 <= i < |users| && (users[i].username == username || users[i].email == email)
  }

  /**
   * The role a new user receives, decided after the account exists: "guest"
   * (when the roles table has it) if none is named; otherwise the named one,
   * which must be ranked, within the acting level, and in the roles table.
   */
  function InitialRole(tokenRoles: seq<string>, known: seq<string>, requested: string): (r: Result<Option<string>>)
    ensures requested == "" ==> r == Ok(if "guest" in known then Some("guest") else None)
    ensures requested != "" && requested !in Roles.Hierarchy ==> r == Err(BadRequest("invalid role specified"))
    ensures requested != "" && requested in Roles.Hierarchy && !MayGrant(tokenRoles, requested) ==>
              r == Err(Forbidden("permission denied"))
    ensures requested != "" ==> (r.Ok? <==> MayGrant(tokenRoles, requested) && requested in known)
    ensures requested != "" && r.Ok? ==> r.value == Some(requested)
  {
    if requested == "" then Ok(if "guest" in known then Some("guest") else None)
    else if requested !in Roles.Hierarchy then Err(BadRequest("invalid role specified"))
    else if Roles.MaxLevel(tokenRoles) < Roles.Hierarchy[requested] then Err(Forbidden("permission denied"))
    else if requested !in known then Err(BadRequest("role not found"))
    else Ok(Some(requested))
  }

  /**
   * The account a creation request stores, under key `id`, with the hashed
   * password. The column's default is `true` and an insert leaves a `false`
   * field out, so the account is active whatever `is_active` the request
   * carries.
   */
  function Account(q: NewUser, id: nat, hashed: string): (u: User)
    ensures u.id == id && u.username == q.username && u.email == q.email && u.password == hashed
    ensures u.fullName == q.fullName && u.refreshToken == "" && !u.deleted
    ensures u.isActive
  {
    User(id, q.username, q.email, hashed, q.fullName, true, "", false)
  }

  /** Appending an account with a fresh id and free keys keeps the users table valid. */
  lemma AccountKeepsValid(users: seq<User>, next: nat, q: NewUser, hashed: string)
    requires UsersValid(users, next) && !KeysTaken(users, q.username, q.email)
    ensures UsersValid(users + [Account(q, next, hashed)], next + 1)
  {}

  /**
   * `CreateUser` (coordinator route). The account is stored before the
   * initial role is checked, outside any transaction: a refused role leaves
   * a new account without roles behind.
   */
  method CreateUser(db: Database, roles: seq<string>, q: NewUser, hashed: string, actor: nat) returns (r: Result<User>)
    requires Rbac.Admits(roles, Rbac.CoordinatorRoles)
    requires db.Valid()
    modifies db`users, db`userRoles, db`nextId
    ensures db.Valid()
    ensures LiveHolder(old(db.users), q.username, q.email).Some? ==> r == Err(Conflict("username or email already taken"))
    ensures LiveHolder(old(db.users), q.username, q.email).None? && KeysTaken(old(db.users), q.username, q.email) ==>
              r == Err(Internal("failed to create user"))
    ensures r.Err? && r.error != Forbidden("permission denied") && !r.error.BadRequest? ==>
              db.users == old(db.users) && db.userRoles == old(db.userRoles) && db.nextId == old(db.nextId)
    ensures !KeysTaken(old(db.users), q.username, q.email) ==>
      var account := Account(q, old(db.nextId), hashed);
      var role := InitialRole(roles, db.roles, q.initialRole);
      db.users == old(db.users) + [account] && db.nextId == old(db.nextId) + 1
      && (role.Err? ==> r == Err(role.error) && db.userRoles == old(db.userRoles))
      && (role.Ok? ==> r == Ok(account) && r.value.isActive
                       && db.userRoles == old(db.userRoles) + (if role.value.Some? then [UserRole(account.id, role.value.value, actor)] else []))
  {
    if LiveHolder(db.users, q.username, q.email).Some? {
      return Err(Conflict("username or email already taken"));
    }
    if KeysTaken(db.users, q.username, q.email) {
      return Err(Internal("failed to create user"));
    }
    var account := Account(q, db.nextId, hashed);
    AccountKeepsValid(db.users, db.nextId, q, hashed);
    OrdersValidAbove(db.orders, db.nextId, db.nextId + 1);
    db.users := db.users + [account];
    db.nextId := db.nextId + 1;
    if q.initialRole != "" {
      var level := ActingLevel(roles);
      if q.initialRole !in Roles.Hierarchy {
        return Err(BadRequest("invalid role specified"));
      }
      if level < Roles.Hierarchy[q.initialRole] {
        return Err(Forbidden("permission denied"));
      }
      if q.initialRole !in db.roles {
        return Err(BadRequest("role not found"));
      }
      db.userRoles := db.userRoles + [UserRole(account.id, q.initialRole, actor)];
    } else if "guest" in db.roles {
      db.userRoles := db.userRoles + [UserRole(account.id, "guest", actor)];
    }
    r := Ok(account);
  }

  /** A live user's username and email are refused by creation; a deleted user's are refused too, by the unique constraints. */
  lemma DeletedKeysStayTaken(users: seq<User>, k: nat, q: NewUser)
    requires k < |users| && users[k].deleted && (q.username == users[k].username || q.email == users[k].email)
    ensures KeysTaken(users, q.username, q.email)
  {}

  /** The user-roles table without any of user `uid`'s rows. */
  function WithoutUser(table: seq<UserRole>, uid: nat): (t: seq<UserRole>)
    ensures forall x :: x in t <==> x in table && x.userId != uid
  {
    if table == [] then []
    else
      var rest := WithoutUser(table[1..], uid);
      assert forall x :: x in table <==> x == table[0] || x in table[1..];
      if table[0].userId == uid then rest else [table[0]] + rest
  }

  /**
   * `DeleteUser` (coordinator route): never oneself, and only a user ranked
   * strictly below the acting level; the user's roles go and the account is
   * soft-deleted, together.
   */
  method DeleteUser(db: Database, roles: seq<string>, id: nat, actor: nat) returns (r: Result<()>)
    requires Rbac.Admits(roles, Rbac.CoordinatorRoles)
    requires db.Valid()
    modifies db`users, db`userRoles
    ensures db.Valid()
    ensures UserById(old(db.users), id).None? ==> r == Err(NotFound("user"))
    ensures UserById(old(db.users), id).Some? && id == actor ==> r == Err(Forbidden("self-deletion not allowed"))
    ensures r.Ok? <==> UserById(old(db.users), id).Some? && id != actor
                       && Roles.MaxLevel(roles) > TargetLevel(old(db.userRoles), id)
    ensures r.Ok? ==> var k := UserById(old(db.users), id).value;
      db.users == old(db.users)[k := old(db.users)[k].(deleted := true)]
      && db.userRoles == WithoutUser(old(db.userRoles), id)
      && UserById(db.users, id).None? && HeldBy(db.userRoles, id) == []
    ensures r.Err? ==> db.users == old(db.users) && db.userRoles == old(db.userRoles)
  {
    var found := UserById(db.users, id);
    if found.None? {
      return Err(NotFound("user"));
    }
    var k := found.value;
    if id == actor {
      return Err(Forbidden("self-deletion not allowed"));
    }
    var current := ActingLevel(roles);
    var target := HighestRoleLevel(HeldBy(db.userRoles, id));
    if current <= target {
      return Err(Forbidden("permission denied"));
    }
    var after := db.users[k := db.users[k].(deleted := true)];
    forall j | 0 <= j < |after| && j != k ensures after[j].id != id {
      assert after[j] == db.users[j];
      assert j < k || k < j;
    }
    assert !((u: User) => u.id == id && !u.deleted)(after[k]);
    db.users := after;
    db.userRoles := WithoutUser(db.userRoles, id);
    NoRowsLeft(db.userRoles, id);
    r := Ok(());
  }

  lemma NoRowsLeft(table: seq<UserRole>, uid: nat)
    requires forall x :: x in table ==> x.userId != uid
    ensures HeldBy(table, uid) == []
  {
    if HeldBy(table, uid) != [] {
      assert HeldBy(table, uid)[0] in HeldBy(table, uid);
    }
  }

  /** Nobody can delete a superadmin: no acting level exceeds theirs. */
  lemma SuperadminCannotBeDeleted(tokenRoles: seq<string>, table: seq<UserRole>, id: nat)
    requires Holds(table, id, "superadmin")
    ensures Roles.MaxLevel(tokenRoles) <= TargetLevel(table, id)
  {
    var held := HeldBy(table, id);
    var i :| 0 <= i < |held| && held[i].roleName == "superadmin";
    Roles.MaxLevelIsMaximum(tokenRoles);
    Roles.MaxLevelIsMaximum(RoleNames(held));
    assert RoleNames(held)[i] == "superadmin";
  }

  /** `UpdateUserPassword` (no role gate): allowed up to an equal rank; the refresh token is cleared. */
  method UpdateUserPassword(db: Database, roles: seq<string>, id: nat, hashed: string) returns (r: Result<User>)
    requires db.Valid()
    modifies db`users
    ensures db.Valid()
    ensures UserById(old(db.users), id).None? ==> r == Err(NotFound("user"))
    ensures r.Ok? <==> UserById(old(db.users), id).Some? && Roles.MaxLevel(roles) >= TargetLevel(db.userRoles, id)
    ensures r.Ok? ==> var k := UserById(old(db.users), id).value;
      r.value == old(db.users)[k].(password := hashed, refreshToken := "") && db.users == old(db.users)[k := r.value]
    ensures r.Err? ==> db.users == old(db.users)
  {
    var found := UserById(db.users, id);
    if found.None? {
      return Err(NotFound("user"));
    }
    var k := found.value;
    var current := ActingLevel(roles);
    var target := HighestRoleLevel(HeldBy(db.userRoles, id));
    if current < target {
      return Err(Forbidden("permission denied"));
    }
    r := Ok(db.users[k].(password := hashed, refreshToken := ""));
    db.users := db.users[k := r.value];
  }

  /** Equal ranks may update each other: any two users whose roles are the same may reset each other's passwords. */
  lemma PeersMayUpdateEachOther(tokenRoles: seq<string>, table: seq<UserRole>, id: nat)
    requires RoleNames(HeldBy(table, id)) == tokenRoles
    ensures Roles.MaxLevel(tokenRoles) >= TargetLevel(table, id)
  {}

  /** Another user, live or soft-deleted, holds this email. */
  predicate EmailTakenByOther(users: seq<User>, id: nat, email: string, liveOnly: bool) {
    exists j :: 0 <= j < |users| && users[j].id != id && users[j].email == email && (liveOnly ==> !users[j].deleted)
  }

  /** The profile after an update: each field replaced only when the request gives a non-empty value. */
  function Profile(u: User, fullName: string, email: string): (p: User)
    ensures p.fullName == (if fullName != "" then fullName else u.fullName)
    ensures p.email == (if email != "" then email else u.email)
    ensures p.(fullName := u.fullName, email := u.email) == u
  {
    u.(fullName := if fullName != "" then fullName else u.fullName, email := if email != "" then email else u.email)
  }

  /**
   * `UpdateUserProfile` (no role gate): a new email must not belong to
   * another live user (conflict), checked before the rank; a soft-deleted
   * user's email is refused by the unique constraint when saving.
   */
  method UpdateUserProfile(db: Database, roles: seq<string>, id: nat, fullName: string, email: string) returns (r: Result<User>)
    requires db.Valid()
    modifies db`users
    ensures db.Valid()
    ensures UserById(old(db.users), id).None? ==> r == Err(NotFound("user"))
    ensures UserById(old(db.users), id).Some? ==>
      var u := old(db.users)[UserById(old(db.users), id).value];
      var conflict := email != "" && email != u.email && EmailTakenByOther(old(db.users), id, email, true);
      var ranked := Roles.MaxLevel(roles) >= TargetLevel(db.userRoles, id);
      var refused := email != "" && email != u.email && EmailTakenByOther(old(db.users), id, email, false);
      (conflict ==> r == Err(Conflict("email already taken")))
      && (!conflict && !ranked ==> r == Err(Forbidden("permission denied")))
      && (!conflict && ranked && refused ==> r == Err(Internal("failed to update user profile")))
      && (r.Ok? <==> ranked && !refused)
    ensures r.Ok? ==> var k := UserById(old(db.users), id).value;
      Roles.MaxLevel(roles) >= TargetLevel(db.userRoles, id)
      && r.value == Profile(old(db.users)[k], fullName, email) && db.users == old(db.users)[k := r.value]
    ensures r.Err? ==> db.users == old(db.users)
  {
    var found := UserById(db.users, id);
    if found.None? {
      return Err(NotFound("user"));
    }
    var k := found.value;
    var u := db.users[k];
    if email != "" && email != u.email && EmailTakenByOther(db.users, id, email, true) {
      return Err(Conflict("email already taken"));
    }
    var current := ActingLevel(roles);
    var target := HighestRoleLevel(HeldBy(db.userRoles, id));
    if current < target {
      return Err(Forbidden("permission denied"));
    }
    var p := Profile(u, fullName, email);
    if p.email != u.email && EmailTakenByOther(db.users, id, p.email, false) {
      return Err(Internal("failed to update user profile"));
    }
    forall j | 0 <= j < |db.users| && j != k ensures db.users[j].id != id {
      assert j < k || k < j;
    }
    r := Ok(p);
    db.users := db.users[k := p];
  }
}
