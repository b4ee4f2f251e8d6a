/**
 * Users and their role assignments (models/user.go): the role lookup, the
 * effective rank of a user, and the "may manage" relation between users.
 */
module Users {
  import Roles

  datatype User = User(
    id: nat,
    username: string,
    email: string,
    password: string,      // the stored hash
    fullName: string,
    isActive: bool,
    refreshToken: string,
    deleted: bool)         // soft-deleted: hidden from lookups, still holding its unique keys

  /** A row of the user-roles table; the role is named rather than referenced by id. */
  datatype UserRole = UserRole(userId: nat, roleName: string, assignedBy: nat)

  function RoleNames(held: seq<UserRole>): (names: seq<string>)
    ensures |names| == |held|
    ensures forall i :: 0 <= i < |held| ==> names[i] == held[i].roleName
  {
    seq(|held|, i requires 0 <= i < |held| => held[i].roleName)
  }

  /** The rows of the user-roles table that belong to `userId`, in table order. */
  function HeldBy(table: seq<UserRole>, userId: nat): (held: seq<UserRole>)
    ensures forall r :: r in held <==> r in table && r.userId == userId
  {
    if table == [] then []
    else
      var rest := HeldBy(table[1..], userId);
      assert forall r :: r in table <==> r == table[0] || r in table[1..];
      if table[0].userId == userId then [table[0]] + rest else rest
  }

  /** `User.HasRole`: walks the held roles and answers true at the first one with that name. */
  method HasRole(held: seq<UserRole>, name: string) returns (found: bool)
    ensures found <==> exists i :: 0 <= i < |held| && held[i].roleName == name
  {
    var i := 0;
    while i < |held|
      invariant 0 <= i <= |held|
      invariant forall j :: 0 <= j < i ==> held[j].roleName != name
    {
      if held[i].roleName == name {
        return true;
      }
      i := i + 1;
    }
    return false;
  }

  /** `User.GetHighestRoleLevel`: the running maximum over the held roles' levels. */
  method HighestRoleLevel(held: seq<UserRole>) returns (level: nat)
    ensures level == Roles.MaxLevel(RoleNames(held))
  {
    var names := RoleNames(held);
    level := 0;
    var i := 0;
    while i < |held|
      invariant 0 <= i <= |held|
      invariant level == Roles.MaxLevel(names[..i])
    {
      var name := held[i].roleName;
      assert names[..i + 1][..i] == names[..i];
      if name in Roles.Hierarchy && Roles.Hierarchy[name] > level {
        level := Roles.Hierarchy[name];
      }
      i := i + 1;
    }
    assert names[..i] == names;
  }

  /** `User.CanManageUser`: the current user's effective rank is strictly above the target's. */
  predicate CanManageUser(current: seq<UserRole>, target: seq<UserRole>) {
    Roles.MaxLevel(RoleNames(current)) > Roles.MaxLevel(RoleNames(target))
  }

  /** Nobody manages a superadmin, and nobody manages a user of the same effective rank, such as themselves. */
  lemma NobodyManagesSuperadmin(current: seq<UserRole>, target: seq<UserRole>)
    requires exists i :: 0 <= i < |target| && target[i].roleName == "superadmin"
    ensures !CanManageUser(current, target)
    ensures !CanManageUser(target, target)
  {
    var i :| 0 <= i < |target| && target[i].roleName == "superadmin";
    Roles.MaxLevelIsMaximum(RoleNames(current));
    Roles.MaxLevelIsMaximum(RoleNames(target));
    assert RoleNames(target)[i] == "superadmin";
  }
}
