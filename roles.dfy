/**
 * The role hierarchy (models/role.go): a fixed table of rank levels, the
 * "may manage" relation between role names, and the effective rank of a set
 * of held role names, the largest level among the ones the table knows.
 */
module Roles {

  /** `GetRoleHierarchy`. Names outside the table have no level. */
  const Hierarchy: map<string, nat> := map[
    "superadmin" := 9,
    "coordinator" := 4,
    "admin" := 3,
    "admin-retur" := 3,
    "finance" := 3,
    "picker" := 2,
    "outbound" := 2,
    "qc-ribbon" := 2,
    "qc-online" := 2,
    "mb-ribbon" := 2,
    "mb-online" := 2,
    "packing" := 2,
    "guest" := 1
  ]

  /** The role names the initial migration seeds into the roles table. */
  const SeededRoles: seq<string> :=
    ["superadmin", "coordinator", "admin", "retur", "finance", "picker", "outbound", "qc-ribbon", "qc-online", "guest"]

  /** `Role.CanManageRole`: both names are ranked and the current one ranks strictly higher. */
  predicate CanManageRole(current: string, target: string) {
    current in Hierarchy && target in Hierarchy && Hierarchy[current] > Hierarchy[target]
  }

  /**
   * The effective rank of the held names: the loop of `GetHighestRoleLevel`,
   * starting from 0 and raising the maximum at every ranked name, read as a
   * fold over the names in order.
   */
  function MaxLevel(names: seq<string>): nat {
    if names == [] then 0
    else
      var m := MaxLevel(names[..|names| - 1]);
      var last := names[|names| - 1];
      if last in Hierarchy && Hierarchy[last] > m then Hierarchy[last] else m
  }

  /** Every ranked role has a level of at least 1, and none exceeds the superadmin's 9. */
  lemma LevelsWithinBounds(name: string)
    requires name in Hierarchy
    ensures 1 <= Hierarchy[name] <= Hierarchy["superadmin"]
  {}

  /** No role may manage itself, and managing is a strict order: asymmetric and transitive. */
  lemma CanManageRoleIsStrictOrder(a: string, b: string, c: string)
    ensures !CanManageRole(a, a)
    ensures CanManageRole(a, b) ==> !CanManageRole(b, a)
    ensures CanManageRole(a, b) && CanManageRole(b, c) ==> CanManageRole(a, c)
  {}

  /** A name outside the table manages nothing and is managed by nothing. */
  lemma UnrankedRoleManagesNothing(unknown: string, other: string)
    requires unknown !in Hierarchy
    ensures !CanManageRole(unknown, other) && !CanManageRole(other, unknown)
  {}

  /**
   * The effective rank is the largest level among the ranked held names, and
   * 0 exactly when no held name is ranked.
   */
  lemma {:induction false} MaxLevelIsMaximum(names: seq<string>)
    ensures forall i :: 0 <= i < |names| && names[i] in Hierarchy ==> Hierarchy[names[i]] <= MaxLevel(names)
    ensures MaxLevel(names) == 0 || exists i :: 0 <= i < |names| && names[i] in Hierarchy && Hierarchy[names[i]] == MaxLevel(names)
    ensures MaxLevel(names) == 0 <==> forall i :: 0 <= i < |names| ==> names[i] !in Hierarchy
    ensures MaxLevel(names) <= Hierarchy["superadmin"]
  {
    if names != [] {
      var init := names[..|names| - 1];
      MaxLevelIsMaximum(init);
      assert forall i :: 0 <= i < |init| ==> init[i] == names[i];
      var last := names[|names| - 1];
      if last in Hierarchy && Hierarchy[last] > MaxLevel(init) {
        assert names[|names| - 1] == last;
      } else if MaxLevel(init) > 0 {
        var i :| 0 <= i < |init| && init[i] in Hierarchy && Hierarchy[init[i]] == MaxLevel(init);
        assert names[i] == init[i];
      }
    }
  }

  /** The effective rank depends only on which names are held, not on their order or repetition. */
  lemma MaxLevelOfSameNames(a: seq<string>, b: seq<string>)
    requires forall x :: x in a <==> x in b
    ensures MaxLevel(a) == MaxLevel(b)
  {
    MaxLevelIsMaximum(a);
    MaxLevelIsMaximum(b);
    if MaxLevel(a) > 0 {
      var i :| 0 <= i < |a| && a[i] in Hierarchy && Hierarchy[a[i]] == MaxLevel(a);
      assert a[i] in b;
    }
    if MaxLevel(b) > 0 {
      var j :| 0 <= j < |b| && b[j] in Hierarchy && Hierarchy[b[j]] == MaxLevel(b);
      assert b[j] in a;
    }
  }

  /**
   * The seeded role "retur" is not in the hierarchy (which knows
   * "admin-retur"), so a user holding only it has effective rank 0, the rank
   * of a user with no role at all.
   */
  lemma SeededReturRoleIsUnranked()
    ensures "retur" in SeededRoles && "retur" !in Hierarchy
    ensures MaxLevel(["retur"]) == 0
  {
    assert ["retur"][..0] == [];
  }
}
