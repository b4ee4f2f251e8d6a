/**
 * The route gate (middleware/rbac.go): a request passes when its token names
 * at least one of the roles the route requires.
 */
module Rbac {
  import opened Wrappers
  import Roles

  datatype Gate = Pass | Deny(error: Error)

  const CoordinatorRoles: seq<string> := ["superadmin", "coordinator"]
  const AdminRoles: seq<string> := ["superadmin", "admin"]

  /** Some required role is among the held ones. */
  predicate Admits(held: seq<string>, required: seq<string>) {
    exists i, j :: 0 <= i < |required| && 0 <= j < |held| && required[i] == held[j]
  }

  /**
   * `RequireRoles`: no roles claim in the token is 401; otherwise the nested
   * search over required and held names passes on the first match and is 403
   * when there is none.
   */
  method RequireRoles(claim: Option<seq<string>>, required: seq<string>) returns (gate: Gate)
    ensures claim.None? ==> gate == Deny(Unauthorized("missing roles"))
    ensures claim.Some? ==> (gate == Pass <==> Admits(claim.value, required))
    ensures claim.Some? && gate != Pass ==> gate == Deny(Forbidden("access denied"))
  {
    if claim.None? {
      return Deny(Unauthorized("missing roles"));
    }
    var held := claim.value;
    var hasRole := false;
    var i := 0;
    while i < |required|
      invariant 0 <= i <= |required|
      invariant hasRole ==> Admits(held, required)
      invariant !hasRole ==> forall a, b :: 0 <= a < i && 0 <= b < |held| ==> required[a] != held[b]
    {
      var j := 0;
      while j < |held|
        invariant 0 <= j <= |held|
        invariant forall b :: 0 <= b < j ==> required[i] != held[b]
      {
        if held[j] == required[i] {
          hasRole := true;
          break;
        }
        j := j + 1;
      }
      if hasRole {
        break;
      }
      i := i + 1;
    }
    if !hasRole {
      return Deny(Forbidden("access denied"));
    }
    return Pass;
  }

  /** Whether a token passes depends only on which names it holds, not on their order or repetition. */
  lemma AdmitsOfSameNames(a: seq<string>, b: seq<string>, required: seq<string>)
    requires forall x :: x in a <==> x in b
    ensures Admits(a, required) <==> Admits(b, required)
  {
    if Admits(a, required) {
      var i, j :| 0 <= i < |required| && 0 <= j < |a| && required[i] == a[j];
      assert a[j] in b;
      var k :| 0 <= k < |b| && b[k] == a[j];
    }
    if Admits(b, required) {
      var i, j :| 0 <= i < |required| && 0 <= j < |b| && required[i] == b[j];
      assert b[j] in a;
      var k :| 0 <= k < |a| && a[k] == b[j];
    }
  }

  /** The coordinator gate admits exactly tokens naming "superadmin" or "coordinator". */
  lemma CoordinatorGate(held: seq<string>)
    ensures Admits(held, CoordinatorRoles) <==> "superadmin" in held || "coordinator" in held
  {
    if "superadmin" in held {
      var j :| 0 <= j < |held| && held[j] == "superadmin";
      assert CoordinatorRoles[0] == held[j];
    }
    if "coordinator" in held {
      var j :| 0 <= j < |held| && held[j] == "coordinator";
      assert CoordinatorRoles[1] == held[j];
    }
  }

  /** The admin gate admits exactly tokens naming "superadmin" or "admin". */
  lemma AdminGate(held: seq<string>)
    ensures Admits(held, AdminRoles) <==> "superadmin" in held || "admin" in held
  {
    if "superadmin" in held {
      var j :| 0 <= j < |held| && held[j] == "superadmin";
      assert AdminRoles[0] == held[j];
    }
    if "admin" in held {
      var j :| 0 <= j < |held| && held[j] == "admin";
      assert AdminRoles[1] == held[j];
    }
  }

  /**
   * The gates check names, not rank: a coordinator outranks an admin yet is
   * turned away by the admin gate, and an admin is turned away by the
   * coordinator gate.
   */
  lemma GatesIgnoreRank()
    ensures Roles.MaxLevel(["coordinator"]) > Roles.MaxLevel(["admin"])
    ensures !Admits(["coordinator"], AdminRoles)
    ensures !Admits(["admin"], CoordinatorRoles)
  {
    assert ["coordinator"][..0] == [] && ["admin"][..0] == [];
    AdminGate(["coordinator"]);
    CoordinatorGate(["admin"]);
  }
}
