/**
 * Complaints (controllers/complain_controller.go): a complaint is opened for
 * a tracking number that has an order and no complaint yet; it lists the
 * order's products and charges, at no fee yet, every operator who handled
 * the parcel. Its solution and fees, and its checked flag, are set later.
 */
module ComplainController {
  import opened Wrappers
  import opened OrderModel
  import opened Records
  import opened Store
  import opened ProductLines
  import Tables

  /**
   * The complaints table: codes, tracking numbers and order external ids
   * unique, ids distinct and below the next key.
   */
  predicate ComplaintsValid(rows: seq<Complaint>, next: nat) {
    (forall i :: 0 <= i < |rows| ==> rows[i].id < next)
    && forall i, j :: 0 <= i < j < |rows| ==>
         rows[i].id != rows[j].id && rows[i].code != rows[j].code && rows[i].tracking != rows[j].tracking
         && rows[i].orderGineeId != rows[j].orderGineeId
  }

  datatype ComplaintRequest = ComplaintRequest(tracking: string, channelId: nat, storeId: nat, description: string)

  function ComplaintByTracking(rows: seq<Complaint>, t: string): Option<nat> {
    Tables.Find(rows, (c: Complaint) => c.tracking == t)
  }

  function ComplaintById(rows: seq<Complaint>, id: nat): Option<nat> {
    Tables.Find(rows, (c: Complaint) => c.id == id)
  }

  /** The QC operator of the record with tracking number `t`, if there is a record and it names one. */
  function QcOperator(rows: seq<QcRecord>, t: string): Option<nat> {
    match QcByTracking(rows, t)
    case None => None
    case Some(k) => rows[k].qcBy
  }

  function OutboundOperator(rows: seq<Outbound>, t: string): Option<nat> {
    match OutboundByTracking(rows, t)
    case None => None
    case Some(k) => rows[k].outboundBy
  }

  function Picker(orders: seq<Order>, t: string): Option<nat> {
    match OrderByTracking(orders, t)
    case None => None
    case Some(k) => orders[k].pickedBy
  }

  /** The ids the options hold. */
  function Present(s: seq<Option<nat>>): (ids: set<nat>)
    ensures forall x :: x in ids <==> exists i :: 0 <= i < |s| && s[i] == Some(x)
  {
    set i | 0 <= i < |s| && s[i].Some? :: s[i].value
  }

  /** Every operator who handled the parcel: its QC-ribbon and QC-online operators, its outbound operator and its picker. */
  function Handlers(db: Database, t: string): seq<Option<nat>>
    reads db
  {
    [QcOperator(db.qcRibbons, t), QcOperator(db.qcOnlines, t), OutboundOperator(db.outbounds, t), Picker(db.orders, t)]
  }

  /** There are never more operators than options: each step of the flow charges at most one. */
  lemma {:induction false} PresentIsSmall(s: seq<Option<nat>>)
    ensures |Present(s)| <= |s|
  {
    if s != [] {
      var init := s[..|s| - 1];
      PresentIsSmall(init);
      var last := if s[|s| - 1].Some? then {s[|s| - 1].value} else {};
      assert Present(s) == Present(init) + last by {
        forall x ensures x in Present(s) <==> x in Present(init) + last {
          if x in Present(s) {
            var i :| 0 <= i < |s| && s[i] == Some(x);
            if i < |s| - 1 { assert init[i] == s[i]; }
          }
          if x in Present(init) {
            var i :| 0 <= i < |init| && init[i] == Some(x);
            assert s[i] == init[i];
          }
        }
      }
    }
  }

  /** The operator lines of a new complaint: one per operator, each at no fee. */
  predicate ChargesEach(ops: seq<OperatorFee>, ids: set<nat>) {
    (forall i, j :: 0 <= i < j < |ops| ==> ops[i].operatorId != ops[j].operatorId)
    && (forall i :: 0 <= i < |ops| ==> ops[i].operatorId in ids && ops[i].feeCharge == 0)
    && forall x :: x in ids ==> exists i :: 0 <= i < |ops| && ops[i].operatorId == x
  }

  /**
   * What `CreateComplain` answers, with the operator lines left empty: the
   * handler adds them in the order it walks the operator set, which the
   * source leaves unspecified. `code` is the freshly generated complaint code.
   */
  function CreateOutcome(complaints: seq<Complaint>, orders: seq<Order>, products: seq<Product>, next: nat,
                         code: string, req: ComplaintRequest, actor: nat): Result<Complaint>
  {
    if ComplaintByTracking(complaints, req.tracking).Some? then Err(BadRequest("complain tracking already exists"))
    else match OrderByTracking(orders, req.tracking)
      case None => Err(NotFound("order"))
      case Some(k) =>
        if exists i :: 0 <= i < |complaints| && (complaints[i].code == code || complaints[i].orderGineeId == orders[k].gineeId)
        then Err(Internal("failed to create complain"))
        else Ok(Complaint(next, code, req.tracking, orders[k].gineeId, req.channelId, req.storeId, req.description,
                          "", 0, false, actor, Resolved(orders[k].details, products), []))
  }

  /**
   * A complaint is opened exactly when its tracking number (taken as typed)
   * has no complaint, belongs to an order, and neither the code nor the
   * order's external id is on another complaint; an existing complaint is
   * reported before a missing order. It copies the order's external id and
   * records its creator.
   */
  lemma CreateChecksInOrder(complaints: seq<Complaint>, orders: seq<Order>, products: seq<Product>, next: nat,
                            code: string, req: ComplaintRequest, actor: nat)
    ensures var r := CreateOutcome(complaints, orders, products, next, code, req, actor);
      var k := OrderByTracking(orders, req.tracking);
      (ComplaintByTracking(complaints, req.tracking).Some? ==> r == Err(BadRequest("complain tracking already exists")))
      && ((ComplaintByTracking(complaints, req.tracking).None? && k.None?) ==> r == Err(NotFound("order")))
      && (r.Ok? <==> ComplaintByTracking(complaints, req.tracking).None? && k.Some?
                     && forall i :: 0 <= i < |complaints| ==>
                          complaints[i].code != code && complaints[i].orderGineeId != orders[k.value].gineeId)
      && (r.Ok? ==> r.value.id == next && r.value.code == code && r.value.tracking == req.tracking
                    && r.value.orderGineeId == orders[k.value].gineeId && r.value.createdBy == actor
                    && !r.value.checked && r.value.totalFee == 0
                    && r.value.products == Resolved(orders[k.value].details, products))
  {}

  function AsSet(o: Option<nat>): set<nat> {
    if o.Some? then {o.value} else {}
  }

  lemma PresentOfHandlers(db: Database, t: string)
    ensures var h := Handlers(db, t); Present(h) == AsSet(h[0]) + AsSet(h[1]) + AsSet(h[2]) + AsSet(h[3])
  {
    var h := Handlers(db, t);
    forall x ensures x in Present(h) <==> x in AsSet(h[0]) + AsSet(h[1]) + AsSet(h[2]) + AsSet(h[3]) {
      if x in Present(h) {
        var i :| 0 <= i < |h| && h[i] == Some(x);
        assert i == 0 || i == 1 || i == 2 || i == 3;
      }
    }
  }

  /** The operator map of the handler, filled from the four lookups in turn. */
  method CollectOperators(db: Database, t: string) returns (ids: set<nat>)
    ensures ids == Present(Handlers(db, t))
  {
    ids := {};
    var q := QcByTracking(db.qcRibbons, t);
    if q.Some? && db.qcRibbons[q.value].qcBy.Some? {
      ids := ids + {db.qcRibbons[q.value].qcBy.value};
    }
    assert ids == AsSet(QcOperator(db.qcRibbons, t));
    q := QcByTracking(db.qcOnlines, t);
    if q.Some? && db.qcOnlines[q.value].qcBy.Some? {
      ids := ids + {db.qcOnlines[q.value].qcBy.value};
    }
    assert ids == AsSet(QcOperator(db.qcRibbons, t)) + AsSet(QcOperator(db.qcOnlines, t));
    var b := OutboundByTracking(db.outbounds, t);
    if b.Some? && db.outbounds[b.value].outboundBy.Some? {
      ids := ids + {db.outbounds[b.value].outboundBy.value};
    }
    assert ids == AsSet(QcOperator(db.qcRibbons, t)) + AsSet(QcOperator(db.qcOnlines, t))
                  + AsSet(OutboundOperator(db.outbounds, t));
    var o := OrderByTracking(db.orders, t);
    if o.Some? && db.orders[o.value].pickedBy.Some? {
      ids := ids + {db.orders[o.value].pickedBy.value};
    }
    PresentOfHandlers(db, t);
  }

  /** The insert loop over the operator map: one line per operator, at no fee, in whatever order the map yields them. */
  method ChargeOperators(ids: set<nat>) returns (ops: seq<OperatorFee>)
    ensures ChargesEach(ops, ids)
  {
    ops := [];
    var rest := ids;
    while rest != {}
      invariant rest <= ids
      invariant forall i, j :: 0 <= i < j < |ops| ==> ops[i].operatorId != ops[j].operatorId
      invariant forall i :: 0 <= i < |ops| ==> ops[i].operatorId in ids - rest && ops[i].feeCharge == 0
      invariant forall x :: x in ids - rest ==> exists i :: 0 <= i < |ops| && ops[i].operatorId == x
      decreases rest
    {
      var x :| x in rest;
      ghost var before, restBefore := ops, rest;
      ops := ops + [OperatorFee(x, 0)];
      rest := rest - {x};
      forall y | y in ids - rest ensures exists i :: 0 <= i < |ops| && ops[i].operatorId == y {
        if y == x {
          assert ops[|before|].operatorId == y;
        } else {
          assert y in ids - restBefore;
          var i :| 0 <= i < |before| && before[i].operatorId == y;
          assert ops[i] == before[i];
        }
      }
    }
    assert ids - rest == ids;
  }

  /** `CreateComplain` (route without a role gate): the complaint and all its lines commit together. */
  method CreateComplain(db: Database, code: string, req: ComplaintRequest, actor: nat) returns (r: Result<Complaint>)
    requires db.Valid() && ComplaintsValid(db.complaints, db.nextId)
    modifies db`complaints, db`nextId
    ensures db.Valid() && ComplaintsValid(db.complaints, db.nextId)
    ensures var expected := CreateOutcome(old(db.complaints), db.orders, db.products, old(db.nextId), code, req, actor);
      r.Ok? == expected.Ok? && (r.Err? ==> r == expected)
      && (r.Ok? ==> r.value.(operators := []) == expected.value
                    && ChargesEach(r.value.operators, Present(Handlers(db, req.tracking))))
    ensures r.Ok? ==> db.complaints == old(db.complaints) + [r.value] && db.nextId == old(db.nextId) + 1
    ensures r.Err? ==> db.complaints == old(db.complaints) && db.nextId == old(db.nextId)
  {
    if ComplaintByTracking(db.complaints, req.tracking).Some? {
      return Err(BadRequest("complain tracking already exists"));
    }
    var found := OrderByTracking(db.orders, req.tracking);
    if found.None? {
      return Err(NotFound("order"));
    }
    var o := db.orders[found.value];
    if exists i :: 0 <= i < |db.complaints| && (db.complaints[i].code == code || db.complaints[i].orderGineeId == o.gineeId) {
      return Err(Internal("failed to create complain"));
    }
    var lines, _ := ResolveLines(o.details, db.products);
    var ids := CollectOperators(db, req.tracking);
    var ops := ChargeOperators(ids);
    r := Ok(Complaint(db.nextId, code, req.tracking, o.gineeId, req.channelId, req.storeId, req.description,
                      "", 0, false, actor, lines, ops));
    Append(db, r.value);
  }

  /** The insert: the new row takes the next key. */
  method Append(db: Database, c: Complaint)
    requires db.Valid() && ComplaintsValid(db.complaints, db.nextId) && c.id == db.nextId
    requires forall i :: 0 <= i < |db.complaints| ==>
      db.complaints[i].code != c.code && db.complaints[i].tracking != c.tracking
      && db.complaints[i].orderGineeId != c.orderGineeId
    modifies db`complaints, db`nextId
    ensures db.Valid() && ComplaintsValid(db.complaints, db.nextId)
    ensures db.complaints == old(db.complaints) + [c] && db.nextId == old(db.nextId) + 1
  {
    OrdersValidAbove(db.orders, db.nextId, db.nextId + 1);
    UsersValidAbove(db.users, db.nextId, db.nextId + 1);
    db.complaints := db.complaints + [c];
    db.nextId := db.nextId + 1;
  }

  /** A parcel's complaint charges at most four operators, and charges the picker of its order. */
  lemma ChargesAtMostFour(db: Database, t: string, ops: seq<OperatorFee>)
    requires ChargesEach(ops, Present(Handlers(db, t)))
    ensures |ops| <= 4
    ensures Picker(db.orders, t).Some? ==> exists i :: 0 <= i < |ops| && ops[i].operatorId == Picker(db.orders, t).value
  {
    var h := Handlers(db, t);
    PresentIsSmall(h);
    assert |h| == 4;
    var ids := set i | 0 <= i < |ops| :: ops[i].operatorId;
    assert ids <= Present(h);
    SubsetIsSmaller(ids, Present(h));
    DistinctIdsCount(ops);
    if Picker(db.orders, t).Some? {
      assert h[3] == Picker(db.orders, t);
    }
  }

  lemma SubsetIsSmaller(a: set<nat>, b: set<nat>)
    requires a <= b
    ensures |a| <= |b|
  {
    assert b == a + (b - a);
  }

  /** Distinct operator ids: as many ids as lines. */
  lemma {:induction false} DistinctIdsCount(ops: seq<OperatorFee>)
    requires forall i, j :: 0 <= i < j < |ops| ==> ops[i].operatorId != ops[j].operatorId
    ensures |set i | 0 <= i < |ops| :: ops[i].operatorId| == |ops|
  {
    if ops != [] {
      var init := ops[..|ops| - 1];
      DistinctIdsCount(init);
      var s := set i | 0 <= i < |ops| :: ops[i].operatorId;
      var s0 := set i | 0 <= i < |init| :: init[i].operatorId;
      assert s == s0 + {ops[|ops| - 1].operatorId} by {
        forall x ensures x in s <==> x in s0 + {ops[|ops| - 1].operatorId} {
          if x in s0 {
            var i :| 0 <= i < |init| && init[i].operatorId == x;
            assert ops[i] == init[i];
          }
          if x in s {
            var i :| 0 <= i < |ops| && ops[i].operatorId == x;
            if i < |ops| - 1 { assert init[i] == ops[i]; }
          }
        }
      }
      assert ops[|ops| - 1].operatorId !in s0 by {
        forall i | 0 <= i < |init| ensures init[i].operatorId != ops[|ops| - 1].operatorId {
          assert init[i] == ops[i];
        }
      }
    }
  }

  /**
   * `UpdateSolutionComplain` on a found complaint: the solution and total
   * fee are set; a non-empty operator list replaces the lines wholesale,
   * every operator must be a user, and otherwise nothing is written.
   */
  function SolutionOutcome(users: seq<Users.User>, c: Complaint, solution: string, totalFee: nat, lines: seq<OperatorFee>)
    : (r: Result<Complaint>)
    ensures r.Ok? <==> lines == [] || forall i :: 0 <= i < |lines| ==> UserById(users, lines[i].operatorId).Some?
    ensures r.Err? ==> r == Err(BadRequest("user not found"))
    ensures r.Ok? ==> r.value.solution == solution && r.value.totalFee == totalFee
                      && r.value.operators == (if lines == [] then c.operators else lines)
                      && r.value.(solution := c.solution, totalFee := c.totalFee, operators := c.operators) == c
  {
    if lines != [] && exists i :: 0 <= i < |lines| && UserById(users, lines[i].operatorId).None? then
      Err(BadRequest("user not found"))
    else Ok(c.(solution := solution, totalFee := totalFee, operators := if lines == [] then c.operators else lines))
  }

  /** The validation inside the transaction's insert loop: stops at the first operator who is not a user. */
  method OperatorsKnown(users: seq<Users.User>, lines: seq<OperatorFee>) returns (known: bool)
    ensures known <==> forall i :: 0 <= i < |lines| ==> UserById(users, lines[i].operatorId).Some?
  {
    var i := 0;
    while i < |lines|
      invariant 0 <= i <= |lines|
      invariant forall j :: 0 <= j < i ==> UserById(users, lines[j].operatorId).Some?
    {
      if UserById(users, lines[i].operatorId).None? {
        return false;
      }
      i := i + 1;
    }
    return true;
  }

  /** `UpdateSolutionComplain` (route without a role gate). */
  method UpdateSolutionComplain(db: Database, id: nat, solution: string, totalFee: nat, lines: seq<OperatorFee>)
    returns (r: Result<Complaint>)
    requires ComplaintsValid(db.complaints, db.nextId)
    modifies db`complaints
    ensures ComplaintsValid(db.complaints, db.nextId)
    ensures ComplaintById(old(db.complaints), id).None? ==>
              r == Err(NotFound("complain")) && db.complaints == old(db.complaints)
    ensures ComplaintById(old(db.complaints), id).Some? ==> var k := ComplaintById(old(db.complaints), id).value;
      r == SolutionOutcome(db.users, old(db.complaints)[k], solution, totalFee, lines)
      && db.complaints == if r.Ok? then old(db.complaints)[k := r.value] else old(db.complaints)
  {
    var found := ComplaintById(db.complaints, id);
    if found.None? {
      return Err(NotFound("complain"));
    }
    var k := found.value;
    var c := db.complaints[k];
    var ops := c.operators;
    if |lines| > 0 {
      var known := OperatorsKnown(db.users, lines);
      if !known {
        return Err(BadRequest("user not found"));
      }
      ops := lines;
    }
    r := Ok(c.(solution := solution, totalFee := totalFee, operators := ops));
    db.complaints := db.complaints[k := r.value];
  }

  /** An empty operator list keeps the complaint's operator lines, so a solution can be revised alone. */
  lemma EmptyListKeepsOperators(users: seq<Users.User>, c: Complaint, solution: string, totalFee: nat)
    ensures SolutionOutcome(users, c, solution, totalFee, []) == Ok(c.(solution := solution, totalFee := totalFee))
  {}

  /** `UpdateCheckComplain` on a found complaint: a missing flag is refused, else it is set, true or false. */
  function CheckOutcome(c: Complaint, body: Option<bool>): (r: Result<Complaint>)
    ensures r.Ok? <==> body.Some?
    ensures r.Err? ==> r == Err(BadRequest("checked field is required"))
    ensures r.Ok? ==> r.value == c.(checked := body.value)
  {
    if body.None? then Err(BadRequest("checked field is required")) else Ok(c.(checked := body.value))
  }

  /**
   * `UpdateCheckComplain` (route without a role gate). The request binding
   * refuses a missing flag before the complaint is looked up.
   */
  method UpdateCheckComplain(db: Database, id: nat, body: Option<bool>) returns (r: Result<Complaint>)
    requires ComplaintsValid(db.complaints, db.nextId)
    modifies db`complaints
    ensures ComplaintsValid(db.complaints, db.nextId)
    ensures body.None? ==> r == Err(BadRequest("checked field is required")) && db.complaints == old(db.complaints)
    ensures body.Some? && ComplaintById(old(db.complaints), id).None? ==>
              r == Err(NotFound("complain")) && db.complaints == old(db.complaints)
    ensures body.Some? && ComplaintById(old(db.complaints), id).Some? ==>
      var k := ComplaintById(old(db.complaints), id).value;
      r == CheckOutcome(old(db.complaints)[k], body) && db.complaints == old(db.complaints)[k := r.value]
  {
    if body.None? {
      return Err(BadRequest("checked field is required"));
    }
    var found := ComplaintById(db.complaints, id);
    if found.None? {
      return Err(NotFound("complain"));
    }
    var k := found.value;
    r := CheckOutcome(db.complaints[k], body);
    db.complaints := db.complaints[k := r.value];
  }

  /** Unlike the order's complained flag, the checked flag binds through a pointer and can be cleared. */
  lemma CheckedCanBeCleared(c: Complaint)
    requires c.checked
    ensures CheckOutcome(c, Some(false)) == Ok(c.(checked := false))
  {}
}
