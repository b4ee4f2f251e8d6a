/**
 * Returns (controllers/return_controller.go): a return is recorded against
 * the order its old tracking number belongs to and lists the products of
 * that order's items; a return with no product line is not kept. Its return
 * and scrap numbers are filled in afterwards.
 */
module ReturnController {
  import opened Wrappers
  import opened Text
  import opened OrderModel
  import opened Records
  import opened Store
  import opened ProductLines
  import Tables

  /** The returns table: new tracking numbers unique, ids distinct and below the next key. */
  predicate ReturnsValid(rows: seq<Return>, next: nat) {
    (forall i :: 0 <= i < |rows| ==> rows[i].id < next)
    && forall i, j :: 0 <= i < j < |rows| ==> rows[i].id != rows[j].id && rows[i].newTracking != rows[j].newTracking
  }

  datatype ReturnRequest = ReturnRequest(
    newTracking: string, oldTracking: string, returnType: string, reason: string, channelId: nat, storeId: nat)

  function ReturnByNewTracking(rows: seq<Return>, t: string): Option<nat> {
    Tables.Find(rows, (r: Return) => r.newTracking == t)
  }

  function ReturnById(rows: seq<Return>, id: nat): Option<nat> {
    Tables.Find(rows, (r: Return) => r.id == id)
  }

  /**
   * What `CreateReturn` answers: the new tracking number must be unused,
   * the old one must belong to an order with items, and at least one item
   * must name a product.
   */
  function CreateOutcome(rows: seq<Return>, orders: seq<Order>, products: seq<Product>, next: nat,
                         req: ReturnRequest, actor: nat): Result<Return>
  {
    var nt := Normalize(req.newTracking);
    var ot := Normalize(req.oldTracking);
    if ReturnByNewTracking(rows, nt).Some? then Err(BadRequest("tracking already exists"))
    else match OrderByTracking(orders, ot)
      case None => Err(NotFound("order"))
      case Some(k) =>
        if orders[k].details == [] then Err(BadRequest("order has no details"))
        else
          var lines := Resolved(orders[k].details, products);
          if lines == [] then Err(BadRequest("no return details created"))
          else Ok(Return(next, nt, ot, req.returnType, req.channelId, req.storeId, req.reason,
                         orders[k].gineeId, actor, None, None, None, lines))
  }

  /**
   * The checks run in the source's order. A return is recorded exactly when
   * its normalised new tracking number is unused, the normalised old one
   * belongs to an order, and some item of that order names a product; it
   * then copies the order's external id, has as many lines as resolving
   * items, and no return or scrap number yet.
   */
  lemma CreateChecksInOrder(rows: seq<Return>, orders: seq<Order>, products: seq<Product>, next: nat,
                            req: ReturnRequest, actor: nat)
    ensures var nt, ot := Normalize(req.newTracking), Normalize(req.oldTracking);
      var r := CreateOutcome(rows, orders, products, next, req, actor);
      (ReturnByNewTracking(rows, nt).Some? ==> r == Err(BadRequest("tracking already exists")))
      && ((ReturnByNewTracking(rows, nt).None? && OrderByTracking(orders, ot).None?) ==> r == Err(NotFound("order")))
      && (r.Ok? <==> ReturnByNewTracking(rows, nt).None? && OrderByTracking(orders, ot).Some?
                     && exists i :: 0 <= i < |orders[OrderByTracking(orders, ot).value].details|
                                    && ProductBySku(products, orders[OrderByTracking(orders, ot).value].details[i].sku).Some?)
      && (r.Ok? ==> var o := orders[OrderByTracking(orders, ot).value];
                    r.value.id == next && r.value.newTracking == nt && r.value.oldTracking == ot
                    && r.value.orderGineeId == o.gineeId && r.value.createdBy == actor
                    && 1 <= |r.value.lines| == |o.details| - |Unresolved(o.details, products)|
                    && r.value.returnNumber.None? && r.value.scrapNumber.None? && r.value.updatedBy.None?)
  {
    var ot := Normalize(req.oldTracking);
    if OrderByTracking(orders, ot).Some? {
      var o := orders[OrderByTracking(orders, ot).value];
      NoLinesIffNothingResolves(o.details, products);
      EveryItemIsAccountedFor(o.details, products);
    }
  }

  /**
   * `CreateReturn` (route without a role gate): the return and its lines
   * commit together, or nothing is kept; when no item names a product,
   * `missing` lists every item's SKU for the error message.
   */
  method CreateReturn(db: Database, req: ReturnRequest, actor: nat) returns (r: Result<Return>, missing: seq<string>)
    requires db.Valid() && ReturnsValid(db.returnRecords, db.nextId)
    modifies db`returnRecords, db`nextId
    ensures db.Valid() && ReturnsValid(db.returnRecords, db.nextId)
    ensures r == CreateOutcome(old(db.returnRecords), db.orders, db.products, old(db.nextId), req, actor)
    ensures r.Ok? ==> db.returnRecords == old(db.returnRecords) + [r.value] && db.nextId == old(db.nextId) + 1
    ensures r.Err? ==> db.returnRecords == old(db.returnRecords) && db.nextId == old(db.nextId)
    ensures r == Err(BadRequest("no return details created")) ==>
      var k := OrderByTracking(db.orders, Normalize(req.oldTracking));
      k.Some? && missing == Unresolved(db.orders[k.value].details, db.products)
      && |missing| == |db.orders[k.value].details|
  {
    missing := [];
    var nt := Normalize(req.newTracking);
    if ReturnByNewTracking(db.returnRecords, nt).Some? {
      return Err(BadRequest("tracking already exists")), missing;
    }
    var ot := Normalize(req.oldTracking);
    var found := OrderByTracking(db.orders, ot);
    if found.None? {
      return Err(NotFound("order")), missing;
    }
    var o := db.orders[found.value];
    if |o.details| == 0 {
      return Err(BadRequest("order has no details")), missing;
    }
    var lines;
    lines, missing := ResolveLines(o.details, db.products);
    if |lines| == 0 {
      EveryItemIsAccountedFor(o.details, db.products);
      return Err(BadRequest("no return details created")), missing;
    }
    r := Ok(Return(db.nextId, nt, ot, req.returnType, req.channelId, req.storeId, req.reason,
                   o.gineeId, actor, None, None, None, lines));
    Append(db, r.value);
  }

  /** The insert: the new row takes the next key. */
  method Append(db: Database, ret: Return)
    requires db.Valid() && ReturnsValid(db.returnRecords, db.nextId) && ret.id == db.nextId
    requires ReturnByNewTracking(db.returnRecords, ret.newTracking).None?
    modifies db`returnRecords, db`nextId
    ensures db.Valid() && ReturnsValid(db.returnRecords, db.nextId)
    ensures db.returnRecords == old(db.returnRecords) + [ret] && db.nextId == old(db.nextId) + 1
  {
    OrdersValidAbove(db.orders, db.nextId, db.nextId + 1);
    UsersValidAbove(db.users, db.nextId, db.nextId + 1);
    db.returnRecords := db.returnRecords + [ret];
    db.nextId := db.nextId + 1;
  }

  /** `UpdateDataReturn`: the return and scrap numbers and the updater are set; nothing else changes. */
  function FillNumbers(ret: Return, returnNumber: string, scrapNumber: string, actor: nat): (after: Return)
    ensures after.returnNumber == Some(returnNumber) && after.scrapNumber == Some(scrapNumber)
    ensures after.updatedBy == Some(actor)
    ensures after.(returnNumber := ret.returnNumber, scrapNumber := ret.scrapNumber, updatedBy := ret.updatedBy) == ret
  {
    ret.(returnNumber := Some(returnNumber), scrapNumber := Some(scrapNumber), updatedBy := Some(actor))
  }

  /** `UpdateDataReturn` (route without a role gate). */
  method UpdateDataReturn(db: Database, id: nat, returnNumber: string, scrapNumber: string, actor: nat)
    returns (r: Result<Return>)
    requires ReturnsValid(db.returnRecords, db.nextId)
    modifies db`returnRecords
    ensures ReturnsValid(db.returnRecords, db.nextId)
    ensures ReturnById(old(db.returnRecords), id).None? ==>
              r == Err(NotFound("return")) && db.returnRecords == old(db.returnRecords)
    ensures ReturnById(old(db.returnRecords), id).Some? ==> var k := ReturnById(old(db.returnRecords), id).value;
      r == Ok(FillNumbers(old(db.returnRecords)[k], returnNumber, scrapNumber, actor))
      && db.returnRecords == old(db.returnRecords)[k := r.value]
  {
    var found := ReturnById(db.returnRecords, id);
    if found.None? {
      return Err(NotFound("return"));
    }
    var k := found.value;
    r := Ok(FillNumbers(db.returnRecords[k], returnNumber, scrapNumber, actor));
    db.returnRecords := db.returnRecords[k := r.value];
  }

  /** Filling the numbers in twice keeps the second numbers and updater: the update is a plain overwrite. */
  lemma FillNumbersOverwrites(ret: Return, n1: string, s1: string, a1: nat, n2: string, s2: string, a2: nat)
    ensures FillNumbers(FillNumbers(ret, n1, s1, a1), n2, s2, a2) == FillNumbers(ret, n2, s2, a2)
  {}
}
