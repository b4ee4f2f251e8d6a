/**
 * QC-ribbon intake (controllers/qc_ribbon_controller.go): a QC-ribbon record
 * for a normalised tracking number that has an order, with validated box
 * lines, when no QC-ribbon record has that tracking number yet. The order
 * itself is not touched.
 */
module QcRibbonController {
  import opened Wrappers
  import opened Text
  import opened OrderModel
  import opened Records
  import opened Store
  import opened QcChecks
  import QcOnlineController

  /** What `CreateQcRibbon` answers: the order, then the box lines, then the duplicate check. */
  function CreateOutcome(orders: seq<Order>, qcRibbons: seq<QcRecord>, boxes: seq<nat>, next: nat,
                         req: QcOnlineController.QcRequest, actor: nat, now: int): (r: Result<QcRecord>)
  {
    var t := Normalize(req.tracking);
    if OrderByTracking(orders, t).None? then Err(NotFound("order"))
    else match BoxError(req.lines, boxes)
      case Some(e) => Err(e)
      case None =>
        if QcByTracking(qcRibbons, t).Some? then Err(BadRequest("tracking already exists"))
        else Ok(QcRecord(next, t, Some(actor), now, req.lines))
  }

  /**
   * A missing order is reported first and bad box lines before a duplicate
   * tracking number; a record is created exactly when the tracking number
   * has an order, the lines are acceptable and no QC-ribbon record has it.
   */
  lemma CreateChecksInOrder(orders: seq<Order>, qcRibbons: seq<QcRecord>, boxes: seq<nat>, next: nat,
                            req: QcOnlineController.QcRequest, actor: nat, now: int)
    ensures var t := Normalize(req.tracking); var r := CreateOutcome(orders, qcRibbons, boxes, next, req, actor, now);
      (OrderByTracking(orders, t).None? ==> r == Err(NotFound("order")))
      && ((OrderByTracking(orders, t).Some? && BoxError(req.lines, boxes).Some?) ==> r == Err(BoxError(req.lines, boxes).value))
      && (r.Ok? <==> OrderByTracking(orders, t).Some? && BoxesAcceptable(req.lines, boxes)
                     && QcByTracking(qcRibbons, t).None?)
      && (r.Ok? ==> r.value == QcRecord(next, t, Some(actor), now, req.lines))
  {
    BoxErrorMeaning(req.lines, boxes);
  }

  /**
   * The two QC intakes check in different orders: a repeated tracking number
   * with no order is a duplicate to QC-online and a missing order to QC-ribbon.
   */
  lemma IntakesCheckInDifferentOrders(boxes: seq<nat>, req: QcOnlineController.QcRequest, q: QcRecord, actor: nat, now: int)
    requires q.tracking == Normalize(req.tracking)
    ensures QcOnlineController.CreateOutcome([], [q], boxes, 1, req, actor, now) == Err(BadRequest("tracking already exists"))
    ensures CreateOutcome([], [q], boxes, 1, req, actor, now) == Err(NotFound("order"))
  {
    assert QcByTracking([q], q.tracking) == Some(0);
  }

  /** `CreateQcRibbon` (route without a role gate): the record and its lines commit together; orders are untouched. */
  method CreateQcRibbon(db: Database, req: QcOnlineController.QcRequest, actor: nat, now: int) returns (r: Result<QcRecord>)
    requires db.Valid() && QcRecordsValid(db.qcRibbons, db.nextId)
    modifies db`qcRibbons, db`nextId
    ensures db.Valid() && QcRecordsValid(db.qcRibbons, db.nextId)
    ensures r == CreateOutcome(db.orders, old(db.qcRibbons), db.boxes, old(db.nextId), req, actor, now)
    ensures r.Ok? ==> db.qcRibbons == old(db.qcRibbons) + [r.value] && db.nextId == old(db.nextId) + 1
    ensures r.Err? ==> db.qcRibbons == old(db.qcRibbons) && db.nextId == old(db.nextId)
  {
    var t := Normalize(req.tracking);
    if OrderByTracking(db.orders, t).None? {
      return Err(NotFound("order"));
    }
    var e := ValidateBoxes(req.lines, db.boxes);
    if e.Some? {
      return Err(e.value);
    }
    if QcByTracking(db.qcRibbons, t).Some? {
      return Err(BadRequest("tracking already exists"));
    }
    r := Ok(QcRecord(db.nextId, t, Some(actor), now, req.lines));
    Commit(db, r.value);
  }

  /** The transaction: insert the record under the next key. */
  method Commit(db: Database, q: QcRecord)
    requires db.Valid() && QcRecordsValid(db.qcRibbons, db.nextId) && q.id == db.nextId
    requires QcByTracking(db.qcRibbons, q.tracking).None?
    modifies db`qcRibbons, db`nextId
    ensures db.Valid() && QcRecordsValid(db.qcRibbons, db.nextId)
    ensures db.qcRibbons == old(db.qcRibbons) + [q] && db.nextId == old(db.nextId) + 1
  {
    AppendKeepsQcValid(db.qcRibbons, db.nextId, q);
    OrdersValidAbove(db.orders, db.nextId, db.nextId + 1);
    UsersValidAbove(db.users, db.nextId, db.nextId + 1);
    db.qcRibbons := db.qcRibbons + [q];
    db.nextId := db.nextId + 1;
  }
}
