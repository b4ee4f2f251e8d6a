/**
 * QC-online intake (controllers/qc_online_controller.go): a QC-online record
 * for a normalised tracking number that has none yet and has an order, with
 * validated box lines; in the same transaction the order's processing status
 * becomes "qc complete".
 */
module QcOnlineController {
  import opened Wrappers
  import opened Text
  import opened OrderModel
  import opened Records
  import opened Store
  import opened QcChecks

  datatype QcRequest = QcRequest(tracking: string, lines: seq<BoxLine>)

  /** What `CreateQcOnline` answers: duplicate check, then the order, then the box lines. */
  function CreateOutcome(orders: seq<Order>, qcOnlines: seq<QcRecord>, boxes: seq<nat>, next: nat,
                         req: QcRequest, actor: nat, now: int): (r: Result<QcRecord>)
  {
    var t := Normalize(req.tracking);
    if QcByTracking(qcOnlines, t).Some? then Err(BadRequest("tracking already exists"))
    else if OrderByTracking(orders, t).None? then Err(NotFound("order"))
    else match BoxError(req.lines, boxes)
      case Some(e) => Err(e)
      case None => Ok(QcRecord(next, t, Some(actor), now, req.lines))
  }

  /**
   * A duplicate tracking number is refused before the order is looked up;
   * a record is created exactly when the tracking number is new, has an
   * order and the box lines are acceptable, and it holds the normalised
   * tracking number, the actor as its QC operator and the request's lines.
   */
  lemma CreateChecksInOrder(orders: seq<Order>, qcOnlines: seq<QcRecord>, boxes: seq<nat>, next: nat,
                            req: QcRequest, actor: nat, now: int)
    ensures var t := Normalize(req.tracking); var r := CreateOutcome(orders, qcOnlines, boxes, next, req, actor, now);
      (QcByTracking(qcOnlines, t).Some? ==> r == Err(BadRequest("tracking already exists")))
      && ((QcByTracking(qcOnlines, t).None? && OrderByTracking(orders, t).None?) ==> r == Err(NotFound("order")))
      && (r.Ok? <==> QcByTracking(qcOnlines, t).None? && OrderByTracking(orders, t).Some?
                     && BoxesAcceptable(req.lines, boxes))
      && (r.Ok? ==> r.value == QcRecord(next, t, Some(actor), now, req.lines))
  {
    BoxErrorMeaning(req.lines, boxes);
  }

  /** The status write of the transaction: the order with the tracking number becomes "qc complete". */
  function CompleteQc(orders: seq<Order>, t: string): (after: seq<Order>)
    ensures |after| == |orders|
    ensures forall i :: 0 <= i < |orders| ==>
      after[i] == if orders[i].tracking == t then orders[i].(processingStatus := QcComplete) else orders[i]
  {
    seq(|orders|, i requires 0 <= i < |orders| =>
      if orders[i].tracking == t then orders[i].(processingStatus := QcComplete) else orders[i])
  }

  /** `CreateQcOnline` (route without a role gate): the record, its lines and the status write commit together. */
  method CreateQcOnline(db: Database, req: QcRequest, actor: nat, now: int) returns (r: Result<QcRecord>)
    requires db.Valid() && QcRecordsValid(db.qcOnlines, db.nextId)
    modifies db`qcOnlines, db`orders, db`nextId
    ensures db.Valid() && QcRecordsValid(db.qcOnlines, db.nextId)
    ensures r == CreateOutcome(old(db.orders), old(db.qcOnlines), db.boxes, old(db.nextId), req, actor, now)
    ensures r.Ok? ==> db.qcOnlines == old(db.qcOnlines) + [r.value] && db.nextId == old(db.nextId) + 1
                      && db.orders == CompleteQc(old(db.orders), r.value.tracking)
    ensures r.Err? ==> db.qcOnlines == old(db.qcOnlines) && db.orders == old(db.orders) && db.nextId == old(db.nextId)
  {
    var t := Normalize(req.tracking);
    if QcByTracking(db.qcOnlines, t).Some? {
      return Err(BadRequest("tracking already exists"));
    }
    if OrderByTracking(db.orders, t).None? {
      return Err(NotFound("order"));
    }
    var e := ValidateBoxes(req.lines, db.boxes);
    if e.Some? {
      return Err(e.value);
    }
    r := Ok(QcRecord(db.nextId, t, Some(actor), now, req.lines));
    Commit(db, r.value);
  }

  /** The transaction: insert the record under the next key and write the order's status. */
  method Commit(db: Database, q: QcRecord)
    requires db.Valid() && QcRecordsValid(db.qcOnlines, db.nextId) && q.id == db.nextId
    requires QcByTracking(db.qcOnlines, q.tracking).None?
    modifies db`qcOnlines, db`orders, db`nextId
    ensures db.Valid() && QcRecordsValid(db.qcOnlines, db.nextId)
    ensures db.qcOnlines == old(db.qcOnlines) + [q] && db.nextId == old(db.nextId) + 1
    ensures db.orders == CompleteQc(old(db.orders), q.tracking)
  {
    AppendKeepsQcValid(db.qcOnlines, db.nextId, q);
    CompleteQcKeepsValid(db.orders, db.nextId, q.tracking);
    OrdersValidAbove(CompleteQc(db.orders, q.tracking), db.nextId, db.nextId + 1);
    UsersValidAbove(db.users, db.nextId, db.nextId + 1);
    db.qcOnlines := db.qcOnlines + [q];
    db.orders := CompleteQc(db.orders, q.tracking);
    db.nextId := db.nextId + 1;
  }

  /** The status write changes no key and no line item, so the orders table stays valid. */
  lemma CompleteQcKeepsValid(orders: seq<Order>, next: nat, t: string)
    requires OrdersValid(orders, next)
    ensures OrdersValid(CompleteQc(orders, t), next)
  {
    var after := CompleteQc(orders, t);
    assert forall i :: 0 <= i < |orders| ==>
      after[i].id == orders[i].id && after[i].gineeId == orders[i].gineeId
      && after[i].tracking == orders[i].tracking && after[i].details == orders[i].details;
  }

  /**
   * The order with the tracking number is the one order the write touches,
   * whatever status it had, cancelled or not; the online flow then reports
   * it as "qc complete".
   */
  lemma QcOnlineCompletesTheOrder(orders: seq<Order>, next: nat, t: string, k: nat)
    requires OrdersValid(orders, next) && k < |orders| && orders[k].tracking == t
    ensures CompleteQc(orders, t) == orders[k := orders[k].(processingStatus := QcComplete)]
  {
    var after := CompleteQc(orders, t);
    forall i | 0 <= i < |orders| && i != k ensures after[i] == orders[i] {
      assert i < k || k < i;
    }
  }
}
