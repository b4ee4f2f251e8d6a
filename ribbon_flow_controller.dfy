/**
 * The ribbon flow (controllers/ribbon_flow_controller.go): for a tracking
 * number, what QC-ribbon, outbound and order records say about it, and the
 * paged listing of those snapshots over the QC-ribbon tracking numbers.
 */
module RibbonFlowController {
  import opened Wrappers
  import opened OrderModel
  import opened Records
  import opened Store
  import opened FlowQuery
  import Users

  /** The order part of a ribbon flow. */
  datatype OrderSection = OrderSection(tracking: string, gineeId: string, complained: bool, createdAt: int)

  datatype RibbonFlow = RibbonFlow(
    tracking: string, qcRibbon: Option<QcSection>, outbound: Option<OutboundSection>, order: Option<OrderSection>)

  function OrderSectionOf(orders: seq<Order>, t: string): (s: Option<OrderSection>)
    ensures s.Some? <==> exists i :: 0 <= i < |orders| && orders[i].tracking == t
    ensures s.Some? ==> var k := OrderByTracking(orders, t).value;
      s.value == OrderSection(t, orders[k].gineeId, orders[k].complained, orders[k].createdAt)
  {
    match OrderByTracking(orders, t)
    case None => None
    case Some(k) => Some(OrderSection(orders[k].tracking, orders[k].gineeId, orders[k].complained, orders[k].createdAt))
  }

  /**
   * `buildRibbonFlow` as written: the QC-ribbon and outbound lookups preload
   * an association named "User", which neither record declares (their
   * operators are `QcOperator` and `OutboundOperator`), so both lookups
   * fail and both sections are always absent.
   */
  function BuildRibbonFlowAsWritten(db: Database, t: string): (f: RibbonFlow)
    reads db
    ensures f.tracking == t && f.qcRibbon.None? && f.outbound.None?
    ensures f.order == OrderSectionOf(db.orders, t)
  {
    RibbonFlow(t, None, None, OrderSectionOf(db.orders, t))
  }

  /** The handler around a built flow: an empty tracking number is refused, and a flow without a QC-ribbon section is not found. */
  function Respond(t: string, f: RibbonFlow): (r: Result<RibbonFlow>)
    ensures t == [] ==> r == Err(BadRequest("tracking number is required"))
    ensures t != [] && f.qcRibbon.None? ==> r == Err(NotFound("qc-ribbon record"))
    ensures r.Ok? <==> t != [] && f.qcRibbon.Some?
    ensures r.Ok? ==> r.value == f
  {
    if t == [] then Err(BadRequest("tracking number is required"))
    else if f.qcRibbon.None? then Err(NotFound("qc-ribbon record"))
    else Ok(f)
  }

  /** `GetRibbonFlow` as written: every non-empty tracking number is reported as not found. */
  function GetRibbonFlowAsWritten(db: Database, t: string): (r: Result<RibbonFlow>)
    reads db
    ensures t != [] ==> r == Err(NotFound("qc-ribbon record"))
  {
    Respond(t, BuildRibbonFlowAsWritten(db, t))
  }

  /** As written, a tracking number that has a QC-ribbon record still yields no flow. */
  lemma RecordedTrackingNotFoundAsWritten(db: Database, k: nat)
    requires k < |db.qcRibbons| && db.qcRibbons[k].tracking != []
    ensures GetRibbonFlowAsWritten(db, db.qcRibbons[k].tracking).Err?
  {}

  /**
   * `buildRibbonFlow` as evidently intended: each section present exactly
   * when a record with that tracking number exists in its table, with its
   * operator when the operator can be loaded.
   */
  function BuildRibbonFlow(db: Database, t: string): (f: RibbonFlow)
    reads db
    ensures f.tracking == t
    ensures f.qcRibbon.Some? <==> exists i :: 0 <= i < |db.qcRibbons| && db.qcRibbons[i].tracking == t
    ensures f.outbound.Some? <==> exists i :: 0 <= i < |db.outbounds| && db.outbounds[i].tracking == t
    ensures f.order.Some? <==> exists i :: 0 <= i < |db.orders| && db.orders[i].tracking == t
  {
    RibbonFlow(t, QcSectionOf(db.qcRibbons, db.users, t), OutboundSectionOf(db.outbounds, db.users, t), OrderSectionOf(db.orders, t))
  }

  /** `GetRibbonFlow` as evidently intended: found exactly when a QC-ribbon record carries the tracking number. */
  function GetRibbonFlow(db: Database, t: string): (r: Result<RibbonFlow>)
    reads db
    ensures t == [] ==> r == Err(BadRequest("tracking number is required"))
    ensures r.Ok? <==> t != [] && exists i :: 0 <= i < |db.qcRibbons| && db.qcRibbons[i].tracking == t
    ensures r.Ok? ==> r.value == BuildRibbonFlow(db, t)
    ensures t != [] && r.Err? ==> r == Err(NotFound("qc-ribbon record"))
  {
    Respond(t, BuildRibbonFlow(db, t))
  }

  /** The QC-ribbon section alone decides: outbound and order records do not make a flow found. */
  lemma QcRibbonDecides(db: Database, t: string, j: nat)
    requires t != [] && j < |db.outbounds| && db.outbounds[j].tracking == t
    requires forall i :: 0 <= i < |db.qcRibbons| ==> db.qcRibbons[i].tracking != t
    ensures GetRibbonFlow(db, t) == Err(NotFound("qc-ribbon record"))
    ensures BuildRibbonFlow(db, t).outbound.Some?
  {}

  /** `GetRibbonFlows`: the page of tracking numbers, then one flow per tracking number, in order. */
  method GetRibbonFlows(db: Database, page: int, limit: int, start: DateParam, end: DateParam, search: string)
    returns (r: Result<(seq<RibbonFlow>, nat)>)
    ensures var l := ListTrackings(db.qcRibbons, page, limit, start, end, search);
      (l.Err? ==> r == Err(l.error))
      && (l.Ok? ==> r.Ok? && r.value.1 == l.value.total && |r.value.0| == |l.value.trackings|
                    && forall i :: 0 <= i < |r.value.0| ==> r.value.0[i] == BuildRibbonFlow(db, l.value.trackings[i]))
  {
    var l := ListTrackings(db.qcRibbons, page, limit, start, end, search);
    if l.Err? {
      return Err(l.error);
    }
    var flows := BuildFlows(db, l.value.trackings);
    r := Ok((flows, l.value.total));
  }

  /** The loop of the listing handler: one flow per tracking number, in order. */
  method BuildFlows(db: Database, trackings: seq<string>) returns (flows: seq<RibbonFlow>)
    ensures |flows| == |trackings|
    ensures forall j :: 0 <= j < |trackings| ==> flows[j] == BuildRibbonFlow(db, trackings[j])
  {
    flows := [];
    var i := 0;
    while i < |trackings|
      invariant 0 <= i <= |trackings|
      invariant |flows| == i
      invariant forall j :: 0 <= j < i ==> flows[j] == BuildRibbonFlow(db, trackings[j])
    {
      flows := flows + [BuildRibbonFlow(db, trackings[i])];
      i := i + 1;
    }
  }

  /** Every flow of a listing page is found by the single-flow lookup: the listing only shows QC-ribbon trackings. */
  lemma ListedFlowsAreFound(db: Database, page: int, limit: int, start: DateParam, end: DateParam, search: string, i: nat)
    requires ListTrackings(db.qcRibbons, page, limit, start, end, search).Ok?
    requires i < |ListTrackings(db.qcRibbons, page, limit, start, end, search).value.trackings|
    ensures GetRibbonFlow(db, ListTrackings(db.qcRibbons, page, limit, start, end, search).value.trackings[i]).Ok?
  {
    var t := ListTrackings(db.qcRibbons, page, limit, start, end, search).value.trackings[i];
    var k :| 0 <= k < |db.qcRibbons| && Qualifies(db.qcRibbons[k], start, end, search) && db.qcRibbons[k].tracking == t;
  }

  /**
   * The listing loop as written: it calls the same `buildRibbonFlow`, so
   * every snapshot of a page lacks its QC-ribbon and outbound sections.
   */
  function ListedFlowsAsWritten(db: Database, trackings: seq<string>): (fs: seq<RibbonFlow>)
    reads db
    ensures |fs| == |trackings|
    ensures forall i :: 0 <= i < |trackings| ==>
      fs[i].tracking == trackings[i] && fs[i].qcRibbon.None? && fs[i].outbound.None?
      && fs[i].order == OrderSectionOf(db.orders, trackings[i])
  {
    seq(|trackings|, i requires 0 <= i < |trackings| reads db => BuildRibbonFlowAsWritten(db, trackings[i]))
  }

  /**
   * As written, every tracking number a listing page shows has a QC-ribbon
   * record, yet its snapshot has no QC-ribbon section and the single lookup
   * answers not found for it.
   */
  lemma ListedFlowsNotFoundAsWritten(db: Database, page: int, limit: int, start: DateParam, end: DateParam, search: string, i: nat)
    requires ListTrackings(db.qcRibbons, page, limit, start, end, search).Ok?
    requires i < |ListTrackings(db.qcRibbons, page, limit, start, end, search).value.trackings|
    ensures var ts := ListTrackings(db.qcRibbons, page, limit, start, end, search).value.trackings;
      (exists k :: 0 <= k < |db.qcRibbons| && db.qcRibbons[k].tracking == ts[i])
      && ListedFlowsAsWritten(db, ts)[i].qcRibbon.None?
      && GetRibbonFlowAsWritten(db, ts[i]) == Err(NotFound("qc-ribbon record"))
  {
    var ts := ListTrackings(db.qcRibbons, page, limit, start, end, search).value.trackings;
    var k :| 0 <= k < |db.qcRibbons| && Qualifies(db.qcRibbons[k], start, end, search) && db.qcRibbons[k].tracking == ts[i];
    assert ts[i] != [];
  }
}
