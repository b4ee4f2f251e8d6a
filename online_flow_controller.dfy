/**
 * The online flow (controllers/online_flow_controller.go): for a tracking
 * number, what QC-online, outbound and order records say about it, and the
 * paged listing of those snapshots over the QC-online tracking numbers.
 */
module OnlineFlowController {
  import opened Wrappers
  import opened OrderModel
  import opened Records
  import opened Store
  import opened FlowQuery
  import Users

  /** The order part of an online flow, which also shows the order's processing status. */
  datatype OrderSection = OrderSection(tracking: string, processingStatus: string, gineeId: string, complained: bool, createdAt: int)

  datatype OnlineFlow = OnlineFlow(
    tracking: string, qcOnline: Option<QcSection>, outbound: Option<OutboundSection>, order: Option<OrderSection>)

  function OrderSectionOf(orders: seq<Order>, t: string): (s: Option<OrderSection>)
    ensures s.Some? <==> exists i :: 0 <= i < |orders| && orders[i].tracking == t
    ensures s.Some? ==> var k := OrderByTracking(orders, t).value;
      s.value == OrderSection(t, orders[k].processingStatus, orders[k].gineeId, orders[k].complained, orders[k].createdAt)
  {
    match OrderByTracking(orders, t)
    case None => None
    case Some(k) => Some(OrderSection(orders[k].tracking, orders[k].processingStatus, orders[k].gineeId, orders[k].complained, orders[k].createdAt))
  }

  /** `buildOnlineFlow`: each section present exactly when a record with that tracking number exists in its table. */
  function BuildOnlineFlow(db: Database, t: string): (f: OnlineFlow)
    reads db
    ensures f.tracking == t
    ensures f.qcOnline.Some? <==> exists i :: 0 <= i < |db.qcOnlines| && db.qcOnlines[i].tracking == t
    ensures f.outbound.Some? <==> exists i :: 0 <= i < |db.outbounds| && db.outbounds[i].tracking == t
    ensures f.order.Some? <==> exists i :: 0 <= i < |db.orders| && db.orders[i].tracking == t
  {
    OnlineFlow(t, QcSectionOf(db.qcOnlines, db.users, t), OutboundSectionOf(db.outbounds, db.users, t), OrderSectionOf(db.orders, t))
  }

  /** `GetOnlineFlow`: an empty tracking number is refused, and a flow without a QC-online section is not found. */
  function GetOnlineFlow(db: Database, t: string): (r: Result<OnlineFlow>)
    reads db
    ensures t == [] ==> r == Err(BadRequest("tracking number is required"))
    ensures r.Ok? <==> t != [] && exists i :: 0 <= i < |db.qcOnlines| && db.qcOnlines[i].tracking == t
    ensures r.Ok? ==> r.value == BuildOnlineFlow(db, t)
    ensures t != [] && r.Err? ==> r == Err(NotFound("qc-online record"))
  {
    if t == [] then Err(BadRequest("tracking number is required"))
    else
      var f := BuildOnlineFlow(db, t);
      if f.qcOnline.None? then Err(NotFound("qc-online record")) else Ok(f)
  }

  /** The order section reports the status the order has now: the flow follows the order through its transitions. */
  lemma OrderSectionShowsStatus(db: Database, t: string, k: nat)
    requires KeysUnique(db.orders) && k < |db.orders| && db.orders[k].tracking == t
    ensures BuildOnlineFlow(db, t).order == Some(OrderSection(t, db.orders[k].processingStatus, db.orders[k].gineeId,
                                                              db.orders[k].complained, db.orders[k].createdAt))
  {
  }

  /** `GetOnlineFlows`: the page of tracking numbers, then one flow per tracking number, in order. */
  method GetOnlineFlows(db: Database, page: int, limit: int, start: DateParam, end: DateParam, search: string)
    returns (r: Result<(seq<OnlineFlow>, nat)>)
    ensures var l := ListTrackings(db.qcOnlines, page, limit, start, end, search);
      (l.Err? ==> r == Err(l.error))
      && (l.Ok? ==> r.Ok? && r.value.1 == l.value.total && |r.value.0| == |l.value.trackings|
                    && forall i :: 0 <= i < |r.value.0| ==> r.value.0[i] == BuildOnlineFlow(db, l.value.trackings[i]))
  {
    var l := ListTrackings(db.qcOnlines, page, limit, start, end, search);
    if l.Err? {
      return Err(l.error);
    }
    var flows := BuildFlows(db, l.value.trackings);
    r := Ok((flows, l.value.total));
  }

  /** The loop of the listing handler: one flow per tracking number, in order. */
  method BuildFlows(db: Database, trackings: seq<string>) returns (flows: seq<OnlineFlow>)
    ensures |flows| == |trackings|
    ensures forall j :: 0 <= j < |trackings| ==> flows[j] == BuildOnlineFlow(db, trackings[j])
  {
    flows := [];
    var i := 0;
    while i < |trackings|
      invariant 0 <= i <= |trackings|
      invariant |flows| == i
      invariant forall j :: 0 <= j < i ==> flows[j] == BuildOnlineFlow(db, trackings[j])
    {
      flows := flows + [BuildOnlineFlow(db, trackings[i])];
      i := i + 1;
    }
  }

  /** Every flow of a listing page is found by the single-flow lookup. */
  lemma ListedFlowsAreFound(db: Database, page: int, limit: int, start: DateParam, end: DateParam, search: string, i: nat)
    requires ListTrackings(db.qcOnlines, page, limit, start, end, search).Ok?
    requires i < |ListTrackings(db.qcOnlines, page, limit, start, end, search).value.trackings|
    ensures GetOnlineFlow(db, ListTrackings(db.qcOnlines, page, limit, start, end, search).value.trackings[i]).Ok?
  {
    var t := ListTrackings(db.qcOnlines, page, limit, start, end, search).value.trackings[i];
    var k :| 0 <= k < |db.qcOnlines| && Qualifies(db.qcOnlines[k], start, end, search) && db.qcOnlines[k].tracking == t;
  }
}
