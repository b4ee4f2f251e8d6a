/**
 * Orders and their line items (models/order.go), the processing-status
 * vocabulary, the uniqueness the orders table enforces, and the response
 * rendering of an order.
 */
module OrderModel {
  import opened Wrappers

  const ReadyToPick := "ready to pick"
  const PickingProcess := "picking process"
  const PendingPicking := "pending picking"
  const PickingComplete := "picking complete"
  const QcProcess := "qc process"
  const QcComplete := "qc complete"
  const Completed := "completed"

  const EventCancelled := "cancelled"
  const EventChanged := "changed"
  const EventDuplicated := "duplicated"

  datatype Product = Product(id: nat, sku: string, name: string, image: string)

  /** A line item. `product` is attached when the order is read back for a response, never stored. */
  datatype OrderDetail = OrderDetail(
    id: nat,
    sku: string,
    productName: string,
    variant: string,
    quantity: int,
    price: int,
    product: Option<Product>)

  /** An order. Times are integers (seconds); every `...By` holds a user id. */
  datatype Order = Order(
    id: nat,
    gineeId: string,
    processingStatus: string,
    eventStatus: Option<string>,
    channel: string,
    store: string,
    buyer: string,
    address: string,
    courier: string,
    tracking: string,
    sentBefore: int,
    assignedBy: Option<nat>,
    assignedAt: Option<int>,
    pickedBy: Option<nat>,
    pickedAt: Option<int>,
    pendingBy: Option<nat>,
    pendingAt: Option<int>,
    changedBy: Option<nat>,
    changedAt: Option<int>,
    cancelledBy: Option<nat>,
    cancelledAt: Option<int>,
    complained: bool,
    createdAt: int,
    details: seq<OrderDetail>)

  predicate IsCancelled(o: Order) {
    o.eventStatus == Some(EventCancelled)
  }

  /** The statuses in which the desk handlers refuse to modify, duplicate or cancel an order. */
  predicate Locked(o: Order) {
    o.processingStatus == PickingProcess || o.processingStatus == QcProcess
  }

  /** The unique constraints of the orders table: id, external (Ginee) id and tracking number. */
  predicate KeysUnique(orders: seq<Order>) {
    forall i, j :: 0 <= i < j < |orders| ==>
      orders[i].id != orders[j].id && orders[i].gineeId != orders[j].gineeId && orders[i].tracking != orders[j].tracking
  }

  predicate DetailIdsDistinct(details: seq<OrderDetail>) {
    forall i, j :: 0 <= i < j < |details| ==> details[i].id != details[j].id
  }

  /**
   * Every id in use, of an order or of a line item, is below `next`: ids
   * handed out from `next` are fresh. Line item ids, handed out by the
   * database, are positive.
   */
  predicate IdsBelow(orders: seq<Order>, next: nat) {
    forall i :: 0 <= i < |orders| ==>
      orders[i].id < next && forall k :: 0 <= k < |orders[i].details| ==> 0 < orders[i].details[k].id < next
  }

  predicate OrdersValid(orders: seq<Order>, next: nat) {
    KeysUnique(orders) && IdsBelow(orders, next)
    && forall i :: 0 <= i < |orders| ==> DetailIdsDistinct(orders[i].details)
  }

  /** A table cell that shows a value or the placeholder "-". */
  datatype Shown<T> = Dash | Shown(value: T)

  datatype DetailResponse = DetailResponse(
    id: nat, sku: string, productName: string, variant: string, quantity: int, price: int, product: Option<Product>)

  datatype OrderResponse = OrderResponse(
    id: nat,
    gineeId: string,
    processingStatus: string,
    eventStatus: Option<string>,
    channel: string,
    store: string,
    buyer: string,
    address: string,
    courier: string,
    tracking: string,
    sentBefore: int,
    complained: bool,
    assignedBy: Shown<string>,
    assignedAt: Shown<int>,
    pickedBy: Shown<string>,
    pickedAt: Shown<int>,
    pendingBy: Shown<string>,
    pendingAt: Shown<int>,
    changedBy: Shown<string>,
    changedAt: Shown<int>,
    cancelledBy: Shown<string>,
    cancelledAt: Shown<int>,
    details: seq<DetailResponse>)

  /** The operator is shown by full name when the reference is set and the user loads, else "-". */
  predicate ShowsOperator(cell: Shown<string>, who: Option<nat>, names: map<nat, string>) {
    if who.Some? && who.value in names then cell == Shown(names[who.value]) else cell == Dash
  }

  predicate ShowsTime(cell: Shown<int>, at: Option<int>) {
    if at.Some? then cell == Shown(at.value) else cell == Dash
  }

  function OperatorCell(who: Option<nat>, names: map<nat, string>): Shown<string> {
    if who.Some? && who.value in names then Shown(names[who.value]) else Dash
  }

  function TimeCell(at: Option<int>): Shown<int> {
    if at.Some? then Shown(at.value) else Dash
  }

  /**
   * `Order.ToOrderResponse`. `names` maps the ids of the operator users that
   * load to their full names. Every line item is copied with its product when
   * one is attached; every attribution shows its operator or time, or "-".
   */
  method ToOrderResponse(o: Order, names: map<nat, string>) returns (r: OrderResponse)
    ensures |r.details| == |o.details|
    ensures forall i :: 0 <= i < |o.details| ==>
      var d, rd := o.details[i], r.details[i];
      rd.id == d.id && rd.sku == d.sku && rd.productName == d.productName && rd.variant == d.variant
      && rd.quantity == d.quantity && rd.price == d.price && rd.product == d.product
    ensures r.id == o.id && r.gineeId == o.gineeId && r.processingStatus == o.processingStatus
      && r.eventStatus == o.eventStatus && r.channel == o.channel && r.store == o.store && r.buyer == o.buyer
      && r.address == o.address && r.courier == o.courier && r.tracking == o.tracking
      && r.sentBefore == o.sentBefore && r.complained == o.complained
    ensures ShowsOperator(r.assignedBy, o.assignedBy, names) && ShowsTime(r.assignedAt, o.assignedAt)
    ensures ShowsOperator(r.pickedBy, o.pickedBy, names) && ShowsTime(r.pickedAt, o.pickedAt)
    ensures ShowsOperator(r.pendingBy, o.pendingBy, names) && ShowsTime(r.pendingAt, o.pendingAt)
    ensures ShowsOperator(r.changedBy, o.changedBy, names) && ShowsTime(r.changedAt, o.changedAt)
    ensures ShowsOperator(r.cancelledBy, o.cancelledBy, names) && ShowsTime(r.cancelledAt, o.cancelledAt)
  {
    var details: seq<DetailResponse> := [];
    var i := 0;
    while i < |o.details|
      invariant 0 <= i <= |o.details|
      invariant |details| == i
      invariant forall k :: 0 <= k < i ==>
        var d, rd := o.details[k], details[k];
        rd.id == d.id && rd.sku == d.sku && rd.productName == d.productName && rd.variant == d.variant
        && rd.quantity == d.quantity && rd.price == d.price && rd.product == d.product
    {
      var d := o.details[i];
      var rd := DetailResponse(d.id, d.sku, d.productName, d.variant, d.quantity, d.price, None);
      if d.product.Some? {
        var p := d.product.value;
        rd := rd.(product := Some(Product(p.id, p.sku, p.name, p.image)));
      }
      details := details + [rd];
      i := i + 1;
    }
    r := OrderResponse(
      o.id, o.gineeId, o.processingStatus, o.eventStatus, o.channel, o.store, o.buyer, o.address,
      o.courier, o.tracking, o.sentBefore, o.complained,
      OperatorCell(o.assignedBy, names), TimeCell(o.assignedAt),
      OperatorCell(o.pickedBy, names), TimeCell(o.pickedAt),
      OperatorCell(o.pendingBy, names), TimeCell(o.pendingAt),
      OperatorCell(o.changedBy, names), TimeCell(o.changedAt),
      OperatorCell(o.cancelledBy, names), TimeCell(o.cancelledAt),
      details);
  }

  /**
   * What the desk and the mobile "pending" handlers write: the order goes
   * back to "pending picking", records who parked it and when, and forgets
   * its picker and its assignment.
   */
  function MarkPending(o: Order, actor: nat, now: int): Order {
    o.(processingStatus := PendingPicking, pendingBy := Some(actor), pendingAt := Some(now),
       pickedBy := None, assignedBy := None, assignedAt := None)
  }

  /** A parked order keeps its identity and items and carries no picker. */
  lemma MarkPendingClearsPicker(o: Order, actor: nat, now: int)
    ensures var p := MarkPending(o, actor, now);
      p.processingStatus == PendingPicking && p.pickedBy.None? && p.assignedBy.None? && p.assignedAt.None?
      && p.pendingBy == Some(actor) && p.pendingAt == Some(now)
      && p.id == o.id && p.gineeId == o.gineeId && p.tracking == o.tracking && p.details == o.details
      && p.pickedAt == o.pickedAt && p.eventStatus == o.eventStatus
  {}
}
