/**
 * The desk order handlers (controllers/order_controller.go): bulk intake,
 * editing, duplication, cancellation, picker assignment, parking an order
 * back to pending, and the complained flag. Each transition on one order is
 * a function; each handler looks the order up, applies the transition and
 * commits it, or leaves the database as it was.
 */
module OrderController {
  import opened Wrappers
  import opened OrderModel
  import opened DetailReconcile
  import opened Store
  import Rbac

  /** The header fields an edit replaces; `sentBefore` is None when absent or not in the expected layout. */
  datatype HeaderEdit = HeaderEdit(
    channel: string, store: string, buyer: string, address: string, courier: string,
    tracking: string, sentBefore: Option<int>)

  /** Some other order (a different id) already uses tracking number `t`. */
  predicate TrackingTaken(orders: seq<Order>, self: nat, t: string) {
    exists j :: 0 <= j < |orders| && orders[j].id != self && orders[j].tracking == t
  }

  predicate GineeIdTaken(orders: seq<Order>, self: nat, g: string) {
    exists j :: 0 <= j < |orders| && orders[j].id != self && orders[j].gineeId == g
  }

  /** `CancelOrder`: refused while picking or in QC (reporting the status) and when already cancelled. */
  function Cancel(o: Order, actor: nat, now: int): (r: Result<Order>)
    ensures Locked(o) ==> r == Err(InvalidState(o.processingStatus))
    ensures !Locked(o) && IsCancelled(o) ==> r == Err(AlreadyCancelled)
    ensures r.Ok? <==> !Locked(o) && !IsCancelled(o)
    ensures r.Ok? ==> IsCancelled(r.value) && r.value.cancelledBy == Some(actor) && r.value.cancelledAt == Some(now)
    ensures r.Ok? ==> r.value.(eventStatus := o.eventStatus, cancelledBy := o.cancelledBy, cancelledAt := o.cancelledAt) == o
  {
    if Locked(o) then Err(InvalidState(o.processingStatus))
    else if IsCancelled(o) then Err(AlreadyCancelled)
    else Ok(o.(eventStatus := Some(EventCancelled), cancelledBy := Some(actor), cancelledAt := Some(now)))
  }

  /**
   * `AssignPicker` once the picker and the order are found: refused when
   * cancelled (checked first), when already being picked, and in QC or
   * completed; otherwise the order goes to "picking process" under the picker.
   */
  function Assign(o: Order, picker: nat, actor: nat, now: int): (r: Result<Order>)
    ensures IsCancelled(o) ==> r == Err(AlreadyCancelled)
    ensures !IsCancelled(o) && o.processingStatus in {PickingProcess, QcProcess, Completed} ==>
              r == Err(InvalidState(o.processingStatus))
    ensures r.Ok? <==> !IsCancelled(o) && o.processingStatus !in {PickingProcess, QcProcess, Completed}
    ensures r.Ok? ==> r.value.processingStatus == PickingProcess && r.value.pickedBy == Some(picker)
                      && r.value.assignedBy == Some(actor) && r.value.assignedAt == Some(now)
    ensures r.Ok? ==> r.value.(processingStatus := o.processingStatus, pickedBy := o.pickedBy,
                               assignedBy := o.assignedBy, assignedAt := o.assignedAt) == o
  {
    if IsCancelled(o) then Err(AlreadyCancelled)
    else if o.processingStatus == PickingProcess then Err(InvalidState(PickingProcess))
    else if o.processingStatus == QcProcess || o.processingStatus == Completed then Err(InvalidState(o.processingStatus))
    else Ok(o.(assignedBy := Some(actor), assignedAt := Some(now), pickedBy := Some(picker), processingStatus := PickingProcess))
  }

  /** `PendingPickOrders`: only an order in "picking process" can be parked. */
  function Park(o: Order, actor: nat, now: int): (r: Result<Order>)
    ensures r.Ok? <==> o.processingStatus == PickingProcess
    ensures r.Err? ==> r == Err(InvalidState(o.processingStatus))
    ensures r.Ok? ==> r.value == MarkPending(o, actor, now)
  {
    if o.processingStatus != PickingProcess then Err(InvalidState(o.processingStatus))
    else Ok(MarkPending(o, actor, now))
  }

  /**
   * `UpdateOrder` on a found order: the guards of `Cancel`, then the header
   * (its new tracking number must not be another order's), then the line
   * items; an edit that leaves no line item is refused.
   */
  function Edit(o: Order, orders: seq<Order>, h: HeaderEdit, lines: seq<DetailRequest>, next: nat, actor: nat, now: int)
    : (r: Result<Order>)
    ensures Locked(o) ==> r == Err(InvalidState(o.processingStatus))
    ensures !Locked(o) && IsCancelled(o) ==> r == Err(AlreadyCancelled)
    ensures r.Ok? <==> !Locked(o) && !IsCancelled(o) && !TrackingTaken(orders, o.id, h.tracking)
                       && Reconcile(o.details, lines, next).Ok? && Reconcile(o.details, lines, next).value != []
    ensures r.Ok? ==> r.value.details == Reconcile(o.details, lines, next).value
    ensures r.Ok? ==> r.value.eventStatus == Some(EventChanged) && r.value.changedBy == Some(actor) && r.value.changedAt == Some(now)
    ensures r.Ok? ==> r.value.channel == h.channel && r.value.store == h.store && r.value.buyer == h.buyer
                      && r.value.address == h.address && r.value.courier == h.courier && r.value.tracking == h.tracking
                      && r.value.sentBefore == (if h.sentBefore.Some? then h.sentBefore.value else o.sentBefore)
    ensures r.Ok? ==> r.value.id == o.id && r.value.gineeId == o.gineeId && r.value.processingStatus == o.processingStatus
                      && r.value.pickedBy == o.pickedBy && r.value.assignedBy == o.assignedBy
                      && r.value.cancelledBy == o.cancelledBy && r.value.complained == o.complained
    ensures r.Ok? ==> r.value.assignedAt == o.assignedAt && r.value.pickedAt == o.pickedAt
                      && r.value.pendingBy == o.pendingBy && r.value.pendingAt == o.pendingAt
                      && r.value.cancelledAt == o.cancelledAt && r.value.createdAt == o.createdAt
  {
    if Locked(o) then Err(InvalidState(o.processingStatus))
    else if IsCancelled(o) then Err(AlreadyCancelled)
    else if TrackingTaken(orders, o.id, h.tracking) then Err(Internal("tracking already in use"))
    else match Reconcile(o.details, lines, next)
      case Err(e) => Err(e)
      case Ok(after) =>
        if after == [] then Err(BadRequest("order must have at least one order detail"))
        else Ok(o.(eventStatus := Some(EventChanged), channel := h.channel, store := h.store, buyer := h.buyer,
                   address := h.address, courier := h.courier, tracking := h.tracking,
                   sentBefore := if h.sentBefore.Some? then h.sentBefore.value else o.sentBefore,
                   changedBy := Some(actor), changedAt := Some(now), details := after))
  }

  /** The copies of the line items a duplicate receives: same sku, name, variant and quantity, fresh ids, no price. */
  function CopyDetails(details: seq<OrderDetail>, first: nat): (copies: seq<OrderDetail>)
    ensures |copies| == |details|
    ensures forall i :: 0 <= i < |details| ==>
      copies[i].id == first + i && copies[i].sku == details[i].sku && copies[i].productName == details[i].productName
      && copies[i].variant == details[i].variant && copies[i].quantity == details[i].quantity && copies[i].price == 0
  {
    seq(|details|, i requires 0 <= i < |details| =>
      OrderDetail(first + i, details[i].sku, details[i].productName, details[i].variant, details[i].quantity, 0, None))
  }

  /** The suffix the original order's external id receives when it is duplicated. */
  const DuplicateSuffix := "-X2"
  /** The prefix the original order's tracking number receives when it is duplicated. */
  const DuplicatePrefix := "X-"

  /** Drops the last three characters, as the duplicate's external id is computed from the renamed original's. */
  function DropLast3(s: string): string
    requires |s| >= 3
  {
    s[..|s| - 3]
  }

  /** The renamed original and the new order a duplication yields. */
  datatype Duplication = Duplication(original: Order, copy: Order)

  /**
   * `DuplicateOrder` on a found order: the guards of `Cancel`; the original
   * is renamed (external id + "-X2", "X-" + tracking number) and a new order
   * takes over its external id and tracking number, its status and header,
   * with event "duplicated", no complaint, and copies of its line items. A
   * renaming or a creation that would break a unique key is refused.
   */
  function Duplicate(o: Order, orders: seq<Order>, next: nat, actor: nat, now: int): (r: Result<Duplication>)
    ensures Locked(o) ==> r == Err(InvalidState(o.processingStatus))
    ensures !Locked(o) && IsCancelled(o) ==> r == Err(AlreadyCancelled)
    ensures r.Ok? ==> r.value.original == o.(gineeId := o.gineeId + DuplicateSuffix, tracking := DuplicatePrefix + o.tracking)
  {
    if Locked(o) then Err(InvalidState(o.processingStatus))
    else if IsCancelled(o) then Err(AlreadyCancelled)
    else
      var renamed := o.(gineeId := o.gineeId + DuplicateSuffix, tracking := DuplicatePrefix + o.tracking);
      if GineeIdTaken(orders, o.id, renamed.gineeId) || TrackingTaken(orders, o.id, renamed.tracking) then
        Err(Internal("failed to update original order"))
      else
        var copy := Order(
          next, DropLast3(renamed.gineeId), renamed.processingStatus, Some(EventDuplicated),
          renamed.channel, renamed.store, renamed.buyer, renamed.address, renamed.courier,
          o.tracking, renamed.sentBefore,
          None, None, None, None, None, None, Some(actor), Some(now), None, None,
          false, now, CopyDetails(renamed.details, next + 1));
        if GineeIdTaken(orders, o.id, copy.gineeId) || TrackingTaken(orders, o.id, copy.tracking) then
          Err(Internal("failed to create duplicated order"))
        else Ok(Duplication(renamed, copy))
  }

  /** Stripping three characters from the renamed external id gives back the original one. */
  lemma DuplicateSuffixRoundTrip(g: string)
    ensures DropLast3(g + DuplicateSuffix) == g
  {}

  /**
   * A duplication of a valid table always succeeds past the guards unless the
   * renamed keys clash, and the copy carries the original external id and
   * tracking number, its status and header, and its line items minus prices.
   */
  lemma DuplicateOutcome(orders: seq<Order>, k: nat, next: nat, actor: nat, now: int)
    requires OrdersValid(orders, next) && k < |orders|
    ensures var o := orders[k];
      var r := Duplicate(o, orders, next, actor, now);
      (r.Ok? <==> !Locked(o) && !IsCancelled(o)
                  && !GineeIdTaken(orders, o.id, o.gineeId + DuplicateSuffix)
                  && !TrackingTaken(orders, o.id, DuplicatePrefix + o.tracking))
      && (r.Ok? ==>
            var c := r.value.copy;
            c.gineeId == o.gineeId && c.tracking == o.tracking && c.processingStatus == o.processingStatus
            && c.eventStatus == Some(EventDuplicated) && !c.complained
            && c.channel == o.channel && c.store == o.store && c.buyer == o.buyer && c.address == o.address
            && c.courier == o.courier && c.sentBefore == o.sentBefore
            && c.changedBy == Some(actor) && c.changedAt == Some(now) && c.createdAt == now
            && c.pickedBy.None? && c.pickedAt.None? && c.assignedBy.None? && c.assignedAt.None?
            && c.pendingBy.None? && c.pendingAt.None? && c.cancelledBy.None? && c.cancelledAt.None?
            && c.id == next && c.details == CopyDetails(o.details, next + 1)
            && |c.details| == |o.details|
            && (forall i :: 0 <= i < |o.details| ==>
                  c.details[i].id == next + 1 + i
                  && c.details[i].sku == o.details[i].sku && c.details[i].productName == o.details[i].productName
                  && c.details[i].variant == o.details[i].variant && c.details[i].quantity == o.details[i].quantity
                  && c.details[i].price == 0))
  {
    var o := orders[k];
    DuplicateSuffixRoundTrip(o.gineeId);
    forall j | 0 <= j < |orders| && orders[j].id != o.id
      ensures orders[j].gineeId != o.gineeId && orders[j].tracking != o.tracking
    {
      assert j != k;
    }
  }

  /**
   * The desk guards are checked in different orders: an order that is both
   * cancelled and in QC is refused by cancel (and edit, and duplicate) for
   * its status, but by assignment for being cancelled.
   */
  lemma GuardOrderDiffers(o: Order, picker: nat, actor: nat, now: int)
    requires IsCancelled(o) && o.processingStatus == QcProcess
    ensures Cancel(o, actor, now) == Err(InvalidState(QcProcess))
    ensures Assign(o, picker, actor, now) == Err(AlreadyCancelled)
  {}

  /** Once cancelled, an order can no longer be edited, duplicated, cancelled again or assigned. */
  lemma CancelledIsFinalAtTheDesk(o: Order, orders: seq<Order>, h: HeaderEdit, lines: seq<DetailRequest>,
                                  next: nat, picker: nat, actor: nat, now: int)
    requires Cancel(o, actor, now).Ok?
    ensures var c := Cancel(o, actor, now).value;
      Edit(c, orders, h, lines, next, actor, now) == Err(AlreadyCancelled)
      && Duplicate(c, orders, next, actor, now) == Err(AlreadyCancelled)
      && Cancel(c, actor, now) == Err(AlreadyCancelled)
      && Assign(c, picker, actor, now) == Err(AlreadyCancelled)
  {}

  /** Assigning and then parking returns the order to "pending picking" with no picker or assignment. */
  lemma AssignThenPark(o: Order, picker: nat, actor: nat, coordinator: nat, t1: int, t2: int)
    requires Assign(o, picker, actor, t1).Ok?
    ensures var a := Assign(o, picker, actor, t1).value;
      Park(a, coordinator, t2).Ok?
      && Park(a, coordinator, t2).value.processingStatus == PendingPicking
      && Park(a, coordinator, t2).value.pickedBy.None?
      && Park(a, coordinator, t2).value.assignedBy.None?
      && Park(a, coordinator, t2).value.pendingBy == Some(coordinator)
  {}

  /** An edit whose request has at least one line never fails for lack of line items. */
  lemma EditWithLinesKeepsItems(o: Order, orders: seq<Order>, h: HeaderEdit, lines: seq<DetailRequest>,
                                next: nat, actor: nat, now: int)
    requires lines != [] && Reconcile(o.details, lines, next).Ok?
    ensures Edit(o, orders, h, lines, next, actor, now) != Err(BadRequest("order must have at least one order detail"))
  {
    NonEmptyRequestKeepsItems(o.details, lines, next);
  }

  /** Replacing order `k` by an edit of it keeps the orders table valid once `next` moves past the added items. */
  lemma EditKeepsValid(orders: seq<Order>, next: nat, k: nat, h: HeaderEdit, lines: seq<DetailRequest>, actor: nat, now: int)
    requires OrdersValid(orders, next) && k < |orders|
    requires Edit(orders[k], orders, h, lines, next, actor, now).Ok?
    ensures OrdersValid(orders[k := Edit(orders[k], orders, h, lines, next, actor, now).value], next + NewCount(lines))
  {
    var o := orders[k];
    var e := Edit(o, orders, h, lines, next, actor, now).value;
    var after := orders[k := e];
    assert 0 < next;
    ReconcileOutcome(o.details, lines, next);
    assert DetailIdsDistinct(e.details);
    forall i, j | 0 <= i < j < |after|
      ensures after[i].id != after[j].id && after[i].gineeId != after[j].gineeId && after[i].tracking != after[j].tracking
    {
      if i == k {
        assert after[j] == orders[j];
      } else if j == k {
        assert after[i] == orders[i];
      }
    }
  }

  /** `UpdateComplainedStatusRequest` as written: the `required` rule rejects the zero value `false`. */
  function BindComplainedAsWritten(body: Option<bool>): (r: Result<bool>)
    ensures r.Ok? <==> body == Some(true)
  {
    if body == Some(true) then Ok(true) else Err(BadRequest("complained is required"))
  }

  /** As written, no request can unmark an order. */
  lemma ComplainedCannotBeCleared(body: Option<bool>)
    ensures BindComplainedAsWritten(body) != Ok(false)
  {}

  /** The evidently intended binding: the field must be present, and either value is accepted. */
  function BindComplained(body: Option<bool>): (r: Result<bool>)
    ensures r.Ok? <==> body.Some?
    ensures r.Ok? ==> r.value == body.value
  {
    match body
    case None => Err(BadRequest("complained is required"))
    case Some(b) => Ok(b)
  }

  /** With the intended binding, marking and unmarking are both reachable. */
  lemma ComplainedCanBeCleared()
    ensures BindComplained(Some(false)) == Ok(false) && BindComplained(Some(true)) == Ok(true)
  {}

  /** The handlers' common ending: the order at `k` replaced by a transition's result, or nothing changed. */
  function Committed(orders: seq<Order>, k: nat, r: Result<Order>): seq<Order>
    requires k < |orders|
  {
    if r.Ok? then orders[k := r.value] else orders
  }

  /** A transition that keeps the keys and the line items keeps the orders table valid. */
  lemma CommitKeepsValid(orders: seq<Order>, next: nat, k: nat, r: Result<Order>)
    requires OrdersValid(orders, next) && k < |orders|
    requires r.Ok? ==> r.value.id == orders[k].id && r.value.gineeId == orders[k].gineeId
                       && r.value.tracking == orders[k].tracking && r.value.details == orders[k].details
    ensures OrdersValid(Committed(orders, k, r), next)
  {
    if r.Ok? {
      ReplaceKeepsValid(orders, next, k, r.value);
    }
  }

  /** `UpdateOrderComplainedStatus` (route without a role gate): bind the flag, find the order, set it. */
  method UpdateOrderComplainedStatus(db: Database, id: nat, body: Option<bool>) returns (r: Result<Order>)
    requires db.Valid()
    modifies db`orders
    ensures db.Valid()
    ensures body.None? ==> r.Err? && r.error.BadRequest?
    ensures body.Some? && OrderById(old(db.orders), id).None? ==> r == Err(NotFound("order"))
    ensures r.Ok? <==> body.Some? && OrderById(old(db.orders), id).Some?
    ensures r.Ok? ==> var k := OrderById(old(db.orders), id).value;
      r.value == old(db.orders)[k].(complained := body.value) && db.orders == old(db.orders)[k := r.value]
    ensures r.Err? ==> db.orders == old(db.orders)
  {
    var flag := BindComplained(body);
    if flag.Err? {
      return Err(flag.error);
    }
    var found := OrderById(db.orders, id);
    if found.None? {
      return Err(NotFound("order"));
    }
    var k := found.value;
    r := Ok(db.orders[k].(complained := flag.value));
    CommitKeepsValid(db.orders, db.nextId, k, r);
    db.orders := db.orders[k := r.value];
  }

  /** `CancelOrder` (admin route). */
  method CancelOrder(db: Database, roles: seq<string>, id: nat, actor: nat, now: int) returns (r: Result<Order>)
    requires Rbac.Admits(roles, Rbac.AdminRoles)
    requires db.Valid()
    modifies db`orders
    ensures db.Valid()
    ensures OrderById(old(db.orders), id).None? ==> r == Err(NotFound("order")) && db.orders == old(db.orders)
    ensures OrderById(old(db.orders), id).Some? ==> var k := OrderById(old(db.orders), id).value;
      r == Cancel(old(db.orders)[k], actor, now) && db.orders == Committed(old(db.orders), k, r)
  {
    var found := OrderById(db.orders, id);
    if found.None? {
      return Err(NotFound("order"));
    }
    var k := found.value;
    r := Cancel(db.orders[k], actor, now);
    CommitKeepsValid(db.orders, db.nextId, k, r);
    db.orders := Committed(db.orders, k, r);
  }

  /** `AssignPicker` (coordinator route): the picker must be a user, looked up before the order. */
  method AssignPicker(db: Database, roles: seq<string>, id: nat, picker: nat, actor: nat, now: int)
    returns (r: Result<Order>)
    requires Rbac.Admits(roles, Rbac.CoordinatorRoles)
    requires db.Valid()
    modifies db`orders
    ensures db.Valid()
    ensures UserById(db.users, picker).None? ==> r == Err(NotFound("picker")) && db.orders == old(db.orders)
    ensures UserById(db.users, picker).Some? && OrderById(old(db.orders), id).None? ==>
              r == Err(NotFound("order")) && db.orders == old(db.orders)
    ensures UserById(db.users, picker).Some? && OrderById(old(db.orders), id).Some? ==>
      var k := OrderById(old(db.orders), id).value;
      r == Assign(old(db.orders)[k], picker, actor, now) && db.orders == Committed(old(db.orders), k, r)
  {
    if UserById(db.users, picker).None? {
      return Err(NotFound("picker"));
    }
    var found := OrderById(db.orders, id);
    if found.None? {
      return Err(NotFound("order"));
    }
    var k := found.value;
    r := Assign(db.orders[k], picker, actor, now);
    CommitKeepsValid(db.orders, db.nextId, k, r);
    db.orders := Committed(db.orders, k, r);
  }

  /** `PendingPickOrders` (coordinator route). */
  method PendingPickOrders(db: Database, roles: seq<string>, id: nat, actor: nat, now: int) returns (r: Result<Order>)
    requires Rbac.Admits(roles, Rbac.CoordinatorRoles)
    requires db.Valid()
    modifies db`orders
    ensures db.Valid()
    ensures OrderById(old(db.orders), id).None? ==> r == Err(NotFound("order")) && db.orders == old(db.orders)
    ensures OrderById(old(db.orders), id).Some? ==> var k := OrderById(old(db.orders), id).value;
      r == Park(old(db.orders)[k], actor, now) && db.orders == Committed(old(db.orders), k, r)
  {
    var found := OrderById(db.orders, id);
    if found.None? {
      return Err(NotFound("order"));
    }
    var k := found.value;
    r := Park(db.orders[k], actor, now);
    CommitKeepsValid(db.orders, db.nextId, k, r);
    db.orders := Committed(db.orders, k, r);
  }

  /** `UpdateOrder` (route without a role gate): header and line items in one transaction. */
  method UpdateOrder(db: Database, id: nat, h: HeaderEdit, lines: seq<DetailRequest>, actor: nat, now: int)
    returns (r: Result<Order>)
    requires db.Valid()
    modifies db`orders, db`nextId
    ensures db.Valid()
    ensures OrderById(old(db.orders), id).None? ==> r == Err(NotFound("order"))
    ensures OrderById(old(db.orders), id).Some? ==> var k := OrderById(old(db.orders), id).value;
      r == Edit(old(db.orders)[k], old(db.orders), h, lines, old(db.nextId), actor, now)
    ensures r.Ok? ==> db.orders == old(db.orders)[OrderById(old(db.orders), id).value := r.value]
                      && db.nextId == old(db.nextId) + NewCount(lines)
    ensures r.Err? ==> db.orders == old(db.orders) && db.nextId == old(db.nextId)
  {
    var found := OrderById(db.orders, id);
    if found.None? {
      return Err(NotFound("order"));
    }
    var k := found.value;
    var o := db.orders[k];
    if Locked(o) {
      return Err(InvalidState(o.processingStatus));
    }
    if IsCancelled(o) {
      return Err(AlreadyCancelled);
    }
    if TrackingTaken(db.orders, o.id, h.tracking) {
      return Err(Internal("tracking already in use"));
    }
    assert 0 < db.nextId;
    var reconciled := ReconcileDetails(o.details, lines, db.nextId);
    if reconciled.Err? {
      return Err(reconciled.error);
    }
    if reconciled.value == [] {
      return Err(BadRequest("order must have at least one order detail"));
    }
    r := Ok(o.(eventStatus := Some(EventChanged), channel := h.channel, store := h.store, buyer := h.buyer,
               address := h.address, courier := h.courier, tracking := h.tracking,
               sentBefore := if h.sentBefore.Some? then h.sentBefore.value else o.sentBefore,
               changedBy := Some(actor), changedAt := Some(now), details := reconciled.value));
    EditKeepsValid(db.orders, db.nextId, k, h, lines, actor, now);
    db.orders := db.orders[k := r.value];
    db.nextId := db.nextId + NewCount(lines);
  }

  /** Renaming the original and appending the copy keeps the orders table valid. */
  lemma DuplicateKeepsValid(orders: seq<Order>, next: nat, k: nat, actor: nat, now: int)
    requires OrdersValid(orders, next) && k < |orders|
    requires Duplicate(orders[k], orders, next, actor, now).Ok?
    ensures var d := Duplicate(orders[k], orders, next, actor, now).value;
      OrdersValid(orders[k := d.original] + [d.copy], next + 1 + |orders[k].details|)
  {
    var o := orders[k];
    var d := Duplicate(o, orders, next, actor, now).value;
    var after := orders[k := d.original] + [d.copy];
    var next' := next + 1 + |o.details|;
    DuplicateOutcome(orders, k, next, actor, now);
    assert d.copy.gineeId == o.gineeId && d.copy.tracking == o.tracking;
    forall i | 0 <= i < |after|
      ensures after[i].id < next'
      ensures forall m :: 0 <= m < |after[i].details| ==> 0 < after[i].details[m].id < next'
      ensures DetailIdsDistinct(after[i].details)
    {
      if i < |orders| && i != k {
        assert after[i] == orders[i];
      }
    }
    forall i, j | 0 <= i < j < |after|
      ensures after[i].id != after[j].id && after[i].gineeId != after[j].gineeId && after[i].tracking != after[j].tracking
    {
      if j == |orders| {
        if i != k {
          assert after[i] == orders[i];
          assert i < k || k < i;
        }
      } else if i == k {
        assert after[j] == orders[j];
        assert !GineeIdTaken(orders, o.id, d.original.gineeId);
        assert orders[j].id != o.id;
      } else if j == k {
        assert after[i] == orders[i];
        assert orders[i].id != o.id;
      } else {
        assert after[i] == orders[i] && after[j] == orders[j];
      }
    }
  }

  /** `DuplicateOrder` (admin route): renames the original and creates the copy in one transaction. */
  method DuplicateOrder(db: Database, roles: seq<string>, id: nat, actor: nat, now: int) returns (r: Result<Duplication>)
    requires Rbac.Admits(roles, Rbac.AdminRoles)
    requires db.Valid()
    modifies db`orders, db`nextId
    ensures db.Valid()
    ensures OrderById(old(db.orders), id).None? ==> r == Err(NotFound("order"))
    ensures OrderById(old(db.orders), id).Some? ==> var k := OrderById(old(db.orders), id).value;
      r == Duplicate(old(db.orders)[k], old(db.orders), old(db.nextId), actor, now)
    ensures r.Ok? ==> var k := OrderById(old(db.orders), id).value;
      db.orders == old(db.orders)[k := r.value.original] + [r.value.copy]
      && db.nextId == old(db.nextId) + 1 + |old(db.orders)[k].details|
    ensures r.Err? ==> db.orders == old(db.orders) && db.nextId == old(db.nextId)
  {
    var found := OrderById(db.orders, id);
    if found.None? {
      return Err(NotFound("order"));
    }
    var k := found.value;
    r := Duplicate(db.orders[k], db.orders, db.nextId, actor, now);
    if r.Ok? {
      DuplicateKeepsValid(db.orders, db.nextId, k, actor, now);
      var n := |db.orders[k].details|;
      db.orders := db.orders[k := r.value.original] + [r.value.copy];
      db.nextId := db.nextId + 1 + n;
    }
  }

  /** One line item of an order in a bulk request. */
  datatype LineRequest = LineRequest(sku: string, productName: string, variant: string, quantity: int)

  /** One order of a bulk request; `sentBefore` is None when absent or in neither accepted layout. */
  datatype CreateRequest = CreateRequest(
    gineeId: string, channel: string, store: string, buyer: string, address: string, courier: string,
    tracking: string, sentBefore: Option<int>, lines: seq<LineRequest>)

  /** The order a bulk request creates: always "ready to pick", whatever status the request names, and no prices. */
  function NewOrder(q: CreateRequest, id: nat, now: int): (o: Order)
    ensures o.id == id && o.gineeId == q.gineeId && o.tracking == q.tracking && o.processingStatus == ReadyToPick
    ensures o.channel == q.channel && o.store == q.store && o.buyer == q.buyer && o.address == q.address
      && o.courier == q.courier && o.createdAt == now
    ensures q.sentBefore.Some? ==> o.sentBefore == q.sentBefore.value
    ensures q.sentBefore.None? ==> o.sentBefore == 0
    ensures o.eventStatus.None? && !o.complained
    ensures o.pickedBy.None? && o.pickedAt.None? && o.assignedBy.None? && o.assignedAt.None?
      && o.pendingBy.None? && o.pendingAt.None? && o.changedBy.None? && o.changedAt.None?
      && o.cancelledBy.None? && o.cancelledAt.None?
    ensures |o.details| == |q.lines|
    ensures forall m :: 0 <= m < |q.lines| ==>
      o.details[m].id == id + 1 + m && o.details[m].sku == q.lines[m].sku
      && o.details[m].productName == q.lines[m].productName && o.details[m].variant == q.lines[m].variant
      && o.details[m].quantity == q.lines[m].quantity && o.details[m].price == 0 && o.details[m].product.None?
  {
    Order(id, q.gineeId, ReadyToPick, None, q.channel, q.store, q.buyer, q.address, q.courier, q.tracking,
          if q.sentBefore.Some? then q.sentBefore.value else 0,
          None, None, None, None, None, None, None, None, None, None, false, now,
          seq(|q.lines|, m requires 0 <= m < |q.lines| =>
            OrderDetail(id + 1 + m, q.lines[m].sku, q.lines[m].productName, q.lines[m].variant, q.lines[m].quantity, 0, None)))
  }

  /** The state of a bulk intake: the table, the next key, and the request indices created, skipped and failed. */
  datatype Batch = Batch(orders: seq<Order>, next: nat, created: seq<Order>, skipped: seq<nat>, failed: seq<nat>)

  /** One request of a bulk intake: skipped when its external id exists, failed when its tracking number is taken. */
  function Intake(b: Batch, i: nat, q: CreateRequest, now: int): Batch {
    if OrderByGineeId(b.orders, q.gineeId).Some? then b.(skipped := b.skipped + [i])
    else if OrderByTracking(b.orders, q.tracking).Some? then b.(failed := b.failed + [i])
    else
      var o := NewOrder(q, b.next, now);
      b.(orders := b.orders + [o], next := b.next + 1 + |q.lines|, created := b.created + [o])
  }

  /** `BulkCreateOrders` over a whole request, one order after the other. */
  function Bulk(orders: seq<Order>, next: nat, reqs: seq<CreateRequest>, now: int): Batch
    decreases |reqs|
  {
    if reqs == [] then Batch(orders, next, [], [], [])
    else Intake(Bulk(orders, next, reqs[..|reqs| - 1], now), |reqs| - 1, reqs[|reqs| - 1], now)
  }

  /** Whether some order of the table carries external id `g`. */
  predicate HasGineeId(orders: seq<Order>, g: string) {
    exists j :: 0 <= j < |orders| && orders[j].gineeId == g
  }

  /**
   * What a bulk intake promises: every request is counted exactly once, the
   * table only grows by the created orders, every created order is "ready
   * to pick", a request is skipped only when its external id was already
   * present, and the table stays valid.
   */
  lemma {:induction false} BulkOutcome(orders: seq<Order>, next: nat, reqs: seq<CreateRequest>, now: int)
    requires OrdersValid(orders, next)
    ensures var b := Bulk(orders, next, reqs, now);
      |b.created| + |b.skipped| + |b.failed| == |reqs|
      && b.orders == orders + b.created
      && OrdersValid(b.orders, b.next) && next <= b.next
      && (forall c :: 0 <= c < |b.created| ==> b.created[c].processingStatus == ReadyToPick && b.created[c].eventStatus.None?)
      && (forall s :: 0 <= s < |b.skipped| ==> b.skipped[s] < |reqs| && HasGineeId(b.orders, reqs[b.skipped[s]].gineeId))
      && (forall f :: 0 <= f < |b.failed| ==> b.failed[f] < |reqs|)
  {
    if reqs != [] {
      var init := reqs[..|reqs| - 1];
      var q := reqs[|reqs| - 1];
      BulkOutcome(orders, next, init, now);
      var a := Bulk(orders, next, init, now);
      var b := Bulk(orders, next, reqs, now);
      assert b == Intake(a, |reqs| - 1, q, now);
      forall s | 0 <= s < |a.skipped| ensures HasGineeId(b.orders, reqs[a.skipped[s]].gineeId) {
        var j :| 0 <= j < |a.orders| && a.orders[j].gineeId == init[a.skipped[s]].gineeId;
        assert b.orders[j] == a.orders[j];
      }
      if OrderByGineeId(a.orders, q.gineeId).Some? {
        assert a.orders[OrderByGineeId(a.orders, q.gineeId).value].gineeId == q.gineeId;
      } else if OrderByTracking(a.orders, q.tracking).None? {
        IntakeKeepsValid(a.orders, a.next, q, now);
      }
    }
  }

  /** Appending a new order whose keys are free keeps the table valid. */
  lemma IntakeKeepsValid(orders: seq<Order>, next: nat, q: CreateRequest, now: int)
    requires OrdersValid(orders, next)
    requires OrderByGineeId(orders, q.gineeId).None? && OrderByTracking(orders, q.tracking).None?
    ensures OrdersValid(orders + [NewOrder(q, next, now)], next + 1 + |q.lines|)
  {
    var o := NewOrder(q, next, now);
    var after := orders + [o];
    forall i, j | 0 <= i < j < |after|
      ensures after[i].id != after[j].id && after[i].gineeId != after[j].gineeId && after[i].tracking != after[j].tracking
    {
      if j == |orders| {
        assert after[i] == orders[i];
        assert !((o: Order) => o.gineeId == q.gineeId)(orders[i]);
        assert !((o: Order) => o.tracking == q.tracking)(orders[i]);
      }
    }
  }

  /** Resubmitting a request whose order exists skips it and changes nothing. */
  lemma ResubmissionIsSkipped(b: Batch, i: nat, q: CreateRequest, now: int)
    requires HasGineeId(b.orders, q.gineeId)
    ensures Intake(b, i, q, now) == b.(skipped := b.skipped + [i])
  {
    var j :| 0 <= j < |b.orders| && b.orders[j].gineeId == q.gineeId;
    assert ((o: Order) => o.gineeId == q.gineeId)(b.orders[j]);
  }

  /** The HTTP status of a bulk intake: 201 once anything is created, else 200 if something was skipped, else 400. */
  function BulkStatus(created: nat, skipped: nat): (code: int)
    ensures code == 201 <==> created > 0
    ensures code == 200 <==> created == 0 && skipped > 0
    ensures code == 400 <==> created == 0 && skipped == 0
  {
    if created == 0 then (if skipped > 0 then 200 else 400) else 201
  }

  /** The summary a bulk intake reports. */
  datatype Summary = Summary(total: nat, created: nat, skipped: nat, failed: nat, status: int)

  /** The handler's loop over the requests, one order after the other. */
  method IntakeAll(db: Database, reqs: seq<CreateRequest>, now: int) returns (created: seq<Order>, skipped: seq<nat>, failed: seq<nat>)
    modifies db`orders, db`nextId
    ensures Bulk(old(db.orders), old(db.nextId), reqs, now) == Batch(db.orders, db.nextId, created, skipped, failed)
  {
    ghost var start, first := db.orders, db.nextId;
    skipped, failed, created := [], [], [];
    var i := 0;
    while i < |reqs|
      invariant 0 <= i <= |reqs|
      invariant Bulk(start, first, reqs[..i], now) == Batch(db.orders, db.nextId, created, skipped, failed)
    {
      var q := reqs[i];
      assert reqs[..i + 1][..i] == reqs[..i];
      if OrderByGineeId(db.orders, q.gineeId).Some? {
        skipped := skipped + [i];
      } else if OrderByTracking(db.orders, q.tracking).Some? {
        failed := failed + [i];
      } else {
        var o := NewOrder(q, db.nextId, now);
        db.orders := db.orders + [o];
        db.nextId := db.nextId + 1 + |q.lines|;
        created := created + [o];
      }
      i := i + 1;
    }
    assert reqs[..i] == reqs;
  }

  /** `BulkCreateOrders` (route without a role gate). */
  method BulkCreateOrders(db: Database, reqs: seq<CreateRequest>, now: int) returns (summary: Summary, created: seq<Order>)
    requires db.Valid()
    modifies db`orders, db`nextId
    ensures db.Valid()
    ensures var b := Bulk(old(db.orders), old(db.nextId), reqs, now);
      db.orders == b.orders && db.nextId == b.next && created == b.created
      && summary == Summary(|reqs|, |b.created|, |b.skipped|, |b.failed|, BulkStatus(|b.created|, |b.skipped|))
    ensures db.orders == old(db.orders) + created
    ensures summary.total == summary.created + summary.skipped + summary.failed
  {
    BulkOutcome(db.orders, db.nextId, reqs, now);
    UsersValidAbove(db.users, db.nextId, Bulk(db.orders, db.nextId, reqs, now).next);
    var skipped, failed;
    created, skipped, failed := IntakeAll(db, reqs, now);
    summary := Summary(|reqs|, |created|, |skipped|, |failed|, BulkStatus(|created|, |skipped|));
  }
}
