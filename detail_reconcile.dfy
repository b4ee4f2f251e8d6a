/**
 * How an order update rewrites the order's line items
 * (controllers/order_controller.go, `UpdateOrder`): a request line with id 0
 * adds a line item, a line naming an existing item overwrites that item's
 * sku, name, variant and quantity, an item no line names is deleted, and a
 * line naming an id the order does not have aborts the whole update.
 */
module DetailReconcile {
  import opened Wrappers
  import opened OrderModel

  /** One line of an update request: id 0 asks for a new line item, any other id names an existing one. */
  datatype DetailRequest = DetailRequest(id: nat, sku: string, productName: string, variant: string, quantity: int)

  /** Some request line names `id`. */
  predicate Names(req: seq<DetailRequest>, id: nat) {
    exists k :: 0 <= k < |req| && req[k].id == id
  }

  predicate HasItem(current: seq<OrderDetail>, id: nat) {
    exists j :: 0 <= j < |current| && current[j].id == id
  }

  /** The last request line naming `id`: a later line overwrites an earlier one. */
  function LastFor(req: seq<DetailRequest>, id: nat): Option<DetailRequest> {
    if req == [] then None
    else if req[|req| - 1].id == id then Some(req[|req| - 1])
    else LastFor(req[..|req| - 1], id)
  }

  function Overwrite(d: OrderDetail, q: DetailRequest): OrderDetail {
    d.(sku := q.sku, productName := q.productName, variant := q.variant, quantity := q.quantity)
  }

  /** The number of id-0 lines. */
  function NewCount(req: seq<DetailRequest>): nat {
    if req == [] then 0
    else NewCount(req[..|req| - 1]) + (if req[|req| - 1].id == 0 then 1 else 0)
  }

  /** The line items the id-0 lines create, in request order, numbered from `next`; no price is set. */
  function Added(req: seq<DetailRequest>, next: nat): (added: seq<OrderDetail>)
    ensures |added| == NewCount(req)
    ensures forall i :: 0 <= i < |added| ==> added[i].id == next + i
  {
    if req == [] then []
    else
      var a := Added(req[..|req| - 1], next);
      var q := req[|req| - 1];
      if q.id == 0 then a + [OrderDetail(next + |a|, q.sku, q.productName, q.variant, q.quantity, 0, None)] else a
  }

  /** The existing line items the request keeps, in table order, each overwritten by the last line naming it. */
  function Kept(current: seq<OrderDetail>, req: seq<DetailRequest>): seq<OrderDetail> {
    if current == [] then []
    else
      var k := Kept(current[..|current| - 1], req);
      var d := current[|current| - 1];
      if d.id == 0 then k
      else match LastFor(req, d.id)
        case None => k
        case Some(q) => k + [Overwrite(d, q)]
  }

  /** `x` is the existing item `current[j]`, named by the request and overwritten by its last line. */
  predicate KeptVersion(current: seq<OrderDetail>, req: seq<DetailRequest>, j: int, x: OrderDetail) {
    0 <= j < |current| && current[j].id != 0 && LastFor(req, current[j].id).Some?
    && x == Overwrite(current[j], LastFor(req, current[j].id).value)
  }

  /** Every non-zero id the request names is a line item of the order. */
  predicate AllKnown(current: seq<OrderDetail>, req: seq<DetailRequest>) {
    forall k :: 0 <= k < |req| && req[k].id != 0 ==> HasItem(current, req[k].id)
  }

  /** The line items after the update, or the 404 that rolls it back. */
  function Reconcile(current: seq<OrderDetail>, req: seq<DetailRequest>, next: nat): Result<seq<OrderDetail>> {
    if AllKnown(current, req) then Ok(Kept(current, req) + Added(req, next)) else Err(NotFound("order detail"))
  }

  /** The last line naming an id is found exactly when some line names it, and no later line does. */
  lemma {:induction false} LastForIsLast(req: seq<DetailRequest>, id: nat)
    ensures LastFor(req, id).Some? <==> Names(req, id)
    ensures LastFor(req, id).Some? ==>
      exists k :: 0 <= k < |req| && req[k] == LastFor(req, id).value && req[k].id == id
        && forall m :: k < m < |req| ==> req[m].id != id
  {
    if req != [] {
      var init := req[..|req| - 1];
      LastForIsLast(init, id);
      assert forall k :: 0 <= k < |init| ==> init[k] == req[k];
      if req[|req| - 1].id != id && Names(req, id) {
        var k :| 0 <= k < |req| && req[k].id == id;
        assert init[k].id == id;
      }
    }
  }

  /** A kept item is an existing, named item overwritten by its last line; every such item is kept. */
  lemma {:induction false} KeptItems(current: seq<OrderDetail>, req: seq<DetailRequest>, x: OrderDetail)
    ensures x in Kept(current, req) <==> exists j :: KeptVersion(current, req, j, x)
  {
    if current != [] {
      var init := current[..|current| - 1];
      KeptItems(init, req, x);
      assert forall j :: 0 <= j < |init| ==> init[j] == current[j];
      var n := |current| - 1;
      if x in Kept(current, req) && x !in Kept(init, req) {
        assert KeptVersion(current, req, n, x);
      }
      if x in Kept(init, req) {
        var j :| KeptVersion(init, req, j, x);
        assert KeptVersion(current, req, j, x);
      }
      if exists j :: KeptVersion(current, req, j, x) {
        var j :| KeptVersion(current, req, j, x);
        if j < n {
          assert KeptVersion(init, req, j, x);
        }
      }
    }
  }

  /** Kept items keep the ids of the items they come from, so the ids stay distinct. */
  lemma {:induction false} KeptIds(current: seq<OrderDetail>, req: seq<DetailRequest>)
    requires DetailIdsDistinct(current)
    ensures DetailIdsDistinct(Kept(current, req))
    ensures forall i :: 0 <= i < |Kept(current, req)| ==> HasItem(current, Kept(current, req)[i].id)
  {
    if current != [] {
      var init := current[..|current| - 1];
      assert forall j :: 0 <= j < |init| ==> init[j] == current[j];
      KeptIds(init, req);
      var k := Kept(init, req);
      forall i | 0 <= i < |k| ensures k[i].id != current[|current| - 1].id {
        var j :| 0 <= j < |init| && init[j].id == k[i].id;
      }
      forall i | 0 <= i < |k| ensures HasItem(current, k[i].id) {
        var j :| 0 <= j < |init| && init[j].id == k[i].id;
        assert current[j].id == k[i].id;
      }
      assert current[|current| - 1].id == current[|current| - 1].id;
    }
  }

  predicate CarriesLine(x: OrderDetail, q: DetailRequest) {
    x.sku == q.sku && x.productName == q.productName && x.variant == q.variant && x.quantity == q.quantity
  }

  /** An added item carries an id-0 line's sku, name, variant and quantity, and no price. */
  lemma {:induction false} AddedItems(req: seq<DetailRequest>, next: nat, x: OrderDetail)
    requires x in Added(req, next)
    ensures x.price == 0 && x.product.None?
    ensures exists k :: 0 <= k < |req| && req[k].id == 0 && CarriesLine(x, req[k])
  {
    var init := req[..|req| - 1];
    assert forall k :: 0 <= k < |init| ==> init[k] == req[k];
    if x in Added(init, next) {
      AddedItems(init, next, x);
      var k :| 0 <= k < |init| && init[k].id == 0 && CarriesLine(x, init[k]);
      assert req[k] == init[k];
    }
  }

  /**
   * A successful update leaves every named item overwritten by its last line,
   * no unnamed item, one added item per id-0 line, and distinct ids below the
   * next free key.
   */
  lemma ReconcileOutcome(current: seq<OrderDetail>, req: seq<DetailRequest>, next: nat)
    requires DetailIdsDistinct(current)
    requires 0 < next && forall j :: 0 <= j < |current| ==> 0 < current[j].id < next
    ensures Reconcile(current, req, next).Ok? <==> AllKnown(current, req)
    ensures Reconcile(current, req, next).Ok? ==>
      var after := Reconcile(current, req, next).value;
      |after| == |Kept(current, req)| + NewCount(req)
      && DetailIdsDistinct(after)
      && (forall i :: 0 <= i < |after| ==> 0 < after[i].id < next + NewCount(req))
      && (forall j :: 0 <= j < |current| ==>
            (Names(req, current[j].id) ==>
               LastFor(req, current[j].id).Some? && Overwrite(current[j], LastFor(req, current[j].id).value) in after)
            && (!Names(req, current[j].id) ==> forall i :: 0 <= i < |after| ==> after[i].id != current[j].id))
  {
    if AllKnown(current, req) {
      var kept, added := Kept(current, req), Added(req, next);
      var after := kept + added;
      KeptIds(current, req);
      forall i | 0 <= i < |kept| ensures 0 < kept[i].id < next {
        var j :| 0 <= j < |current| && current[j].id == kept[i].id;
      }
      forall j | 0 <= j < |current|
        ensures Names(req, current[j].id) ==>
          LastFor(req, current[j].id).Some? && Overwrite(current[j], LastFor(req, current[j].id).value) in after
        ensures !Names(req, current[j].id) ==> forall i :: 0 <= i < |after| ==> after[i].id != current[j].id
      {
        LastForIsLast(req, current[j].id);
        if Names(req, current[j].id) {
          KeptItems(current, req, Overwrite(current[j], LastFor(req, current[j].id).value));
          assert KeptVersion(current, req, j, Overwrite(current[j], LastFor(req, current[j].id).value));
        } else {
          forall i | 0 <= i < |after| ensures after[i].id != current[j].id {
            if i < |kept| {
              KeptItems(current, req, kept[i]);
              var j' :| KeptVersion(current, req, j', kept[i]);
              LastForIsLast(req, current[j'].id);
            }
          }
        }
      }
    }
  }

  /** A request with at least one line never leaves an order without line items. */
  lemma NonEmptyRequestKeepsItems(current: seq<OrderDetail>, req: seq<DetailRequest>, next: nat)
    requires req != [] && Reconcile(current, req, next).Ok?
    ensures Reconcile(current, req, next).value != []
  {
    var q := req[|req| - 1];
    if q.id == 0 {
      assert NewCount(req) > 0;
    } else {
      assert HasItem(current, q.id);
      var j :| 0 <= j < |current| && current[j].id == q.id;
      assert Names(req, q.id);
      LastForIsLast(req, q.id);
      assert KeptVersion(current, req, j, Overwrite(current[j], LastFor(req, current[j].id).value));
      KeptItems(current, req, Overwrite(current[j], LastFor(req, current[j].id).value));
    }
  }

  /** The handler's map from line-item id to line item. */
  method IndexItems(current: seq<OrderDetail>) returns (existing: map<nat, OrderDetail>)
    requires DetailIdsDistinct(current)
    ensures forall m :: 0 <= m < |current| ==> current[m].id in existing && existing[current[m].id] == current[m]
    ensures forall id :: id in existing ==> HasItem(current, id)
  {
    existing := map[];
    var j := 0;
    while j < |current|
      invariant 0 <= j <= |current|
      invariant forall m :: 0 <= m < j ==> current[m].id in existing && existing[current[m].id] == current[m]
      invariant forall id :: id in existing ==> exists m :: 0 <= m < j && current[m].id == id
    {
      existing := existing[current[j].id := current[j]];
      j := j + 1;
    }
  }

  /**
   * The loop over the request lines: an id-0 line adds an item, a line naming
   * an existing item overwrites a copy of the original, any other line stops
   * the loop with `ok` false.
   */
  method ApplyLines(req: seq<DetailRequest>, existing: map<nat, OrderDetail>, next: nat)
    returns (ok: bool, added: seq<OrderDetail>, updated: map<nat, OrderDetail>)
    ensures ok <==> forall k :: 0 <= k < |req| && req[k].id != 0 ==> req[k].id in existing
    ensures ok ==> added == Added(req, next)
    ensures ok ==> forall id :: id in updated <==> id != 0 && LastFor(req, id).Some?
    ensures ok ==> forall id :: id in updated ==>
      id in existing && LastFor(req, id).Some? && updated[id] == Overwrite(existing[id], LastFor(req, id).value)
  {
    added, updated := [], map[];
    var i := 0;
    while i < |req|
      invariant 0 <= i <= |req|
      invariant added == Added(req[..i], next)
      invariant forall k :: 0 <= k < i && req[k].id != 0 ==> req[k].id in existing
      invariant forall id :: id in updated <==> id != 0 && LastFor(req[..i], id).Some?
      invariant forall id :: id in updated ==>
        id in existing && LastFor(req[..i], id).Some? && updated[id] == Overwrite(existing[id], LastFor(req[..i], id).value)
    {
      var q := req[i];
      assert req[..i + 1][..i] == req[..i];
      if q.id == 0 {
        added := added + [OrderDetail(next + |added|, q.sku, q.productName, q.variant, q.quantity, 0, None)];
      } else if q.id in existing {
        updated := updated[q.id := Overwrite(existing[q.id], q)];
      } else {
        return false, added, updated;
      }
      i := i + 1;
    }
    assert req[..i] == req;
    ok := true;
  }

  /** The deletion loop: an existing item survives exactly when some request line named it. */
  method KeepNamed(current: seq<OrderDetail>, req: seq<DetailRequest>, updated: map<nat, OrderDetail>)
    returns (kept: seq<OrderDetail>)
    requires forall id :: id in updated <==> id != 0 && LastFor(req, id).Some?
    requires forall m :: 0 <= m < |current| && current[m].id in updated ==>
      updated[current[m].id] == Overwrite(current[m], LastFor(req, current[m].id).value)
    ensures kept == Kept(current, req)
  {
    kept := [];
    var j := 0;
    while j < |current|
      invariant 0 <= j <= |current|
      invariant kept == Kept(current[..j], req)
    {
      assert current[..j + 1][..j] == current[..j];
      if current[j].id in updated {
        kept := kept + [updated[current[j].id]];
      }
      j := j + 1;
    }
    assert current[..j] == current;
  }

  /**
   * The handler's two loops: the request lines add or overwrite items (a line
   * naming an unknown id aborts), then every existing item no line named is
   * dropped.
   */
  method ReconcileDetails(current: seq<OrderDetail>, req: seq<DetailRequest>, next: nat)
    returns (r: Result<seq<OrderDetail>>)
    requires DetailIdsDistinct(current)
    ensures r == Reconcile(current, req, next)
  {
    var existing := IndexItems(current);
    var ok, added, updated := ApplyLines(req, existing, next);
    if !ok {
      var k :| 0 <= k < |req| && req[k].id != 0 && req[k].id !in existing;
      assert !HasItem(current, req[k].id);
      return Err(NotFound("order detail"));
    }
    forall k | 0 <= k < |req| && req[k].id != 0 ensures HasItem(current, req[k].id) {
      var m :| 0 <= m < |current| && current[m].id == req[k].id;
    }
    var kept := KeepNamed(current, req, updated);
    return Ok(kept + added);
  }
}
