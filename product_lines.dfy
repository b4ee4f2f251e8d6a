/**
 * Turning an order's line items into product lines, as complaint and return
 * creation do (controllers/complain_controller.go,
 * controllers/return_controller.go): each item whose SKU names a product
 * gives one line with that product and the item's quantity; the others are
 * skipped and their SKUs collected.
 */
module ProductLines {
  import opened OrderModel
  import opened Records
  import opened Store

  /** The lines of the items whose SKU resolves, in item order. */
  function Resolved(details: seq<OrderDetail>, products: seq<Product>): (lines: seq<ProductLine>)
    ensures |lines| <= |details|
  {
    if details == [] then []
    else
      var k := ProductBySku(products, details[0].sku);
      (if k.Some? then [ProductLine(products[k.value].id, details[0].quantity)] else [])
      + Resolved(details[1..], products)
  }

  /** The SKUs of the items that name no product, in item order. */
  function Unresolved(details: seq<OrderDetail>, products: seq<Product>): (skus: seq<string>)
  {
    if details == [] then []
    else
      (if ProductBySku(products, details[0].sku).None? then [details[0].sku] else [])
      + Unresolved(details[1..], products)
  }

  /** Every item is either turned into a line or reported missing, never both. */
  lemma {:induction false} EveryItemIsAccountedFor(details: seq<OrderDetail>, products: seq<Product>)
    ensures |Resolved(details, products)| + |Unresolved(details, products)| == |details|
  {
    if details != [] {
      EveryItemIsAccountedFor(details[1..], products);
    }
  }

  /** No line is made exactly when no item's SKU names a product. */
  lemma {:induction false} NoLinesIffNothingResolves(details: seq<OrderDetail>, products: seq<Product>)
    ensures Resolved(details, products) == [] <==>
              forall i :: 0 <= i < |details| ==> ProductBySku(products, details[i].sku).None?
  {
    if details != [] {
      NoLinesIffNothingResolves(details[1..], products);
      assert forall i :: 1 <= i < |details| ==> details[i] == details[1..][i - 1];
    }
  }

  /** Every line names a product of the table and carries the quantity of some item with that product's SKU. */
  lemma {:induction false} LinesComeFromItems(details: seq<OrderDetail>, products: seq<Product>, j: nat)
    requires j < |Resolved(details, products)|
    ensures exists i, k :: 0 <= i < |details| && 0 <= k < |products| && products[k].sku == details[i].sku
                           && Resolved(details, products)[j] == ProductLine(products[k].id, details[i].quantity)
  {
    var k := ProductBySku(products, details[0].sku);
    var head := if k.Some? then [ProductLine(products[k.value].id, details[0].quantity)] else [];
    if j >= |head| {
      LinesComeFromItems(details[1..], products, j - |head|);
      var i, m :| 0 <= i < |details[1..]| && 0 <= m < |products| && products[m].sku == details[1..][i].sku
                  && Resolved(details[1..], products)[j - |head|] == ProductLine(products[m].id, details[1..][i].quantity);
      assert details[1..][i] == details[i + 1];
    }
  }

  /** Resolving a list in two parts resolves it whole. */
  lemma {:induction false} ResolvedOfConcat(a: seq<OrderDetail>, b: seq<OrderDetail>, products: seq<Product>)
    ensures Resolved(a + b, products) == Resolved(a, products) + Resolved(b, products)
    ensures Unresolved(a + b, products) == Unresolved(a, products) + Unresolved(b, products)
  {
    if a != [] {
      assert (a + b)[1..] == a[1..] + b;
      ResolvedOfConcat(a[1..], b, products);
    } else {
      assert a + b == b;
    }
  }

  /** The loop of both handlers: one pass over the items, building the lines and the missing SKUs. */
  method ResolveLines(details: seq<OrderDetail>, products: seq<Product>) returns (lines: seq<ProductLine>, missing: seq<string>)
    ensures lines == Resolved(details, products) && missing == Unresolved(details, products)
  {
    lines, missing := [], [];
    var i := 0;
    while i < |details|
      invariant 0 <= i <= |details|
      invariant lines == Resolved(details[..i], products) && missing == Unresolved(details[..i], products)
    {
      ResolvedOfConcat(details[..i], [details[i]], products);
      assert details[..i + 1] == details[..i] + [details[i]];
      var k := ProductBySku(products, details[i].sku);
      if k.Some? {
        lines := lines + [ProductLine(products[k.value].id, details[i].quantity)];
      } else {
        missing := missing + [details[i].sku];
      }
      i := i + 1;
    }
    assert details[..i] == details;
  }
}
