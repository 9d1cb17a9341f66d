/**
 * Checkout (`createOrder` in src/controllers/orderController.ts): the one
 * operation that touches both stores. It snapshots the user's cart lines
 * against the current catalog, prices them, appends the order and deletes
 * the cart.
 */
module Checkout {
  import opened Common
  import opened CartModel
  import opened ProductModel
  import opened OrderModel
  import Carts
  import Orders

  /** `cart.items.map(...)` after `populate("items.product")`: one order item per cart line,
      in cart order, carrying the line's product and quantity and the product's current
      name and price. None when a line's product is no longer in the catalog. */
  function Snapshot(lines: seq<Line>, catalog: map<ProductId, Product>): (r: Option<seq<OrderItem>>)
    ensures r.Some? <==> forall i :: 0 <= i < |lines| ==> lines[i].product in catalog
    ensures r.Some? ==> |r.value| == |lines|
    ensures r.Some? ==> forall i :: 0 <= i < |lines| ==>
      r.value[i] == OrderItem(lines[i].product, catalog[lines[i].product].name,
                              catalog[lines[i].product].price, lines[i].quantity)
  {
    if lines == [] then Some([])
    else
      var p := lines[0].product;
      var rest := Snapshot(lines[1..], catalog);
      if p !in catalog || rest.None? then
        assert rest.None? ==> exists i :: 1 <= i < |lines| && lines[i].product !in catalog by {
          if rest.None? {
            var k :| 0 <= k < |lines[1..]| && lines[1..][k].product !in catalog;
            assert lines[k + 1].product !in catalog;
          }
        }
        None
      else
        Some([OrderItem(p, catalog[p].name, catalog[p].price, lines[0].quantity)] + rest.value)
  }

  /** Snapshots of stored products and cart lines have non-negative prices and positive
      quantities, so the subtotal is never negative. */
  lemma {:induction false} SnapshotSubtotal(lines: seq<Line>, catalog: map<ProductId, Product>)
    requires ValidCatalog(catalog) && Positive(lines)
    requires Snapshot(lines, catalog).Some?
    ensures Subtotal(Snapshot(lines, catalog).value) >= 0
  {
    var items := Snapshot(lines, catalog).value;
    forall i | 0 <= i < |items| ensures items[i].price >= 0 && items[i].quantity >= 0 {
      assert ValidProduct(catalog[lines[i].product]);
    }
    SubtotalNonNegative(items);
  }

  /** `createOrder` for user `u` at clock reading `now`.
      - A missing cart or one with no lines: 400 "Cart is empty", nothing changes.
      - A line whose product has left the catalog: the handler throws (status 500) before
        writing anything.
      - Otherwise the snapshot becomes a new pending order with subtotal, shipping 5, tax 0
        and total = totalAmount = subtotal + 5, and the user's cart is deleted. */
  method PlaceOrder(carts: Carts.CartStore, orders: Orders.OrderStore,
                    catalog: map<ProductId, Product>, u: UserId, now: nat) returns (r: Result<Order>)
    requires carts.Valid() && orders.Valid()
    modifies carts, orders
    ensures carts.Valid() && orders.Valid()
    ensures carts.nextId == old(carts.nextId)
    ensures orders.nextId == old(orders.nextId) + (if r.Ok? then 1 else 0)
    ensures old(carts.ItemsOf(u)) == [] ==>
      && r == Err(400, "Cart is empty")
      && carts.carts == old(carts.carts) && orders.orders == old(orders.orders)
    ensures old(carts.ItemsOf(u)) != [] && Snapshot(old(carts.ItemsOf(u)), catalog).None? ==>
      && r.Err? && r.status == 500
      && carts.carts == old(carts.carts) && orders.orders == old(orders.orders)
    ensures old(carts.ItemsOf(u)) != [] && Snapshot(old(carts.ItemsOf(u)), catalog).Some? ==>
      && r.Ok?
      && r.value.items == Snapshot(old(carts.ItemsOf(u)), catalog).value
      && r.value.id == old(orders.nextId)
      && r.value.userId == u && r.value.createdAt == now && r.value.status == Pending
      && Priced(r.value) && r.value.total == Subtotal(r.value.items) + 5
      && orders.orders == old(orders.orders) + [r.value]
      && carts.carts == old(carts.carts) - {u}
  {
    var cart := carts.Get(u);
    if cart.Err? || cart.value.items == [] {
      return Err(400, "Cart is empty");
    }
    var items := Snapshot(cart.value.items, catalog);
    if items.None? {
      return Err(500, "");
    }
    var order := orders.Place(u, items.value, now);
    var _ := carts.Clear(u);
    r := Ok(order);
  }

  /** A successful checkout over a valid catalog charges at least the shipping fee. */
  lemma CheckoutTotalAtLeastShipping(lines: seq<Line>, catalog: map<ProductId, Product>, o: Order)
    requires ValidCatalog(catalog) && Positive(lines)
    requires Snapshot(lines, catalog).Some? && o.items == Snapshot(lines, catalog).value
    requires Priced(o)
    ensures o.total >= ShippingFee && o.totalAmount == o.total
  {
    SnapshotSubtotal(lines, catalog);
  }
}
