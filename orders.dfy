/**
 * The order store and the handlers that read and change it: the owner path
 * (src/controllers/orderController.ts) and the administrator path
 * (src/controllers/adminOrderController.ts). Orders are kept in insertion
 * order and found by id.
 */
module Orders {
  import opened Common
  import opened Sorting
  import opened OrderModel

  /** `findById` over a sequence of orders: the first position holding `id`, or -1. */
  function IndexOf(orders: seq<Order>, id: OrderId): (i: int)
    ensures -1 <= i < |orders|
    ensures 0 <= i ==> orders[i].id == id && forall j :: 0 <= j < i ==> orders[j].id != id
    ensures i == -1 ==> forall j :: 0 <= j < |orders| ==> orders[j].id != id
  {
    if orders == [] then -1
    else if orders[0].id == id then 0
    else
      var i := IndexOf(orders[1..], id);
      if i == -1 then -1 else i + 1
  }

  /** No two orders share an id. */
  ghost predicate UniqueIds(orders: seq<Order>)
  {
    forall i, j :: 0 <= i < j < |orders| ==> orders[i].id != orders[j].id
  }

  /** `find({ userId: u })`: the orders of `u`, each as often as it is stored. */
  function OwnedBy(orders: seq<Order>, u: UserId): (r: seq<Order>)
    ensures forall o :: multiset(r)[o] == if o.userId == u then multiset(orders)[o] else 0
  {
    if orders == [] then []
    else
      assert orders == [orders[0]] + orders[1..];
      (if orders[0].userId == u then [orders[0]] else []) + OwnedBy(orders[1..], u)
  }

  /** `sort({ createdAt: -1 })`: newer orders first. */
  predicate NewestFirst(a: Order, b: Order)
  {
    a.createdAt >= b.createdAt
  }

  lemma NewestFirstIsTotal()
    ensures TotalPreorder(NewestFirst)
  {
  }

  /** `getMyOrders`: exactly the requester's orders, newest first. */
  function MyOrders(orders: seq<Order>, u: UserId): (r: seq<Order>)
    ensures forall o :: multiset(r)[o] == if o.userId == u then multiset(orders)[o] else 0
    ensures forall i, j :: 0 <= i < j < |r| ==> r[i].createdAt >= r[j].createdAt
  {
    NewestFirstIsTotal();
    Sort(OwnedBy(orders, u), NewestFirst)
  }

  /** Two orders differ at most in their status. */
  predicate SameButStatus(a: Order, b: Order)
  {
    b == a.(status := b.status)
  }

  /** The only change a store operation makes to a surviving order is one status Step. */
  ghost predicate StepsFrom(before: seq<Order>, after: seq<Order>)
  {
    && |after| == |before|
    && forall j :: 0 <= j < |after| ==>
         SameButStatus(before[j], after[j]) && Step(before[j].status, after[j].status)
  }

  class OrderStore {
    /** The `Order` collection, in insertion order. */
    var orders: seq<Order>
    /** Source of fresh order ids (stands in for ObjectId generation). */
    var nextId: OrderId

    /** Ids are unique and below `nextId`, and every order carries the amounts checkout computed. */
    ghost predicate Valid()
      reads this
    {
      && UniqueIds(orders)
      && (forall i :: 0 <= i < |orders| ==> orders[i].id < nextId && Priced(orders[i]))
    }

    constructor ()
      ensures Valid() && orders == []
    {
      orders := [];
      nextId := 0;
    }

    /** Administrator `getOrderById`: the order with that id, or 404. */
    function Get(id: OrderId): (r: Result<Order>)
      reads this
      ensures r.Ok? <==> exists i :: 0 <= i < |orders| && orders[i].id == id
      ensures r.Ok? ==> r.value in orders && r.value.id == id
      ensures r.Err? ==> r == Err(404, "Order not found")
    {
      var i := IndexOf(orders, id);
      if i == -1 then Err(404, "Order not found") else Ok(orders[i])
    }

    /** Owner `getOrderById`: 404 for an unknown id, 403 for someone else's order. */
    function GetForOwner(id: OrderId, requester: UserId): (r: Result<Order>)
      requires Valid()
      reads this
      ensures r.Ok? <==> exists i :: 0 <= i < |orders| && orders[i].id == id && orders[i].userId == requester
      ensures r.Ok? ==> r.value in orders && r.value.id == id && r.value.userId == requester
      ensures r == Err(404, "Order not found") <==> forall i :: 0 <= i < |orders| ==> orders[i].id != id
      ensures r == Err(403, "Access denied") <==>
        exists i :: 0 <= i < |orders| && orders[i].id == id && orders[i].userId != requester
    {
      var i := IndexOf(orders, id);
      if i == -1 then Err(404, "Order not found")
      else if orders[i].userId != requester then Err(403, "Access denied")
      else Ok(orders[i])
    }

    /** `Order.create`: appends a new order for `u` with the amounts of `items` and the
        schema's default status. */
    method Place(u: UserId, items: seq<OrderItem>, now: nat) returns (o: Order)
      requires Valid()
      modifies this
      ensures Valid()
      ensures o.id == old(nextId) && o.userId == u && o.items == items && o.createdAt == now
      ensures o.status == Pending && Priced(o)
      ensures o.total == Subtotal(items) + 5 && o.totalAmount == o.total
      ensures orders == old(orders) + [o] && nextId == old(nextId) + 1
    {
      var subtotal := Subtotal(items);
      var total := subtotal + ShippingFee + Tax;
      o := Order(nextId, u, items, subtotal, ShippingFee, Tax, total, total, InitialStatus, now);
      orders := orders + [o];
      nextId := nextId + 1;
    }

    /** `cancelOrder`: 404, then 403 for someone else's order, then 400 unless pending;
        otherwise the status becomes cancelled and nothing else changes. */
    method Cancel(id: OrderId, requester: UserId) returns (r: Result<Order>)
      requires Valid()
      modifies this
      ensures Valid() && nextId == old(nextId)
      ensures StepsFrom(old(orders), orders)
      ensures IndexOf(old(orders), id) == -1 ==>
        r == Err(404, "Order not found") && orders == old(orders)
      ensures IndexOf(old(orders), id) >= 0 && old(orders)[IndexOf(old(orders), id)].userId != requester ==>
        r == Err(403, "Access denied") && orders == old(orders)
      ensures IndexOf(old(orders), id) >= 0 && old(orders)[IndexOf(old(orders), id)].userId == requester ==>
        var i := IndexOf(old(orders), id);
        if old(orders)[i].status != Pending then
          r == Err(400, "Only pending orders can be cancelled") && orders == old(orders)
        else
          r == Ok(old(orders)[i].(status := Cancelled)) && orders == old(orders)[i := r.value]
    {
      var i := IndexOf(orders, id);
      if i == -1 {
        return Err(404, "Order not found");
      }
      var order := orders[i];
      if order.userId != requester {
        return Err(403, "Access denied");
      }
      if order.status != Pending {
        return Err(400, "Only pending orders can be cancelled");
      }
      order := order.(status := Cancelled);
      assert CancelTransition(orders[i].status) == Ok(order.status);
      orders := orders[i := order];
      r := Ok(order);
    }

    /** `updateOrderStatus`: 400 for a target outside the allowed four (before any lookup),
        404, then 400 for a delivered order; otherwise the status becomes the target. */
    method UpdateStatus(id: OrderId, target: string) returns (r: Result<Order>)
      requires Valid()
      modifies this
      ensures Valid() && nextId == old(nextId)
      ensures StepsFrom(old(orders), orders)
      ensures AllowedTarget(target).None? ==> r == Err(400, "Invalid status") && orders == old(orders)
      ensures AllowedTarget(target).Some? && IndexOf(old(orders), id) == -1 ==>
        r == Err(404, "Order not found") && orders == old(orders)
      ensures AllowedTarget(target).Some? && IndexOf(old(orders), id) >= 0 ==>
        var i := IndexOf(old(orders), id);
        if old(orders)[i].status == Delivered then
          r == Err(400, "Delivered orders cannot be modified") && orders == old(orders)
        else
          && r == Ok(old(orders)[i].(status := AllowedTarget(target).value))
          && StatusName(r.value.status) == target
          && orders == old(orders)[i := r.value]
    {
      var t := AllowedTarget(target);
      if t.None? {
        return Err(400, "Invalid status");
      }
      var i := IndexOf(orders, id);
      if i == -1 {
        return Err(404, "Order not found");
      }
      var order := orders[i];
      if order.status == Delivered {
        return Err(400, "Delivered orders cannot be modified");
      }
      order := order.(status := t.value);
      assert AllowedTarget(StatusName(t.value)).Some? && AdminTransition(orders[i].status, t.value) == Ok(t.value);
      orders := orders[i := order];
      r := Ok(order);
    }

    /** `deleteOrder`: 404 for an unknown id; otherwise exactly that order is removed,
        the others keeping their order. */
    method Delete(id: OrderId) returns (r: Result<Order>)
      requires Valid()
      modifies this
      ensures Valid() && nextId == old(nextId)
      ensures IndexOf(old(orders), id) == -1 ==> r == Err(404, "Order not found") && orders == old(orders)
      ensures IndexOf(old(orders), id) >= 0 ==>
        var i := IndexOf(old(orders), id);
        r == Ok(old(orders)[i]) && orders == old(orders)[..i] + old(orders)[i + 1..]
      ensures forall o :: o in orders <==> o in old(orders) && o.id != id
    {
      var i := IndexOf(orders, id);
      if i == -1 {
        return Err(404, "Order not found");
      }
      r := Ok(orders[i]);
      ghost var before := orders;
      orders := orders[..i] + orders[i + 1..];
      assert forall j :: 0 <= j < |orders| ==> orders[j] == before[if j < i then j else j + 1];
    }
  }
}
