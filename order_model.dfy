/**
 * The order document (src/models/Order.ts): its status enumeration, item
 * snapshots and totals, and the status transitions the order handlers allow.
 */
module OrderModel {
  import opened Common

  /** `OrderStatus`: the five values the schema's `enum` admits. */
  datatype Status = Pending | Confirmed | Shipped | Delivered | Cancelled

  /** A product as it was when the order was placed. Prices are in cents. */
  datatype OrderItem = OrderItem(product: ProductId, name: string, price: int, quantity: int)

  /** A placed order with the amounts checkout computed. `createdAt` is a clock reading. */
  datatype Order = Order(
    id: OrderId,
    userId: UserId,
    items: seq<OrderItem>,
    subtotal: int,
    shipping: int,
    tax: int,
    total: int,
    totalAmount: int,
    status: Status,
    createdAt: nat)

  /** Fixed shipping charge and tax of every order, in cents. */
  const ShippingFee: int := 5
  const Tax: int := 0

  /** The status a new order gets from the schema's `default`. */
  const InitialStatus: Status := Pending

  /** The stored spelling of a status. */
  function StatusName(s: Status): string
  {
    match s
    case Pending => "pending"
    case Confirmed => "confirmed"
    case Shipped => "shipped"
    case Delivered => "delivered"
    case Cancelled => "cancelled"
  }

  /** `["confirmed", "shipped", "delivered", "cancelled"].includes(name)`: the statuses an
      administrator may ask for, read from the request. "pending" is not among them. */
  function AllowedTarget(name: string): (r: Option<Status>)
    ensures r.Some? <==> name in ["confirmed", "shipped", "delivered", "cancelled"]
    ensures r.Some? ==> StatusName(r.value) == name && r.value != Pending
  {
    if name == "confirmed" then Some(Confirmed)
    else if name == "shipped" then Some(Shipped)
    else if name == "delivered" then Some(Delivered)
    else if name == "cancelled" then Some(Cancelled)
    else None
  }

  /** Naming a status and reading it back as a target gives it back, except `pending`. */
  lemma AllowedTargetOfName(s: Status)
    ensures AllowedTarget(StatusName(s)) == if s == Pending then None else Some(s)
  {
  }

  /** `price * quantity` of one item. */
  function LineTotal(it: OrderItem): int
  {
    it.price * it.quantity
  }

  /** `items.reduce((sum, item) => sum + item.price * item.quantity, 0)`. */
  function Subtotal(items: seq<OrderItem>): (r: int)
    ensures items == [] ==> r == 0
    ensures |items| == 1 ==> r == items[0].price * items[0].quantity
  {
    if items == [] then 0 else Subtotal(items[..|items| - 1]) + LineTotal(items[|items| - 1])
  }

  /** The subtotal of a concatenation is the sum of the subtotals. */
  lemma {:induction false} SubtotalAppend(a: seq<OrderItem>, b: seq<OrderItem>)
    ensures Subtotal(a + b) == Subtotal(a) + Subtotal(b)
  {
    if b != [] {
      assert (a + b)[..|a + b| - 1] == a + b[..|b| - 1];
      SubtotalAppend(a, b[..|b| - 1]);
    } else {
      assert a + b == a;
    }
  }

  /** With non-negative prices and quantities the subtotal is non-negative. */
  lemma {:induction false} SubtotalNonNegative(items: seq<OrderItem>)
    requires forall i :: 0 <= i < |items| ==> items[i].price >= 0 && items[i].quantity >= 0
    ensures Subtotal(items) >= 0
  {
    if items != [] {
      SubtotalNonNegative(items[..|items| - 1]);
    }
  }

  /** The amounts of an order are those checkout computes from its items:
      total = subtotal + shipping + tax, and totalAmount mirrors total. */
  ghost predicate Priced(o: Order)
  {
    && o.subtotal == Subtotal(o.items)
    && o.shipping == ShippingFee && o.tax == Tax
    && o.total == o.subtotal + o.shipping + o.tax
    && o.totalAmount == o.total
  }

  // ---------------------------------------------------------------------------
  // Status transitions.

  /** Owner cancellation: only a pending order may be cancelled. */
  function CancelTransition(current: Status): (r: Result<Status>)
    ensures r.Ok? <==> current == Pending
    ensures r.Ok? ==> r.value == Cancelled
    ensures r.Err? ==> r.status == 400
  {
    if current != Pending then Err(400, "Only pending orders can be cancelled")
    else Ok(Cancelled)
  }

  /** Administrator update to an allowed target: refused once the order is delivered. */
  function AdminTransition(current: Status, target: Status): (r: Result<Status>)
    ensures r.Ok? <==> current != Delivered
    ensures r.Ok? ==> r.value == target
    ensures r.Err? ==> r.status == 400
  {
    if current == Delivered then Err(400, "Delivered orders cannot be modified")
    else Ok(target)
  }

  /** One handler call on an order's status: it stays, the owner cancels a pending order,
      or an administrator moves an undelivered order to an allowed (non-pending) target. */
  ghost predicate Step(a: Status, b: Status)
  {
    || a == b
    || CancelTransition(a) == Ok(b)
    || exists t :: AllowedTarget(StatusName(t)).Some? && AdminTransition(a, t) == Ok(b)
  }

  /** The status history of an order: every change is one Step. */
  ghost predicate History(h: seq<Status>)
  {
    forall i :: 0 < i < |h| ==> Step(h[i - 1], h[i])
  }

  /** Step, spelled out. */
  lemma StepCases(a: Status, b: Status)
    ensures Step(a, b) <==> a == b || (a != Delivered && b != Pending)
  {
    if a != Delivered && b != Pending {
      assert AllowedTarget(StatusName(b)).Some? && AdminTransition(a, b) == Ok(b);
    }
  }

  /** Delivered is final: once an order is delivered, it stays delivered. */
  lemma {:induction false} DeliveredIsFinal(h: seq<Status>, k: nat)
    requires History(h) && k < |h| && h[k] == Delivered
    ensures forall j :: k <= j < |h| ==> h[j] == Delivered
    decreases |h| - k
  {
    if k < |h| - 1 {
      StepCases(h[k], h[k + 1]);
      DeliveredIsFinal(h, k + 1);
    }
  }

  /** Pending is never re-entered: an order that has left pending never returns to it. */
  lemma {:induction false} PendingNotReentered(h: seq<Status>, k: nat)
    requires History(h) && k < |h| && h[k] != Pending
    ensures forall j :: k <= j < |h| ==> h[j] != Pending
    decreases |h| - k
  {
    if k < |h| - 1 {
      StepCases(h[k], h[k + 1]);
      PendingNotReentered(h, k + 1);
    }
  }

  /** Cancelled is not final: an administrator may move a cancelled order to any allowed status. */
  lemma CancelledIsReopenable(t: Status)
    requires t != Pending
    ensures AllowedTarget(StatusName(t)) == Some(t) && AdminTransition(Cancelled, t) == Ok(t)
  {
  }
}
