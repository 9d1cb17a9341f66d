/**
 * The cart document (src/models/Cart.ts) and the edits the cart handlers
 * make to its line items, stated on values. A cart is an ordered sequence of
 * lines, each a product reference and a quantity; the store (carts.dfy)
 * applies these edits to the stored carts.
 */
module CartModel {
  import opened Common

  /** `CartItemSchema`: a required product reference and a quantity. */
  datatype Line = Line(product: ProductId, quantity: int)

  /** `CartSchema`: the cart's own id and its ordered items. The owning user is the
      key the store files it under, so one user has at most one cart. */
  datatype Cart = Cart(id: CartId, items: seq<Line>)

  /** The `min: 1` validator that `save()` runs on every line. */
  predicate Positive(items: seq<Line>)
  {
    forall i :: 0 <= i < |items| ==> items[i].quantity >= 1
  }

  /** At most one line per product: what merge-on-add maintains. */
  ghost predicate Distinct(items: seq<Line>)
  {
    forall i, j :: 0 <= i < j < |items| ==> items[i].product != items[j].product
  }

  /** The invariant of every stored cart. */
  ghost predicate WellFormed(items: seq<Line>)
  {
    Positive(items) && Distinct(items)
  }

  /** `items.findIndex(i => i.product === p)`: the first line for `p`, or -1. */
  function Find(items: seq<Line>, p: ProductId): (i: int)
    ensures -1 <= i < |items|
    ensures 0 <= i ==> items[i].product == p && forall j :: 0 <= j < i ==> items[j].product != p
    ensures i == -1 ==> forall j :: 0 <= j < |items| ==> items[j].product != p
  {
    if items == [] then -1
    else if items[0].product == p then 0
    else
      var i := Find(items[1..], p);
      if i == -1 then -1 else i + 1
  }

  // ---------------------------------------------------------------------------
  // Reference views of a cart: how much of each product it holds, and the lines
  // that belong to other products.

  /** What one line contributes to product `x`. */
  function Contrib(l: Line, x: ProductId): int
  {
    if l.product == x then l.quantity else 0
  }

  /** Total quantity of product `x` over all lines. */
  function QuantityOf(items: seq<Line>, x: ProductId): int
  {
    if items == [] then 0 else Contrib(items[0], x) + QuantityOf(items[1..], x)
  }

  /** The lines of every product other than `p`, in cart order. */
  function Without(items: seq<Line>, p: ProductId): seq<Line>
  {
    if items == [] then []
    else if items[0].product == p then Without(items[1..], p)
    else [items[0]] + Without(items[1..], p)
  }

  lemma {:induction false} QuantityOfAbsent(s: seq<Line>, x: ProductId)
    requires forall j :: 0 <= j < |s| ==> s[j].product != x
    ensures QuantityOf(s, x) == 0
  {
    if s != [] {
      QuantityOfAbsent(s[1..], x);
    }
  }

  lemma {:induction false} QuantityOfAppend(s: seq<Line>, l: Line)
    ensures forall x :: QuantityOf(s + [l], x) == QuantityOf(s, x) + Contrib(l, x)
  {
    if s != [] {
      assert (s + [l])[1..] == s[1..] + [l];
      QuantityOfAppend(s[1..], l);
    }
  }

  lemma {:induction false} QuantityOfUpdate(s: seq<Line>, i: nat, l: Line)
    requires i < |s|
    ensures forall x :: QuantityOf(s[i := l], x) == QuantityOf(s, x) - Contrib(s[i], x) + Contrib(l, x)
  {
    if i == 0 {
      assert s[i := l][1..] == s[1..];
    } else {
      assert s[i := l][1..] == s[1..][i - 1 := l];
      QuantityOfUpdate(s[1..], i - 1, l);
    }
  }

  lemma {:induction false} QuantityOfRemoveAt(s: seq<Line>, i: nat)
    requires i < |s|
    ensures forall x :: QuantityOf(s[..i] + s[i + 1..], x) == QuantityOf(s, x) - Contrib(s[i], x)
  {
    if i > 0 {
      assert (s[..i] + s[i + 1..])[1..] == s[1..][..i - 1] + s[1..][i..];
      QuantityOfRemoveAt(s[1..], i - 1);
    } else {
      assert s[..i] + s[i + 1..] == s[1..];
    }
  }

  /** In a cart with distinct lines, the quantity held of a product is that of its line. */
  lemma {:induction false} QuantityOfDistinct(s: seq<Line>, i: nat)
    requires Distinct(s) && i < |s|
    ensures QuantityOf(s, s[i].product) == s[i].quantity
  {
    if i == 0 {
      QuantityOfAbsent(s[1..], s[0].product);
    } else {
      QuantityOfDistinct(s[1..], i - 1);
    }
  }

  lemma {:induction false} WithoutAbsent(s: seq<Line>, p: ProductId)
    requires forall j :: 0 <= j < |s| ==> s[j].product != p
    ensures Without(s, p) == s
  {
    if s != [] {
      WithoutAbsent(s[1..], p);
      assert s == [s[0]] + s[1..];
    }
  }

  lemma {:induction false} WithoutAppend(s: seq<Line>, l: Line)
    ensures Without(s + [l], l.product) == Without(s, l.product)
  {
    if s != [] {
      assert (s + [l])[1..] == s[1..] + [l];
      WithoutAppend(s[1..], l);
    } else {
      assert Without([l], l.product) == Without([], l.product);
    }
  }

  /** `Find` is determined by its contract. */
  lemma FindIs(s: seq<Line>, p: ProductId, k: int)
    requires -1 <= k < |s|
    requires 0 <= k ==> s[k].product == p && forall j :: 0 <= j < k ==> s[j].product != p
    requires k == -1 ==> forall j :: 0 <= j < |s| ==> s[j].product != p
    ensures Find(s, p) == k
  {
  }

  /** `splice(i, 1)` removes exactly the line at `i`: one line fewer, that line's
      quantity subtracted, and every remaining line as it was. */
  lemma RemoveAt(s: seq<Line>, i: nat)
    requires i < |s|
    ensures var r := s[..i] + s[i + 1..];
      && |r| == |s| - 1
      && multiset(r) + multiset{s[i]} == multiset(s)
      && (forall x :: QuantityOf(r, x) == QuantityOf(s, x) - Contrib(s[i], x))
      && (Positive(s) ==> Positive(r))
  {
    var r := s[..i] + s[i + 1..];
    QuantityOfRemoveAt(s, i);
    assert s == s[..i] + [s[i]] + s[i + 1..];
    forall j | 0 <= j < |r| ensures r[j] == s[if j < i then j else j + 1] {
    }
  }

  /** Facts about splicing out the line of a product from a cart with distinct lines. */
  lemma RemoveAtDistinct(s: seq<Line>, i: nat)
    requires Distinct(s) && i < |s|
    ensures var r := s[..i] + s[i + 1..];
      && r == Without(s, s[i].product)
      && (forall j :: 0 <= j < |r| ==> r[j].product != s[i].product)
      && Distinct(r)
  {
    var r := s[..i] + s[i + 1..];
    WithoutRemoveAt(s, i);
    forall j | 0 <= j < |r| ensures r[j] == s[if j < i then j else j + 1] {
    }
  }

  lemma {:induction false} WithoutUpdate(s: seq<Line>, i: nat, l: Line)
    requires i < |s| && s[i].product == l.product
    ensures Without(s[i := l], l.product) == Without(s, l.product)
  {
    if i == 0 {
      assert s[i := l][1..] == s[1..];
    } else {
      assert s[i := l][1..] == s[1..][i - 1 := l];
      WithoutUpdate(s[1..], i - 1, l);
    }
  }

  /** Removing the only line for a product leaves exactly the other products' lines, in order. */
  lemma {:induction false} WithoutRemoveAt(s: seq<Line>, i: nat)
    requires Distinct(s) && i < |s|
    ensures Without(s, s[i].product) == s[..i] + s[i + 1..]
  {
    var p := s[i].product;
    if i == 0 {
      WithoutAbsent(s[1..], p);
      assert s[..i] + s[i + 1..] == s[1..];
    } else {
      WithoutRemoveAt(s[1..], i - 1);
      assert s[..i] + s[i + 1..] == [s[0]] + (s[1..][..i - 1] + s[1..][i..]);
    }
  }

  // ---------------------------------------------------------------------------
  // The three edits.

  /** Add: `item.quantity += q` on the line for `p`, or `items.push({ product: p, quantity: q })`. */
  function Merge(items: seq<Line>, p: ProductId, q: int): (r: seq<Line>)
    ensures forall x :: QuantityOf(r, x) == QuantityOf(items, x) + (if x == p then q else 0)
    ensures Without(r, p) == Without(items, p)
    ensures Find(items, p) >= 0 ==> |r| == |items| && Find(r, p) == Find(items, p)
    ensures Find(items, p) < 0 ==> |r| == |items| + 1 && Find(r, p) == |items|
    ensures Distinct(items) ==> Distinct(r) && r[Find(r, p)] == Line(p, QuantityOf(items, p) + q)
    ensures WellFormed(items) ==> (Positive(r) <==> QuantityOf(items, p) + q >= 1)
  {
    var i := Find(items, p);
    if i >= 0 then
      var l := Line(p, items[i].quantity + q);
      var r := items[i := l];
      FindIs(r, p, i);
      QuantityOfUpdate(items, i, l);
      WithoutUpdate(items, i, l);
      assert Distinct(items) ==> QuantityOf(items, p) == items[i].quantity by {
        if Distinct(items) { QuantityOfDistinct(items, i); }
      }
      r
    else
      var l := Line(p, q);
      var r := items + [l];
      FindIs(r, p, |items|);
      QuantityOfAppend(items, l);
      QuantityOfAbsent(items, p);
      WithoutAppend(items, l);
      r
  }

  /** User-path update: `existing.quantity = q` on the line for `p`, or push a new line. */
  function Upsert(items: seq<Line>, p: ProductId, q: int): (r: seq<Line>)
    ensures forall x :: x != p ==> QuantityOf(r, x) == QuantityOf(items, x)
    ensures Distinct(items) ==> QuantityOf(r, p) == q && Distinct(r)
    ensures Without(r, p) == Without(items, p)
    ensures Find(items, p) >= 0 ==> |r| == |items| && Find(r, p) == Find(items, p)
    ensures Find(items, p) < 0 ==> |r| == |items| + 1 && Find(r, p) == |items|
    ensures Positive(items) && q >= 1 ==> Positive(r)
  {
    var i := Find(items, p);
    var l := Line(p, q);
    if i >= 0 then
      var r := items[i := l];
      FindIs(r, p, i);
      QuantityOfUpdate(items, i, l);
      WithoutUpdate(items, i, l);
      assert Distinct(items) ==> QuantityOf(items, p) == items[i].quantity by {
        if Distinct(items) { QuantityOfDistinct(items, i); }
      }
      r
    else
      var r := items + [l];
      FindIs(r, p, |items|);
      QuantityOfAppend(items, l);
      QuantityOfAbsent(items, p);
      WithoutAppend(items, l);
      r
  }

  /** Delete: `items.splice(index, 1)` when a line for `p` exists, otherwise the items as they were. */
  function Remove(items: seq<Line>, p: ProductId): (r: seq<Line>)
    ensures forall x :: x != p ==> QuantityOf(r, x) == QuantityOf(items, x)
    ensures Find(items, p) < 0 ==> r == items
    ensures Find(items, p) >= 0 ==> |r| == |items| - 1
    ensures Distinct(items) ==> r == Without(items, p) && Find(r, p) == -1 && QuantityOf(r, p) == 0 && Distinct(r)
    ensures Positive(items) ==> Positive(r)
  {
    var i := Find(items, p);
    if i >= 0 then
      RemoveFound(items, p, i);
      items[..i] + items[i + 1..]
    else
      RemoveMissing(items, p);
      items
  }

  /** `Remove` takes out exactly the first line for `p` and keeps every other line. */
  lemma RemoveTakesOneLine(items: seq<Line>, p: ProductId)
    requires Find(items, p) >= 0
    ensures multiset(Remove(items, p)) + multiset{items[Find(items, p)]} == multiset(items)
  {
    var i := Find(items, p);
    SpliceMultiset(items, i);
  }

  /** The splice branch of `Remove`. */
  lemma RemoveFound(items: seq<Line>, p: ProductId, i: nat)
    requires i < |items| && items[i].product == p
    ensures var r := items[..i] + items[i + 1..];
      && (forall x :: x != p ==> QuantityOf(r, x) == QuantityOf(items, x))
      && |r| == |items| - 1 && multiset(r) + multiset{items[i]} == multiset(items)
      && (Distinct(items) ==> r == Without(items, p) && Find(r, p) == -1 && QuantityOf(r, p) == 0 && Distinct(r))
      && (Positive(items) ==> Positive(r))
  {
    var r := items[..i] + items[i + 1..];
    RemoveAt(items, i);
    if Distinct(items) {
      RemoveAtDistinct(items, i);
      FindIs(r, p, -1);
      QuantityOfAbsent(r, p);
    }
  }

  /** The no-op branch of `Remove`: without a line for `p` there is nothing to take out. */
  lemma RemoveMissing(items: seq<Line>, p: ProductId)
    requires forall j :: 0 <= j < |items| ==> items[j].product != p
    ensures items == Without(items, p) && QuantityOf(items, p) == 0
  {
    WithoutAbsent(items, p);
    QuantityOfAbsent(items, p);
  }
}
