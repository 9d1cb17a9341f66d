/**
 * The cart store and the handlers that edit it: the user path
 * (src/controllers/cartControllers.ts) and the administrator path
 * (src/controllers/adminCartController.ts). Each handler reads the user's
 * cart, applies one of the edits of CartModel (`Merge`, `Upsert`, `Remove`)
 * to its items and saves it; `save()` runs the schema's `min: 1` check and
 * stores nothing when it fails.
 */
module Carts {
  import opened Common
  import opened CartModel

  class CartStore {
    /** The `Cart` collection, keyed by its unique `userId`. */
    var carts: map<UserId, Cart>
    /** Source of fresh cart ids (stands in for ObjectId generation). */
    var nextId: CartId

    /** Every stored cart has positive quantities and one line per product, and
        no two carts share an id. */
    ghost predicate Valid()
      reads this
    {
      && (forall u :: u in carts ==> carts[u].id < nextId && WellFormed(carts[u].items))
      && (forall u, v :: u in carts && v in carts && u != v ==> carts[u].id != carts[v].id)
    }

    constructor ()
      ensures Valid() && carts == map[]
    {
      carts := map[];
      nextId := 0;
    }

    /** The items a handler starts from: the stored cart's, or none when it will create one. */
    function ItemsOf(u: UserId): seq<Line>
      reads this
    {
      if u in carts then carts[u].items else []
    }

    /** The id of the user's cart, or the id a newly created cart would get. */
    function IdFor(u: UserId): CartId
      reads this
    {
      if u in carts then carts[u].id else nextId
    }

    /** `getCartByUser` / `getUserCart`: the user's cart, or 404. */
    function Get(u: UserId): (r: Result<Cart>)
      reads this
      ensures r.Ok? <==> u in carts
      ensures r.Ok? ==> r.value == carts[u]
      ensures r.Err? ==> r == Err(404, "Cart not found")
    {
      if u in carts then Ok(carts[u]) else Err(404, "Cart not found")
    }

    /** `Cart.create({ userId, items: [] })`: stores an empty cart for a user who has none. */
    method Create(u: UserId) returns (cart: Cart)
      requires Valid() && u !in carts
      modifies this
      ensures Valid()
      ensures cart == Cart(old(nextId), []) && carts == old(carts)[u := cart]
      ensures nextId == old(nextId) + 1
    {
      cart := Cart(nextId, []);
      carts := carts[u := cart];
      nextId := nextId + 1;
    }

    /** `new Cart({ userId, items: [] })`: a cart with a fresh id, not yet stored. */
    method Allocate() returns (cart: Cart)
      requires Valid()
      modifies this
      ensures Valid()
      ensures cart == Cart(old(nextId), []) && carts == old(carts) && nextId == old(nextId) + 1
    {
      cart := Cart(nextId, []);
      nextId := nextId + 1;
    }

    /** `cart.save()`: validates every line (`min: 1`) and stores the cart only if all pass. */
    method Save(u: UserId, cart: Cart) returns (r: Result<Cart>)
      requires Valid()
      requires cart.id < nextId && Distinct(cart.items)
      requires forall v :: v in carts && v != u ==> carts[v].id != cart.id
      modifies this
      ensures Valid() && nextId == old(nextId)
      ensures Positive(cart.items) ==> r == Ok(cart) && carts == old(carts)[u := cart]
      ensures !Positive(cart.items) ==> r == Err(500, "Server error") && carts == old(carts)
    {
      if Positive(cart.items) {
        carts := carts[u := cart];
        r := Ok(cart);
      } else {
        r := Err(500, "Server error");
      }
    }

    // -------------------------------------------------------------------------
    // User path. The route runs `validateCartItemBody` before add and update,
    // so their quantity is a positive integer.

    /** `addItemToCart`: create the cart if missing, then add `q` to the line for `p`
        or append a new line. */
    method AddItem(u: UserId, p: ProductId, q: int) returns (r: Result<Cart>)
      requires Valid() && q >= 1
      modifies this
      ensures Valid()
      ensures r == Ok(Cart(old(IdFor(u)), Merge(old(ItemsOf(u)), p, q)))
      ensures carts == old(carts)[u := r.value]
      ensures nextId == old(nextId) + (if u in old(carts) then 0 else 1)
    {
      var cart: Cart;
      if u in carts {
        cart := carts[u];
      } else {
        cart := Create(u);
      }
      r := Save(u, Cart(cart.id, Merge(cart.items, p, q)));
    }

    /** `updateCartItem`: an upsert. The line for `p` gets quantity `q` (not `+ q`);
        a missing line is appended and a missing cart is created. */
    method UpdateItem(u: UserId, p: ProductId, q: int) returns (r: Result<Cart>)
      requires Valid() && q >= 1
      modifies this
      ensures Valid()
      ensures r == Ok(Cart(old(IdFor(u)), Upsert(old(ItemsOf(u)), p, q)))
      ensures carts == old(carts)[u := r.value]
      ensures nextId == old(nextId) + (if u in old(carts) then 0 else 1)
    {
      var cart: Cart;
      if u in carts {
        cart := carts[u];
      } else {
        cart := Allocate();
      }
      r := Save(u, Cart(cart.id, Upsert(cart.items, p, q)));
    }

    /** `deleteCartItem`: 404 without a cart; otherwise splice out the line for `p`,
        succeeding unchanged when there is none. */
    method RemoveItem(u: UserId, p: ProductId) returns (r: Result<Cart>)
      requires Valid()
      modifies this
      ensures Valid() && nextId == old(nextId)
      ensures u !in old(carts) ==> r == Err(404, "Cart not found") && carts == old(carts)
      ensures u in old(carts) ==>
        && r == Ok(Cart(old(carts[u].id), Remove(old(carts[u].items), p)))
        && carts == old(carts)[u := r.value]
    {
      if u !in carts {
        return Err(404, "Cart not found");
      }
      var cart := carts[u];
      r := Save(u, Cart(cart.id, Remove(cart.items, p)));
    }

    /** `clearCart` / `clearUserCart` (`findOneAndDelete({ userId })`): removes the
        user's whole cart, or answers 404 when there is none. */
    method Clear(u: UserId) returns (r: Result<Cart>)
      requires Valid()
      modifies this
      ensures Valid() && nextId == old(nextId)
      ensures u !in old(carts) ==> r == Err(404, "Cart not found") && carts == old(carts)
      ensures u in old(carts) ==> r == Ok(old(carts[u])) && carts == old(carts) - {u}
      ensures Get(u).Err?
    {
      if u !in carts {
        return Err(404, "Cart not found");
      }
      r := Ok(carts[u]);
      carts := carts - {u};
    }

    /** `deleteCart` (`findByIdAndDelete(cartId)`): removes the cart with that id, or 404. */
    method DeleteById(id: CartId) returns (r: Result<Cart>)
      requires Valid()
      modifies this
      ensures Valid() && nextId == old(nextId)
      ensures r.Ok? <==> exists u :: u in old(carts) && old(carts)[u].id == id
      ensures r.Err? ==> r == Err(404, "Cart not found") && carts == old(carts)
      ensures r.Ok? ==> r.value.id == id
      ensures r.Ok? ==> exists u :: u in old(carts) && old(carts)[u] == r.value && carts == old(carts) - {u}
      ensures forall v :: v in carts ==> carts[v].id != id
    {
      if u :| u in carts && carts[u].id == id {
        r := Ok(carts[u]);
        carts := carts - {u};
      } else {
        r := Err(404, "Cart not found");
      }
    }

    // -------------------------------------------------------------------------
    // Administrator path: no body validator runs first.

    /** `addItemToUserCart`: like the user path, but the quantity is unchecked. The empty
        cart is stored before the edit; if the merged quantity is below 1, `save()` fails
        with 500 and only that empty cart remains. */
    method AdminAddItem(u: UserId, p: ProductId, q: int) returns (r: Result<Cart>)
      requires Valid()
      modifies this
      ensures Valid()
      ensures nextId == old(nextId) + (if u in old(carts) then 0 else 1)
      ensures QuantityOf(old(ItemsOf(u)), p) + q >= 1 ==>
        && r == Ok(Cart(old(IdFor(u)), Merge(old(ItemsOf(u)), p, q)))
        && carts == old(carts)[u := r.value]
      ensures QuantityOf(old(ItemsOf(u)), p) + q < 1 ==>
        && r == Err(500, "Server error")
        && carts == old(carts)[u := Cart(old(IdFor(u)), old(ItemsOf(u)))]
    {
      var cart: Cart;
      if u in carts {
        cart := carts[u];
      } else {
        cart := Create(u);
      }
      r := Save(u, Cart(cart.id, Merge(cart.items, p, q)));
    }

    /** `updateUserCartItem`: a strict update. 400 for a quantity below 1 (checked before
        any lookup), 404 without a cart, 404 without a line for `p`; never inserts. */
    method AdminUpdateItem(u: UserId, p: ProductId, q: int) returns (r: Result<Cart>)
      requires Valid()
      modifies this
      ensures Valid() && nextId == old(nextId)
      ensures q < 1 ==> r == Err(400, "Quantity must be greater than 0") && carts == old(carts)
      ensures q >= 1 && u !in old(carts) ==> r == Err(404, "Cart not found") && carts == old(carts)
      ensures q >= 1 && u in old(carts) && Find(old(carts[u].items), p) < 0 ==>
        r == Err(404, "Item not found in cart") && carts == old(carts)
      ensures q >= 1 && u in old(carts) && Find(old(carts[u].items), p) >= 0 ==>
        && r == Ok(Cart(old(carts[u].id), Upsert(old(carts[u].items), p, q)))
        && carts == old(carts)[u := r.value]
    {
      if q < 1 {
        return Err(400, "Quantity must be greater than 0");
      }
      if u !in carts {
        return Err(404, "Cart not found");
      }
      var cart := carts[u];
      if Find(cart.items, p) < 0 {
        return Err(404, "Item not found in cart");
      }
      r := Save(u, Cart(cart.id, Upsert(cart.items, p, q)));
    }

    /** `deleteUserCartItem`: 404 without a cart and, unlike the user path, 404 without a
        line for `p`; otherwise exactly that line is spliced out. */
    method AdminRemoveItem(u: UserId, p: ProductId) returns (r: Result<Cart>)
      requires Valid()
      modifies this
      ensures Valid() && nextId == old(nextId)
      ensures u !in old(carts) ==> r == Err(404, "Cart not found") && carts == old(carts)
      ensures u in old(carts) && Find(old(carts[u].items), p) < 0 ==>
        r == Err(404, "Item not found in cart") && carts == old(carts)
      ensures u in old(carts) && Find(old(carts[u].items), p) >= 0 ==>
        && r == Ok(Cart(old(carts[u].id), Remove(old(carts[u].items), p)))
        && |r.value.items| == |old(carts[u].items)| - 1
        && carts == old(carts)[u := r.value]
    {
      if u !in carts {
        return Err(404, "Cart not found");
      }
      var cart := carts[u];
      if Find(cart.items, p) == -1 {
        return Err(404, "Item not found in cart");
      }
      r := Save(u, Cart(cart.id, Remove(cart.items, p)));
    }
  }
}
