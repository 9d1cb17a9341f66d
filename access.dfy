/**
 * The access guards: `isCartOwnerOrAdmin` (src/middlewares/cartOwnerMiddle.ts)
 * and `isProductOwnerOrAdmin` (src/middlewares/productOwnership.ts). The
 * authenticated caller is an explicit input; None means no one is logged in.
 */
module Access {
  import opened Common
  import opened ProductModel

  /** `isCartOwnerOrAdmin` for a request about the cart of `target`. */
  function CartOwnerOrAdmin(user: Option<Principal>, target: UserId): (r: Verdict)
    ensures r == Next <==> user.Some? && (user.value.role == Some(Admin) || user.value.id == target)
    ensures r == Reject(401, "Not authorized") <==> user.None?
    ensures r == Reject(403, "Access denied: not your cart") <==>
      user.Some? && user.value.role != Some(Admin) && user.value.id != target
    ensures r == Next || r == Reject(401, "Not authorized") || r == Reject(403, "Access denied: not your cart")
  {
    if user.None? then Reject(401, "Not authorized")
    else if user.value.role == Some(Admin) then Next
    else if user.value.id != target then Reject(403, "Access denied: not your cart")
    else Next
  }

  /** `isProductOwnerOrAdmin` for a request about product `id`. The product lookup comes
      first, so an unknown product answers 404 even to an anonymous caller. */
  function ProductOwnerOrAdmin(catalog: map<ProductId, Product>, id: ProductId, user: Option<Principal>): (r: Verdict)
    ensures r == Reject(404, "Product not found") <==> id !in catalog
    ensures r == Reject(401, "Not authenticated") <==> id in catalog && user.None?
    ensures r == Next <==>
      && id in catalog && user.Some?
      && (user.value.role == Some(Admin)
          || (user.value.role == Some(Vendor) && catalog[id].createdBy == user.value.id))
    ensures r == Reject(403, "Not allowed to modify this product") <==>
      && id in catalog && user.Some? && user.value.role != Some(Admin)
      && !(user.value.role == Some(Vendor) && catalog[id].createdBy == user.value.id)
  {
    if id !in catalog then Reject(404, "Product not found")
    else if user.None? then Reject(401, "Not authenticated")
    else if user.value.role == Some(Admin) then Next
    else if user.value.role == Some(Vendor) && catalog[id].createdBy == user.value.id then Next
    else Reject(403, "Not allowed to modify this product")
  }

  /** Only administrators and the owning vendor get through; a client never does,
      not even for a product recorded as theirs. */
  lemma ProductGuardAdmitsOnlyAdminOrOwner(catalog: map<ProductId, Product>, id: ProductId, user: Option<Principal>)
    requires ProductOwnerOrAdmin(catalog, id, user) == Next
    ensures user.Some? && user.value.role != Some(Client) && user.value.role != None
    ensures user.value.role == Some(Vendor) ==> catalog[id].createdBy == user.value.id
  {
  }
}
