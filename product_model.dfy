/**
 * The product document (src/models/Product.ts): its fields, and the
 * validation the schema applies when a product is stored.
 */
module ProductModel {
  import opened Common
  import opened Js

  /** A stored product. `createdBy` is the account that owns it. */
  datatype Product = Product(
    id: ProductId,
    name: string,
    price: int,
    description: Option<string>,
    category: CategoryId,
    inStock: bool,
    quantity: int,
    image: Option<string>,
    createdBy: UserId)

  /** The fields a product is created from; a field the caller left out is None. */
  datatype Draft = Draft(
    name: Option<string>,
    price: Option<int>,
    description: Option<string>,
    category: Option<CategoryId>,
    inStock: Option<bool>,
    quantity: Option<int>,
    image: Option<string>,
    createdBy: Option<UserId>)

  /** What every write path guarantees of a stored product: the name setter trims on
      creation and on update alike, and the body guard in front of both writes demands
      non-negative price and quantity. A non-empty name is only checked on creation. */
  ghost predicate ValidProduct(p: Product)
  {
    && Trim(p.name) == p.name
    && p.price >= 0
    && p.quantity >= 0
  }

  /** A catalog: products by id, each valid and filed under its own id. */
  ghost predicate ValidCatalog(catalog: map<ProductId, Product>)
  {
    forall id :: id in catalog ==> catalog[id].id == id && ValidProduct(catalog[id])
  }

  /** Trims the name (`trim: true`), then applies `required` (an empty string counts as
      missing) and the `min: 0` bounds on price and quantity. */
  function Validate(id: ProductId, d: Draft): (r: Option<Product>)
    ensures r.Some? <==>
      && d.name.Some? && Trim(d.name.value) != ""
      && d.price.Some? && d.price.value >= 0
      && d.category.Some? && d.inStock.Some?
      && d.quantity.Some? && d.quantity.value >= 0
      && d.createdBy.Some?
    ensures r.Some? ==> ValidProduct(r.value) && r.value.name != ""
    ensures r.Some? ==> r.value == Product(id, Trim(d.name.value), d.price.value, d.description,
      d.category.value, d.inStock.value, d.quantity.value, d.image, d.createdBy.value)
  {
    if d.name.None? || d.price.None? || d.category.None? || d.inStock.None?
      || d.quantity.None? || d.createdBy.None? then None
    else
      var name := Trim(d.name.value);
      TrimIdempotent(d.name.value);
      if name == "" || d.price.value < 0 || d.quantity.value < 0 then None
      else Some(Product(id, name, d.price.value, d.description, d.category.value,
                        d.inStock.value, d.quantity.value, d.image, d.createdBy.value))
  }

  /** Trimming a trimmed name changes nothing, so a stored name stays trimmed. */
  lemma TrimIdempotent(s: string)
    ensures Trim(Trim(s)) == Trim(s)
  {
    var t := Trim(s);
    var a := TrimStart(s);
    assert t == a[..|t|];
    if t != [] {
      assert t[0] == a[0];
      assert TrimStart(t) == t;
      assert TrimEnd(t) == t;
    }
  }
}
