/**
 * The request-body guards: `validateCartItemBody`
 * (src/middlewares/cartMiddleware.ts), `validateProductBody`
 * (src/middlewares/productMiddleware.ts) and `validateCategory`
 * (src/middlewares/validateCategory.ts). Each is a chain of checks run in a
 * fixed order; the first that fails answers 400 with its own message, and
 * the request goes on only when every check passes.
 */
module Validators {
  import opened Common
  import opened Js
  import opened ProductModel

  const CartFieldsRequired := "productId and quantity are required"
  const CartProductNotString := "productId must be a UUID string"
  const CartQuantityNotPositive := "quantity must be a positive number"

  /** `validateCartItemBody`. */
  function ValidateCartItemBody(productId: Value, quantity: Value): (r: Verdict)
    ensures r == Next <==>
      productId.Str? && productId.s != "" && quantity.Num? && quantity.n > 0
    ensures r.Reject? ==> r.status == 400
    ensures r == Reject(400, CartFieldsRequired) <==> !Truthy(productId) || quantity.Undefined?
    ensures r == Reject(400, CartProductNotString) <==>
      Truthy(productId) && !quantity.Undefined? && !productId.Str?
    ensures r == Reject(400, CartQuantityNotPositive) <==>
      productId.Str? && productId.s != "" && !quantity.Undefined? && !(quantity.Num? && quantity.n > 0)
  {
    if !Truthy(productId) || quantity.Undefined? then Reject(400, CartFieldsRequired)
    else if !productId.Str? then Reject(400, CartProductNotString)
    else if !quantity.Num? || quantity.n <= 0 then Reject(400, CartQuantityNotPositive)
    else Next
  }

  /** A body the cart guard admits carries a quantity the cart schema accepts (`min: 1`),
      which is what the user-path add and update rely on. */
  lemma AdmittedCartQuantityIsStorable(productId: Value, quantity: Value)
    requires ValidateCartItemBody(productId, quantity) == Next
    ensures quantity.Num? && quantity.n >= 1 && productId.Str?
  {
  }

  const ProductFieldsMissing := "Missing required fields"
  const ProductNameNotString := "Name must be a string"
  const ProductPriceInvalid := "Price must be a positive number"
  const ProductCategoryInvalid := "Invalid categoryId format"
  const ProductStockNotBoolean := "inStock must be boolean"
  const ProductQuantityInvalid := "Quantity must be positive"

  /** The presence check: a falsy name or categoryId, or an absent price, inStock or quantity.
      Price 0, quantity 0 and inStock false count as present. */
  predicate ProductFieldsAbsent(name: Value, price: Value, categoryId: Value, inStock: Value, quantity: Value)
  {
    !Truthy(name) || price.Undefined? || !Truthy(categoryId) || inStock.Undefined? || quantity.Undefined?
  }

  /** `validateProductBody`. `isValidId` is `mongoose.Types.ObjectId.isValid`. */
  function ValidateProductBody(name: Value, price: Value, categoryId: Value, inStock: Value,
                               quantity: Value, isValidId: Value -> bool): (r: Verdict)
    ensures r == Next <==>
      && name.Str? && name.s != ""
      && price.Num? && price.n >= 0
      && Truthy(categoryId) && isValidId(categoryId)
      && inStock.Bool?
      && quantity.Num? && quantity.n >= 0
    ensures r.Reject? ==> r.status == 400
    ensures r == Reject(400, ProductFieldsMissing) <==>
      ProductFieldsAbsent(name, price, categoryId, inStock, quantity)
    ensures r == Reject(400, ProductNameNotString) <==>
      !ProductFieldsAbsent(name, price, categoryId, inStock, quantity) && !name.Str?
    ensures r == Reject(400, ProductPriceInvalid) <==>
      && !ProductFieldsAbsent(name, price, categoryId, inStock, quantity) && name.Str?
      && !(price.Num? && price.n >= 0)
    ensures r == Reject(400, ProductCategoryInvalid) <==>
      && !ProductFieldsAbsent(name, price, categoryId, inStock, quantity) && name.Str?
      && price.Num? && price.n >= 0 && !isValidId(categoryId)
    ensures r == Reject(400, ProductStockNotBoolean) <==>
      && !ProductFieldsAbsent(name, price, categoryId, inStock, quantity) && name.Str?
      && price.Num? && price.n >= 0 && isValidId(categoryId) && !inStock.Bool?
    ensures r == Reject(400, ProductQuantityInvalid) <==>
      && !ProductFieldsAbsent(name, price, categoryId, inStock, quantity) && name.Str?
      && price.Num? && price.n >= 0 && isValidId(categoryId) && inStock.Bool?
      && !(quantity.Num? && quantity.n >= 0)
  {
    if ProductFieldsAbsent(name, price, categoryId, inStock, quantity) then Reject(400, ProductFieldsMissing)
    else if !name.Str? then Reject(400, ProductNameNotString)
    else if !price.Num? || price.n < 0 then Reject(400, ProductPriceInvalid)
    else if !isValidId(categoryId) then Reject(400, ProductCategoryInvalid)
    else if !inStock.Bool? then Reject(400, ProductStockNotBoolean)
    else if !quantity.Num? || quantity.n < 0 then Reject(400, ProductQuantityInvalid)
    else Next
  }

  /** The guard and the schema disagree on names: a body the guard admits is stored exactly
      when its name is not all white space, since the schema trims the name before `required`. */
  lemma AdmittedProductStoredIffNameNotBlank(name: Value, price: Value, categoryId: Value, inStock: Value,
                                             quantity: Value, isValidId: Value -> bool,
                                             id: ProductId, owner: UserId)
    requires ValidateProductBody(name, price, categoryId, inStock, quantity, isValidId) == Next
    requires categoryId.Str?
    ensures var d := Draft(Some(name.s), Some(price.n), None, Some(categoryId.s), Some(inStock.b),
                           Some(quantity.n), None, Some(owner));
      Validate(id, d).Some? <==> !Blank(name.s)
  {
    TrimEmptyIffBlank(name.s);
  }

  const CategoryNameRequired := "Category name is required and must be a non-empty string"
  const CategoryNameNotString := "Category name must be a string"
  const CategoryDescriptionNotString := "Description must be a string"

  /** `validateCategory`: on POST the name must be a string that is not blank after `trim`;
      on any method a name or description that is present must be a string. */
  function ValidateCategory(httpMethod: string, name: Value, description: Value): (r: Verdict)
    ensures r == Next <==>
      && (httpMethod == "POST" ==> name.Str? && !Blank(name.s))
      && (name.Undefined? || name.Str?)
      && (description.Undefined? || description.Str?)
    ensures r.Reject? ==> r.status == 400
    ensures r == Reject(400, CategoryNameRequired) <==>
      httpMethod == "POST" && !(name.Str? && !Blank(name.s))
    ensures r == Reject(400, CategoryNameNotString) <==>
      httpMethod != "POST" && !name.Undefined? && !name.Str?
    ensures r == Reject(400, CategoryDescriptionNotString) <==>
      && (httpMethod == "POST" ==> name.Str? && !Blank(name.s))
      && (name.Undefined? || name.Str?)
      && !description.Undefined? && !description.Str?
  {
    if httpMethod == "POST" && (!Truthy(name) || !name.Str? || Trim(name.s) == "") then
      assert name.Str? ==> (Trim(name.s) == "" <==> Blank(name.s)) by {
        if name.Str? { TrimEmptyIffBlank(name.s); }
      }
      Reject(400, CategoryNameRequired)
    else if !name.Undefined? && !name.Str? then Reject(400, CategoryNameNotString)
    else if !description.Undefined? && !description.Str? then Reject(400, CategoryDescriptionNotString)
    else
      assert httpMethod == "POST" ==> !Blank(name.s) by {
        if httpMethod == "POST" { TrimEmptyIffBlank(name.s); }
      }
      Next
  }
}
