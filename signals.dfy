/** Payloads carried by the four data-layer signals the block listens to,
    and what each handler extracts from them. `None` is an absent (or
    `null`) property, which optional chaining reads as `undefined`. */
module Signals {
  import opened Wrappers

  datatype ProductContext = ProductContext(sku: Option<string>)
  datatype CategoryContext = CategoryContext(name: Option<string>)
  datatype PageContext = PageContext(pageType: Option<string>)

  datatype CartProduct = CartProduct(sku: string)
  /** A cart line item; its `product` may be missing. */
  datatype CartItem = CartItem(product: Option<CartProduct>)
  datatype ShoppingCartContext = ShoppingCartContext(totalQuantity: Option<int>, items: Option<seq<CartItem>>)

  /** The exception a handler can raise: destructuring `{ product }` and then
      reading `product.sku` on an item without a product. */
  datatype Thrown = TypeError

  /** `productContext?.sku` */
  function ProductSku(productContext: Option<ProductContext>): Option<string>
  {
    if productContext.Some? then productContext.value.sku else None
  }

  /** `categoryContext?.name` */
  function CategoryName(categoryContext: Option<CategoryContext>): Option<string>
  {
    if categoryContext.Some? then categoryContext.value.name else None
  }

  /** `pageContext?.pageType` */
  function PageType(pageContext: Option<PageContext>): Option<string>
  {
    if pageContext.Some? then pageContext.value.pageType else None
  }

  /** True when every item has a product, so that mapping the items to their
      SKUs does not throw. */
  predicate AllHaveProducts(items: seq<CartItem>)
  {
    forall i :: 0 <= i < |items| ==> items[i].product.Some?
  }

  /** `items.map(({ product }) => product.sku)`: the SKUs of the items in
      order, or `None` when some item has no product (the map throws). */
  function ItemSkus(items: seq<CartItem>): (skus: Option<seq<string>>)
    ensures skus.Some? <==> AllHaveProducts(items)
    ensures skus.Some? ==> |skus.value| == |items|
    ensures skus.Some? ==> forall i :: 0 <= i < |items| ==> skus.value[i] == items[i].product.value.sku
  {
    if |items| == 0 then Some([])
    else if items[0].product.None? then None
    else
      match ItemSkus(items[1..])
      case None => None
      case Some(rest) => Some([items[0].product.value.sku] + rest)
  }

  /** The SKUs a ShoppingCartContext yields: `[]` when `totalQuantity === 0`
      (whatever the items are), otherwise the item SKUs in order, and
      `undefined` when the context or its items are absent. */
  function CartSkus(cart: Option<ShoppingCartContext>): (r: Result<Option<seq<string>>, Thrown>)
    ensures cart.Some? && cart.value.totalQuantity == Some(0) ==> r == Success(Some([]))
    ensures cart.None? ==> r == Success(None)
    ensures cart.Some? && cart.value.totalQuantity != Some(0) && cart.value.items.None? ==> r == Success(None)
    ensures r.Failure? <==>
      cart.Some? && cart.value.totalQuantity != Some(0) && cart.value.items.Some? && !AllHaveProducts(cart.value.items.value)
    ensures cart.Some? && cart.value.totalQuantity != Some(0) && cart.value.items.Some? && r.Success? ==>
      r.value.Some? && |r.value.value| == |cart.value.items.value|
      && forall i :: 0 <= i < |r.value.value| ==> r.value.value[i] == cart.value.items.value[i].product.value.sku
  {
    if cart.None? then Success(None)
    else if cart.value.totalQuantity == Some(0) then Success(Some([]))
    else if cart.value.items.None? then Success(None)
    else
      match ItemSkus(cart.value.items.value)
      case None => Failure(TypeError)
      case Some(s) => Success(Some(s))
  }

  /** The cart of two items A and B with total quantity 2 yields ["A", "B"];
      with total quantity 0 it yields [] whatever its items are. */
  lemma CartSkusExamples(items: seq<CartItem>)
    ensures CartSkus(Some(ShoppingCartContext(Some(2),
              Some([CartItem(Some(CartProduct("A"))), CartItem(Some(CartProduct("B")))])))) == Success(Some(["A", "B"]))
    ensures CartSkus(Some(ShoppingCartContext(Some(0), Some(items)))) == Success(Some([]))
  {
    var two := [CartItem(Some(CartProduct("A"))), CartItem(Some(CartProduct("B")))];
    var last := [CartItem(Some(CartProduct("B")))];
    assert last[1..] == [];
    assert ItemSkus(last[1..]) == Some([]);
    assert [last[0].product.value.sku] + [] == ["B"];
    assert ItemSkus(last) == Some(["B"]);
    assert two[1..] == last;
    assert ["A"] + ["B"] == ["A", "B"];
    assert ItemSkus(two) == Some(["A", "B"]);
  }
}
