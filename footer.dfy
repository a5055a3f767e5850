/** The Footer slot the block hands to the recommendation list: for each
    rendered product it composes an action button and a wishlist toggle
    and puts that group in place of its placeholder. */
module FooterSlot {
  import opened Wrappers

  /** The product fields the slot reads. */
  datatype SlotProduct = SlotProduct(itemType: string, sku: string, urlKey: string)

  /** `dictionary.Recommendations.ProductList`: the two button labels. */
  datatype Labels = Labels(addToCart: string, selectOptions: string)

  const SimpleProductView: string := "SimpleProductView"

  /** One line of an add-to-cart request. */
  datatype CartLine = CartLine(sku: string, quantity: int)

  /** What clicking a button does: call the cart service, or send the
      browser to a path (the path is given to the storefront's root-link
      helper, which is not part of this model). */
  datatype Click =
    | AddProductsToCart(lines: seq<CartLine>)
    | Navigate(path: string)

  datatype Variant = Primary | Tertiary

  /** A rendered button; `icon` is the icon source, if any. */
  datatype Button = Button(text: string, icon: Option<string>, variant: Variant, onClick: Click)

  /** The children of the `footer__wrapper` element, in document order. */
  datatype Node =
    | ActionButton(button: Button)
    | WishlistToggle(product: SlotProduct)

  datatype Wrapper = Wrapper(children: seq<Node>)

  /** `/products/{urlKey}/{sku}` */
  function ProductPath(p: SlotProduct): string
  {
    "/products/" + p.urlKey + "/" + p.sku
  }

  /** The action button: add-to-cart for a simple product, select-options
      for every other item type. */
  function ActionFor(p: SlotProduct, labels: Labels): (b: Button)
    ensures b.onClick.AddProductsToCart? <==> p.itemType == SimpleProductView
    ensures b.onClick.AddProductsToCart? ==>
      b.onClick.lines == [CartLine(p.sku, 1)] && b.text == labels.addToCart && b.variant == Primary
      && b.icon == Some("Cart")
    ensures b.onClick.Navigate? ==>
      b.onClick.path == ProductPath(p) && b.text == labels.selectOptions && b.variant == Tertiary
      && b.icon.None?
  {
    if p.itemType == SimpleProductView then
      Button(labels.addToCart, Some("Cart"), Primary, AddProductsToCart([CartLine(p.sku, 1)]))
    else
      Button(labels.selectOptions, None, Tertiary, Navigate(ProductPath(p)))
  }

  /** The group the slot passes to `replaceWith`, its one call: the action
      button first, then the wishlist toggle bound to the same product. */
  function Footer(p: SlotProduct, labels: Labels): (w: Wrapper)
    ensures |w.children| == 2
    ensures w.children[0].ActionButton? && w.children[0].button == ActionFor(p, labels)
    ensures w.children[1] == WishlistToggle(p)
  {
    Wrapper([ActionButton(ActionFor(p, labels)), WishlistToggle(p)])
  }

  /** Clicking the action of a simple product adds exactly one unit of that
      product to the cart; the other item types never touch the cart and go
      to the product's detail page instead. */
  lemma ClickEffects(p: SlotProduct, labels: Labels)
    ensures p.itemType == SimpleProductView ==>
      Footer(p, labels).children[0].button.onClick == AddProductsToCart([CartLine(p.sku, 1)])
    ensures p.itemType != SimpleProductView ==>
      Footer(p, labels).children[0].button.onClick == Navigate(ProductPath(p))
  {
  }

  /** True when the URL key holds no `/`. */
  predicate NoSlash(urlKey: string)
  {
    forall i :: 0 <= i < |urlKey| ==> urlKey[i] != '/'
  }

  /** For URL keys without a `/`, the detail-page path determines both the
      URL key and the SKU: two products share a path only when they share
      both. */
  lemma {:induction false} ProductPathInjective(p: SlotProduct, q: SlotProduct)
    requires NoSlash(p.urlKey) && NoSlash(q.urlKey)
    requires ProductPath(p) == ProductPath(q)
    ensures p.urlKey == q.urlKey && p.sku == q.sku
  {
    var prefix := "/products/";
    var a, b := p.urlKey + "/" + p.sku, q.urlKey + "/" + q.sku;
    assert ProductPath(p) == prefix + a && ProductPath(q) == prefix + b;
    assert a == ProductPath(p)[|prefix|..] == ProductPath(q)[|prefix|..] == b;
    // A shorter URL key would put its `/` opposite a character of the
    // longer one.
    assert a[|p.urlKey|] == '/' && b[|q.urlKey|] == '/';
    if |p.urlKey| < |q.urlKey| {
      assert false;
    } else if |q.urlKey| < |p.urlKey| {
      assert false;
    }
    assert p.urlKey == a[..|p.urlKey|] == b[..|q.urlKey|] == q.urlKey;
    assert p.sku == a[|p.urlKey| + 1..] == b[|q.urlKey| + 1..] == q.sku;
  }
}
