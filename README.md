# Product recommendations block — a Dafny model

This project models the controller of the storefront's product-recommendations
block (`blocks/product-recommendations/product-recommendations.js`). The block
collects page context from four data-layer signals (product, category, page
type, shopping cart). After every change it asks for a load. A load does
nothing until the block is visible. When visible, it re-reads the
product-view and purchase histories from local storage and asks the
recommendation list to render. It also supplies the Footer slot that puts an
add-to-cart or select-options button and a wishlist toggle under each
recommended product.

Modules, leaf first:

- `Wrappers` (wrappers.dfy): `Option` stands for `undefined`, and `Outcome`/`Result` stand for an exception thrown out of a call.
- `JsonValues` (json.dfy): JSON values. The parser is a parameter of type `string -> Option<Json>`. The only fact assumed about it is `ParsesEmptyArray`: the text `[]` parses to the empty array.
- `History` (history.dfy): the two storage keys and one read with self-repair, as a function of the storage map, plus lemmas about it.
- `BlockConfig` (filters.dfy): the `filters` record built from the block's `typeid`.
- `Signals` (signals.dfy): the data-layer payloads and the `cartSkus` derivation.
- `FooterSlot` (footer.dfy): the per-product button choice, the add-to-cart payload and the detail-page path.
- `Controller` (controller.dfy): the block as a state machine. The state is the context record, visibility, whether the observer is connected, storage, and the log of render requests. It also holds the lemmas about whole runs of events.
- `ProductRecommendations` (block.dfy): the class `RecommendationBlock`. Its fields are updated in place by the history getters, `loadRecommendation`, the four handlers and the intersection callback. The postconditions of `loadRecommendation`, the handlers and the callback equate the new state with the `Controller` transition applied to the old state. The postconditions of the history getters equate the result and the new storage with `History.Load`. The render log is a ghost field.

Behaviour kept exactly as the code has it:

- The render request carries `pageType`, `currentSku` and the two histories only. `filters`, `category` and `cartSkus` are computed but never passed to the renderer (lines 110-114).
- The intersection callback loads without a container (line 200).
- Every render request carries the same Footer slot (lines 115-160), the one `FooterSlot.Footer` describes. Because it never differs between requests, `RenderRequest` has no field for it.
- The callback's `forEach` does not stop at `disconnect()`. A batch that holds several intersecting entries therefore requests one render per intersecting entry (`Controller.OnEntriesEffect`).
- A cart item without a `product` makes the SKU mapping throw. The handler then stops before it writes `cartSkus` or asks for a load.
- The parsed history is whatever the parser returns. The code never checks that it is an array, and neither does the model.

## Model

| member | source | states |
|---|---|---|
| `History.Load` | blocks/product-recommendations/product-recommendations.js:38-47 | a read only removes keys: what is left keeps its stored values, and every key other than the one read survives |
| `History.LoadMissingOrEmpty` | blocks/product-recommendations/product-recommendations.js:39-42 | a missing or empty stored value reads as the empty array and leaves storage unchanged |
| `History.LoadCorrupt` | blocks/product-recommendations/product-recommendations.js:43-47 | a value that fails to parse reads as `[]`; exactly that key is removed and every other key keeps its value |
| `History.LoadParsed` | blocks/product-recommendations/product-recommendations.js:40-42 | a value that parses is returned as parsed and storage is unchanged |
| `History.LoadRepairsOnlyCorruption` | blocks/product-recommendations/product-recommendations.js:55-65 | storage changes if and only if the stored value is non-empty and fails to parse, and then only by losing that key |
| `History.KeysDistinct` | blocks/product-recommendations/product-recommendations.js:39-58 | the `:productViewHistory` and `:purchaseHistory` keys of one store view differ |
| `History.LoadsIndependent` | blocks/product-recommendations/product-recommendations.js:104-107 | reading one history never changes what the other history reads, in either order |
| `BlockConfig.BuildFilters` | blocks/product-recommendations/product-recommendations.js:69-73 | `filters` has a `typeId` exactly when the configured `typeid` is truthy (present and non-empty), and then it is that value |
| `Signals.ItemSkus` | blocks/product-recommendations/product-recommendations.js:183 | mapping the items succeeds exactly when every item has a product; the result then holds the items' SKUs in order |
| `Signals.CartSkus` | blocks/product-recommendations/product-recommendations.js:181-183 | `[]` when `totalQuantity === 0`, whatever the items; `undefined` when the cart context or its items are absent; otherwise the item SKUs in order; a throw exactly when some item lacks a product |
| `Signals.CartSkusExamples` | blocks/product-recommendations/product-recommendations.js:180-185 | a cart of items A and B with quantity 2 yields `["A","B"]`; quantity 0 yields `[]` for any items |
| `FooterSlot.ActionFor` | blocks/product-recommendations/product-recommendations.js:124-144 | add-to-cart exactly for `SimpleProductView`, with payload `[{sku, quantity: 1}]`, the add-to-cart label, the primary variant and the `Cart` icon; otherwise select-options to `/products/{urlKey}/{sku}` with the tertiary variant and no icon |
| `FooterSlot.Footer` | blocks/product-recommendations/product-recommendations.js:116-158 | the group passed to `replaceWith` holds two children: the action button, then a wishlist toggle bound to the same product |
| `FooterSlot.ClickEffects` | blocks/product-recommendations/product-recommendations.js:130-141 | clicking a simple product's action adds one unit of its SKU to the cart; any other product navigates to its detail page and makes no cart call |
| `FooterSlot.ProductPathInjective` | blocks/product-recommendations/product-recommendations.js:139-141 | for URL keys without a `/`, two products get the same detail-page path only when they have the same URL key and the same SKU |
| `Controller.Init` | blocks/product-recommendations/product-recommendations.js:86-87 | the context starts empty; visibility starts as `!isMobile`; the observer is connected exactly on mobile; no render has been requested |
| `Controller.LoadHiddenIsNoop` | blocks/product-recommendations/product-recommendations.js:97-99 | while not visible a load changes nothing: no context field, no storage and no render request |
| `Controller.LoadVisible` | blocks/product-recommendations/product-recommendations.js:101-114 | while visible both histories are overwritten with fresh reads of storage, and exactly one render request is appended carrying the current `pageType`, `currentSku`, both histories and the container; nothing else in the context changes, and storage changes only by repair |
| `Controller.LoadOnlyRepairs` | blocks/product-recommendations/product-recommendations.js:101-107 | every load leaves storage as it was except that the two history keys may be removed |
| `Controller.HandlerEffect` | blocks/product-recommendations/product-recommendations.js:165-185 | each handler writes only its own field from the payload and makes exactly one load with the block's list; hidden, that is all it does; visible, it appends one render built from the updated context; a throwing cart payload changes nothing |
| `Controller.ProductThenPageType` | blocks/product-recommendations/product-recommendations.js:165-178 | a product change to X, then a page-type change to PLP, while visible: two renders, and the second carries both X and PLP |
| `Controller.OnEntriesEffect` | blocks/product-recommendations/product-recommendations.js:196-203 | over one batch, visibility becomes true and the observer disconnects exactly when some entry intersects; one render without a container is appended per intersecting entry; earlier renders are kept |
| `Controller.DesktopIgnoresIntersections` | blocks/product-recommendations/product-recommendations.js:194-206 | off mobile the block is visible from the start and intersection batches have no effect |
| `Controller.SecondIntersectionIsNoop` | blocks/product-recommendations/product-recommendations.js:199-201 | once visible, a further batch has no effect because the observer was disconnected |
| `Controller.FirstIntersection` | blocks/product-recommendations/product-recommendations.js:196-204 | before the flip, a batch makes the block visible exactly when an entry intersects, keeps the invariant, and requests one container-less render per intersecting entry |
| `Controller.StepPreservesInv` | blocks/product-recommendations/product-recommendations.js:165-205 | every event keeps "observer connected iff not visible", never turns visibility off, only appends render requests, and touches storage only by repair |
| `Controller.RunPreservesInv` | blocks/product-recommendations/product-recommendations.js:187-205 | the same four facts hold over any sequence of signals and intersection batches |
| `Controller.HiddenSignalsRenderNothing` | blocks/product-recommendations/product-recommendations.js:165-185 | while not visible, any number of data-layer signals request no render, leave storage alone and keep the block invisible |
| `Controller.VisibleSignalsRenderEach` | blocks/product-recommendations/product-recommendations.js:165-185 | while visible, every signal that reaches its load call requests exactly one render |
| `Controller.MobileScenario` | blocks/product-recommendations/product-recommendations.js:194-205 | on mobile, signals before scrolling into view request nothing; the first intersecting entry then requests exactly one render, from the accumulated context and without a container |
| `ProductRecommendations.RecommendationBlock.constructor` | blocks/product-recommendations/product-recommendations.js:67-87 | `decorate` builds the filters from `typeid`, starts from an empty context with visibility `!isMobile`, and connects the observer on mobile |
| `ProductRecommendations.RecommendationBlock.ReadHistory` | blocks/product-recommendations/product-recommendations.js:38-47 | it agrees with `History.Load`: missing or empty reads `[]` with storage unchanged; unparsable reads `[]` and removes exactly that key; parsable returns the parsed value with storage unchanged |
| `ProductRecommendations.RecommendationBlock.GetProductViewHistory` | blocks/product-recommendations/product-recommendations.js:37-48 | reads `{code}:productViewHistory` as `History.Load` does and leaves the purchase-history entry as it was |
| `ProductRecommendations.RecommendationBlock.GetPurchaseHistory` | blocks/product-recommendations/product-recommendations.js:55-65 | reads `{code}:purchaseHistory` as `History.Load` does and leaves the view-history entry as it was |
| `ProductRecommendations.RecommendationBlock.LoadRecommendation` | blocks/product-recommendations/product-recommendations.js:89-114 | hidden: nothing changes; visible: both histories are refreshed into the context and exactly one render request from the current context is appended |
| `ProductRecommendations.RecommendationBlock.HandleProductChanges` | blocks/product-recommendations/product-recommendations.js:165-168 | writes `currentSku = productContext?.sku` and no other context field, then loads once |
| `ProductRecommendations.RecommendationBlock.HandleCategoryChanges` | blocks/product-recommendations/product-recommendations.js:170-173 | writes `category = categoryContext?.name` and no other context field, then loads once |
| `ProductRecommendations.RecommendationBlock.HandlePageTypeChanges` | blocks/product-recommendations/product-recommendations.js:175-178 | writes `pageType = pageContext?.pageType` and no other context field, then loads once |
| `ProductRecommendations.RecommendationBlock.HandleCartChanges` | blocks/product-recommendations/product-recommendations.js:180-185 | writes the derived `cartSkus` and no other context field, then loads once; when the SKU mapping throws, nothing changes |
| `ProductRecommendations.RecommendationBlock.OnIntersection` | blocks/product-recommendations/product-recommendations.js:196-204 | runs the `forEach` over the batch as `Controller.Intersection` describes; a delivered batch keeps the invariant, and visibility never returns to false |
| `History.ViewKey` | blocks/product-recommendations/product-recommendations.js:40-44 | the view-history key: the store-view code followed by `:productViewHistory` |
| `History.PurchaseKey` | blocks/product-recommendations/product-recommendations.js:58-61 | the purchase-history key: the store-view code followed by `:purchaseHistory` |
| `History.RawValue` | blocks/product-recommendations/product-recommendations.js:39-41 | the stored value when it is present and non-empty, otherwise the fallback text `[]` |
| `Signals.ProductSku` | blocks/product-recommendations/product-recommendations.js:166 | `productContext?.sku`: undefined when the payload is absent |
| `Signals.CategoryName` | blocks/product-recommendations/product-recommendations.js:171 | `categoryContext?.name`: undefined when the payload is absent |
| `Signals.PageType` | blocks/product-recommendations/product-recommendations.js:176 | `pageContext?.pageType`: undefined when the payload is absent |
| `FooterSlot.ProductPath` | blocks/product-recommendations/product-recommendations.js:140 | the select-options target `/products/{urlKey}/{sku}` |
| `Controller.LoadRecommendation` | blocks/product-recommendations/product-recommendations.js:89-114 | the load transition: the whole state unchanged while not visible; otherwise both histories re-read into the context, storage repaired, and one render request appended |
| `Controller.HandleProductChanges` | blocks/product-recommendations/product-recommendations.js:165-168 | the product transition: write `currentSku`, then load into the list |
| `Controller.HandleCategoryChanges` | blocks/product-recommendations/product-recommendations.js:170-173 | the category transition: write `category`, then load into the list |
| `Controller.HandlePageTypeChanges` | blocks/product-recommendations/product-recommendations.js:175-178 | the page-type transition: write `pageType`, then load into the list |
| `Controller.HandleCartChanges` | blocks/product-recommendations/product-recommendations.js:180-185 | the cart transition: write the derived `cartSkus`, then load into the list; no change when the derivation throws |
| `Controller.OnEntry` | blocks/product-recommendations/product-recommendations.js:197-202 | one turn of the `forEach`: an intersecting entry sets visibility, loads without a container and disconnects; any other entry changes nothing |
| `Controller.OnEntries` | blocks/product-recommendations/product-recommendations.js:197-203 | the `forEach` over a batch, entry by entry, in order |
| `Controller.Intersection` | blocks/product-recommendations/product-recommendations.js:196-204 | a batch is delivered to the callback only while the observer is connected |
| `Controller.WriteThenSignalRendersWrite` | blocks/product-recommendations/product-recommendations.js:101-107 | histories are read fresh on every visible load: after other code writes a parsable value under a history key, the next loading signal renders exactly that parsed value |

## Left out

- `scripts/initializers/recommendations.js` is not part of this model. It sets the endpoint, headers and placeholder labels and mounts the drop-in, all of it asynchronous I/O.
- DOM work is left out: the layout fragment, `querySelector`, `createElement`, class names and `block.closest`. The list element is the single `Container` value.
- `readBlockConfig` and `getConfigValue` are reduced to constructor parameters: the `typeid` value and the store-view code. The store-view code is read once, not on every load.
- `window.matchMedia` is the constructor parameter `isMobile`.
- The real `IntersectionObserver` is the method `OnIntersection`. It receives one delivered batch of entries, and only `isIntersecting` is kept of each entry.
- `adobeDataLayer` listener registration is left out. The four handlers are methods called directly with the payload, and a payload field of a non-string type is not modelled.
- The real `JSON.parse` is the parser parameter. Its result is not assumed to be an array.
- `console.error` is left out.
- Other writers to local storage are modelled only in the `Controller` state machine, as the event `StorageWritten`. These writers are the page code that records views and purchases, and other blocks on the page. The class `RecommendationBlock` has no method for such writes. Storage changes only by this block's repairs when no such event occurs (`Controller.RunPreservesInv`).
- `FooterSlot.Footer`: when a product has no `urlKey`, the template yields the path `/products/undefined/<sku>`. The model gives every slot product a string URL key and a string SKU.
- An exception thrown by local storage itself (one the `catch` would also absorb) is not modelled. Neither is the exception `observe` throws when the block has no enclosing section.
- The renderer (`provider.render`/`ProductList`) appears only as render requests in a log. The same holds for `UI.render`/`Button`/`Icon`, `wishlistRender`/`WishlistToggle`, the cart service, `rootLink` and `window.location`: they are data (`Button`, `WishlistToggle`, `Click`), not calls.
- The promise returned by a render, `Promise.all`, and overlapping renders racing each other are left out, because they are concurrency. So is which render's result the page finally shows.
- `Signals.ItemSkus`: a cart product whose `sku` is absent would put `undefined` into `cartSkus`. The model gives every cart product a string SKU.
- A `totalQuantity` that is not a number is not modelled; the model gives it as an integer or absent.
