/** One product-recommendations block on a page, as `decorate` sets it up:
    the shared context, the visibility flag, the observer, local storage,
    and the render requests made so far. Its methods are the history
    getters, `loadRecommendation`, the four data-layer handlers and the
    intersection callback; each performs, in place, the transition the
    Controller module defines. */
module ProductRecommendations {
  import opened Wrappers
  import opened JsonValues
  import History
  import opened Signals
  import opened BlockConfig
  import Controller

  class RecommendationBlock {
    /** The media-query result, read once at start-up. */
    const isMobile: bool
    /** The configured store-view code scoping both history keys. */
    const storeViewCode: string
    const parse: Parser
    /** Computed once from the block's configuration; no render uses it. */
    const filters: Filters

    var storage: History.Storage
    var context: Controller.Context
    var visibility: bool
    /** True while the intersection observer is connected. */
    var observing: bool
    /** The requests made to the recommendation list's renderer. */
    ghost var renders: seq<Controller.RenderRequest>

    ghost function Cfg(): Controller.Config
    {
      Controller.Config(storeViewCode, parse)
    }

    ghost function Snapshot(): Controller.State
      reads this
    {
      Controller.State(context, visibility, observing, storage, renders)
    }

    ghost predicate Valid()
      reads this
    {
      ParsesEmptyArray(parse) && Controller.Inv(Snapshot())
    }

    /** `decorate`: filters from the block's `typeid`, an empty context,
        visibility `!isMobile`, and on mobile an observer on the section. */
    constructor (isMobile: bool, typeid: Option<string>, storeViewCode: string, parse: Parser, storage: History.Storage)
      requires ParsesEmptyArray(parse)
      ensures Valid()
      ensures this.isMobile == isMobile && this.storeViewCode == storeViewCode && this.parse == parse
      ensures filters == BuildFilters(typeid)
      ensures Snapshot() == Controller.Init(isMobile, storage)
      ensures visibility == !isMobile && observing == isMobile && renders == []
    {
      this.isMobile := isMobile;
      this.storeViewCode := storeViewCode;
      this.parse := parse;
      var f := Filters(None);
      if Truthy(typeid) {
        f := f.(typeId := typeid);
      }
      filters := f;
      this.storage := storage;
      context := Controller.EmptyContext;
      visibility := !isMobile;
      observing := isMobile;
      renders := [];
    }

    /** Reads the history stored under `key`, removing the key when its value
        does not parse. */
    method ReadHistory(key: string) returns (history: Json)
      requires ParsesEmptyArray(parse)
      modifies this`storage
      ensures History.Load(old(storage), key, parse) == History.Loaded(history, storage)
      ensures key !in old(storage) || old(storage)[key] == "" ==>
        history == EmptyArray && storage == old(storage)
      ensures key in old(storage) && old(storage)[key] != "" && parse(old(storage)[key]).None? ==>
        history == EmptyArray && storage == old(storage) - {key}
      ensures key in old(storage) && old(storage)[key] != "" && parse(old(storage)[key]).Some? ==>
        history == parse(old(storage)[key]).value && storage == old(storage)
      ensures storage.Keys <= old(storage).Keys
      ensures forall k :: k in old(storage) && k != key ==> k in storage && storage[k] == old(storage)[k]
    {
      var raw := "[]";
      if key in storage && storage[key] != "" {
        raw := storage[key];
      }
      match parse(raw)
      case Some(v) =>
        history := v;
      case None =>
        storage := storage - {key};
        history := EmptyArray;
    }

    method GetProductViewHistory(code: string) returns (history: Json)
      requires ParsesEmptyArray(parse)
      modifies this`storage
      ensures History.Load(old(storage), History.ViewKey(code), parse) == History.Loaded(history, storage)
      ensures var other := History.PurchaseKey(code);
        (other in storage <==> other in old(storage)) && (other in storage ==> storage[other] == old(storage)[other])
    {
      History.KeysDistinct(code);
      history := ReadHistory(History.ViewKey(code));
    }

    method GetPurchaseHistory(code: string) returns (history: Json)
      requires ParsesEmptyArray(parse)
      modifies this`storage
      ensures History.Load(old(storage), History.PurchaseKey(code), parse) == History.Loaded(history, storage)
      ensures var other := History.ViewKey(code);
        (other in storage <==> other in old(storage)) && (other in storage ==> storage[other] == old(storage)[other])
    {
      History.KeysDistinct(code);
      history := ReadHistory(History.PurchaseKey(code));
    }
    /** `loadRecommendation`: returns at once while not visible; otherwise
        re-reads both histories into the context and requests one render
        into `container`. */
    method LoadRecommendation(container: Option<Controller.Container>)
      requires ParsesEmptyArray(parse)
      modifies this`context, this`storage, this`renders
      ensures Snapshot() == Controller.LoadRecommendation(Cfg(), old(Snapshot()), container)
      ensures !old(visibility) ==> unchanged(this)
      ensures old(visibility) ==>
        && renders == old(renders) + [Controller.RequestFor(Cfg(), old(Snapshot()), container)]
        && context == old(context).(
             userViewHistory := Some(renders[|old(renders)|].userViewHistory),
             userPurchaseHistory := Some(renders[|old(renders)|].userPurchaseHistory))
    {
      if !visibility {
        return;
      }
      ghost var before := Snapshot();
      var code := storeViewCode;
      var view := GetProductViewHistory(code);
      context := context.(userViewHistory := Some(view));
      var purchase := GetPurchaseHistory(code);
      context := context.(userPurchaseHistory := Some(purchase));
      renders := renders + [Controller.RenderRequest(context.pageType, context.currentSku, view, purchase, container)];
      Controller.LoadVisible(Cfg(), before, container);
    }

    /** The `productContext` listener: writes `currentSku`, then loads. */
    method HandleProductChanges(productContext: Option<ProductContext>)
      requires Valid()
      modifies this`context, this`storage, this`renders
      ensures Valid()
      ensures Snapshot() == Controller.HandleProductChanges(Cfg(), old(Snapshot()), productContext)
      ensures context.currentSku == ProductSku(productContext)
      ensures context.pageType == old(context.pageType) && context.category == old(context.category)
      ensures context.cartSkus == old(context.cartSkus)
      ensures !visibility ==> storage == old(storage) && renders == old(renders)
      ensures visibility ==> |renders| == |old(renders)| + 1 && renders[|old(renders)|].currentSku == context.currentSku
    {
      context := context.(currentSku := ProductSku(productContext));
      LoadRecommendation(Some(Controller.RecommendationsList));
    }

    /** The `categoryContext` listener: writes `category`, then loads. */
    method HandleCategoryChanges(categoryContext: Option<CategoryContext>)
      requires Valid()
      modifies this`context, this`storage, this`renders
      ensures Valid()
      ensures Snapshot() == Controller.HandleCategoryChanges(Cfg(), old(Snapshot()), categoryContext)
      ensures context.category == CategoryName(categoryContext)
      ensures context.pageType == old(context.pageType) && context.currentSku == old(context.currentSku)
      ensures context.cartSkus == old(context.cartSkus)
      ensures !visibility ==> storage == old(storage) && renders == old(renders)
      ensures visibility ==> |renders| == |old(renders)| + 1
    {
      context := context.(category := CategoryName(categoryContext));
      LoadRecommendation(Some(Controller.RecommendationsList));
    }

    /** The `pageContext` listener: writes `pageType`, then loads. */
    method HandlePageTypeChanges(pageContext: Option<PageContext>)
      requires Valid()
      modifies this`context, this`storage, this`renders
      ensures Valid()
      ensures Snapshot() == Controller.HandlePageTypeChanges(Cfg(), old(Snapshot()), pageContext)
      ensures context.pageType == PageType(pageContext)
      ensures context.category == old(context.category) && context.currentSku == old(context.currentSku)
      ensures context.cartSkus == old(context.cartSkus)
      ensures !visibility ==> storage == old(storage) && renders == old(renders)
      ensures visibility ==> |renders| == |old(renders)| + 1 && renders[|old(renders)|].pageType == context.pageType
    {
      context := context.(pageType := PageType(pageContext));
      LoadRecommendation(Some(Controller.RecommendationsList));
    }

    /** The `shoppingCartContext` listener: writes `cartSkus`, then loads;
        `Fail` is the exception the SKU mapping throws, before either. */
    method HandleCartChanges(shoppingCartContext: Option<ShoppingCartContext>) returns (outcome: Outcome<Thrown>)
      requires Valid()
      modifies this`context, this`storage, this`renders
      ensures Valid()
      ensures Snapshot() == Controller.HandleCartChanges(Cfg(), old(Snapshot()), shoppingCartContext)
      ensures outcome.Fail? <==> CartSkus(shoppingCartContext).Failure?
      ensures outcome.Fail? ==> unchanged(this)
      ensures outcome.Pass? ==> context.cartSkus == CartSkus(shoppingCartContext).value
      ensures context.pageType == old(context.pageType) && context.category == old(context.category)
      ensures context.currentSku == old(context.currentSku)
      ensures outcome.Pass? && visibility ==> |renders| == |old(renders)| + 1
    {
      var skus := CartSkus(shoppingCartContext);
      if skus.Failure? {
        return Fail(skus.error);
      }
      context := context.(cartSkus := skus.value);
      LoadRecommendation(Some(Controller.RecommendationsList));
      outcome := Pass;
    }

    /** The intersection observer's callback, delivered a batch of entries
        while the observer is connected. For each intersecting entry it sets
        visibility, loads without a container and disconnects. */
    method OnIntersection(entries: seq<Controller.Entry>)
      requires Valid()
      modifies this`context, this`storage, this`renders, this`visibility, this`observing
      ensures Valid()
      ensures Snapshot() == Controller.Intersection(Cfg(), old(Snapshot()), entries)
      ensures old(visibility) ==> visibility
    {
      if !observing {
        return;
      }
      var i := 0;
      while i < |entries|
        invariant 0 <= i <= |entries|
        invariant Snapshot() == Controller.OnEntries(Cfg(), old(Snapshot()), entries[..i])
      {
        assert entries[..i + 1][..i] == entries[..i];
        if entries[i].isIntersecting {
          visibility := true;
          LoadRecommendation(None);
          observing := false;
        }
        i := i + 1;
      }
      assert entries[..i] == entries;
      Controller.FirstIntersection(Cfg(), old(Snapshot()), entries);
    }
  }
}
