/** The block's controller as a state machine: the shared context record,
    the visibility gate, local storage and the log of render requests made
    to the recommendation list. Each operation of the block is a transition
    here; the class in ProductRecommendations performs the same transitions
    in place. */
module Controller {
  import opened Wrappers
  import opened JsonValues
  import History
  import opened Signals

  /** The block's shared `context` object; every field starts `undefined`. */
  datatype Context = Context(
    pageType: Option<string>,
    currentSku: Option<string>,
    category: Option<string>,
    cartSkus: Option<seq<string>>,
    userViewHistory: Option<Json>,
    userPurchaseHistory: Option<Json>)

  const EmptyContext: Context := Context(None, None, None, None, None, None)

  /** The one element a render can be mounted into, the block's
      `.recommendations__list`; `None` is a render given no container. */
  datatype Container = RecommendationsList

  /** The props the block hands to the recommendation list's renderer, and
      the container it mounts into. Filters, category and cart SKUs are not
      among them. Every request also carries the same Footer slot, the one
      FooterSlot.Footer describes; being the same each time, it is not a
      field here. */
  datatype RenderRequest = RenderRequest(
    pageType: Option<string>,
    currentSku: Option<string>,
    userViewHistory: Json,
    userPurchaseHistory: Json,
    container: Option<Container>)

  /** Fixed for the page: the store-view code read from configuration, and
      the JSON parser. */
  datatype Config = Config(storeViewCode: string, parse: Parser)

  /** `observing` is true while the intersection observer is connected. */
  datatype State = State(
    context: Context,
    visibility: bool,
    observing: bool,
    storage: History.Storage,
    renders: seq<RenderRequest>)

  /** The observer is connected exactly while the block is not yet visible. */
  predicate Inv(s: State)
  {
    s.observing <==> !s.visibility
  }

  /** The state right after `decorate`: visible unless on a mobile device,
      where an observer waits for the section to scroll into view. */
  function Init(isMobile: bool, storage: History.Storage): (s: State)
    ensures Inv(s)
    ensures s.visibility == !isMobile && s.observing == isMobile
    ensures s.context == EmptyContext && s.storage == storage && s.renders == []
  {
    State(EmptyContext, !isMobile, isMobile, storage, [])
  }

  /** `loadRecommendation`: nothing at all while not visible; otherwise
      re-read both histories into the context and request one render. */
  function LoadRecommendation(cfg: Config, s: State, container: Option<Container>): (r: State)
  {
    if !s.visibility then s
    else
      var view := History.Load(s.storage, History.ViewKey(cfg.storeViewCode), cfg.parse);
      var purchase := History.Load(view.storage, History.PurchaseKey(cfg.storeViewCode), cfg.parse);
      var ctx := s.context.(userViewHistory := Some(view.value), userPurchaseHistory := Some(purchase.value));
      var request := RenderRequest(ctx.pageType, ctx.currentSku, view.value, purchase.value, container);
      s.(context := ctx, storage := purchase.storage, renders := s.renders + [request])
  }

  function HandleProductChanges(cfg: Config, s: State, productContext: Option<ProductContext>): State
  {
    LoadRecommendation(cfg, s.(context := s.context.(currentSku := ProductSku(productContext))), Some(RecommendationsList))
  }

  function HandleCategoryChanges(cfg: Config, s: State, categoryContext: Option<CategoryContext>): State
  {
    LoadRecommendation(cfg, s.(context := s.context.(category := CategoryName(categoryContext))), Some(RecommendationsList))
  }

  function HandlePageTypeChanges(cfg: Config, s: State, pageContext: Option<PageContext>): State
  {
    LoadRecommendation(cfg, s.(context := s.context.(pageType := PageType(pageContext))), Some(RecommendationsList))
  }

  /** When deriving the SKUs throws, the handler stops before writing the
      field or asking for a load. */
  function HandleCartChanges(cfg: Config, s: State, cart: Option<ShoppingCartContext>): State
  {
    match CartSkus(cart)
    case Failure(_) => s
    case Success(skus) =>
      LoadRecommendation(cfg, s.(context := s.context.(cartSkus := skus)), Some(RecommendationsList))
  }

  /** An intersection-observer entry. */
  datatype Entry = Entry(isIntersecting: bool)

  /** One turn of the callback's `forEach`: an intersecting entry sets
      visibility, loads without a container and disconnects the observer. */
  function OnEntry(cfg: Config, s: State, e: Entry): State
  {
    if e.isIntersecting then LoadRecommendation(cfg, s.(visibility := true), None).(observing := false)
    else s
  }

  /** The `forEach` over one batch of entries, in order. Disconnecting does
      not stop the iteration over the batch already delivered. */
  function OnEntries(cfg: Config, s: State, entries: seq<Entry>): State
    decreases |entries|
  {
    if entries == [] then s
    else OnEntry(cfg, OnEntries(cfg, s, entries[..|entries| - 1]), entries[|entries| - 1])
  }

  /** A batch of entries reaches the callback only while the observer is
      connected. */
  function Intersection(cfg: Config, s: State, entries: seq<Entry>): State
  {
    if s.observing then OnEntries(cfg, s, entries) else s
  }

  /** What a page can deliver to the block: a data-layer change on one of the
      four paths, a batch of intersection entries, or a write to local
      storage by other code on the page (the code that records views and
      purchases, or another block). */
  datatype Event =
    | ProductChanged(productContext: Option<ProductContext>)
    | CategoryChanged(categoryContext: Option<CategoryContext>)
    | PageChanged(pageContext: Option<PageContext>)
    | CartChanged(shoppingCartContext: Option<ShoppingCartContext>)
    | Intersected(entries: seq<Entry>)
    | StorageWritten(key: string, value: string)

  function Step(cfg: Config, s: State, e: Event): State
  {
    match e
    case ProductChanged(p) => HandleProductChanges(cfg, s, p)
    case CategoryChanged(c) => HandleCategoryChanges(cfg, s, c)
    case PageChanged(p) => HandlePageTypeChanges(cfg, s, p)
    case CartChanged(c) => HandleCartChanges(cfg, s, c)
    case Intersected(es) => Intersection(cfg, s, es)
    case StorageWritten(k, v) => s.(storage := s.storage[k := v])
  }

  function Run(cfg: Config, s: State, events: seq<Event>): State
    decreases |events|
  {
    if events == [] then s else Run(cfg, Step(cfg, s, events[0]), events[1..])
  }

  /** The render request a visible load of `s` makes. */
  function RequestFor(cfg: Config, s: State, container: Option<Container>): RenderRequest
  {
    RenderRequest(
      s.context.pageType,
      s.context.currentSku,
      History.Load(s.storage, History.ViewKey(cfg.storeViewCode), cfg.parse).value,
      History.Load(s.storage, History.PurchaseKey(cfg.storeViewCode), cfg.parse).value,
      container)
  }

  /** True when `after` differs from `before` at most by having lost some of
      the two history keys of the store view. */
  predicate OnlyRepaired(cfg: Config, before: History.Storage, after: History.Storage)
  {
    && after.Keys <= before.Keys
    && (forall k :: k in after ==> after[k] == before[k])
    && before.Keys - after.Keys <= {History.ViewKey(cfg.storeViewCode), History.PurchaseKey(cfg.storeViewCode)}
  }

  // ---------------------------------------------------------------------
  // The gate

  /** While not visible a load changes nothing at all. */
  lemma LoadHiddenIsNoop(cfg: Config, s: State, container: Option<Container>)
    requires !s.visibility
    ensures LoadRecommendation(cfg, s, container) == s
  {
  }

  /** While visible a load overwrites both histories with fresh reads of
      storage and appends exactly one render request, carrying the current
      page type, current SKU, both histories and the given container;
      nothing else in the context, and neither visibility nor the observer,
      changes. */
  lemma LoadVisible(cfg: Config, s: State, container: Option<Container>)
    requires s.visibility
    ensures var r := LoadRecommendation(cfg, s, container);
      && r.renders == s.renders + [RequestFor(cfg, s, container)]
      && r.context == s.context.(
           userViewHistory := Some(RequestFor(cfg, s, container).userViewHistory),
           userPurchaseHistory := Some(RequestFor(cfg, s, container).userPurchaseHistory))
      && r.visibility == s.visibility && r.observing == s.observing
      && OnlyRepaired(cfg, s.storage, r.storage)
  {
    History.LoadsIndependent(s.storage, cfg.storeViewCode, cfg.parse);
  }

  /** Every load leaves storage the same but for repaired history keys. */
  lemma LoadOnlyRepairs(cfg: Config, s: State, container: Option<Container>)
    ensures OnlyRepaired(cfg, s.storage, LoadRecommendation(cfg, s, container).storage)
  {
    if s.visibility {
      LoadVisible(cfg, s, container);
    }
  }

  // ---------------------------------------------------------------------
  // The handlers

  /** A handler event: a change on one of the four data-layer paths. */
  predicate IsSignal(e: Event)
  {
    e.ProductChanged? || e.CategoryChanged? || e.PageChanged? || e.CartChanged?
  }

  /** The context after a handler has written its own field (or, for a cart
      payload that throws, the context unchanged). */
  function Written(s: State, e: Event): Context
    requires IsSignal(e)
  {
    match e
    case ProductChanged(p) => s.context.(currentSku := ProductSku(p))
    case CategoryChanged(c) => s.context.(category := CategoryName(c))
    case PageChanged(p) => s.context.(pageType := PageType(p))
    case CartChanged(c) =>
      match CartSkus(c)
      case Failure(_) => s.context
      case Success(skus) => s.context.(cartSkus := skus)
  }

  /** True when a handler runs to its load call, which is every handler
      except a cart handler whose SKU derivation throws. */
  predicate Loads(e: Event)
  {
    IsSignal(e) && !(e.CartChanged? && CartSkus(e.shoppingCartContext).Failure?)
  }

  /** Each handler writes only its own field and then makes exactly one
      load with the block's list as container: while not visible that is
      the whole effect; while visible the load appends one render request
      built from the updated context. */
  lemma HandlerEffect(cfg: Config, s: State, e: Event)
    requires IsSignal(e)
    ensures var r := Step(cfg, s, e);
      && (!Loads(e) ==> r == s)
      && (Loads(e) && !s.visibility ==> r == s.(context := Written(s, e)))
      && (Loads(e) && s.visibility ==>
           r.renders == s.renders + [RequestFor(cfg, s.(context := Written(s, e)), Some(RecommendationsList))]
           && r.context == Written(s, e).(
                userViewHistory := Some(r.renders[|s.renders|].userViewHistory),
                userPurchaseHistory := Some(r.renders[|s.renders|].userPurchaseHistory))
           && r.visibility && r.observing == s.observing)
  {
    if Loads(e) && s.visibility {
      var s' := s.(context := Written(s, e));
      assert Step(cfg, s, e) == LoadRecommendation(cfg, s', Some(RecommendationsList));
      LoadVisible(cfg, s', Some(RecommendationsList));
    }
  }

  /** The product-then-page-type scenario: two loads, two renders, and the
      second carries both the SKU and the page type. */
  lemma ProductThenPageType(cfg: Config, s: State, sku: string, pageType: string)
    requires s.visibility
    ensures var s1 := HandleProductChanges(cfg, s, Some(ProductContext(Some(sku))));
            var s2 := HandlePageTypeChanges(cfg, s1, Some(PageContext(Some(pageType))));
      && |s2.renders| == |s.renders| + 2
      && s2.renders[|s.renders|].currentSku == Some(sku)
      && s2.renders[|s.renders| + 1].currentSku == Some(sku)
      && s2.renders[|s.renders| + 1].pageType == Some(pageType)
  {
    var s1 := HandleProductChanges(cfg, s, Some(ProductContext(Some(sku))));
    HandlerEffect(cfg, s, ProductChanged(Some(ProductContext(Some(sku)))));
    HandlerEffect(cfg, s1, PageChanged(Some(PageContext(Some(pageType)))));
  }

  // ---------------------------------------------------------------------
  // The observer

  function CountIntersecting(entries: seq<Entry>): nat
    decreases |entries|
  {
    if entries == [] then 0
    else CountIntersecting(entries[..|entries| - 1]) + (if entries[|entries| - 1].isIntersecting then 1 else 0)
  }

  /** Over one batch: visibility afterwards is visibility before or the
      presence of an intersecting entry; the observer stays connected only
      if no entry intersected; one render without a container is appended
      per intersecting entry; and storage changes only by repair. */
  lemma {:induction false} OnEntriesEffect(cfg: Config, s: State, entries: seq<Entry>)
    ensures var r := OnEntries(cfg, s, entries);
      && r.visibility == (s.visibility || CountIntersecting(entries) > 0)
      && r.observing == (s.observing && CountIntersecting(entries) == 0)
      && |r.renders| == |s.renders| + CountIntersecting(entries)
      && r.renders[..|s.renders|] == s.renders
      && (forall i :: |s.renders| <= i < |r.renders| ==> r.renders[i].container.None?)
      && OnlyRepaired(cfg, s.storage, r.storage)
    decreases |entries|
  {
    if entries != [] {
      var init := entries[..|entries| - 1];
      var e := entries[|entries| - 1];
      var m := OnEntries(cfg, s, init);
      OnEntriesEffect(cfg, s, init);
      if e.isIntersecting {
        LoadVisible(cfg, m.(visibility := true), None);
      }
    }
  }

  /** On a desktop device the block is visible from the start and no
      intersection does anything. */
  lemma DesktopIgnoresIntersections(cfg: Config, storage: History.Storage, entries: seq<Entry>)
    ensures Init(false, storage).visibility
    ensures Intersection(cfg, Init(false, storage), entries) == Init(false, storage)
  {
  }

  /** Once visible, a further batch of entries has no effect: the observer
      was disconnected by the flip. */
  lemma SecondIntersectionIsNoop(cfg: Config, s: State, entries: seq<Entry>)
    requires Inv(s) && s.visibility
    ensures Intersection(cfg, s, entries) == s
  {
  }

  /** While not yet visible, a batch makes the block visible exactly when
      one of its entries intersects, requesting one render per intersecting
      entry (each without a container), and disconnects the observer then. */
  lemma FirstIntersection(cfg: Config, s: State, entries: seq<Entry>)
    requires Inv(s) && !s.visibility
    ensures var r := Intersection(cfg, s, entries);
      && Inv(r)
      && r.visibility == (CountIntersecting(entries) > 0)
      && |r.renders| == |s.renders| + CountIntersecting(entries)
      && (forall i :: |s.renders| <= i < |r.renders| ==> r.renders[i].container.None?)
  {
    OnEntriesEffect(cfg, s, entries);
  }

  // ---------------------------------------------------------------------
  // Whole runs

  lemma StepPreservesInv(cfg: Config, s: State, e: Event)
    requires Inv(s)
    ensures Inv(Step(cfg, s, e))
    ensures s.visibility ==> Step(cfg, s, e).visibility
    ensures s.renders <= Step(cfg, s, e).renders
    ensures !e.StorageWritten? ==> OnlyRepaired(cfg, s.storage, Step(cfg, s, e).storage)
  {
    if e.StorageWritten? {
    } else if e.Intersected? {
      if s.observing {
        OnEntriesEffect(cfg, s, e.entries);
        var r := OnEntries(cfg, s, e.entries);
        assert r.renders[..|s.renders|] == s.renders;
      }
    } else {
      HandlerEffect(cfg, s, e);
      if Loads(e) {
        LoadOnlyRepairs(cfg, s.(context := Written(s, e)), Some(RecommendationsList));
      }
    }
  }

  /** Over any sequence of events: the invariant holds, visibility never
      returns to false, and render requests are only ever appended. When no
      other code writes to local storage in between, the block's own work
      changes storage only by removing corrupt history keys. */
  lemma {:induction false} RunPreservesInv(cfg: Config, s: State, events: seq<Event>)
    requires Inv(s)
    ensures Inv(Run(cfg, s, events))
    ensures s.visibility ==> Run(cfg, s, events).visibility
    ensures s.renders <= Run(cfg, s, events).renders
    ensures (forall i :: 0 <= i < |events| ==> !events[i].StorageWritten?) ==>
      OnlyRepaired(cfg, s.storage, Run(cfg, s, events).storage)
    decreases |events|
  {
    if events != [] {
      var s1 := Step(cfg, s, events[0]);
      StepPreservesInv(cfg, s, events[0]);
      RunPreservesInv(cfg, s1, events[1..]);
      if forall i :: 0 <= i < |events| ==> !events[i].StorageWritten? {
        assert forall i :: 0 <= i < |events[1..]| ==> !events[1..][i].StorageWritten? by {
          forall i | 0 <= i < |events[1..]| ensures !events[1..][i].StorageWritten? {
            assert events[1..][i] == events[i + 1];
          }
        }
      }
    }
  }

  /** While not visible, any number of data-layer signals request no render,
      leave storage alone and keep the block invisible. */
  lemma {:induction false} HiddenSignalsRenderNothing(cfg: Config, s: State, events: seq<Event>)
    requires !s.visibility
    requires forall i :: 0 <= i < |events| ==> IsSignal(events[i])
    ensures Run(cfg, s, events).renders == s.renders
    ensures Run(cfg, s, events).storage == s.storage
    ensures !Run(cfg, s, events).visibility
    ensures Run(cfg, s, events).observing == s.observing
    decreases |events|
  {
    if events != [] {
      HandlerEffect(cfg, s, events[0]);
      HiddenSignalsRenderNothing(cfg, Step(cfg, s, events[0]), events[1..]);
    }
  }

  /** While visible, every signal that reaches its load call requests exactly
      one render. */
  lemma {:induction false} VisibleSignalsRenderEach(cfg: Config, s: State, events: seq<Event>)
    requires s.visibility
    requires forall i :: 0 <= i < |events| ==> Loads(events[i])
    ensures |Run(cfg, s, events).renders| == |s.renders| + |events|
    ensures Run(cfg, s, events).visibility
    decreases |events|
  {
    if events != [] {
      HandlerEffect(cfg, s, events[0]);
      VisibleSignalsRenderEach(cfg, Step(cfg, s, events[0]), events[1..]);
    }
  }

  /** The mobile scenario: signals before the section scrolls into view
      request nothing; the first intersecting entry then requests exactly
      one render, from the context the signals accumulated. */
  lemma MobileScenario(cfg: Config, storage: History.Storage, events: seq<Event>)
    requires forall i :: 0 <= i < |events| ==> IsSignal(events[i])
    ensures var hidden := Run(cfg, Init(true, storage), events);
            var shown := Intersection(cfg, hidden, [Entry(true)]);
      && hidden.renders == []
      && shown.visibility && !shown.observing
      && shown.renders == [RequestFor(cfg, hidden, None)]
  {
    var s := Init(true, storage);
    HiddenSignalsRenderNothing(cfg, s, events);
    var hidden := Run(cfg, s, events);
    var es := [Entry(true)];
    assert es[..0] == [];
    assert OnEntries(cfg, hidden, es) == OnEntry(cfg, hidden, Entry(true));
    LoadVisible(cfg, hidden.(visibility := true), None);
  }

  /** Histories are read fresh on every visible load, never cached: when other
      code writes a non-empty value that parses under one of the history
      keys, the next signal that loads renders exactly that parsed value. */
  lemma WriteThenSignalRendersWrite(cfg: Config, s: State, e: Event, value: string, v: Json)
    requires s.visibility && Loads(e)
    requires value != "" && cfg.parse(value) == Some(v)
    ensures var r := Run(cfg, s, [StorageWritten(History.ViewKey(cfg.storeViewCode), value), e]);
      |r.renders| == |s.renders| + 1 && r.renders[|s.renders|].userViewHistory == v
    ensures var r := Run(cfg, s, [StorageWritten(History.PurchaseKey(cfg.storeViewCode), value), e]);
      |r.renders| == |s.renders| + 1 && r.renders[|s.renders|].userPurchaseHistory == v
  {
    var view, purchase := History.ViewKey(cfg.storeViewCode), History.PurchaseKey(cfg.storeViewCode);
    var sv := s.(storage := s.storage[view := value]);
    var sp := s.(storage := s.storage[purchase := value]);
    assert [StorageWritten(view, value), e][1..] == [e];
    assert [StorageWritten(purchase, value), e][1..] == [e];
    assert [e][1..] == [];
    assert Step(cfg, s, StorageWritten(view, value)) == sv;
    assert Step(cfg, s, StorageWritten(purchase, value)) == sp;
    assert Run(cfg, sv, [e]) == Run(cfg, Step(cfg, sv, e), []);
    assert Run(cfg, sp, [e]) == Run(cfg, Step(cfg, sp, e), []);
    assert Run(cfg, s, [StorageWritten(view, value), e]) == Step(cfg, sv, e);
    assert Run(cfg, s, [StorageWritten(purchase, value), e]) == Step(cfg, sp, e);
    HandlerEffect(cfg, sv, e);
    HandlerEffect(cfg, sp, e);
    History.LoadParsed(sv.storage, view, cfg.parse, v);
    History.LoadParsed(sp.storage, purchase, cfg.parse, v);
  }
}
