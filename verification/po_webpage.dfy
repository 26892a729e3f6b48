/** `scrapy_po/webpage.py`: the `Injectable` marker base, the page classes,
    the response shortcuts with their cached selector, and `callback_for`. */
module PoWebpage {
  import opened Wrappers
  import opened Scrapy
  import Injection
  import LegacyUtils
  import PoPageInputProviders
  import Api

  const AbcCls: Tag := "abc.ABC"
  const InjectableCls: Tag := "scrapy_po.webpage.Injectable"
  const ItemPageCls: Tag := "scrapy_po.webpage.ItemPage"
  const MixinCls: Tag := "scrapy_po.webpage.ResponseShortcutsMixin"
  const WebPageCls: Tag := "scrapy_po.webpage.WebPage"
  const ItemWebPageCls: Tag := "scrapy_po.webpage.ItemWebPage"

  /** The direct bases of the module's classes, in declaration order. */
  function Bases(cls: Tag): seq<Tag> {
    if cls == InjectableCls then [AbcCls]
    else if cls == ItemPageCls then [InjectableCls]
    else if cls == WebPageCls then [InjectableCls, MixinCls]
    else if cls == ItemWebPageCls then [WebPageCls, ItemPageCls]
    else []
  }

  /** Depth in the hierarchy, so that bases come strictly lower. */
  function Depth(cls: Tag): nat {
    if cls == ItemWebPageCls then 3
    else if cls == ItemPageCls || cls == WebPageCls then 2
    else if cls == InjectableCls then 1
    else 0
  }

  /** The class and everything it inherits from (every class here has at
      most two bases). */
  function Ancestors(cls: Tag): (r: set<Tag>)
    ensures cls in r
    decreases Depth(cls)
  {
    var bases := Bases(cls);
    {cls}
    + (if |bases| > 0 then Ancestors(bases[0]) else {})
    + (if |bases| > 1 then Ancestors(bases[1]) else {})
  }

  /** `Injectable.register(type(None))`: the virtual subclasses of
      `Injectable`. */
  const InjectableRegistered: set<Tag> := {NoneType}

  /** `issubclass(cls, base)`: real inheritance, or registration with the
      `Injectable` ABC, which makes a class a subclass of `Injectable` and
      of what `Injectable` inherits from. */
  predicate IsSubclass(cls: Tag, base: Tag) {
    base in Ancestors(cls) || (cls in InjectableRegistered && base in Ancestors(InjectableCls))
  }

  /** `NoneType` counts as injectable, so `Optional[...]` arguments can be
      built; it is not a page. */
  lemma NoneTypeIsInjectable()
    ensures IsSubclass(NoneType, InjectableCls)
    ensures !IsSubclass(NoneType, ItemPageCls) && !IsSubclass(NoneType, WebPageCls)
  {
    assert Ancestors(NoneType) == {NoneType};
  }

  /** `ItemWebPage` is a `WebPage`, an `ItemPage`, injectable and has the
      shortcuts; a plain `WebPage` is no `ItemPage`. */
  lemma ItemWebPageIsBoth()
    ensures IsSubclass(ItemWebPageCls, WebPageCls) && IsSubclass(ItemWebPageCls, ItemPageCls)
    ensures IsSubclass(ItemWebPageCls, InjectableCls) && IsSubclass(ItemWebPageCls, MixinCls)
    ensures !IsSubclass(WebPageCls, ItemPageCls)
  {
    assert Bases(ItemWebPageCls)[0] == WebPageCls;
    assert Bases(WebPageCls)[1] == MixinCls;
    assert Ancestors(AbcCls) == {AbcCls};
    assert Ancestors(MixinCls) == {MixinCls};
    assert Ancestors(InjectableCls) == {InjectableCls, AbcCls};
    assert Ancestors(WebPageCls) == {WebPageCls, InjectableCls, AbcCls, MixinCls};
  }

  /** A `parsel.Selector` over some text. */
  datatype Selector = Selector(text: string)

  /** A page with the shortcuts mixin: its `response` (a `ResponseData`)
      and the `_cached_selector` slot. */
  datatype ShortcutsPage = ShortcutsPage(response: ResponseData, cachedSelector: Option<Selector>)

  /** A fresh page: the class-level `_cached_selector = None`. */
  function NewPage(response: ResponseData): (p: ShortcutsPage)
    ensures p.response == response && p.cachedSelector.None?
  {
    ShortcutsPage(response, None)
  }

  function Url(page: ShortcutsPage): (u: string)
    ensures u == page.response.url
  {
    page.response.url
  }

  function Html(page: ShortcutsPage): (h: string)
    ensures h == page.response.html
  {
    page.response.html
  }

  /** A page built on the `ResponseData` this generation's provider makes
      from a downloaded response has that response's url and text as its
      shortcuts, and its selector is built from that text. */
  lemma ShortcutsOfProvidedData(response: Response)
    requires response.HttpResponse?
    ensures var data := PoPageInputProviders.ResponseDataProviderCall(response);
      && data.Ok?
      && var page := NewPage(data.value);
      && Url(page) == response.url && Html(page) == response.text
      && CacheValid(page) && SelectorOf(page).0 == Selector(response.text)
  {
  }

  /** The cache holds nothing, or the selector over the page's HTML. */
  predicate CacheValid(page: ShortcutsPage) {
    page.cachedSelector.None? || page.cachedSelector == Some(Selector(Html(page)))
  }

  /** The `selector` property: built from `html` on first access and
      stored; the page after the access is returned with it. */
  function SelectorOf(page: ShortcutsPage): (r: (Selector, ShortcutsPage))
    ensures r.1.response == page.response
    ensures r.1.cachedSelector == Some(r.0)
    ensures page.cachedSelector.Some? ==> r == (page.cachedSelector.value, page)
    ensures CacheValid(page) ==> r.0 == Selector(page.response.html) && CacheValid(r.1)
  {
    match page.cachedSelector
    case Some(s) => (s, page)
    case None =>
      var s := Selector(Html(page));
      (s, page.(cachedSelector := Some(s)))
  }

  /** Every access after the first returns the same selector and leaves
      the page as it is. */
  lemma SelectorReused(page: ShortcutsPage)
    ensures var (s, after) := SelectorOf(page);
      SelectorOf(after) == (s, after)
  {
  }

  /** `xpath(query)` / `css(query)`: the selector's answer; `ask` is the
      parsel query method. */
  function Query<T>(page: ShortcutsPage, query: string, ask: (Selector, string) -> T): (r: (T, ShortcutsPage))
    ensures CacheValid(page) ==> r.0 == ask(Selector(page.response.html), query)
    ensures r.1 == SelectorOf(page).1
  {
    var (s, after) := SelectorOf(page);
    (ask(s, query), after)
  }

  /** `callback_for(page_cls)`: an unmarked `parse(*args, page: page_cls)`. */
  function CallbackFor(pageCls: Tag): (cb: Callback)
    ensures !cb.marked && |cb.params| == 2
    ensures cb.params[0].variadic
    ensures cb.params[1] == Param("page", false, Some(ClassHint(pageCls)))
  {
    Callback("parse", false, [Param("args", true, None), Param("page", false, Some(ClassHint(pageCls)))],
      Ok(map["page" := ClassHint(pageCls)]))
  }

  /** Unmarked and with `*args` first, the generated callback looks to every
      later injector like a callback that reads the response. */
  lemma CallbackForUsesResponse(pageCls: Tag, isDummySubclass: Tag -> bool, raw: Injection.RawCallback, scrapyAtLeast28: bool)
    ensures LegacyUtils.IsCallbackUsingResponse(CallbackFor(pageCls), isDummySubclass) == Ok(true)
    ensures Injection.IsCallbackRequiringScrapyResponse(CallbackFor(pageCls), raw, scrapyAtLeast28, isDummySubclass) == Ok(true)
  {
  }

  /** What `parse` yields: exactly `page.to_item()`. */
  function Yields(page: Value, toItem: Value -> Value): (out: seq<Value>)
    ensures |out| == 1 && out[0] == toItem(page)
  {
    [toItem(page)]
  }

  /** This generation's `callback_for` takes the same injected `page`
      argument as the current one's and yields the same item; only the
      current one is marked as not needing the response. */
  lemma CallbackForLikeCurrentGeneration(pageCls: Tag, toItemIsCoroutine: bool, page: Value, toItem: Value -> Value)
    ensures var now := Api.CallbackFor(pageCls, true, toItemIsCoroutine);
      && CallbackFor(pageCls).params[1] == Api.Signature(now).params[1]
      && Yields(page, toItem) == Api.Yields(now, page, toItem)
      && !CallbackFor(pageCls).marked && Api.Signature(now).marked
  {
  }
}
