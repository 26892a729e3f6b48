/** `scrapy_poet.api`: `DummyResponse` and the `callback_for` helper. */
module Api {
  import opened Wrappers
  import opened Scrapy
  import opened Injection
  import DownloaderMiddlewares

  /** `DummyResponse(url, request)`. */
  function NewDummyResponse(url: Url, request: Option<Request>): (r: Response)
    ensures r.DummyResponse? && r.url == url && r.request == request
  {
    DummyResponse(url, request)
  }

  const DummyResponseCls: Tag := "scrapy_poet.api.DummyResponse"

  /** The dummy response that stands in for a skipped download is the one
      `process_request` returns; it has no body, so reading its data raises. */
  lemma DummyResponseHasNoBody(request: Request, stats: Stats)
    ensures var dummy := NewDummyResponse(request.url, Some(request));
      && DownloaderMiddlewares.ProcessRequest(request, Ok(false), stats).0 == Ok(Some(dummy))
      && ResponseDataOf(dummy) == Err(AttributeError(NotTextMsg))
      && dummy.request == Some(request)
  {
  }

  /** The three callbacks `callback_for` can build. */
  datatype Generated = SyncPage(cls: Tag) | AsyncPage(cls: Tag) | PassItem(cls: Tag)

  /** `callback_for(cls)`: which callback is built for the class, given
      whether it is an `ItemPage` and whether its `to_item` is a coroutine. */
  function CallbackFor(cls: Tag, isItemPage: bool, toItemIsCoroutine: bool): (g: Generated)
    ensures isItemPage && !toItemIsCoroutine ==> g == SyncPage(cls)
    ensures isItemPage && toItemIsCoroutine ==> g == AsyncPage(cls)
    ensures !isItemPage ==> g == PassItem(cls)
  {
    if isItemPage then
      if toItemIsCoroutine then AsyncPage(cls) else SyncPage(cls)
    else PassItem(cls)
  }

  /** The signature of a generated callback, `(*args, page: cls, **kwargs)`
      or `(*args, item: cls, **kwargs)`, with the `callback_for` marker set. */
  function Signature(g: Generated): (cb: Callback)
    ensures cb.marked
    ensures |cb.params| == 3 && cb.params[0].variadic && cb.params[2].variadic && !cb.params[1].variadic
    ensures cb.params[1].name == (if g.PassItem? then "item" else "page")
    ensures cb.params[1].annotation == Some(ClassHint(g.cls))
  {
    var arg := if g.PassItem? then "item" else "page";
    Callback(
      if g.AsyncPage? then "async_parse" else "parse",
      true,
      [Param("args", true, None), Param(arg, false, Some(ClassHint(g.cls))), Param("kwargs", true, None)],
      Ok(map[arg := ClassHint(g.cls)]))
  }

  /** What a generated callback yields for its injected argument; `toItem`
      is the page's (awaited) `to_item()`. */
  function Yields(g: Generated, arg: Value, toItem: Value -> Value): (out: seq<Value>)
    ensures |out| == 1
    ensures g.PassItem? ==> out[0] == arg
    ensures !g.PassItem? ==> out[0] == toItem(arg)
  {
    if g.PassItem? then [arg] else [toItem(arg)]
  }

  /** The hand-written callback the `callback_for` docstring shows, as a
      bound method: `parse_book(self, response: DummyResponse, page: cls)`. */
  function HandWrittenPageCallback(cls: Tag): Callback {
    Callback("parse_book", false,
      [Param("response", false, Some(ClassHint(DummyResponseCls))), Param("page", false, Some(ClassHint(cls)))],
      Ok(map["response" := ClassHint(DummyResponseCls), "page" := ClassHint(cls)]))
  }

  /** The callback built for a page class takes the same injected `page`
      argument as the hand-written one and yields the same single item.
      It never needs the response; the hand-written one does exactly when
      it is the default `parse` of a request without a callback, before
      Scrapy 2.8. */
  lemma CallbackForMatchesHandWritten(
    cls: Tag, toItemIsCoroutine: bool, raw: RawCallback, scrapyAtLeast28: bool, isDummySubclass: Tag -> bool,
    page: Value, toItem: Value -> Value)
    requires isDummySubclass(DummyResponseCls)
    ensures var g := CallbackFor(cls, true, toItemIsCoroutine);
      var generated := Signature(g);
      var hand := HandWrittenPageCallback(cls);
      && generated.params[1] == hand.params[1]
      && Yields(g, page, toItem) == [toItem(page)]
      && IsCallbackRequiringScrapyResponse(generated, raw, scrapyAtLeast28, isDummySubclass) == Ok(false)
      && (IsCallbackRequiringScrapyResponse(hand, raw, scrapyAtLeast28, isDummySubclass) == Ok(true) <==>
          raw == NoneCallback && !scrapyAtLeast28)
  {
  }

  /** Because of the marker, the injector never downloads a response only
      for a `callback_for` callback. */
  lemma CallbackForNeedsNoResponse(
    cls: Tag, isItemPage: bool, toItemIsCoroutine: bool, raw: RawCallback, scrapyAtLeast28: bool, isDummySubclass: Tag -> bool)
    ensures IsCallbackRequiringScrapyResponse(
      Signature(CallbackFor(cls, isItemPage, toItemIsCoroutine)), raw, scrapyAtLeast28, isDummySubclass) == Ok(false)
  {
  }
}
