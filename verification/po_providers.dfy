/** `scrapy_po/providers.py`: the registry of providers for core_po page
    objects and the `HTMLResponseProvider`. */
module PoProviders {
  import opened Wrappers
  import opened Scrapy
  import opened ProviderMaps

  const HtmlResponseCls: Tag := "core_po.responses.HTMLResponse"
  const HtmlResponseProviderCls: Tag := "scrapy_po.providers.HTMLResponseProvider"

  /** `HTMLResponseProvider.__init__(self, response: Response)`. */
  const HtmlResponseProvider: ProviderClass := ProviderClass(HtmlResponseProviderCls, None, [[ResponseCls]])

  /** core_po's `HTMLResponse(url, content)`. */
  datatype HtmlResponse = HtmlResponse(url: string, content: string)

  /** The registry once the module is imported: the one `@provides`
      decorator. */
  function ModuleProviders(): (m: ProviderMap)
    ensures m.Keys == {TypeKey(HtmlResponseCls)}
    ensures m[TypeKey(HtmlResponseCls)] == HtmlResponseProvider
  {
    Provides(map[], TypeKey(HtmlResponseCls), HtmlResponseProvider).0
  }

  /** `HTMLResponseProvider(response)()`: the URL and decoded body of the
      response given at construction. */
  function HtmlResponseProviderCall(response: Response): (r: Result<HtmlResponse, Exc>)
    ensures r.Ok? <==> response.HttpResponse?
    ensures r.Ok? ==> r.value == HtmlResponse(response.url, response.text)
    ensures r.Err? ==> r.error == AttributeError(NotTextMsg)
  {
    var content :- ResponseText(response);
    Ok(HtmlResponse(response.url, content))
  }

  /** The `HTMLResponse` carries what a `ResponseData` for the same
      response carries. */
  lemma HtmlResponseMatchesResponseData(response: Response)
    ensures HtmlResponseProviderCall(response).Ok? <==> ResponseDataOf(response).Ok?
    ensures HtmlResponseProviderCall(response).Ok? ==>
      && HtmlResponseProviderCall(response).value.url == ResponseDataOf(response).value.url
      && HtmlResponseProviderCall(response).value.content == ResponseDataOf(response).value.html
  {
  }
}
