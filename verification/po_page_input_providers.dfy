/** `scrapy_po/page_input_providers.py`: the scrapy_po provider registry
    and its two providers, both constructed with the downloaded response. */
module PoPageInputProviders {
  import opened Wrappers
  import opened Scrapy
  import opened ProviderMaps
  import PageInputProviders

  const ResponseDataCls: Tag := "scrapy_po.page_inputs.ResponseData"
  const NoneProviderCls: Tag := "scrapy_po.page_input_providers.NoneProvider"
  const ResponseDataProviderCls: Tag := "scrapy_po.page_input_providers.ResponseDataProvider"

  /** `PageObjectInputProvider.__init__(self, response: Response)`. */
  const ResponseInit: seq<seq<Tag>> := [[ResponseCls]]

  const NoneProvider: ProviderClass := ProviderClass(NoneProviderCls, None, ResponseInit)
  const ResponseDataProvider: ProviderClass := ProviderClass(ResponseDataProviderCls, None, ResponseInit)

  /** The registry once the module is imported: the two `@provides`
      decorators, in source order. `NoneProvider` sits under `None`
      itself, not under `NoneType`. */
  function ModuleProviders(): (m: ProviderMap)
    ensures m.Keys == {TypeKey(NoneObject), TypeKey(ResponseDataCls)}
    ensures m[TypeKey(NoneObject)] == NoneProvider
    ensures m[TypeKey(ResponseDataCls)] == ResponseDataProvider
    ensures TypeKey(NoneType) !in m
  {
    var afterNone := Provides(map[], TypeKey(NoneObject), NoneProvider).0;
    Provides(afterNone, TypeKey(ResponseDataCls), ResponseDataProvider).0
  }

  /** `NoneProvider()()`: `None`, whose type is `NoneType`. */
  function NoneProviderCall(response: Response): (v: Value)
    ensures v == NoneValue && TypeOf(v) == NoneType
  {
    NoneValue
  }

  /** What `NoneProvider` returns is filed under `NoneType`, a class the
      module registers no provider for; its provider sits under `None`. */
  lemma NoneProviderOutputUnregistered(response: Response)
    ensures TypeKey(TypeOf(NoneProviderCall(response))) !in ModuleProviders()
    ensures TypeKey(NoneObject) in ModuleProviders()
  {
  }

  /** `ResponseDataProvider(response)()`. */
  function ResponseDataProviderCall(response: Response): (r: Result<ResponseData, Exc>)
    ensures r.Ok? <==> response.HttpResponse?
    ensures r.Ok? ==> r.value == ResponseData(response.url, response.text)
  {
    ResponseDataOf(response)
  }

  /** This generation's `ResponseDataProvider` builds the same URL and HTML
      as the current one, and fails on the same responses. */
  lemma SameResponseDataAsCurrentGeneration(toProvide: set<Key>, response: Response)
    ensures var now := PageInputProviders.ResponseDataProviderCall(toProvide, response);
      && (ResponseDataProviderCall(response).Ok? <==> now.Ok?)
      && (now.Ok? ==> now.value[TypeKey(PageInputProviders.ResponseDataCls)] == ResponseDataProviderCall(response).value)
  {
  }
}
