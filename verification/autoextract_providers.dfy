/** The AutoExtract providers of `scrapy_poet/autoextract.py` and
    `scrapy_poet/autoextract/providers.py`: both count every call in the
    stats under `autoextract/<page_type>/...` and wrap the first result of
    the API call in the page input class. */
module AutoextractProviders {
  import opened Wrappers
  import opened Json
  import opened Scrapy
  import opened AutoextractQuery
  import Injection
  import ProviderMaps

  /** A concrete provider class: its name, `page_type`, and the class it
      wraps the data in (`provided_class` or `page_input_class`). */
  datatype AeProvider = AeProvider(cls: Tag, pageType: string, inputClass: Tag)

  const ProductProvider: AeProvider := AeProvider(
    "scrapy_poet.autoextract.ProductResponseDataProvider", "product", "autoextract_poet.page_inputs.ProductResponseData")
  const ArticleProvider: AeProvider := AeProvider(
    "scrapy_poet.autoextract.ArticleResponseDataProvider", "article", "autoextract_poet.page_inputs.ArticleResponseData")
  const AeProductProvider: AeProvider := AeProvider(
    "scrapy_poet.autoextract.providers.AutoExtractProductResponseDataProvider", "product",
    "scrapy_poet.autoextract.inputs.ProductResponseData")
  const AeProductListProvider: AeProvider := AeProvider(
    "scrapy_poet.autoextract.providers.AutoExtractProductListResponseDataProvider", "productList",
    "scrapy_poet.autoextract.inputs.ProductListResponseData")

  /** A `scrapy_poet/autoextract.py` provider as the global registries store
      it: `provided_class` set, `__init__(request, stats)`. */
  function AsProviderClass(p: AeProvider): (c: ProviderMaps.ProviderClass)
    ensures c.name == p.cls && c.providedClass == Some(p.inputClass)
    ensures c.initArgs == [[RequestCls], [StatsCollectorCls]]
  {
    ProviderMaps.ProviderClass(p.cls, Some(p.inputClass), [[RequestCls], [StatsCollectorCls]])
  }

  /** The provider classes as declared. */
  lemma ConcreteProviders()
    ensures ProductProvider.pageType == "product" && ArticleProvider.pageType == "article"
    ensures AeProductProvider.pageType == "product" && AeProductListProvider.pageType == "productList"
    ensures AeProductProvider.inputClass != AeProductListProvider.inputClass
    ensures forall o1, o2 | o1 in Outcomes && o2 in Outcomes ::
      CounterName(AeProductProvider.pageType, o1) != CounterName(AeProductListProvider.pageType, o2)
  {
    forall o1, o2 | o1 in Outcomes && o2 in Outcomes
      ensures CounterName(AeProductProvider.pageType, o1) != CounterName(AeProductListProvider.pageType, o2)
    {
      CounterNamesDistinct(AeProductProvider.pageType, o1, AeProductListProvider.pageType, o2);
    }
  }

  /** The `query` property: the injected request's URL and the class's
      `page_type`, with full HTML. */
  function ProviderQuery(p: AeProvider, request: Request): (q: Query)
    ensures q.url == request.url && q.pageType == p.pageType && q.fullHtml
  {
    NewQuery(request.url, p.pageType)
  }

  /** `request_raw` is handed the `Query` object itself; its
      `autoextract_query` serialisation, which goes over the wire, is the
      one-dict list for that query. */
  lemma ProviderQuerySerialises(p: AeProvider, request: Request)
    ensures var js := ApiQuery(ProviderQuery(p, request));
      && |js| == 1
      && js[0] == JObj(map["url" := JStr(request.url), "pageType" := JStr(p.pageType), "fullHtml" := JBool(true)])
  {
    var js := ApiQuery(ProviderQuery(p, request));
    var want := map["url" := JStr(request.url), "pageType" := JStr(p.pageType), "fullHtml" := JBool(true)];
    assert js[0].fields.Keys == want.Keys;
    assert js[0].fields == want;
  }

  const Total: string := "total"
  const Error: string := "error"
  const Success: string := "success"
  const Outcomes: set<string> := {Total, Error, Success}

  /** `f"autoextract/{page_type}/{outcome}"`. */
  function CounterName(pageType: string, outcome: string): string {
    "autoextract/" + pageType + "/" + outcome
  }

  /** The last character of a counter name gives the outcome away. */
  lemma OutcomeSuffix(h1: string, o1: string, h2: string, o2: string)
    requires o1 in Outcomes && o2 in Outcomes && h1 + o1 == h2 + o2
    ensures o1 == o2
  {
    var n := h1 + o1;
    assert n[|n| - 1] == o1[|o1| - 1];
    assert n[|n| - 1] == o2[|o2| - 1] by {
      assert n == h2 + o2;
    }
    assert Total[4] == 'l' && Error[4] == 'r' && Success[6] == 's';
  }


  /** Counter names tell page types and outcomes apart: no two counters
      share a stats key. */
  lemma CounterNamesDistinct(pt1: string, o1: string, pt2: string, o2: string)
    requires o1 in Outcomes && o2 in Outcomes
    ensures CounterName(pt1, o1) == CounterName(pt2, o2) <==> pt1 == pt2 && o1 == o2
  {
    if CounterName(pt1, o1) == CounterName(pt2, o2) {
      var h1 := "autoextract/" + pt1 + "/";
      var h2 := "autoextract/" + pt2 + "/";
      assert h1 + o1 == h2 + o2;
      OutcomeSuffix(h1, o1, h2, o2);
      SuffixCancel(h1, h2, o1);
      SuffixCancel("autoextract/" + pt1, "autoextract/" + pt2, "/");
      PrefixCancel("autoextract/", pt1, pt2);
    }
  }

  /** `__call__`: count the call, ask the API (`requestRaw`) for the query
      and wrap the first result; on failure count the error and re-raise.
      An empty result list fails at `[0]`. */
  function Provide(p: AeProvider, request: Request, stats: Stats, requestRaw: Query -> Injection.Call<seq<Json>>)
    : (r: (Result<Value, Exc>, Stats))
    ensures var answer := requestRaw(ProviderQuery(p, request));
      r.0.Ok? <==> answer.Returned? && answer.value != []
    ensures var answer := requestRaw(ProviderQuery(p, request));
      r.0.Ok? ==> r.0.value == Obj(p.inputClass, answer.value[0])
    ensures var answer := requestRaw(ProviderQuery(p, request));
      r.0.Err? ==> r.0.error == (if answer.Threw? then answer.e else IndexError)
    ensures Counter(r.1, CounterName(p.pageType, Total)) == Counter(stats, CounterName(p.pageType, Total)) + 1
    ensures r.0.Ok? ==>
      && Counter(r.1, CounterName(p.pageType, Success)) == Counter(stats, CounterName(p.pageType, Success)) + 1
      && Counter(r.1, CounterName(p.pageType, Error)) == Counter(stats, CounterName(p.pageType, Error))
    ensures r.0.Err? ==>
      && Counter(r.1, CounterName(p.pageType, Error)) == Counter(stats, CounterName(p.pageType, Error)) + 1
      && Counter(r.1, CounterName(p.pageType, Success)) == Counter(stats, CounterName(p.pageType, Success))
    ensures forall k | k in stats && k !in (set o | o in Outcomes :: CounterName(p.pageType, o)) ::
      k in r.1 && r.1[k] == stats[k]
  {
    CounterNamesDistinct(p.pageType, Total, p.pageType, Error);
    CounterNamesDistinct(p.pageType, Total, p.pageType, Success);
    CounterNamesDistinct(p.pageType, Error, p.pageType, Success);
    var counted := IncValue(stats, CounterName(p.pageType, Total));
    match requestRaw(ProviderQuery(p, request))
    case Threw(e) => (Err(e), IncValue(counted, CounterName(p.pageType, Error)))
    case Returned(results) =>
      if results == [] then (Err(IndexError), IncValue(counted, CounterName(p.pageType, Error)))
      else (Ok(Obj(p.inputClass, results[0])), IncValue(counted, CounterName(p.pageType, Success)))
  }

  /** The counters of one page type balance: every counted call ends as a
      success or as an error. */
  predicate Balanced(stats: Stats, pageType: string) {
    Counter(stats, CounterName(pageType, Total)) ==
      Counter(stats, CounterName(pageType, Success)) + Counter(stats, CounterName(pageType, Error))
  }

  /** One call per request, threading the stats. */
  function ProvideAll(p: AeProvider, requests: seq<Request>, stats: Stats, requestRaw: Query -> Injection.Call<seq<Json>>)
    : Stats
  {
    if requests == [] then stats
    else ProvideAll(p, requests[1..], Provide(p, requests[0], stats, requestRaw).1, requestRaw)
  }

  /** Calls keep the counters balanced, and the total grows by the number
      of calls. */
  lemma {:induction false} ProvideAllBalanced(
    p: AeProvider, requests: seq<Request>, stats: Stats, requestRaw: Query -> Injection.Call<seq<Json>>)
    requires Balanced(stats, p.pageType)
    ensures Balanced(ProvideAll(p, requests, stats, requestRaw), p.pageType)
    ensures Counter(ProvideAll(p, requests, stats, requestRaw), CounterName(p.pageType, Total)) ==
      Counter(stats, CounterName(p.pageType, Total)) + |requests|
  {
    if requests != [] {
      var next := Provide(p, requests[0], stats, requestRaw).1;
      ProvideAllBalanced(p, requests[1..], next, requestRaw);
    }
  }
}
