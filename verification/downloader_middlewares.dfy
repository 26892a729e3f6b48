/** `scrapy_poet.downloadermiddlewares`: the `InjectionMiddleware` that skips
    downloads whose response nobody reads and fills callback arguments, the
    stats middleware that ignores dummy responses, and the default providers. */
module DownloaderMiddlewares {
  import opened Wrappers
  import opened Scrapy
  import opened SpiderMiddlewares

  const HttpRequestProviderCls: Tag := "scrapy_poet.page_input_providers.HttpRequestProvider"
  const HttpResponseProviderCls: Tag := "scrapy_poet.page_input_providers.HttpResponseProvider"
  const HttpClientProviderCls: Tag := "scrapy_poet.page_input_providers.HttpClientProvider"
  const PageParamsProviderCls: Tag := "scrapy_poet.page_input_providers.PageParamsProvider"
  const RequestUrlProviderCls: Tag := "scrapy_poet.page_input_providers.RequestUrlProvider"
  const ResponseUrlProviderCls: Tag := "scrapy_poet.page_input_providers.ResponseUrlProvider"
  const StatsProviderCls: Tag := "scrapy_poet.page_input_providers.StatsProvider"

  /** `DEFAULT_PROVIDERS`, in declaration order: provider class and priority. */
  const DefaultProviders: seq<(Tag, int)> := [
    (HttpRequestProviderCls, 400),
    (HttpResponseProviderCls, 500),
    (HttpClientProviderCls, 600),
    (PageParamsProviderCls, 700),
    (RequestUrlProviderCls, 800),
    (ResponseUrlProviderCls, 900),
    (StatsProviderCls, 1000)]

  /** The seven default providers are distinct and have strictly increasing
      priorities from 400 to 1000. */
  lemma DefaultProvidersOrdered()
    ensures |DefaultProviders| == 7
    ensures DefaultProviders[0].1 == 400 && DefaultProviders[6].1 == 1000
    ensures forall i, j | 0 <= i < j < |DefaultProviders| ::
      DefaultProviders[i].1 < DefaultProviders[j].1 && DefaultProviders[i].0 != DefaultProviders[j].0
  {
  }

  /** `DownloaderStatsMiddleware.process_response`: dummy responses pass
      through untouched; anything else goes to Scrapy's `DownloaderStats`
      (`inner`, which counts it). */
  function StatsProcessResponse(response: Response, stats: Stats, inner: (Response, Stats) -> (Response, Stats)): (r: (Response, Stats))
    ensures response.DummyResponse? ==> r == (response, stats)
    ensures !response.DummyResponse? ==> r == inner(response, stats)
  {
    if response.DummyResponse? then (response, stats) else inner(response, stats)
  }

  const DummyResponseCount: string := "scrapy_poet/dummy_response_count"

  /** `process_request`: `None` lets the download happen; otherwise a
      `DummyResponse` linked to the request replaces it and is counted.
      `required` is the injector's `is_scrapy_response_required(request)`. */
  function ProcessRequest(request: Request, required: Result<bool, Exc>, stats: Stats): (r: (Result<Option<Response>, Exc>, Stats))
    ensures required.Err? ==> r == (Err(required.error), stats)
    ensures required == Ok(true) ==> r == (Ok(None), stats)
    ensures required == Ok(false) ==>
      && r.0 == Ok(Some(DummyResponse(request.url, Some(request))))
      && Counter(r.1, DummyResponseCount) == Counter(stats, DummyResponseCount) + 1
      && forall k | k in stats && k != DummyResponseCount :: k in r.1 && r.1[k] == stats[k]
  {
    match required
    case Err(e) => (Err(e), stats)
    case Ok(true) => (Ok(None), stats)
    case Ok(false) => (Ok(Some(DummyResponse(request.url, Some(request)))), IncValue(stats, DummyResponseCount))
  }

  /** The names of the parameters of `parse` after the response; the
      signature's first `next` raises `StopIteration` for a `parse` without
      parameters. */
  function ParseParamNames(parse: Callback): (r: Result<set<string>, Exc>)
    ensures parse.params == [] <==> r.Err?
    ensures r.Ok? ==> r.value == set j | 1 <= j < |parse.params| :: parse.params[j].name
  {
    if parse.params == [] then Err(StopIteration)
    else Ok(set j | 1 <= j < |parse.params| :: parse.params[j].name)
  }

  /** `_skip_dependency_creation`; `callbackProviders` is the injector's
      `discover_callback_providers(request)`. */
  function SkipDependencyCreation(
    request: Request, spider: Spider, scrapyAtLeast28: bool, callbackProviders: set<nat>): (r: Result<bool, Exc>)
    ensures scrapyAtLeast28 ==> r == Ok(false)
    ensures request.callback.Some? ==> r == Ok(false)
    ensures !scrapyAtLeast28 && request.callback.None? && spider.parse.params == [] ==> r == Err(StopIteration)
    ensures !scrapyAtLeast28 && request.callback.None? && spider.parse.params != [] ==>
      var names := set j | 1 <= j < |spider.parse.params| :: spider.parse.params[j].name;
      r.Ok? && (r.value <==> !(names != {} && names == request.cbKwargs.Keys) && callbackProviders != {})
  {
    if scrapyAtLeast28 then Ok(false)
    else if request.callback.Some? then Ok(false)
    else
      var names :- ParseParamNames(spider.parse);
      if names != {} && names == request.cbKwargs.Keys then Ok(false)
      else Ok(callbackProviders != {})
  }

  /** `cb_kwargs` after the loop of `process_response`: every built value
      is written, except a `None` for an argument the user supplied. */
  function FillCallbackKwargs(user: map<string, Value>, built: map<string, Value>): (r: map<string, Value>)
    ensures r.Keys == user.Keys + built.Keys
  {
    map a | a in user.Keys + built.Keys ::
      if a in built && !(built[a] == NoneValue && a in user) then built[a] else user[a]
  }

  /** The precedence of the fill: built values win, except that `None`
      never replaces a value the user supplied; user arguments that were
      not built stay as they were. */
  lemma FillPrecedence(user: map<string, Value>, built: map<string, Value>, a: string)
    requires a in user + built
    ensures a in built && built[a] != NoneValue ==> FillCallbackKwargs(user, built)[a] == built[a]
    ensures a in built && built[a] == NoneValue && a !in user ==> FillCallbackKwargs(user, built)[a] == NoneValue
    ensures a in user && (a !in built || built[a] == NoneValue) ==> FillCallbackKwargs(user, built)[a] == user[a]
  {
  }

  /** Filling twice with the same built values changes nothing more. */
  lemma FillIdempotent(user: map<string, Value>, built: map<string, Value>)
    ensures FillCallbackKwargs(FillCallbackKwargs(user, built), built) == FillCallbackKwargs(user, built)
  {
    var once := FillCallbackKwargs(user, built);
    var twice := FillCallbackKwargs(once, built);
    forall a | a in twice
      ensures twice[a] == once[a]
    {
      if a in built && built[a] == NoneValue && a !in user {
        assert once[a] == NoneValue;
      }
    }
  }

  /** What `process_response` hands back: the response (with the request's
      updated `cb_kwargs`), a retried request, or an exception. */
  datatype Outcome =
    | ReturnResponse(response: Response, request: Request)
    | ReturnRequest(retried: Request)
    | Raise(e: Exc)

  /** `process_response`. `skip` is `_skip_dependency_creation`, `built`
      the injector's `build_callback_dependencies`. The method is a
      generator run by `inlineCallbacks`, so an exception escapes through
      `EscapeGenerator`. */
  function ProcessResponse(
    request: Request, response: Response, skip: Result<bool, Exc>,
    built: Result<map<string, Value>, Exc>, retry: RetryRequestFn): (o: Outcome)
    ensures skip.Err? ==> o == Raise(EscapeGenerator(skip.error))
    ensures skip == Ok(true) ==> o == ReturnResponse(response, request)
    ensures skip == Ok(false) && built.Err? && !built.error.Retry? ==> o == Raise(EscapeGenerator(built.error))
    ensures skip == Ok(false) && built.Err? && built.error.Retry? ==>
      var again := retry(request, RetryReason(built.error.msg));
      && (again.None? ==> o == ReturnResponse(response, request))
      && (again.Some? ==> o == ReturnRequest(again.value))
    ensures skip == Ok(false) && built.Ok? ==>
      o == ReturnResponse(response, request.(cbKwargs := FillCallbackKwargs(request.cbKwargs, built.value)))
  {
    match skip
    case Err(e) => Raise(EscapeGenerator(e))
    case Ok(true) => ReturnResponse(response, request)
    case Ok(false) =>
      match built
      case Err(Retry(msg)) =>
        (match retry(request, RetryReason(msg))
         case None => ReturnResponse(response, request)
         case Some(q) => ReturnRequest(q))
      case Err(e) => Raise(EscapeGenerator(e))
      case Ok(kw) => ReturnResponse(response, request.(cbKwargs := FillCallbackKwargs(request.cbKwargs, kw)))
  }

  /** Whatever happens, `process_response` hands back the response it was
      given, or a retried request, or an exception other than
      `StopIteration`. The request it hands back differs from the original
      only in `cb_kwargs`, and keeps every argument the user supplied. An
      exception is raised exactly when skipping failed or building failed
      with something other than `Retry`. */
  lemma ProcessResponseKeepsIdentity(
    request: Request, response: Response, skip: Result<bool, Exc>,
    built: Result<map<string, Value>, Exc>, retry: RetryRequestFn)
    ensures var o := ProcessResponse(request, response, skip, built, retry);
      && (o.ReturnResponse? ==>
            && o.response == response
            && o.request == request.(cbKwargs := o.request.cbKwargs)
            && request.cbKwargs.Keys <= o.request.cbKwargs.Keys)
      && (o.Raise? ==> o.e != StopIteration)
      && (skip == Err(StopIteration) ==> o.Raise? && o.e.RuntimeError?)
      && (o.Raise? <==> skip.Err? || (skip == Ok(false) && built.Err? && !built.error.Retry?))
      && (o.ReturnRequest? ==> skip == Ok(false) && built.Err? && built.error.Retry?)
  {
  }

  /** Running `process_response` again on the request it filled, with the
      same built values, hands back the same request. */
  lemma ProcessResponseIdempotent(
    request: Request, response: Response, kw: map<string, Value>, retry: RetryRequestFn)
    ensures var o := ProcessResponse(request, response, Ok(false), Ok(kw), retry);
      && o.ReturnResponse?
      && ProcessResponse(o.request, response, Ok(false), Ok(kw), retry) == o
  {
    FillIdempotent(request.cbKwargs, kw);
  }

  /** The dummy response `process_request` returns for a request whose
      response is not needed is not counted again by the stats middleware. */
  lemma DummyResponsesNotCounted(
    request: Request, stats: Stats, later: Stats, inner: (Response, Stats) -> (Response, Stats))
    ensures var r := ProcessRequest(request, Ok(false), stats);
      && r.0.Ok? && r.0.value.Some?
      && StatsProcessResponse(r.0.value.value, later, inner) == (r.0.value.value, later)
  {
  }

  /** A `Retry` from building the dependencies is handled by the
      downloader middleware exactly as `RetryMiddleware` handles one raised
      by the callback for the same request: a retried request in both, or
      the response in one and nothing in the other. */
  lemma RetryAlikeInBothMiddlewares(
    request: Request, response: Response, msg: string, retry: RetryRequestFn)
    requires response.request == Some(request)
    ensures var o := ProcessResponse(request, response, Ok(false), Err(Retry(msg)), retry);
      var s := ProcessSpiderException(response, Retry(msg), retry);
      && s.Ok? && s.value.Some?
      && (forall q :: o == ReturnRequest(q) <==> s.value.value == [q])
      && (o == ReturnResponse(response, request) <==> s.value.value == [])
  {
  }
}
