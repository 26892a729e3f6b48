/** The Scrapy-side data model shared by every generation of the package:
    classes as opaque tags, built values, callback signatures, requests,
    responses, spiders, exceptions and the stats collector. */
module Scrapy {
  import opened Wrappers
  import opened Json

  /** A Python class, identified by its fully qualified name. */
  type Tag = string

  type Url = string

  newtype byte = b: int | 0 <= b < 256

  type Bytes = seq<byte>

  /** Something an andi plan builds or looks up: a class, an `Annotated[...]`
      variant of a class, an andi custom builder (which builds `result`),
      or a plain function such as the callback itself. */
  datatype Key =
    | TypeKey(cls: Tag)
    | AnnotatedKey(cls: Tag, meta: string)
    | BuilderKey(id: nat, result: Tag)
    | FunctionKey(name: string)

  /** A built Python object: `None`, an opaque instance of a class carrying
      data, or a class called with keyword arguments. */
  datatype Value =
    | NoneValue
    | Obj(cls: Tag, data: Json)
    | Made(cls: Tag, args: map<string, Value>)

  const NoneType: Tag := "builtins.NoneType"

  /** `type(value)`. */
  function TypeOf(v: Value): Tag {
    match v
    case NoneValue => NoneType
    case Obj(c, _) => c
    case Made(c, _) => c
  }

  /** A type annotation: a class, or anything else (`Optional[...]`, a
      string such as `"DummyResponse"`, ...). */
  datatype Annotation = ClassHint(cls: Tag) | OtherHint(text: string)

  /** One parameter of a callable as `inspect.signature` sees it: its
      annotation as written, and whether it is `*args` or `**kwargs`. */
  datatype Param = Param(name: string, variadic: bool, annotation: Option<Annotation>)

  /** A callback: its signature, whether `callback_for` set its marker
      attribute, and what `get_type_hints(callback)` gives, which is foreign:
      the annotations resolved by parameter name (a string annotation
      becomes the class it names), or the error it raises, such as a
      `NameError` for a name that does not resolve. */
  datatype Callback = Callback(name: string, marked: bool, params: seq<Param>, hints: Result<map<string, Annotation>, Exc>)

  /** An entry of the `"inject"` request meta list. */
  datatype DynType =
    | ClassT(cls: Tag)
    | AnnotatedClassT(cls: Tag, meta: string)
    | AnnotatedOtherT(text: string, meta: string)
    | OtherT(text: string)

  /** A `scrapy.Request`; `id` stands for object identity, which is what the
      weak-keyed caches use. */
  datatype Request = Request(
    id: nat,
    url: Url,
    callback: Option<Callback>,
    cbKwargs: map<string, Value>,
    inject: Option<seq<DynType>>)

  datatype Response =
    | HttpResponse(url: Url, text: string, request: Option<Request>)
    | DummyResponse(url: Url, request: Option<Request>)

  datatype Spider = Spider(name: string, parse: Callback)

  const NotTextMsg: string := "Response content isn't text"

  /** `response.text`: only a downloaded response has a body to decode. */
  function ResponseText(response: Response): (r: Result<string, Exc>)
    ensures response.HttpResponse? ==> r == Ok(response.text)
    ensures response.DummyResponse? ==> r == Err(AttributeError(NotTextMsg))
  {
    match response
    case HttpResponse(_, text, _) => Ok(text)
    case DummyResponse(_, _) => Err(AttributeError(NotTextMsg))
  }

  /** The basic page input of every generation: the URL and HTML of a
      downloaded page. */
  datatype ResponseData = ResponseData(url: string, html: string)

  /** What the `ResponseData` providers of every generation build from a
      Scrapy response. */
  function ResponseDataOf(response: Response): (r: Result<ResponseData, Exc>)
    ensures response.HttpResponse? <==> r.Ok?
    ensures r.Ok? ==> r.value.url == response.url && r.value.html == response.text
    ensures r.Err? ==> r.error == AttributeError(NotTextMsg)
  {
    var html :- ResponseText(response);
    Ok(ResponseData(response.url, html))
  }

  /** Exceptions raised by the modelled code or by code it calls. */
  datatype Exc =
    | Retry(msg: string)
    | Raised(kind: string, msg: string)
    | NotImplementedError(msg: string)
    | UndeclaredProvidedTypeError(extra: set<Key>)
    | MissingInstance(key: Key)
    | KeyError(name: string)
    | TypeError(msg: string)
    | SyntaxError(msg: string)
    | StopIteration
    | RuntimeError(msg: string)
    | InjectionError(msg: string)
    | AssertionError
    | AttributeError(msg: string)
    | IndexError
    | QueryLevelError(errorMsg: Option<string>)

  /** What leaves a generator when its body raises `e`: a `StopIteration`
      becomes `RuntimeError` (PEP 479), anything else is raised as is. */
  function EscapeGenerator(e: Exc): (r: Exc)
    ensures r != StopIteration
    ensures e != StopIteration ==> r == e
    ensures e == StopIteration ==> r.RuntimeError?
  {
    if e == StopIteration then RuntimeError("generator raised StopIteration") else e
  }

  /** Scrapy stats: counter name to value. */
  type Stats = map<string, int>

  /** `stats.inc_value(key)`: a missing counter starts at 0. */
  function IncValue(stats: Stats, key: string): (r: Stats)
    ensures r.Keys == stats.Keys + {key}
    ensures key in stats ==> r[key] == stats[key] + 1
    ensures key !in stats ==> r[key] == 1
    ensures forall k | k in stats && k != key :: r[k] == stats[k]
  {
    stats[key := (if key in stats then stats[key] else 0) + 1]
  }

  /** The value of a counter, 0 when it was never incremented. */
  function Counter(stats: Stats, key: string): int {
    if key in stats then stats[key] else 0
  }

  /** `get_callback`: the request's callback, or the spider's `parse`. */
  function GetCallback(request: Request, spider: Spider): (cb: Callback)
    ensures request.callback.None? ==> cb == spider.parse
    ensures request.callback.Some? ==> cb == request.callback.value
  {
    if request.callback.None? then spider.parse else request.callback.value
  }

  /** Setting the callback a request would be handled by explicitly does
      not change its handler; the handler is always the request's own
      callback or the spider's `parse`. */
  lemma ExplicitCallbackSameHandler(request: Request, spider: Spider)
    ensures var cb := GetCallback(request, spider);
      && GetCallback(request.(callback := Some(cb)), spider) == cb
      && (cb == spider.parse || request.callback == Some(cb))
      && (request.callback.None? ==> GetCallback(request, spider.(parse := cb)) == cb)
  {
  }

  const SpiderCls: Tag := "scrapy.Spider"
  const RequestCls: Tag := "scrapy.http.Request"
  const ResponseCls: Tag := "scrapy.http.Response"
  const CrawlerCls: Tag := "scrapy.crawler.Crawler"
  const SettingsCls: Tag := "scrapy.settings.Settings"
  const StatsCollectorCls: Tag := "scrapy.statscollectors.StatsCollector"

  /** `SCRAPY_PROVIDED_CLASSES`: what Scrapy itself can inject into providers. */
  const ScrapyProvidedClasses: set<Tag> :=
    {SpiderCls, RequestCls, ResponseCls, CrawlerCls, SettingsCls, StatsCollectorCls}

  /** The crawler-level objects a provider may ask for. */
  datatype CrawlerObjects = CrawlerObjects(crawler: Value, spider: Value, settings: Value, stats: Value)

  /** The dependency map handed to providers for one request/response pair. */
  function ScrapyDependencies(c: CrawlerObjects, request: Value, response: Value): (deps: map<Tag, Value>)
    ensures deps.Keys == ScrapyProvidedClasses
    ensures deps[RequestCls] == request && deps[ResponseCls] == response
    ensures deps[SpiderCls] == c.spider && deps[CrawlerCls] == c.crawler
    ensures deps[SettingsCls] == c.settings && deps[StatsCollectorCls] == c.stats
  {
    map[CrawlerCls := c.crawler, SpiderCls := c.spider, SettingsCls := c.settings,
        StatsCollectorCls := c.stats, RequestCls := request, ResponseCls := response]
  }

  /** The retry reason for a `Retry` exception: its text, or a fixed default. */
  function RetryReason(msg: string): (reason: string)
    ensures msg != "" ==> reason == msg
    ensures msg == "" ==> reason == "page_object_retry"
    ensures reason != ""
  {
    if msg == "" then "page_object_retry" else msg
  }

  /** A common prefix cancels: names and digests built as `prefix + part`
      differ whenever their parts do. */
  lemma PrefixCancel<T>(t: seq<T>, a: seq<T>, b: seq<T>)
    requires t + a == t + b
    ensures a == b
  {
    assert a == (t + a)[|t|..];
    assert b == (t + b)[|t|..];
  }

  /** A common suffix cancels. */
  lemma SuffixCancel<T>(a: seq<T>, b: seq<T>, t: seq<T>)
    requires a + t == b + t
    ensures a == b
  {
    assert a == (a + t)[..|a|];
    assert b == (b + t)[..|b|];
  }
}
