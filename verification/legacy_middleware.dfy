/** `scrapy_poet/middleware.py`, the first scrapy_poet `InjectionMiddleware`:
    it skips downloads nobody uses, builds the plan's instances and fills
    only the callback arguments the user left out. */
module LegacyMiddleware {
  import opened Wrappers
  import opened Scrapy
  import opened Injection
  import opened LegacyUtils
  import DownloaderMiddlewares

  /** `process_request`; `going` is `is_response_going_to_be_used`. No
      counter is kept in this generation. */
  function ProcessRequest(request: Request, going: Result<bool, Exc>): (r: Result<Option<Response>, Exc>)
    ensures going.Err? ==> r == Err(going.error)
    ensures going == Ok(true) ==> r == Ok(None)
    ensures going == Ok(false) ==> r == Ok(Some(DummyResponse(request.url, Some(request))))
  {
    match going
    case Err(e) => Err(e)
    case Ok(true) => Ok(None)
    case Ok(false) => Ok(Some(DummyResponse(request.url, Some(request))))
  }

  /** Both generations make the same download decision; only the current
      one counts the skipped downloads. */
  lemma SameDecisionAsCurrentGeneration(request: Request, going: Result<bool, Exc>, stats: Stats)
    ensures DownloaderMiddlewares.ProcessRequest(request, going, stats).0 == ProcessRequest(request, going)
    ensures going.Ok? ==> (DownloaderMiddlewares.ProcessRequest(request, going, stats).1 == stats <==> going.value)
  {
    if going == Ok(false) {
      var now := DownloaderMiddlewares.ProcessRequest(request, going, stats);
      assert Counter(now.1, DownloaderMiddlewares.DummyResponseCount) != Counter(stats, DownloaderMiddlewares.DummyResponseCount);
    }
  }

  /** The loop filling `cb_kwargs`: a built value is written only for an
      argument the user did not pass. */
  function FillAbsent(user: map<string, Value>, built: map<string, Value>): (r: map<string, Value>)
    ensures r.Keys == user.Keys + built.Keys
    ensures forall a | a in user :: r[a] == user[a]
    ensures forall a | a in built && a !in user :: r[a] == built[a]
  {
    map a | a in user.Keys + built.Keys :: if a in user then user[a] else built[a]
  }

  /** Filling again with the same built values changes nothing. */
  lemma FillAbsentIdempotent(user: map<string, Value>, built: map<string, Value>)
    ensures FillAbsent(FillAbsent(user, built), built) == FillAbsent(user, built)
  {
  }

  /** The two generations' merges disagree exactly on arguments the user
      passed and the injector built as something other than `None` and
      other than the user's value: the first keeps the user's, the current
      one the built value. */
  lemma FillGenerationsDiffer(user: map<string, Value>, built: map<string, Value>, a: string)
    requires a in user.Keys + built.Keys
    ensures FillAbsent(user, built)[a] != DownloaderMiddlewares.FillCallbackKwargs(user, built)[a] <==>
      a in user && a in built && built[a] != NoneValue && built[a] != user[a]
  {
    DownloaderMiddlewares.FillPrecedence(user, built, a);
  }

  /** The Scrapy objects `process_response` offers to providers; it asserts
      that they are exactly `SCRAPY_PROVIDED_CLASSES`. */
  lemma DependenciesAreScrapyProvided(c: CrawlerObjects, request: Value, response: Value)
    ensures ScrapyDependencies(c, request, response).Keys == ScrapyProvidedClasses
  {
  }

  /** `process_response`, given the plan and the provider instances
      `build_plan` produced: build the instances, take the callback's
      keyword arguments from them, fill the absent ones, and hand back the
      response it received. Both it and `build_instances` are generators,
      so a `StopIteration` raised inside leaves as `RuntimeError`. */
  function ProcessResponse(
    request: Request, response: Response, plan: Plan, provided: set<Key>, call: Key -> Call<Value>, init: Init)
    : (r: Result<(Response, Request), Exc>)
    ensures r.Ok? ==> r.value.0 == response
    ensures r.Ok? ==> r.value.1 == request.(cbKwargs := r.value.1.cbKwargs)
    ensures r.Ok? ==> r.value.1.cbKwargs.Keys == request.cbKwargs.Keys + (set p | p in plan.target.kwargs :: p.0)
    ensures r.Ok? ==> forall a | a in request.cbKwargs :: r.value.1.cbKwargs[a] == request.cbKwargs[a]
    ensures var built := LegacyUtils.BuildInstances(plan.deps, provided, call, init);
      built.Err? ==> r == Err(EscapeGenerator(built.error))
    ensures r.Err? ==> r.error != StopIteration
  {
    match LegacyUtils.BuildInstances(plan.deps, provided, call, init)
    case Err(e) => Err(EscapeGenerator(e))
    case Ok(instances) =>
      match Kwargs(plan.target.kwargs, instances)
      case Err(e) => Err(EscapeGenerator(e))
      case Ok(kwargs) => Ok((response, request.(cbKwargs := FillAbsent(request.cbKwargs, kwargs))))
  }

  /** When every constructed entry's arguments come earlier in the plan,
      every callback argument is a plan entry and no provider or
      constructor raises, the middleware hands the response on. */
  lemma ProcessResponseSucceeds(
    request: Request, response: Response, plan: Plan, provided: set<Key>, call: Key -> Call<Value>, init: Init)
    requires ConstructedInOrder(plan.deps, provided)
    requires forall j | 0 <= j < |plan.deps| && plan.deps[j].node in provided :: call(plan.deps[j].node).Returned?
    requires forall j, kw | 0 <= j < |plan.deps| && plan.deps[j].node !in provided :: init(ResultTag(plan.deps[j].node), kw).None?
    requires forall p | p in plan.target.kwargs :: exists j | 0 <= j < |plan.deps| :: plan.deps[j].node == p.1
    ensures ProcessResponse(request, response, plan, provided, call, init).Ok?
  {
    LegacyUtils.BuildFromSucceeds(plan.deps, 0, map[], provided, call, init);
    var instances := LegacyUtils.BuildInstances(plan.deps, provided, call, init).value;
    forall p | p in plan.target.kwargs
      ensures p.1 in instances
    {
      var j :| 0 <= j < |plan.deps| && plan.deps[j].node == p.1;
      assert plan.deps[j] in plan.deps;
    }
  }
}
