/** `ScrapyPoetRequestFingerprinter`: the base fingerprint of a request,
    extended with a digest of the classes injected into its callback, and
    memoised per callback and per request. */
module RequestFingerprinter {
  import opened Wrappers
  import opened Scrapy
  import opened Injection

  const InjectionMiddlewareCls: Tag := "scrapy_poet.InjectionMiddleware"

  /** Scrapy's `REQUEST_FINGERPRINTER_CLASS` default. */
  const DefaultFingerprinterCls: Tag := "scrapy.utils.request.RequestFingerprinter"

  /** The class named by `SCRAPY_POET_REQUEST_FINGERPRINTER_BASE_CLASS`,
      Scrapy's default fingerprinter when the setting is absent. */
  function BaseFingerprinterClass(setting: Option<Tag>): (cls: Tag)
    ensures setting.Some? ==> cls == setting.value
    ensures setting.None? ==> cls == DefaultFingerprinterCls
  {
    setting.GetOr(DefaultFingerprinterCls)
  }

  /** What the fingerprinter works with. `base` is the configured base
      fingerprinter, `planOf` the injector's `build_plan`, `repr` Python's
      `repr` of a class, `dumps` `json.dumps(...).encode()` of a list of
      strings, and `sha1` the digest. */
  datatype FpEnv = FpEnv(
    spider: Spider,
    middlewares: seq<Tag>,
    isInjectionMiddleware: Tag -> bool,
    planOf: Request -> Plan,
    repr: Key -> string,
    dumps: seq<string> -> Bytes,
    sha1: Bytes -> Bytes,
    base: Request -> Bytes)

  /** The two memo tables: per callback, and per request identity. */
  datatype FpState = FpState(callbackCache: map<Callback, Bytes>, requestCache: map<nat, Bytes>)

  /** The position of the first downloader middleware that is an
      `InjectionMiddleware`. */
  function FindInjector(ms: seq<Tag>, isInjection: Tag -> bool): (r: Option<nat>)
    ensures r.Some? <==> exists j | 0 <= j < |ms| :: isInjection(ms[j])
    ensures r.Some? ==> r.value < |ms| && isInjection(ms[r.value])
    ensures r.Some? ==> forall j | 0 <= j < r.value :: !isInjection(ms[j])
  {
    if ms == [] then None
    else if isInjection(ms[0]) then Some(0)
    else
      match FindInjector(ms[1..], isInjection)
      case None => None
      case Some(j) => Some(j + 1)
  }

  const NoInjectorMsg: string :=
    "scrapy_poet.InjectionMiddleware not found at run time, has it been configured in the DOWNLOADER_MIDDLEWARES setting?"

  /** `_injector`: `RuntimeError` when no `InjectionMiddleware` is configured. */
  function Injector(env: FpEnv): (r: Result<nat, Exc>)
    ensures r.Err? <==> forall j | 0 <= j < |env.middlewares| :: !env.isInjectionMiddleware(env.middlewares[j])
    ensures r.Err? ==> r.error.RuntimeError?
  {
    match FindInjector(env.middlewares, env.isInjectionMiddleware)
    case None => Err(RuntimeError(NoInjectorMsg))
    case Some(j) => Ok(j)
  }

  /** The classes of the callback's root dependencies, without their names. */
  function DepReprs(kwargs: seq<(string, Key)>, repr: Key -> string): (r: seq<string>)
    ensures |r| == |kwargs|
    ensures forall j | 0 <= j < |kwargs| :: r[j] == repr(kwargs[j].1)
  {
    if kwargs == [] then [] else [repr(kwargs[0].1)] + DepReprs(kwargs[1..], repr)
  }

  /** `_get_deps`: `None` when the callback takes no injected dependencies. */
  function GetDeps(env: FpEnv, request: Request): (r: Result<Option<seq<string>>, Exc>)
    ensures r.Err? <==> Injector(env).Err?
    ensures r.Ok? ==> (r.value.None? <==> env.planOf(request).target.kwargs == [])
    ensures r.Ok? && r.value.Some? ==> r.value.value == DepReprs(env.planOf(request).target.kwargs, env.repr)
  {
    var _ :- Injector(env);
    var root := env.planOf(request).target.kwargs;
    if root == [] then Ok(None) else Ok(Some(DepReprs(root, env.repr)))
  }

  /** `fingerprint_deps`, with the callback memo it reads and fills. */
  function FingerprintDeps(env: FpEnv, st: FpState, request: Request): (Result<Option<Bytes>, Exc>, FpState) {
    var callback := GetCallback(request, env.spider);
    if callback in st.callbackCache then (Ok(Some(st.callbackCache[callback])), st)
    else
      match GetDeps(env, request)
      case Err(e) => (Err(e), st)
      case Ok(None) => (Ok(None), st)
      case Ok(Some(deps)) =>
        var digest := env.sha1(env.dumps(deps));
        (Ok(Some(digest)), st.(callbackCache := st.callbackCache[callback := digest]))
  }

  /** `fingerprint`, with both memo tables. */
  function Fingerprint(env: FpEnv, st: FpState, request: Request): (Result<Bytes, Exc>, FpState) {
    if request.id in st.requestCache then (Ok(st.requestCache[request.id]), st)
    else
      var fingerprint := env.base(request);
      match FingerprintDeps(env, st, request)
      case (Err(e), st1) => (Err(e), st1)
      case (Ok(None), st1) => (Ok(fingerprint), st1)
      case (Ok(Some(d)), st1) =>
        var f := env.sha1(fingerprint + d);
        (Ok(f), st1.(requestCache := st1.requestCache[request.id := f]))
  }

  /** A fresh request whose callback takes no injected dependencies keeps
      exactly the base fingerprint, and neither memo changes. */
  lemma NoDepsKeepsBase(env: FpEnv, st: FpState, request: Request)
    requires request.id !in st.requestCache && GetCallback(request, env.spider) !in st.callbackCache
    requires Injector(env).Ok? && env.planOf(request).target.kwargs == []
    ensures Fingerprint(env, st, request) == (Ok(env.base(request)), st)
  {
  }

  /** A fresh request with injected dependencies, on a callback not seen
      yet, gets H(base ++ H(json of the dependency classes)); both memos
      record the digests. */
  lemma DepsExtendBase(env: FpEnv, st: FpState, request: Request)
    requires request.id !in st.requestCache && GetCallback(request, env.spider) !in st.callbackCache
    requires Injector(env).Ok? && env.planOf(request).target.kwargs != []
    ensures var d := env.sha1(env.dumps(DepReprs(env.planOf(request).target.kwargs, env.repr)));
      var f := env.sha1(env.base(request) + d);
      && Fingerprint(env, st, request).0 == Ok(f)
      && Fingerprint(env, st, request).1.callbackCache == st.callbackCache[GetCallback(request, env.spider) := d]
      && Fingerprint(env, st, request).1.requestCache == st.requestCache[request.id := f]
  {
  }

  /** A memoised callback digest is reused for any later request with that
      callback, whatever its URL, without building a plan. */
  lemma CallbackMemoReused(env: FpEnv, st: FpState, request: Request)
    requires request.id !in st.requestCache && GetCallback(request, env.spider) in st.callbackCache
    ensures var f := env.sha1(env.base(request) + st.callbackCache[GetCallback(request, env.spider)]);
      Fingerprint(env, st, request) == (Ok(f), st.(requestCache := st.requestCache[request.id := f]))
  {
  }

  /** Only requests whose fingerprint includes dependencies enter the
      request memo, and only callbacks with dependencies the callback memo. */
  lemma OnlyDepsAreMemoised(env: FpEnv, st: FpState, request: Request)
    ensures var (r, st') := Fingerprint(env, st, request);
      && st.requestCache.Keys <= st'.requestCache.Keys <= st.requestCache.Keys + {request.id}
      && st.callbackCache.Keys <= st'.callbackCache.Keys <= st.callbackCache.Keys + {GetCallback(request, env.spider)}
      && (request.id in st'.requestCache && request.id !in st.requestCache ==>
            FingerprintDeps(env, st, request).0.Ok? && FingerprintDeps(env, st, request).0.value.Some?)
      && (st'.callbackCache.Keys != st.callbackCache.Keys ==> env.planOf(request).target.kwargs != [])
  {
  }

  /** Fingerprinting the same request object twice gives the same result,
      and the second call changes nothing. */
  lemma FingerprintIdempotent(env: FpEnv, st: FpState, request: Request)
    ensures var (r1, st1) := Fingerprint(env, st, request);
      Fingerprint(env, st1, request) == (r1, st1)
  {
  }

  /** Two requests for the same callback whose base fingerprints and plans
      agree (the same URL, say) get equal fingerprints, one after the other. */
  lemma SameCallbackSameFingerprint(env: FpEnv, st: FpState, r1: Request, r2: Request)
    requires r1.id != r2.id && r1.id !in st.requestCache && r2.id !in st.requestCache
    requires GetCallback(r1, env.spider) == GetCallback(r2, env.spider)
    requires env.base(r1) == env.base(r2) && env.planOf(r1) == env.planOf(r2)
    ensures var (f1, st1) := Fingerprint(env, st, r1);
      Fingerprint(env, st1, r2).0 == f1
  {
  }

  /** Parameter names play no role: plans whose root dependencies have the
      same classes give the same fingerprint. */
  lemma NamesDoNotMatter(env: FpEnv, st: FpState, r1: Request, r2: Request)
    requires r1.id !in st.requestCache && r2.id !in st.requestCache
    requires GetCallback(r1, env.spider) !in st.callbackCache && GetCallback(r2, env.spider) !in st.callbackCache
    requires env.base(r1) == env.base(r2)
    requires var k1 := env.planOf(r1).target.kwargs; var k2 := env.planOf(r2).target.kwargs;
      |k1| == |k2| && forall j | 0 <= j < |k1| :: k1[j].1 == k2[j].1
    ensures Fingerprint(env, st, r1).0 == Fingerprint(env, st, r2).0
  {
    var k1 := env.planOf(r1).target.kwargs;
    var k2 := env.planOf(r2).target.kwargs;
    assert DepReprs(k1, env.repr) == DepReprs(k2, env.repr);
  }

  ghost predicate Injective<A(!new), B>(f: A -> B) {
    forall x, y :: f(x) == f(y) ==> x == y
  }


  /** With an injective digest, JSON encoding and `repr`, two fresh
      requests with the same base fingerprint but different dependency
      classes get different fingerprints. */
  lemma DifferentDepsDiffer(env: FpEnv, st: FpState, r1: Request, r2: Request)
    requires Injective(env.sha1) && Injective(env.dumps) && Injective(env.repr)
    requires r1.id !in st.requestCache && r2.id !in st.requestCache
    requires GetCallback(r1, env.spider) !in st.callbackCache && GetCallback(r2, env.spider) !in st.callbackCache
    requires Injector(env).Ok? && env.base(r1) == env.base(r2)
    requires var k1 := env.planOf(r1).target.kwargs; var k2 := env.planOf(r2).target.kwargs;
      k1 != [] && k2 != [] && (|k1| != |k2| || exists j | 0 <= j < |k1| :: k1[j].1 != k2[j].1)
    ensures Fingerprint(env, st, r1).0 != Fingerprint(env, st, r2).0
  {
    var k1 := env.planOf(r1).target.kwargs;
    var k2 := env.planOf(r2).target.kwargs;
    var d1 := DepReprs(k1, env.repr);
    var d2 := DepReprs(k2, env.repr);
    assert d1 != d2 by {
      if |k1| == |k2| {
        var j :| 0 <= j < |k1| && k1[j].1 != k2[j].1;
        assert d1[j] != d2[j];
      }
    }
    var b := env.base(r1);
    if env.sha1(b + env.sha1(env.dumps(d1))) == env.sha1(b + env.sha1(env.dumps(d2))) {
      PrefixCancel(b, env.sha1(env.dumps(d1)), env.sha1(env.dumps(d2)));
      assert false;
    }
  }

  /** Without a configured `InjectionMiddleware`, fingerprinting a request
      that is not memoised raises `RuntimeError`. */
  lemma MissingMiddlewareRaises(env: FpEnv, st: FpState, request: Request)
    requires forall j | 0 <= j < |env.middlewares| :: !env.isInjectionMiddleware(env.middlewares[j])
    requires request.id !in st.requestCache && GetCallback(request, env.spider) !in st.callbackCache
    ensures Fingerprint(env, st, request).0.Err? && Fingerprint(env, st, request).0.error.RuntimeError?
  {
  }
}
