/** The injector of the current generation (scrapy_poet/injection.py): the
    "is the downloaded response needed?" decision, provider discovery and
    selection over the ordered provider list, the undeclared-type check, the
    persistent-cache protocol, and the construction of the remaining plan
    entries. The andi plan is an input. */
module Injection {
  import opened Wrappers
  import opened Json
  import opened Scrapy

  /** One entry of an andi plan: what to build and, for each keyword
      argument in declaration order, the key whose instance it receives. */
  datatype Step = Step(node: Key, kwargs: seq<(string, Key)>)

  /** An andi plan: the dependencies in build order, then the callback. */
  datatype Plan = Plan(deps: seq<Step>, target: Step)

  /** Iterating over a plan visits the dependencies and then the callback. */
  function Steps(plan: Plan): seq<Step> {
    plan.deps + [plan.target]
  }

  /** `{cls for cls, _ in plan.dependencies}`. */
  function DepsSet(plan: Plan): set<Key> {
    set s | s in plan.deps :: s.node
  }

  /** A loaded provider: its `name`, its `is_provided` classmethod, and the
      types andi plans for its `__call__` (what it asks Scrapy for). */
  datatype Provider = Provider(name: string, isProvided: Key -> bool, callDeps: seq<Tag>)

  // ---------------------------------------------------------------------
  // Does the callback need the downloaded response?
  // ---------------------------------------------------------------------

  /** The `raw_callback` argument: left unset, `None`, or a callback. */
  datatype RawCallback = Unset | NoneCallback | GivenCallback

  function RawOf(request: Request): RawCallback {
    if request.callback.None? then NoneCallback else GivenCallback
  }

  /** `issubclass_safe(hint, DummyResponse)`: false for a hint that is not a class. */
  predicate IsDummyHint(h: Annotation, isDummySubclass: Tag -> bool) {
    h.ClassHint? && isDummySubclass(h.cls)
  }

  /** The parameter is annotated, as written, with `DummyResponse` or a subclass of it. */
  predicate AnnotatedAsDummy(p: Param, isDummySubclass: Tag -> bool) {
    p.annotation.Some? && IsDummyHint(p.annotation.value, isDummySubclass)
  }

  /** The resolved type hint of the callback's first parameter is `DummyResponse`
      or a subclass of it. */
  predicate FirstHintIsDummy(cb: Callback, isDummySubclass: Tag -> bool) {
    && cb.params != []
    && cb.hints.Ok?
    && cb.params[0].name in cb.hints.value
    && IsDummyHint(cb.hints.value[cb.params[0].name], isDummySubclass)
  }

  /** `is_callback_requiring_scrapy_response`. A callback without parameters
      makes `next(iter(...))` raise `StopIteration`; the resolved hints are
      only asked for when the first parameter is not variadic, and their
      error propagates. */
  function IsCallbackRequiringScrapyResponse(
    cb: Callback, raw: RawCallback, scrapyAtLeast28: bool, isDummySubclass: Tag -> bool): (r: Result<bool, Exc>)
    ensures cb.marked ==> r == Ok(false)
    ensures !cb.marked && cb.params == [] ==> r == Err(StopIteration)
    ensures !cb.marked && cb.params != [] && cb.params[0].variadic ==> r == Ok(true)
    ensures !cb.marked && cb.params != [] && !cb.params[0].variadic && cb.hints.Err? ==> r == Err(cb.hints.error)
    ensures !cb.marked && cb.params != [] && !cb.params[0].variadic && cb.hints.Ok? ==>
      (r.Ok? &&
       (!r.value <==> FirstHintIsDummy(cb, isDummySubclass) && (raw != NoneCallback || scrapyAtLeast28)))
  {
    if cb.marked then Ok(false)
    else if cb.params == [] then Err(StopIteration)
    else
      var first := cb.params[0];
      if first.variadic then Ok(true)
      else if cb.hints.Err? then Err(cb.hints.error)
      else if first.name !in cb.hints.value then Ok(true)
      else if IsDummyHint(cb.hints.value[first.name], isDummySubclass) then
        if raw == NoneCallback && !scrapyAtLeast28 then Ok(true) else Ok(false)
      else Ok(true)
  }

  /** `is_provider_requiring_scrapy_response`: some type planned for the
      provider's `__call__` is a subclass of `Response`. */
  function AnyResponseDep(deps: seq<Tag>, isResponseSubclass: Tag -> bool): (r: bool)
    ensures r <==> exists t | t in deps :: isResponseSubclass(t)
  {
    if deps == [] then false
    else isResponseSubclass(deps[0]) || AnyResponseDep(deps[1..], isResponseSubclass)
  }

  /** The provider provides some type that appears in the plan. */
  predicate ProvidesSomeStep(p: Provider, plan: Plan) {
    exists s | s in Steps(plan) :: p.isProvided(s.node)
  }

  /** `discover_callback_providers`, as the set of positions in the
      provider list. */
  method DiscoverCallbackProviders(plan: Plan, providers: seq<Provider>) returns (found: set<nat>)
    ensures forall i: nat :: i in found <==> i < |providers| && ProvidesSomeStep(providers[i], plan)
  {
    var steps := Steps(plan);
    found := {};
    var k := 0;
    while k < |steps|
      invariant 0 <= k <= |steps|
      invariant forall x: nat :: x in found <==>
        x < |providers| && exists j | 0 <= j < k :: providers[x].isProvided(steps[j].node)
    {
      var i := 0;
      while i < |providers|
        invariant 0 <= i <= |providers|
        invariant forall x: nat :: x in found <==>
          x < |providers| &&
          ((exists j | 0 <= j < k :: providers[x].isProvided(steps[j].node)) ||
           (x < i && providers[x].isProvided(steps[k].node)))
      {
        if providers[i].isProvided(steps[k].node) {
          found := found + {i};
        }
        i := i + 1;
      }
      k := k + 1;
    }
    forall x: nat | x < |providers|
      ensures ProvidesSomeStep(providers[x], plan) <==>
              exists j | 0 <= j < |steps| :: providers[x].isProvided(steps[j].node)
    {
      if ProvidesSomeStep(providers[x], plan) {
        var s :| s in Steps(plan) && providers[x].isProvided(s.node);
        var j :| 0 <= j < |steps| && steps[j] == s;
      }
    }
  }

  /** Some provider that provides a plan type needs the Scrapy response. */
  predicate SomeProviderRequiresResponse(plan: Plan, providers: seq<Provider>, isResponseSubclass: Tag -> bool) {
    exists i | 0 <= i < |providers| ::
      ProvidesSomeStep(providers[i], plan) && AnyResponseDep(providers[i].callDeps, isResponseSubclass)
  }

  /** `Injector.is_scrapy_response_required`, given the plan andi built for
      the request. */
  method IsScrapyResponseRequired(
    request: Request, spider: Spider, plan: Plan, providers: seq<Provider>,
    scrapyAtLeast28: bool, isDummySubclass: Tag -> bool, isResponseSubclass: Tag -> bool)
    returns (r: Result<bool, Exc>)
    ensures var c := IsCallbackRequiringScrapyResponse(GetCallback(request, spider), RawOf(request), scrapyAtLeast28, isDummySubclass);
      && (c.Err? ==> r == c)
      && (c.Ok? ==> r.Ok? && (r.value <==> c.value || SomeProviderRequiresResponse(plan, providers, isResponseSubclass)))
  {
    var c := IsCallbackRequiringScrapyResponse(GetCallback(request, spider), RawOf(request), scrapyAtLeast28, isDummySubclass);
    if c.Err? {
      return c;
    }
    if c.value {
      return Ok(true);
    }
    var found := DiscoverCallbackProviders(plan, providers);
    var rest := found;
    while rest != {}
      invariant rest <= found
      invariant forall i | i in found - rest :: !AnyResponseDep(providers[i].callDeps, isResponseSubclass)
      decreases rest
    {
      var i :| i in rest;
      if AnyResponseDep(providers[i].callDeps, isResponseSubclass) {
        return Ok(true);
      }
      rest := rest - {i};
    }
    return Ok(false);
  }

  /** `is_class_provided_by_any_provider_fn(providers)(t)`. */
  function IsClassProvidedByAny(providers: seq<Provider>, t: Key): (r: bool)
    ensures r <==> exists i | 0 <= i < |providers| :: providers[i].isProvided(t)
  {
    if providers == [] then false
    else if providers[0].isProvided(t) then true
    else
      var rest := IsClassProvidedByAny(providers[1..], t);
      assert rest <==> exists i | 1 <= i < |providers| :: providers[i].isProvided(t) by {
        if rest {
          var i :| 0 <= i < |providers[1..]| && providers[1..][i].isProvided(t);
          assert providers[i + 1].isProvided(t);
        }
        if exists i | 1 <= i < |providers| :: providers[i].isProvided(t) {
          var i :| 1 <= i < |providers| && providers[i].isProvided(t);
          assert providers[1..][i - 1].isProvided(t);
        }
      }
      rest
  }

  // ---------------------------------------------------------------------
  // Custom builders: DynamicDeps and items built from page objects
  // ---------------------------------------------------------------------

  const DynamicDepsCls: Tag := "scrapy_poet.injection.DynamicDeps"
  const DynamicDepsKey: Key := TypeKey(DynamicDepsCls)

  /** What `_get_custom_builder(request)(dep_cls)` returns, when not `None`:
      `lambda: {}`, a generated `dynamic_deps_factory`, or `item_factory`. */
  datatype Builder =
    | EmptyDict
    | DynamicDepsFactory(types: seq<DynType>)
    | ItemFactory(page: Tag, item: Key)

  /** `strip_annotated`. */
  function StripAnnotated(t: DynType): DynType {
    match t
    case AnnotatedClassT(c, _) => ClassT(c)
    case AnnotatedOtherT(x, _) => OtherT(x)
    case _ => t
  }

  /** `__name__` of a class: the part of its qualified name after the last dot. */
  function ShortName(cls: Tag): string
    decreases |cls|
  {
    if cls == [] then []
    else if cls[|cls| - 1] == '.' then []
    else ShortName(cls[..|cls| - 1]) + [cls[|cls| - 1]]
  }

  /** The loop of `_get_dynamic_deps_factory`: the `__name__` of each
      stripped type, or `TypeError` at the first entry that is not a class. */
  function TypeNames(types: seq<DynType>): (r: Result<seq<string>, Exc>)
    ensures r.Ok? <==> forall i | 0 <= i < |types| :: StripAnnotated(types[i]).ClassT?
    ensures r.Ok? ==>
      (|r.value| == |types| &&
       forall i | 0 <= i < |types| :: r.value[i] == ShortName(StripAnnotated(types[i]).cls))
    ensures r.Err? ==> r.error.TypeError?
  {
    if types == [] then Ok([])
    else
      var t := StripAnnotated(types[0]);
      if !t.ClassT? then Err(TypeError("Expected a dynamic dependency type"))
      else
        match TypeNames(types[1..])
        case Err(e) => Err(e)
        case Ok(rest) => Ok([ShortName(t.cls)] + rest)
  }

  predicate Distinct<T(==)>(s: seq<T>) {
    forall i, j | 0 <= i < j < |s| :: s[i] != s[j]
  }

  /** `_get_dynamic_deps_factory`. The generated source names one parameter
      after each type, so two types sharing a `__name__` make `exec` fail. */
  function GetDynamicDepsFactory(types: seq<DynType>): (r: Result<Builder, Exc>)
    ensures r.Ok? ==> r.value == DynamicDepsFactory(types)
    ensures (exists i | 0 <= i < |types| :: !StripAnnotated(types[i]).ClassT?) ==> r.Err? && r.error.TypeError?
    ensures (forall i | 0 <= i < |types| :: StripAnnotated(types[i]).ClassT?) ==>
      (r.Ok? <==> forall i, j | 0 <= i < j < |types| ::
         ShortName(StripAnnotated(types[i]).cls) != ShortName(StripAnnotated(types[j]).cls))
  {
    var names :- TypeNames(types);
    if Distinct(names) then Ok(DynamicDepsFactory(types))
    else Err(SyntaxError("duplicate argument in dynamic_deps_factory"))
  }

  /** The `DynamicDeps` instance such a factory returns: each argument under
      its stripped type. */
  function DynamicDepsInstance(types: seq<DynType>, args: seq<Value>): (v: Value)
    requires |types| == |args|
    requires forall t | t in types :: StripAnnotated(t).ClassT?
    ensures v.Made? && v.cls == DynamicDepsCls
    ensures v.args.Keys == set t | t in types :: StripAnnotated(t).cls
  {
    if types == [] then Made(DynamicDepsCls, map[])
    else
      var init := types[..|types| - 1];
      var last := StripAnnotated(types[|types| - 1]).cls;
      var rest := DynamicDepsInstance(init, args[..|args| - 1]);
      assert (set t | t in types :: StripAnnotated(t).cls) == (set t | t in init :: StripAnnotated(t).cls) + {last} by {
        assert types == init + [types[|types| - 1]];
      }
      Made(DynamicDepsCls, rest.args[last := args[|args| - 1]])
  }

  /** When the stripped types are distinct classes, each one maps to the
      argument given for it. */
  lemma {:induction false} DynamicDepsInstanceArgs(types: seq<DynType>, args: seq<Value>)
    requires |types| == |args|
    requires forall t | t in types :: StripAnnotated(t).ClassT?
    requires forall i, j | 0 <= i < j < |types| :: StripAnnotated(types[i]).cls != StripAnnotated(types[j]).cls
    ensures forall i | 0 <= i < |types| :: DynamicDepsInstance(types, args).args[StripAnnotated(types[i]).cls] == args[i]
    decreases |types|
  {
    if types != [] {
      var n := |types| - 1;
      var init, initArgs := types[..n], args[..n];
      var last := StripAnnotated(types[n]).cls;
      var rest := DynamicDepsInstance(init, initArgs);
      assert DynamicDepsInstance(types, args).args == rest.args[last := args[n]];
      forall t | t in init ensures StripAnnotated(t).ClassT? {
        assert t in types;
      }
      forall i, j | 0 <= i < j < |init| ensures StripAnnotated(init[i]).cls != StripAnnotated(init[j]).cls {
        assert init[i] == types[i] && init[j] == types[j];
      }
      DynamicDepsInstanceArgs(init, initArgs);
      forall i | 0 <= i < n
        ensures DynamicDepsInstance(types, args).args[StripAnnotated(types[i]).cls] == args[i]
      {
        assert init[i] == types[i] && initArgs[i] == args[i];
        assert StripAnnotated(types[i]).cls != last;
      }
    }
  }

  /** `_get_custom_builder(request)` applied to one dependency class. */
  function CustomBuilderFor(request: Request, dep: Key, pageClsForItem: (Url, Key) -> Option<Tag>): (r: Result<Option<Builder>, Exc>)
    ensures dep == DynamicDepsKey && (request.inject.None? || request.inject.value == []) ==>
      r == Ok(Some(EmptyDict))
    ensures dep == DynamicDepsKey && request.inject.Some? && request.inject.value != [] ==>
      ((r.Ok? ==> r.value == Some(DynamicDepsFactory(request.inject.value))) &&
       ((exists i | 0 <= i < |request.inject.value| :: !StripAnnotated(request.inject.value[i]).ClassT?) ==>
          r.Err? && r.error.TypeError?))
    ensures dep != DynamicDepsKey ==>
      (r.Ok? &&
       (r.value.None? <==> pageClsForItem(request.url, dep).None?) &&
       (r.value.Some? ==> r.value.value == ItemFactory(pageClsForItem(request.url, dep).value, dep)))
  {
    if dep == DynamicDepsKey then
      var dynamicTypes := request.inject.GetOr([]);
      if dynamicTypes == [] then Ok(Some(EmptyDict))
      else
        var b :- GetDynamicDepsFactory(dynamicTypes);
        Ok(Some(b))
    else
      match pageClsForItem(request.url, dep)
      case None => Ok(None)
      case Some(page) => Ok(Some(ItemFactory(page, dep)))
  }

  const DictCls: Tag := "builtins.dict"

  /** The parameter name the generated `dynamic_deps_factory` gives a type. */
  function DepArgName(t: DynType): string
    requires StripAnnotated(t).ClassT?
  {
    ShortName(StripAnnotated(t).cls) + "_arg"
  }

  /** The arguments the generated `dynamic_deps_factory` receives, in order. */
  function DepArgs(types: seq<DynType>, kw: map<string, Value>): (args: seq<Value>)
    requires forall t | t in types :: StripAnnotated(t).ClassT? && DepArgName(t) in kw
    ensures |args| == |types|
  {
    seq(|types|, i requires 0 <= i < |types| => kw[DepArgName(types[i])])
  }

  /** A factory `_get_dynamic_deps_factory` accepted maps each class to the
      argument named after it. */
  lemma DynamicDepsFromArgs(types: seq<DynType>, kw: map<string, Value>)
    requires forall t | t in types :: StripAnnotated(t).ClassT? && DepArgName(t) in kw
    ensures GetDynamicDepsFactory(types).Ok? ==>
      forall i | 0 <= i < |types| :: DynamicDepsInstance(types, DepArgs(types, kw)).args[StripAnnotated(types[i]).cls] == kw[DepArgName(types[i])]
  {
    if GetDynamicDepsFactory(types).Ok? {
      forall i, j | 0 <= i < j < |types|
        ensures StripAnnotated(types[i]).cls != StripAnnotated(types[j]).cls
      {
        assert ShortName(StripAnnotated(types[i]).cls) != ShortName(StripAnnotated(types[j]).cls);
      }
      DynamicDepsInstanceArgs(types, DepArgs(types, kw));
    }
  }

  /** Awaiting a custom builder called with the keyword arguments andi built
      for it; `toItem(page)` awaits `page.to_item()`. A missing argument is
      a `TypeError`. */
  function RunBuilder(bld: Builder, kw: map<string, Value>, toItem: Value -> Call<Value>): (r: Call<Value>)
    ensures bld.EmptyDict? ==> r == Returned(Made(DictCls, map[])) && TypeOf(r.value) != DynamicDepsCls
    ensures bld.DynamicDepsFactory? && GetDynamicDepsFactory(bld.types).Ok? &&
            (forall i | 0 <= i < |bld.types| :: DepArgName(bld.types[i]) in kw) ==>
      && r.Returned? && r.value.Made? && r.value.cls == DynamicDepsCls
      && r.value.args.Keys == (set t | t in bld.types :: StripAnnotated(t).cls)
      && forall i | 0 <= i < |bld.types| :: r.value.args[StripAnnotated(bld.types[i]).cls] == kw[DepArgName(bld.types[i])]
    ensures bld.ItemFactory? ==> r == (if "page" in kw then toItem(kw["page"]) else Threw(TypeError("missing argument 'page'")))
  {
    match bld
    case EmptyDict => Returned(Made(DictCls, map[]))
    case DynamicDepsFactory(types) =>
      if forall t | t in types :: StripAnnotated(t).ClassT? && DepArgName(t) in kw then
        DynamicDepsFromArgs(types, kw);
        Returned(DynamicDepsInstance(types, DepArgs(types, kw)))
      else Threw(TypeError("missing argument of dynamic_deps_factory"))
    case ItemFactory(_, _) =>
      if "page" in kw then toItem(kw["page"]) else Threw(TypeError("missing argument 'page'"))
  }

  /** A request without `"inject"` meta asking for `DynamicDeps` gets
      `lambda: {}`, so the callback receives a plain empty dict. */
  lemma NoInjectMetaGivesEmptyDict(
    request: Request, pageClsForItem: (Url, Key) -> Option<Tag>, kw: map<string, Value>, toItem: Value -> Call<Value>)
    requires request.inject.None?
    ensures CustomBuilderFor(request, DynamicDepsKey, pageClsForItem) == Ok(Some(EmptyDict))
    ensures RunBuilder(EmptyDict, kw, toItem) == Returned(Made(DictCls, map[]))
  {
  }

  /** The factory `build_instances` awaits: plan entry `BuilderKey(id, _)`
      runs the builder `builders(id)` andi planned. */
  function BuilderFactory(builders: nat -> Builder, toItem: Value -> Call<Value>): Factory {
    (id: nat, kw: map<string, Value>) => RunBuilder(builders(id), kw, toItem)
  }

  /** A custom-builder entry of the plan stores, under the class it builds,
      what its builder returns when run on the planned arguments; an
      exception ends the build. */
  lemma BuilderEntryStoresBuilt(steps: seq<Step>, k: nat, b: Built, builders: nat -> Builder, toItem: Value -> Call<Value>, init: Init)
    requires k < |steps| && steps[k].node.BuilderKey? && steps[k].node !in b.instances
    requires Kwargs(steps[k].kwargs, b.instances).Ok?
    ensures var node := steps[k].node;
      var made := RunBuilder(builders(node.id), Kwargs(steps[k].kwargs, b.instances).value, toItem);
      var factory := BuilderFactory(builders, toItem);
      && (made.Threw? ==> BuildRemaining(steps, k, b, factory, init) == BuildFailed(b.stats, made.e))
      && (made.Returned? ==>
            BuildRemaining(steps, k, b, factory, init) ==
            BuildRemaining(steps, k + 1,
              Built(b.instances[TypeKey(node.result) := made.value],
                    IncValue(b.stats, "poet/injector/" + node.result), b.built + [k]), factory, init))
  {
    var node := steps[k].node;
    var kw := Kwargs(steps[k].kwargs, b.instances).value;
    var factory := BuilderFactory(builders, toItem);
    assert factory(node.id, kw) == RunBuilder(builders(node.id), kw, toItem);
    BuilderEntryStep(steps, k, b, factory, init);
  }

  /** One custom-builder entry of the build loop, for any factory. */
  lemma BuilderEntryStep(steps: seq<Step>, k: nat, b: Built, factory: Factory, init: Init)
    requires k < |steps| && steps[k].node.BuilderKey? && steps[k].node !in b.instances
    requires Kwargs(steps[k].kwargs, b.instances).Ok?
    ensures var node := steps[k].node;
      var made := factory(node.id, Kwargs(steps[k].kwargs, b.instances).value);
      && (made.Threw? ==> BuildRemaining(steps, k, b, factory, init) == BuildFailed(b.stats, made.e))
      && (made.Returned? ==>
            BuildRemaining(steps, k, b, factory, init) ==
            BuildRemaining(steps, k + 1,
              Built(b.instances[TypeKey(node.result) := made.value],
                    IncValue(b.stats, "poet/injector/" + node.result), b.built + [k]), factory, init))
  {
  }

  /** What the builder `CustomBuilderFor` gave for class `cls` returns: a
      plain dict without `"inject"` meta, a `DynamicDeps` of the planned
      arguments, or the page's `to_item()` for an item class. */
  lemma CustomBuilderRuns(
    request: Request, cls: Tag, pageClsForItem: (Url, Key) -> Option<Tag>, bld: Builder,
    kw: map<string, Value>, toItem: Value -> Call<Value>)
    requires CustomBuilderFor(request, TypeKey(cls), pageClsForItem) == Ok(Some(bld))
    ensures var made := RunBuilder(bld, kw, toItem);
      && (cls == DynamicDepsCls && (request.inject.None? || request.inject.value == []) ==>
            made == Returned(Made(DictCls, map[])))
      && (cls == DynamicDepsCls && request.inject.Some? && request.inject.value != [] &&
          (forall i | 0 <= i < |request.inject.value| :: DepArgName(request.inject.value[i]) in kw) ==>
            && made.Returned? && made.value.Made? && made.value.cls == DynamicDepsCls
            && forall i | 0 <= i < |request.inject.value| ::
                 made.value.args[StripAnnotated(request.inject.value[i]).cls] == kw[DepArgName(request.inject.value[i])])
      && (cls != DynamicDepsCls ==>
            made == (if "page" in kw then toItem(kw["page"]) else Threw(TypeError("missing argument 'page'"))))
  {
  }

  // ---------------------------------------------------------------------
  // Building instances with providers, with the persistent cache
  // ---------------------------------------------------------------------

  /** What a provider returns: an instance, or an `AnnotatedInstance`. */
  datatype ProvidedObj = PlainObj(v: Value) | AnnotatedObj(cls: Tag, meta: string, v: Value)

  /** The key an object is filed under: its annotated class or its type. */
  function ObjKey(o: ProvidedObj): Key {
    match o
    case PlainObj(v) => TypeKey(TypeOf(v))
    case AnnotatedObj(c, m, _) => AnnotatedKey(c, m)
  }

  /** `objs_by_type`; a later object of the same key replaces an earlier one. */
  function ObjsByType(objs: seq<ProvidedObj>): (m: map<Key, Value>)
    ensures m.Keys == set o | o in objs :: ObjKey(o)
    ensures objs != [] ==> m[ObjKey(objs[|objs| - 1])] == objs[|objs| - 1].v
  {
    if objs == [] then map[]
    else
      var last := objs[|objs| - 1];
      var rest := ObjsByType(objs[..|objs| - 1]);
      assert (set o | o in objs :: ObjKey(o)) == (set o | o in objs[..|objs| - 1] :: ObjKey(o)) + {ObjKey(last)} by {
        assert objs == objs[..|objs| - 1] + [last];
      }
      rest[ObjKey(last) := last.v]
  }

  /** The outcome of calling foreign code. */
  datatype Call<T> = Returned(value: T) | Threw(e: Exc)

  /** Whether `SCRAPY_POET_CACHE` is set, and `SCRAPY_POET_CACHE_ERRORS`. */
  datatype CacheConfig = NoCache | CacheOn(cachingErrors: bool)

  /** A persistent cache entry: serialized leaves, or a cached exception. */
  datatype CacheEntry = Stored(leaves: seq<(Tag, Json)>) | StoredError(e: Exc)

  /** Everything fixed for one `build_instances_from_providers` call.
      `requestFingerprint` is web-poet's `request_fingerprint(request)`;
      `invoke(i, asked)` calls provider `i` with the set of classes asked. */
  datatype Env = Env(
    providers: seq<Provider>,
    cache: CacheConfig,
    requestId: nat,
    requestFingerprint: string,
    invoke: (nat, set<Key>) -> Call<seq<ProvidedObj>>,
    serialize: seq<ProvidedObj> -> seq<(Tag, Json)>,
    deserialize: (Tag, Json) -> ProvidedObj)

  /** The instances built so far, the request-scoped weak cache, the
      persistent cache, the stats, and two logs: the provider calls made
      (provider, classes asked) and the keys each provider contributed. */
  datatype State = State(
    instances: map<Key, Value>,
    weak: map<nat, map<Key, Value>>,
    store: map<string, CacheEntry>,
    stats: Stats,
    invoked: seq<(nat, set<Key>)>,
    claims: seq<(nat, set<Key>)>)

  /** Finished, or raised `e` after the side effects recorded in `st`. */
  datatype Run = Done(st: State) | Failed(st: State, e: Exc)

  /** The persistent cache key of a provider for a request. */
  function CacheKey(name: string, fingerprint: string): string {
    name + "_" + fingerprint
  }

  /** `provided_classes` for provider `i`: the plan types it declares that
      no earlier provider has produced. */
  function Asked(env: Env, deps: set<Key>, i: nat, instances: map<Key, Value>): set<Key>
    requires i < |env.providers|
  {
    (set c | c in deps && env.providers[i].isProvided(c)) - instances.Keys
  }

  /** The result of looking a key up in the persistent cache. */
  datatype Lookup = NotLooked | Miss | HitData(leaves: seq<(Tag, Json)>) | HitError(e: Exc)

  function LookUp(env: Env, key: string, st: State): (Lookup, State) {
    if env.cache.NoCache? then (NotLooked, st)
    else if key !in st.store then (Miss, st.(stats := IncValue(st.stats, "poet/cache/miss")))
    else
      var st1 := st.(stats := IncValue(st.stats, "poet/cache/hit"));
      match st.store[key]
      case StoredError(e) => (HitError(e), st1)
      case Stored(leaves) => (HitData(leaves), st1)
  }

  function Deserialize(env: Env, leaves: seq<(Tag, Json)>): (objs: seq<ProvidedObj>)
    ensures |objs| == |leaves|
  {
    seq(|leaves|, j requires 0 <= j < |leaves| => env.deserialize(leaves[j].0, leaves[j].1))
  }

  /** Merging a provider's objects into `instances` and into the weak
      cache entry of request `rid`, and logging what provider `i` contributed. */
  function Merge(rid: nat, i: nat, byType: map<Key, Value>, st: State): State {
    var prev := if rid in st.weak then st.weak[rid] else map[];
    st.(instances := st.instances + byType,
        weak := st.weak[rid := prev + byType],
        claims := st.claims + [(i, byType.Keys)])
  }

  /** The undeclared-type check, then the merge, then storing a fresh
      result in the persistent cache. */
  function Accept(env: Env, i: nat, asked: set<Key>, objs: seq<ProvidedObj>, cacheHit: bool, key: string, st: State): Run {
    var byType := ObjsByType(objs);
    if !(byType.Keys <= asked) then Failed(st, UndeclaredProvidedTypeError(byType.Keys - asked))
    else
      var st1 := Merge(env.requestId, i, byType, st);
      if env.cache.CacheOn? && !cacheHit then
        Done(st1.(store := st1.store[key := Stored(env.serialize(objs))],
                  stats := IncValue(st1.stats, "poet/cache/firsthand")))
      else Done(st1)
  }

  /** Calling provider `i`, and caching an exception it raises when errors
      are cached. */
  function CallProvider(env: Env, i: nat, asked: set<Key>, key: string, cacheHit: bool, st: State): Run {
    var st1 := st.(invoked := st.invoked + [(i, asked)]);
    match env.invoke(i, asked)
    case Threw(e) =>
      if env.cache.CacheOn? && env.cache.cachingErrors then
        Failed(st1.(store := st1.store[key := StoredError(e)],
                    stats := IncValue(st1.stats, "poet/cache/firsthand")), e)
      else Failed(st1, e)
    case Returned(objs) => Accept(env, i, asked, objs, cacheHit, key, st1)
  }

  /** After the cache lookup: re-raise a cached exception, use non-empty
      cached data, or call the provider. */
  function AfterLookUp(env: Env, i: nat, asked: set<Key>, key: string, found: Lookup, st: State): Run {
    if found.HitError? then Failed(st, found.e)
    else
      var cached := if found.HitData? then Deserialize(env, found.leaves) else [];
      if cached != [] then Accept(env, i, asked, cached, true, key, st)
      else CallProvider(env, i, asked, key, found.HitData?, st)
  }

  /** One iteration of the provider loop of `build_instances_from_providers`. */
  function RunProvider(env: Env, deps: set<Key>, i: nat, st: State): Run
    requires i < |env.providers|
  {
    ProviderStep(env, i, Asked(env, deps, i, st.instances), st)
  }

  /** The loop body once the classes to ask provider `i` for are known. */
  function ProviderStep(env: Env, i: nat, asked: set<Key>, st: State): Run
    requires i < |env.providers|
  {
    var p := env.providers[i];
    if asked == {} then Done(st)
    else if env.cache.CacheOn? && p.name == "" then
      Failed(st, NotImplementedError("The provider must have a `name` defined if you want to use the cache."))
    else
      var key := CacheKey(p.name, env.requestFingerprint);
      var looked := LookUp(env, key, st);
      AfterLookUp(env, i, asked, key, looked.0, looked.1)
  }

  /** The provider loop from provider `i` on; the first exception stops it. */
  function RunProviders(env: Env, deps: set<Key>, i: nat, st: State): Run
    decreases |env.providers| - i
  {
    if i >= |env.providers| then Done(st)
    else
      match RunProvider(env, deps, i, st)
      case Failed(s, e) => Failed(s, e)
      case Done(s) => RunProviders(env, deps, i + 1, s)
  }

  /** `build_instances_from_providers`: starts from no instances. */
  function BuildInstancesFromProviders(
    env: Env, plan: Plan, weak: map<nat, map<Key, Value>>, store: map<string, CacheEntry>, stats: Stats): Run
  {
    RunProviders(env, DepsSet(plan), 0, State(map[], weak, store, stats, [], []))
  }

  // --- the cache protocol, one provider at a time -----------------------

  /** With the cache on, a provider without a name cannot be used. */
  lemma CacheNeedsProviderName(env: Env, deps: set<Key>, i: nat, st: State)
    requires i < |env.providers| && env.cache.CacheOn? && env.providers[i].name == ""
    requires Asked(env, deps, i, st.instances) != {}
    ensures RunProvider(env, deps, i, st).Failed?
    ensures RunProvider(env, deps, i, st).e.NotImplementedError?
    ensures RunProvider(env, deps, i, st).st == st
  {
  }

  /** A provider with nothing left to provide is neither called nor looked up. */
  lemma NothingAskedNothingDone(env: Env, deps: set<Key>, i: nat, st: State)
    requires i < |env.providers| && Asked(env, deps, i, st.instances) == {}
    ensures RunProvider(env, deps, i, st) == Done(st)
  {
  }

  /** A hit with non-empty stored data skips the provider and stores nothing. */
  lemma CacheHitSkipsProvider(env: Env, deps: set<Key>, i: nat, st: State)
    requires i < |env.providers| && env.cache.CacheOn? && env.providers[i].name != ""
    requires Asked(env, deps, i, st.instances) != {}
    requires var key := CacheKey(env.providers[i].name, env.requestFingerprint);
      key in st.store && st.store[key].Stored? && st.store[key].leaves != []
    ensures var r := RunProvider(env, deps, i, st);
      && r.st.invoked == st.invoked
      && r.st.store == st.store
      && r.st.stats == IncValue(st.stats, "poet/cache/hit")
    ensures var r := RunProvider(env, deps, i, st);
      var leaves := st.store[CacheKey(env.providers[i].name, env.requestFingerprint)].leaves;
      r.Done? ==> r.st.instances == st.instances + ObjsByType(Deserialize(env, leaves))
  {
  }

  /** Corrected: a hit on a cached exception counts the hit and raises the
      exception again, without calling the provider. */
  lemma CachedErrorIsRaised(env: Env, deps: set<Key>, i: nat, st: State)
    requires i < |env.providers| && env.cache.CacheOn? && env.providers[i].name != ""
    requires Asked(env, deps, i, st.instances) != {}
    requires var key := CacheKey(env.providers[i].name, env.requestFingerprint);
      key in st.store && st.store[key].StoredError?
    ensures var r := RunProvider(env, deps, i, st);
      && r.Failed?
      && r.e == st.store[CacheKey(env.providers[i].name, env.requestFingerprint)].e
      && r.st.invoked == st.invoked && r.st.store == st.store
      && r.st.stats == IncValue(st.stats, "poet/cache/hit")
  {
  }

  /** The lookup as written: `.items()` is called on the stored value
      before the hit is counted, so a stored exception raises
      `AttributeError` there, and nothing is counted. */
  function LookUpAsWritten(env: Env, key: string, st: State): (Lookup, State) {
    if env.cache.CacheOn? && key in st.store && st.store[key].StoredError? then
      (HitError(AttributeError("object has no attribute 'items'")), st)
    else LookUp(env, key, st)
  }

  /** As written, a hit on a cached exception raises `AttributeError`
      instead of the cached exception, and counts no hit. */
  lemma CachedErrorAsWritten(env: Env, deps: set<Key>, i: nat, st: State)
    requires i < |env.providers| && env.cache.CacheOn? && env.providers[i].name != ""
    requires Asked(env, deps, i, st.instances) != {}
    requires var key := CacheKey(env.providers[i].name, env.requestFingerprint);
      key in st.store && st.store[key].StoredError? && !st.store[key].e.AttributeError?
    ensures var key := CacheKey(env.providers[i].name, env.requestFingerprint);
      var looked := LookUpAsWritten(env, key, st);
      var r := AfterLookUp(env, i, Asked(env, deps, i, st.instances), key, looked.0, looked.1);
      && r.Failed? && r.e.AttributeError? && r.e != st.store[key].e
      && r.st.stats == st.stats
      && r != RunProvider(env, deps, i, st)
  {
  }

  /** On a miss the provider is called with what it is asked for. */
  lemma CacheMissCallsProvider(env: Env, deps: set<Key>, i: nat, st: State)
    requires i < |env.providers| && env.cache.CacheOn? && env.providers[i].name != ""
    requires Asked(env, deps, i, st.instances) != {}
    requires CacheKey(env.providers[i].name, env.requestFingerprint) !in st.store
    ensures RunProvider(env, deps, i, st).st.invoked == st.invoked + [(i, Asked(env, deps, i, st.instances))]
    ensures RunProvider(env, deps, i, st).st.stats["poet/cache/miss"] == Counter(st.stats, "poet/cache/miss") + 1
  {
  }

  /** After a miss, an exception is stored only when errors are cached, and
      it is re-raised either way. */
  lemma CacheMissError(env: Env, deps: set<Key>, i: nat, st: State)
    requires i < |env.providers| && env.cache.CacheOn? && env.providers[i].name != ""
    requires Asked(env, deps, i, st.instances) != {}
    requires CacheKey(env.providers[i].name, env.requestFingerprint) !in st.store
    requires env.invoke(i, Asked(env, deps, i, st.instances)).Threw?
    ensures var r := RunProvider(env, deps, i, st);
      var e := env.invoke(i, Asked(env, deps, i, st.instances)).e;
      var key := CacheKey(env.providers[i].name, env.requestFingerprint);
      && r.Failed? && r.e == e
      && (env.cache.cachingErrors ==> r.st.store == st.store[key := StoredError(e)])
      && (!env.cache.cachingErrors ==> r.st.store == st.store)
  {
  }

  /** After a miss, a result is stored only once it passed the
      undeclared-type check. */
  lemma CacheMissResult(env: Env, deps: set<Key>, i: nat, st: State)
    requires i < |env.providers| && env.cache.CacheOn? && env.providers[i].name != ""
    requires Asked(env, deps, i, st.instances) != {}
    requires CacheKey(env.providers[i].name, env.requestFingerprint) !in st.store
    requires env.invoke(i, Asked(env, deps, i, st.instances)).Returned?
    ensures var r := RunProvider(env, deps, i, st);
      var objs := env.invoke(i, Asked(env, deps, i, st.instances)).value;
      var key := CacheKey(env.providers[i].name, env.requestFingerprint);
      && (r.Done? ==> r.st.store == st.store[key := Stored(env.serialize(objs))])
      && (r.Failed? ==> r.e.UndeclaredProvidedTypeError? && r.st.store == st.store)
  {
  }

  /** What a miss stores is what a later hit yields: once provider `i` has
      run on a miss, a later run of it with the same request fingerprint and
      that store reads the objects back without calling the provider, as
      long as `deserialize_leaf` inverts `serialize_leaf` on them; only an
      empty result makes the provider be called again. */
  lemma MissThenHitRoundTrip(env: Env, deps: set<Key>, i: nat, st: State, deps2: set<Key>, st2: State)
    requires i < |env.providers| && env.cache.CacheOn? && env.providers[i].name != ""
    requires Asked(env, deps, i, st.instances) != {}
    requires CacheKey(env.providers[i].name, env.requestFingerprint) !in st.store
    requires env.invoke(i, Asked(env, deps, i, st.instances)).Returned?
    requires RunProvider(env, deps, i, st).Done?
    requires var objs := env.invoke(i, Asked(env, deps, i, st.instances)).value;
      Deserialize(env, env.serialize(objs)) == objs
    requires st2.store == RunProvider(env, deps, i, st).st.store
    requires Asked(env, deps2, i, st2.instances) != {}
    ensures var objs := env.invoke(i, Asked(env, deps, i, st.instances)).value;
      var asked2 := Asked(env, deps2, i, st2.instances);
      var r2 := RunProvider(env, deps2, i, st2);
      && (objs != [] ==>
            && r2.st.invoked == st2.invoked
            && r2.st.store == st2.store
            && r2.st.stats == IncValue(st2.stats, "poet/cache/hit")
            && (r2.Done? <==> ObjsByType(objs).Keys <= asked2)
            && (r2.Done? ==> r2.st.instances == st2.instances + ObjsByType(objs)))
      && (objs == [] ==> r2.st.invoked == st2.invoked + [(i, asked2)])
  {
    var objs := env.invoke(i, Asked(env, deps, i, st.instances)).value;
    var key := CacheKey(env.providers[i].name, env.requestFingerprint);
    CacheMissResult(env, deps, i, st);
    assert st2.store[key] == Stored(env.serialize(objs));
    var asked2 := Asked(env, deps2, i, st2.instances);
    var looked := LookUp(env, key, st2);
    assert looked == (HitData(env.serialize(objs)), st2.(stats := IncValue(st2.stats, "poet/cache/hit")));
    assert RunProvider(env, deps2, i, st2) == AfterLookUp(env, i, asked2, key, looked.0, looked.1);
    if objs != [] {
      assert AfterLookUp(env, i, asked2, key, looked.0, looked.1) == Accept(env, i, asked2, objs, true, key, looked.1);
    } else {
      assert AfterLookUp(env, i, asked2, key, looked.0, looked.1) == CallProvider(env, i, asked2, key, true, looked.1);
    }
  }

  /** Without a cache nothing is looked up or stored. */
  lemma NoCacheNoStore(env: Env, deps: set<Key>, i: nat, st: State)
    requires i < |env.providers| && env.cache.NoCache?
    ensures RunProvider(env, deps, i, st).st.store == st.store
    ensures RunProvider(env, deps, i, st).st.stats == st.stats
  {
  }

  /** A provider called (without a cache, or on a cache miss) that returns a
      class it was not asked for raises, and adds nothing. */
  lemma UndeclaredTypeRaises(env: Env, deps: set<Key>, i: nat, st: State)
    requires i < |env.providers|
    requires env.cache.NoCache? ||
      (env.providers[i].name != "" && CacheKey(env.providers[i].name, env.requestFingerprint) !in st.store)
    requires Asked(env, deps, i, st.instances) != {}
    requires env.invoke(i, Asked(env, deps, i, st.instances)).Returned?
    requires !(ObjsByType(env.invoke(i, Asked(env, deps, i, st.instances)).value).Keys <= Asked(env, deps, i, st.instances))
    ensures RunProvider(env, deps, i, st).Failed?
    ensures RunProvider(env, deps, i, st).e.UndeclaredProvidedTypeError?
    ensures RunProvider(env, deps, i, st).st.instances == st.instances
  {
    var asked := Asked(env, deps, i, st.instances);
  }

  // --- invariants of the provider loop, proved in ProviderLoop ---------

  /** The union of the key sets in a claim log. */
  function ClaimedKeys(claims: seq<(nat, set<Key>)>): set<Key> {
    if claims == [] then {} else ClaimedKeys(claims[..|claims| - 1]) + claims[|claims| - 1].1
  }

  /** Provider `c.0` declares every key of claim `c`, all of them plan types. */
  ghost predicate ClaimDeclared(env: Env, deps: set<Key>, c: (nat, set<Key>)) {
    c.0 < |env.providers| && c.1 <= deps && forall k | k in c.1 :: env.providers[c.0].isProvided(k)
  }

  /** Claims come from providers in list order, each provider contributes
      plan types it declares, no type is contributed twice, and together
      the claims are exactly the instances built. */
  ghost predicate ClaimsOk(env: Env, deps: set<Key>, claims: seq<(nat, set<Key>)>, instances: map<Key, Value>) {
    && (forall a | 0 <= a < |claims| :: ClaimDeclared(env, deps, claims[a]))
    && (forall a, b | 0 <= a < b < |claims| :: claims[a].0 < claims[b].0)
    && (forall a, b | 0 <= a < b < |claims| :: claims[a].1 !! claims[b].1)
    && ClaimedKeys(claims) == instances.Keys
  }

  /** Every provider call asked for something, and only for plan types the
      provider declares. */
  ghost predicate InvocationsOk(env: Env, deps: set<Key>, invoked: seq<(nat, set<Key>)>) {
    forall c | c in invoked :: c.0 < |env.providers| && c.1 != {} && c.1 <= deps &&
      forall k | k in c.1 :: env.providers[c.0].isProvided(k)
  }

  /** The request's weak cache holds every instance built so far. */
  ghost predicate WeakHoldsInstances(rid: nat, weak: map<nat, map<Key, Value>>, instances: map<Key, Value>) {
    forall k | k in instances :: rid in weak && k in weak[rid] && weak[rid][k] == instances[k]
  }

  /** No instance is ever replaced, the request's weak entry only grows,
      and other requests' weak entries are untouched. */
  ghost predicate Grows(rid: nat, st: State, st': State) {
    && (forall k | k in st.instances :: k in st'.instances && st'.instances[k] == st.instances[k])
    && (rid in st.weak ==> rid in st'.weak && st.weak[rid].Keys <= st'.weak[rid].Keys)
    && (forall r | r in st.weak && r != rid :: r in st'.weak && st'.weak[r] == st.weak[r])
  }

  /** The invariants of the provider loop at provider `i` about claims and calls. */
  ghost predicate LoopOk(env: Env, deps: set<Key>, i: nat, st: State) {
    && ClaimsOk(env, deps, st.claims, st.instances)
    && InvocationsOk(env, deps, st.invoked)
    && NoBuilderKeys(st.instances)
    && (forall a | 0 <= a < |st.claims| :: st.claims[a].0 < i)
  }

  /** Every provider call so far was to a provider before position `bound`. */
  ghost predicate CalledBefore(bound: nat, invoked: seq<(nat, set<Key>)>) {
    forall a | 0 <= a < |invoked| :: invoked[a].0 < bound
  }

  /** No provider was asked for a class that an earlier provider had
      already contributed. */
  ghost predicate AskedFresh(invoked: seq<(nat, set<Key>)>, claims: seq<(nat, set<Key>)>) {
    forall a, b | 0 <= a < |invoked| && 0 <= b < |claims| && claims[b].0 < invoked[a].0 ::
      invoked[a].1 !! claims[b].1
  }

  /** The invariant of the provider loop about the weak cache, and how a
      step relates the states before and after it. */
  ghost predicate WeakStep(rid: nat, st: State, r: Run) {
    r.Done? ==> WeakHoldsInstances(rid, r.st.weak, r.st.instances) && Grows(rid, st, r.st)
  }

  /** What the provider loop keeps, read off a finished or failed run. */
  ghost predicate RunOk(env: Env, deps: set<Key>, r: Run) {
    && InvocationsOk(env, deps, r.st.invoked)
    && (r.Done? ==> ClaimsOk(env, deps, r.st.claims, r.st.instances) && NoBuilderKeys(r.st.instances))
  }

  /** Instances are never filed under a custom builder itself. */
  ghost predicate NoBuilderKeys(m: map<Key, Value>) {
    forall x | x in m :: !x.BuilderKey?
  }

  // ---------------------------------------------------------------------
  // Building the remaining plan entries
  // ---------------------------------------------------------------------

  /** `kwargs_spec.kwargs(instances)`: `KeyError` on the first missing key. */
  function Kwargs(spec: seq<(string, Key)>, inst: map<Key, Value>): (r: Result<map<string, Value>, Exc>)
    ensures r.Ok? <==> forall p | p in spec :: p.1 in inst
    ensures r.Ok? ==> r.value.Keys == set p | p in spec :: p.0
    ensures r.Ok? ==> forall a | a in r.value :: exists p | p in spec :: p.0 == a && r.value[a] == inst[p.1]
  {
    if spec == [] then Ok(map[])
    else if spec[0].1 !in inst then Err(MissingInstance(spec[0].1))
    else
      match Kwargs(spec[1..], inst)
      case Err(e) => Err(e)
      case Ok(rest) =>
        assert spec == [spec[0]] + spec[1..];
        Ok(map[spec[0].0 := inst[spec[0].1]] + rest)
  }

  /** The key the instance of a plan entry is stored under. */
  function ResultKey(node: Key): Key {
    if node.BuilderKey? then TypeKey(node.result) else node
  }

  /** The class the stats counter of a built entry is named after. */
  function ResultTag(node: Key): Tag {
    match node
    case TypeKey(c) => c
    case AnnotatedKey(c, _) => c
    case BuilderKey(_, r) => r
    case FunctionKey(n) => n
  }

  /** Awaits the custom builder `id` on its keyword arguments. */
  type Factory = (nat, map<string, Value>) -> Call<Value>

  /** The exception, if any, the `__init__` of class `cls` raises for the
      keyword arguments `kw`. */
  type Init = (Tag, map<string, Value>) -> Option<Exc>

  /** The instances, the stats, and the positions of the plan entries built. */
  datatype Built = Built(instances: map<Key, Value>, stats: Stats, built: seq<nat>)

  datatype BuildRun = BuildDone(b: Built) | BuildFailed(stats: Stats, e: Exc)

  /** What calling class `cls` with keyword arguments `kw` gives: the new
      instance, or the exception its `__init__` (an attrs validator, say)
      raises, which `init(cls, kw)` names. */
  function Construct(cls: Tag, kw: map<string, Value>, init: Init): Call<Value> {
    match init(cls, kw)
    case Some(e) => Threw(e)
    case None => Returned(Made(cls, kw))
  }

  /** What plan entry `node` gives for the arguments `kw`. */
  function MakeEntry(node: Key, kw: map<string, Value>, factory: Factory, init: Init): Call<Value> {
    if node.BuilderKey? then factory(node.id, kw) else Construct(ResultTag(node), kw, init)
  }

  /** The loop of `build_instances` from plan entry `k` on. `factory(id, kw)`
      awaits the custom builder `id` (an item's `to_item`, a `DynamicDeps`);
      any other entry is its class called on its arguments. */
  function BuildRemaining(steps: seq<Step>, k: nat, b: Built, factory: Factory, init: Init): BuildRun
    decreases |steps| - k
  {
    if k >= |steps| then BuildDone(b)
    else
      var node := steps[k].node;
      if node in b.instances then BuildRemaining(steps, k + 1, b, factory, init)
      else
        match Kwargs(steps[k].kwargs, b.instances)
        case Err(e) => BuildFailed(b.stats, e)
        case Ok(kw) =>
          match MakeEntry(node, kw, factory, init)
          case Threw(e) => BuildFailed(b.stats, e)
          case Returned(v) =>
            BuildRemaining(steps, k + 1,
              Built(b.instances[ResultKey(node) := v],
                    IncValue(b.stats, "poet/injector/" + ResultTag(node)),
                    b.built + [k]), factory, init)
  }

  /** One plain-class entry of the build loop: the class called on the
      planned arguments is stored under the entry and counted, and an
      exception from its `__init__` ends the build with the stats as they
      were. */
  lemma ClassEntryStep(steps: seq<Step>, k: nat, b: Built, factory: Factory, init: Init)
    requires k < |steps| && !steps[k].node.BuilderKey? && steps[k].node !in b.instances
    requires Kwargs(steps[k].kwargs, b.instances).Ok?
    ensures var node := steps[k].node;
      var kw := Kwargs(steps[k].kwargs, b.instances).value;
      var raised := init(ResultTag(node), kw);
      && (raised.Some? ==> BuildRemaining(steps, k, b, factory, init) == BuildFailed(b.stats, raised.value))
      && (raised.None? ==>
            BuildRemaining(steps, k, b, factory, init) ==
            BuildRemaining(steps, k + 1,
              Built(b.instances[node := Made(ResultTag(node), kw)],
                    IncValue(b.stats, "poet/injector/" + ResultTag(node)), b.built + [k]), factory, init))
  {
  }

  /** Every argument of entry `k` is an earlier entry's result or in `have`. */
  ghost predicate DependencyOrdered(steps: seq<Step>, have: set<Key>) {
    forall k, p | 0 <= k < |steps| && p in steps[k].kwargs ::
      p.1 in have || exists j | 0 <= j < k :: ResultKey(steps[j].node) == p.1
  }

  /** No custom builder in the plan raises. */
  ghost predicate FactoriesSucceed(steps: seq<Step>, factory: Factory) {
    forall k, kw | 0 <= k < |steps| && steps[k].node.BuilderKey? :: factory(steps[k].node.id, kw).Returned?
  }

  /** No class the plan constructs raises from its `__init__`. */
  ghost predicate InitsSucceed(steps: seq<Step>, init: Init) {
    forall k, kw | 0 <= k < |steps| && !steps[k].node.BuilderKey? :: init(ResultTag(steps[k].node), kw).None?
  }

  /** With the plan in dependency order and no builder or constructor
      raising, every plan entry ends up built, and nothing present before
      is removed. */
  lemma {:induction false} BuildRemainingCompletes(
    steps: seq<Step>, k: nat, b: Built, have: set<Key>, factory: Factory, init: Init)
    requires k <= |steps|
    requires DependencyOrdered(steps, have) && FactoriesSucceed(steps, factory) && InitsSucceed(steps, init)
    requires have <= b.instances.Keys && NoBuilderKeys(b.instances)
    requires forall j | 0 <= j < k :: ResultKey(steps[j].node) in b.instances
    ensures var r := BuildRemaining(steps, k, b, factory, init);
      && r.BuildDone?
      && (forall j | 0 <= j < |steps| :: ResultKey(steps[j].node) in r.b.instances)
      && b.instances.Keys <= r.b.instances.Keys
      && NoBuilderKeys(r.b.instances)
    decreases |steps| - k
  {
    if k >= |steps| {
      return;
    }
    var node := steps[k].node;
    if node in b.instances {
      BuildRemainingCompletes(steps, k + 1, b, have, factory, init);
      return;
    }
    forall p | p in steps[k].kwargs
      ensures p.1 in b.instances
    {
      if p.1 !in have {
        var j :| 0 <= j < k && ResultKey(steps[j].node) == p.1;
      }
    }
    var kw := Kwargs(steps[k].kwargs, b.instances).value;
    var made := MakeEntry(node, kw, factory, init);
    var b' := Built(b.instances[ResultKey(node) := made.value],
                    IncValue(b.stats, "poet/injector/" + ResultTag(node)),
                    b.built + [k]);
    BuildRemainingCompletes(steps, k + 1, b', have, factory, init);
  }

  /** `after` extends `before` by positions from `k` on, strictly
      increasing, and lists exactly the entries from `k` on whose class is
      not in `have`. */
  ghost predicate PositionsFrom(steps: seq<Step>, k: nat, before: seq<nat>, after: seq<nat>, have: set<Key>) {
    && |before| <= |after| && after[..|before|] == before
    && (forall x | |before| <= x < |after| :: k <= after[x] < |steps| && steps[after[x]].node !in have)
    && (forall j | k <= j < |steps| && steps[j].node !in have :: j in after[|before|..])
    && (forall x, y | |before| <= x < y < |after| :: after[x] < after[y])
  }

  /** Entries after `k` that are not built under `newKey` are still
      missing once `k` is built, so the later positions cover them. */
  lemma LaterPositionsCovered(
    steps: seq<Step>, k: nat, n: nat, res: seq<nat>, have: set<Key>, newKey: Key)
    requires k < |steps| && newKey == ResultKey(steps[k].node)
    requires n < |res| && res[n] == k
    requires forall i, j | 0 <= i < j < |steps| :: ResultKey(steps[i].node) != ResultKey(steps[j].node)
    requires forall j | k + 1 <= j < |steps| && steps[j].node !in have + {newKey} :: j in res[n + 1..]
    ensures forall j | k <= j < |steps| && steps[j].node !in have :: j in res[n..]
  {
    forall j | k <= j < |steps| && steps[j].node !in have
      ensures j in res[n..]
    {
      if j == k {
        assert res[n..][0] == k;
      } else {
        assert steps[j].node != newKey by {
          assert ResultKey(steps[k].node) != ResultKey(steps[j].node);
          if !steps[j].node.BuilderKey? {
            assert ResultKey(steps[j].node) == steps[j].node;
          }
        }
        var x :| 0 <= x < |res[n + 1..]| && res[n + 1..][x] == j;
        assert res[n..][x + 1] == j;
      }
    }
  }

  /** The positions built from entry `k` on, in terms of those built from
      `k + 1` on once entry `k` has been built under `newKey`. */
  lemma PositionsStep(
    steps: seq<Step>, k: nat, prior: seq<nat>, res: seq<nat>, have: set<Key>, newKey: Key)
    requires k < |steps| && steps[k].node !in have && newKey == ResultKey(steps[k].node)
    requires forall i, j | 0 <= i < j < |steps| :: ResultKey(steps[i].node) != ResultKey(steps[j].node)
    requires PositionsFrom(steps, k + 1, prior + [k], res, have + {newKey})
    ensures PositionsFrom(steps, k, prior, res, have)
  {
    var n := |prior|;
    assert res[..n + 1] == prior + [k];
    assert res[..n] == (prior + [k])[..n] == prior;
    assert res[n] == (prior + [k])[n] == k;
    forall x | n <= x < |res|
      ensures k <= res[x] < |steps| && steps[res[x]].node !in have
    {
      if x > n {
        assert k + 1 <= res[x] < |steps| && steps[res[x]].node !in have + {newKey};
      }
    }
    forall x, y | n <= x < y < |res|
      ensures res[x] < res[y]
    {
      assert k + 1 <= res[y];
      if x > n {
        assert n + 1 <= x < y < |res|;
      }
    }
    LaterPositionsCovered(steps, k, n, res, have, newKey);
  }

  /** Skipping an entry whose class is already present keeps the positions. */
  lemma PositionsSkip(steps: seq<Step>, k: nat, prior: seq<nat>, res: seq<nat>, have: set<Key>)
    requires k < |steps| && steps[k].node in have
    requires PositionsFrom(steps, k + 1, prior, res, have)
    ensures PositionsFrom(steps, k, prior, res, have)
  {
  }

  /** The plan entries are built in plan order, and when no two entries
      build the same key, exactly those not already present are built. */
  lemma {:induction false} BuiltPositions(steps: seq<Step>, k: nat, b: Built, factory: Factory, init: Init)
    requires k <= |steps|
    requires forall i, j | 0 <= i < j < |steps| :: ResultKey(steps[i].node) != ResultKey(steps[j].node)
    ensures var r := BuildRemaining(steps, k, b, factory, init);
      r.BuildDone? ==> PositionsFrom(steps, k, b.built, r.b.built, b.instances.Keys)
    decreases |steps| - k
  {
    if k >= |steps| {
      return;
    }
    var node := steps[k].node;
    if node in b.instances {
      BuiltPositions(steps, k + 1, b, factory, init);
      var r := BuildRemaining(steps, k + 1, b, factory, init);
      if r.BuildDone? {
        PositionsSkip(steps, k, b.built, r.b.built, b.instances.Keys);
      }
      return;
    }
    var kws := Kwargs(steps[k].kwargs, b.instances);
    if kws.Err? {
      return;
    }
    var made := MakeEntry(node, kws.value, factory, init);
    if made.Threw? {
      return;
    }
    var b' := Built(b.instances[ResultKey(node) := made.value],
                    IncValue(b.stats, "poet/injector/" + ResultTag(node)),
                    b.built + [k]);
    assert BuildRemaining(steps, k, b, factory, init) == BuildRemaining(steps, k + 1, b', factory, init);
    BuiltPositions(steps, k + 1, b', factory, init);
    var r := BuildRemaining(steps, k + 1, b', factory, init);
    if r.BuildDone? {
      assert b'.instances.Keys == b.instances.Keys + {ResultKey(node)};
      PositionsStep(steps, k, b.built, r.b.built, b.instances.Keys, ResultKey(node));
    }
  }

  // ---------------------------------------------------------------------
  // The whole resolution pass
  // ---------------------------------------------------------------------

  /** What a resolution pass leaves behind: both caches, the stats, and the
      instances (or the exception that ended the pass). */
  datatype Outcome = Outcome(
    weak: map<nat, map<Key, Value>>,
    store: map<string, CacheEntry>,
    stats: Stats,
    result: Result<map<Key, Value>, Exc>)

  /** `build_instances`: the providers first, then the rest of the plan. */
  function BuildInstances(
    env: Env, plan: Plan, weak: map<nat, map<Key, Value>>, store: map<string, CacheEntry>, stats: Stats,
    factory: Factory, init: Init): Outcome
  {
    match BuildInstancesFromProviders(env, plan, weak, store, stats)
    case Failed(st, e) => Outcome(st.weak, st.store, st.stats, Err(e))
    case Done(st) =>
      match BuildRemaining(plan.deps, 0, Built(st.instances, st.stats, []), factory, init)
      case BuildFailed(stats', e) => Outcome(st.weak, st.store, stats', Err(e))
      case BuildDone(b) => Outcome(st.weak, st.store, b.stats, Ok(b.instances))
  }

  /** `build_callback_dependencies`: the callback's keyword arguments. */
  function BuildCallbackDependencies(
    env: Env, plan: Plan, weak: map<nat, map<Key, Value>>, store: map<string, CacheEntry>, stats: Stats,
    factory: Factory, init: Init): (Outcome, Result<map<string, Value>, Exc>)
  {
    var o := BuildInstances(env, plan, weak, store, stats, factory, init);
    match o.result
    case Err(e) => (o, Err(e))
    case Ok(instances) => (o, Kwargs(plan.target.kwargs, instances))
  }
}
