/** `scrapy_poet/utils.py` of the first scrapy_poet generation: the
    "is the response going to be used?" decision over a global provider
    map, provider lookup along a plan, the instance-building loop and the
    first `callback_for`. */
module LegacyUtils {
  import opened Wrappers
  import opened Scrapy
  import opened Injection
  import opened ProviderMaps
  import Api

  const IssubclassArgMsg: string := "issubclass() arg 1 must be a class"

  /** `is_callback_using_response`. The raw annotation goes to `issubclass`,
      which raises `TypeError` when it is not a class. */
  function IsCallbackUsingResponse(cb: Callback, isDummySubclass: Tag -> bool): (r: Result<bool, Exc>)
    ensures cb.marked ==> r == Ok(false)
    ensures !cb.marked && cb.params == [] ==> r == Err(StopIteration)
    ensures !cb.marked && cb.params != [] ==>
      var first := cb.params[0];
      && (r.Err? <==> !first.variadic && first.annotation.Some? && first.annotation.value.OtherHint?)
      && (r.Err? ==> r.error == TypeError(IssubclassArgMsg))
      && (r == Ok(false) <==> !first.variadic && AnnotatedAsDummy(first, isDummySubclass))
  {
    if cb.marked then Ok(false)
    else if cb.params == [] then Err(StopIteration)
    else
      var first := cb.params[0];
      if first.variadic then Ok(true)
      else if first.annotation.None? then Ok(true)
      else
        match first.annotation.value
        case ClassHint(c) => Ok(!isDummySubclass(c))
        case OtherHint(_) => Err(TypeError(IssubclassArgMsg))
  }

  /** `get_type_hints` gives the first parameter's annotation back as
      written: it resolves and is not a string naming a class. */
  predicate FirstHintAsWritten(cb: Callback) {
    cb.params != [] ==>
      && cb.hints.Ok?
      && (cb.params[0].name in cb.hints.value <==> cb.params[0].annotation.Some?)
      && (cb.params[0].annotation.Some? ==> cb.hints.value[cb.params[0].name] == cb.params[0].annotation.value)
  }

  /** When the first parameter's hint resolves to its annotation as written,
      the first generation and the current injector decide alike, except
      that the first raises on an annotation that is not a class, and the
      current one treats a `DummyResponse` annotation on `parse` reached
      through `callback=None` as using the response before Scrapy 2.8. */
  lemma GenerationsAgreeOnResponseUse(
    cb: Callback, raw: RawCallback, scrapyAtLeast28: bool, isDummySubclass: Tag -> bool)
    requires FirstHintAsWritten(cb)
    ensures IsCallbackUsingResponse(cb, isDummySubclass) !=
            IsCallbackRequiringScrapyResponse(cb, raw, scrapyAtLeast28, isDummySubclass) <==>
      && !cb.marked && cb.params != [] && !cb.params[0].variadic
      && cb.params[0].annotation.Some?
      && (|| cb.params[0].annotation.value.OtherHint?
          || (AnnotatedAsDummy(cb.params[0], isDummySubclass) && raw == NoneCallback && !scrapyAtLeast28))
  {
  }

  /** A first parameter annotated with a string, such as `"DummyResponse"`
      or any annotation under `from __future__ import annotations`: the
      first generation hands the string to `issubclass` and raises, while
      the current injector reads the class it resolves to. */
  lemma StringAnnotationSplitsGenerations(
    cb: Callback, text: string, raw: RawCallback, scrapyAtLeast28: bool, isDummySubclass: Tag -> bool)
    requires !cb.marked && cb.params != [] && !cb.params[0].variadic
    requires cb.params[0].annotation == Some(OtherHint(text))
    requires FirstHintIsDummy(cb, isDummySubclass)
    ensures IsCallbackUsingResponse(cb, isDummySubclass) == Err(TypeError(IssubclassArgMsg))
    ensures IsCallbackRequiringScrapyResponse(cb, raw, scrapyAtLeast28, isDummySubclass) ==
            Ok(raw == NoneCallback && !scrapyAtLeast28)
  {
  }

  /** An annotation that does not resolve makes the current injector raise
      the error of `get_type_hints`; the first generation never resolves
      annotations and decides on the one written. */
  lemma UnresolvedHintOnlyFailsCurrent(
    cb: Callback, raw: RawCallback, scrapyAtLeast28: bool, isDummySubclass: Tag -> bool,
    hints: map<string, Annotation>)
    requires !cb.marked && cb.params != [] && !cb.params[0].variadic && cb.hints.Err?
    ensures IsCallbackRequiringScrapyResponse(cb, raw, scrapyAtLeast28, isDummySubclass) == Err(cb.hints.error)
    ensures IsCallbackUsingResponse(cb, isDummySubclass) == IsCallbackUsingResponse(cb.(hints := Ok(hints)), isDummySubclass)
  {
  }

  /** `is_provider_using_response`: some possible type of some `__init__`
      argument is a `Response` subclass that is not a `DummyResponse`
      subclass. */
  function IsProviderUsingResponse(args: seq<seq<Tag>>, isResponseSubclass: Tag -> bool, isDummySubclass: Tag -> bool): (r: bool)
    ensures r <==> exists i, t | 0 <= i < |args| && t in args[i] :: isResponseSubclass(t) && !isDummySubclass(t)
  {
    if args == [] then false
    else
      var here := AnyResponseDep(args[0], t => isResponseSubclass(t) && !isDummySubclass(t));
      var rest := IsProviderUsingResponse(args[1..], isResponseSubclass, isDummySubclass);
      assert rest <==> exists i, t | 1 <= i < |args| && t in args[i] :: isResponseSubclass(t) && !isDummySubclass(t) by {
        if rest {
          var i, t :| 0 <= i < |args[1..]| && t in args[1..][i] && isResponseSubclass(t) && !isDummySubclass(t);
          assert args[i + 1] == args[1..][i];
        }
        if exists i, t | 1 <= i < |args| && t in args[i] :: isResponseSubclass(t) && !isDummySubclass(t) {
          var i, t :| 1 <= i < |args| && t in args[i] && isResponseSubclass(t) && !isDummySubclass(t);
          assert args[1..][i - 1] == args[i];
        }
      }
      here || rest
  }

  /** `get_providers(plan)`: the registered provider of each plan entry that
      has one, in plan order. */
  function GetProviders(steps: seq<Step>, registry: ProviderMap): (r: seq<ProviderClass>)
    ensures |r| <= |steps|
    ensures forall p | p in r :: exists s | s in steps :: s.node in registry && registry[s.node] == p
    ensures forall s | s in steps && s.node in registry :: registry[s.node] in r
  {
    if steps == [] then []
    else
      var rest := GetProviders(steps[1..], registry);
      assert forall s | s in steps[1..] :: s in steps;
      if steps[0].node in registry then [registry[steps[0].node]] + rest else rest
  }

  /** Provider lookup distributes over a split plan, so the providers come
      out in plan order. */
  lemma {:induction false} GetProvidersAppend(a: seq<Step>, b: seq<Step>, registry: ProviderMap)
    ensures GetProviders(a + b, registry) == GetProviders(a, registry) + GetProviders(b, registry)
  {
    if a == [] {
      assert a + b == b;
    } else {
      assert (a + b)[1..] == a[1..] + b;
      GetProvidersAppend(a[1..], b, registry);
    }
  }

  /** Some plan entry has a registered provider that uses the response. */
  predicate SomePlanProviderUsesResponse(
    plan: Plan, registry: ProviderMap, isResponseSubclass: Tag -> bool, isDummySubclass: Tag -> bool)
  {
    exists s | s in Steps(plan) ::
      s.node in registry && IsProviderUsingResponse(registry[s.node].initArgs, isResponseSubclass, isDummySubclass)
  }

  /** `is_response_going_to_be_used(request, spider)`, given the plan andi
      builds for the callback. */
  method IsResponseGoingToBeUsed(
    request: Request, spider: Spider, plan: Plan, registry: ProviderMap,
    isResponseSubclass: Tag -> bool, isDummySubclass: Tag -> bool)
    returns (r: Result<bool, Exc>)
    ensures var c := IsCallbackUsingResponse(GetCallback(request, spider), isDummySubclass);
      && (c.Err? ==> r == c)
      && (c.Ok? ==> r.Ok? && (r.value <==> c.value || SomePlanProviderUsesResponse(plan, registry, isResponseSubclass, isDummySubclass)))
  {
    var c := IsCallbackUsingResponse(GetCallback(request, spider), isDummySubclass);
    if c.Err? {
      return c;
    }
    if c.value {
      return Ok(true);
    }
    var providers := GetProviders(Steps(plan), registry);
    var i := 0;
    while i < |providers|
      invariant 0 <= i <= |providers|
      invariant forall j | 0 <= j < i :: !IsProviderUsingResponse(providers[j].initArgs, isResponseSubclass, isDummySubclass)
    {
      if IsProviderUsingResponse(providers[i].initArgs, isResponseSubclass, isDummySubclass) {
        assert providers[i] in providers;
        var s :| s in Steps(plan) && s.node in registry && registry[s.node] == providers[i];
        return Ok(true);
      }
      i := i + 1;
    }
    forall s | s in Steps(plan) && s.node in registry
      ensures !IsProviderUsingResponse(registry[s.node].initArgs, isResponseSubclass, isDummySubclass)
    {
      var j :| 0 <= j < |providers| && providers[j] == registry[s.node];
    }
    return Ok(false);
  }

  /** The loop of `build_instances` from plan entry `k` on. Entries with a
      provider instance come from calling it; every other entry is its
      class called with the keyword arguments built so far, which raises
      what `init` says its `__init__` raises. Nothing is skipped: an entry
      seen twice is built twice. */
  function BuildFrom(steps: seq<Step>, k: nat, inst: map<Key, Value>, provided: set<Key>, call: Key -> Call<Value>, init: Init): (r: Result<map<Key, Value>, Exc>)
    requires k <= |steps|
    requires forall key | key in inst && key in provided :: call(key) == Returned(inst[key])
    requires forall key | key in inst && key !in provided :: inst[key].Made? && inst[key].cls == ResultTag(key)
    ensures r.Ok? ==> r.value.Keys == inst.Keys + (set s | s in steps[k..] :: s.node)
    ensures r.Ok? ==> forall key | key in r.value && key in provided :: call(key) == Returned(r.value[key])
    ensures r.Ok? ==> forall key | key in r.value && key !in provided :: r.value[key].Made? && r.value[key].cls == ResultTag(key)
    ensures k < |steps| && steps[k].node !in provided && Kwargs(steps[k].kwargs, inst).Ok? &&
            init(ResultTag(steps[k].node), Kwargs(steps[k].kwargs, inst).value).Some? ==>
              r == Err(init(ResultTag(steps[k].node), Kwargs(steps[k].kwargs, inst).value).value)
    decreases |steps| - k
  {
    if k == |steps| then
      Ok(inst)
    else
      var node := steps[k].node;
      var made :=
        if node in provided then
          match call(node)
          case Threw(e) => Err(e)
          case Returned(v) => Ok(v)
        else
          match Kwargs(steps[k].kwargs, inst)
          case Err(e) => Err(e)
          case Ok(kw) =>
            match Construct(ResultTag(node), kw, init)
            case Threw(e) => Err(e)
            case Returned(v) => Ok(v);
      match made
      case Err(e) => Err(e)
      case Ok(v) =>
        var r := BuildFrom(steps, k + 1, inst[node := v], provided, call, init);
        NodesStep(steps, k);
        r
  }

  /** The classes from entry `k` on: entry `k`'s and those after it. */
  lemma NodesStep(steps: seq<Step>, k: nat)
    requires k < |steps|
    ensures (set s | s in steps[k..] :: s.node) == {steps[k].node} + (set s | s in steps[k + 1..] :: s.node)
  {
    assert steps[k..] == [steps[k]] + steps[k + 1..];
  }

  /** `build_instances(plan, providers)`: `provided` are the classes with a
      provider instance and `call` awaits that instance. It is a generator,
      so a `StopIteration` raised inside leaves as `RuntimeError`. */
  function BuildInstances(steps: seq<Step>, provided: set<Key>, call: Key -> Call<Value>, init: Init): (r: Result<map<Key, Value>, Exc>)
    ensures r.Ok? ==> r.value.Keys == set s | s in steps :: s.node
    ensures r.Ok? ==> forall key | key in r.value && key in provided :: call(key) == Returned(r.value[key])
    ensures r.Ok? ==> forall key | key in r.value && key !in provided :: r.value[key].Made? && r.value[key].cls == ResultTag(key)
    ensures var built := BuildFrom(steps, 0, map[], provided, call, init);
      built.Err? ==> r == Err(EscapeGenerator(built.error))
    ensures r.Err? ==> r.error != StopIteration
  {
    assert steps[0..] == steps;
    match BuildFrom(steps, 0, map[], provided, call, init)
    case Err(e) => Err(EscapeGenerator(e))
    case Ok(instances) => Ok(instances)
  }

  /** Every argument of a constructed entry is an earlier entry. */
  ghost predicate ConstructedInOrder(steps: seq<Step>, provided: set<Key>) {
    forall k | 0 <= k < |steps| && steps[k].node !in provided :: ArgumentsBefore(steps, k)
  }

  /** Every argument of entry `k` is an entry before it. */
  ghost predicate ArgumentsBefore(steps: seq<Step>, k: nat)
    requires k < |steps|
  {
    forall p | p in steps[k].kwargs :: exists j | 0 <= j < k :: steps[j].node == p.1
  }

  /** The arguments of a constructed entry are among the entries built
      before it. */
  lemma ArgumentsBuiltEarlier(steps: seq<Step>, k: nat, inst: map<Key, Value>, provided: set<Key>)
    requires k < |steps| && steps[k].node !in provided
    requires ConstructedInOrder(steps, provided)
    requires forall j | 0 <= j < k :: steps[j].node in inst
    ensures forall p | p in steps[k].kwargs :: p.1 in inst
  {
    forall p | p in steps[k].kwargs
      ensures p.1 in inst
    {
      assert ArgumentsBefore(steps, k);
      var j :| 0 <= j < k && steps[j].node == p.1;
    }
  }

  /** With each constructed entry's arguments built earlier and no provider
      or constructor raising, the loop finishes. */
  lemma {:induction false} BuildFromSucceeds(
    steps: seq<Step>, k: nat, inst: map<Key, Value>, provided: set<Key>, call: Key -> Call<Value>, init: Init)
    requires k <= |steps|
    requires forall key | key in inst && key in provided :: call(key) == Returned(inst[key])
    requires forall key | key in inst && key !in provided :: inst[key].Made? && inst[key].cls == ResultTag(key)
    requires ConstructedInOrder(steps, provided)
    requires forall j | 0 <= j < |steps| && steps[j].node in provided :: call(steps[j].node).Returned?
    requires forall j, kw | 0 <= j < |steps| && steps[j].node !in provided :: init(ResultTag(steps[j].node), kw).None?
    requires forall j | 0 <= j < k :: steps[j].node in inst
    ensures BuildFrom(steps, k, inst, provided, call, init).Ok?
    decreases |steps| - k
  {
    if k == |steps| {
      return;
    }
    var node := steps[k].node;
    if node in provided {
      BuildFromSucceeds(steps, k + 1, inst[node := call(node).value], provided, call, init);
    } else {
      ArgumentsBuiltEarlier(steps, k, inst, provided);
      var kw := Kwargs(steps[k].kwargs, inst).value;
      BuildFromSucceeds(steps, k + 1, inst[node := Made(ResultTag(node), kw)], provided, call, init);
    }
  }

  /** `callback_for(page_cls)` of this generation: `TypeError` for a class
      that is not an `ItemPage`, `NotImplementedError` for an abstract
      `to_item`, otherwise the marked `parse(*args, page, **kwargs)`. */
  function CallbackFor(cls: Tag, isItemPage: bool, toItemIsAbstract: bool): (r: Result<Callback, Exc>)
    ensures !isItemPage ==> r == Err(TypeError(ShortName(cls) + " should be a sub-class of ItemPage."))
    ensures isItemPage && toItemIsAbstract ==> r == Err(NotImplementedError(ShortName(cls) + " should implement to_item method."))
    ensures isItemPage && !toItemIsAbstract ==> r == Ok(Api.Signature(Api.SyncPage(cls)))
    ensures r.Ok? ==> r.value.marked && r.value.params[1] == Param("page", false, Some(ClassHint(cls)))
  {
    if !isItemPage then Err(TypeError(ShortName(cls) + " should be a sub-class of ItemPage."))
    else if toItemIsAbstract then Err(NotImplementedError(ShortName(cls) + " should implement to_item method."))
    else Ok(Api.Signature(Api.SyncPage(cls)))
  }

  /** A callback made by `callback_for` never needs the response. */
  lemma CallbackForNeedsNoResponse(cls: Tag, isItemPage: bool, toItemIsAbstract: bool, isDummySubclass: Tag -> bool)
    requires CallbackFor(cls, isItemPage, toItemIsAbstract).Ok?
    ensures IsCallbackUsingResponse(CallbackFor(cls, isItemPage, toItemIsAbstract).value, isDummySubclass) == Ok(false)
  {
  }
}
