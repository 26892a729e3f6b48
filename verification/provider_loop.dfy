/** One turn of the provider loop of scrapy_poet/injection.py
    (`build_instances_from_providers`): what it keeps of the claims, the
    provider calls and the weak cache. */
module ProviderLoop {
  import opened Wrappers
  import opened Scrapy
  import opened Injection

  lemma ClaimedKeysAppend(claims: seq<(nat, set<Key>)>, c: (nat, set<Key>))
    ensures ClaimedKeys(claims + [c]) == ClaimedKeys(claims) + c.1
  {
    assert (claims + [c])[..|claims + [c]| - 1] == claims;
  }

  lemma {:induction false} ClaimedKeysMember(claims: seq<(nat, set<Key>)>, a: nat, k: Key)
    requires a < |claims| && k in claims[a].1
    ensures k in ClaimedKeys(claims)
  {
    if a < |claims| - 1 {
      ClaimedKeysMember(claims[..|claims| - 1], a, k);
    }
  }

  lemma {:induction false} ClaimedKeysSubset(claims: seq<(nat, set<Key>)>, deps: set<Key>)
    requires forall c | c in claims :: c.1 <= deps
    ensures ClaimedKeys(claims) <= deps
  {
    if claims != [] {
      ClaimedKeysSubset(claims[..|claims| - 1], deps);
    }
  }

  /** Appending the claim of provider `i` for keys it was asked for. */
  lemma {:induction false} ClaimsAppendOk(
    env: Env, deps: set<Key>, i: nat, claims: seq<(nat, set<Key>)>, instances: map<Key, Value>, byType: map<Key, Value>)
    requires i < |env.providers|
    requires ClaimsOk(env, deps, claims, instances) && forall a | 0 <= a < |claims| :: claims[a].0 < i
    requires byType.Keys <= Asked(env, deps, i, instances)
    ensures ClaimsOk(env, deps, claims + [(i, byType.Keys)], instances + byType)
  {
    var c := (i, byType.Keys);
    var claims' := claims + [c];
    ClaimedKeysAppend(claims, c);
    assert ClaimDeclared(env, deps, c);
    assert (instances + byType).Keys == instances.Keys + byType.Keys;
    forall a | 0 <= a < |claims|
      ensures claims[a].1 !! byType.Keys
    {
      forall k | k in claims[a].1
        ensures k !in byType.Keys
      {
        ClaimedKeysMember(claims, a, k);
      }
    }
    forall a | 0 <= a < |claims'|
      ensures ClaimDeclared(env, deps, claims'[a])
    {
      if a < |claims| {
        assert claims'[a] == claims[a];
      }
    }
    forall a, b | 0 <= a < b < |claims'|
      ensures claims'[a].1 !! claims'[b].1 && claims'[a].0 < claims'[b].0
    {
      assert claims'[a] == claims[a];
      if b < |claims| {
        assert claims'[b] == claims[b];
      }
    }
  }

  /** The objects a provider returns are filed under classes, never builders. */
  lemma ObjsByTypeNoBuilderKeys(objs: seq<ProvidedObj>)
    ensures NoBuilderKeys(ObjsByType(objs))
  {
    forall x | x in ObjsByType(objs)
      ensures !x.BuilderKey?
    {
      var o :| o in objs && ObjKey(o) == x;
    }
  }

  // --- chain 1: claims, calls, keys ---------------------------------------

  lemma MergeKeepsInvariants(env: Env, deps: set<Key>, i: nat, byType: map<Key, Value>, st: State)
    requires i < |env.providers|
    requires LoopOk(env, deps, i, st)
    requires byType.Keys <= Asked(env, deps, i, st.instances) && NoBuilderKeys(byType)
    ensures LoopOk(env, deps, i + 1, Merge(env.requestId, i, byType, st))
  {
    ClaimsAppendOk(env, deps, i, st.claims, st.instances, byType);
  }

  lemma AcceptKeepsInvariants(
    env: Env, deps: set<Key>, i: nat, asked: set<Key>, objs: seq<ProvidedObj>, cacheHit: bool, key: string, st: State)
    requires i < |env.providers|
    requires asked == Asked(env, deps, i, st.instances)
    requires LoopOk(env, deps, i, st)
    ensures var r := Accept(env, i, asked, objs, cacheHit, key, st);
      && r.st.invoked == st.invoked
      && (r.Done? ==> LoopOk(env, deps, i + 1, r.st))
  {
    var byType := ObjsByType(objs);
    if byType.Keys <= asked {
      ObjsByTypeNoBuilderKeys(objs);
      MergeKeepsInvariants(env, deps, i, byType, st);
    }
  }

  lemma CallProviderKeepsInvariants(env: Env, deps: set<Key>, i: nat, asked: set<Key>, key: string, cacheHit: bool, st: State)
    requires i < |env.providers|
    requires LoopOk(env, deps, i, st)
    requires asked == Asked(env, deps, i, st.instances) && asked != {}
    ensures var r := CallProvider(env, i, asked, key, cacheHit, st);
      && InvocationsOk(env, deps, r.st.invoked)
      && (r.Done? ==> LoopOk(env, deps, i + 1, r.st))
  {
    var st1 := st.(invoked := st.invoked + [(i, asked)]);
    assert LoopOk(env, deps, i, st1);
    match env.invoke(i, asked)
    case Threw(e) =>
    case Returned(objs) =>
      AcceptKeepsInvariants(env, deps, i, asked, objs, cacheHit, key, st1);
  }

  lemma AfterLookUpKeepsInvariants(env: Env, deps: set<Key>, i: nat, asked: set<Key>, key: string, found: Lookup, st: State)
    requires i < |env.providers|
    requires LoopOk(env, deps, i, st)
    requires asked == Asked(env, deps, i, st.instances) && asked != {}
    ensures var r := AfterLookUp(env, i, asked, key, found, st);
      && InvocationsOk(env, deps, r.st.invoked)
      && (r.Done? ==> LoopOk(env, deps, i + 1, r.st))
  {
    if !found.HitError? {
      var cached := if found.HitData? then Deserialize(env, found.leaves) else [];
      if cached != [] {
        AcceptKeepsInvariants(env, deps, i, asked, cached, true, key, st);
      } else {
        CallProviderKeepsInvariants(env, deps, i, asked, key, found.HitData?, st);
      }
    }
  }

  /** The lookup only counts hits and misses. */
  lemma LookUpOnlyStats(env: Env, key: string, st: State)
    ensures LookUp(env, key, st).1 == st.(stats := LookUp(env, key, st).1.stats)
  {
  }

  lemma LookedUpKeepsInvariants(env: Env, deps: set<Key>, i: nat, asked: set<Key>, st: State)
    requires i < |env.providers|
    requires LoopOk(env, deps, i, st)
    requires asked == Asked(env, deps, i, st.instances) && asked != {}
    requires !(env.cache.CacheOn? && env.providers[i].name == "")
    ensures var r := ProviderStep(env, i, asked, st);
      && InvocationsOk(env, deps, r.st.invoked)
      && (r.Done? ==> LoopOk(env, deps, i + 1, r.st))
  {
    var key := CacheKey(env.providers[i].name, env.requestFingerprint);
    LookUpOnlyStats(env, key, st);
    var looked := LookUp(env, key, st);
    AfterLookUpKeepsInvariants(env, deps, i, asked, key, looked.0, looked.1);
  }

  lemma ProviderStepKeepsInvariants(env: Env, deps: set<Key>, i: nat, asked: set<Key>, st: State)
    requires i < |env.providers|
    requires LoopOk(env, deps, i, st)
    requires asked == Asked(env, deps, i, st.instances)
    ensures var r := ProviderStep(env, i, asked, st);
      && InvocationsOk(env, deps, r.st.invoked)
      && (r.Done? ==> LoopOk(env, deps, i + 1, r.st))
  {
    if asked == {} {
      assert LoopOk(env, deps, i + 1, st);
    } else if !(env.cache.CacheOn? && env.providers[i].name == "") {
      LookedUpKeepsInvariants(env, deps, i, asked, st);
    }
  }

  lemma RunProviderKeepsInvariants(env: Env, deps: set<Key>, i: nat, st: State)
    requires i < |env.providers|
    requires LoopOk(env, deps, i, st)
    ensures var r := RunProvider(env, deps, i, st);
      && InvocationsOk(env, deps, r.st.invoked)
      && (r.Done? ==> LoopOk(env, deps, i + 1, r.st))
  {
    ProviderStepKeepsInvariants(env, deps, i, Asked(env, deps, i, st.instances), st);
  }

  // --- chain 2: the weak cache -------------------------------------------

  lemma GrowsTrans(rid: nat, st: State, st': State, st'': State)
    requires Grows(rid, st, st') && Grows(rid, st', st'')
    ensures Grows(rid, st, st'')
  {
  }

  lemma MergeKeepsWeak(rid: nat, i: nat, byType: map<Key, Value>, st: State)
    requires WeakHoldsInstances(rid, st.weak, st.instances)
    requires byType.Keys !! st.instances.Keys
    ensures WeakStep(rid, st, Done(Merge(rid, i, byType, st)))
  {
  }

  lemma AcceptKeepsWeak(
    env: Env, i: nat, asked: set<Key>, objs: seq<ProvidedObj>, cacheHit: bool, key: string, st: State)
    requires asked !! st.instances.Keys
    requires WeakHoldsInstances(env.requestId, st.weak, st.instances)
    ensures WeakStep(env.requestId, st, Accept(env, i, asked, objs, cacheHit, key, st))
  {
    var byType := ObjsByType(objs);
    if byType.Keys <= asked {
      MergeKeepsWeak(env.requestId, i, byType, st);
    }
  }

  lemma CallProviderKeepsWeak(env: Env, i: nat, asked: set<Key>, key: string, cacheHit: bool, st: State)
    requires asked !! st.instances.Keys
    requires WeakHoldsInstances(env.requestId, st.weak, st.instances)
    ensures WeakStep(env.requestId, st, CallProvider(env, i, asked, key, cacheHit, st))
  {
    var st1 := st.(invoked := st.invoked + [(i, asked)]);
    match env.invoke(i, asked)
    case Threw(e) =>
    case Returned(objs) =>
      AcceptKeepsWeak(env, i, asked, objs, cacheHit, key, st1);
      var r := Accept(env, i, asked, objs, cacheHit, key, st1);
      assert Grows(env.requestId, st, st1);
      if r.Done? {
        GrowsTrans(env.requestId, st, st1, r.st);
      }
  }

  lemma AfterLookUpKeepsWeak(env: Env, i: nat, asked: set<Key>, key: string, found: Lookup, st: State)
    requires asked !! st.instances.Keys
    requires WeakHoldsInstances(env.requestId, st.weak, st.instances)
    ensures WeakStep(env.requestId, st, AfterLookUp(env, i, asked, key, found, st))
  {
    if !found.HitError? {
      var cached := if found.HitData? then Deserialize(env, found.leaves) else [];
      if cached != [] {
        AcceptKeepsWeak(env, i, asked, cached, true, key, st);
      } else {
        CallProviderKeepsWeak(env, i, asked, key, found.HitData?, st);
      }
    }
  }

  lemma LookedUpKeepsWeak(env: Env, i: nat, asked: set<Key>, st: State)
    requires i < |env.providers|
    requires asked !! st.instances.Keys && asked != {}
    requires !(env.cache.CacheOn? && env.providers[i].name == "")
    requires WeakHoldsInstances(env.requestId, st.weak, st.instances)
    ensures WeakStep(env.requestId, st, ProviderStep(env, i, asked, st))
  {
    var key := CacheKey(env.providers[i].name, env.requestFingerprint);
    LookUpOnlyStats(env, key, st);
    var looked := LookUp(env, key, st);
    AfterLookUpKeepsWeak(env, i, asked, key, looked.0, looked.1);
    var r := AfterLookUp(env, i, asked, key, looked.0, looked.1);
    assert Grows(env.requestId, st, looked.1);
    if r.Done? {
      GrowsTrans(env.requestId, st, looked.1, r.st);
    }
  }

  lemma ProviderStepKeepsWeak(env: Env, i: nat, asked: set<Key>, st: State)
    requires i < |env.providers|
    requires asked !! st.instances.Keys
    requires WeakHoldsInstances(env.requestId, st.weak, st.instances)
    ensures WeakStep(env.requestId, st, ProviderStep(env, i, asked, st))
  {
    if asked != {} && !(env.cache.CacheOn? && env.providers[i].name == "") {
      LookedUpKeepsWeak(env, i, asked, st);
    }
  }

  lemma RunProviderKeepsWeak(env: Env, deps: set<Key>, i: nat, st: State)
    requires i < |env.providers|
    requires WeakHoldsInstances(env.requestId, st.weak, st.instances)
    ensures WeakStep(env.requestId, st, RunProvider(env, deps, i, st))
  {
    ProviderStepKeepsWeak(env, i, Asked(env, deps, i, st.instances), st);
  }

  lemma {:induction false} RunProvidersKeepsWeak(env: Env, deps: set<Key>, i: nat, st: State)
    requires WeakHoldsInstances(env.requestId, st.weak, st.instances)
    ensures WeakStep(env.requestId, st, RunProviders(env, deps, i, st))
    decreases |env.providers| - i
  {
    if i >= |env.providers| {
      return;
    }
    RunProviderKeepsWeak(env, deps, i, st);
    var r1 := RunProvider(env, deps, i, st);
    if r1.Done? {
      RunProvidersKeepsWeak(env, deps, i + 1, r1.st);
      var r2 := RunProviders(env, deps, i + 1, r1.st);
      assert RunProviders(env, deps, i, st) == r2;
      if r2.Done? {
        GrowsTrans(env.requestId, st, r1.st, r2.st);
      }
    } else {
      assert RunProviders(env, deps, i, st) == r1;
    }
  }

  // --- chain 3: what providers are asked for ------------------------------

  lemma MergeKeepsFresh(rid: nat, i: nat, byType: map<Key, Value>, st: State)
    requires CalledBefore(i + 1, st.invoked) && AskedFresh(st.invoked, st.claims)
    ensures var st' := Merge(rid, i, byType, st);
      CalledBefore(i + 1, st'.invoked) && AskedFresh(st'.invoked, st'.claims)
  {
    var st' := Merge(rid, i, byType, st);
    forall a, b | 0 <= a < |st'.invoked| && 0 <= b < |st'.claims| && st'.claims[b].0 < st'.invoked[a].0
      ensures st'.invoked[a].1 !! st'.claims[b].1
    {
      assert b < |st.claims| && st'.claims[b] == st.claims[b];
    }
  }

  lemma AcceptKeepsFresh(
    env: Env, i: nat, asked: set<Key>, objs: seq<ProvidedObj>, cacheHit: bool, key: string, st: State)
    requires CalledBefore(i + 1, st.invoked) && AskedFresh(st.invoked, st.claims)
    ensures var r := Accept(env, i, asked, objs, cacheHit, key, st);
      CalledBefore(i + 1, r.st.invoked) && AskedFresh(r.st.invoked, r.st.claims)
  {
    MergeKeepsFresh(env.requestId, i, ObjsByType(objs), st);
  }

  /** The call itself: what is asked was not contributed by anyone yet. */
  lemma InvokeKeepsFresh(env: Env, deps: set<Key>, i: nat, asked: set<Key>, st: State)
    requires i < |env.providers| && LoopOk(env, deps, i, st)
    requires asked == Asked(env, deps, i, st.instances)
    requires CalledBefore(i, st.invoked) && AskedFresh(st.invoked, st.claims)
    ensures var invoked := st.invoked + [(i, asked)];
      CalledBefore(i + 1, invoked) && AskedFresh(invoked, st.claims)
  {
    var invoked := st.invoked + [(i, asked)];
    forall a, b | 0 <= a < |invoked| && 0 <= b < |st.claims| && st.claims[b].0 < invoked[a].0
      ensures invoked[a].1 !! st.claims[b].1
    {
      if a == |st.invoked| {
        forall k | k in st.claims[b].1
          ensures k !in asked
        {
          ClaimedKeysMember(st.claims, b, k);
        }
      } else {
        assert invoked[a] == st.invoked[a];
      }
    }
  }

  lemma CallProviderKeepsFresh(env: Env, deps: set<Key>, i: nat, asked: set<Key>, key: string, cacheHit: bool, st: State)
    requires i < |env.providers| && LoopOk(env, deps, i, st)
    requires asked == Asked(env, deps, i, st.instances)
    requires CalledBefore(i, st.invoked) && AskedFresh(st.invoked, st.claims)
    ensures var r := CallProvider(env, i, asked, key, cacheHit, st);
      CalledBefore(i + 1, r.st.invoked) && AskedFresh(r.st.invoked, r.st.claims)
  {
    InvokeKeepsFresh(env, deps, i, asked, st);
    var st1 := st.(invoked := st.invoked + [(i, asked)]);
    match env.invoke(i, asked)
    case Threw(e) =>
    case Returned(objs) =>
      AcceptKeepsFresh(env, i, asked, objs, cacheHit, key, st1);
  }

  lemma AfterLookUpKeepsFresh(env: Env, deps: set<Key>, i: nat, asked: set<Key>, key: string, found: Lookup, st: State)
    requires i < |env.providers| && LoopOk(env, deps, i, st)
    requires asked == Asked(env, deps, i, st.instances)
    requires CalledBefore(i, st.invoked) && AskedFresh(st.invoked, st.claims)
    ensures var r := AfterLookUp(env, i, asked, key, found, st);
      CalledBefore(i + 1, r.st.invoked) && AskedFresh(r.st.invoked, r.st.claims)
  {
    if !found.HitError? {
      var cached := if found.HitData? then Deserialize(env, found.leaves) else [];
      if cached != [] {
        AcceptKeepsFresh(env, i, asked, cached, true, key, st);
      } else {
        CallProviderKeepsFresh(env, deps, i, asked, key, found.HitData?, st);
      }
    }
  }

  lemma RunProviderKeepsFresh(env: Env, deps: set<Key>, i: nat, st: State)
    requires i < |env.providers| && LoopOk(env, deps, i, st)
    requires CalledBefore(i, st.invoked) && AskedFresh(st.invoked, st.claims)
    ensures var r := RunProvider(env, deps, i, st);
      CalledBefore(i + 1, r.st.invoked) && AskedFresh(r.st.invoked, r.st.claims)
  {
    var asked := Asked(env, deps, i, st.instances);
    if asked != {} && !(env.cache.CacheOn? && env.providers[i].name == "") {
      var key := CacheKey(env.providers[i].name, env.requestFingerprint);
      LookUpOnlyStats(env, key, st);
      var looked := LookUp(env, key, st);
      AfterLookUpKeepsFresh(env, deps, i, asked, key, looked.0, looked.1);
    }
  }

  lemma {:induction false} RunProvidersKeepsFresh(env: Env, deps: set<Key>, i: nat, st: State)
    requires LoopOk(env, deps, i, st)
    requires CalledBefore(i, st.invoked) && AskedFresh(st.invoked, st.claims)
    ensures AskedFresh(RunProviders(env, deps, i, st).st.invoked, RunProviders(env, deps, i, st).st.claims)
    decreases |env.providers| - i
  {
    if i >= |env.providers| {
      return;
    }
    RunProviderKeepsFresh(env, deps, i, st);
    RunProviderKeepsInvariants(env, deps, i, st);
    var r1 := RunProvider(env, deps, i, st);
    if r1.Done? {
      RunProvidersKeepsFresh(env, deps, i + 1, r1.st);
      assert RunProviders(env, deps, i, st) == RunProviders(env, deps, i + 1, r1.st);
    } else {
      assert RunProviders(env, deps, i, st) == r1;
    }
  }

  /** A type declared by two providers comes from the earlier one: once a
      provider has contributed it, later providers are not asked for it and
      do not replace it. */
  lemma EarlierProviderWins(env: Env, deps: set<Key>, i: nat, st: State, k: Key)
    requires i < |env.providers| && k in st.instances
    requires WeakHoldsInstances(env.requestId, st.weak, st.instances)
    ensures k !in Asked(env, deps, i, st.instances)
    ensures RunProvider(env, deps, i, st).Done? ==>
      k in RunProvider(env, deps, i, st).st.instances &&
      RunProvider(env, deps, i, st).st.instances[k] == st.instances[k]
  {
    RunProviderKeepsWeak(env, deps, i, st);
  }

}
