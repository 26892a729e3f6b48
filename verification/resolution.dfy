/** The provider loop of scrapy_poet/injection.py as a whole
    (`build_instances_from_providers`) and the whole resolution pass
    (`build_callback_dependencies`). */
module Resolution {
  import opened Scrapy
  import opened Injection
  import opened ProviderLoop

  lemma {:induction false} RunProvidersKeepsInvariants(env: Env, deps: set<Key>, i: nat, st: State)
    requires LoopOk(env, deps, i, st)
    ensures RunOk(env, deps, RunProviders(env, deps, i, st))
    decreases |env.providers| - i
  {
    if i >= |env.providers| {
      return;
    }
    var r1 := RunProviderTurn(env, deps, i, st);
    if r1.Done? {
      RunProvidersKeepsInvariants(env, deps, i + 1, r1.st);
    }
  }

  /** One turn of the provider loop, and what it keeps; the outcome is
      handed back so that the caller need not look into it. */
  lemma RunProviderTurn(env: Env, deps: set<Key>, i: nat, st: State) returns (r1: Run)
    requires i < |env.providers|
    requires LoopOk(env, deps, i, st)
    ensures InvocationsOk(env, deps, r1.st.invoked) && (r1.Done? ==> LoopOk(env, deps, i + 1, r1.st))
    ensures RunProviders(env, deps, i, st) == if r1.Done? then RunProviders(env, deps, i + 1, r1.st) else r1
  {
    r1 := RunProvider(env, deps, i, st);
    RunProviderKeepsInvariants(env, deps, i, st);
  }

  /** `build_instances_from_providers`: every instance is of a plan type,
      declared by the one provider that contributed it; providers contribute
      in list order and never the same type twice; every provider call asked
      for something, and for nothing an earlier provider contributed; the
      weak cache of the request holds every instance, and no earlier weak
      entry is dropped. */
  lemma ProviderSelection(env: Env, plan: Plan, weak: map<nat, map<Key, Value>>, store: map<string, CacheEntry>, stats: Stats)
    ensures var r := BuildInstancesFromProviders(env, plan, weak, store, stats);
      InvocationsOk(env, DepsSet(plan), r.st.invoked) && AskedFresh(r.st.invoked, r.st.claims)
    ensures var r := BuildInstancesFromProviders(env, plan, weak, store, stats);
      r.Done? ==>
        && ClaimsOk(env, DepsSet(plan), r.st.claims, r.st.instances)
        && r.st.instances.Keys <= DepsSet(plan)
        && NoBuilderKeys(r.st.instances)
        && WeakHoldsInstances(env.requestId, r.st.weak, r.st.instances)
        && (env.requestId in weak ==>
              env.requestId in r.st.weak && weak[env.requestId].Keys <= r.st.weak[env.requestId].Keys)
        && (forall q | q in weak && q != env.requestId :: q in r.st.weak && r.st.weak[q] == weak[q])
  {
    var st := State(map[], weak, store, stats, [], []);
    RunProvidersKeepsInvariants(env, DepsSet(plan), 0, st);
    RunProvidersKeepsWeak(env, DepsSet(plan), 0, st);
    RunProvidersKeepsFresh(env, DepsSet(plan), 0, st);
    var r := BuildInstancesFromProviders(env, plan, weak, store, stats);
    if r.Done? {
      ClaimedKeysSubset(r.st.claims, DepsSet(plan));
    }
  }

  // --- the whole resolution pass -----------------------------------------

  /** A plan whose every argument is a provided type or an earlier entry's
      result, with no custom builder or constructor raising, resolves: the callback receives
      exactly its declared keyword arguments. */
  lemma ResolutionSucceeds(
    env: Env, plan: Plan, weak: map<nat, map<Key, Value>>, store: map<string, CacheEntry>, stats: Stats,
    factory: Factory, init: Init)
    requires BuildInstancesFromProviders(env, plan, weak, store, stats).Done?
    requires var provided := BuildInstancesFromProviders(env, plan, weak, store, stats).st.instances.Keys;
      DependencyOrdered(plan.deps + [plan.target], provided)
    requires FactoriesSucceed(plan.deps, factory) && InitsSucceed(plan.deps, init)
    ensures BuildCallbackDependencies(env, plan, weak, store, stats, factory, init).1.Ok?
    ensures BuildCallbackDependencies(env, plan, weak, store, stats, factory, init).1.value.Keys ==
            set p | p in plan.target.kwargs :: p.0
  {
    var st := BuildInstancesFromProviders(env, plan, weak, store, stats).st;
    ProviderSelection(env, plan, weak, store, stats);
    var steps := plan.deps + [plan.target];
    assert DependencyOrdered(plan.deps, st.instances.Keys) by {
      forall k, p | 0 <= k < |plan.deps| && p in plan.deps[k].kwargs
        ensures p.1 in st.instances.Keys || exists j | 0 <= j < k :: ResultKey(plan.deps[j].node) == p.1
      {
        assert steps[k] == plan.deps[k];
        if p.1 !in st.instances.Keys {
          var j :| 0 <= j < k && ResultKey(steps[j].node) == p.1;
          assert steps[j] == plan.deps[j];
        }
      }
    }
    BuildRemainingCompletes(plan.deps, 0, Built(st.instances, st.stats, []), st.instances.Keys, factory, init);
    var b := BuildRemaining(plan.deps, 0, Built(st.instances, st.stats, []), factory, init).b;
    forall p | p in plan.target.kwargs
      ensures p.1 in b.instances
    {
      assert p in steps[|plan.deps|].kwargs;
      if p.1 !in st.instances.Keys {
        var j :| 0 <= j < |plan.deps| && ResultKey(steps[j].node) == p.1;
        assert steps[j] == plan.deps[j];
      }
    }
  }
}
