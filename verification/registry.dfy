/** `OverridesAndItemRegistry`: a list of web-poet `ApplyRule`s split into
    per-type URL matchers, one table for "instead_of" overrides and one for
    "to_return" items, queried per URL. */
module Registry {
  import opened Wrappers
  import opened Scrapy

  /** The URL patterns of a rule (`for_patterns`); only equality matters here. */
  datatype Patterns = Patterns(includes: seq<string>, excludes: seq<string>, priority: int)

  /** An `ApplyRule`: use page object `use` for URLs matching `patterns`,
      instead of `insteadOf` and/or to return item class `toReturn`. */
  datatype Rule = Rule(patterns: Patterns, use: Tag, insteadOf: Option<Tag>, toReturn: Option<Tag>)

  /** A `URLMatcher`, as the rule ids added to it with their patterns. */
  type Matcher = map<nat, Patterns>

  /** `URLMatcher.match`, which is foreign: the id of the matching rule, if any. */
  type Select = (Matcher, Url) -> Option<nat>

  /** A matcher only answers with ids that were added to it. */
  ghost predicate SelectSound(select: Select) {
    forall m, u :: select(m, u).Some? ==> select(m, u).value in m
  }

  datatype Registry = Registry(
    rules: seq<Rule>,
    overrides: map<Tag, Matcher>,
    items: map<Option<Tag>, Matcher>)

  /** `defaultdict(URLMatcher)` lookup: a missing matcher is empty. */
  function MatcherOf<K>(m: map<K, Matcher>, k: K): Matcher {
    if k in m then m[k] else map[]
  }

  /** `add_rule`. The item matcher for `rule.toReturn` is created even when it
      is `None`; `warned` is the "similar URL patterns" warning. */
  function AddRule(reg: Registry, id: nat, rule: Rule): (r: (Registry, bool))
    ensures r.1 <==> exists j | j in MatcherOf(reg.items, rule.toReturn) :: MatcherOf(reg.items, rule.toReturn)[j] == rule.patterns
    ensures rule.insteadOf.Some? ==>
      rule.insteadOf.value in r.0.overrides && r.0.overrides[rule.insteadOf.value] == MatcherOf(reg.overrides, rule.insteadOf.value)[id := rule.patterns]
    ensures forall t | t in reg.overrides && Some(t) != rule.insteadOf :: t in r.0.overrides && r.0.overrides[t] == reg.overrides[t]
    ensures r.0.overrides.Keys == reg.overrides.Keys + (if rule.insteadOf.Some? then {rule.insteadOf.value} else {})
    ensures r.0.items.Keys == reg.items.Keys + {rule.toReturn}
    ensures rule.toReturn.Some? ==> r.0.items[rule.toReturn] == MatcherOf(reg.items, rule.toReturn)[id := rule.patterns]
    ensures rule.toReturn.None? ==> r.0.items[None] == MatcherOf(reg.items, None)
    ensures forall t | t in reg.items && t != rule.toReturn :: r.0.items[t] == reg.items[t]
    ensures r.0.rules == reg.rules
  {
    var matched := MatcherOf(reg.items, rule.toReturn);
    var warned := exists j | j in matched :: matched[j] == rule.patterns;
    var items := reg.items[rule.toReturn := matched];
    var overrides :=
      if rule.insteadOf.Some? then
        reg.overrides[rule.insteadOf.value := MatcherOf(reg.overrides, rule.insteadOf.value)[id := rule.patterns]]
      else reg.overrides;
    var items' := if rule.toReturn.Some? then items[rule.toReturn := matched[id := rule.patterns]] else items;
    (Registry(reg.rules, overrides, items'), warned)
  }

  /** Adding the rules from position `k` on, with their positions as ids;
      the second component lists the positions whose rule triggered a warning. */
  function AddRules(reg: Registry, k: nat): (r: (Registry, seq<nat>))
    ensures r.0.rules == reg.rules
    decreases |reg.rules| - k
  {
    if k >= |reg.rules| then (reg, [])
    else
      var (reg1, warned) := AddRule(reg, k, reg.rules[k]);
      var (reg2, ws) := AddRules(reg1, k + 1);
      (reg2, (if warned then [k] else []) + ws)
  }

  /** `OverridesAndItemRegistry(rules)`, with the warnings it emits. */
  function NewRegistry(rules: seq<Rule>): (Registry, seq<nat>) {
    AddRules(Registry(rules, map[], map[]), 0)
  }

  /** The override table after the rules before position `k` are added:
      rule `j` sits in its base type's matcher, and every id in a matcher
      is such a rule. */
  ghost predicate OverridesIndexed(reg: Registry, k: nat) {
    && (forall t, j | t in reg.overrides && j in reg.overrides[t] :: j < k && j < |reg.rules|)
    && (forall t, j | t in reg.overrides && j in reg.overrides[t] && j < |reg.rules| ::
          reg.rules[j].insteadOf == Some(t) && reg.overrides[t][j] == reg.rules[j].patterns)
    && (forall j | 0 <= j < k && j < |reg.rules| && reg.rules[j].insteadOf.Some? ::
          reg.rules[j].insteadOf.value in reg.overrides && j in reg.overrides[reg.rules[j].insteadOf.value])
  }

  /** The same for the item table. */
  ghost predicate ItemsIndexed(reg: Registry, k: nat) {
    && (forall t, j | t in reg.items && j in reg.items[t] :: j < k && j < |reg.rules| && t.Some?)
    && (forall t, j | t in reg.items && j in reg.items[t] && j < |reg.rules| ::
          reg.rules[j].toReturn == t && reg.items[t][j] == reg.rules[j].patterns)
    && (forall j | 0 <= j < k && j < |reg.rules| && reg.rules[j].toReturn.Some? ::
          reg.rules[j].toReturn in reg.items && j in reg.items[reg.rules[j].toReturn])
  }

  lemma AddRuleKeepsOverridesIndexed(reg: Registry, k: nat)
    requires k < |reg.rules| && OverridesIndexed(reg, k)
    ensures OverridesIndexed(AddRule(reg, k, reg.rules[k]).0, k + 1)
  {
    var rule := reg.rules[k];
    var reg' := AddRule(reg, k, rule).0;
    forall t | t in reg'.overrides && Some(t) != rule.insteadOf
      ensures t in reg.overrides && reg'.overrides[t] == reg.overrides[t]
    {
    }
  }

  lemma AddRuleKeepsItemsIndexed(reg: Registry, k: nat)
    requires k < |reg.rules| && ItemsIndexed(reg, k)
    ensures ItemsIndexed(AddRule(reg, k, reg.rules[k]).0, k + 1)
  {
    var rule := reg.rules[k];
    var reg' := AddRule(reg, k, rule).0;
    forall t | t in reg'.items && t != rule.toReturn
      ensures t in reg.items && reg'.items[t] == reg.items[t]
    {
    }
  }

  lemma {:induction false} AddRulesIndexed(reg: Registry, k: nat)
    requires k <= |reg.rules| && OverridesIndexed(reg, k) && ItemsIndexed(reg, k)
    ensures OverridesIndexed(AddRules(reg, k).0, |reg.rules|)
    ensures ItemsIndexed(AddRules(reg, k).0, |reg.rules|)
    decreases |reg.rules| - k
  {
    if k < |reg.rules| {
      AddRuleKeepsOverridesIndexed(reg, k);
      AddRuleKeepsItemsIndexed(reg, k);
      AddRulesIndexed(AddRule(reg, k, reg.rules[k]).0, k + 1);
    }
  }

  /** A built registry files every rule with `instead_of` under that type's
      override matcher and every rule with `to_return` under that item's
      matcher, with the rule's position as id; every id stored indexes the
      rule list. A rule with both is in both tables, with neither in neither. */
  lemma RegistryIndexesRules(rules: seq<Rule>)
    ensures var reg := NewRegistry(rules).0;
      && reg.rules == rules
      && (forall j | 0 <= j < |rules| && rules[j].insteadOf.Some? ::
            rules[j].insteadOf.value in reg.overrides && j in reg.overrides[rules[j].insteadOf.value] &&
            reg.overrides[rules[j].insteadOf.value][j] == rules[j].patterns)
      && (forall j | 0 <= j < |rules| && rules[j].toReturn.Some? ::
            rules[j].toReturn in reg.items && j in reg.items[rules[j].toReturn] &&
            reg.items[rules[j].toReturn][j] == rules[j].patterns)
      && (forall t, j | t in reg.overrides && j in reg.overrides[t] :: j < |rules|)
      && (forall t, j | t in reg.overrides && j in reg.overrides[t] && j < |rules| :: rules[j].insteadOf == Some(t))
      && (forall t, j | t in reg.items && j in reg.items[t] :: j < |rules|)
      && (forall t, j | t in reg.items && j in reg.items[t] && j < |rules| :: rules[j].toReturn == t)
  {
    AddRulesIndexed(Registry(rules, map[], map[]), 0);
  }

  /** Rule `k` repeats the patterns of an earlier rule for the same item class. */
  ghost predicate SimilarToEarlier(rules: seq<Rule>, k: int)
    requires 0 <= k < |rules|
  {
    && rules[k].toReturn.Some?
    && exists j | 0 <= j < k :: rules[j].toReturn == rules[k].toReturn && rules[j].patterns == rules[k].patterns
  }

  lemma AddRuleWarnsSimilar(reg: Registry, k: nat)
    requires k < |reg.rules| && ItemsIndexed(reg, k)
    ensures AddRule(reg, k, reg.rules[k]).1 <==> SimilarToEarlier(reg.rules, k)
  {
    var rule := reg.rules[k];
    var matched := MatcherOf(reg.items, rule.toReturn);
    if AddRule(reg, k, rule).1 {
      var j :| j in matched && matched[j] == rule.patterns;
      assert reg.rules[j].toReturn == rule.toReturn;
    }
    if SimilarToEarlier(reg.rules, k) {
      var j :| 0 <= j < k && reg.rules[j].toReturn == rule.toReturn && reg.rules[j].patterns == rule.patterns;
      assert j in matched && matched[j] == rule.patterns;
    }
  }

  /** The positions from `k` on whose rule repeats earlier patterns, in order. */
  ghost function SimilarFrom(rules: seq<Rule>, k: nat): seq<nat>
    decreases |rules| - k
  {
    if k >= |rules| then []
    else (if SimilarToEarlier(rules, k) then [k] else []) + SimilarFrom(rules, k + 1)
  }

  lemma {:induction false} SimilarFromMembers(rules: seq<Rule>, k: nat)
    ensures forall i :: i in SimilarFrom(rules, k) <==> k <= i < |rules| && SimilarToEarlier(rules, i)
    decreases |rules| - k
  {
    if k < |rules| {
      SimilarFromMembers(rules, k + 1);
    }
  }

  lemma {:induction false} AddRulesWarnings(reg: Registry, k: nat)
    requires k <= |reg.rules| && ItemsIndexed(reg, k)
    ensures AddRules(reg, k).1 == SimilarFrom(reg.rules, k)
    decreases |reg.rules| - k
  {
    if k < |reg.rules| {
      var next := AddRule(reg, k, reg.rules[k]).0;
      AddRulesStep(reg, k);
      AddRulesWarnings(next, k + 1);
    }
  }

  /** One rule of `AddRules`: it warns as `SimilarToEarlier` says, and the
      registry after it is indexed one rule further. */
  lemma AddRulesStep(reg: Registry, k: nat)
    requires k < |reg.rules| && ItemsIndexed(reg, k)
    ensures var next := AddRule(reg, k, reg.rules[k]).0;
      && next.rules == reg.rules && ItemsIndexed(next, k + 1)
      && AddRules(reg, k).1 == (if SimilarToEarlier(reg.rules, k) then [k] else []) + AddRules(next, k + 1).1
  {
    AddRuleWarnsSimilar(reg, k);
    AddRuleKeepsItemsIndexed(reg, k);
  }

  /** Building the registry warns about exactly the rules whose patterns an
      earlier rule for the same item class already declared; a rule without
      an item class never warns. */
  lemma NewRegistryWarnings(rules: seq<Rule>)
    ensures NewRegistry(rules).1 == SimilarFrom(rules, 0)
    ensures forall i :: i in NewRegistry(rules).1 <==> 0 <= i < |rules| && SimilarToEarlier(rules, i)
  {
    AddRulesWarnings(Registry(rules, map[], map[]), 0);
    SimilarFromMembers(rules, 0);
  }

  /** The "similar URL patterns" warning is raised for a rule exactly when an
      earlier rule for the same item class has equal patterns, and the rule
      is registered all the same. */
  lemma DuplicatePatternsOnlyWarn(reg: Registry, id: nat, rule: Rule)
    requires rule.toReturn.Some?
    ensures var (reg', warned) := AddRule(reg, id, rule);
      && (warned <==> exists j | j in MatcherOf(reg.items, rule.toReturn) :: MatcherOf(reg.items, rule.toReturn)[j] == rule.patterns)
      && id in reg'.items[rule.toReturn] && reg'.items[rule.toReturn][id] == rule.patterns
  {
  }

  /** `_rules_for_url`: each target whose matcher picks a rule for `url`
      maps to that rule's page object; an id outside the rule list is an
      `IndexError`. */
  function RulesForUrl<K>(rules: seq<Rule>, url: Url, matchers: map<K, Matcher>, select: Select): (r: Result<map<K, Tag>, Exc>)
    ensures r.Ok? <==> forall t | t in matchers && select(matchers[t], url).Some? :: select(matchers[t], url).value < |rules|
    ensures r.Ok? ==> r.value.Keys == set t | t in matchers && select(matchers[t], url).Some?
    ensures r.Ok? ==> forall t | t in r.value :: r.value[t] == rules[select(matchers[t], url).value].use
  {
    if exists t | t in matchers && select(matchers[t], url).Some? :: select(matchers[t], url).value >= |rules| then
      Err(IndexError)
    else
      Ok(map t | t in matchers && select(matchers[t], url).Some? :: rules[select(matchers[t], url).value].use)
  }

  /** `overrides_for(request)`: the overrides for the request's URL. */
  function OverridesFor(reg: Registry, request: Request, select: Select): Result<map<Tag, Tag>, Exc> {
    RulesForUrl(reg.rules, request.url, reg.overrides, select)
  }

  /** `page_object_for_item(url, item)`: the page object for the item class
      at `url`, or `None`. */
  function PageObjectForItem(reg: Registry, url: Url, item: Tag, select: Select): Result<Option<Tag>, Exc> {
    var m :- RulesForUrl(reg.rules, url, reg.items, select);
    Ok(if Some(item) in m then Some(m[Some(item)]) else None)
  }

  /** With every stored id indexing the rule list and a sound matcher, the
      URL lookup cannot fail. */
  lemma RulesForUrlOk<K>(rules: seq<Rule>, url: Url, matchers: map<K, Matcher>, select: Select)
    requires SelectSound(select)
    requires forall t, j | t in matchers && j in matchers[t] :: j < |rules|
    ensures RulesForUrl(rules, url, matchers, select).Ok?
  {
    forall t | t in matchers && select(matchers[t], url).Some?
      ensures select(matchers[t], url).value < |rules|
    {
      var j := select(matchers[t], url).value;
      assert j in matchers[t];
    }
  }

  /** In a built registry the URL lookups never hit an invalid rule id. */
  lemma LookupsNeverFail(rules: seq<Rule>, url: Url, item: Tag, request: Request, select: Select)
    requires SelectSound(select)
    ensures OverridesFor(NewRegistry(rules).0, request, select).Ok?
    ensures PageObjectForItem(NewRegistry(rules).0, url, item, select).Ok?
  {
    var reg := NewRegistry(rules).0;
    RegistryIndexesRules(rules);
    assert reg.rules == rules;
    RulesForUrlOk(rules, request.url, reg.overrides, select);
    RulesForUrlOk(rules, url, reg.items, select);
  }

  /** `overrides_for` substitutes base type `t` exactly when its matcher picks
      a rule for the request's URL, and then with that rule's `use`, which
      is a rule declared `instead_of` `t`. */
  lemma OverridesForPicksRule(rules: seq<Rule>, request: Request, select: Select, t: Tag)
    requires SelectSound(select)
    ensures var reg := NewRegistry(rules).0;
      var o := OverridesFor(reg, request, select);
      && o.Ok?
      && (t in o.value <==> t in reg.overrides && select(reg.overrides[t], request.url).Some?)
      && (t in o.value ==>
            var j := select(reg.overrides[t], request.url).value;
            j < |rules| && rules[j].insteadOf == Some(t) && o.value[t] == rules[j].use)
  {
    LookupsNeverFail(rules, request.url, t, request, select);
    RegistryIndexesRules(rules);
  }

  /** `page_object_for_item` gives the `use` of the matched rule returning
      `item`, and `None` when no rule for `item` matches the URL. */
  lemma PageObjectForItemPicksRule(rules: seq<Rule>, url: Url, item: Tag, select: Select)
    requires SelectSound(select)
    ensures var reg := NewRegistry(rules).0;
      var p := PageObjectForItem(reg, url, item, select);
      && p.Ok?
      && (p.value.Some? <==> Some(item) in reg.items && select(reg.items[Some(item)], url).Some?)
      && (p.value.Some? ==>
            var j := select(reg.items[Some(item)], url).value;
            j < |rules| && rules[j].toReturn == Some(item) && p.value.value == rules[j].use)
  {
    var reg := NewRegistry(rules).0;
    LookupsNeverFail(rules, url, item, Request(0, url, None, map[], None), select);
    RegistryIndexesRules(rules);
  }

  /** The two settings `from_crawler` reads. */
  datatype RegistrySettings = RegistrySettings(rules: Option<seq<Rule>>, overrides: Option<seq<Rule>>)

  /** `from_crawler`: `SCRAPY_POET_RULES`, else `SCRAPY_POET_OVERRIDES`, else
      no rules; `deprecated` is the `DeprecationWarning` for the old name. */
  function RegistryFromSettings(s: RegistrySettings): (r: (Registry, bool))
    ensures r.1 <==> s.overrides.Some?
    ensures s.rules.Some? ==> r.0.rules == s.rules.value
    ensures s.rules.None? && s.overrides.Some? ==> r.0.rules == s.overrides.value
    ensures s.rules.None? && s.overrides.None? ==> r.0.rules == []
  {
    var rules := s.rules.GetOr(s.overrides.GetOr([]));
    (NewRegistry(rules).0, s.overrides.Some?)
  }
}
