/** `PerDomainOverridesRegistry`, the older registry: a dictionary from a
    domain to the type substitutions used for requests to it. */
module Overrides {
  import opened Wrappers
  import opened Scrapy

  /** Domain to (replaced class to replacing class). */
  type PerDomain = map<string, map<Tag, Tag>>

  /** `overrides_for(request)`; `domainOf` is the foreign `get_domain`. */
  function OverridesFor(reg: PerDomain, request: Request, domainOf: Url -> string): (r: map<Tag, Tag>)
    ensures domainOf(request.url) in reg ==> r == reg[domainOf(request.url)]
    ensures domainOf(request.url) !in reg ==> r == map[]
  {
    var d := domainOf(request.url);
    if d in reg then reg[d] else map[]
  }

  /** `from_crawler`: the `SCRAPY_POET_OVERRIDES` dictionary, or an empty one. */
  function FromSettings(overrides: Option<PerDomain>): (r: PerDomain)
    ensures overrides.None? ==> r == map[]
    ensures overrides.Some? ==> r == overrides.value
  {
    overrides.GetOr(map[])
  }

  /** A class is replaced by `d` for a request exactly when the
      `SCRAPY_POET_OVERRIDES` setting lists that substitution under the
      request's domain; without the setting nothing is ever replaced. */
  lemma OverridesAsConfigured(settings: Option<PerDomain>, request: Request, domainOf: Url -> string, c: Tag, d: Tag)
    ensures var r := OverridesFor(FromSettings(settings), request, domainOf);
      var domain := domainOf(request.url);
      && ((c in r && r[c] == d) <==>
          (settings.Some? && domain in settings.value && c in settings.value[domain] && settings.value[domain][c] == d))
      && (settings.None? ==> r == map[])
  {
  }
}
