# scrapy-poet, modelled in Dafny

scrapy-poet connects web-poet page objects to Scrapy by dependency injection.

**What a spider callback can declare.** It can declare, in its signature, the page objects and page inputs it needs.

**What the `InjectionMiddleware` does with that:**
- it asks the andi planner for a build plan;
- it decides whether the real download is needed at all. A callback that only takes a `DummyResponse` gets a placeholder response, and a counter is incremented;
- it asks each registered provider for the classes it can build. Provider results are cached per request fingerprint, and errors are cached too;
- it builds the remaining plan entries in order;
- it writes the results into the request's `cb_kwargs`.

**The other pieces modelled:**
- the rules registry that substitutes page objects by URL pattern;
- the request fingerprinter that mixes the callback's dependencies into Scrapy's fingerprint;
- the spider and downloader middlewares that turn a `Retry` into a new request;
- the add-on that installs all of this into the settings.

**Earlier generations in the same repository are modelled next to the current one:**
- `scrapy_po`: the first page-object middleware, `WebPage`, and its provider dictionaries;
- the first scrapy_poet `middleware.py` and `utils.py`;
- the provider registries `providers.py` and `repository.py`;
- the AutoExtract integrations `scrapy_poet/autoextract*` and `autoextract_poet`.

Lemmas connect each older generation to the current one wherever they overlap: the download decision, response use, the `cb_kwargs` fill, `ResponseData` and the provider registration.

**How foreign code appears.** Code that lives outside these files is a function-typed parameter:
- the andi plan and `kwargs_spec`;
- `URLMatcher.match` (`select`) and `get_domain` (`domainOf`);
- `hashlib.sha1`, `json.dumps` and `repr`;
- the AutoExtract transport `request_raw`;
- Scrapy's `get_retry_request` and `load_object`;
- the regular expression and `float()` in the retry module;
- the tenacity wait values.

Properties that depend on such a piece state what they assume about it, for example that `sha1` is injective or that `select` returns a rule it was given.

**How Python constructs are represented:**
- A Python class is its qualified name (`Tag`).
- A subclass test is a predicate parameter.
- Exceptions are the `Exc` datatype.
- An operation that can raise returns a `Result`.
- Side effects that survive an exception come back together with the error: counters, cache writes and provider invocations.

Module layout follows the repository:
- `Scrapy`, `Json` and `Wrappers` hold the shared data model.
- `Injection` is `scrapy_poet/injection.py`; `ProviderLoop` and `Resolution` hold the proofs about its provider loop and its whole resolution pass.
- `Registry`, `Overrides`, `RequestFingerprinter`, `DownloaderMiddlewares`, `SpiderMiddlewares`, `PageInputProviders`, `Api` and `Addon` cover the rest of the current package.
- `LegacyUtils` and `LegacyMiddleware` are the first scrapy_poet middleware.
- `PoetProviders` and `Repository` are the two registries.
- `ProviderMaps`, `PoPageInputProviders`, `PoProviders`, `PoMiddleware` and `PoWebpage` are `scrapy_po`.
- `AutoextractQuery`, `AutoextractProviders`, `AutoextractRetry`, `JsonAccess`, `AutoextractPages` and `AutoextractMixins` are the AutoExtract code.

Three files define the same AutoExtract query dataclass:
- `scrapy_poet/autoextract.py`;
- `scrapy_poet/autoextract/query.py`;
- `autoextract_poet/query.py`.

All three have the same fields, defaults and `autoextract_query` property, so one `AutoextractQuery` model stands for all of them.

`get_callback` is defined three times with the same body:
- `scrapy_poet/injection.py`;
- `scrapy_poet/utils.py`;
- `scrapy_po/utils.py`.

It is modelled once, as `Scrapy.GetCallback`.

## Model

| member | source | states |
|---|---|---|
| Scrapy.ExplicitCallbackSameHandler | scrapy_poet/injection.py:435-441 | The handler is the request's own callback or the spider's `parse`, and setting it on the request explicitly does not change which callable handles the request |
| Scrapy.ScrapyDependencies | scrapy_poet/injection.py:131-143 | The objects offered to providers cover exactly the Scrapy-provided classes, each bound to the request, response, spider, crawler, settings or stats collector |
| Scrapy.RetryReason | scrapy_poet/spidermiddlewares.py:34 | The retry reason is the exception message, or `page_object_retry` when that is empty; it is never empty |
| Scrapy.ResponseDataOf | scrapy_poet/page_input_providers.py:112-119 | `ResponseData` can be built exactly from downloaded responses and carries their url and text |
| Scrapy.IncValue | scrapy_poet/downloadermiddlewares.py:103 | `inc_value` adds one to the named counter (starting from zero) and leaves every other counter as it was |
| Injection.IsCallbackRequiringScrapyResponse | scrapy_poet/injection.py:447-491 | A marked callback never needs the response. One without parameters raises `StopIteration`, and one whose first parameter is variadic needs it. Otherwise an error of `get_type_hints` propagates. When the hints resolve, the response is not needed exactly when the first parameter's resolved hint is a `DummyResponse` type, unless the request has `callback=None` (so `parse` is used) on Scrapy before 2.8 |
| Injection.AnyResponseDep | scrapy_poet/injection.py:504-517 | A provider needs the response exactly when one of its declared dependencies is a `Response` subclass |
| Injection.DiscoverCallbackProviders | scrapy_poet/injection.py:145-156 | The indices found are exactly the providers that provide at least one class of the plan |
| Injection.IsScrapyResponseRequired | scrapy_poet/injection.py:158-171 | An error from the callback test propagates. Otherwise the response is required exactly when the callback needs it or some discovered provider needs it |
| Injection.IsClassProvidedByAny | scrapy_poet/injection.py:413-432 | True exactly when some registered provider provides the class |
| Injection.TypeNames | scrapy_poet/injection.py:248-253 | Succeeds exactly when every requested type, once `Annotated` is stripped, is a class. The names are then the classes' short names, in order; otherwise it raises `TypeError` |
| Injection.GetDynamicDepsFactory | scrapy_poet/injection.py:238-257 | A non-class type raises `TypeError`. For classes, the factory exists exactly when the short names are pairwise distinct |
| Injection.DynamicDepsInstance | scrapy_poet/injection.py:225-235 | The generated factory builds a `DynamicDeps` whose keys are exactly the requested classes |
| Injection.DynamicDepsInstanceArgs | scrapy_poet/injection.py:225-233 | When the requested classes are distinct, each class maps to the argument given for it |
| Injection.CustomBuilderFor | scrapy_poet/injection.py:197-217 | For `DynamicDeps`, no or empty `inject` meta gives `lambda: {}`, and a non-empty one gives the generated factory or its error. For an item with a page object in the registry, the builder is `item_factory`; for any other class there is none |
| Injection.RunBuilder | scrapy_poet/injection.py:202-235 | `lambda: {}` returns a plain empty dict, not a `DynamicDeps`. An accepted `dynamic_deps_factory` returns a `DynamicDeps` mapping each requested class to the argument named after it. `item_factory` returns the page's `to_item()` |
| Injection.NoInjectMetaGivesEmptyDict | scrapy_poet/injection.py:198-203 | A request without `inject` meta gets `lambda: {}` for `DynamicDeps`, so the callback receives a plain empty dict |
| Injection.BuilderEntryStoresBuilt | scrapy_poet/injection.py:276-287 | A custom-builder plan entry stores, under the class it builds, what its builder returns on the planned arguments, counting one build; a builder exception ends the build |
| Injection.ClassEntryStep | scrapy_poet/injection.py:284-287 | A plain-class plan entry stores its class called on the planned arguments, counting one build; an exception from the class's `__init__` ends the build with that exception and the stats unchanged |
| Injection.CustomBuilderRuns | scrapy_poet/injection.py:197-235 | The builder `_get_custom_builder` chose for a class returns a plain empty dict for `DynamicDeps` without or with empty `inject` meta, a `DynamicDeps` mapping each injected class to its argument otherwise, and the page's `to_item()` for an item class |
| Injection.ObjsByType | scrapy_poet/injection.py:363-370 | The provided objects are keyed by their types, and a later object of a type replaces an earlier one |
| Injection.Deserialize | scrapy_poet/injection.py:335-340 | A cache hit yields one object per stored leaf |
| Injection.CacheNeedsProviderName | scrapy_poet/injection.py:317-322 | With the cache on, a provider without a name raises `NotImplementedError` before anything changes |
| Injection.NothingAskedNothingDone | scrapy_poet/injection.py:306-313 | A provider that has nothing left to provide is skipped, and the state is unchanged |
| Injection.CacheHitSkipsProvider | scrapy_poet/injection.py:327-341 | A cache hit on stored objects does not invoke the provider and does not touch the store |
| Injection.CachedErrorIsRaised | scrapy_poet/injection.py:327-334 | Corrected: a cache hit on a stored error counts the hit and raises that same error without calling the provider |
| Injection.CachedErrorAsWritten | scrapy_poet/injection.py:327-334 | As written, a cache hit on a stored error raises `AttributeError` from `.items()` instead of the stored error, and counts no hit |
| Injection.CacheMissCallsProvider | scrapy_poet/injection.py:343-354 | A cache miss invokes the provider with exactly the classes still needed and counts one miss |
| Injection.CacheMissError | scrapy_poet/injection.py:356-361 | A provider error on a miss is stored under the cache key and then raised |
| Injection.CacheMissResult | scrapy_poet/injection.py:385-388 | A successful miss stores the provider's objects under the key |
| Injection.MissThenHitRoundTrip | scrapy_poet/injection.py:325-388 | After a miss has stored a provider's objects, a later run of that provider for the same fingerprint reads the same objects back without calling it, when deserializing inverts serializing on them. It counts one hit, stores nothing, and raises only for an undeclared type; an empty stored result calls the provider again |
| Injection.NoCacheNoStore | scrapy_poet/injection.py:317-388 | Without the cache, the store and the cache counters never change |
| Injection.UndeclaredTypeRaises | scrapy_poet/injection.py:315-377 | A provider called without a cache, or on a cache miss, that returns an object of a type it was not asked for raises `UndeclaredProvidedTypeError` and adds no instance |
| Resolution.ProviderSelection | scrapy_poet/injection.py:304-383 | Every provider is invoked only with classes of the plan that it provides and that no earlier provider produced. On success, each class built comes from exactly one provider, every instance is a plan class, and the weak cache holds all instances |
| ProviderLoop.EarlierProviderWins | scrapy_poet/injection.py:306-310 | A class already produced is not asked of a later provider and keeps its first instance |
| Injection.Kwargs | scrapy_poet/injection.py:276-287 | The callback arguments exist exactly when every argument's class was built. Each argument name then maps to its class's instance |
| Injection.BuildRemainingCompletes | scrapy_poet/injection.py:260-289 | When every entry's inputs come earlier in the plan and no custom builder or class constructor raises, building the rest succeeds, builds every entry and keeps the provider instances |
| Injection.BuiltPositions | scrapy_poet/injection.py:276-287 | The entries built by factories are exactly the plan positions not already provided, in plan order |
| Resolution.ResolutionSucceeds | scrapy_poet/injection.py:393-401 | When providers succeed, the plan is ordered and no builder or constructor raises, the callback dependencies are built and every callback argument is present |
| Registry.AddRule | scrapy_poet/registry.py:89-121 | A rule indexes its patterns under its `instead_of` class and under its `to_return` item, and leaves every other entry as it was. It warns exactly when the item already has identical patterns |
| Registry.NewRegistryWarnings | scrapy_poet/registry.py:79-121 | Building the registry warns, in rule order, about exactly the rules whose item class already has an earlier rule with equal patterns; a rule without `to_return` never warns |
| Registry.RegistryIndexesRules | scrapy_poet/registry.py:79-121 | After construction, rule `j` is reachable under its `instead_of` and its `to_return` keys with index `j` and its own patterns |
| Registry.DuplicatePatternsOnlyWarn | scrapy_poet/registry.py:96-121 | Duplicate patterns for an item give a warning, and the new rule is still registered |
| Registry.RulesForUrl | scrapy_poet/registry.py:126-134 | The result holds exactly the classes whose matcher selects a rule for the URL, each mapped to that rule's `use` |
| Registry.RulesForUrlOk | scrapy_poet/registry.py:126-134 | With a matcher that only returns indices it was given, the lookup never fails |
| Registry.LookupsNeverFail | scrapy_poet/registry.py:126-143 | Both lookups on a registry built from rules always succeed |
| Registry.OverridesForPicksRule | scrapy_poet/registry.py:136-137 | A class is overridden for a URL exactly when its matcher selects a rule. That rule replaces this class, and its `use` is the replacement |
| Registry.PageObjectForItemPicksRule | scrapy_poet/registry.py:139-143 | A page object is found for an item exactly when its matcher selects a rule. That rule returns this item, and its `use` is the page object |
| Registry.RegistryFromSettings | scrapy_poet/registry.py:66-77 | `SCRAPY_POET_RULES` wins. Otherwise the deprecated `SCRAPY_POET_OVERRIDES` is used, with a warning exactly when it is set, and otherwise no rules |
| Overrides.OverridesAsConfigured | scrapy_poet/overrides.py:24-29 | A class is replaced by another for a request exactly when the `SCRAPY_POET_OVERRIDES` setting lists that substitution under the request's domain; without the setting nothing is replaced |
| RequestFingerprinter.FindInjector | scrapy_poet/_request_fingerprinter.py:48-51 | Finds the first injection middleware of the downloader, if there is one |
| RequestFingerprinter.Injector | scrapy_poet/_request_fingerprinter.py:46-55 | Raises `RuntimeError` exactly when no downloader middleware is the injection middleware |
| RequestFingerprinter.DepReprs | scrapy_poet/_request_fingerprinter.py:65 | One `repr` per callback argument, in order, of its class |
| RequestFingerprinter.GetDeps | scrapy_poet/_request_fingerprinter.py:57-65 | Fails exactly when the injector is missing. There are no dependencies exactly when the callback takes no injected arguments; otherwise they are the reprs |
| RequestFingerprinter.NoDepsKeepsBase | scrapy_poet/_request_fingerprinter.py:82-88 | A request whose callback has no dependencies keeps the base fingerprint, and nothing is memoised |
| RequestFingerprinter.DepsExtendBase | scrapy_poet/_request_fingerprinter.py:67-91 | With dependencies, the fingerprint is the sha1 of the base fingerprint followed by the dependency digest, and that digest is memoised for the callback |
| RequestFingerprinter.CallbackMemoReused | scrapy_poet/_request_fingerprinter.py:70-72 | A callback seen before reuses its memoised digest without recomputing the dependencies |
| RequestFingerprinter.OnlyDepsAreMemoised | scrapy_poet/_request_fingerprinter.py:70-91 | The memo tables only grow, each by at most this request and this callback, and an entry is added only after a successful computation |
| RequestFingerprinter.FingerprintIdempotent | scrapy_poet/_request_fingerprinter.py:83-84 | Fingerprinting the same request again returns the same value and changes nothing |
| RequestFingerprinter.SameCallbackSameFingerprint | scrapy_poet/_request_fingerprinter.py:70-91 | Two requests with the same callback, base fingerprint and plan get the same fingerprint |
| RequestFingerprinter.NamesDoNotMatter | scrapy_poet/_request_fingerprinter.py:65 | Renaming the callback's arguments does not change the fingerprint; only their classes count |
| RequestFingerprinter.DifferentDepsDiffer | scrapy_poet/_request_fingerprinter.py:78-90 | With injective `sha1`, `dumps` and `repr`, requests whose dependency classes differ get different fingerprints |
| RequestFingerprinter.MissingMiddlewareRaises | scrapy_poet/_request_fingerprinter.py:46-55 | Without the injection middleware, fingerprinting a new request raises `RuntimeError` |
| DownloaderMiddlewares.DefaultProvidersOrdered | scrapy_poet/downloadermiddlewares.py:44-52 | Seven distinct default providers with strictly increasing priorities, from 400 to 1000 |
| DownloaderMiddlewares.DummyResponsesNotCounted | scrapy_poet/downloadermiddlewares.py:35-41 | The `DummyResponse` that `process_request` returns in place of a download passes the stats middleware untouched, so it is never counted as a downloaded response |
| DownloaderMiddlewares.ProcessRequest | scrapy_poet/downloadermiddlewares.py:98-104 | The download proceeds when the response is required. Otherwise a `DummyResponse` tied to the request is returned and only the dummy counter grows |
| DownloaderMiddlewares.SkipDependencyCreation | scrapy_poet/downloadermiddlewares.py:106-131 | From Scrapy 2.8, or with an explicit callback, dependencies are never skipped. Otherwise they are skipped exactly when the user did not supply all of `parse`'s arguments and some provider applies |
| DownloaderMiddlewares.FillCallbackKwargs | scrapy_poet/downloadermiddlewares.py:179-184 | The filled arguments are the user's together with the built ones |
| DownloaderMiddlewares.FillPrecedence | scrapy_poet/downloadermiddlewares.py:179-184 | A built value wins over the user's, except that a built `None` never replaces a value the user supplied |
| DownloaderMiddlewares.FillIdempotent | scrapy_poet/downloadermiddlewares.py:179-184 | Filling again with the same built values changes nothing |
| DownloaderMiddlewares.ProcessResponseKeepsIdentity | scrapy_poet/downloadermiddlewares.py:133-187 | The outcome is the response it was given, with a request that differs only in `cb_kwargs` and keeps every user argument; or a retried request, only for a `Retry`; or an exception, exactly when skipping fails or building fails with something other than `Retry`. The generator never lets `StopIteration` escape: a `parse` without parameters surfaces as `RuntimeError` |
| DownloaderMiddlewares.ProcessResponseIdempotent | scrapy_poet/downloadermiddlewares.py:177-187 | Processing the filled request again with the same built values hands back the same request |
| DownloaderMiddlewares.RetryAlikeInBothMiddlewares | scrapy_poet/spidermiddlewares.py:28-38 | A `Retry` raised while building dependencies and one raised by the callback retry the same request alike: both give the retried request, or the downloader middleware gives the response exactly when the spider middleware schedules nothing |
| SpiderMiddlewares.RetryTargetsSourceRequest | scrapy_poet/spidermiddlewares.py:30-38 | A `Retry` yields at most one request, exactly when the retry helper allows one, with a non-empty reason |
| PageInputProviders.UnexpectedNamesProvider | scrapy_poet/page_input_providers.py:87-90 | The error for an unexpected `provided_classes` names the provider class |
| PageInputProviders.AsInjectorProvider | scrapy_poet/page_input_providers.py:77-90 | A provider with a valid `provided_classes` answers the injector's question exactly as `is_provided` does |
| PageInputProviders.ResponseDataProviderDeclares | scrapy_poet/page_input_providers.py:110 | `ResponseDataProvider` provides `ResponseData` and nothing else |
| PageInputProviders.ResponseDataProviderCall | scrapy_poet/page_input_providers.py:112-119 | The provider returns one `ResponseData` built from the response's url and text, whatever was asked; a `DummyResponse` raises |
| Api.DummyResponseHasNoBody | scrapy_poet/api.py:30-31 | The `DummyResponse` that `process_request` returns for a skipped download keeps the url and the request it stands for, and has no body: building `ResponseData` from it raises `AttributeError` |
| Api.CallbackForMatchesHandWritten | scrapy_poet/api.py:55-135 | The callback built for a page class takes the same injected `page` argument as the hand-written `parse_book(self, response: DummyResponse, page: BookPage)` of the docstring and yields the same single item, `page.to_item()`. It never needs the response, while the hand-written one needs it exactly as the default `parse` of a request without a callback before Scrapy 2.8 |
| Api.Signature | scrapy_poet/api.py:119-134 | The generated callback is marked as not needing the response and takes `page` (or `item`) annotated with the class |
| Api.CallbackForNeedsNoResponse | scrapy_poet/injection.py:455-457 | The injector never downloads for a `callback_for` callback |
| LegacyUtils.IsCallbackUsingResponse | scrapy_poet/utils.py:72-95 | A callback uses the response unless it is marked or its first argument is annotated with a `DummyResponse` type; a non-class annotation raises `TypeError` |
| LegacyUtils.GenerationsAgreeOnResponseUse | scrapy_poet/utils.py:72-95 | When the first parameter's hint resolves to its annotation as written, the first and current generations differ exactly for a non-class annotation, or for a `DummyResponse` annotation on a request with `callback=None` (which defaults to `parse`) before Scrapy 2.8 |
| LegacyUtils.StringAnnotationSplitsGenerations | scrapy_poet/utils.py:90-95 | A string annotation naming a `DummyResponse` type makes the first generation raise `TypeError`, while the current injector reads the resolved class and does not need the response, except for `callback=None` before Scrapy 2.8 |
| LegacyUtils.UnresolvedHintOnlyFailsCurrent | scrapy_poet/injection.py:467-468 | An annotation `get_type_hints` cannot resolve makes the current injector raise its error. The first generation's decision does not depend on the resolved hints at all |
| LegacyUtils.IsProviderUsingResponse | scrapy_poet/utils.py:98-115 | A provider uses the response exactly when some `__init__` argument may be a `Response` that is not a `DummyResponse` |
| LegacyUtils.GetProviders | scrapy_poet/utils.py:132-139 | The providers are exactly the registered providers of the plan's classes |
| LegacyUtils.GetProvidersAppend | scrapy_poet/utils.py:132-139 | Providers of a concatenated plan are the concatenation of both plans' providers |
| LegacyUtils.IsResponseGoingToBeUsed | scrapy_poet/utils.py:118-129 | A callback error propagates. Otherwise the response is used exactly when the callback uses it or some plan provider does |
| LegacyUtils.BuildFrom | scrapy_poet/utils.py:165-174 | Building from position `k` adds every later plan class: a provided one with its provider's result, any other constructed as its class; an exception from that class's `__init__` is the result |
| LegacyUtils.BuildInstances | scrapy_poet/utils.py:165-174 | Every plan class is built; a provided one holds the provider's result and any other is an instance of its class. An error leaves the generator, a `StopIteration` as `RuntimeError` |
| LegacyUtils.BuildFromSucceeds | scrapy_poet/utils.py:165-174 | When providers return, no constructor raises and every class's arguments come earlier, building succeeds |
| LegacyUtils.CallbackFor | scrapy_poet/utils.py:204-222 | A non-`ItemPage` raises `TypeError`, and an abstract `to_item` raises `NotImplementedError`. Otherwise the result is a marked callback with a `page` argument |
| LegacyUtils.CallbackForNeedsNoResponse | scrapy_poet/utils.py:204-222 | The first generation never downloads for its `callback_for` callbacks |
| LegacyMiddleware.SameDecisionAsCurrentGeneration | scrapy_poet/middleware.py:37-41 | The first and current generations make the same download decision; only the current one counts dummy responses |
| LegacyMiddleware.FillAbsent | scrapy_poet/middleware.py:79-82 | User arguments are kept, and built values fill only the absent ones |
| LegacyMiddleware.FillAbsentIdempotent | scrapy_poet/middleware.py:79-82 | Filling again with the same built values changes nothing |
| LegacyMiddleware.FillGenerationsDiffer | scrapy_poet/middleware.py:79-82 | The two generations' fills differ exactly on user arguments that were built with a different, non-`None` value |
| LegacyMiddleware.DependenciesAreScrapyProvided | scrapy_poet/middleware.py:63-71 | The Scrapy objects offered are exactly `SCRAPY_PROVIDED_CLASSES`, so the assertion holds |
| LegacyMiddleware.ProcessResponse | scrapy_poet/middleware.py:43-85 | A build error propagates, a `StopIteration` as `RuntimeError`, and no error is `StopIteration`. Success returns the same response, with the callback arguments added and the user's kept |
| LegacyMiddleware.ProcessResponseSucceeds | scrapy_poet/middleware.py:72-82 | With an ordered plan, returning providers, no constructor raising and arguments drawn from the plan, the middleware succeeds |
| ProviderMaps.Register | scrapy_po/page_input_providers.py:11-16 | Registration maps the class to the provider and leaves other classes alone |
| ProviderMaps.LastRegistrationWins | scrapy_po/page_input_providers.py:11-16 | Registering again for a class replaces the earlier provider |
| ProviderMaps.RegistrationsCommute | scrapy_po/providers.py:23-29 | Registrations for different classes can happen in any order |
| ProviderMaps.Provides | scrapy_po/providers.py:32-39 | The decorator registers the class and returns it unchanged |
| ProviderMaps.RegisterAllOwn | scrapy_poet/repository.py:43-45 | A run of registrations succeeds exactly when every provider has `provided_class` |
| ProviderMaps.RegisterAllOwnKeys | scrapy_poet/repository.py:43-45 | After the run, the registry's classes are the old ones plus each provider's class |
| ProviderMaps.RegisterAllOwnKeepsOthers | scrapy_poet/repository.py:28 | A class no provider in the run registers for keeps its provider |
| ProviderMaps.RegisterAllOwnLastWins | scrapy_poet/repository.py:43-45 | Each class maps to the provider registered for it last |
| PoPageInputProviders.ModuleProviders | scrapy_po/page_input_providers.py:35-47 | The module registers exactly `None` and `ResponseData`, and not `NoneType` |
| PoPageInputProviders.NoneProviderOutputUnregistered | scrapy_po/page_input_providers.py:35-38 | The `None` the `None` provider returns has type `NoneType`, a class the module registers no provider for; the provider itself is registered under `None` |
| PoPageInputProviders.ResponseDataProviderCall | scrapy_po/page_input_providers.py:41-47 | `ResponseData` from the url and text of a downloaded response |
| PoPageInputProviders.SameResponseDataAsCurrentGeneration | scrapy_po/page_input_providers.py:41-47 | The first and current `ResponseDataProvider` succeed on the same responses and give the same data |
| PoProviders.ModuleProviders | scrapy_po/providers.py:42 | The module registers exactly the `HtmlResponse` provider |
| PoProviders.HtmlResponseProviderCall | scrapy_po/providers.py:48-59 | An `HtmlResponse` holds a downloaded response's url and text; a dummy response raises |
| PoProviders.HtmlResponseMatchesResponseData | scrapy_po/providers.py:48-59 | `HtmlResponse` and `ResponseData` succeed on the same responses and hold the same url and content |
| PoMiddleware.ProcessRequest | scrapy_po/middleware.py:18-35 | A download happens exactly when the response is going to be used; otherwise a `DummyResponse` for the request replaces it |
| PoMiddleware.ProcessResponse | scrapy_po/middleware.py:37-54 | Fails exactly when the final arguments fail. Success keeps the response and the user's arguments and adds the built ones |
| PoMiddleware.ProcessResponseIdempotent | scrapy_po/middleware.py:48-51 | Processing the filled request again changes nothing |
| PoWebpage.NoneTypeIsInjectable | scrapy_po/webpage.py:10-22 | `NoneType` is registered as injectable and is neither a page nor a web page |
| PoWebpage.ItemWebPageIsBoth | scrapy_po/webpage.py:74-79 | `ItemWebPage` is both a `WebPage` and an `ItemPage`, and a `WebPage` is not an `ItemPage` |
| PoWebpage.ShortcutsOfProvidedData | scrapy_po/webpage.py:37-52 | A page built on the `ResponseData` provided for a downloaded response has that response's url and text as `url` and `html`, and its selector is built from that text |
| PoWebpage.SelectorOf | scrapy_po/webpage.py:39-44 | The selector is built from the html on first use and cached |
| PoWebpage.SelectorReused | scrapy_po/webpage.py:39-44 | Asking twice returns the cached selector and changes nothing |
| PoWebpage.Query | scrapy_po/webpage.py:54-58 | `css` and `xpath` run on the page's selector |
| PoWebpage.CallbackForLikeCurrentGeneration | scrapy_po/webpage.py:82-86 | This generation's `callback_for` takes the same injected `page` argument as the current one's and yields the same item; only the current one is marked as not needing the response |
| PoWebpage.CallbackForUsesResponse | scrapy_po/webpage.py:82-86 | Both scrapy_poet generations decide to download for a scrapy_po `callback_for` callback |
| PoetProviders.Register | scrapy_poet/providers.py:20-35 | Registering uses the explicit class or the provider's `provided_class`, and fails exactly when both are missing |
| PoetProviders.Provides | scrapy_poet/providers.py:39-50 | The decorator registers as `register` does and returns the class |
| PoetProviders.ModuleProviders | scrapy_poet/providers.py:53-55 | Importing the module succeeds exactly when `ResponseDataProvider` has `provided_class` |
| PoetProviders.ImportRaises | scrapy_poet/providers.py:53 | With the `ResponseDataProvider` of the same package, importing raises `AttributeError` |
| PoetProviders.ImportRegistersThree | scrapy_poet/providers.py:53-55 | With a `provided_class`, the import registers exactly `ResponseData`, `ArticleResponseData` and `ProductResponseData` |
| Repository.Register | scrapy_poet/repository.py:20-28 | Registration fails exactly without `provided_class`; otherwise it maps that class to the provider |
| Repository.ReRegistrationOverwrites | scrapy_poet/repository.py:28 | A second registration for the same class replaces the first |
| Repository.SameAsProvidersRegister | scrapy_poet/repository.py:20-28 | The repository registers exactly like `providers.register` without an explicit class |
| Repository.ProviderDecorator | scrapy_poet/repository.py:32-40 | The decorator registers the class and returns it |
| Repository.ModuleProviders | scrapy_poet/repository.py:43-45 | Importing succeeds exactly when `ResponseDataProvider` has `provided_class` |
| Repository.SameRegistrationsAsProviders | scrapy_poet/repository.py:43-45 | Both registries end up with the same registrations, and both fail on the package's own `ResponseDataProvider` |
| Repository.ImportRegistersThree | scrapy_poet/repository.py:43-45 | With a `provided_class`, the import registers exactly three classes |
| AutoextractQuery.QueryRoundTrip | scrapy_poet/autoextract/query.py:13-21 | Parsing the API query gives back the query |
| AutoextractQuery.ParsedQueryReserialises | autoextract_poet/query.py:11-19 | Any API query that parses is exactly the serialisation of what it parses to |
| AutoextractQuery.ApiQueryInjective | scrapy_poet/autoextract.py:25-33 | Different queries give different API queries |
| AutoextractProviders.ConcreteProviders | scrapy_poet/autoextract/providers.py:45-56 | The product and article providers ask for `product` and `article` pages; product and product-list counters never collide |
| AutoextractProviders.ProviderQuery | scrapy_poet/autoextract.py:57-59 | The provider queries the request's url for its page type, with the full html |
| AutoextractProviders.ProviderQuerySerialises | scrapy_poet/autoextract/providers.py:40-42 | The serialised provider query is one object with the url, page type and `fullHtml` true |
| AutoextractProviders.CounterNamesDistinct | scrapy_poet/autoextract/providers.py:27-38 | Counter names differ exactly when the page type or the outcome differs |
| AutoextractProviders.Provide | scrapy_poet/autoextract.py:44-55 | The provider succeeds exactly when the API answers with data, and gives its first element. Every call counts `total` and exactly one of `success` or `error` |
| AutoextractProviders.ProvideAllBalanced | scrapy_poet/autoextract.py:44-55 | Over any run of requests, `total` grows by the number of requests and always equals `success` plus `error` |
| AutoextractRetry.NoMessageNotRetriable | autoextract_poet/retry.py:106-109 | A missing or empty message is not retriable |
| AutoextractRetry.DocstringExamples | autoextract_poet/retry.py:100-110 | The three docstring examples of `_is_retriable_error_msg`: `" query timed Out "` is retriable, `"ey"` and `None` are not |
| AutoextractRetry.RetriableIgnoresCaseAndSpace | autoextract_poet/retry.py:109-110 | Surrounding whitespace and upper case do not change retriability |
| AutoextractRetry.RetriableByNormalForm | autoextract_poet/retry.py:71-110 | A message and its normal form are retriable alike |
| AutoextractRetry.NormalizeIdempotent | autoextract_poet/retry.py:109-110 | Normalising twice equals normalising once |
| AutoextractRetry.NormalizeIgnoresSurroundingSpace | autoextract_poet/retry.py:110 | Leading and trailing whitespace does not change the normal form |
| AutoextractRetry.NormalizeIgnoresCase | autoextract_poet/retry.py:109 | Lower-casing first does not change the normal form |
| AutoextractRetry.OccupiedDomainWaitsAsReported | autoextract_poet/retry.py:42-68 | Corrected strategies: a query error whose message reports an occupied domain is retried after the seconds it reports, or five minutes when the number is malformed, and retrying never stops on it. A report of zero seconds gives no reason to retry, so the message alone decides |
| AutoextractRetry.RetriableMessageBacksOff | autoextract_poet/retry.py:100-153 | Corrected strategies: a query error with a listed message that reports no occupied domain is retried after the random back-off, and retrying stops once 15 minutes have passed |
| AutoextractRetry.OnlyQueryErrorsRetried | autoextract_poet/retry.py:118-120 | Only query-level errors are retried |
| AutoextractRetry.WaitAsWritten | autoextract_poet/retry.py:131-139 | As written, an occupied domain yields a `wait_fixed` object, a retriable error the random wait, and anything else raises `RuntimeError` |
| AutoextractRetry.WaitAsWrittenNotANumber | autoextract_poet/retry.py:133-135 | As written, an occupied domain's wait is an object and not a number of seconds |
| AutoextractRetry.Wait | autoextract_poet/retry.py:131-139 | Corrected: an occupied domain waits the reported seconds, a retriable error the random wait, and anything else raises |
| AutoextractRetry.WaitCorrectsAsWritten | autoextract_poet/retry.py:131-139 | The corrected wait fails exactly where the written one does, and otherwise gives the seconds the written one wraps |
| AutoextractRetry.StopAsWritten | autoextract_poet/retry.py:146-153 | As written, an occupied domain yields the `stop_never` object, and a retriable error stops after the delay |
| AutoextractRetry.StopAsWrittenStopsAtOnce | autoextract_poet/retry.py:148-149 | As written, an occupied domain stops retrying at once, because the returned object is truthy |
| AutoextractRetry.Stop | autoextract_poet/retry.py:146-153 | Corrected: an occupied domain never stops, and a retriable error stops once the delay has passed |
| AutoextractRetry.StopOnlyAfterDelay | autoextract_poet/retry.py:143-153 | The corrected strategy stops only for a retriable error, after the delay |
| JsonAccess.GetIsIndexOrDefault | autoextract_poet/mixins.py:13-18 | On a dict, `.get(key, default)` gives what subscripting gives when the key is present and the default exactly when subscripting raises `KeyError`; on anything else both raise |
| JsonAccess.IndexBy | autoextract_poet/mixins.py:17 | Subscripting by a computed key succeeds only with a string key present in a dict |
| AutoextractPages.ProductToItem | autoextract_poet/pages.py:17-19 | The item is the `product` part of the data, or an empty dict |
| AutoextractPages.ProductList | autoextract_poet/pages.py:28-30 | The `productList` part of the data, or an empty dict |
| AutoextractPages.Breadcrumbs | autoextract_poet/pages.py:32-33 | The list's breadcrumbs, or an empty list |
| AutoextractPages.ToItems | autoextract_poet/pages.py:40-41 | The list's products, or an empty list |
| AutoextractPages.ItemUrls | autoextract_poet/pages.py:36 | One url per product, or `None`; a product that is not a dict raises |
| AutoextractPages.KeepTruthy | autoextract_poet/pages.py:37 | Keeps every truthy url and nothing else, and is empty exactly when none is truthy |
| AutoextractPages.KeepTruthyAppend | autoextract_poet/pages.py:37 | Filtering distributes over concatenation |
| AutoextractPages.KeepTruthyAround | autoextract_poet/pages.py:37 | Each url keeps its place: it is kept, after what is kept before it and before what is kept after it, exactly when it is truthy |
| AutoextractPages.KeepTruthyKeepsTruthy | autoextract_poet/pages.py:37 | A list of truthy urls is kept whole |
| AutoextractPages.Urls | autoextract_poet/pages.py:35-38 | The product urls, without the falsy ones, in product order |
| AutoextractPages.UrlsOfWellFormedList | autoextract_poet/pages.py:35-38 | When every product has a truthy url, the result is exactly those urls |
| AutoextractMixins.UserQuery | autoextract_poet/mixins.py:13 | The user query is `data["query"]["userQuery"]`; it fails exactly when a level is missing |
| AutoextractMixins.Response | autoextract_poet/mixins.py:7-18 | The url is the page's own url, else the query's, and the html defaults to empty |
| AutoextractMixins.ResponseReadsBack | autoextract_poet/mixins.py:7-18 | For any API response holding a user query with a page type and URL, the entry for that page type and perhaps the HTML, the shortcut gives back the entry's own URL (else the query's) and the HTML (else the empty string) |
| AutoextractMixins.PageTypeFromUserQuery | autoextract_poet/mixins.py:13 | A user query without `pageType` raises `KeyError` |
| AutoextractMixins.FallbackEvaluatedEagerly | autoextract_poet/mixins.py:17 | A query without `url` raises `KeyError` even when the page has its own url |
| Addon.FindPath | scrapy_poet/_addon.py:41-47 | Finds a string key that loads to the class, and a failing load raises |
| Addon.SetDefault | scrapy_poet/_addon.py:74-86 | An empty setting gets just the class. A present class is left alone; otherwise the class is added |
| Addon.SetDefaultIdempotent | scrapy_poet/_addon.py:74-86 | Setting a default twice equals setting it once |
| Addon.EntryIn | scrapy_poet/_addon.py:35-47 | The built-in entry is the class itself when present, else the first path that loads to it |
| Addon.BuiltinEntry | scrapy_poet/_addon.py:35-50 | The setting is searched first, then its `_BASE` |
| Addon.ReplaceBuiltin | scrapy_poet/_addon.py:15-70 | Replacement leaves an empty setting alone, and a present new class too. Otherwise the new class takes the built-in's place. Only the named setting changes, and no key is lost |
| Addon.ReplaceBuiltinIdempotent | scrapy_poet/_addon.py:15-70 | Replacing twice equals replacing once |
| Addon.InstalledKept | scrapy_poet/_addon.py:96-103 | A component installed in a setting stays installed when keys are only added |
| Addon.FingerprinterByPriority | scrapy_poet/_addon.py:91-95 | The add-on's fingerprinter takes effect when the setting was unset or set at priority 15 or lower; otherwise the old setting stays. The resulting priority is the higher of the two, so a project-level (20) setting is kept |
| Addon.UpdateSettings | scrapy_poet/_addon.py:89-103 | Installs the fingerprinter by priority. When no edit raises, the result's components are exactly those of setting the injection middleware at 543, then the retry middleware at 275, then replacing Scrapy's `DownloaderStats` by the stats middleware |
| Addon.FreshInjection | scrapy_poet/_addon.py:96 | On a fresh project, the injection middleware is added at 543 |
| Addon.FreshRetry | scrapy_poet/_addon.py:97 | On a fresh project, the retry middleware is added at 275 |
| Addon.FreshStats | scrapy_poet/_addon.py:98-103 | On a fresh project, the stats middleware replaces Scrapy's |
| Addon.UpdateSettingsOnDefaults | scrapy_poet/_addon.py:89-103 | On a fresh project, the add-on succeeds with the injection and stats middlewares and the retry middleware |

## Left out

- The andi planner, `final_kwargs` and `kwargs_spec`: these are foreign. The plan is an input, and whether the plan is well ordered is a precondition of the lemmas that need it.
- The `URLMatcher`, `get_domain`, `load_object`, `hashlib.sha1`, `json.dumps`, `repr` and web-poet's `serialize`/`deserialize_leaf`: they are function parameters. Properties about them state their assumptions.
- The AutoExtract transport `request_raw`: it is a parameter returning a value or an exception.
- Class constructors: `cls(**kwargs)` is modelled as an instance of `cls` holding its arguments, or as the exception that the `init` parameter names for the class's `__init__`. A `__new__` that returns some other object is not modelled.
- The regular expression and `float()` in `_domain_occupied`: they are parameters.
- tenacity's internals, the random wait and the clock: the wait values and the elapsed time are inputs.
- Twisted and `async`: `inlineCallbacks`, `maybeDeferred_coro` and `deferred_from_coro` are left out, so every operation is modelled as completing.
- Weak references: the weak cache is an explicit per-request map, and garbage collection is not modelled.
- The persistent cache: `scrapy_poet/injection.py` uses a `SerializedDataCache`, and the model assumes that it stores and returns values unchanged. The cache is then a map from key to stored leaves or a stored error. The rest of the model uses the corrected lookup, where a hit on a stored error re-raises it.
- Logging, warnings and exception message texts: they are kept only where a contract depends on them.
- Setting priorities of whole component dicts: they are not modelled, because the add-on only compares scalar priorities.
- `check_all_providers_are_callable`, `load_providers` and `init_cache`: the injector's provider list, its cache mode and its fingerprint are inputs.
- Injection.Deserialize: states only the count of objects, not their values, because `deserialize_leaf` is foreign.
- DownloaderMiddlewares.FillCallbackKwargs: its own contract states only the keys; the values are stated by `DownloaderMiddlewares.FillPrecedence`.
- RequestFingerprinter.DifferentDepsDiffer: it is stated under injectivity assumptions on `sha1`, `dumps` and `repr`, and it does not say that a request with dependencies differs from one without. That would need the base digest never to collide with the combined digest.
- The dependency fingerprint depends on the order of the callback's arguments, because `json.dumps` keeps list order. The model follows the code.
- The commands, `po_tester`, the downloader and backend helpers, `autoextract_poet/utils.py` and the test utilities: they are outside the modelled core.
- scrapy_po's `customizations.py`, `requests_mixin.py` and `page_inputs.py`: they are outside the modelled core.
- Data-only modules: `inputs.py`, `injection_errors.py`, `exceptions.py` and `page_input_provider.py` are used only as datatype and error definitions.
- Unicode case mapping: `lower` in the retry module is modelled for the ASCII letters only. `strip` removes every character `str.isspace` accepts, including the separators 0x1C-0x1F and the Unicode spaces.
- Truthiness of floats: a wait of `0.0` is falsy, and NaN is not modelled.

Where these files do not fit together, the model follows each file as written:
- `scrapy_poet/utils.py` imports a `providers` dictionary that `page_input_providers.py` does not define. `scrapy_poet/middleware.py` imports `SCRAPY_PROVIDED_CLASSES` from `utils.py`, which does not define it. The registry and the constant are therefore inputs.
- `scrapy_poet/middleware.py` passes the Scrapy dependencies where `build_plan` expects the response. The model takes the plan as given.
- `scrapy_po/middleware.py` calls utility functions that `scrapy_po/utils.py` does not define. Their results are inputs.
- `scrapy_poet/autoextract.py` imports `autoextract_poet.page_inputs`, which does not exist. `scrapy_poet/autoextract/providers.py` imports `provides` from a module that lacks it. The AutoExtract providers are modelled on their own.
- `build_plan` in `scrapy_poet/injection.py` passes `request.url` to `overrides_for`, which expects a request. The lookup is modelled on the request.
- The default of `DummyResponse`'s `request` in `scrapy_poet/utils.py` is the type `Optional[Request]`, not `None`. The model always passes the request.
- The AutoExtract provider calls `request_raw` without awaiting it. The model treats the call's outcome as given.
- `scrapy_poet/injection.py` imports `SerializedDataCache` from `scrapy_poet/cache.py`, which defines only `_Cache` and `SqlitedictCache`. What the missing class does is the assumption stated above.

## Findings

| source | as written | input that shows it | evidently intended | confidence | as-written member | corrected member |
|---|---|---|---|---|---|---|
| autoextract_poet/retry.py:146-153 | the stop strategy returns the `stop_never` object for an occupied domain, and tenacity reads that truthy value as "stop" | a query-level error whose message reports the domain as occupied for 10 seconds | never stop while the domain is occupied, and wait as asked | not executed | AutoextractRetry.StopAsWrittenStopsAtOnce | AutoextractRetry.StopOnlyAfterDelay |
| autoextract_poet/retry.py:131-139 | the wait strategy returns a `wait_fixed(wait)` object where tenacity expects seconds | the same occupied-domain error | wait the number of seconds reported | not executed | AutoextractRetry.WaitAsWrittenNotANumber | AutoextractRetry.WaitCorrectsAsWritten |
| scrapy_poet/injection.py:327-334 | `.items()` is called on the cached value before the `isinstance(data, Exception)` test, so a cached exception raises `AttributeError` and the test never holds | `SCRAPY_POET_CACHE_ERRORS` on, a provider that raised once, and the same request again | count the hit and re-raise the cached exception | not executed | Injection.CachedErrorAsWritten | Injection.CachedErrorIsRaised |
