/** `scrapy_poet/providers.py`: a global registry of provider classes keyed
    by provided class, filled at import time. */
module PoetProviders {
  import opened Wrappers
  import opened Scrapy
  import opened ProviderMaps
  import AutoextractProviders

  /** `register(provider_class, provided_class=None)`: without a class, the
      provider's own `provided_class` is the key. */
  function Register(m: ProviderMap, providerCls: ProviderClass, providedClass: Option<Tag>): (r: Result<ProviderMap, Exc>)
    ensures r.Ok? <==> providedClass.Some? || providerCls.providedClass.Some?
    ensures r.Err? ==> r.error == AttributeError(NoProvidedClassMsg)
    ensures r.Ok? ==>
      var key := TypeKey(if providedClass.Some? then providedClass.value else providerCls.providedClass.value);
      && r.value.Keys == m.Keys + {key}
      && r.value[key] == providerCls
      && forall k | k in m && k != key :: r.value[k] == m[k]
  {
    match providedClass
    case Some(c) => Ok(ProviderMaps.Register(m, TypeKey(c), providerCls))
    case None => RegisterOwn(m, providerCls)
  }

  /** `provides(provided_class)` applied to a class: registered under that
      class and handed back unchanged. */
  function Provides(m: ProviderMap, providedClass: Option<Tag>, providerCls: ProviderClass)
    : (r: Result<(ProviderMap, ProviderClass), Exc>)
    ensures r.Ok? <==> Register(m, providerCls, providedClass).Ok?
    ensures r.Ok? ==> r.value.1 == providerCls && r.value.0 == Register(m, providerCls, providedClass).value
    ensures r.Err? ==> r.error == Register(m, providerCls, providedClass).error
  {
    var m' :- Register(m, providerCls, providedClass);
    Ok((m', providerCls))
  }

  /** The current `ResponseDataProvider` as this registry sees it: it
      declares `provided_classes`, not `provided_class`. */
  const ResponseDataProvider: ProviderClass :=
    ProviderClass("scrapy_poet.page_input_providers.ResponseDataProvider", None, [[CrawlerCls]])

  /** The three registrations at the bottom of the module, each without an
      explicit class, with `responseDataProvider` for the first one. */
  function ModuleProviders(responseDataProvider: ProviderClass): (r: Result<ProviderMap, Exc>)
    ensures r.Ok? <==> responseDataProvider.providedClass.Some?
  {
    var ps := [responseDataProvider,
               AutoextractProviders.AsProviderClass(AutoextractProviders.ArticleProvider),
               AutoextractProviders.AsProviderClass(AutoextractProviders.ProductProvider)];
    assert ps[0] == responseDataProvider;
    assert ps[1].providedClass.Some? && ps[2].providedClass.Some?;
    RegisterAllOwn(map[], ps)
  }

  /** In this snapshot the first registration reads the missing
      `provided_class`, so importing the module raises. */
  lemma ImportRaises()
    ensures ModuleProviders(ResponseDataProvider) == Err(AttributeError(NoProvidedClassMsg))
  {
  }

  /** Given a provider that names its class, the import registers the three
      providers under their classes and nothing else. */
  lemma ImportRegistersThree(responseDataProvider: ProviderClass, c: Tag)
    requires responseDataProvider.providedClass == Some(c)
    requires c != AutoextractProviders.ArticleProvider.inputClass && c != AutoextractProviders.ProductProvider.inputClass
    ensures ModuleProviders(responseDataProvider).Ok?
    ensures var m := ModuleProviders(responseDataProvider).value;
      && m.Keys == {TypeKey(c), TypeKey(AutoextractProviders.ArticleProvider.inputClass),
                    TypeKey(AutoextractProviders.ProductProvider.inputClass)}
      && m[TypeKey(c)] == responseDataProvider
      && m[TypeKey(AutoextractProviders.ArticleProvider.inputClass)] ==
           AutoextractProviders.AsProviderClass(AutoextractProviders.ArticleProvider)
      && m[TypeKey(AutoextractProviders.ProductProvider.inputClass)] ==
           AutoextractProviders.AsProviderClass(AutoextractProviders.ProductProvider)
  {
    var ps := [responseDataProvider,
               AutoextractProviders.AsProviderClass(AutoextractProviders.ArticleProvider),
               AutoextractProviders.AsProviderClass(AutoextractProviders.ProductProvider)];
    RegisterAllOwnSnoc(map[], ps);
    assert ps[..2] == ps[..|ps| - 1];
    RegisterAllOwnSnoc(map[], ps[..2]);
    assert ps[..2][..1] == [ps[0]];
    RegisterAllOwnSnoc(map[], [ps[0]]);
    assert [ps[0]][..0] == [];
    assert ModuleProviders(responseDataProvider).value ==
      map[KeyOf(ps[0]) := ps[0]][KeyOf(ps[1]) := ps[1]][KeyOf(ps[2]) := ps[2]];
  }
}
