/** `scrapy_poet/repository.py`: the registry keyed by each provider's own
    `provided_class`, with a `provider` decorator. */
module Repository {
  import opened Wrappers
  import opened Scrapy
  import opened ProviderMaps
  import AutoextractProviders
  import PoetProviders

  /** `register(provider_class)`: `providers[provider_class.provided_class] = provider_class`. */
  function Register(m: ProviderMap, providerCls: ProviderClass): (r: Result<ProviderMap, Exc>)
    ensures r.Ok? <==> providerCls.providedClass.Some?
    ensures r.Err? ==> r.error == AttributeError(NoProvidedClassMsg)
    ensures r.Ok? ==>
      && r.value.Keys == m.Keys + {TypeKey(providerCls.providedClass.value)}
      && r.value[TypeKey(providerCls.providedClass.value)] == providerCls
      && forall k | k in m && k != TypeKey(providerCls.providedClass.value) :: r.value[k] == m[k]
  {
    RegisterOwn(m, providerCls)
  }

  /** Registering a second provider for the same class replaces the first. */
  lemma ReRegistrationOverwrites(m: ProviderMap, p: ProviderClass, q: ProviderClass)
    requires p.providedClass.Some? && q.providedClass == p.providedClass
    ensures Register(Register(m, p).value, q) == Register(m, q)
  {
    LastRegistrationWins(m, TypeKey(p.providedClass.value), p, q);
  }

  /** This `register` is `scrapy_poet/providers.py`'s `register` without an
      explicit class. */
  lemma SameAsProvidersRegister(m: ProviderMap, providerCls: ProviderClass)
    ensures Register(m, providerCls) == PoetProviders.Register(m, providerCls, None)
  {
  }

  /** The `provider` decorator: registers the class and returns it. */
  function ProviderDecorator(m: ProviderMap, cls: ProviderClass): (r: Result<(ProviderMap, ProviderClass), Exc>)
    ensures r.Ok? <==> Register(m, cls).Ok?
    ensures r.Ok? ==> r.value.1 == cls && r.value.0 == Register(m, cls).value
    ensures r.Err? ==> r.error == AttributeError(NoProvidedClassMsg)
  {
    var m' :- Register(m, cls);
    Ok((m', cls))
  }

  /** The registrations at the bottom of the module. */
  function ModuleProviders(responseDataProvider: ProviderClass): (r: Result<ProviderMap, Exc>)
    ensures r.Ok? <==> responseDataProvider.providedClass.Some?
  {
    var article := AutoextractProviders.AsProviderClass(AutoextractProviders.ArticleProvider);
    var product := AutoextractProviders.AsProviderClass(AutoextractProviders.ProductProvider);
    match Register(map[], responseDataProvider)
    case Err(e) => Err(e)
    case Ok(m1) => Register(Register(m1, article).value, product)
  }

  /** The import registers the same three providers as
      `scrapy_poet/providers.py`, and so also raises in this snapshot for
      the `ResponseDataProvider` it imports. */
  lemma SameRegistrationsAsProviders(responseDataProvider: ProviderClass)
    ensures ModuleProviders(responseDataProvider) == PoetProviders.ModuleProviders(responseDataProvider)
    ensures ModuleProviders(PoetProviders.ResponseDataProvider).Err?
  {
    var ps := [responseDataProvider,
               AutoextractProviders.AsProviderClass(AutoextractProviders.ArticleProvider),
               AutoextractProviders.AsProviderClass(AutoextractProviders.ProductProvider)];
    if responseDataProvider.providedClass.Some? {
      RegisterAllOwnSnoc(map[], ps);
      assert ps[..2] == ps[..|ps| - 1];
      RegisterAllOwnSnoc(map[], ps[..2]);
      assert ps[..2][..1] == [ps[0]];
      RegisterAllOwnSnoc(map[], [ps[0]]);
      assert [ps[0]][..0] == [];
    }
  }

  /** Given a provider that names its class, every registered class maps to
      its provider and no other key appears. */
  lemma ImportRegistersThree(responseDataProvider: ProviderClass, c: Tag)
    requires responseDataProvider.providedClass == Some(c)
    requires c != AutoextractProviders.ArticleProvider.inputClass && c != AutoextractProviders.ProductProvider.inputClass
    ensures ModuleProviders(responseDataProvider).Ok?
    ensures ModuleProviders(responseDataProvider).value.Keys ==
      {TypeKey(c), TypeKey(AutoextractProviders.ArticleProvider.inputClass),
       TypeKey(AutoextractProviders.ProductProvider.inputClass)}
    ensures ModuleProviders(responseDataProvider).value[TypeKey(c)] == responseDataProvider
  {
  }
}
