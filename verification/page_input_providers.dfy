/** `scrapy_poet/page_input_providers.py`: how a provider declares what it
    provides, and the `ResponseDataProvider`. */
module PageInputProviders {
  import opened Wrappers
  import opened Scrapy
  import Injection

  const ResponseDataCls: Tag := "web_poet.page_inputs.ResponseData"
  const ResponseDataProviderCls: Tag := "scrapy_poet.page_input_providers.ResponseDataProvider"

  /** The `provided_classes` class attribute: a set of classes, a callable
      deciding for each class, or something else. */
  datatype ProvidedClasses =
    | ClassSet(classes: set<Key>)
    | ClassPredicate(pred: Key -> bool)
    | Unexpected(typeName: Tag)

  /** `repr` of a class. */
  function ClassRepr(cls: Tag): string {
    "<class '" + cls + "'>"
  }

  function UnexpectedMsg(typeName: Tag, providerCls: Tag): string {
    "Unexpected type '" + ClassRepr(typeName) + "' for '" + ClassRepr(providerCls) +
    ".provided_classes'. Expected either 'set' or 'callable'"
  }

  /** `PageObjectInputProvider.is_provided(type_)` on the provider class
      `providerCls`. */
  function IsProvided(providerCls: Tag, provided: ProvidedClasses, t: Key): (r: Result<bool, Exc>)
    ensures provided.ClassSet? ==> r == Ok(t in provided.classes)
    ensures provided.ClassPredicate? ==> r == Ok(provided.pred(t))
    ensures provided.Unexpected? ==> r == Err(InjectionError(UnexpectedMsg(provided.typeName, providerCls)))
  {
    match provided
    case ClassSet(cs) => Ok(t in cs)
    case ClassPredicate(p) => Ok(p(t))
    case Unexpected(n) => Err(InjectionError(UnexpectedMsg(n, providerCls)))
  }

  /** The error raised for an unexpected `provided_classes` names the
      provider class. */
  lemma UnexpectedNamesProvider(providerCls: Tag, typeName: Tag, t: Key)
    ensures var r := IsProvided(providerCls, Unexpected(typeName), t);
      var msg := r.error.msg;
      var at := |"Unexpected type '" + ClassRepr(typeName) + "' for '"|;
      && r.Err? && r.error.InjectionError?
      && at + |ClassRepr(providerCls)| <= |msg|
      && msg[at..at + |ClassRepr(providerCls)|] == ClassRepr(providerCls)
  {
    var pre := "Unexpected type '" + ClassRepr(typeName) + "' for '";
    var post := ".provided_classes'. Expected either 'set' or 'callable'";
    var msg := UnexpectedMsg(typeName, providerCls);
    assert msg == pre + ClassRepr(providerCls) + post;
    assert msg[|pre|..|pre| + |ClassRepr(providerCls)|] == ClassRepr(providerCls);
  }

  /** The injector's view of a provider whose `provided_classes` is valid:
      its `is_provided` as a total test, agreeing with `IsProvided`. */
  function AsInjectorProvider(name: string, providerCls: Tag, provided: ProvidedClasses, callDeps: seq<Tag>)
    : (r: Option<Injection.Provider>)
    ensures r.None? <==> provided.Unexpected?
    ensures r.Some? ==> r.value.name == name && r.value.callDeps == callDeps
    ensures r.Some? ==> forall t :: IsProvided(providerCls, provided, t) == Ok(r.value.isProvided(t))
  {
    match provided
    case ClassSet(cs) => Some(Injection.Provider(name, t => t in cs, callDeps))
    case ClassPredicate(p) => Some(Injection.Provider(name, p, callDeps))
    case Unexpected(_) => None
  }

  /** `ResponseDataProvider.provided_classes`. */
  const ResponseDataProvided: ProvidedClasses := ClassSet({TypeKey(ResponseDataCls)})

  /** `ResponseDataProvider` provides `ResponseData` and nothing else. */
  lemma ResponseDataProviderDeclares(t: Key)
    ensures IsProvided(ResponseDataProviderCls, ResponseDataProvided, t) == Ok(t == TypeKey(ResponseDataCls))
  {
  }

  /** `ResponseDataProvider.__call__(to_provide, response)`: one entry,
      whatever was asked. */
  function ResponseDataProviderCall(toProvide: set<Key>, response: Response): (r: Result<map<Key, ResponseData>, Exc>)
    ensures r.Ok? <==> response.HttpResponse?
    ensures r.Ok? ==> r.value.Keys == {TypeKey(ResponseDataCls)}
    ensures r.Ok? ==> r.value[TypeKey(ResponseDataCls)] == ResponseData(response.url, response.text)
    ensures r.Err? ==> r.error == AttributeError(NotTextMsg)
  {
    var data :- ResponseDataOf(response);
    Ok(map[TypeKey(ResponseDataCls) := data])
  }
}
