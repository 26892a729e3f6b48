/** The global `providers` dictionaries of the older generations (scrapy_po
    and the first scrapy_poet releases): a class, as a plan key, mapped to
    the provider class registered for it. */
module ProviderMaps {
  import opened Wrappers
  import opened Scrapy

  /** A provider class as these registries store it: its qualified name,
      its `provided_class` attribute when it has one, and the possible
      types andi finds for each argument of its `__init__`. */
  datatype ProviderClass = ProviderClass(name: Tag, providedClass: Option<Tag>, initArgs: seq<seq<Tag>>)

  type ProviderMap = map<Key, ProviderClass>

  /** Python's `None` used as a registry key; it is not `NoneType`. */
  const NoneObject: Tag := "None"

  /** `providers[cls] = provider`. */
  function Register(m: ProviderMap, cls: Key, p: ProviderClass): (r: ProviderMap)
    ensures r.Keys == m.Keys + {cls}
    ensures r[cls] == p
    ensures forall k | k in m && k != cls :: r[k] == m[k]
  {
    m[cls := p]
  }

  /** Registering again for the same class forgets the earlier provider. */
  lemma LastRegistrationWins(m: ProviderMap, cls: Key, p: ProviderClass, q: ProviderClass)
    ensures Register(Register(m, cls, p), cls, q) == Register(m, cls, q)
  {
  }

  /** Registrations for different classes do not interfere. */
  lemma RegistrationsCommute(m: ProviderMap, c1: Key, p1: ProviderClass, c2: Key, p2: ProviderClass)
    requires c1 != c2
    ensures Register(Register(m, c1, p1), c2, p2) == Register(Register(m, c2, p2), c1, p1)
  {
  }

  /** A `provides(cls)` decorator applied to `provider`: the registry after
      the registration, and the decorated class, returned unchanged. */
  function Provides(m: ProviderMap, cls: Key, p: ProviderClass): (r: (ProviderMap, ProviderClass))
    ensures r.1 == p
    ensures r.0.Keys == m.Keys + {cls} && r.0[cls] == p
    ensures forall k | k in m && k != cls :: r.0[k] == m[k]
  {
    (Register(m, cls, p), p)
  }

  const NoProvidedClassMsg: string := "type object has no attribute 'provided_class'"

  /** `providers[provider.provided_class] = provider`; reading the missing
      attribute raises `AttributeError`. */
  function RegisterOwn(m: ProviderMap, p: ProviderClass): (r: Result<ProviderMap, Exc>)
    ensures p.providedClass.None? <==> r.Err?
    ensures r.Err? ==> r.error == AttributeError(NoProvidedClassMsg)
    ensures r.Ok? ==> r.value == Register(m, TypeKey(p.providedClass.value), p)
  {
    match p.providedClass
    case None => Err(AttributeError(NoProvidedClassMsg))
    case Some(c) => Ok(Register(m, TypeKey(c), p))
  }

  /** A run of `register(p)` calls, each under the class's own
      `provided_class`, stopping at the first that raises. */
  function RegisterAllOwn(m: ProviderMap, ps: seq<ProviderClass>): (r: Result<ProviderMap, Exc>)
    ensures r.Ok? <==> forall i | 0 <= i < |ps| :: ps[i].providedClass.Some?
    ensures r.Err? ==> r.error == AttributeError(NoProvidedClassMsg)
  {
    if ps == [] then Ok(m)
    else
      match RegisterAllOwn(m, ps[..|ps| - 1])
      case Err(e) => Err(e)
      case Ok(m') => RegisterOwn(m', ps[|ps| - 1])
  }

  /** The keys of `ps[i]` as the registry stores it. */
  function KeyOf(p: ProviderClass): Key
    requires p.providedClass.Some?
  {
    TypeKey(p.providedClass.value)
  }

  /** One more registration at the end of a successful run. */
  lemma RegisterAllOwnSnoc(m: ProviderMap, ps: seq<ProviderClass>)
    requires ps != [] && RegisterAllOwn(m, ps).Ok?
    ensures RegisterAllOwn(m, ps[..|ps| - 1]).Ok?
    ensures ps[|ps| - 1].providedClass.Some?
    ensures RegisterAllOwn(m, ps).value ==
      Register(RegisterAllOwn(m, ps[..|ps| - 1]).value, KeyOf(ps[|ps| - 1]), ps[|ps| - 1])
  {
  }

  /** After a successful run, the keys are the old ones and every class
      registered for. */
  lemma {:induction false} RegisterAllOwnKeys(m: ProviderMap, ps: seq<ProviderClass>)
    requires RegisterAllOwn(m, ps).Ok?
    ensures forall i | 0 <= i < |ps| :: ps[i].providedClass.Some?
    ensures RegisterAllOwn(m, ps).value.Keys == m.Keys + (set i | 0 <= i < |ps| :: KeyOf(ps[i]))
  {
    if ps == [] {
      return;
    }
    var init := ps[..|ps| - 1];
    RegisterAllOwnSnoc(m, ps);
    RegisterAllOwnKeys(m, init);
    KeysSnoc(ps, init);
  }

  /** The classes of a run: those of all but the last, and the last's. */
  lemma KeysSnoc(ps: seq<ProviderClass>, init: seq<ProviderClass>)
    requires ps != [] && init == ps[..|ps| - 1]
    requires forall i | 0 <= i < |ps| :: ps[i].providedClass.Some?
    ensures (set i | 0 <= i < |ps| :: KeyOf(ps[i])) ==
      (set i | 0 <= i < |init| :: KeyOf(init[i])) + {KeyOf(ps[|ps| - 1])}
  {
    forall i | 0 <= i < |init|
      ensures init[i] == ps[i]
    {
    }
  }

  /** A key no provider in the run registers for keeps its provider. */
  lemma {:induction false} RegisterAllOwnKeepsOthers(m: ProviderMap, ps: seq<ProviderClass>, k: Key)
    requires RegisterAllOwn(m, ps).Ok? && k in m
    requires forall i | 0 <= i < |ps| :: !k.TypeKey? || ps[i].providedClass != Some(k.cls)
    ensures k in RegisterAllOwn(m, ps).value && RegisterAllOwn(m, ps).value[k] == m[k]
  {
    if ps == [] {
      return;
    }
    var init := ps[..|ps| - 1];
    RegisterAllOwnSnoc(m, ps);
    forall i | 0 <= i < |init|
      ensures !k.TypeKey? || init[i].providedClass != Some(k.cls)
    {
      assert init[i] == ps[i];
    }
    RegisterAllOwnKeepsOthers(m, init, k);
  }

  /** Each class maps to the provider registered for it last. */
  lemma {:induction false} RegisterAllOwnLastWins(m: ProviderMap, ps: seq<ProviderClass>, i: nat)
    requires RegisterAllOwn(m, ps).Ok? && i < |ps|
    requires forall j | i < j < |ps| :: ps[j].providedClass != ps[i].providedClass
    ensures ps[i].providedClass.Some?
    ensures KeyOf(ps[i]) in RegisterAllOwn(m, ps).value && RegisterAllOwn(m, ps).value[KeyOf(ps[i])] == ps[i]
  {
    var init := ps[..|ps| - 1];
    RegisterAllOwnSnoc(m, ps);
    if i < |init| {
      assert init[i] == ps[i];
      forall j | i < j < |init|
        ensures init[j].providedClass != init[i].providedClass
      {
        assert init[j] == ps[j];
      }
      RegisterAllOwnLastWins(m, init, i);
    }
  }
}
