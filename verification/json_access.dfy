/** Python's dict access on JSON values (`d.get(k, default)`, `d[k]`,
    iteration) with the exceptions other values raise. */
module JsonAccess {
  import opened Wrappers
  import opened Json
  import opened Scrapy

  /** `type(j).__name__`. */
  function TypeName(j: Json): string {
    match j
    case JNull => "NoneType"
    case JBool(_) => "bool"
    case JNum(_) => "int"
    case JStr(_) => "str"
    case JArr(_) => "list"
    case JObj(_) => "dict"
  }

  function NoGetMsg(typeName: string): string {
    "'" + typeName + "' object has no attribute 'get'"
  }

  /** `j.get(key, default)`: only a dict has `get`. */
  function Get(j: Json, key: string, default: Json): (r: Result<Json, Exc>)
    ensures r.Ok? <==> j.JObj?
    ensures j.JObj? && key in j.fields ==> r == Ok(j.fields[key])
    ensures j.JObj? && key !in j.fields ==> r == Ok(default)
    ensures r.Err? ==> r.error == AttributeError(NoGetMsg(TypeName(j)))
  {
    match j
    case JObj(m) => Ok(if key in m then m[key] else default)
    case _ => Err(AttributeError(NoGetMsg(TypeName(j))))
  }

  function NotSubscriptableMsg(j: Json): string {
    match j
    case JStr(_) => "string indices must be integers"
    case JArr(_) => "list indices must be integers or slices, not str"
    case _ => "'" + TypeName(j) + "' object is not subscriptable"
  }

  /** `j[key]` with a string key. */
  function Index(j: Json, key: string): (r: Result<Json, Exc>)
    ensures r.Ok? <==> j.JObj? && key in j.fields
    ensures r.Ok? ==> r.value == j.fields[key]
    ensures j.JObj? && key !in j.fields ==> r == Err(KeyError(key))
    ensures !j.JObj? ==> r == Err(TypeError(NotSubscriptableMsg(j)))
  {
    match j
    case JObj(m) => if key in m then Ok(m[key]) else Err(KeyError(key))
    case _ => Err(TypeError(NotSubscriptableMsg(j)))
  }

  /** `.get` with a default agrees with subscripting where subscripting
      succeeds and gives the default exactly where a dict lacks the key;
      on anything but a dict both raise. */
  lemma GetIsIndexOrDefault(j: Json, key: string, default: Json)
    ensures j.JObj? ==> Get(j, key, default) == (if Index(j, key).Ok? then Index(j, key) else Ok(default))
    ensures j.JObj? ==> (Index(j, key).Err? <==> Index(j, key) == Err(KeyError(key)))
    ensures !j.JObj? ==> Get(j, key, default).Err? && Index(j, key).Err?
  {
  }

  const UnhashableMsg: string := "unhashable type"

  /** `d[key]` where the key is itself a JSON value: the object keys are
      strings, so any other hashable key is missing. Only dict lookups are
      modelled: Python's indexing of a list or a string by an integer is
      not, since the mixins only ever index dicts, and the `KeyError` of a
      non-string key carries its type name rather than the key itself. */
  function IndexBy(j: Json, key: Json): (r: Result<Json, Exc>)
    ensures key.JStr? ==> r == Index(j, key.s)
    ensures r.Ok? ==> key.JStr? && j.JObj? && key.s in j.fields && r.value == j.fields[key.s]
  {
    if key.JStr? then Index(j, key.s)
    else if !j.JObj? then Err(TypeError(NotSubscriptableMsg(j)))
    else if key.JArr? || key.JObj? then Err(TypeError(UnhashableMsg))
    else Err(KeyError(TypeName(key)))
  }
}
