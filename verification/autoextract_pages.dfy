/** `autoextract_poet/pages.py`: page objects reading AutoExtract product
    and product-list responses. `data` is the response's `data` field. */
module AutoextractPages {
  import opened Wrappers
  import opened Json
  import opened Scrapy
  import opened JsonAccess

  /** `ProductPage.to_item`: the `product` entry, `{}` when absent. */
  function ProductToItem(data: Json): (r: Result<Json, Exc>)
    ensures r.Ok? <==> data.JObj?
    ensures data.JObj? ==> r.value == if "product" in data.fields then data.fields["product"] else JObj(map[])
  {
    Get(data, "product", JObj(map[]))
  }

  /** `ProductListPage._product_list`: the `productList` entry, `{}` when
      absent. */
  function ProductList(data: Json): (r: Result<Json, Exc>)
    ensures r.Ok? <==> data.JObj?
    ensures data.JObj? ==> r.value == if "productList" in data.fields then data.fields["productList"] else JObj(map[])
  {
    Get(data, "productList", JObj(map[]))
  }

  /** `breadcrumbs()`: the list's `breadcrumbs`, `[]` when the list or the
      entry is absent. */
  function Breadcrumbs(data: Json): (r: Result<Json, Exc>)
    ensures data.JObj? && "productList" !in data.fields ==> r == Ok(JArr([]))
    ensures data.JObj? && "productList" in data.fields && data.fields["productList"].JObj? ==>
      var pl := data.fields["productList"].fields;
      r == Ok(if "breadcrumbs" in pl then pl["breadcrumbs"] else JArr([]))
    ensures !data.JObj? ==> r.Err?
  {
    var pl :- ProductList(data);
    Get(pl, "breadcrumbs", JArr([]))
  }

  /** `to_items()`: the list's `products`, `[]` when the list or the entry
      is absent. */
  function ToItems(data: Json): (r: Result<Json, Exc>)
    ensures data.JObj? && "productList" !in data.fields ==> r == Ok(JArr([]))
    ensures data.JObj? && "productList" in data.fields && data.fields["productList"].JObj? ==>
      var pl := data.fields["productList"].fields;
      r == Ok(if "products" in pl then pl["products"] else JArr([]))
    ensures !data.JObj? ==> r.Err?
  {
    var pl :- ProductList(data);
    Get(pl, "products", JArr([]))
  }

  /** `[item.get("url") for item in items]` over a list. */
  function ItemUrls(items: seq<Json>): (r: Result<seq<Json>, Exc>)
    ensures r.Ok? <==> forall i | 0 <= i < |items| :: items[i].JObj?
    ensures r.Ok? ==> |r.value| == |items|
    ensures r.Ok? ==> forall i | 0 <= i < |items| ::
      r.value[i] == (if "url" in items[i].fields then items[i].fields["url"] else JNull)
  {
    if items == [] then Ok([])
    else
      var first :- Get(items[0], "url", JNull);
      var rest :- ItemUrls(items[1..]);
      Ok([first] + rest)
  }

  /** `[url for url in urls if url]`. */
  function KeepTruthy(xs: seq<Json>): (r: seq<Json>)
    ensures |r| <= |xs|
    ensures forall i | 0 <= i < |r| :: Truthy(r[i])
    ensures forall x | x in r :: x in xs
    ensures forall i | 0 <= i < |xs| && Truthy(xs[i]) :: xs[i] in r
    ensures r == [] <==> forall i | 0 <= i < |xs| :: !Truthy(xs[i])
  {
    if xs == [] then []
    else if Truthy(xs[0]) then [xs[0]] + KeepTruthy(xs[1..])
    else KeepTruthy(xs[1..])
  }

  /** The filter keeps order: filtering a concatenation filters each part. */
  lemma {:induction false} KeepTruthyAppend(a: seq<Json>, b: seq<Json>)
    ensures KeepTruthy(a + b) == KeepTruthy(a) + KeepTruthy(b)
  {
    if a == [] {
      assert a + b == b;
    } else {
      assert (a + b)[0] == a[0] && (a + b)[1..] == a[1..] + b;
      KeepTruthyAppend(a[1..], b);
    }
  }

  /** Each value keeps its place: it is kept, after what is kept before it
      and before what is kept after it, exactly when it is truthy. */
  lemma {:induction false} KeepTruthyAround(a: seq<Json>, x: Json, b: seq<Json>)
    ensures KeepTruthy(a + [x] + b) == KeepTruthy(a) + (if Truthy(x) then [x] else []) + KeepTruthy(b)
  {
    var ax := a + [x];
    KeepTruthyAppend(ax, b);
    KeepTruthyAppend(a, [x]);
    assert KeepTruthy([x]) == (if Truthy(x) then [x] else []) by {
      assert [x][1..] == [];
    }
  }

  /** A list of truthy values is left as it is. */
  lemma {:induction false} KeepTruthyKeepsTruthy(xs: seq<Json>)
    requires forall i | 0 <= i < |xs| :: Truthy(xs[i])
    ensures KeepTruthy(xs) == xs
  {
    if xs != [] {
      KeepTruthyKeepsTruthy(xs[1..]);
    }
  }

  function NotIterableMsg(typeName: string): string {
    "'" + typeName + "' object is not iterable"
  }

  /** `urls()`: the truthy `url` of each item of `to_items()`. Iterating a
      dict or a string yields strings, which have no `get`. */
  function Urls(data: Json): (r: Result<seq<Json>, Exc>)
    ensures ToItems(data).Err? ==> r.Err?
    ensures ToItems(data).Ok? && ToItems(data).value.JArr? ==>
      var items := ToItems(data).value.items;
      && (r.Ok? <==> forall i | 0 <= i < |items| :: items[i].JObj?)
      && (r.Ok? ==> |r.value| <= |items| && r.value == KeepTruthy(ItemUrls(items).value))
    ensures r.Ok? ==> forall i | 0 <= i < |r.value| :: Truthy(r.value[i])
  {
    var items :- ToItems(data);
    match items
    case JArr(xs) =>
      var urls :- ItemUrls(xs);
      Ok(KeepTruthy(urls))
    case JObj(m) => if m == map[] then Ok([]) else Err(AttributeError(NoGetMsg("str")))
    case JStr(s) => if s == "" then Ok([]) else Err(AttributeError(NoGetMsg("str")))
    case _ => Err(TypeError(NotIterableMsg(TypeName(items))))
  }

  /** Products that all carry a truthy URL give exactly those URLs, in
      order. */
  lemma UrlsOfWellFormedList(data: Json, products: seq<Json>)
    requires ToItems(data) == Ok(JArr(products))
    requires forall i | 0 <= i < |products| :: products[i].JObj? && "url" in products[i].fields
    requires forall i | 0 <= i < |products| :: Truthy(products[i].fields["url"])
    ensures Urls(data).Ok?
    ensures |Urls(data).value| == |products|
    ensures forall i | 0 <= i < |products| :: Urls(data).value[i] == products[i].fields["url"]
  {
    KeepTruthyKeepsTruthy(ItemUrls(products).value);
  }
}
