/** The AutoExtract `Query` dataclass. `autoextract_poet/query.py`,
    `scrapy_poet/autoextract/query.py` and `scrapy_poet/autoextract.py`
    each define the same class; this one model covers the three. */
module AutoextractQuery {
  import opened Wrappers
  import opened Json

  datatype Query = Query(url: string, pageType: string, fullHtml: bool)

  /** `Query(url=..., page_type=...)`: `full_html` defaults to `True`. */
  function NewQuery(url: string, pageType: string): (q: Query)
    ensures q.url == url && q.pageType == pageType && q.fullHtml
  {
    Query(url, pageType, true)
  }

  /** The `autoextract_query` property: a list holding one dict. */
  function ApiQuery(q: Query): (r: seq<Json>)
    ensures |r| == 1 && r[0].JObj?
    ensures r[0].fields.Keys == {"url", "pageType", "fullHtml"}
    ensures r[0].fields["url"] == JStr(q.url)
    ensures r[0].fields["pageType"] == JStr(q.pageType)
    ensures r[0].fields["fullHtml"] == JBool(q.fullHtml)
  {
    [JObj(map["url" := JStr(q.url), "pageType" := JStr(q.pageType), "fullHtml" := JBool(q.fullHtml)])]
  }

  /** Reading a query back from its serialised form; anything that is not
      exactly one such dict is rejected. */
  function ParseQuery(js: seq<Json>): Option<Query> {
    if |js| != 1 || !js[0].JObj? then None
    else
      var f := js[0].fields;
      if f.Keys == {"url", "pageType", "fullHtml"} && f["url"].JStr? && f["pageType"].JStr? && f["fullHtml"].JBool?
      then Some(Query(f["url"].s, f["pageType"].s, f["fullHtml"].b))
      else None
  }

  /** Serialising loses nothing: the query reads back as itself. */
  lemma QueryRoundTrip(q: Query)
    ensures ParseQuery(ApiQuery(q)) == Some(q)
  {
  }

  /** Everything that reads back as a query is that query's serialisation. */
  lemma ParsedQueryReserialises(js: seq<Json>, q: Query)
    requires ParseQuery(js) == Some(q)
    ensures ApiQuery(q) == js
  {
    var f := js[0].fields;
    var g := ApiQuery(q)[0].fields;
    assert g.Keys == f.Keys;
    assert forall k | k in f :: g[k] == f[k];
    assert g == f;
  }

  /** Different queries serialise differently. */
  lemma ApiQueryInjective(q1: Query, q2: Query)
    requires ApiQuery(q1) == ApiQuery(q2)
    ensures q1 == q2
  {
    QueryRoundTrip(q1);
    QueryRoundTrip(q2);
  }
}
