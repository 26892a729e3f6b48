/** `autoextract_poet/mixins.py`: the `response` shortcut of AutoExtract
    page objects, built from the API response's `data`. */
module AutoextractMixins {
  import opened Wrappers
  import opened Json
  import opened Scrapy
  import opened JsonAccess

  /** The `ResponseData(url=..., html=...)` it builds, holding whatever the
      response carried. */
  datatype ShortcutData = ShortcutData(url: Json, html: Json)

  /** `data["query"]["userQuery"]`. */
  function UserQuery(data: Json): (r: Result<Json, Exc>)
    ensures r.Ok? <==> data.JObj? && "query" in data.fields && data.fields["query"].JObj? &&
                       "userQuery" in data.fields["query"].fields
    ensures r.Ok? ==> r.value == data.fields["query"].fields["userQuery"]
  {
    var query :- Index(data, "query");
    Index(query, "userQuery")
  }

  /** The query names a page type (a string) whose entry is a dict, and
      carries a URL. */
  predicate WellFormed(data: Json) {
    && UserQuery(data).Ok?
    && var uq := UserQuery(data).value;
    && uq.JObj? && "pageType" in uq.fields && uq.fields["pageType"].JStr? && "url" in uq.fields
    && data.JObj? && uq.fields["pageType"].s in data.fields && data.fields[uq.fields["pageType"].s].JObj?
  }

  /** The `response` property. The fallback URL is an argument of `get`, so
      it is looked up before `get` runs. */
  function Response(data: Json): (r: Result<ShortcutData, Exc>)
    ensures r.Ok? <==> WellFormed(data)
    ensures WellFormed(data) ==>
      var uq := UserQuery(data).value.fields;
      var page := data.fields[uq["pageType"].s].fields;
      && r.value.url == (if "url" in page then page["url"] else uq["url"])
      && r.value.html == (if "html" in data.fields then data.fields["html"] else JStr(""))
    ensures UserQuery(data).Err? ==> r == Err(UserQuery(data).error)
  {
    var uq :- UserQuery(data);
    var pageType :- Index(uq, "pageType");
    var page :- IndexBy(data, pageType);
    if !page.JObj? then Err(AttributeError(NoGetMsg(TypeName(page))))
    else
      var fallback :- Index(uq, "url");
      // `page` is a dict, and so is `data`, since indexing it succeeded.
      Ok(ShortcutData(Get(page, "url", fallback).value, Get(data, "html", JStr("")).value))
  }

  /** The page type is read from the user query and nowhere else: without
      it the shortcut raises `KeyError('pageType')`. */
  lemma PageTypeFromUserQuery(data: Json)
    requires UserQuery(data).Ok? && UserQuery(data).value.JObj?
    requires "pageType" !in UserQuery(data).value.fields
    ensures Response(data) == Err(KeyError("pageType"))
  {
  }

  /** Because the fallback is evaluated eagerly, a query without a URL
      raises even when the page entry has its own URL. */
  lemma FallbackEvaluatedEagerly(data: Json)
    requires UserQuery(data).Ok?
    requires var uq := UserQuery(data).value;
      && uq.JObj? && "pageType" in uq.fields && uq.fields["pageType"].JStr? && "url" !in uq.fields
      && data.JObj? && uq.fields["pageType"].s in data.fields && data.fields[uq.fields["pageType"].s].JObj?
    ensures Response(data) == Err(KeyError("url"))
  {
  }

  /** An API response `data` holding the user query (its page type and
      URL), the entry for that page type (with or without its own `url`),
      and perhaps the `html`. */
  function ApiData(pageType: string, queryUrl: Json, pageUrl: Option<Json>, html: Option<Json>): Json {
    var userQuery := JObj(map["pageType" := JStr(pageType), "url" := queryUrl]);
    var page := JObj(if pageUrl.Some? then map["url" := pageUrl.value] else map[]);
    var rest := if html.Some? then map["html" := html.value] else map[];
    JObj(map["query" := JObj(map["userQuery" := userQuery]), pageType := page] + rest)
  }

  /** The shortcut reads back what the response holds: the page's own URL,
      else the query's, and the HTML, else the empty string. */
  lemma ResponseReadsBack(pageType: string, queryUrl: Json, pageUrl: Option<Json>, html: Option<Json>)
    requires pageType != "query" && pageType != "html"
    ensures Response(ApiData(pageType, queryUrl, pageUrl, html)) ==
      Ok(ShortcutData(pageUrl.GetOr(queryUrl), html.GetOr(JStr(""))))
  {
    var data := ApiData(pageType, queryUrl, pageUrl, html);
    assert data.fields["query"] == JObj(map["userQuery" := JObj(map["pageType" := JStr(pageType), "url" := queryUrl])]);
    assert data.fields[pageType] == JObj(if pageUrl.Some? then map["url" := pageUrl.value] else map[]);
    assert "html" in data.fields <==> html.Some?;
    assert html.Some? ==> data.fields["html"] == html.value;
  }
}
