/** `RetryMiddleware.process_spider_exception`: a `Retry` raised by a
    callback retries the response's source request. */
module SpiderMiddlewares {
  import opened Wrappers
  import opened Scrapy

  /** Scrapy's `get_retry_request(request, reason=...)`, which is foreign:
      `None` once the maximum number of retries is reached. */
  type RetryRequestFn = (Request, string) -> Option<Request>

  /** `None` when the exception is left to other handlers, else the list
      of requests to schedule; `AssertionError` for a response without a
      request. */
  function ProcessSpiderException(response: Response, exception: Exc, retry: RetryRequestFn): (r: Result<Option<seq<Request>>, Exc>)
    ensures !exception.Retry? ==> r == Ok(None)
    ensures exception.Retry? && response.request.None? ==> r == Err(AssertionError)
    ensures exception.Retry? && response.request.Some? ==>
      var again := retry(response.request.value, RetryReason(exception.msg));
      && (again.None? ==> r == Ok(Some([])))
      && (again.Some? ==> r == Ok(Some([again.value])))
  {
    if !exception.Retry? then Ok(None)
    else if response.request.None? then Err(AssertionError)
    else
      match retry(response.request.value, RetryReason(exception.msg))
      case None => Ok(Some([]))
      case Some(q) => Ok(Some([q]))
  }

  /** A retry always asks about the response's own request, with a
      non-empty reason, and schedules at most that one retried request. */
  lemma RetryTargetsSourceRequest(response: Response, msg: string, retry: RetryRequestFn)
    requires response.request.Some?
    ensures var r := ProcessSpiderException(response, Retry(msg), retry);
      && r.Ok? && r.value.Some? && |r.value.value| <= 1
      && (|r.value.value| == 1 <==> retry(response.request.value, RetryReason(msg)).Some?)
      && RetryReason(msg) != ""
  {
  }
}
