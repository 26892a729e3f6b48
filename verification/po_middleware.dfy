/** `scrapy_po/middleware.py`, the scrapy_po `InjectionMiddleware`. The
    helpers it calls (`is_response_going_to_be_used`, `build_plan`,
    `build_instances`) are not defined in `scrapy_po/utils.py`, so their
    outcomes are inputs here. */
module PoMiddleware {
  import opened Wrappers
  import opened Scrapy
  import LegacyMiddleware

  /** `process_request`: no download replacement when the response is
      going to be used, a linked `DummyResponse` otherwise. */
  function ProcessRequest(request: Request, going: Result<bool, Exc>): (r: Result<Option<Response>, Exc>)
    ensures going.Err? ==> r == Err(going.error)
    ensures going == Ok(true) ==> r == Ok(None)
    ensures going == Ok(false) ==>
      && r.Ok? && r.value.Some? && r.value.value.DummyResponse?
      && r.value.value.url == request.url && r.value.value.request == Some(request)
  {
    LegacyMiddleware.ProcessRequest(request, going)
  }

  /** `process_response`, given `plan.final_kwargs(instances)` (or the error
      building them): fill the callback arguments the user did not pass
      and hand back the response. */
  function ProcessResponse(request: Request, response: Response, finalKwargs: Result<map<string, Value>, Exc>)
    : (r: Result<(Response, Request), Exc>)
    ensures r.Err? <==> finalKwargs.Err?
    ensures r.Err? ==> r.error == finalKwargs.error
    ensures r.Ok? ==> r.value.0 == response
    ensures r.Ok? ==> r.value.1 == request.(cbKwargs := r.value.1.cbKwargs)
    ensures r.Ok? ==> r.value.1.cbKwargs.Keys == request.cbKwargs.Keys + finalKwargs.value.Keys
    ensures r.Ok? ==> forall a | a in request.cbKwargs :: r.value.1.cbKwargs[a] == request.cbKwargs[a]
    ensures r.Ok? ==> forall a | a in finalKwargs.value && a !in request.cbKwargs ::
      r.value.1.cbKwargs[a] == finalKwargs.value[a]
  {
    var kwargs :- finalKwargs;
    Ok((response, request.(cbKwargs := LegacyMiddleware.FillAbsent(request.cbKwargs, kwargs))))
  }

  /** Handing the filled request back in changes nothing more: a second
      pass with the same arguments is a no-op. */
  lemma ProcessResponseIdempotent(request: Request, response: Response, kwargs: map<string, Value>)
    ensures var once := ProcessResponse(request, response, Ok(kwargs)).value.1;
      ProcessResponse(once, response, Ok(kwargs)).value.1 == once
  {
    LegacyMiddleware.FillAbsentIdempotent(request.cbKwargs, kwargs);
  }
}
