/**
  The daemon's request handler: enrich the request with the PIPs, answer from the
  cache when possible, otherwise ask the PDPs in turn, fall back to a processing-error
  response, run the obligation service, cache the result, and turn every exception
  into a processing-error response.
*/
module Handler {
  import opened Wrappers
  import opened AuthzModel
  import opened Wire
  import opened Failover
  import opened Pips
  import opened Cache

  /** What processObligations does to the first result: rewrites it, or throws. */
  datatype ObligationOutcome = Processed(result: Result) | ObligationFailed

  type ObligationService = (Request, Result) -> ObligationOutcome

  /** The daemon configuration the handler reads; the metrics sink is passed separately. */
  datatype Config = Config(
    entityId: string,
    pdpEndpoints: seq<string>,
    soapClient: SoapClient,
    pips: seq<Pip>,
    obligationService: Option<ObligationService>,
    maxCachedResponses: int,
    cachedResponseTtl: int)

  /**
    buildErrorResponse: a response for the request holding one result whose status has
    the given code, and the given message only when there is one.
  */
  function BuildErrorResponse(request: Request, statusCode: string, errorMessage: Option<string>): (response: Response)
    ensures |response.results| == 1
    ensures response.request == Some(request)
    ensures PrimaryStatusCode(response) == Some(statusCode)
    ensures PrimaryStatusMessage(response) == errorMessage
    ensures response.results[0].obligations == [] && response.results[0].decision.None?
  {
    var status := Status(Some(StatusCode(statusCode)), errorMessage);
    Response(Some(request), [Result(None, None, Some(status), [])])
  }

  /** The processing-error response the handler falls back to. */
  function ProcessingErrorResponse(request: Request): (response: Response)
    ensures response.request == Some(request) && |response.results| == 1
    ensures PrimaryStatusCode(response) == Some(ProcessingError)
    ensures PrimaryStatusMessage(response).None?
  {
    BuildErrorResponse(request, ProcessingError, None)
  }

  /**
    The obligation step: with a service configured, it is given the first result, which
    it may rewrite; it fails when it throws or when there is no first result.
  */
  function ApplyObligations(service: Option<ObligationService>, request: Request, response: Response): (processed: Option<Response>)
    ensures service.None? ==> processed == Some(response)
    ensures service.Some? ==>
      (processed.None? <==> |response.results| == 0 || service.value(request, response.results[0]).ObligationFailed?)
    ensures processed.Some? ==>
      processed.value.request == response.request && |processed.value.results| == |response.results|
    ensures service.Some? && processed.Some? ==>
      && processed.value.results[0] == service.value(request, response.results[0]).result
      && processed.value.results[1..] == response.results[1..]
  {
    match service
    case None => Some(response)
    case Some(process) =>
      if |response.results| == 0 then None
      else
        match process(request, response.results[0])
        case Processed(result) => Some(response.(results := [result] + response.results[1..]))
        case ObligationFailed => None
  }

  /**
    What one call of handle does: the response, how many times it counts an error, the
    endpoints it contacts, whether it answered from the cache, and what it stores there.
  */
  datatype HandleRun = HandleRun(
    response: Response,
    errors: nat,
    contacted: seq<string>,
    cacheHit: bool,
    stored: Option<(Request, Response)>)

  /** The catch block (and the no-answer branch): a processing-error response, counted as an error. */
  function ErrorRun(request: Request, errors: nat, contacted: seq<string>): HandleRun
  {
    HandleRun(ProcessingErrorResponse(request), errors, contacted, false, None)
  }

  /** The outbound envelope for an enriched request. */
  function OutboundEnvelope(config: Config, converter: XacmlConverter, request: Request,
                            messageId: string, issueInstant: int): Envelope
  {
    BuildSoapMessage(converter.requestToXacml(request), config.entityId, messageId, issueInstant)
  }

  /**
    handle, as a function of the configuration, the cache contents (None when caching is
    off), the request, and the identifier and instant the outbound query is stamped with.
  */
  function HandleSpec(config: Config, converter: XacmlConverter, cache: Option<map<Request, Response>>,
                      request: Request, messageId: string, issueInstant: int): (run: HandleRun)
    ensures run.errors <= 2
    ensures |run.contacted| <= |config.pdpEndpoints|
    ensures run.cacheHit ==> cache.Some? && run.errors == 0 && run.contacted == [] && run.stored.None?
    ensures run.stored.Some? ==>
      cache.Some? && !run.cacheHit && run.stored.value == (RunPips(config.pips, request).request, run.response)
    ensures run.errors > 0 ==> run.response.request == Some(RunPips(config.pips, request).request)
  {
    var pips := RunPips(config.pips, request);
    if pips.failed then ErrorRun(pips.request, 1, [])
    else Decide(config, converter, cache, pips.request, messageId, issueInstant)
  }

  /** handle after the PIPs: the cache lookup, the PDP query and what follows it. */
  function Decide(config: Config, converter: XacmlConverter, cache: Option<map<Request, Response>>,
                  enriched: Request, messageId: string, issueInstant: int): (run: HandleRun)
    ensures run.errors <= 2
    ensures run.contacted <= config.pdpEndpoints
    ensures run.cacheHit <==> cache.Some? && enriched in cache.value
    ensures run.cacheHit ==> run.response == cache.value[enriched] && run.errors == 0 && run.contacted == [] && run.stored.None?
    ensures run.stored.Some? ==> cache.Some? && run.stored.value == (enriched, run.response)
    ensures run.errors > 0 ==> run.response.request == Some(enriched)
  {
    if cache.Some? && enriched in cache.value then HandleRun(cache.value[enriched], 0, [], true, None)
    else
      var envelope := OutboundEnvelope(config, converter, enriched, messageId, issueInstant);
      var contacted := Contacted(config.pdpEndpoints, config.soapClient, envelope, converter);
      match Resolve(config.pdpEndpoints, config.soapClient, envelope, converter)
      case Aborted => ErrorRun(enriched, 1, contacted)
      case Answered(answer) => Finish(config, cache.Some?, enriched, answer, 0, contacted)
      case NoAnswer => Finish(config, cache.Some?, enriched, ProcessingErrorResponse(enriched), 1, contacted)
  }

  /** handle once it has a response: obligations, then the cache write. */
  function Finish(config: Config, caching: bool, enriched: Request, response: Response,
                  errors: nat, contacted: seq<string>): (run: HandleRun)
    ensures !run.cacheHit && run.contacted == contacted
    ensures run.errors == errors || run.errors == errors + 1
    ensures run.errors == errors + 1 <==> ApplyObligations(config.obligationService, enriched, response).None?
    ensures run.errors == errors + 1 ==> run.response == ProcessingErrorResponse(enriched) && run.stored.None?
    ensures run.errors == errors ==> Some(run.response) == ApplyObligations(config.obligationService, enriched, response)
    ensures run.stored.Some? <==> caching && run.errors == errors
    ensures run.stored.Some? ==> run.stored.value == (enriched, run.response)
  {
    match ApplyObligations(config.obligationService, enriched, response)
    case None => ErrorRun(enriched, errors + 1, contacted)
    case Some(processed) =>
      HandleRun(processed, errors, contacted, false, if caching then Some((enriched, processed)) else None)
  }

  /** The daemon's two counters. */
  class Metrics {
    var totalRequests: nat
    var totalErrors: nat

    constructor ()
      ensures totalRequests == 0 && totalErrors == 0
    {
      totalRequests, totalErrors := 0, 0;
    }

    method IncrementTotalAuthorizationRequests()
      modifies this
      ensures totalRequests == old(totalRequests) + 1 && totalErrors == old(totalErrors)
    {
      totalRequests := totalRequests + 1;
    }

    method IncrementTotalAuthorizationRequestErrors()
      modifies this
      ensures totalErrors == old(totalErrors) + 1 && totalRequests == old(totalRequests)
    {
      totalErrors := totalErrors + 1;
    }
  }

  class RequestHandler {
    const config: Config
    const converter: XacmlConverter
    const metrics: Metrics
    const cache: ResponseCache?

    /** A cache exists exactly when the configuration allows cached responses, and has that capacity. */
    ghost predicate Valid()
      reads this, cache
    {
      && (cache != null <==> config.maxCachedResponses > 0)
      && (cache != null ==> cache.Valid() && cache.capacity == config.maxCachedResponses)
    }

    constructor (config: Config, converter: XacmlConverter, metrics: Metrics)
      ensures Valid()
      ensures this.config == config && this.converter == converter && this.metrics == metrics
      ensures cache != null ==> fresh(cache) && cache.entries == map[]
    {
      this.config := config;
      this.converter := converter;
      this.metrics := metrics;
      var store: ResponseCache? := null;
      if config.maxCachedResponses > 0 {
        store := new ResponseCache(config.maxCachedResponses);
      }
      cache := store;
    }

    /** The PIP loop of handle: every PIP, in order, on the request the previous ones left. */
    method ApplyPips(request: Request)
      returns (enriched: Request, failed: bool, ghost invoked: seq<string>, ghost applied: seq<string>)
      ensures enriched == RunPips(config.pips, request).request
      ensures failed == RunPips(config.pips, request).failed
      ensures invoked == RunPips(config.pips, request).invoked
      ensures applied == RunPips(config.pips, request).applied
    {
      var pips := config.pips;
      enriched, failed := request, false;
      invoked, applied := [], [];
      var i := 0;
      while i < |pips| && !failed
        invariant 0 <= i <= |pips|
        invariant RunPips(pips[..i], request) == PipsRun(enriched, invoked, applied, failed)
      {
        var pip := pips[i];
        assert pips[..i + 1][..i] == pips[..i];
        match pip.populateRequest(enriched) {
          case Populated(didApply, next) =>
            enriched := next;
            invoked := invoked + [pip.id];
            if didApply {
              applied := applied + [pip.id];
            }
          case PipFailed(partial) =>
            enriched := partial;
            invoked := invoked + [pip.id];
            failed := true;
        }
        i := i + 1;
      }
      if failed {
        RunPipsAppend(pips[..i], pips[i..], request);
        assert pips[..i] + pips[i..] == pips;
      } else {
        assert pips[..i] == pips;
      }
    }

    /**
      sendRequestToPDP: send one outbound envelope to each endpoint in turn; the first
      usable response is returned at once, transport and security failures and refused
      replies move on, and any other exception leaves the loop.
    */
    method SendRequestToPdp(request: Request, messageId: string, issueInstant: int)
      returns (outcome: Outcome, contacted: seq<string>)
      ensures var envelope := OutboundEnvelope(config, converter, request, messageId, issueInstant);
        && outcome == Resolve(config.pdpEndpoints, config.soapClient, envelope, converter)
        && contacted == Contacted(config.pdpEndpoints, config.soapClient, envelope, converter)
    {
      var envelope := BuildSoapMessage(converter.requestToXacml(request), config.entityId, messageId, issueInstant);
      var endpoints := config.pdpEndpoints;
      contacted := [];
      var i := 0;
      while i < |endpoints|
        invariant 0 <= i <= |endpoints|
        invariant contacted == endpoints[..i]
        invariant forall j :: 0 <= j < i ==> AttemptAt(config.soapClient, envelope, converter, endpoints[j]).Unusable?
      {
        var endpoint := endpoints[i];
        contacted := contacted + [endpoint];
        assert contacted == endpoints[..i + 1];
        match config.soapClient(endpoint, envelope) {
          case TransportFailure =>
          case SecurityFailure =>
          case Unchecked =>
            outcome := Aborted;
            return;
          case Delivered(reply) =>
            match ExtractResponse(reply, converter) {
              case Extracted(response) =>
                outcome := Answered(response);
                return;
              case Rejected(_) =>
              case ExtractFailed =>
                outcome := Aborted;
                return;
            }
        }
        i := i + 1;
      }
      assert contacted == endpoints;
      outcome := NoAnswer;
    }

    /**
      handle: counts the request, runs the pipeline, and always returns a response; every
      exception in the pipeline is counted as an error and answered with a processing error.
    */
    method Handle(request: Request, messageId: string, issueInstant: int)
      returns (response: Response, ghost contacted: seq<string>, ghost hit: bool)
      requires Valid()
      modifies metrics, cache
      ensures Valid()
      ensures var run := HandleSpec(config, converter, if cache == null then None else Some(old(cache.entries)),
                                    request, messageId, issueInstant);
        && response == run.response
        && contacted == run.contacted
        && hit == run.cacheHit
        && metrics.totalRequests == old(metrics.totalRequests) + 1
        && metrics.totalErrors == old(metrics.totalErrors) + run.errors
        && (cache != null ==>
              if run.stored.Some?
              then StoredIn(old(cache.entries), cache.entries, run.stored.value.0, run.stored.value.1, cache.capacity)
              else cache.entries == old(cache.entries))
    {
      metrics.IncrementTotalAuthorizationRequests();

      contacted, hit := [], false;
      ghost var entries := if cache == null then None else Some(cache.entries);
      ghost var spec := HandleSpec(config, converter, entries, request, messageId, issueInstant);
      var enriched, failed, _, _ := ApplyPips(request);
      if failed {
        assert spec == ErrorRun(enriched, 1, []);
        metrics.IncrementTotalAuthorizationRequestErrors();
        response := ProcessingErrorResponse(enriched);
        return;
      }

      if cache != null {
        var cached := cache.Get(enriched);
        if cached.Some? {
          response, hit := cached.value, true;
          return;
        }
      }

      var outcome, endpoints := SendRequestToPdp(enriched, messageId, issueInstant);
      contacted := endpoints;
      assert spec == Decide(config, converter, entries, enriched, messageId, issueInstant);
      if outcome.Aborted? {
        assert spec == ErrorRun(enriched, 1, contacted);
        metrics.IncrementTotalAuthorizationRequestErrors();
        response := ProcessingErrorResponse(enriched);
        return;
      }
      if outcome.NoAnswer? {
        metrics.IncrementTotalAuthorizationRequestErrors();
        response := ProcessingErrorResponse(enriched);
        assert spec == Finish(config, cache != null, enriched, response, 1, contacted);
      } else {
        response := outcome.response;
        assert spec == Finish(config, cache != null, enriched, response, 0, contacted);
      }

      if config.obligationService.Some? {
        var process := config.obligationService.value;
        if |response.results| == 0 {
          metrics.IncrementTotalAuthorizationRequestErrors();
          response := ProcessingErrorResponse(enriched);
          return;
        }
        match process(enriched, response.results[0]) {
          case ObligationFailed =>
            metrics.IncrementTotalAuthorizationRequestErrors();
            response := ProcessingErrorResponse(enriched);
            return;
          case Processed(result) =>
            response := response.(results := [result] + response.results[1..]);
        }
      }

      if cache != null {
        cache.Put(enriched, response);
      }
    }
  }

  /** The constructor's guard: a missing configuration is refused (IllegalArgumentException). */
  method NewRequestHandler(config: Option<Config>, converter: XacmlConverter, metrics: Metrics)
    returns (handler: Option<RequestHandler>)
    ensures handler.None? <==> config.None?
    ensures handler.Some? ==>
      && fresh(handler.value)
      && handler.value.Valid()
      && handler.value.config == config.value
      && (handler.value.cache != null <==> config.value.maxCachedResponses > 0)
      && (handler.value.cache != null ==> handler.value.cache.entries == map[])
  {
    if config.None? {
      return None;
    }
    var created := new RequestHandler(config.value, converter, metrics);
    handler := Some(created);
  }
}
