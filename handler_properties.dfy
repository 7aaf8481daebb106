/** What the handler promises, stated over its specification function HandleSpec. */
module HandlerProperties {
  import opened Wrappers
  import opened AuthzModel
  import opened Wire
  import opened Failover
  import opened Pips
  import opened Handler

  /**
    A cache hit answers with the stored response: no PDP is contacted, no obligation is
    processed, nothing is written to the cache and no error is counted.
  */
  lemma CacheHitShortCircuits(config: Config, converter: XacmlConverter, cache: map<Request, Response>,
                              request: Request, messageId: string, issueInstant: int)
    requires !RunPips(config.pips, request).failed
    requires RunPips(config.pips, request).request in cache
    ensures HandleSpec(config, converter, Some(cache), request, messageId, issueInstant) ==
      HandleRun(cache[RunPips(config.pips, request).request], 0, [], true, None)
  {
  }

  /**
    With caching off the handler behaves as with an empty cache, except that it never
    reports a hit and never stores anything.
  */
  lemma CacheDisabledNeverConsulted(config: Config, converter: XacmlConverter,
                                    request: Request, messageId: string, issueInstant: int)
    ensures var off := HandleSpec(config, converter, None, request, messageId, issueInstant);
      var empty := HandleSpec(config, converter, Some(map[]), request, messageId, issueInstant);
      && !off.cacheHit && off.stored.None?
      && off.response == empty.response && off.errors == empty.errors && off.contacted == empty.contacted
  {
  }

  /**
    When no PDP answers, every endpoint was contacted, one error is counted and a
    processing-error response for the enriched request is built; it still goes through
    the obligation service and, when caching is on, into the cache. If the obligation
    service then throws, the catch block counts a second error.
  */
  lemma NoAnswerYieldsProcessingError(config: Config, converter: XacmlConverter, cache: Option<map<Request, Response>>,
                                      request: Request, messageId: string, issueInstant: int)
    requires !RunPips(config.pips, request).failed
    requires cache.None? || RunPips(config.pips, request).request !in cache.value
    requires var enriched := RunPips(config.pips, request).request;
      Resolve(config.pdpEndpoints, config.soapClient,
              OutboundEnvelope(config, converter, enriched, messageId, issueInstant), converter) == NoAnswer
    ensures var enriched := RunPips(config.pips, request).request;
      var error := ProcessingErrorResponse(enriched);
      var run := HandleSpec(config, converter, cache, request, messageId, issueInstant);
      && run.contacted == config.pdpEndpoints
      && !run.cacheHit
      && (config.obligationService.None? ==>
            run == HandleRun(error, 1, config.pdpEndpoints, false, if cache.Some? then Some((enriched, error)) else None))
      && (config.obligationService.Some? ==>
            match config.obligationService.value(enriched, error.results[0])
            case Processed(result) =>
              && run.errors == 1
              && run.response == Response(Some(enriched), [result])
              && run.stored == (if cache.Some? then Some((enriched, run.response)) else None)
            case ObligationFailed =>
              run == HandleRun(error, 2, config.pdpEndpoints, false, None))
  {
  }

  /**
    The error counter goes up at most twice per request: not at all exactly when the
    answer comes from the cache or from a PDP whose response the obligation step
    accepted, and twice only when no PDP answered and the obligation service then threw.
  */
  lemma ErrorAccounting(config: Config, converter: XacmlConverter, cache: Option<map<Request, Response>>,
                        request: Request, messageId: string, issueInstant: int)
    ensures var pips := RunPips(config.pips, request);
      var run := HandleSpec(config, converter, cache, request, messageId, issueInstant);
      var outcome := Resolve(config.pdpEndpoints, config.soapClient,
                             OutboundEnvelope(config, converter, pips.request, messageId, issueInstant), converter);
      && run.errors <= 2
      && (run.errors == 0 <==>
            !pips.failed &&
            (run.cacheHit ||
             (outcome.Answered? && ApplyObligations(config.obligationService, pips.request, outcome.response).Some?)))
      && (run.errors == 2 <==>
            && !pips.failed && !run.cacheHit && outcome == NoAnswer
            && config.obligationService.Some?
            && config.obligationService.value(pips.request, ProcessingErrorResponse(pips.request).results[0]).ObligationFailed?)
      && (run.errors > 0 ==> run.response.request == Some(pips.request) && |run.response.results| == 1)
  {
  }

  /**
    Only a final response reaches the cache: stored under the enriched request, it is the
    response returned, and it is stored only on a miss with caching on.
  */
  lemma StoredIsReturned(config: Config, converter: XacmlConverter, cache: Option<map<Request, Response>>,
                         request: Request, messageId: string, issueInstant: int)
    ensures var run := HandleSpec(config, converter, cache, request, messageId, issueInstant);
      run.stored.Some? ==>
        && cache.Some? && !run.cacheHit
        && run.stored.value == (RunPips(config.pips, request).request, run.response)
        && run.stored.value.0 !in cache.value
  {
  }

  /**
    A response the handler stored is reused: handling the same request again, against any
    cache that still holds the entry, answers with it at once and contacts no PDP, whatever
    identifier and instant the second call would have stamped.
  */
  lemma RepeatedRequestHitsCache(config: Config, converter: XacmlConverter, before: map<Request, Response>,
                                 after: map<Request, Response>, request: Request,
                                 firstId: string, firstInstant: int, secondId: string, secondInstant: int)
    requires var first := HandleSpec(config, converter, Some(before), request, firstId, firstInstant);
      first.stored.Some? && first.stored.value.0 in after && after[first.stored.value.0] == first.stored.value.1
    ensures var first := HandleSpec(config, converter, Some(before), request, firstId, firstInstant);
      HandleSpec(config, converter, Some(after), request, secondId, secondInstant) ==
        HandleRun(first.response, 0, [], true, None)
  {
  }

  /**
    Every response the handler returns has a result, except a PDP's or the cache's own
    response passed through unchanged when no obligation service is configured.
  */
  lemma ResponsesCarryAResult(config: Config, converter: XacmlConverter, cache: Option<map<Request, Response>>,
                              request: Request, messageId: string, issueInstant: int)
    ensures var run := HandleSpec(config, converter, cache, request, messageId, issueInstant);
      |run.response.results| == 0 ==>
        && run.errors == 0
        && (run.cacheHit || config.obligationService.None?)
  {
  }

  /**
    A PIP that throws ends the pipeline: the cache and the PDPs are not consulted, one error
    is counted, and the error response carries the request as the PIPs left it.
  */
  lemma PipFailureAnswersAtOnce(config: Config, converter: XacmlConverter, cache: Option<map<Request, Response>>,
                                request: Request, messageId: string, issueInstant: int)
    requires RunPips(config.pips, request).failed
    ensures var run := HandleSpec(config, converter, cache, request, messageId, issueInstant);
      && run == HandleRun(ProcessingErrorResponse(RunPips(config.pips, request).request), 1, [], false, None)
      && PrimaryStatusCode(run.response) == Some(ProcessingError)
  {
  }

  /**
    An exception out of the PDP loop, and an obligation step that fails on a PDP's answer,
    both land in the catch block: one error is counted, a processing-error response for
    the enriched request is returned, and nothing is cached.
  */
  lemma ExceptionPathsAnswerWithError(config: Config, converter: XacmlConverter, cache: Option<map<Request, Response>>,
                                      request: Request, messageId: string, issueInstant: int)
    requires !RunPips(config.pips, request).failed
    requires cache.None? || RunPips(config.pips, request).request !in cache.value
    requires var enriched := RunPips(config.pips, request).request;
      var outcome := Resolve(config.pdpEndpoints, config.soapClient,
                             OutboundEnvelope(config, converter, enriched, messageId, issueInstant), converter);
      || outcome == Aborted
      || (outcome.Answered? && ApplyObligations(config.obligationService, enriched, outcome.response).None?)
    ensures var enriched := RunPips(config.pips, request).request;
      var run := HandleSpec(config, converter, cache, request, messageId, issueInstant);
      && run == ErrorRun(enriched, 1, run.contacted)
      && run.stored.None?
      && PrimaryStatusCode(run.response) == Some(ProcessingError)
      && run.contacted == Contacted(config.pdpEndpoints, config.soapClient,
                                    OutboundEnvelope(config, converter, enriched, messageId, issueInstant), converter)
  {
  }
}
