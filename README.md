# PEP daemon request handler, modelled in Dafny

This project models the decision pipeline of the Argus PEP daemon (`PEPDaemonRequestHandler`).
A client's authorization request goes through these steps:

1. Every configured Policy Information Point (PIP) enriches the request, in registration order.
2. The response cache is consulted.
3. On a miss, the request is wrapped in a SOAP 1.1 envelope holding one
   `XACMLAuthzDecisionQuery` and sent to the Policy Decision Points (PDPs) one after the other.
4. The reply is checked against the cardinality rules of the SAML 2.0 profile of XACML v2.0:
   one assertion, holding one XACML authorization decision statement.
5. The obligation service runs over the first result, the response is cached,
   and every failure becomes a processing-error response.

Modules:

- `Wrappers`: `Option`, which stands for Java's `null`.
- `AuthzModel`: the daemon's `Request`, `Response`, `Result`, `Status` and `StatusCode`, as values.
- `Wire`: the outbound envelope (`BuildSoapMessage`) and the reply check (`ExtractResponse`), with the
  profile's cardinality rule as an independent reference predicate and a round-trip lemma
  against a profile-conforming PDP reply.
- `Failover`: what one endpoint's exchange yields (`TryEndpoint`), the index of the endpoint that ends
  the loop (`FirstDecisive`), and the loop's outcome and the endpoints it contacts (`Resolve`, `Contacted`).
- `Pips`: the PIP loop as a function (`RunPips`) and its composition law.
- `Cache`: the response cache as a class over a bounded `map`.
- `Handler`: the configuration, `buildErrorResponse`, the obligation step, the metrics counters, the
  `RequestHandler` class (constructor, the PIP loop, `sendRequestToPDP`, `handle`) and the
  specification function `HandleSpec` that `Handle` is proved against.
- `HandlerProperties`: what `handle` promises, stated over `HandleSpec`.

Collaborators are values:

- A PIP is a function from a request to "applied or not, and the request as it left it", or to
  "threw, and the request as far as it got".
- The SOAP client is a function from an endpoint and an envelope to one of four outcomes:
  a reply, a transport failure, a security failure, or an unchecked exception.
- The obligation service is an optional function that rewrites the first result or throws.
- `XACMLConverter` is a pair of functions; the response conversion may yield no response (`null`).
- The message identifier and issue instant are parameters of `Handle`.

Java exceptions are modelled as outcome values:

- A PIP or obligation-service exception reaches `handle`'s catch block.
- An unchecked exception from `send` also reaches the catch block, and so does a reply with no
  body, an empty body, or a first child that is not a SAML Response (a cast or index exception).

Behaviours of the code worth knowing, all of them modelled as written:

- Error counting: the code counts two errors for one request when no PDP answers (`:182`) and the
  obligation service then throws on the error response's result, which reaches the catch block (`:202`).
  A PDP answer with no result and a configured obligation service reaches the catch block through the
  failed `get(0)` (`:191`) and counts one error (`:202`). `HandlerProperties.ErrorAccounting` states
  exactly when zero, one or two errors are counted.
- Results: a PDP answer with no result is returned unchanged when no obligation service is configured
  (`:189-207`), so a response need not hold a result (`HandlerProperties.ResponsesCarryAResult`).
- Malformed replies: only cardinality violations (`:312-333`), a null conversion (`:250`, `:336`) and
  transport or security failures (`:257-262`) move on to the next endpoint. A reply whose body is
  missing, empty or does not start with a SAML Response makes the cast or index at `:309-310` throw an
  unchecked exception, which abandons the remaining endpoints and reaches the catch block (`:201-205`).
- Message identifiers: the envelope is built once per request (`:220`), so every endpoint tried receives
  the same identifier and issue instant (`Resolve` and `Contacted` take one envelope).

## Model

| member | source | states |
|---|---|---|
| `Handler.NewRequestHandler` | src/main/java/org/glite/authz/pep/server/PEPDaemonRequestHandler.java:101-115 | a missing configuration is refused; otherwise a handler is built whose cache exists exactly when `maxCachedResponses > 0`, starting empty |
| `Handler.RequestHandler.constructor` | src/main/java/org/glite/authz/pep/server/PEPDaemonRequestHandler.java:105-115 | the cache exists iff `maxCachedResponses > 0`, with that capacity, fresh and empty |
| `Handler.RequestHandler.Handle` | src/main/java/org/glite/authz/pep/server/PEPDaemonRequestHandler.java:147-208 | the response, the endpoints contacted and whether the cache answered are `HandleSpec`'s; total requests goes up by exactly one; errors go up by the run's error count; the cache is written only with the run's stored pair, otherwise left unchanged |
| `Handler.RequestHandler.ApplyPips` | src/main/java/org/glite/authz/pep/server/PEPDaemonRequestHandler.java:153-159 | the in-place PIP loop leaves the request, the failure flag, and the ids of the PIPs invoked and applied exactly as the fold `RunPips` over the configured PIPs |
| `Handler.RequestHandler.SendRequestToPdp` | src/main/java/org/glite/authz/pep/server/PEPDaemonRequestHandler.java:219-267 | the loop's outcome is `Resolve` over the configured endpoints for the one outbound envelope, and the endpoints it sends to are `Contacted` |
| `Handler.BuildErrorResponse` | src/main/java/org/glite/authz/pep/server/PEPDaemonRequestHandler.java:348-365 | exactly one result; status code is the given code; message present exactly when one is given; carries the given request; no obligations, no decision set |
| `Handler.ApplyObligations` | src/main/java/org/glite/authz/pep/server/PEPDaemonRequestHandler.java:188-192 | no service: response unchanged; with a service: fails iff there is no first result or the service throws, otherwise only the first result is replaced by the service's rewrite |
| `Handler.ProcessingErrorResponse` | src/main/java/org/glite/authz/pep/server/PEPDaemonRequestHandler.java:204 | the processing-error response built at `:183` and `:204`: carries the request, one result, status code `processing-error`, no message |
| `Handler.HandleSpec` | src/main/java/org/glite/authz/pep/server/PEPDaemonRequestHandler.java:147-208 | handle as a function: at most two errors; no more endpoints contacted than configured; a cache hit has no error, no contact, no store; anything stored is the enriched request and the returned response; an error response carries the enriched request |
| `Handler.Decide` | src/main/java/org/glite/authz/pep/server/PEPDaemonRequestHandler.java:162-205 | after the PIPs: a hit exactly when the cache holds the enriched request, answered with its entry and nothing else; otherwise the endpoints contacted are a prefix of the configured ones, and any error response carries the enriched request |
| `Handler.Finish` | src/main/java/org/glite/authz/pep/server/PEPDaemonRequestHandler.java:188-205 | after a response is in hand: one more error and the processing-error response, with nothing cached, exactly when the obligation step fails; otherwise the obligation step's response is returned and, with caching on, stored under the enriched request |
| `Handler.Metrics.IncrementTotalAuthorizationRequests` | src/main/java/org/glite/authz/pep/server/PEPDaemonRequestHandler.java:148 | total requests goes up by one, errors unchanged |
| `Handler.Metrics.IncrementTotalAuthorizationRequestErrors` | src/main/java/org/glite/authz/pep/server/PEPDaemonRequestHandler.java:182 | errors go up by one, total requests unchanged |
| `Wire.BuildSoapMessage` | src/main/java/org/glite/authz/pep/server/PEPDaemonRequestHandler.java:276-298 | the body holds exactly one child, the decision query, whose issuer is the entity id in ENTITY format, InputContextOnly false, ReturnContext true, carrying the converted request unchanged and the given id and instant |
| `Wire.DecisionStatements` | src/main/java/org/glite/authz/pep/server/PEPDaemonRequestHandler.java:322-323 | the decision statements found are exactly those among the assertion's statements, and no more of them than statements |
| `Wire.ExtractResponse` | src/main/java/org/glite/authz/pep/server/PEPDaemonRequestHandler.java:308-337 | throws iff the body does not start with a SAML Response; passes the cardinality checks iff that response has exactly one assertion holding exactly one decision statement (profile rule), and then yields the conversion of that statement's response with its echoed request, or a null-conversion refusal when the converter gives no response; refuses with "no decision statement" iff the single assertion has none |
| `Wire.SingleDecisionStatement` | src/main/java/org/glite/authz/pep/server/PEPDaemonRequestHandler.java:322-333 | filtering finds exactly one decision statement iff exactly one statement of the assertion is one |
| `Wire.NoneFoundMeansNone` | src/main/java/org/glite/authz/pep/server/PEPDaemonRequestHandler.java:324-328 | filtering finds none iff no statement is a decision statement |
| `Wire.LeadingDecisionStatement` | src/main/java/org/glite/authz/pep/server/PEPDaemonRequestHandler.java:329-333 | with a decision statement first, the one-statement rule holds iff no later statement is one |
| `Wire.LeadingOtherStatement` | src/main/java/org/glite/authz/pep/server/PEPDaemonRequestHandler.java:322-333 | a leading statement of another type does not affect the one-statement rule |
| `Wire.BuildThenExtract` | src/main/java/org/glite/authz/pep/server/PEPDaemonRequestHandler.java:276-337 | a profile-conforming PDP's reply to the built query passes every check, and the converter is handed the decision and exactly the request sent; its result (or its null) is what comes back |
| `Failover.TryEndpoint` | src/main/java/org/glite/authz/pep/server/PEPDaemonRequestHandler.java:246-262 | the loop moves on iff the exchange is a transport failure, a security failure or a refused reply (a cardinality violation or a null conversion); it returns iff the reply was accepted, with the extracted response |
| `Failover.AttemptAt` | src/main/java/org/glite/authz/pep/server/PEPDaemonRequestHandler.java:248-249 | an endpoint is usable iff it delivered a reply that passes extraction; its attempt escapes the loop iff the send threw an unchecked exception or the reply was malformed |
| `Failover.FirstDecisive` | src/main/java/org/glite/authz/pep/server/PEPDaemonRequestHandler.java:245-263 | the loop stops at the first endpoint whose attempt does not say "move on"; every earlier endpoint said "move on" |
| `Failover.Resolve` | src/main/java/org/glite/authz/pep/server/PEPDaemonRequestHandler.java:245-266 | an answer is the usable response of some configured endpoint; an abort comes from some endpoint whose attempt escaped; no answer means every endpoint moved on |
| `Failover.Contacted` | src/main/java/org/glite/authz/pep/server/PEPDaemonRequestHandler.java:245-263 | the endpoints sent to are a prefix of the configured list; all but the last moved on; when the loop stopped early, the last one did not |
| `Failover.AnsweredByFirstUsable` | src/main/java/org/glite/authz/pep/server/PEPDaemonRequestHandler.java:242-256 | if the endpoints before k all moved on, endpoint k's response is the answer iff k was usable, and then exactly the endpoints up to k were contacted |
| `Failover.NoAnswerWhenAllUnusable` | src/main/java/org/glite/authz/pep/server/PEPDaemonRequestHandler.java:245-266 | no answer (null) iff every endpoint moved on, and then every endpoint was contacted |
| `Failover.ResolveAppend` | src/main/java/org/glite/authz/pep/server/PEPDaemonRequestHandler.java:242-266 | trying `first + second` is trying `first` and, only when it gave no answer, `second`: strict list order, and an answer or an escaped exception abandons the rest |
| `Pips.PipsInvokedInOrder` | src/main/java/org/glite/authz/pep/server/PEPDaemonRequestHandler.java:153-159 | the PIPs invoked are a prefix of the list in order, each once; all of them unless one threw; those that applied are among them |
| `Pips.RunPips` | src/main/java/org/glite/authz/pep/server/PEPDaemonRequestHandler.java:153-159 | the PIP loop as a fold: no more PIPs applied than invoked, no more invoked than configured, and all of them invoked unless one threw |
| `Pips.Step` | src/main/java/org/glite/authz/pep/server/PEPDaemonRequestHandler.java:154-158 | one PIP on the request the earlier ones left: its id is appended to those invoked, the request is what it left, the run fails iff it threw, and its id is appended to those applied iff it applied |
| `Pips.RunPipsAppend` | src/main/java/org/glite/authz/pep/server/PEPDaemonRequestHandler.java:153-159 | running two PIP lists in sequence is running their concatenation: later PIPs see exactly the request earlier ones left, applied or not |
| `Cache.ResponseCache.constructor` | src/main/java/org/glite/authz/pep/server/PEPDaemonRequestHandler.java:107-112 | a new cache has the configured capacity and no entries |
| `Cache.ResponseCache.Get` | src/main/java/org/glite/authz/pep/server/PEPDaemonRequestHandler.java:165-168 | a hit exactly when the request is a key, with its stored response |
| `Cache.ResponseCache.Put` | src/main/java/org/glite/authz/pep/server/PEPDaemonRequestHandler.java:197 | the request now maps to the response; other entries are kept or evicted, none added; nothing is evicted while there is room; the size stays within capacity |
| `HandlerProperties.CacheHitShortCircuits` | src/main/java/org/glite/authz/pep/server/PEPDaemonRequestHandler.java:163-172 | on a hit the stored response is returned with no PDP contact, no obligation processing, no cache write and no error |
| `HandlerProperties.CacheDisabledNeverConsulted` | src/main/java/org/glite/authz/pep/server/PEPDaemonRequestHandler.java:163-198 | with caching off there is never a hit or a store, and the outcome equals that with an empty cache |
| `HandlerProperties.NoAnswerYieldsProcessingError` | src/main/java/org/glite/authz/pep/server/PEPDaemonRequestHandler.java:177-198 | when no PDP answers, all endpoints were contacted, one error is counted, and a processing-error response for the enriched request still goes through the obligation service and into the cache; if the service throws, a second error is counted and nothing is cached |
| `HandlerProperties.ErrorAccounting` | src/main/java/org/glite/authz/pep/server/PEPDaemonRequestHandler.java:177-205 | at most two errors per request; none iff the answer came from the cache or from a PDP and the obligation step succeeded; two iff no PDP answered and the obligation service threw; any error response carries the enriched request and one result |
| `HandlerProperties.StoredIsReturned` | src/main/java/org/glite/authz/pep/server/PEPDaemonRequestHandler.java:194-198 | only on a miss with caching on, the pair stored is the enriched request and the returned response |
| `HandlerProperties.RepeatedRequestHitsCache` | src/main/java/org/glite/authz/pep/server/PEPDaemonRequestHandler.java:163-198 | a stored response still in the cache answers the same request again at once, with no PDP contact and no error |
| `HandlerProperties.ResponsesCarryAResult` | src/main/java/org/glite/authz/pep/server/PEPDaemonRequestHandler.java:177-207 | a returned response without results was counted as no error, and is either a cache hit or a PDP answer passed through with no obligation service |
| `HandlerProperties.PipFailureAnswersAtOnce` | src/main/java/org/glite/authz/pep/server/PEPDaemonRequestHandler.java:151-205 | a PIP that throws ends the pipeline: no cache, no PDP, one error, a processing-error response carrying the partly enriched request |
| `HandlerProperties.ExceptionPathsAnswerWithError` | src/main/java/org/glite/authz/pep/server/PEPDaemonRequestHandler.java:201-205 | an exception out of the PDP loop, or an obligation step that fails on a PDP answer, counts exactly one error and returns the processing-error response for the enriched request, caching nothing |

## Left out

- SOAP/HTTP transport: the SOAP client, `HttpSOAPRequestParameters`, the message context and its
  communication profile id. The client is a function from endpoint and envelope to an exchange outcome.
- XML marshalling, pretty-printing, and the protocol and diagnostic logs (slf4j). The ids of the PIPs
  invoked and applied, which the loop logs, are ghost out-parameters of `ApplyPips`.
- `XACMLConverter`: its code is not part of this model. Its two conversions are functions; the
  response conversion may give no response (null), which moves the loop on. A conversion that throws
  is not modelled.
- The secure-random identifier generator and the clock: the message id and issue instant are parameters.
  Their uniqueness across requests is not modelled, nor is the swallowed `NoSuchAlgorithmException`.
- Cache library behaviour: which entry LFU evicts (any entry may go), time-to-live and idle expiry
  (`cachedResponseTtl` is carried but unused), `CacheManager` registration, and thread safety.
  Expiry only makes entries disappear, like eviction.
- A cache element whose value is null (`:167-168`): the handler never stores one, and the model's
  cache holds only responses.
- Null lists: `getAssertions()` and `getStatements(...)` returning null are treated as empty lists,
  as the code does.
- Concurrency: `@ThreadSafe`, the static builders shared between handlers, and concurrent identical
  requests racing on the cache.
- The PIP and obligation-service implementations and the metrics sink internals; only their effects
  on the request, the first result and the two counters are modelled.
- `handle`'s `IOException`: nothing in the method throws it.
