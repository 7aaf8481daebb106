/**
  The daemon's own request/response model (org.glite.authz.common.model), as values.
  Only the shape the handler touches is modelled: the handler never inspects attributes,
  it passes requests to PIPs, uses them as cache keys and echoes them in responses.
*/
module AuthzModel {
  import opened Wrappers

  datatype Attribute = Attribute(id: string, dataType: string, issuer: Option<string>, values: seq<string>)

  /** A request: the attributes of its subject, resource, action and environment categories. */
  datatype Request = Request(
    subject: seq<Attribute>,
    resource: seq<Attribute>,
    action: seq<Attribute>,
    environment: seq<Attribute>)

  datatype Decision = Deny | Permit | Indeterminate | NotApplicable

  datatype Obligation = Obligation(id: string, fulfillOn: Decision, assignments: seq<(string, string)>)

  datatype StatusCode = StatusCode(code: string)

  datatype Status = Status(code: Option<StatusCode>, message: Option<string>)

  /**
    One result of a response. A field that is None was never set, so it keeps whatever
    default the Result class gives it (that class is not part of this model).
  */
  datatype Result = Result(
    decision: Option<Decision>,
    resourceId: Option<string>,
    status: Option<Status>,
    obligations: seq<Obligation>)

  /** A response: the request it answers (possibly absent) and its results, in order. */
  datatype Response = Response(request: Option<Request>, results: seq<Result>)

  /** The XACML 2.0 processing-error status code (StatusCodeType.SC_PROCESSING_ERROR). */
  const ProcessingError: string := "urn:oasis:names:tc:xacml:1.0:status:processing-error"

  /** The status code of the first result, as a client reading the response sees it. */
  function PrimaryStatusCode(response: Response): Option<string>
  {
    if |response.results| > 0 && response.results[0].status.Some? && response.results[0].status.value.code.Some?
    then Some(response.results[0].status.value.code.value.code)
    else None
  }

  /** The status message of the first result, if any. */
  function PrimaryStatusMessage(response: Response): Option<string>
  {
    if |response.results| > 0 && response.results[0].status.Some?
    then response.results[0].status.value.message
    else None
  }
}
