/**
  The wire side of a decision query: the SOAP 1.1 envelope carrying an
  XACMLAuthzDecisionQuery out to a PDP, and the SAML Response coming back, as
  defined by the SAML 2.0 profile of XACML v2.0. XML marshalling is not modelled;
  the envelopes are the object trees the handler builds and walks.
*/
module Wire {
  import opened Wrappers
  import opened AuthzModel

  /** The SAML 2.0 entity name-identifier format (Issuer.ENTITY). */
  const EntityFormat: string := "urn:oasis:names:tc:SAML:2.0:nameid-format:entity"

  /** A XACML request context, opaque to the handler. */
  datatype XacmlRequest = XacmlRequest(context: string)

  /** A XACML response context, opaque to the handler. */
  datatype XacmlResponse = XacmlResponse(context: string)

  /**
    The conversions between the daemon's model and XACML (XACMLConverter), whose
    code is not part of this model. Converting a response may give null (None), for
    instance for a statement without a response.
  */
  datatype XacmlConverter = XacmlConverter(
    requestToXacml: Request -> XacmlRequest,
    responseFromXacml: (Option<XacmlResponse>, Option<XacmlRequest>) -> Option<Response>)

  datatype Issuer = Issuer(format: string, value: string)

  datatype AuthzDecisionQuery = AuthzDecisionQuery(
    id: string,
    issueInstant: int,
    issuer: Issuer,
    inputContextOnly: bool,
    returnContext: bool,
    request: XacmlRequest)

  /** An XACMLAuthzDecisionStatement: the decision (possibly absent) and, when returned, the request context it was made for. */
  datatype AuthzDecisionStatement = AuthzDecisionStatement(response: Option<XacmlResponse>, request: Option<XacmlRequest>)

  /** A statement of an assertion; only the XACML 2.0 decision-statement type is of interest. */
  datatype Statement =
    | XacmlAuthzDecision(statement: AuthzDecisionStatement)
    | OtherStatement(typeName: string)

  datatype Assertion = Assertion(statements: seq<Statement>)

  datatype SamlResponse = SamlResponse(assertions: seq<Assertion>)

  /** A child element of a SOAP body. */
  datatype BodyElement =
    | DecisionQuery(query: AuthzDecisionQuery)
    | SamlReply(reply: SamlResponse)
    | OtherElement(name: string)

  datatype Body = Body(children: seq<BodyElement>)

  /** A SOAP 1.1 envelope; the body is absent when the message has none. */
  datatype Envelope = Envelope(body: Option<Body>)

  /**
    Why a well-typed reply gave null: the four warnings of extractResponse, or a
    conversion of the single decision statement that gave null.
  */
  datatype Rejection = NoAssertion | TooManyAssertions | NoDecisionStatement | TooManyDecisionStatements | NullConversion

  /**
    What extracting a reply gives: a response, a refusal (the source returns null),
    or an unchecked exception raised while walking the reply (no body, an empty body,
    or a first child that is not a SAML Response).
  */
  datatype Extraction = Extracted(response: Response) | Rejected(reason: Rejection) | ExtractFailed

  /** The decision query a SOAP message carries, when its body holds exactly that one child. */
  function OutboundQuery(envelope: Envelope): Option<AuthzDecisionQuery>
  {
    if envelope.body.Some? && |envelope.body.value.children| == 1 && envelope.body.value.children[0].DecisionQuery?
    then Some(envelope.body.value.children[0].query)
    else None
  }

  /**
    buildSOAPMessage: the outbound envelope for a converted request. The message
    identifier and issue instant, random and clock-derived in the daemon, are parameters.
  */
  function BuildSoapMessage(request: XacmlRequest, entityId: string, messageId: string, issueInstant: int): (envelope: Envelope)
    ensures envelope.body.Some? && |envelope.body.value.children| == 1
    ensures OutboundQuery(envelope).Some?
    ensures var query := OutboundQuery(envelope).value;
      && query.issuer == Issuer(EntityFormat, entityId)
      && !query.inputContextOnly
      && query.returnContext
      && query.request == request
      && query.id == messageId
      && query.issueInstant == issueInstant
  {
    var issuer := Issuer(EntityFormat, entityId);
    var query := AuthzDecisionQuery(messageId, issueInstant, issuer, false, true, request);
    Envelope(Some(Body([DecisionQuery(query)])))
  }

  /** The XACML 2.0 decision statements of an assertion, in order (Assertion.getStatements(TYPE_NAME_XACML20)). */
  function DecisionStatements(statements: seq<Statement>): (found: seq<AuthzDecisionStatement>)
    ensures |found| <= |statements|
    ensures forall d :: d in found <==> XacmlAuthzDecision(d) in statements
  {
    if |statements| == 0 then []
    else
      var head := if statements[0].XacmlAuthzDecision? then [statements[0].statement] else [];
      assert forall d :: XacmlAuthzDecision(d) in statements <==>
        XacmlAuthzDecision(d) == statements[0] || XacmlAuthzDecision(d) in statements[1..];
      head + DecisionStatements(statements[1..])
  }

  /** The profile's cardinality rule for the statements of one assertion: exactly one decision statement. */
  ghost predicate HoldsOneDecisionStatement(statements: seq<Statement>)
  {
    exists i :: 0 <= i < |statements| && statements[i].XacmlAuthzDecision? &&
      forall j :: 0 <= j < |statements| && j != i ==> !statements[j].XacmlAuthzDecision?
  }

  /** The reply's body starts with a SAML Response, so the cast in extractResponse succeeds. */
  predicate LeadsWithSamlResponse(reply: Envelope)
  {
    reply.body.Some? && |reply.body.value.children| > 0 && reply.body.value.children[0].SamlReply?
  }

  /** The SAML Response extractResponse reads: the first child of the body. */
  function LeadingSamlResponse(reply: Envelope): SamlResponse
    requires LeadsWithSamlResponse(reply)
  {
    reply.body.value.children[0].reply
  }

  /** The profile's cardinality rule for a SAML Response: one assertion holding one decision statement. */
  ghost predicate ConformsToProfile(saml: SamlResponse)
  {
    |saml.assertions| == 1 && HoldsOneDecisionStatement(saml.assertions[0].statements)
  }

  /**
    extractResponse: accept a reply only when it holds exactly one assertion with exactly
    one decision statement, and convert that statement's response with its echoed request.
  */
  function ExtractResponse(reply: Envelope, converter: XacmlConverter): (x: Extraction)
    ensures x.ExtractFailed? <==> !LeadsWithSamlResponse(reply)
    ensures x.Extracted? || x == Rejected(NullConversion) <==>
      LeadsWithSamlResponse(reply) && ConformsToProfile(LeadingSamlResponse(reply))
    ensures x.Extracted? ==>
      exists d :: (XacmlAuthzDecision(d) in LeadingSamlResponse(reply).assertions[0].statements &&
                   converter.responseFromXacml(d.response, d.request) == Some(x.response))
    ensures x == Rejected(NullConversion) ==>
      exists d :: (XacmlAuthzDecision(d) in LeadingSamlResponse(reply).assertions[0].statements &&
                   converter.responseFromXacml(d.response, d.request).None?)
    ensures x == Rejected(NoDecisionStatement) <==>
      (LeadsWithSamlResponse(reply) && |LeadingSamlResponse(reply).assertions| == 1 &&
       forall s :: s in LeadingSamlResponse(reply).assertions[0].statements ==> !s.XacmlAuthzDecision?)
  {
    match reply.body
    case None => ExtractFailed
    case Some(body) =>
      if |body.children| == 0 then ExtractFailed
      else
        match body.children[0]
        case SamlReply(saml) =>
          if |saml.assertions| == 0 then Rejected(NoAssertion)
          else if |saml.assertions| > 1 then Rejected(TooManyAssertions)
          else
            var statements := DecisionStatements(saml.assertions[0].statements);
            SingleDecisionStatement(saml.assertions[0].statements);
            NoneFoundMeansNone(saml.assertions[0].statements);
            if |statements| == 0 then Rejected(NoDecisionStatement)
            else if |statements| > 1 then Rejected(TooManyDecisionStatements)
            else
              assert statements[0] in statements;
              (match converter.responseFromXacml(statements[0].response, statements[0].request)
               case Some(response) => Extracted(response)
               case None => Rejected(NullConversion))
        case _ => ExtractFailed
  }

  /** Filtering finds exactly one decision statement exactly when the profile's cardinality rule holds. */
  lemma {:induction false} SingleDecisionStatement(statements: seq<Statement>)
    ensures |DecisionStatements(statements)| == 1 <==> HoldsOneDecisionStatement(statements)
  {
    if |statements| > 0 {
      var rest := statements[1..];
      SingleDecisionStatement(rest);
      NoneFoundMeansNone(rest);
      if statements[0].XacmlAuthzDecision? {
        LeadingDecisionStatement(statements);
      } else {
        LeadingOtherStatement(statements);
      }
    }
  }

  /** The filter finds nothing exactly when no statement is a decision statement. */
  lemma NoneFoundMeansNone(statements: seq<Statement>)
    ensures |DecisionStatements(statements)| == 0 <==> forall j :: 0 <= j < |statements| ==> !statements[j].XacmlAuthzDecision?
  {
  }

  /** With a decision statement first, the rule holds exactly when no later statement is one. */
  lemma LeadingDecisionStatement(statements: seq<Statement>)
    requires |statements| > 0 && statements[0].XacmlAuthzDecision?
    ensures HoldsOneDecisionStatement(statements) <==>
      forall j :: 0 <= j < |statements| - 1 ==> !statements[1..][j].XacmlAuthzDecision?
  {
    var rest := statements[1..];
    if forall j :: 0 <= j < |rest| ==> !rest[j].XacmlAuthzDecision? {
      forall j | 0 <= j < |statements| && j != 0 ensures !statements[j].XacmlAuthzDecision? {
        assert statements[j] == rest[j - 1];
      }
    }
    if HoldsOneDecisionStatement(statements) {
      var i :| 0 <= i < |statements| && statements[i].XacmlAuthzDecision? &&
        forall j :: 0 <= j < |statements| && j != i ==> !statements[j].XacmlAuthzDecision?;
      forall j | 0 <= j < |rest| ensures !rest[j].XacmlAuthzDecision? {
        assert rest[j] == statements[j + 1];
      }
    }
  }

  /** With another statement first, the rule holds of the statements exactly when it holds of the rest. */
  lemma LeadingOtherStatement(statements: seq<Statement>)
    requires |statements| > 0 && !statements[0].XacmlAuthzDecision?
    ensures HoldsOneDecisionStatement(statements) <==> HoldsOneDecisionStatement(statements[1..])
  {
  }

  /**
    The reply a PDP following the SAML 2.0 profile of XACML v2.0 sends to a query: one
    assertion holding one decision statement, echoing the request context when the query
    asks for it.
  */
  function ProfileReply(query: AuthzDecisionQuery, decision: XacmlResponse): Envelope
  {
    var echoed := if query.returnContext then Some(query.request) else None;
    var statement := XacmlAuthzDecision(AuthzDecisionStatement(Some(decision), echoed));
    Envelope(Some(Body([SamlReply(SamlResponse([Assertion([statement])]))])))
  }

  /**
    Round trip: a conforming PDP's reply to the query built for a request passes the
    cardinality checks, and the converter receives the decision together with exactly
    the request that was sent; its result, or null, is what extraction gives.
  */
  lemma BuildThenExtract(request: XacmlRequest, entityId: string, messageId: string, issueInstant: int,
                         decision: XacmlResponse, converter: XacmlConverter)
    ensures var query := OutboundQuery(BuildSoapMessage(request, entityId, messageId, issueInstant)).value;
      ExtractResponse(ProfileReply(query, decision), converter) ==
        match converter.responseFromXacml(Some(decision), Some(request))
        case Some(response) => Extracted(response)
        case None => Rejected(NullConversion)
  {
  }
}
