/**
  PDP failover: what one endpoint's exchange yields, and which endpoint decides
  the outcome when the endpoints are tried in their configured order.
*/
module Failover {
  import opened Wrappers
  import opened AuthzModel
  import opened Wire

  /**
    What sending the outbound envelope to one endpoint does: a reply, a transport
    failure (SOAPClientException), a failed security check (SecurityException), or
    any other, unchecked, exception.
  */
  datatype Exchange = Delivered(reply: Envelope) | TransportFailure | SecurityFailure | Unchecked

  /** The SOAP client: the exchange each endpoint performs for a given outbound envelope. */
  type SoapClient = (string, Envelope) -> Exchange

  /** One endpoint's attempt: a usable response, a reason to move on, or an exception that leaves the loop. */
  datatype Attempt = Usable(response: Response) | Unusable | Escaped

  /** The outcome of trying every endpoint: the first usable response, none at all, or an escaped exception. */
  datatype Outcome = Answered(response: Response) | NoAnswer | Aborted

  /** One iteration of the failover loop's body, for the endpoint's exchange. */
  function TryEndpoint(exchange: Exchange, converter: XacmlConverter): (attempt: Attempt)
    ensures attempt.Unusable? <==>
      (exchange.TransportFailure? || exchange.SecurityFailure? ||
       (exchange.Delivered? && ExtractResponse(exchange.reply, converter).Rejected?))
    ensures attempt.Usable? <==> exchange.Delivered? && ExtractResponse(exchange.reply, converter).Extracted?
    ensures attempt.Usable? ==> ExtractResponse(exchange.reply, converter) == Extracted(attempt.response)
  {
    match exchange
    case Delivered(reply) =>
      (match ExtractResponse(reply, converter)
       case Extracted(response) => Usable(response)
       case Rejected(_) => Unusable
       case ExtractFailed => Escaped)
    case TransportFailure => Unusable
    case SecurityFailure => Unusable
    case Unchecked => Escaped
  }

  /** The attempt made at one endpoint with the given outbound envelope. */
  function AttemptAt(client: SoapClient, envelope: Envelope, converter: XacmlConverter, endpoint: string): (attempt: Attempt)
    ensures var exchange := client(endpoint, envelope);
      attempt.Usable? <==> exchange.Delivered? && ExtractResponse(exchange.reply, converter).Extracted?
    ensures var exchange := client(endpoint, envelope);
      attempt.Escaped? <==>
        (exchange.Unchecked? || (exchange.Delivered? && ExtractResponse(exchange.reply, converter).ExtractFailed?))
  {
    TryEndpoint(client(endpoint, envelope), converter)
  }

  /**
    The index of the endpoint that ends the loop: the first whose attempt is not
    "move on", or the number of endpoints when every attempt says "move on".
  */
  function FirstDecisive(endpoints: seq<string>, client: SoapClient, envelope: Envelope, converter: XacmlConverter): (k: nat)
    ensures k <= |endpoints|
    ensures forall j :: 0 <= j < k ==> AttemptAt(client, envelope, converter, endpoints[j]).Unusable?
    ensures k < |endpoints| ==> !AttemptAt(client, envelope, converter, endpoints[k]).Unusable?
  {
    if |endpoints| == 0 then 0
    else if !AttemptAt(client, envelope, converter, endpoints[0]).Unusable? then 0
    else
      var k := FirstDecisive(endpoints[1..], client, envelope, converter);
      assert forall j :: 1 <= j < k + 1 ==> endpoints[j] == endpoints[1..][j - 1];
      1 + k
  }

  /** The outcome of sendRequestToPDP's loop over the endpoints. */
  function Resolve(endpoints: seq<string>, client: SoapClient, envelope: Envelope, converter: XacmlConverter): (outcome: Outcome)
    ensures outcome.Answered? ==>
      exists e :: e in endpoints && AttemptAt(client, envelope, converter, e) == Usable(outcome.response)
    ensures outcome.Aborted? ==>
      exists e :: e in endpoints && AttemptAt(client, envelope, converter, e).Escaped?
    ensures outcome.NoAnswer? ==>
      forall e :: e in endpoints ==> AttemptAt(client, envelope, converter, e).Unusable?
  {
    var k := FirstDecisive(endpoints, client, envelope, converter);
    if k == |endpoints| then
      assert forall e :: e in endpoints ==> exists j :: 0 <= j < |endpoints| && endpoints[j] == e;
      NoAnswer
    else
      var e := endpoints[k];
      assert e in endpoints;
      match AttemptAt(client, envelope, converter, e)
      case Usable(response) => Answered(response)
      case _ => Aborted
  }

  /** The endpoints the loop sends the envelope to, in the order it sends. */
  function Contacted(endpoints: seq<string>, client: SoapClient, envelope: Envelope, converter: XacmlConverter): (contacted: seq<string>)
    ensures contacted <= endpoints
    ensures forall j :: 0 <= j < |contacted| - 1 ==> AttemptAt(client, envelope, converter, contacted[j]).Unusable?
    ensures |contacted| < |endpoints| ==>
      |contacted| > 0 && !AttemptAt(client, envelope, converter, contacted[|contacted| - 1]).Unusable?
  {
    var k := FirstDecisive(endpoints, client, envelope, converter);
    if k == |endpoints| then endpoints else endpoints[..k + 1]
  }

  /**
    First success wins: the answer is the response of the first usable endpoint, every
    endpoint before it was unusable, and no endpoint after it is contacted.
  */
  lemma AnsweredByFirstUsable(endpoints: seq<string>, client: SoapClient, envelope: Envelope, converter: XacmlConverter,
                              k: nat, response: Response)
    requires k < |endpoints|
    requires forall j :: 0 <= j < k ==> AttemptAt(client, envelope, converter, endpoints[j]).Unusable?
    ensures AttemptAt(client, envelope, converter, endpoints[k]) == Usable(response) <==>
      (Resolve(endpoints, client, envelope, converter) == Answered(response) &&
       Contacted(endpoints, client, envelope, converter) == endpoints[..k + 1])
  {
  }

  /** No endpoint answers exactly when every endpoint moves the loop on; then all of them were contacted. */
  lemma NoAnswerWhenAllUnusable(endpoints: seq<string>, client: SoapClient, envelope: Envelope, converter: XacmlConverter)
    ensures Resolve(endpoints, client, envelope, converter) == NoAnswer <==>
      forall j :: 0 <= j < |endpoints| ==> AttemptAt(client, envelope, converter, endpoints[j]).Unusable?
    ensures Resolve(endpoints, client, envelope, converter) == NoAnswer ==>
      Contacted(endpoints, client, envelope, converter) == endpoints
  {
  }

  /**
    Trying a list of endpoints is trying its first part, then, only if that part gave no
    answer, its second part: endpoints are tried strictly in list order and an answer or
    an escaped exception abandons every later endpoint.
  */
  lemma {:induction false} ResolveAppend(first: seq<string>, second: seq<string>, client: SoapClient,
                                         envelope: Envelope, converter: XacmlConverter)
    ensures Resolve(first + second, client, envelope, converter) ==
      if Resolve(first, client, envelope, converter) == NoAnswer
      then Resolve(second, client, envelope, converter)
      else Resolve(first, client, envelope, converter)
    ensures Contacted(first + second, client, envelope, converter) ==
      if Resolve(first, client, envelope, converter) == NoAnswer
      then first + Contacted(second, client, envelope, converter)
      else Contacted(first, client, envelope, converter)
  {
    var all := first + second;
    var d1 := FirstDecisive(first, client, envelope, converter);
    var d := FirstDecisive(all, client, envelope, converter);
    if d1 < |first| {
      assert all[d1] == first[d1];
      assert d == d1;
      assert all[..d1 + 1] == first[..d1 + 1];
    } else {
      var d2 := FirstDecisive(second, client, envelope, converter);
      if d2 < |second| {
        assert all[|first| + d2] == second[d2];
      }
      assert d == |first| + d2;
      if d2 < |second| {
        assert all[d] == second[d2];
        assert all[..d + 1] == first + second[..d2 + 1];
      }
    }
  }
}
