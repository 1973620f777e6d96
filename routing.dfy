/**
 * The pure parts of the provider: the timeout and header rules applied to a
 * new request, classification of a payload, the two endpoint URLs, the
 * request bodies, the reading of a query response and the decision `send`
 * takes once the body is known.
 */
module Routing {
  import opened Wrappers
  import opened Rpc
  import opened Connectivity

  const TransactionMethods: seq<string> := ["eth_sendTransaction", "eth_sendRawTransaction"]
  const EthNetwork := "ETH"
  const RpcMethodKey := "rpc_method"
  const RpcParamsKey := "rpc_params"
  /** The transport's readyState once a response is complete. */
  const Done := 4

  /**
   * The timeout given to a new request: a configured timeout of 0 or 1
   * disables it, any other value is kept.
   */
  function EffectiveTimeout(configured: int): (t: int)
    ensures t == 0 <==> configured == 0 || configured == 1
    ensures t != 0 ==> t == configured
    ensures t != 1
  {
    if configured != 0 && configured != 1 then configured else 0
  }

  /**
   * The headers a new request receives, in the order they are set: the JSON
   * content type first, then every configured header in list order.
   */
  function RequestHeaders(configured: Option<seq<Header>>): (r: seq<Header>)
    ensures |r| == 1 + |configured.GetOr([])|
    ensures r[0] == ContentType
    ensures forall i :: 0 <= i < |configured.GetOr([])| ==> r[i + 1] == configured.GetOr([])[i]
  {
    [ContentType] + configured.GetOr([])
  }

  /** A payload is a transaction exactly when its method submits one. */
  function GetRequestType(payload: Payload): (t: RequestType)
    ensures t == Transaction <==>
      payload.methodName == "eth_sendTransaction" || payload.methodName == "eth_sendRawTransaction"
  {
    if payload.methodName in TransactionMethods then Transaction else Query
  }

  /** Classification looks at the method name and nothing else. */
  lemma RequestTypeDependsOnlyOnMethod(p1: Payload, p2: Payload)
    requires p1.methodName == p2.methodName
    ensures GetRequestType(p1) == GetRequestType(p2)
  {
  }

  function QueryUrl(host: string): (u: string)
    ensures |u| > |host| && u[..|host|] == host && u[|host|..] == "/queries"
  {
    host + "/queries"
  }

  function TransactionUrl(host: string): (u: string)
    ensures |u| > |host| && u[..|host|] == host && u[|host|..] == "/transactions"
  {
    host + "/transactions"
  }

  /** The URL a payload of the given type is posted to. */
  function EndpointUrl(host: string, t: RequestType): string
  {
    match t
    case Query => QueryUrl(host)
    case Transaction => TransactionUrl(host)
  }

  /** The two endpoints of one host never coincide, so the URL tells the request type. */
  lemma EndpointUrlDeterminesType(host: string, t1: RequestType, t2: RequestType)
    requires EndpointUrl(host, t1) == EndpointUrl(host, t2)
    ensures t1 == t2
  {
  }

  /**
   * The query body: network "ETH", the configured network id as subnetwork,
   * the payload's method and params under `rpc_method` and `rpc_params`, and
   * an empty decoder.
   */
  function GenerateQueryBody(networkId: string, payload: Payload): (b: RequestBody)
    ensures b.network == EthNetwork && b.subnetwork == networkId && b.decoder == map[]
    ensures b.query.Keys == {RpcMethodKey, RpcParamsKey}
  {
    QueryBody(EthNetwork, networkId,
      map[RpcMethodKey := JString(payload.methodName), RpcParamsKey := JArray(payload.params)],
      map[])
  }

  /** What a reader of a query body finds under `rpc_method` and `rpc_params`. */
  function QueryOf(b: RequestBody): Option<(string, seq<Json>)>
  {
    if RpcMethodKey in b.query && RpcParamsKey in b.query
       && b.query[RpcMethodKey].JString? && b.query[RpcParamsKey].JArray?
    then Some((b.query[RpcMethodKey].s, b.query[RpcParamsKey].items))
    else None
  }

  /** The query body carries the payload's method and params verbatim. */
  lemma QueryBodyRoundTrip(networkId: string, payload: Payload)
    ensures QueryOf(GenerateQueryBody(networkId, payload)) == Some((payload.methodName, payload.params))
  {
  }

  /** Two payloads with the same query body agree on method and params. */
  lemma {:induction false} QueryBodyInjective(networkId: string, p1: Payload, p2: Payload)
    requires GenerateQueryBody(networkId, p1) == GenerateQueryBody(networkId, p2)
    ensures p1.methodName == p2.methodName && p1.params == p2.params
  {
    QueryBodyRoundTrip(networkId, p1);
    QueryBodyRoundTrip(networkId, p2);
  }

  /** The transaction body is not implemented in this revision: there never is one. */
  function GenerateTransactionBody(payload: Payload): (b: Option<RequestBody>)
    ensures b.None?
  {
    None
  }

  /** The body built for a payload, according to its request type. */
  function BodyFor(networkId: string, payload: Payload): (b: Option<RequestBody>)
    ensures b.Some? <==> GetRequestType(payload) == Query
    ensures b.Some? ==> b.value == GenerateQueryBody(networkId, payload)
  {
    match GetRequestType(payload)
    case Query => Some(GenerateQueryBody(networkId, payload))
    case Transaction => GenerateTransactionBody(payload)
  }

  /** The query response handler only acts on a completed request whose timeout is not 1. */
  predicate HandlerActs(readyState: int, requestTimeout: int)
  {
    readyState == Done && requestTimeout != 1
  }

  /**
   * A request built by the provider never has timeout 1, so its query
   * handler acts exactly when the request is complete.
   */
  lemma HandlerActsOnBuiltRequest(readyState: int, configured: int)
    ensures HandlerActs(readyState, EffectiveTimeout(configured)) <==> readyState == Done
  {
  }

  /**
   * The callback arguments for a completed query: an invalid-response error
   * carrying the raw text when the text does not parse or has no `result`,
   * and otherwise no error and the result.
   */
  function QueryOutcome(responseText: string, parsed: ParseOutcome): (r: CallbackArgs)
    ensures r.error.Some? <==> parsed.Unparseable? || parsed.result.None?
    ensures r.error.Some? ==> r.error.value == InvalidResponse(responseText) && r.result.None?
    ensures r.error.None? ==> r.result.Some? && r.result == parsed.result
  {
    match parsed
    case Unparseable => Args(Some(InvalidResponse(responseText)), None)
    case Parsed(None) => Args(Some(InvalidResponse(responseText)), None)
    case Parsed(Some(v)) => Args(None, Some(v))
  }

  /** A `result` that is JSON null is a result, not a missing one. */
  lemma NullResultIsNoError(responseText: string)
    ensures QueryOutcome(responseText, Parsed(Some(JNull))) == Args(None, Some(JNull))
  {
  }

  /**
   * What `send` does once the body is known: the body it hands to the
   * transport, the callback arguments it reports at once, and the exchange
   * it records.
   */
  datatype Decision = Decision(sent: Option<RequestBody>, reply: Option<CallbackArgs>, exchange: Exchange)

  /**
   * `send` either hands the query body to the transport or reports one error
   * without sending: every transaction is an invalid request body, and a
   * transport that throws is an invalid connection to the host.
   */
  function Dispatch(host: string, networkId: string, payload: Payload, sendThrows: bool): (d: Decision)
    ensures d.sent.Some? != d.reply.Some?
    ensures d.sent.Some? <==> GetRequestType(payload) == Query && !sendThrows
    ensures d.sent.Some? ==> d.sent.value == GenerateQueryBody(networkId, payload) && d.exchange == Dispatched
    ensures GetRequestType(payload) == Transaction ==>
      d.reply == Some(Args(Some(InvalidRequestBody(payload)), None)) && d.exchange == Rejected
    ensures GetRequestType(payload) == Query && sendThrows ==>
      d.reply == Some(Args(Some(InvalidConnection(host)), None)) && d.exchange == Unreachable
  {
    var body := BodyFor(networkId, payload);
    if body.None? then Decision(None, Some(Args(Some(InvalidRequestBody(payload)), None)), Rejected)
    else if sendThrows then Decision(None, Some(Args(Some(InvalidConnection(host)), None)), Unreachable)
    else Decision(body, None, Dispatched)
  }
}
