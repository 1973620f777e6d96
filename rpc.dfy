/**
 * The values the provider handles: JSON-RPC payloads, configuration, the
 * request body sent to a Pocket node, the outcome of parsing a response and
 * the errors handed to the caller's callback.
 */
module Rpc {
  import opened Wrappers

  /** A JSON value. Numbers are modelled as integers. */
  datatype Json =
    | JNull
    | JBool(b: bool)
    | JNumber(n: int)
    | JString(s: string)
    | JArray(items: seq<Json>)
    | JObject(fields: map<string, Json>)

  /** A JSON-RPC payload as web3 hands it to `send`. */
  datatype Payload = Payload(methodName: string, params: seq<Json>, id: Json)

  /** One entry of the configured `headers` list. */
  datatype Header = Header(name: string, value: string)

  /** The constructor's `options` object; every field may be absent. */
  datatype Options = Options(timeout: Option<int>, headers: Option<seq<Header>>, networkId: Option<string>)

  const NoOptions := Options(None, None, None)

  const DefaultHost := "https://ethereum.pokt.network"
  const DefaultNetworkId := "4"
  const ContentType := Header("Content-Type", "application/json")

  /** The two ways a payload is routed. */
  datatype RequestType = Query | Transaction

  /**
   * The JSON body posted to a Pocket node. Only the query form exists in this
   * revision: the transaction body is never built.
   */
  datatype RequestBody = QueryBody(network: string, subnetwork: string, query: map<string, Json>, decoder: map<string, Json>)

  /**
   * What `JSON.parse(responseText).result` gives: it throws (the text is not
   * JSON, or it parses to null), or it yields the `result` member, which may
   * be undefined (None).
   */
  datatype ParseOutcome = Unparseable | Parsed(result: Option<Json>)

  /** The error kinds the provider reports, each with the datum it carries. */
  datatype Error =
    | InvalidRequestBody(payload: Payload)
    | InvalidResponse(response: string)
    | ConnectionTimeout(ms: int)
    | InvalidConnection(host: string)

  /** The arguments of one callback call; an absent argument is None. */
  datatype CallbackArgs = Args(error: Option<Error>, result: Option<Json>)

  /**
   * JavaScript's `v || fallback` on a possibly absent string: the empty
   * string is falsy, so it too gives way to the fallback.
   */
  function OrElse(v: Option<string>, fallback: string): (r: string)
    ensures r == fallback || Some(r) == v
    ensures v.Some? && v.value != "" ==> r == v.value
    ensures r == "" ==> fallback == ""
  {
    if v.Some? && v.value != "" then v.value else fallback
  }
}
