/**
 * The provider's source as written, where it departs from what it evidently
 * means. The rest of the model uses the corrected definitions in Routing and
 * PocketProvider.
 */
module AsWritten {
  import opened Wrappers
  import opened Rpc
  import opened Routing
  import opened Connectivity
  import opened PocketProvider

  /** JavaScript exceptions raised by the code as written. */
  datatype Exception = ReferenceError(name: string) | SyntaxError(reason: string)

  /**
   * Classification as written: it tests a free variable `method` instead of
   * the payload's method. Without a global of that name the lookup throws;
   * with one, its value decides, whatever the payload says.
   */
  function GetRequestTypeAsWritten(payload: Payload, globalMethod: Option<Json>): (r: Result<RequestType, Exception>)
    ensures globalMethod.None? ==> r == Failure(ReferenceError("method"))
    ensures globalMethod.Some? ==>
      && r.Success?
      && (r.value == Transaction <==> globalMethod.value.JString? && globalMethod.value.s in TransactionMethods)
  {
    match globalMethod
    case None => Failure(ReferenceError("method"))
    case Some(m) => Success(if m.JString? && m.s in TransactionMethods then Transaction else Query)
  }

  /** As written, two payloads are always classified alike. */
  lemma AsWrittenClassificationIgnoresPayload(p1: Payload, p2: Payload, globalMethod: Option<Json>)
    ensures GetRequestTypeAsWritten(p1, globalMethod) == GetRequestTypeAsWritten(p2, globalMethod)
  {
  }

  /**
   * A transaction payload is not classified as one by the code as written
   * unless a global `method` happens to hold a transaction method: without
   * the global it throws, and with any other value it is a query.
   */
  lemma TransactionMisclassifiedAsWritten(payload: Payload, globalMethod: Option<Json>)
    requires GetRequestType(payload) == Transaction
    requires globalMethod.Some? ==> !(globalMethod.value.JString? && globalMethod.value.s in TransactionMethods)
    ensures GetRequestTypeAsWritten(payload, globalMethod) != Success(GetRequestType(payload))
    ensures globalMethod.None? ==> GetRequestTypeAsWritten(payload, globalMethod) == Failure(ReferenceError("method"))
    ensures globalMethod.Some? ==> GetRequestTypeAsWritten(payload, globalMethod) == Success(Query)
  {
  }

  /** For example, a raw transaction with no global `method` throws. */
  lemma RawTransactionThrowsAsWritten()
    ensures var p := Payload("eth_sendRawTransaction", [JString("0xdeadbeef")], JNumber(1));
      && GetRequestType(p) == Transaction
      && GetRequestTypeAsWritten(p, None) == Failure(ReferenceError("method"))
  {
  }

  /**
   * The `query` object as written: `name = value` inside an object literal is
   * not a property, it is an early syntax error, so no query object (and no
   * provider at all) ever comes into being.
   */
  function QueryObjectAsWritten(payload: Payload): (r: Result<map<string, Json>, Exception>)
    ensures r.Failure? && r.error.SyntaxError?
  {
    Failure(SyntaxError("invalid shorthand property initializer"))
  }

  /** The corrected query object holds both keys the written one cannot. */
  lemma QueryObjectKeysDiffer(networkId: string, payload: Payload)
    ensures QueryObjectAsWritten(payload).Failure?
    ensures GenerateQueryBody(networkId, payload).query.Keys == {RpcMethodKey, RpcParamsKey}
  {
  }

  /**
   * Sending a query with the response handler installed as written, without
   * the callback: when the result arrives the provider is marked connected,
   * but the handler calls an undefined callback, and the caller never gets
   * the result.
   */
  method QueryResultLostAsWritten(p: Provider, payload: Payload, callback: Callback, responseText: string, result: Json)
    returns (inv: Invocation)
    requires p.Valid() && GetRequestType(payload) == Query
    modifies p`connected, p`history
    ensures p.Valid() && p.connected
    ensures p.history == old(p.history) + [Dispatched, Answered]
    ensures inv == CallbackNotAFunction
  {
    var req := p.GenerateHttpRequest();
    var body := GenerateQueryBody(p.networkId, payload);
    req.Open(QueryUrl(p.host));
    p.OnQueryResponse(req, None);
    p.OnTimeOut(req, callback);
    req.Send(body);
    ConnectedAfterSnoc(false, p.history, Dispatched);
    p.history := p.history + [Dispatched];
    inv := p.HandleReadyStateChange(req, Done, responseText, Parsed(Some(result)));
  }
}
