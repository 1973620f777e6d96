/**
 * The provider object and the transport request it configures. Each
 * transport event (a response arriving, a timeout, send throwing) is a
 * parameter or a separate call; the transport itself is not modelled.
 */
module PocketProvider {
  import opened Wrappers
  import opened Rpc
  import opened Connectivity
  import opened Routing

  /** The caller's callback, known only by its identity. */
  datatype Callback = Callback(id: nat)

  /**
   * The request's ready-state handler: none, or the query response handler
   * with the provider that installed it and the callback it will call.
   */
  datatype Handler = Unset | QueryResponse(owner: Provider, callback: Option<Callback>)

  /** The timeout handler, with the provider that installed it and the caller's callback. */
  datatype TimeoutHandler = TimeoutHandler(owner: Provider, callback: Callback)

  /** What firing a handler does to the callback. */
  datatype Invocation =
    | Silent                                   // no callback is called
    | Invoked(callback: Callback, args: CallbackArgs)
    | CallbackNotAFunction                     // the handler calls an undefined callback and throws

  /**
   * A transport request as the provider leaves it: the headers set on it in
   * order, its timeout, the URL it was opened on, the installed handlers and
   * the body handed to its send.
   */
  class Request {
    var headers: seq<Header>
    var timeout: int
    var url: Option<string>
    var onReadyStateChange: Handler
    var onTimeout: Option<TimeoutHandler>
    var sent: Option<RequestBody>

    constructor ()
      ensures headers == [] && timeout == 0 && url == None
      ensures onReadyStateChange == Unset && onTimeout == None && sent == None
    {
      headers, timeout, url := [], 0, None;
      onReadyStateChange, onTimeout, sent := Unset, None, None;
    }

    method SetRequestHeader(name: string, value: string)
      modifies this`headers
      ensures headers == old(headers) + [Header(name, value)]
    {
      headers := headers + [Header(name, value)];
    }

    method Open(target: string)
      modifies this`url
      ensures url == Some(target)
    {
      url := Some(target);
    }

    method Send(body: RequestBody)
      modifies this`sent
      ensures sent == Some(body)
    {
      sent := Some(body);
    }
  }

  class Provider {
    var host: string
    var timeout: int
    var headers: Option<seq<Header>>
    var connected: bool
    var networkId: string
    /** Every exchange so far, oldest first. */
    ghost var history: seq<Exchange>

    /** `connected` is what the exchanges so far have made of it, starting from false. */
    ghost predicate Valid()
      reads this
    {
      connected == ConnectedAfter(false, history)
    }

    /** A new provider: absent or falsy settings take their defaults, and it is not connected. */
    constructor (host: Option<string>, options: Option<Options>)
      ensures Valid() && history == [] && !connected
      ensures this.host == OrElse(host, DefaultHost)
      ensures timeout == options.GetOr(NoOptions).timeout.GetOr(0)
      ensures headers == options.GetOr(NoOptions).headers
      ensures networkId == OrElse(options.GetOr(NoOptions).networkId, DefaultNetworkId)
    {
      var o := options.GetOr(NoOptions);
      this.host := OrElse(host, DefaultHost);
      timeout := o.timeout.GetOr(0);
      headers := o.headers;
      connected := false;
      networkId := OrElse(o.networkId, DefaultNetworkId);
      history := [];
    }

    /** A new request with the content type, the effective timeout and the configured headers, in order. */
    method GenerateHttpRequest() returns (req: Request)
      ensures fresh(req)
      ensures req.headers == RequestHeaders(headers)
      ensures req.timeout == EffectiveTimeout(timeout)
      ensures req.url == None && req.onReadyStateChange == Unset && req.onTimeout == None && req.sent == None
    {
      req := new Request();
      req.SetRequestHeader(ContentType.name, ContentType.value);
      req.timeout := EffectiveTimeout(timeout);
      if headers.Some? {
        var configured := headers.value;
        for i := 0 to |configured|
          invariant req.headers == [ContentType] + configured[..i]
          invariant req.timeout == EffectiveTimeout(timeout)
          invariant req.url == None && req.onReadyStateChange == Unset
          invariant req.onTimeout == None && req.sent == None
        {
          req.SetRequestHeader(configured[i].name, configured[i].value);
          assert configured[..i + 1] == configured[..i] + [configured[i]];
        }
        assert configured[..|configured|] == configured;
      }
    }

    /** Installs the query response handler, with the callback it will call. */
    method OnQueryResponse(req: Request, callback: Option<Callback>)
      modifies req`onReadyStateChange
      ensures req.onReadyStateChange == QueryResponse(this, callback)
    {
      req.onReadyStateChange := QueryResponse(this, callback);
    }

    /** Installs the timeout handler. */
    method OnTimeOut(req: Request, callback: Callback)
      modifies req`onTimeout
      ensures req.onTimeout == Some(TimeoutHandler(this, callback))
    {
      req.onTimeout := Some(TimeoutHandler(this, callback));
    }

    /**
     * Opens the request on the endpoint of the payload's type, installs the
     * handlers and returns the body to send.
     */
    method ConfigureRequest(req: Request, payload: Payload, callback: Callback) returns (body: Option<RequestBody>)
      modifies req`url, req`onReadyStateChange, req`onTimeout
      ensures body == BodyFor(networkId, payload)
      ensures req.url == Some(EndpointUrl(host, GetRequestType(payload)))
      ensures req.onReadyStateChange ==
        if GetRequestType(payload) == Query then QueryResponse(this, Some(callback)) else old(req.onReadyStateChange)
      ensures req.onTimeout == Some(TimeoutHandler(this, callback))
    {
      var requestType := GetRequestType(payload);
      body := None;
      if requestType == Query {
        body := Some(GenerateQueryBody(networkId, payload));
        req.Open(QueryUrl(host));
        OnQueryResponse(req, Some(callback));
      } else {
        body := GenerateTransactionBody(payload);
        req.Open(TransactionUrl(host));
      }
      OnTimeOut(req, callback);
    }

    /**
     * Builds and configures a request for `payload`, then sends its body or
     * reports the error at once, as `Dispatch` decides; `sendThrows` is
     * whether the transport's send throws.
     */
    method Send(payload: Payload, callback: Callback, sendThrows: bool) returns (req: Request, inv: Invocation)
      requires Valid()
      modifies this`connected, this`history
      ensures Valid() && fresh(req)
      ensures var d := Dispatch(host, networkId, payload, sendThrows);
        && req.sent == d.sent
        && inv == (if d.reply.Some? then Invoked(callback, d.reply.value) else Silent)
        && history == old(history) + [d.exchange]
      ensures connected == if GetRequestType(payload) == Query && sendThrows then false else old(connected)
      ensures req.headers == RequestHeaders(headers) && req.timeout == EffectiveTimeout(timeout)
      ensures req.url == Some(EndpointUrl(host, GetRequestType(payload)))
      ensures req.onReadyStateChange == if GetRequestType(payload) == Query then QueryResponse(this, Some(callback)) else Unset
      ensures req.onTimeout == Some(TimeoutHandler(this, callback))
    {
      req := GenerateHttpRequest();
      var requestBody := ConfigureRequest(req, payload, callback);
      var e;
      if requestBody.Some? {
        if sendThrows {
          connected := false;
          e := Unreachable;
          inv := Invoked(callback, Args(Some(InvalidConnection(host)), None));
        } else {
          req.Send(requestBody.value);
          e := Dispatched;
          inv := Silent;
        }
      } else {
        e := Rejected;
        inv := Invoked(callback, Args(Some(InvalidRequestBody(payload)), None));
      }
      ConnectedAfterSnoc(false, history, e);
      history := history + [e];
    }

    /**
     * The request's ready state changed. An installed query handler acts on a
     * completed request whose timeout is not 1: it marks the provider
     * connected and calls its callback with the reading of the response.
     * The handler acts on the provider that installed it.
     */
    method HandleReadyStateChange(req: Request, readyState: int, responseText: string, parsed: ParseOutcome)
      returns (inv: Invocation)
      requires Valid()
      requires req.onReadyStateChange.QueryResponse? ==> req.onReadyStateChange.owner == this
      modifies this`connected, this`history
      ensures Valid()
      ensures req.onReadyStateChange.Unset? || !HandlerActs(readyState, req.timeout) ==>
        inv == Silent && connected == old(connected) && history == old(history)
      ensures req.onReadyStateChange.QueryResponse? && HandlerActs(readyState, req.timeout) ==>
        && connected
        && history == old(history) + [Answered]
        && inv == match req.onReadyStateChange.callback
                  case Some(cb) => Invoked(cb, QueryOutcome(responseText, parsed))
                  case None => CallbackNotAFunction
    {
      inv := Silent;
      match req.onReadyStateChange
      case Unset =>
      case QueryResponse(_, cb) =>
        if HandlerActs(readyState, req.timeout) {
          var args := QueryOutcome(responseText, parsed);
          ConnectedAfterSnoc(false, history, Answered);
          connected := true;
          history := history + [Answered];
          inv := if cb.Some? then Invoked(cb.value, args) else CallbackNotAFunction;
        }
    }

    /**
     * The request timed out: the provider that installed the timeout handler
     * is disconnected and the callback gets a timeout error.
     */
    method HandleTimeout(req: Request) returns (inv: Invocation)
      requires Valid()
      requires req.onTimeout.Some? ==> req.onTimeout.value.owner == this
      modifies this`connected, this`history
      ensures Valid()
      ensures req.onTimeout.None? ==> inv == Silent && connected == old(connected) && history == old(history)
      ensures req.onTimeout.Some? ==>
        && !connected
        && history == old(history) + [TimedOut]
        && inv == Invoked(req.onTimeout.value.callback, Args(Some(ConnectionTimeout(req.timeout)), None))
    {
      inv := Silent;
      if req.onTimeout.Some? {
        ConnectedAfterSnoc(false, history, TimedOut);
        connected := false;
        history := history + [TimedOut];
        inv := Invoked(req.onTimeout.value.callback, Args(Some(ConnectionTimeout(req.timeout)), None));
      }
    }
  }

  /**
   * A query sent without error and answered with a `result` reaches its
   * callback with that result, and the provider is then connected.
   */
  method QueryAnswered(p: Provider, payload: Payload, callback: Callback, responseText: string, result: Json)
    returns (req: Request, inv: Invocation)
    requires p.Valid() && GetRequestType(payload) == Query
    modifies p`connected, p`history
    ensures p.Valid() && p.connected
    ensures req.url == Some(p.host + "/queries")
    ensures req.sent == Some(GenerateQueryBody(p.networkId, payload))
    ensures inv == Invoked(callback, Args(None, Some(result)))
  {
    var first;
    req, first := p.Send(payload, callback, false);
    inv := p.HandleReadyStateChange(req, Done, responseText, Parsed(Some(result)));
  }

  /**
   * A sent query that times out reports a timeout of the request's own
   * timeout, and the provider is then disconnected.
   */
  method QueryTimedOut(p: Provider, payload: Payload, callback: Callback) returns (req: Request, inv: Invocation)
    requires p.Valid() && GetRequestType(payload) == Query
    modifies p`connected, p`history
    ensures p.Valid() && !p.connected
    ensures inv == Invoked(callback, Args(Some(ConnectionTimeout(EffectiveTimeout(p.timeout))), None))
  {
    var first;
    req, first := p.Send(payload, callback, false);
    inv := p.HandleTimeout(req);
  }
}
