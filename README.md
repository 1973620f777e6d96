# PocketProvider: routing and connectivity model

A Dafny model of the web3 provider `PocketProvider` of web3-pocket-provider
(src/index.js). The provider takes a JSON-RPC payload from web3 and turns it
into one HTTP POST to a Pocket node. Queries go to `{host}/queries` and
transactions to `{host}/transactions`. It also keeps one piece of mutable
state, the diagnostic `connected` flag.

The model covers:

- the constructor's defaults;
- the timeout and header rules for a new transport request;
- classifying a payload as QUERY or TRANSACTION;
- the two endpoint URLs;
- the query body and the stub transaction body;
- the query response handler and the timeout handler;
- the decision `send` takes: send the body, or report an error without sending.

Files and modules:

- `wrappers.dfy` (`Wrappers`): Option and Result.
- `rpc.dfy` (`Rpc`): payloads, JSON values, options, the request body, parse outcomes, error kinds, callback arguments, and JavaScript's `||` on strings.
- `connectivity.dfy` (`Connectivity`): the `connected` flag as a function of the history of exchanges. Its main result is that the flag is set exactly when the last exchange that wrote it was a completed query response.
- `routing.dfy` (`Routing`): the pure parts of src/index.js, with their properties.
- `provider.dfy` (`PocketProvider`): the `Provider` class (fields `host`, `timeout`, `headers`, `connected`, `networkId`) and a `Request` class. `Request` records what the provider does to a transport request: headers set in order, timeout, opened URL, installed handlers, and the body handed to send. The transport's behaviour enters as parameters: whether send throws, the readyState, the response text and its parse outcome. The provider also keeps a ghost history of exchanges. `Valid()` ties `connected` to that history.
- `as_written.dfy` (`AsWritten`): the source as written, where it departs from its evident intent (see "## Findings").

Behaviour of the code worth knowing:

- The code has no transaction pipeline. `_generateTransactionBody` returns null, so every transaction is reported as an invalid request body and is never sent.
- No transaction response handler is installed.
- `networkId` is stored as given, not converted to a string.
- A query response whose `result` is JSON `null` is a result, not an error. Only an unparseable body or an absent `result` is an error. When there is an error, no result is reported.
- The timeout error carries the request's own timeout. That is the effective timeout, because the `this` of the `ontimeout` handler is the request object.
- A request built by `_generateHttpRequest` never has timeout 1. So the `timeout !== 1` test in the query handler never blocks it (`Routing.HandlerActsOnBuiltRequest`).

## Model

| member | source | states |
|---|---|---|
| Rpc.OrElse | src/index.js:20-27 | JavaScript's or-with-default on strings gives the supplied value or the fallback. The result is the supplied value when that is a non-empty string, and it is empty only if the fallback is empty. |
| PocketProvider.Provider.constructor | src/index.js:20-27 | A new provider is not connected and has an empty history. `host` falls back to https://ethereum.pokt.network and `networkId` to "4" when absent or empty. `timeout` falls back to 0, and `headers` is the option as given. |
| Routing.EffectiveTimeout | src/index.js:38 | The request timeout is 0 exactly when the configured timeout is 0 or 1; otherwise it equals the configured timeout. It is never 1. |
| Routing.RequestHeaders | src/index.js:37-44 | `Content-Type: application/json` comes first, then each configured header in list order. With no configured headers, only the content type is set. |
| PocketProvider.Provider.GenerateHttpRequest | src/index.js:34-47 | The loop over the configured headers gives a fresh request with exactly the `RequestHeaders` sequence and the `EffectiveTimeout`, not yet opened, with no handlers and nothing sent. |
| Routing.GetRequestType | src/index.js:55-57 | TRANSACTION iff the method is eth_sendTransaction or eth_sendRawTransaction (the list at line 11); QUERY otherwise. |
| Routing.RequestTypeDependsOnlyOnMethod | src/index.js:55-57 | Classification is deterministic and depends on the method name alone. |
| Routing.QueryUrl | src/index.js:64-66 | The query URL is the host followed by `/queries`. |
| Routing.TransactionUrl | src/index.js:73-75 | The transaction URL is the host followed by `/transactions`. |
| Routing.EndpointUrlDeterminesType | src/index.js:64-75 | The two endpoints of a host differ, so the opened URL identifies the request type. |
| Routing.GenerateQueryBody | src/index.js:83-93 | The network is "ETH" and the subnetwork is `networkId`. The decoder is empty, and the query object has exactly the keys `rpc_method` and `rpc_params`. |
| Routing.QueryBodyRoundTrip | src/index.js:83-93 | Reading `rpc_method` and `rpc_params` back from the body gives the payload's method and params verbatim. |
| Routing.QueryBodyInjective | src/index.js:83-93 | Payloads with equal query bodies have equal method and params. |
| Routing.GenerateTransactionBody | src/index.js:101-104 | No transaction body is ever produced. |
| Routing.BodyFor | src/index.js:167-185 | A body exists iff the payload is a QUERY, and then it is the query body. |
| Routing.HandlerActsOnBuiltRequest | src/index.js:114 | On a request built by the provider, the query handler acts iff readyState is 4. |
| Routing.QueryOutcome | src/index.js:115-127 | The error is InvalidResponse(raw text) iff parsing fails or `result` is absent, and then there is no result. Otherwise the error is null and the result is the parsed `result`. |
| Routing.NullResultIsNoError | src/index.js:119-124 | A `result` of JSON null is reported as a result with no error. |
| Routing.Dispatch | src/index.js:193-207 | `send` either hands the body to the transport or reports exactly one error, never both. The body is sent iff the payload is a QUERY and send does not throw. Every TRANSACTION gets InvalidRequestBody(payload), and a throwing send gets InvalidConnection(host). |
| PocketProvider.Provider.ConfigureRequest | src/index.js:167-185 | The request is opened on the endpoint of the payload's type. A query gets the response handler with the caller's callback, and every request gets the timeout handler. The returned body is `BodyFor`. |
| PocketProvider.Provider.OnQueryResponse | src/index.js:111-113 | Installs the query response handler with this provider as its owner (the captured `_this`) and the given callback. |
| PocketProvider.Provider.OnTimeOut | src/index.js:150-153 | Installs the timeout handler with this provider as its owner and the caller's callback. |
| PocketProvider.Provider.Send | src/index.js:193-207 | The sent body, the immediate callback and the recorded exchange are those of `Dispatch`. `connected` becomes false only when a query's send throws and is otherwise unchanged. The fresh request carries the headers, timeout, URL and handlers above. `Valid()` is kept. |
| PocketProvider.Provider.HandleReadyStateChange | src/index.js:113-132 | The handler acts on the provider that installed it. Without a handler, or unless readyState is 4 and the timeout is not 1, nothing changes and no callback runs. Otherwise `connected` becomes true and the callback gets `QueryOutcome`; an undefined callback throws instead. |
| PocketProvider.Provider.HandleTimeout | src/index.js:153-156 | The handler acts on the provider that installed it. With the timeout handler installed, `connected` becomes false and the callback gets ConnectionTimeout(request timeout). Without it, nothing changes. |
| PocketProvider.QueryAnswered | src/index.js:167-207 | A query sent without error and answered with a `result` reaches the caller's callback with that result and no error. The provider is then connected, and the request went to `{host}/queries` with the query body. |
| PocketProvider.QueryTimedOut | src/index.js:150-157 | A sent query that times out gives the callback ConnectionTimeout(effective timeout), and the provider is then disconnected. |
| Connectivity.Setting | src/index.js:129-202 | A completed query response sets `connected` to true (line 129). A timeout (line 154) or a throwing send (line 201) sets it to false. Nothing else writes it. |
| Connectivity.ConnectedAfterSnoc | src/index.js:129-202 | One more exchange acts on the flag as it currently stands. |
| Connectivity.ConnectedAfterIsLastSetting | src/index.js:129-202 | After any history, the flag is the value written by the last exchange that wrote one, or its initial value. |
| Connectivity.LastSettingNone | src/index.js:129-202 | No value has been written iff no exchange of the history writes the flag. |
| Connectivity.LastSettingAt | src/index.js:129-202 | The last written value is the one written by the last exchange that writes the flag. |
| Connectivity.ConnectedIffLastAnswered | src/index.js:25-202 | Starting from `connected = false`, the flag is true iff some completed query response was followed by no timeout and no throwing send. |
| AsWritten.GetRequestTypeAsWritten | src/index.js:56 | As written, classification throws ReferenceError when there is no global `method`. Otherwise it classifies that global's value, not the payload. |
| AsWritten.AsWrittenClassificationIgnoresPayload | src/index.js:55-57 | As written, every payload is classified alike. |
| AsWritten.TransactionMisclassifiedAsWritten | src/index.js:56 | A TRANSACTION payload is never classified as one when no global `method` exists (ReferenceError) or when that global holds anything but a transaction method (QUERY). Only a global that happens to hold a transaction method gives TRANSACTION. |
| AsWritten.RawTransactionThrowsAsWritten | src/index.js:56 | For example, an eth_sendRawTransaction payload with no global `method` throws ReferenceError. |
| AsWritten.QueryObjectAsWritten | src/index.js:87-90 | As written, the query object is a syntax error and is never built. |
| AsWritten.QueryObjectKeysDiffer | src/index.js:87-90 | The corrected query object has the keys `rpc_method` and `rpc_params`, which the written one can never have. |
| AsWritten.QueryResultLostAsWritten | src/index.js:173-174 | With the handler installed without a callback, the send and then the answer are recorded, and the provider ends connected. The handler calls an undefined callback, so the result is lost. |

## Left out

- The XHR2 transport (src/index.js:8, 35, 173, 199). It is left out because it is external code. Only what the provider does to a request is recorded, and every call is recorded as succeeding. The provider sets headers (src/index.js:37, 42) before it opens the request (src/index.js:173, 177). Under the XMLHttpRequest standard, `setRequestHeader` on an unopened request throws InvalidStateError, and `open` discards headers set earlier. The model does not capture this; it is plausibly a further defect, unconfirmed because the transport's code is not part of this model. Whether send throws, the readyState, the response text and the parse outcome are parameters. Nothing models how the transport merges repeated header names, when it fires its events, or whether it fires both handlers for one request.
- `JSON.parse` and `JSON.stringify`. Parsing is the abstract `ParseOutcome`, and the body is handed to the transport unserialised. A JSON `null` body makes `.result` throw, which the model counts as unparseable. JavaScript's `null` and `undefined` results are both "no result".
- The web3-core-helpers error objects (src/index.js:6) and the message texts of src/errors.js. Errors are kinds carrying their datum. `InvalidTransactionSigner` is not used by this code.
- `_onTransactionResponse` (src/index.js:140-142) is empty. The model installs no ready-state handler for transactions.
- The signer check, nonce query, signing and transaction response parsing are not in this revision of the code, so there is nothing to model.
- Asynchrony and concurrent calls. Each handler firing is a separate method call. The only state shared between calls is `connected`, and for it the last exchange that writes it wins.
- JavaScript numbers are modelled as integers, so a NaN timeout is not modelled. The payload's method and `networkId` are strings in the model, so non-string and undefined values are not modelled.
- The `requestBody` variable in `send` (src/index.js:194-195) is an implicit global, because the previous line ends with `;`. It is assigned and read within one synchronous call, so the model treats it as a local.
- test/index.js is an integration test against a live node, so there is no logic in it to model. It passes the signer where the constructor expects `options`.

## Findings

| source | as written | input that shows it | evidently intended | confidence | as-written member | corrected member |
|---|---|---|---|---|---|---|
| src/index.js:56 | tests the free variable `method` | any payload, e.g. method eth_sendRawTransaction, with no global `method`: ReferenceError | test `payload.method` | high; not executed | AsWritten.GetRequestTypeAsWritten | Routing.GetRequestType |
| src/index.js:88-89 | `rpc_method = payload.method` and `rpc_params = payload.params` inside an object literal | the file itself: an object literal cannot hold `name = value`, so the module does not parse | keys `rpc_method` and `rpc_params` holding the payload's method and params | high; not executed | AsWritten.QueryObjectAsWritten | Routing.GenerateQueryBody |
| src/index.js:174 | `_onQueryResponse(httpRequest)` installs the handler without `callback` | any query answered with readyState 4: the handler sets `connected` and then calls `undefined` | pass the caller's `callback` | high; not executed | AsWritten.QueryResultLostAsWritten | PocketProvider.QueryAnswered |
