# mm-rpc-test-proxy: a verified model of the `/rpc` gateway

`proxy-server.js` is an Express gateway. It sits in front of an Ethereum
JSON-RPC node. A logging middleware sees every request first. For every
request posted to `/rpc` that gets past it, the gateway does one of three
things:

- answers `eth_chainId` itself, with chain id 9999 (`"0x270f"`);
- refuses `eth_getTransactionReceipt` with HTTP 403 and a JSON-RPC error
  (code -32000), so that a wallet polling for a receipt keeps retrying;
- hands everything else to `http-proxy-middleware`, which strips the `/rpc`
  prefix, re-serialises the parsed body onto the upstream request and turns a
  transport failure into an HTTP 500 reply.

The logging middleware lets a request through unless one of its template
literals throws. That happens when the body's `method`, or the first param it
logs for `eth_getBalance` and `eth_getTransactionReceipt`, is an object with
its own `toString` key (or an array holding one). Express's default error
handler then answers with status 500, and the `/rpc` handlers never run.

This project models that core in Dafny and proves what it promises:

- `json.dfy` (module `Json`): parsed JSON values, JavaScript truthiness and
  property access, and the dropping of `undefined` properties on
  serialisation.
- `hex.dfy` (module `Hex`): `n.toString(16)` with a `0x` prefix, its decoder,
  and the round trips in both directions.
- `http.dfy` (module `Http`): the two mutable objects the handlers work on.
  `ServerResponse` is Express's `res`, which gets a status and a JSON body.
  `OutgoingRequest` is the upstream `proxyReq`, whose header names Node stores
  lower-cased and which collects the body chunks written to it.
- `logging.dfy` (module `Logging`): JavaScript's string conversion of parsed
  values, and the logging middleware of lines 11-30 reduced to whether it
  calls `next()`.
- `classifier.dfy` (module `Classifier`): the decision of lines 33-58 as a
  total function `Classify`, and the middleware `HandleRpc` as Express runs it:
  it sends and returns on a match, and otherwise calls `next()`.
- `forwarder.dfy` (module `Forwarder`): the path rewrite, `onProxyReq` as a
  method on `OutgoingRequest`, and `onError` as a method on `ServerResponse`.
- `gateway.dfy` (module `Gateway`): the order that `app.use` gives the three
  middlewares. The upstream node is a function parameter, so the model can
  state that an answered request never depends on it.

Facts about `proxy-server.js` that the model keeps:

- Only `eth_chainId` and `eth_getTransactionReceipt` are answered locally.
  `eth_getBalance` appears only in the logging at lines 19-20 and 77-78.
- The chain id is the hard-coded literal `'0x270f'`, not a setting.
  `Classifier.ChainIdLiteral` proves that this literal is the hex of 9999 and
  of no other number.
- The transport-error reply is `{error: "Proxy error", message}` with status
  500. It has no `jsonrpc`, no `id` and no error code.
- A request without an `id` gets a reply without an `id` key. The code echoes
  `req.body.id`, and `res.json` drops a property whose value is `undefined`.

## Model

| member | source | states |
|---|---|---|
| `Classifier.Classify` | proxy-server.js:33-58 | The outcome is a synthesised reply exactly when the body is present and truthy and its `method` is `eth_chainId` or `eth_getTransactionReceipt`; every other body, including a missing body or a missing method, gets PassThrough. For `eth_chainId` the reply has status 200 and is a JSON-RPC object with only `jsonrpc: "2.0"`, the request's own `id` (absent if the request had none) and `result: "0x270f"`. For `eth_getTransactionReceipt` it has status 403 and a JSON-RPC error object with `jsonrpc: "2.0"`, the request's `id` and an `error` with exactly code -32000 and message "Forbidden: eth_getTransactionReceipt not allowed", whatever the params. |
| `Classifier.HandleRpc` | proxy-server.js:33-58 | The middleware calls `next()` exactly when `Classify` passes the request through, and then leaves the response untouched. Otherwise it has already sent `Classify`'s reply with `Classify`'s status and returns without calling `next()`. |
| `Classifier.ClassifyReadsOnlyMethodAndId` | proxy-server.js:35-50 | Two bodies that agree on their `method` and `id` properties get identical outcomes, however their `params` or other fields differ. |
| `Classifier.ChainIdLiteral` | proxy-server.js:40 | The literal `'0x270f'` is `0x` plus the lower-case hex of 9999, and no other natural number has that hex text. |
| `Hex.Digits` | proxy-server.js:40 | The hex text of any natural number is canonical: at least one digit, only `0-9a-f`, and no leading zero unless the number is 0. |
| `Hex.ValueOfDigits` | proxy-server.js:40 | Decoding the hex text of `n` gives `n` back. |
| `Hex.DigitsOfValue` | proxy-server.js:40 | Every canonical hex string is the hex text of its own value, so encoding is a bijection onto canonical strings. |
| `Hex.ToHexInjective` | proxy-server.js:40 | Distinct numbers have distinct `0x` hex texts. |
| `Forwarder.RewritePath` | proxy-server.js:64 | A path that starts with `/rpc` becomes the rest of the path after that prefix (`/rpc` + result = path). Any other path is returned unchanged. |
| `Forwarder.RewriteUndoesMount` | proxy-server.js:64 | Rewriting `/rpc` + p gives p back for every p, including a p that itself starts with `/rpc`, so exactly one prefix is removed. |
| `Forwarder.HeaderNames` | proxy-server.js:68-69 | The names `Content-Type` and `Content-Length` passed to `setHeader` are stored under `content-type` and `content-length`, so `SetHeader` replaces any copies of those headers taken from the client's request. |
| `Forwarder.Payload` | proxy-server.js:66-67 | Something is written upstream exactly when `req.body` is present and truthy, and then it is the serialisation of that body. |
| `Forwarder.EmptyBodyIsWritten` | proxy-server.js:66-69 | An empty object `{}` as `req.body` is truthy, so its serialisation is written, with `content-type: application/json` and `content-length` equal to its byte length. Without a carried Transfer-Encoding, the request is framed as far as `onProxyReq` writes, that is, before anything the proxy pipes after it. |
| `Forwarder.FramedByOneWrite` | proxy-server.js:66-70 | Take a request that carries no Transfer-Encoding. Set Content-Type to `application/json` and Content-Length to the byte length of one string, then write only that string. The request is then framed: the declared length equals the bytes written. Any Content-Type or Content-Length copied from the client is replaced. |
| `Forwarder.TransferEncodingSurvives` | proxy-server.js:66-70 | A Transfer-Encoding header copied from the client survives both `setHeader` calls unchanged, so the request then is not framed. |
| `Forwarder.OnProxyReq` | proxy-server.js:65-72 | The written chunks grow by exactly the payload (once), or by nothing when there is none. With a payload, the headers gain exactly `content-type: application/json` and `content-length` equal to the payload's byte length. Without one, the headers are unchanged. If nothing was written before and no Transfer-Encoding was carried, the request ends framed. |
| `Forwarder.ProxyErrorBody` | proxy-server.js:88 | The transport-error body is an object with `error: "Proxy error"` and, when the error has one, `message` set to the error's message, and no other keys. In particular it has no `jsonrpc` and no `id`. |
| `Forwarder.OnError` | proxy-server.js:86-89 | A transport error sets status 500. If nothing was sent yet, the proxy-error body is sent once. If the response was already sent, `res.json` throws and the response keeps what it had. Nothing is retried. |
| `Gateway.Outgoing` | proxy-server.js:64-70 | The forwarded path is the request path without its leading `/rpc`, or unchanged when it has none (a `/RPC` routed in case-insensitively, say). The forwarded payload is exactly what `onProxyReq` writes. |
| `Gateway.Serve` | proxy-server.js:11-92 | A request the logging middleware throws on gets Express's default error page with status 500, whatever its method. Of the others, `eth_chainId` and `eth_getTransactionReceipt` get the classifier's JSON-RPC replies (200 and 403). Any other request gets the upstream's status and body relayed verbatim, or, on a transport error, status 500 with the proxy-error body. Every reply is relayed or has status 200, 403 or 500. |
| `Gateway.AnsweredLocallyIgnoresUpstream` | proxy-server.js:33-58 | When the classifier answers, the reply is the same for every possible upstream behaviour, so the forwarder is never reached. |
| `Gateway.ServerErrorOnlyFromTransport` | proxy-server.js:86-89 | A gateway-made JSON reply with status 500 happens only for a request that passed the logging middleware and the classifier and whose upstream call failed at transport level. |
| `Gateway.ReceiptWithUnprintableParam` | proxy-server.js:25-26 | A receipt request whose first param cannot be converted to a string is one the classifier would refuse with 403, but the caller gets the default error page with status 500 instead, whatever the upstream. |
| `Gateway.UnprintableMethodIsNotForwarded` | proxy-server.js:15-16 | A body whose `method` cannot be converted to a string would pass through the classifier, but it gets the default error page and is never forwarded. |
| `Logging.ToJsStringFailsIff` | proxy-server.js:16 | Converting a parsed value to a string throws exactly for an object with its own `toString` key, or an array holding such a value at any depth, whatever the number formatting. |
| `Logging.JoinItemsFailsIff` | proxy-server.js:20 | Converting an array throws exactly when one of its elements does. |
| `Logging.LogRequest` | proxy-server.js:11-30 | The logging middleware calls `next()` exactly when the body has no truthy `method`, or its `method` converts to a string and, for `eth_getBalance` and `eth_getTransactionReceipt`, so does `params?.[0]`. |
| `Logging.LaterLogsCannotThrow` | proxy-server.js:46 | For a request that passed the logging middleware, the conversions of the receipt param at line 46 and of the method at line 83 cannot throw. |
| `Http.OutgoingRequest.SetHeader` | proxy-server.js:68-69 | Setting a header replaces the header of the same lower-cased name, and adds nothing else. |
| `Http.OutgoingRequest.Write` | proxy-server.js:70 | Writing appends exactly one chunk and leaves the headers unchanged. |
| `Http.ServerResponse.SendJson` | proxy-server.js:37 | Sending JSON on a response not yet sent records the body. On one already sent it throws and changes nothing. Either way the status already set is kept. |
| `Http.ServerResponse.Status` | proxy-server.js:48 | `res.status(code)` sets the status and leaves what was sent unchanged. |
| `Json.WithOptional` | proxy-server.js:39 | A property whose value is undefined (`id: req.body.id` with no `id`) is absent from the serialised object. A defined one is present with its value. All other properties are kept as they are. |

## Left out

- The console output of the logging middleware and of `onProxyRes` (lines 11-30, 73-85), and the clock read at line 12. The template literals' only effect on control, the TypeError at line 16, 20 or 26, is modelled by `Logging.LogRequest`. `Logging.LaterLogsCannotThrow` shows that lines 46 and 83 cannot throw for a request that got that far.
- Gateway.Serve: the default error page that Express sends after the logging middleware throws is modelled by its status (500) only. Its HTML body comes from Express's own final handler, which is not part of this model.
- The network I/O of `createProxyMiddleware`, the upstream URL and the API key (lines 61-63, 92): the upstream is a function parameter of `Gateway.Serve`.
- `bodyParser.json()`, `JSON.stringify` and `Buffer.byteLength` (lines 8, 67, 69): parsing is outside the model, and the other two are function parameters (`stringify`, `byteLength`).
- What body-parser leaves when it parses nothing depends on its version. With 2.x, `req.body` is undefined: the model's None, and nothing is written. With 1.x, it is `{}`, which is truthy, so `onProxyReq` writes `"{}"` with its Content-Length (see `Forwarder.EmptyBodyIsWritten`). The proxy then pipes any unread raw body after it. That piping is not modelled, and such a request is not framed.
- JSON.stringify at line 23 never throws on a parsed value: it has no cycles and no BigInt, and a `toJSON` key from JSON is never a function.
- The `/health` route, `app.listen`, `PORT` and the SIGINT handler (lines 95-110): routing, process lifecycle and environment reads.
- Concurrency between requests: no state is shared beyond Express internals.
- JSON numbers are exact reals, not IEEE doubles.
- Object key order is not kept: objects are maps, and the serialiser that would fix the order is opaque.
- Header names are lower-cased for ASCII only. Header names are ASCII tokens.
- Http.ServerResponse.SendJson: the `Content-Type` that `res.json` sets on the reply is not modelled.
- Forwarder.OnError: the model does not decide whether http-proxy calls `onError` for a failure after the upstream's reply has begun streaming to the client; `Gateway.Upstream` treats an answer and a transport failure as exclusive. If it does, `OnError`'s contract says `res.json` throws `ERR_HTTP_HEADERS_SENT` inside an event handler instead of replying 500. What that throw does to the process is not modelled.
- Forwarder.OnProxyReq: a `transfer-encoding: chunked` header copied from the client is kept beside the new Content-Length (see `Forwarder.TransferEncodingSurvives`). Framing is promised only without one. How Node and the upstream resolve the two headers is not modelled.
- Classifier.HandleRpc: requires a response no earlier middleware has touched, as Express provides it (the logging middleware does not write to `res`).
