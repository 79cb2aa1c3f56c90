/** The `/rpc` middleware that runs before the proxy
    (proxy-server.js:33-58): `eth_chainId` is answered locally with chain
    id 9999, `eth_getTransactionReceipt` is refused with HTTP 403, and
    everything else falls through to `next()`. */
module Classifier {
  import opened Json
  import Hex
  import Http

  /** The chain id the gateway claims, and the literal it answers with. */
  const CHAIN_ID: nat := 9999
  const CHAIN_ID_HEX: string := "0x270f"

  const CHAIN_ID_METHOD: string := "eth_chainId"
  const RECEIPT_METHOD: string := "eth_getTransactionReceipt"
  const RECEIPT_FORBIDDEN: string := "Forbidden: eth_getTransactionReceipt not allowed"
  const SERVER_ERROR: int := -32000

  /** What the middleware decides: answer now with a status and a JSON
      body, or hand the request on. */
  datatype Outcome = Respond(status: nat, response: Json) | PassThrough

  /** `req.body && req.body.method === name`, with the body undefined
      when it is None. */
  predicate MethodIs(body: Option<Json>, name: string)
  {
    body.Some? && Truthy(body.value) && Prop(body.value, "method") == Some(JString(name))
  }

  /** `req.body.id`, undefined when the body has no `id`. */
  function RequestId(body: Option<Json>): Option<Json>
  {
    if body.Some? then Prop(body.value, "id") else None
  }

  /** A JSON-RPC 2.0 success object: exactly `jsonrpc`, `result` and the
      request's `id` (absent when the request had none). */
  predicate IsRpcResult(v: Json, id: Option<Json>, result: Json)
  {
    && v.JObject?
    && Prop(v, "jsonrpc") == Some(JString("2.0"))
    && Prop(v, "id") == id
    && Prop(v, "result") == Some(result)
    && v.fields.Keys <= {"jsonrpc", "id", "result"}
  }

  /** A JSON-RPC 2.0 error object: exactly `jsonrpc`, the request's `id`
      and `error` holding exactly `code` and `message`. */
  predicate IsRpcError(v: Json, id: Option<Json>, code: int, message: string)
  {
    && v.JObject?
    && Prop(v, "jsonrpc") == Some(JString("2.0"))
    && Prop(v, "id") == id
    && v.fields.Keys <= {"jsonrpc", "id", "error"}
    && "error" in v.fields
    && var e := v.fields["error"];
       && e.JObject?
       && e.fields.Keys == {"code", "message"}
       && e.fields["code"] == JNumber(code as real)
       && e.fields["message"] == JString(message)
  }

  /** The object literal `{jsonrpc: '2.0', id: req.body.id, <key>: payload}`
      as it is serialised. */
  function Envelope(id: Option<Json>, key: string, payload: Json): Json
  {
    JObject(WithOptional(map["jsonrpc" := JString("2.0"), key := payload], "id", id))
  }

  function ReceiptError(): Json
  {
    JObject(map["code" := JNumber(SERVER_ERROR as real), "message" := JString(RECEIPT_FORBIDDEN)])
  }

  /** The decision of proxy-server.js:33-58, tests in source order. */
  function Classify(body: Option<Json>): (r: Outcome)
    ensures r.Respond? <==> MethodIs(body, CHAIN_ID_METHOD) || MethodIs(body, RECEIPT_METHOD)
    ensures MethodIs(body, CHAIN_ID_METHOD) ==>
              r.Respond? && r.status == 200
              && IsRpcResult(r.response, RequestId(body), JString(CHAIN_ID_HEX))
    ensures MethodIs(body, RECEIPT_METHOD) ==>
              r.Respond? && r.status == 403
              && IsRpcError(r.response, RequestId(body), SERVER_ERROR, RECEIPT_FORBIDDEN)
  {
    if MethodIs(body, CHAIN_ID_METHOD) then
      Respond(200, Envelope(RequestId(body), "result", JString(CHAIN_ID_HEX)))
    else if MethodIs(body, RECEIPT_METHOD) then
      Respond(403, Envelope(RequestId(body), "error", ReceiptError()))
    else
      PassThrough
  }

  /** The literal `'0x270f'` is the hex of the chain id 9999 its comment
      names, and the only number whose hex it is. */
  lemma ChainIdLiteral()
    ensures Hex.ToHex(CHAIN_ID) == CHAIN_ID_HEX
    ensures forall n: nat :: Hex.ToHex(n) == CHAIN_ID_HEX ==> n == CHAIN_ID
  {
    assert Hex.Digits(9999 / 16 / 16 / 16) == "2";
    assert Hex.Digits(9999 / 16 / 16) == "27";
    assert Hex.Digits(9999 / 16) == "270";
    assert Hex.Digits(9999) == "270f";
    forall n: nat | Hex.ToHex(n) == CHAIN_ID_HEX
      ensures n == CHAIN_ID
    {
      Hex.ToHexInjective(n, CHAIN_ID);
    }
  }

  /** The decision reads only the body's `method` and `id`: two bodies
      that agree on those (whatever their `params`) get the same outcome. */
  lemma ClassifyReadsOnlyMethodAndId(b1: Option<Json>, b2: Option<Json>)
    requires b1.Some? == b2.Some?
    requires b1.Some? ==> Prop(b1.value, "method") == Prop(b2.value, "method")
    requires b1.Some? ==> Prop(b1.value, "id") == Prop(b2.value, "id")
    ensures Classify(b1) == Classify(b2)
  {
  }

  /** The middleware as Express runs it: on a match it sends the
      synthesised reply and returns without calling `next()`; otherwise it
      leaves the response alone and calls `next()`. */
  method HandleRpc(body: Option<Json>, res: Http.ServerResponse) returns (callsNext: bool)
    requires res.Untouched()
    modifies res
    ensures callsNext <==> Classify(body).PassThrough?
    ensures callsNext ==> res.Untouched()
    ensures !callsNext ==> res.statusCode == Classify(body).status
                           && res.sent == Some(Classify(body).response)
  {
    if MethodIs(body, CHAIN_ID_METHOD) {
      var _ := res.SendJson(Envelope(RequestId(body), "result", JString(CHAIN_ID_HEX)));
      return false;
    }
    if MethodIs(body, RECEIPT_METHOD) {
      res.Status(403);
      var _ := res.SendJson(Envelope(RequestId(body), "error", ReceiptError()));
      return false;
    }
    callsNext := true;
  }
}
