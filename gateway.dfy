/** The `/rpc` pipeline as `app.use` orders it (proxy-server.js:11-92):
    the logging middleware first, then the classifier, and the proxy only
    when the classifier calls `next()`. The upstream node is a parameter: a
    function from what the proxy sends to what comes back. */
module Gateway {
  import opened Json
  import Classifier
  import Forwarder
  import Logging

  /** The status Express's default error handler gives a TypeError, which
      carries no status of its own. */
  const DEFAULT_ERROR_STATUS: nat := 500

  /** What the proxy sends upstream: the rewritten path and, when the
      body was parsed, the re-serialised body written by `onProxyReq`
      (None: nothing is written there). */
  datatype Forwarded = Forwarded(path: string, payload: Option<string>)

  /** What the upstream does with a forwarded request: answers with a
      status and a body, or fails at transport level with a message. */
  datatype Upstream = Answered(status: nat, raw: string) | TransportError(message: Option<string>)

  /** What the caller receives: a JSON reply made by the gateway, the
      upstream's status and body relayed as they came, or Express's default
      error page after a middleware threw. */
  datatype Reply = JsonReply(status: nat, body: Json) | Relayed(status: nat, raw: string) | ErrorPage(status: nat)

  /** The request the proxy sends for a body that reached it: the path
      without one leading `/rpc`, and exactly the payload `onProxyReq`
      writes. */
  function Outgoing(path: string, body: Option<Json>, stringify: Json -> string): (f: Forwarded)
    ensures if Forwarder.MOUNT <= path then Forwarder.MOUNT + f.path == path else f.path == path
    ensures f.payload == Forwarder.Payload(body, stringify)
  {
    Forwarded(Forwarder.RewritePath(path), Forwarder.Payload(body, stringify))
  }

  /** One request through the pipeline. */
  function Serve(path: string, body: Option<Json>, stringify: Json -> string,
                 upstream: Forwarded -> Upstream): (r: Reply)
    ensures !Logging.PassesLogging(body) ==> r == ErrorPage(DEFAULT_ERROR_STATUS)
    ensures Logging.PassesLogging(body) && Classifier.MethodIs(body, Classifier.CHAIN_ID_METHOD) ==>
              r.JsonReply? && r.status == 200
              && Classifier.IsRpcResult(r.body, Classifier.RequestId(body), JString(Classifier.CHAIN_ID_HEX))
    ensures Logging.PassesLogging(body) && Classifier.MethodIs(body, Classifier.RECEIPT_METHOD) ==>
              r.JsonReply? && r.status == 403
              && Classifier.IsRpcError(r.body, Classifier.RequestId(body),
                                       Classifier.SERVER_ERROR, Classifier.RECEIPT_FORBIDDEN)
    ensures Logging.PassesLogging(body) && Classifier.Classify(body).PassThrough? ==>
              match upstream(Outgoing(path, body, stringify))
              case Answered(status, raw) => r == Relayed(status, raw)
              case TransportError(m) => r == JsonReply(500, Forwarder.ProxyErrorBody(m))
    ensures r.Relayed? || r.status in {200, 403, 500}
  {
    if !Logging.PassesLogging(body) then ErrorPage(DEFAULT_ERROR_STATUS)
    else
      match Classifier.Classify(body)
      case Respond(status, response) => JsonReply(status, response)
      case PassThrough =>
        match upstream(Outgoing(path, body, stringify))
        case Answered(status, raw) => Relayed(status, raw)
        case TransportError(m) => JsonReply(500, Forwarder.ProxyErrorBody(m))
  }

  /** A request the classifier answers never reaches the upstream: the
      reply is the same whatever the upstream would have done. */
  lemma AnsweredLocallyIgnoresUpstream(path: string, body: Option<Json>, stringify: Json -> string,
                                       u1: Forwarded -> Upstream, u2: Forwarded -> Upstream)
    requires Classifier.Classify(body).Respond?
    ensures Serve(path, body, stringify, u1) == Serve(path, body, stringify, u2)
  {
  }

  /** A reply with status 500 is the proxy's transport-error reply, and
      only a forwarded request can get one. */
  lemma ServerErrorOnlyFromTransport(path: string, body: Option<Json>, stringify: Json -> string,
                                     upstream: Forwarded -> Upstream)
    requires Serve(path, body, stringify, upstream).JsonReply?
    requires Serve(path, body, stringify, upstream).status == 500
    ensures Logging.PassesLogging(body)
    ensures Classifier.Classify(body).PassThrough?
    ensures upstream(Outgoing(path, body, stringify)).TransportError?
  {
  }

  /** A receipt request whose first param is an object with its own
      `toString` is one the classifier would refuse with 403, but the
      logging middleware throws on it first (line 26), so the caller gets
      the default error page instead, whatever the upstream. */
  lemma ReceiptWithUnprintableParam(path: string, id: Json, param: Json, stringify: Json -> string,
                                    upstream: Forwarded -> Upstream)
    requires Logging.ToStringThrows(param)
    ensures var body := Some(JObject(map["id" := id, "method" := JString(Classifier.RECEIPT_METHOD),
                                         "params" := JArray([param])]));
            && Classifier.Classify(body).Respond?
            && Classifier.Classify(body).status == 403
            && Serve(path, body, stringify, upstream) == ErrorPage(DEFAULT_ERROR_STATUS)
  {
  }

  /** A body whose `method` cannot be converted to a string (an object with
      its own `toString`, say) would pass through the classifier, but the
      logging middleware throws on it at line 16, so it is never forwarded. */
  lemma UnprintableMethodIsNotForwarded(path: string, id: Json, rpcMethod: Json, stringify: Json -> string,
                                        upstream: Forwarded -> Upstream)
    requires Logging.ToStringThrows(rpcMethod)
    ensures var body := Some(JObject(map["id" := id, "method" := rpcMethod]));
            && Classifier.Classify(body).PassThrough?
            && Serve(path, body, stringify, upstream) == ErrorPage(DEFAULT_ERROR_STATUS)
  {
  }
}
