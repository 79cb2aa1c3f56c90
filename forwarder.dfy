/** The forwarding rules given to the proxy middleware
    (proxy-server.js:61-90): the path rewrite, the re-serialisation of the
    already-parsed body onto the upstream request, and the translation of a
    transport error into a local HTTP 500 reply. */
module Forwarder {
  import opened Json
  import Http

  /** The prefix the rewrite rule `'^/rpc' -> ''` removes. */
  const MOUNT: string := "/rpc"

  /** `path.replace(/^\/rpc/, '')`: removes one leading `/rpc`. The
      pattern is case-sensitive while Express's mount is not, so a request
      routed in as `/RPC` reaches the upstream with its path unchanged. */
  function RewritePath(path: string): (r: string)
    ensures if MOUNT <= path then MOUNT + r == path else r == path
  {
    if MOUNT <= path then path[|MOUNT|..] else path
  }

  /** Mounting a path under `/rpc` and rewriting it gives it back, even
      when the path itself starts with `/rpc` (only one is removed). */
  lemma RewriteUndoesMount(p: string)
    ensures RewritePath(MOUNT + p) == p
  {
  }

  const CONTENT_TYPE: string := "content-type"
  const CONTENT_LENGTH: string := "content-length"
  const TRANSFER_ENCODING: string := "transfer-encoding"
  const JSON_MEDIA_TYPE: string := "application/json"

  /** What `onProxyReq` writes upstream: `JSON.stringify(req.body)` when
      `req.body` is present and truthy, nothing otherwise. `stringify`
      stands for JSON.stringify, which is outside this model. */
  function Payload(body: Option<Json>, stringify: Json -> string): (p: Option<string>)
    ensures p.Some? <==> body.Some? && Truthy(body.value)
    ensures p.Some? ==> p.value == stringify(body.value)
  {
    if body.Some? && Truthy(body.value) then Some(stringify(body.value)) else None
  }

  /** An empty object body, which body-parser 1.x leaves when it parses
      nothing, is truthy: `onProxyReq` still writes its serialisation and
      sets both headers for it. */
  lemma EmptyBodyIsWritten(headers: map<string, Http.HeaderValue>, stringify: Json -> string, byteLength: string -> nat)
    ensures Payload(Some(JObject(map[])), stringify) == Some(stringify(JObject(map[])))
    ensures TRANSFER_ENCODING !in headers ==>
              var data := stringify(JObject(map[]));
              Framed(headers[CONTENT_TYPE := Http.Text(JSON_MEDIA_TYPE)]
                            [CONTENT_LENGTH := Http.Number(byteLength(data))], [data], byteLength)
  {
    if TRANSFER_ENCODING !in headers {
      FramedByOneWrite(headers, stringify(JObject(map[])), byteLength);
    }
  }

  /** The total byte length of the chunks written, under a byte-length
      function for one string. */
  function BytesWritten(chunks: seq<string>, byteLength: string -> nat): nat
  {
    if chunks == [] then 0 else BytesWritten(chunks[..|chunks| - 1], byteLength) + byteLength(chunks[|chunks| - 1])
  }

  /** The upstream request is correctly framed: it declares a JSON body
      whose Content-Length is the byte length of everything written, and
      no Transfer-Encoding that would compete with that length. */
  predicate Framed(headers: map<string, Http.HeaderValue>, chunks: seq<string>, byteLength: string -> nat)
  {
    && headers.Keys >= {CONTENT_TYPE, CONTENT_LENGTH}
    && TRANSFER_ENCODING !in headers
    && headers[CONTENT_TYPE] == Http.Text(JSON_MEDIA_TYPE)
    && headers[CONTENT_LENGTH] == Http.Number(BytesWritten(chunks, byteLength))
  }

  /** Setting both headers from one string and then writing that string,
      and nothing else, frames a request correctly when it carried no
      Transfer-Encoding; a Content-Type or Content-Length copied from the
      client is replaced. */
  lemma FramedByOneWrite(headers: map<string, Http.HeaderValue>, data: string, byteLength: string -> nat)
    requires TRANSFER_ENCODING !in headers
    ensures Framed(headers[CONTENT_TYPE := Http.Text(JSON_MEDIA_TYPE)]
                          [CONTENT_LENGTH := Http.Number(byteLength(data))], [data], byteLength)
  {
  }

  /** `onProxyReq` removes no header, so a Transfer-Encoding copied from a
      chunked client request stays beside the new Content-Length. */
  lemma TransferEncodingSurvives(headers: map<string, Http.HeaderValue>, data: string, byteLength: string -> nat)
    requires TRANSFER_ENCODING in headers
    ensures var h := headers[CONTENT_TYPE := Http.Text(JSON_MEDIA_TYPE)]
                            [CONTENT_LENGTH := Http.Number(byteLength(data))];
            TRANSFER_ENCODING in h && h[TRANSFER_ENCODING] == headers[TRANSFER_ENCODING]
            && !Framed(h, [data], byteLength)
  {
  }

  /** The names `onProxyReq` passes to `setHeader` are stored as the
      lower-case names above. */
  lemma HeaderNames()
    ensures Http.Lower("Content-Type") == CONTENT_TYPE
    ensures Http.Lower("Content-Length") == CONTENT_LENGTH
  {
    ContentTypeName();
    ContentLengthName();
  }

  /** `Content-Type`, lower-cased character by character. */
  lemma ContentTypeName()
    ensures Http.Lower("Content-Type") == CONTENT_TYPE
  {
    var ct := "Content-Type";
    forall i | 0 <= i < |ct| ensures Http.LowerChar(ct[i]) == CONTENT_TYPE[i] {
    }
    Http.LowerIs(ct, CONTENT_TYPE);
  }

  /** `Content-Length`, lower-cased character by character. */
  lemma ContentLengthName()
    ensures Http.Lower("Content-Length") == CONTENT_LENGTH
  {
    var cl := "Content-Length";
    forall i | 0 <= i < |cl| ensures Http.LowerChar(cl[i]) == CONTENT_LENGTH[i] {
    }
    Http.LowerIs(cl, CONTENT_LENGTH);
  }

  /** `onProxyReq` (proxy-server.js:65-72). `byteLength` stands for
      Buffer.byteLength, outside this model. With a body, the request gets
      the two headers and the payload written once; without one, it is
      left as it was. */
  method OnProxyReq(proxyReq: Http.OutgoingRequest, body: Option<Json>,
                    stringify: Json -> string, byteLength: string -> nat)
    modifies proxyReq
    ensures var p := Payload(body, stringify);
            && proxyReq.chunks == old(proxyReq.chunks) + (if p.Some? then [p.value] else [])
            && proxyReq.headers == if p.Some? then
                 old(proxyReq.headers)[CONTENT_TYPE := Http.Text(JSON_MEDIA_TYPE)]
                                      [CONTENT_LENGTH := Http.Number(byteLength(p.value))]
               else old(proxyReq.headers)
    ensures Payload(body, stringify).Some? && old(proxyReq.chunks) == []
            && TRANSFER_ENCODING !in old(proxyReq.headers) ==>
              Framed(proxyReq.headers, proxyReq.chunks, byteLength)
  {
    if body.Some? && Truthy(body.value) {
      var bodyData := stringify(body.value);
      HeaderNames();
      proxyReq.SetHeader("Content-Type", Http.Text(JSON_MEDIA_TYPE));
      proxyReq.SetHeader("Content-Length", Http.Number(byteLength(bodyData)));
      proxyReq.Write(bodyData);
      assert proxyReq.chunks == old(proxyReq.chunks) + [bodyData];
      if old(proxyReq.chunks) == [] && TRANSFER_ENCODING !in old(proxyReq.headers) {
        FramedByOneWrite(old(proxyReq.headers), bodyData, byteLength);
      }
    }
  }

  /** The body of the reply to a transport error:
      `{error: 'Proxy error', message: err.message}`, where a missing
      message is dropped when serialised. It is not a JSON-RPC object. */
  function ProxyErrorBody(message: Option<string>): (v: Json)
    ensures v.JObject?
    ensures Prop(v, "error") == Some(JString("Proxy error"))
    ensures message.Some? ==> Prop(v, "message") == Some(JString(message.value))
    ensures message.None? ==> Prop(v, "message") == None
    ensures v.fields.Keys <= {"error", "message"}
    ensures Prop(v, "jsonrpc") == None && Prop(v, "id") == None
  {
    var m := if message.Some? then Some(JString(message.value)) else None;
    JObject(WithOptional(map["error" := JString("Proxy error")], "message", m))
  }

  /** `onError` (proxy-server.js:86-89): status 500 and the error body,
      sent once; no retry. On a response already sent, `res.json` throws
      (`thrown`) and what was sent stays as it was. */
  method OnError(errMessage: Option<string>, res: Http.ServerResponse) returns (thrown: bool)
    modifies res
    ensures res.statusCode == 500
    ensures thrown <==> old(res.sent).Some?
    ensures res.sent == if thrown then old(res.sent) else Some(ProxyErrorBody(errMessage))
  {
    res.Status(500);
    thrown := res.SendJson(ProxyErrorBody(errMessage));
  }
}
