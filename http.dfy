/** The two mutable HTTP objects the gateway's handlers work on: Express's
    response (`res`), which a handler gives a status and a JSON body, and
    the outgoing upstream request (`proxyReq`), which the forwarder gives
    headers and body chunks. */
module Http {
  import opened Json

  /** A header value as `setHeader` receives it: a string or a number. */
  datatype HeaderValue = Text(s: string) | Number(n: nat)

  function LowerChar(c: char): (l: char)
    ensures 'A' <= c <= 'Z' ==> 'a' <= l <= 'z' && l as int - c as int == 32
    ensures !('A' <= c <= 'Z') ==> l == c
  {
    if 'A' <= c <= 'Z' then (c as int + 32) as char else c
  }

  /** ASCII lower-casing; header names are ASCII tokens, and Node stores
      every header under its lower-cased name. */
  function Lower(s: string): (r: string)
    ensures |r| == |s|
    ensures forall i :: 0 <= i < |s| ==> r[i] == LowerChar(s[i])
  {
    if s == [] then [] else [LowerChar(s[0])] + Lower(s[1..])
  }

  /** A string is the lower-casing of another when they agree character
      by character. */
  lemma LowerIs(s: string, t: string)
    requires |s| == |t|
    requires forall i :: 0 <= i < |s| ==> LowerChar(s[i]) == t[i]
    ensures Lower(s) == t
  {
  }

  /** Express's response object, reduced to what the handlers set. */
  class ServerResponse {
    var statusCode: nat
    var sent: Option<Json>

    /** A response as Express hands it to the first middleware. */
    predicate Untouched()
      reads this
    {
      statusCode == 200 && sent == None
    }

    constructor ()
      ensures Untouched()
    {
      statusCode := 200;
      sent := None;
    }

    /** `res.status(code)`: sets the status, sends nothing. */
    method Status(code: nat)
      modifies this
      ensures statusCode == code && sent == old(sent)
    {
      statusCode := code;
    }

    /** `res.json(body)`: sends body with the current status. A response
        is sent once: on one already sent, Express throws
        `ERR_HTTP_HEADERS_SENT` (`thrown`) and nothing more is sent. */
    method SendJson(body: Json) returns (thrown: bool)
      modifies this
      ensures thrown <==> old(sent).Some?
      ensures sent == if thrown then old(sent) else Some(body)
      ensures statusCode == old(statusCode)
    {
      thrown := sent.Some?;
      if !thrown {
        sent := Some(body);
      }
    }
  }

  /** The upstream request being built: its headers by lower-cased name,
      and the body chunks written so far, in order. */
  class OutgoingRequest {
    var headers: map<string, HeaderValue>
    var chunks: seq<string>

    /** A request carrying the given (already lower-cased) headers and no
        body yet, as the proxy prepares it before `onProxyReq`. */
    constructor (initial: map<string, HeaderValue>)
      ensures headers == initial && chunks == []
    {
      headers := initial;
      chunks := [];
    }

    /** `proxyReq.setHeader(name, value)`: replaces any header of the same
        name, case-insensitively. */
    method SetHeader(name: string, value: HeaderValue)
      modifies this
      ensures headers == old(headers)[Lower(name) := value]
      ensures chunks == old(chunks)
    {
      headers := headers[Lower(name) := value];
    }

    /** `proxyReq.write(chunk)`: appends a body chunk. */
    method Write(chunk: string)
      modifies this
      ensures chunks == old(chunks) + [chunk]
      ensures headers == old(headers)
    {
      chunks := chunks + [chunk];
    }
  }
}
