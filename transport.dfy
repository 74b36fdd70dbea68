/**
 * The HTTP side of an authman instance: the provider's HTTP client, with
 * the authorization server and the resource server behind it. It is modelled
 * the way authman's kernel tests drive it: a scripted queue of replies
 * (Guzzle's `MockHandler`) and a history of every request sent (Guzzle's
 * history middleware), so the number of network round trips can be counted.
 */
module Transport {
  import opened Php
  import opened Errors
  import opened League

  /** A request as it leaves the provider. */
  datatype Request =
    /** A token endpoint request for `grant`, with its grant-specific parameters (the client id, secret and redirect URI the provider adds are left out). */
    | TokenRequest(grant: string, params: FieldMap)
    /** A resource request built by `getAuthenticatedRequest` from the method, URL, the bound token and the caller's options. */
    | ResourceRequest(httpMethod: string, url: string, token: Option<InnerToken>, requestOptions: FieldMap)

  /** One network round trip: the request and the transport options it was sent with. */
  datatype Call = Call(request: Request, options: FieldMap)

  /** A scripted reply. */
  datatype Reply =
    /** The token endpoint issues a token with these response fields. */
    | Granted(fields: FieldMap)
    /** The authorization server refuses (an OAuth error response). */
    | Rejected(message: string)
    /** Any other HTTP response, such as a resource body. */
    | Body(content: string)

  function Tail<T>(s: seq<T>): seq<T> {
    if s == [] then [] else s[1..]
  }

  /** The provider's HTTP client. */
  class HttpClient {
    /** Replies still queued, first one next. */
    var script: seq<Reply>
    /** Every round trip so far, in order. */
    var history: seq<Call>

    constructor (script: seq<Reply>)
      ensures this.script == script && history == []
    {
      this.script := script;
      history := [];
    }

    /**
     * `send($request, $options)`: one round trip; `None` when no reply is
     * queued (the transport fails). The history records every call sent,
     * including one the queue could not answer.
     */
    method Send(request: Request, options: FieldMap) returns (reply: Option<Reply>)
      modifies this
      ensures history == old(history) + [Call(request, options)]
      ensures script == Tail(old(script))
      ensures old(script) == [] ==> reply == None
      ensures old(script) != [] ==> reply == Some(old(script)[0])
    {
      history := history + [Call(request, options)];
      if script == [] {
        reply := None;
      } else {
        reply := Some(script[0]);
        script := script[1..];
      }
    }
  }
}
