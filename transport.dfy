/** The token endpoint as the credential sees it: it receives POSTed
    assertion grants and answers them, one scripted reply per request, in
    order (the role of an HTTP mock sequence). */
module Transport {
  import opened Values
  import opened Signing

  const JWT_BEARER_GRANT_TYPE := "urn:ietf:params:oauth:grant-type:jwt-bearer"

  /** One POST to the token endpoint. */
  datatype TokenRequest = TokenRequest(uri: string, grantType: string, assertion: SignedJwt)

  /** An HTTP status and the decoded JSON body, or no reply at all. */
  datatype Reply = HttpReply(status: int, body: map<string, Value>) | NoReply

  /** The reply the next request receives: the first scripted one, or none
      once the script is exhausted. */
  function NextReply(replies: seq<Reply>): (reply: Reply)
    ensures reply != NoReply ==> reply in replies
    ensures replies != [] ==> [reply] + replies[1..] == replies
  {
    if replies == [] then NoReply else replies[0]
  }

  /** The script left after one request. */
  function Remaining(replies: seq<Reply>): (rest: seq<Reply>)
    ensures replies != [] ==> [replies[0]] + rest == replies
    ensures replies == [] ==> rest == []
  {
    if replies == [] then [] else replies[1..]
  }

  class TokenEndpoint {
    /** Replies still to be given, in order. */
    var replies: seq<Reply>
    /** Requests received so far, oldest first. */
    var requests: seq<TokenRequest>

    constructor (replies: seq<Reply>)
      ensures this.replies == replies && requests == []
    {
      this.replies := replies;
      requests := [];
    }

    method Post(request: TokenRequest) returns (reply: Reply)
      modifies this
      ensures requests == old(requests) + [request]
      ensures reply == NextReply(old(replies))
      ensures replies == Remaining(old(replies))
    {
      requests := requests + [request];
      reply := NextReply(replies);
      replies := Remaining(replies);
    }
  }
}
