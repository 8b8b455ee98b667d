/** The token cache of a credential, as values: the cached token, its
    expiry instant and the raw token response; when the cache counts as
    expired; and what one exchange with the token endpoint makes of it.
    Time is counted in whole seconds. */
module TokenCache {
  import opened Wrappers
  import opened Values
  import opened Errors
  import opened Transport

  const HTTP_OK := 200

  datatype TokenState = TokenState(
    accessToken: Option<string>,
    tokenExpiry: Option<int>,
    tokenResponse: Option<map<string, Value>>)

  /** The state of a credential that has never obtained a token. */
  const NoToken := TokenState(None, None, None)

  /** What `get_access_token` returns. */
  datatype AccessTokenInfo = AccessTokenInfo(accessToken: string, expiresIn: Option<int>)

  /** `access_token_expired`: an expiry is set and has been reached. A cache
      without expiry does not count as expired. */
  predicate Expired(tokenExpiry: Option<int>, now: int)
  {
    tokenExpiry.Some? && now >= tokenExpiry.value
  }

  /** `get_access_token` refreshes when no token is cached or the cached
      one has expired. An empty token counts as none, as a falsy
      `access_token` does; the tests show only a missing one. */
  predicate NeedsRefresh(s: TokenState, now: int)
  {
    s.accessToken.None? || s.accessToken.value == "" || Expired(s.tokenExpiry, now)
  }

  /** `_expires_in`: the whole seconds left before the expiry, never
      negative; none when no expiry is set. */
  function ExpiresIn(tokenExpiry: Option<int>, now: int): (r: Option<int>)
    ensures r.None? <==> tokenExpiry.None?
    ensures r.Some? ==> r.value >= 0
    ensures r.Some? ==> (r.value == 0 <==> Expired(tokenExpiry, now))
    ensures r.Some? && !Expired(tokenExpiry, now) ==> now + r.value == tokenExpiry.value
  {
    match tokenExpiry
    case None => None
    case Some(expiry) => if expiry > now then Some(expiry - now) else Some(0)
  }

  /** A 200 body the credential can use: a string `access_token` and, if
      present, an integer `expires_in`. */
  predicate UsableBody(body: map<string, Value>)
  {
    && "access_token" in body && body["access_token"].Str?
    && ("expires_in" in body ==> body["expires_in"].Int?)
  }

  /** The cache after an exchange that started at `now`: the token taken
      from the body, the expiry `now + expires_in`, the body kept verbatim;
      or the failure the exchange ends in. Only status 200 succeeds; the
      tests script 200 replies alone. */
  function Refresh(reply: Reply, now: int): (r: Result<TokenState, Error>)
    ensures reply.NoReply? ==> r == Failure(TransportFailed)
    ensures reply.HttpReply? && reply.status != HTTP_OK ==> r == Failure(RefreshFailed(reply.status))
    ensures r.Success? <==> reply.HttpReply? && reply.status == HTTP_OK && UsableBody(reply.body)
    ensures r.Success? ==>
              && r.value.accessToken.Some?
              && reply.body["access_token"] == Str(r.value.accessToken.value)
              && r.value.tokenResponse == Some(reply.body)
              && (r.value.tokenExpiry.Some? <==> "expires_in" in reply.body)
              && (r.value.tokenExpiry.Some? ==> reply.body["expires_in"] == Int(r.value.tokenExpiry.value - now))
  {
    match reply
    case NoReply => Failure(TransportFailed)
    case HttpReply(status, body) =>
      if status != HTTP_OK then Failure(RefreshFailed(status))
      else if !UsableBody(body) then Failure(MalformedTokenResponse)
      else
        var expiry := if "expires_in" in body then Some(now + body["expires_in"].i) else None;
        Success(TokenState(Some(body["access_token"].s), expiry, Some(body)))
  }

  /** A credential that never obtained a token is not expired, yet the
      first request for a token must refresh: the missing token, not the
      expiry, triggers it. */
  lemma FreshCacheNotExpiredButRefreshes(now: int)
    ensures !Expired(NoToken.tokenExpiry, now)
    ensures NeedsRefresh(NoToken, now)
  {
  }

  /** After a successful exchange granting a non-empty token for `lifetime`
      seconds, the cache is valid until `now + lifetime` and reports
      `lifetime` seconds left. */
  lemma RefreshedCacheValid(token: string, lifetime: int, body: map<string, Value>, now: int, later: int)
    requires body == map["access_token" := Str(token), "expires_in" := Int(lifetime)]
    requires token != "" && now <= later < now + lifetime
    ensures Refresh(HttpReply(HTTP_OK, body), now) ==
              Success(TokenState(Some(token), Some(now + lifetime), Some(body)))
    ensures !NeedsRefresh(Refresh(HttpReply(HTTP_OK, body), now).value, later)
    ensures ExpiresIn(Some(now + lifetime), now) == Some(lifetime)
  {
    assert UsableBody(body);
  }

  /** Setting the expiry to the present instant makes the cache expired. */
  lemma ForcedExpiry(s: TokenState, now: int)
    ensures Expired(s.(tokenExpiry := Some(now)).tokenExpiry, now)
    ensures NeedsRefresh(s.(tokenExpiry := Some(now)), now)
  {
  }

  /** Once expired, a token stays expired as time goes on. */
  lemma ExpiredStaysExpired(tokenExpiry: Option<int>, now: int, later: int)
    requires Expired(tokenExpiry, now) && now <= later
    ensures Expired(tokenExpiry, later)
  {
  }
}
