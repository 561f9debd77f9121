/**
 * The bot's wrapper around the Twitch client: pass-through user lookups, and
 * a message send that, on `ErrUnauthorized` only, refreshes the user's
 * credentials once, overwrites them in the user record and retries once.
 *
 * The two API calls are oracles: `send` and `refresh` give what the client
 * returns for each request it would issue, so the retry's answer may depend on
 * the refreshed token it carries. The current time is a parameter.
 */
module TwitchApiCaller {
  import opened Common
  import opened ChatModel
  import opened TwitchApi

  /** One call the wrapper makes on the Twitch client, with the request it carries. */
  datatype ApiCall = SendCall(request: HttpRequest) | RefreshCall(request: HttpRequest)

  /** The credential fields of a user that a refresh overwrites. */
  datatype Credentials = Credentials(accessToken: string, refreshToken: string, expiresAt: int)

  /** The result of one send, the credentials afterwards and the calls made, in order. */
  datatype SendRun = SendRun(result: Result<SendMessageResponse, ApiError>, credentials: Credentials, calls: seq<ApiCall>)

  /** Nanoseconds per second: Go's `time.Second`. */
  const Second := 1_000_000_000

  /** Go's int64 arithmetic: the value wrapped into [-2^63, 2^63). */
  function WrapInt64(x: int): (r: int)
    ensures -0x8000_0000_0000_0000 <= r < 0x8000_0000_0000_0000
    ensures -0x8000_0000_0000_0000 <= x < 0x8000_0000_0000_0000 ==> r == x
  {
    (x + 0x8000_0000_0000_0000) % 0x1_0000_0000_0000_0000 - 0x8000_0000_0000_0000
  }

  /** The expiry after a refresh: now plus `expiresIn` seconds, as an int64 `time.Duration`. */
  function ExpiryAfter(now: int, expiresIn: int): (t: int)
    ensures 0 <= expiresIn <= 9_223_372_036 ==> t == now + expiresIn * Second
  {
    now + WrapInt64(expiresIn * Second)
  }

  /** The credentials a successful refresh leaves in the user record. */
  function Refreshed(token: RefreshAccessTokenResponse, now: int): (c: Credentials)
    ensures c.accessToken == token.accessToken && c.refreshToken == token.refreshToken
    ensures c.expiresAt == ExpiryAfter(now, token.expiresIn)
  {
    Credentials(token.accessToken, token.refreshToken, ExpiryAfter(now, token.expiresIn))
  }

  /**
   * One `SendMessage` on a user with id `senderId` and credentials `creds`:
   * the result, the credentials left in the user record, and the calls made.
   */
  function SendWithRefresh(
    api: Api, senderId: string, creds: Credentials, broadcasterId: string, message: string, now: int,
    send: HttpRequest -> Result<SendMessageResponse, ApiError>,
    refresh: HttpRequest -> Result<RefreshAccessTokenResponse, ApiError>): (run: SendRun)
    // every call starts with a send carrying the current access token
    ensures 1 <= |run.calls| <= 3
    ensures run.calls[0] == SendCall(SendMessageRequest(senderId, creds.accessToken, broadcasterId, message))
    // at most two sends and at most one refresh: the refresh, if any, is the second call
    ensures forall i :: 0 <= i < |run.calls| ==> (run.calls[i].RefreshCall? <==> i == 1)
    // credentials change only through a successful refresh, which precedes a retry
    ensures run.credentials == creds ||
      (|run.calls| == 3 && run.calls[1] == RefreshCall(RefreshAccessTokenRequest(api, creds.refreshToken))
       && refresh(run.calls[1].request).Success?
       && run.credentials == Refreshed(refresh(run.calls[1].request).value, now))
    // the result is what the last send returned, or the refresh's error
    ensures run.calls[|run.calls| - 1].SendCall? ==> run.result == send(run.calls[|run.calls| - 1].request)
    ensures run.calls[|run.calls| - 1].RefreshCall? ==>
      refresh(run.calls[|run.calls| - 1].request).Failure? && run.result == Failure(refresh(run.calls[|run.calls| - 1].request).error)
  {
    var first := SendMessageRequest(senderId, creds.accessToken, broadcasterId, message);
    var firstResult := send(first);
    if firstResult.Success? || firstResult.error != Unauthorized then
      SendRun(firstResult, creds, [SendCall(first)])
    else
      var refreshRequest := RefreshAccessTokenRequest(api, creds.refreshToken);
      match refresh(refreshRequest)
      case Failure(e) => SendRun(Failure(e), creds, [SendCall(first), RefreshCall(refreshRequest)])
      case Success(token) =>
        var updated := Refreshed(token, now);
        var retry := SendMessageRequest(senderId, updated.accessToken, broadcasterId, message);
        SendRun(send(retry), updated, [SendCall(first), RefreshCall(refreshRequest), SendCall(retry)])
  }

  /**
   * `TwitchApiCaller.SendMessage`: send; only on `ErrUnauthorized` refresh,
   * overwrite the user's access token, refresh token and expiry, and retry once.
   */
  method SendMessage(
    api: Api, user: User, broadcasterId: string, message: string, now: int,
    send: HttpRequest -> Result<SendMessageResponse, ApiError>,
    refresh: HttpRequest -> Result<RefreshAccessTokenResponse, ApiError>)
    returns (result: Result<SendMessageResponse, ApiError>, calls: seq<ApiCall>)
    modifies user
    ensures var run := SendWithRefresh(api, old(user.id),
        Credentials(old(user.accessToken), old(user.refreshToken), old(user.expiresAt)),
        broadcasterId, message, now, send, refresh);
      result == run.result && calls == run.calls
      && Credentials(user.accessToken, user.refreshToken, user.expiresAt) == run.credentials
    ensures user.id == old(user.id) && user.username == old(user.username) && user.createdAt == old(user.createdAt)
  {
    var request := SendMessageRequest(user.id, user.accessToken, broadcasterId, message);
    calls := [SendCall(request)];
    result := send(request);
    if result.Success? {
      return;
    }
    if result.error != Unauthorized {
      return;
    }
    var refreshRequest := RefreshAccessTokenRequest(api, user.refreshToken);
    calls := calls + [RefreshCall(refreshRequest)];
    var refreshed := refresh(refreshRequest);
    if refreshed.Failure? {
      result := Failure(refreshed.error);
      return;
    }
    user.accessToken := refreshed.value.accessToken;
    user.refreshToken := refreshed.value.refreshToken;
    user.expiresAt := now + WrapInt64(refreshed.value.expiresIn * Second);
    request := SendMessageRequest(user.id, user.accessToken, broadcasterId, message);
    calls := calls + [SendCall(request)];
    result := send(request);
  }

  /** `TwitchApiCaller.GetUser`: exactly the client's lookup. */
  function GetUser(api: Api, transport: HttpRequest -> HttpOutcome<seq<TwitchUser>>, accessToken: string, username: string): (r: Result<TwitchUser, ApiError>)
    ensures r == TwitchApi.GetUser(api, transport, accessToken, username)
  {
    TwitchApi.GetUser(api, transport, accessToken, username)
  }

  /** `TwitchApiCaller.GetCurrentUser`: exactly the client's lookup of the token's own user. */
  function GetCurrentUser(api: Api, transport: HttpRequest -> HttpOutcome<seq<TwitchUser>>, accessToken: string): (r: Result<TwitchUser, ApiError>)
    ensures r == TwitchApi.GetCurrentUser(api, transport, accessToken)
  {
    TwitchApi.GetCurrentUser(api, transport, accessToken)
  }

  // ----- The cases of the refresh-and-retry logic -----

  /** A first send that succeeds, or fails other than unauthorised, is returned as-is with no refresh. */
  lemma NoRefreshUnlessUnauthorized(
    api: Api, senderId: string, creds: Credentials, broadcasterId: string, message: string, now: int,
    send: HttpRequest -> Result<SendMessageResponse, ApiError>,
    refresh: HttpRequest -> Result<RefreshAccessTokenResponse, ApiError>)
    requires var r := send(SendMessageRequest(senderId, creds.accessToken, broadcasterId, message));
      r.Success? || r.error != Unauthorized
    ensures var run := SendWithRefresh(api, senderId, creds, broadcasterId, message, now, send, refresh);
      run.result == send(SendMessageRequest(senderId, creds.accessToken, broadcasterId, message))
      && run.credentials == creds && |run.calls| == 1
  {
  }

  /** A failed refresh is returned, with the credentials unchanged and no second send. */
  lemma FailedRefreshStops(
    api: Api, senderId: string, creds: Credentials, broadcasterId: string, message: string, now: int,
    send: HttpRequest -> Result<SendMessageResponse, ApiError>,
    refresh: HttpRequest -> Result<RefreshAccessTokenResponse, ApiError>)
    requires send(SendMessageRequest(senderId, creds.accessToken, broadcasterId, message)) == Failure(Unauthorized)
    requires refresh(RefreshAccessTokenRequest(api, creds.refreshToken)).Failure?
    ensures var run := SendWithRefresh(api, senderId, creds, broadcasterId, message, now, send, refresh);
      run.result == Failure(refresh(RefreshAccessTokenRequest(api, creds.refreshToken)).error)
      && run.credentials == creds && |run.calls| == 2
  {
  }

  /**
   * After an unauthorised send and a successful refresh, the credentials are
   * the refreshed ones, the retry carries the new access token, and its
   * result is returned as-is, even if it is unauthorised again.
   */
  lemma RetryUsesRefreshedToken(
    api: Api, senderId: string, creds: Credentials, broadcasterId: string, message: string, now: int,
    send: HttpRequest -> Result<SendMessageResponse, ApiError>,
    refresh: HttpRequest -> Result<RefreshAccessTokenResponse, ApiError>)
    requires send(SendMessageRequest(senderId, creds.accessToken, broadcasterId, message)) == Failure(Unauthorized)
    requires refresh(RefreshAccessTokenRequest(api, creds.refreshToken)).Success?
    ensures var token := refresh(RefreshAccessTokenRequest(api, creds.refreshToken)).value;
      var run := SendWithRefresh(api, senderId, creds, broadcasterId, message, now, send, refresh);
      && run.credentials == Credentials(token.accessToken, token.refreshToken, ExpiryAfter(now, token.expiresIn))
      && |run.calls| == 3
      && run.calls[2] == SendCall(SendMessageRequest(senderId, token.accessToken, broadcasterId, message))
      && run.result == send(SendMessageRequest(senderId, token.accessToken, broadcasterId, message))
  {
  }

  // ----- Composed with the client as written -----

  /**
   * With the client's replies classified as written, `SendMessage` returns an
   * error whatever the Twitch endpoints answer.
   */
  lemma AsWrittenSendAlwaysFails(
    api: Api, senderId: string, creds: Credentials, broadcasterId: string, message: string, now: int,
    sendTransport: HttpRequest -> HttpOutcome<seq<SendMessageResponse>>,
    refreshTransport: HttpRequest -> HttpOutcome<RefreshAccessTokenResponse>,
    send: HttpRequest -> Result<SendMessageResponse, ApiError>,
    refresh: HttpRequest -> Result<RefreshAccessTokenResponse, ApiError>)
    requires forall req :: send(req) == SendMessageResult(sendTransport(req))
    requires forall req :: refresh(req) == RefreshAccessTokenResult(refreshTransport(req))
    ensures SendWithRefresh(api, senderId, creds, broadcasterId, message, now, send, refresh).result.Failure?
    ensures SendWithRefresh(api, senderId, creds, broadcasterId, message, now, send, refresh).credentials == creds
  {
    var run := SendWithRefresh(api, senderId, creds, broadcasterId, message, now, send, refresh);
    var last := run.calls[|run.calls| - 1];
    if last.SendCall? {
      assert run.result == SendMessageResult(sendTransport(last.request));
    }
  }

  /**
   * With the intended classification, an expired token is recovered: a 401,
   * then a refreshed token, then a 200 for the retried send gives the sent
   * message and leaves the refreshed credentials in the user record.
   */
  lemma IntendedRefreshRecovers(
    api: Api, senderId: string, creds: Credentials, broadcasterId: string, message: string, now: int,
    sendTransport: HttpRequest -> HttpOutcome<seq<SendMessageResponse>>,
    refreshTransport: HttpRequest -> HttpOutcome<RefreshAccessTokenResponse>,
    token: RefreshAccessTokenResponse, sent: SendMessageResponse)
    requires sendTransport(SendMessageRequest(senderId, creds.accessToken, broadcasterId, message)).Reply?
    requires sendTransport(SendMessageRequest(senderId, creds.accessToken, broadcasterId, message)).status == StatusUnauthorized
    requires refreshTransport(RefreshAccessTokenRequest(api, creds.refreshToken)) == Reply(StatusOK, Some(token))
    requires sendTransport(SendMessageRequest(senderId, token.accessToken, broadcasterId, message)) == Reply(StatusOK, Some([sent]))
    ensures var run := SendWithRefresh(api, senderId, creds, broadcasterId, message, now,
      req => SendMessageResultIntended(sendTransport(req)),
      req => RefreshAccessTokenResultIntended(refreshTransport(req)));
      run.result == Success(sent) && run.credentials == Refreshed(token, now) && |run.calls| == 3
  {
  }
}
