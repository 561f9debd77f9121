/**
 * The Twitch Helix client: the shape of each request, and how each call turns
 * the HTTP reply (status code and JSON-decoded body) into a result or an error.
 *
 * The HTTP transport is a parameter: a function from the request to what the
 * client reported for it. Request-construction errors are impossible for the
 * constant URLs and string fields used here and are not modelled.
 */
module TwitchApi {
  import opened Common

  datatype TwitchUser = TwitchUser(id: string, login: string, displayName: string, profileImageUrl: string)

  datatype RefreshAccessTokenResponse = RefreshAccessTokenResponse(accessToken: string, refreshToken: string, expiresIn: int)

  datatype SendMessageResponse = SendMessageResponse(messageId: string, isSent: bool)

  /** The errors the client returns. `Unauthorized` is the sentinel `ErrUnauthorized`. */
  datatype ApiError =
    | Unauthorized
    | InvalidStatus(code: int)      // "twitch: invalid status code: %d"
    | NonOkResponse(status: int)    // "refresh access token: non ok response ..."
    | NoUsersFound                  // "twitch: no users found"
    | TransportError                // the HTTP client's Do failed
    | DecodeError                   // the body is not the expected JSON

  /** What the HTTP client reports: a transport failure, or a status with the decoded body (None when decoding failed). */
  datatype HttpOutcome<T> = TransportFailure | Reply(status: int, body: Option<T>)

  /** An outgoing request: method, URL, query parameters, headers, form fields and JSON body fields. */
  datatype HttpRequest = HttpRequest(
    httpMethod: string,
    url: string,
    query: map<string, string>,
    headers: map<string, string>,
    form: map<string, string>,
    json: map<string, string>)

  /** The client's configuration. */
  datatype Api = Api(clientId: string)

  const StatusOK := 200
  const StatusUnauthorized := 401

  const TokenUrl := "https://id.twitch.tv/oauth2/token"
  const UsersUrl := "https://api.twitch.tv/helix/users"
  const ChatMessagesUrl := "https://api.twitch.tv/helix/chat/messages"

  // ----- RefreshAccessToken -----

  /** The token-refresh request: a form with the client id, grant type, and the refresh token twice. */
  function RefreshAccessTokenRequest(api: Api, refreshToken: string): (r: HttpRequest)
    ensures r.httpMethod == "POST" && r.url == TokenUrl
    ensures r.form.Keys == {"client_id", "client_secret", "grant_type", "refresh_token"}
    ensures r.form["grant_type"] == "refresh_token" && r.form["client_id"] == api.clientId
    ensures r.form["refresh_token"] == refreshToken && r.form["client_secret"] == refreshToken
    ensures r.headers == map[] && r.query == map[] && r.json == map[]
  {
    HttpRequest("POST", TokenUrl, map[], map[],
      map["client_id" := api.clientId, "client_secret" := refreshToken,
          "grant_type" := "refresh_token", "refresh_token" := refreshToken],
      map[])
  }

  /**
   * The classification of the refresh reply as written: every status other
   * than 401 is reported as `ErrUnauthorized`, and 401 as a non-ok response,
   * so no reply ever yields a token.
   */
  function RefreshAccessTokenResult(resp: HttpOutcome<RefreshAccessTokenResponse>): (r: Result<RefreshAccessTokenResponse, ApiError>)
    ensures r.Failure?
    ensures resp.TransportFailure? ==> r.error == TransportError
    ensures resp.Reply? && resp.status != StatusUnauthorized ==> r.error == Unauthorized
    ensures resp.Reply? && resp.status == StatusUnauthorized ==> r.error == NonOkResponse(StatusUnauthorized)
  {
    match resp
    case TransportFailure => Failure(TransportError)
    case Reply(status, body) =>
      if status != StatusUnauthorized then Failure(Unauthorized)
      // Here the status is 401, so the `!= 200` test always fires.
      else if status != StatusOK then Failure(NonOkResponse(status))
      else match body
        case None => Failure(DecodeError)
        case Some(token) => Success(token)
  }

  /** The classification the refresh was evidently meant to have: 401 is unauthorised, other non-200 statuses fail, 200 yields the token. */
  function RefreshAccessTokenResultIntended(resp: HttpOutcome<RefreshAccessTokenResponse>): (r: Result<RefreshAccessTokenResponse, ApiError>)
    ensures r.Success? <==> resp.Reply? && resp.status == StatusOK && resp.body.Some?
    ensures r.Success? ==> r.value == resp.body.value
    ensures resp.Reply? && resp.status == StatusUnauthorized ==> r == Failure(Unauthorized)
    ensures resp.Reply? && resp.status != StatusUnauthorized && resp.status != StatusOK ==> r == Failure(NonOkResponse(resp.status))
  {
    match resp
    case TransportFailure => Failure(TransportError)
    case Reply(status, body) =>
      if status == StatusUnauthorized then Failure(Unauthorized)
      else if status != StatusOK then Failure(NonOkResponse(status))
      else match body
        case None => Failure(DecodeError)
        case Some(token) => Success(token)
  }

  /** `API.RefreshAccessToken`: send the refresh form and classify the reply. */
  function RefreshAccessToken(api: Api, transport: HttpRequest -> HttpOutcome<RefreshAccessTokenResponse>, refreshToken: string): (r: Result<RefreshAccessTokenResponse, ApiError>)
    ensures r.Failure?
  {
    RefreshAccessTokenResult(transport(RefreshAccessTokenRequest(api, refreshToken)))
  }

  // ----- GetUser / GetCurrentUser -----

  /** The user-lookup request: the `login` query parameter only for a non-empty username. */
  function GetUserRequest(api: Api, accessToken: string, username: string): (r: HttpRequest)
    ensures r.httpMethod == "GET" && r.url == UsersUrl
    ensures username != "" ==> r.query == map["login" := username]
    ensures username == "" ==> r.query == map[]
    ensures r.headers == map["Authorization" := "Bearer " + accessToken, "Client-Id" := api.clientId]
    ensures r.form == map[] && r.json == map[]
  {
    var query := if username != "" then map["login" := username] else map[];
    HttpRequest("GET", UsersUrl, query,
      map["Authorization" := "Bearer " + accessToken, "Client-Id" := api.clientId], map[], map[])
  }

  /** The classification of the user-lookup reply: 401 is unauthorised, other non-200 fail, an empty list fails, else the first user. */
  function GetUserResult(resp: HttpOutcome<seq<TwitchUser>>): (r: Result<TwitchUser, ApiError>)
    ensures r.Success? <==> resp.Reply? && resp.status == StatusOK && resp.body.Some? && |resp.body.value| > 0
    ensures r.Success? ==> r.value == resp.body.value[0]
    ensures resp.Reply? && resp.status == StatusUnauthorized ==> r == Failure(Unauthorized)
    ensures resp.Reply? && resp.status != StatusUnauthorized && resp.status != StatusOK ==> r == Failure(InvalidStatus(resp.status))
    ensures resp == Reply(StatusOK, Some([])) ==> r == Failure(NoUsersFound)
  {
    match resp
    case TransportFailure => Failure(TransportError)
    case Reply(status, body) =>
      if status == StatusUnauthorized then Failure(Unauthorized)
      else if status != StatusOK then Failure(InvalidStatus(status))
      else match body
        case None => Failure(DecodeError)
        case Some(users) => if |users| == 0 then Failure(NoUsersFound) else Success(users[0])
  }

  /** `API.GetUser`: look up a user by login, or the token's own user when the login is empty. */
  function GetUser(api: Api, transport: HttpRequest -> HttpOutcome<seq<TwitchUser>>, accessToken: string, username: string): (r: Result<TwitchUser, ApiError>)
    ensures var resp := transport(GetUserRequest(api, accessToken, username));
      r.Success? ==> resp.Reply? && resp.status == StatusOK && resp.body.Some? && |resp.body.value| > 0 && r.value == resp.body.value[0]
    ensures var resp := transport(GetUserRequest(api, accessToken, username));
      resp.Reply? && resp.status == StatusUnauthorized ==> r == Failure(Unauthorized)
  {
    GetUserResult(transport(GetUserRequest(api, accessToken, username)))
  }

  /** `API.GetCurrentUser`: a lookup with an empty username, hence without a `login` parameter. */
  function GetCurrentUser(api: Api, transport: HttpRequest -> HttpOutcome<seq<TwitchUser>>, accessToken: string): (r: Result<TwitchUser, ApiError>)
    ensures r == GetUser(api, transport, accessToken, "")
  {
    GetUser(api, transport, accessToken, "")
  }

  // ----- SendMessage -----

  /**
   * The chat-message request: a GET carrying the JSON body (broadcaster,
   * sender, text) and the sender's access token as bearer.
   */
  function SendMessageRequest(senderId: string, accessToken: string, broadcasterId: string, message: string): (r: HttpRequest)
    ensures r.httpMethod == "GET" && r.url == ChatMessagesUrl
    ensures r.json == map["broadcaster_id" := broadcasterId, "sender_id" := senderId, "message" := message]
    ensures r.headers == map["Authorization" := "Bearer " + accessToken]
    ensures r.query == map[] && r.form == map[]
  {
    HttpRequest("GET", ChatMessagesUrl, map[], map["Authorization" := "Bearer " + accessToken], map[],
      map["broadcaster_id" := broadcasterId, "sender_id" := senderId, "message" := message])
  }

  /**
   * The classification of the send reply as written: every status other than
   * 401, 200 included, is reported as `ErrUnauthorized`, and 401 as an invalid
   * status, so no reply ever yields a sent message.
   */
  function SendMessageResult(resp: HttpOutcome<seq<SendMessageResponse>>): (r: Result<SendMessageResponse, ApiError>)
    ensures r.Failure?
    ensures resp.TransportFailure? ==> r.error == TransportError
    ensures resp.Reply? && resp.status != StatusUnauthorized ==> r.error == Unauthorized
    ensures resp.Reply? && resp.status == StatusUnauthorized ==> r.error == InvalidStatus(StatusUnauthorized)
  {
    match resp
    case TransportFailure => Failure(TransportError)
    case Reply(status, body) =>
      if status != StatusUnauthorized then Failure(Unauthorized)
      // Here the status is 401, so the following `!= 200` test always fails
      // and the decoding of the body is never reached.
      else Failure(InvalidStatus(status))
  }

  /** The classification the send was evidently meant to have, parallel to `GetUserResult`. */
  function SendMessageResultIntended(resp: HttpOutcome<seq<SendMessageResponse>>): (r: Result<SendMessageResponse, ApiError>)
    ensures r.Success? <==> resp.Reply? && resp.status == StatusOK && resp.body.Some? && |resp.body.value| > 0
    ensures r.Success? ==> r.value == resp.body.value[0]
    ensures resp.Reply? && resp.status == StatusUnauthorized ==> r == Failure(Unauthorized)
    ensures resp.Reply? && resp.status != StatusUnauthorized && resp.status != StatusOK ==> r == Failure(InvalidStatus(resp.status))
  {
    match resp
    case TransportFailure => Failure(TransportError)
    case Reply(status, body) =>
      if status == StatusUnauthorized then Failure(Unauthorized)
      else if status != StatusOK then Failure(InvalidStatus(status))
      else match body
        case None => Failure(DecodeError)
        case Some(data) => if |data| == 0 then Failure(NoUsersFound) else Success(data[0])
  }

  /** `API.SendMessage` for a user with the given id and access token. */
  function SendMessage(transport: HttpRequest -> HttpOutcome<seq<SendMessageResponse>>, senderId: string, accessToken: string, broadcasterId: string, message: string): (r: Result<SendMessageResponse, ApiError>)
    ensures r.Failure?
  {
    SendMessageResult(transport(SendMessageRequest(senderId, accessToken, broadcasterId, message)))
  }

  // ----- Discrepancies between the code and its evident intent -----

  /** A 200 reply carrying a sent message: the intended client returns it, the written one reports unauthorised. */
  lemma SendMessageRejectsSuccess(sent: SendMessageResponse)
    ensures SendMessageResult(Reply(StatusOK, Some([sent]))) == Failure(Unauthorized)
    ensures SendMessageResultIntended(Reply(StatusOK, Some([sent]))) == Success(sent)
  {
  }

  /** A 200 reply carrying a token: the intended client returns it, the written one reports unauthorised. */
  lemma RefreshRejectsSuccess(token: RefreshAccessTokenResponse)
    ensures RefreshAccessTokenResult(Reply(StatusOK, Some(token))) == Failure(Unauthorized)
    ensures RefreshAccessTokenResultIntended(Reply(StatusOK, Some(token))) == Success(token)
  {
  }

  /** The intended send classification agrees with the user lookup's on status handling. */
  lemma {:induction false} IntendedSendMatchesGetUser(resp: HttpOutcome<seq<SendMessageResponse>>, users: seq<TwitchUser>)
    requires resp.Reply? && (resp.body.Some? ==> |resp.body.value| == |users|)
    ensures SendMessageResultIntended(resp).Success? <==>
      GetUserResult(Reply(resp.status, if resp.body.Some? then Some(users) else None)).Success?
  {
  }
}
