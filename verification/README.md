# twitch-chatgpt-bot, modelled in Dafny

A model of the core of a Twitch chat bot. The bot logs into Twitch IRC and
keeps an in-memory whitelist of authorised users. It turns the IRC
private-message events into chat messages and filters them for trigger
messages: an allowed message type, and text beginning with `!!!`. It then
serves the trigger messages of known users in their own channels. To talk to
Twitch it uses a small Helix client, with a send that refreshes the user's
OAuth token once on "unauthorised", and it has an OpenAI completion client.
The admin web side adds three pieces:

- an OAuth 2.0 `state` anti-CSRF check (section 10.12 of RFC 6749);
- HTTP Basic credentials (section 2 of RFC 7617);
- two forms that trim and validate a name.

Modules, one per source file:

| module | file | form |
|---|---|---|
| `Common` | — | `Option`, `Result`, `uint8` |
| `ChatModel` | `chat_model.dfy` | `Message`, `Channel` as datatypes; `User` as a class (its credentials are overwritten in place) |
| `Pipelines` | `pipelines.dfy` | the filter and serve goroutine loops as methods over a finite trace of `select` outcomes |
| `TwitchApi` | `twitch_api.dfy` | requests as values; replies classified by functions of the HTTP outcome; the transport as a function parameter |
| `Irc` | `irc.dfy` | the message-type mapping and the event conversion |
| `TwitchApiCaller` | `twitch_api_caller.dfy` | refresh-and-retry send, as a method on a `User` proved against a specification function |
| `BotApp` | `app.dfy` | `App` as a class holding the two whitelist maps and the log of IRC client calls |
| `ChatGpt` | `chatgpt.dfy` | completion request and answer selection |
| `WebForms` | `web_forms.dfy` | the two form classes, trimmed with `strings.TrimSpace` |
| `OAuth` | `oauth.dfy` | state generation (hex of 255 bytes) and the callback's state check |
| `Middleware` | `middleware.dfy` | the Basic-auth credential predicate |

Where the code and its documented design disagree, the model follows the code:

- **Trigger text.** The serve loop prints a trigger message's text with the `!!!` prefix still on it, and calls no completion API.
- **Whitelist updates.** Adding a user whose name or id is already in the whitelist replaces the earlier entry; the last write wins.
- **Locking.** The whitelist maps are updated without any lock.

## Model

| member | source | states |
|---|---|---|
| ChatModel.MessageTypes | internal/chat/model.go:32-49 | the sixteen message-type constants take the consecutive values 0 to 15 in declaration order |
| ChatModel.MessageTypesDistinct | internal/chat/model.go:32-49 | no two message-type constants share a value, and `Unset` is 0 |
| ChatModel.User.constructor | internal/chat/model.go:23-30 | a user record holds exactly the given id, name, tokens and times |
| Pipelines.Filtered | internal/chat/pipelines.go:21-27 | the forwarded messages are at most the received ones; each was received and has an allowed type and the `!!!` prefix |
| Pipelines.Delivered | internal/chat/pipelines.go:17-24 | a loop receives at most one message per `select` outcome |
| Pipelines.ClosedStream | internal/twitch/irc.go:42-49 | a fully drained input stream yields one receive per message, then the close |
| Pipelines.FilterMessageStream | internal/chat/pipelines.go:12-33 | the output is, in order, exactly the received messages that have an allowed type and the prefix, up to the first context cancellation or input close; the end state names which one stopped the loop |
| Pipelines.Printed | internal/chat/pipelines.go:44-49 | the printed lines number at most the messages received |
| Pipelines.ServeMessageStream | internal/chat/pipelines.go:38-53 | the printed lines are exactly the texts of the received messages whose sender is found and whose channel is that sender's, up to cancellation; a closed input stream ends the loop in a nil-message panic |
| Pipelines.FilteredSnoc | internal/chat/pipelines.go:25-27 | one more received message is appended to the output exactly when it has an allowed type and the prefix |
| Pipelines.PrintedSnoc | internal/chat/pipelines.go:45-49 | one more received message adds its text exactly when its sender is found and the channel is the sender's |
| Pipelines.FilteredConcat | internal/chat/pipelines.go:17-29 | filtering a stream piecewise equals filtering it whole |
| Pipelines.FilteredCount | internal/chat/pipelines.go:25-27 | a forwarded message occurs in the output as often as in the input; any other occurs not at all |
| Pipelines.FilteredIdempotent | internal/chat/pipelines.go:25 | filtering the filter's output again changes nothing |
| Pipelines.NothingAfterStop | internal/chat/pipelines.go:19-24 | no message received after a cancellation or close is forwarded |
| Pipelines.ClosedStreamDelivers | internal/chat/pipelines.go:21-24 | a drained stream delivers all its messages and ends the filter by input close |
| Pipelines.PrintedConcat | internal/chat/pipelines.go:40-50 | serving a stream piecewise prints what serving it whole prints |
| Pipelines.PrintedComesFromAccepted | internal/chat/pipelines.go:45-49 | every printed line is the text of a message whose sender exists and whose channel belongs to that sender |
| Pipelines.RejectedPrintsNothing | internal/chat/pipelines.go:46-47 | an unknown sender or a foreign channel adds no line |
| Pipelines.ServedLinesKeepPrefix | internal/chat/pipelines.go:25-49 | a line printed downstream of the filter still begins with `!!!`, the prefix is not stripped |
| TwitchApi.RefreshAccessTokenRequest | internal/twitch/api.go:41-46 | the token request is a POST to the token endpoint whose form carries the client id, the refresh token as both `client_secret` and `refresh_token`, and `grant_type=refresh_token` |
| TwitchApi.RefreshAccessTokenResult | internal/twitch/api.go:50-70 | as written, no reply yields a token: any status other than 401 is reported as unauthorised, and a 401 as a non-ok response |
| TwitchApi.RefreshAccessTokenResultIntended | internal/twitch/api.go:54-70 | with the comparison corrected, a token is returned exactly for a 200 reply that decodes; a 401 is unauthorised |
| TwitchApi.RefreshAccessToken | internal/twitch/api.go:40-71 | a refresh as written always fails, whatever the endpoint answers |
| TwitchApi.GetUserRequest | internal/twitch/api.go:78-92 | the lookup is a GET of the users endpoint with a `login` parameter only for a non-empty name, a bearer token and the client id |
| TwitchApi.GetUserResult | internal/twitch/api.go:93-115 | success exactly for a 200 reply that decodes to a non-empty list, whose first user is returned; 401 is unauthorised, any other status an invalid status, an empty list "no users found" |
| TwitchApi.GetUser | internal/twitch/api.go:77-116 | a returned user is the first of a 200 reply to the built request; a 401 reply is unauthorised |
| TwitchApi.GetCurrentUser | internal/twitch/api.go:73-75 | the current user is the lookup with an empty name |
| TwitchApi.SendMessageRequest | internal/twitch/api.go:130-144 | the send is a GET of the chat-messages endpoint with a JSON body of broadcaster, sender and message, and a bearer token |
| TwitchApi.SendMessageResult | internal/twitch/api.go:145-167 | as written, no reply yields a sent message: any status other than 401 is reported as unauthorised, and a 401 as an invalid status |
| TwitchApi.SendMessageResultIntended | internal/twitch/api.go:150-167 | with the comparison corrected, a sent message is returned exactly for a 200 reply with non-empty data |
| TwitchApi.SendMessage | internal/twitch/api.go:129-168 | a send as written always fails, whatever the endpoint answers |
| TwitchApi.RefreshRejectsSuccess | internal/twitch/api.go:54-56 | a 200 reply with a token is reported as unauthorised as written, and returns the token once corrected |
| TwitchApi.SendMessageRejectsSuccess | internal/twitch/api.go:150-152 | a 200 reply with a sent message is reported as unauthorised as written, and returns it once corrected |
| TwitchApi.IntendedSendMatchesGetUser | internal/twitch/api.go:98-167 | once corrected, the send classifies statuses and empty data as the user lookup does |
| Irc.MapToOurMessageType | internal/twitch/irc.go:55-92 | every type maps below 16; exactly UNSET and unlisted types map to `Unset` |
| Irc.IrcTypeOf | internal/twitch/irc.go:56-86 | the reverse reading of the switch yields a listed type exactly for the constants 1 to 15 |
| Irc.MapRoundTrip | internal/twitch/irc.go:56-86 | mapping a listed type and reading it back gives the type |
| Irc.ReadBackRoundTrip | internal/chat/model.go:32-49 | reading a constant back and mapping it gives the constant |
| Irc.MapDistinct | internal/twitch/irc.go:56-86 | distinct listed types map to distinct constants |
| Irc.ToChatMessage | internal/twitch/irc.go:28-34 | sender name, channel, text and time are copied, and the type is mapped |
| Irc.MessageStream | internal/twitch/irc.go:23-41 | one chat message per event, in event order |
| Irc.PrivMsgOnlyFromPrivmsg | internal/twitch/irc.go:57-58 | a message has type `PrivMsg` exactly when its event was a PRIVMSG |
| TwitchApiCaller.ExpiryAfter | internal/bot/twitch_api_caller.go:45 | the new expiry is now plus `expires_in` seconds while that fits in an int64 duration |
| TwitchApiCaller.Refreshed | internal/bot/twitch_api_caller.go:43-45 | a refresh overwrites the access token, the refresh token and the expiry |
| TwitchApiCaller.SendWithRefresh | internal/bot/twitch_api_caller.go:31-48 | one to three calls, starting with a send with the current token; a refresh only as the second call; credentials change only through a successful refresh followed by a retry; the result is the last send's or the refresh's error |
| TwitchApiCaller.SendMessage | internal/bot/twitch_api_caller.go:31-48 | the method's result, calls and the user's new credentials are those of the specification; id, name and creation time are kept |
| TwitchApiCaller.GetUser | internal/bot/twitch_api_caller.go:23-25 | the lookup is passed through unchanged |
| TwitchApiCaller.GetCurrentUser | internal/bot/twitch_api_caller.go:27-29 | the current-user lookup is passed through unchanged |
| TwitchApiCaller.NoRefreshUnlessUnauthorized | internal/bot/twitch_api_caller.go:32-38 | a success or an error other than unauthorised is returned after one call, credentials untouched |
| TwitchApiCaller.FailedRefreshStops | internal/bot/twitch_api_caller.go:39-42 | a failed refresh is returned after two calls, credentials untouched |
| TwitchApiCaller.RetryUsesRefreshedToken | internal/bot/twitch_api_caller.go:43-47 | after a successful refresh the retry carries the new token and its result is returned as-is |
| TwitchApiCaller.AsWrittenSendAlwaysFails | internal/bot/twitch_api_caller.go:31-48 | composed with the client as written, a send always fails and the credentials are never refreshed |
| TwitchApiCaller.IntendedRefreshRecovers | internal/bot/twitch_api_caller.go:31-48 | composed with the corrected client, a 401 followed by a refreshed token and a 200 returns the sent message and stores the refreshed credentials |
| BotApp.JoinCalls | internal/bot/app.go:48-50 | one join per stored channel, with its name, in list order |
| BotApp.App.constructor | internal/bot/app.go:11-16 | a new app has empty whitelists and has made no IRC calls |
| BotApp.App.JoinChannel | internal/bot/app.go:18-20 | the join is passed to the IRC client; the whitelists are untouched |
| BotApp.App.Depart | internal/bot/app.go:22-24 | the part is passed to the IRC client; the whitelists are untouched |
| BotApp.App.AddUsername | internal/bot/app.go:26-29 | the user is stored under its name and its id, replacing earlier entries, and each map keeps every user under its own key |
| BotApp.App.RemoveUsername | internal/bot/app.go:31-34 | the entries under the user's name and id are deleted, and nothing else changes |
| BotApp.App.AddAll | internal/bot/app.go:41-43 | every stored user is added in list order, so each map becomes the seeded map, and no IRC call is made |
| BotApp.App.JoinAll | internal/bot/app.go:48-50 | one join per stored channel is made in list order, and the whitelists are untouched |
| BotApp.App.StartMessagePipeline | internal/bot/app.go:36-56 | a repository error is returned at once; otherwise every stored user is whitelisted, every stored channel joined in order, only `PrivMsg` is requested, and the forwarded messages are the filter of the converted events |
| BotApp.SeededContainsAll | internal/bot/app.go:41-43 | after seeding, every loaded user's key is present |
| BotApp.SeededLastWriteWins | internal/bot/app.go:26-43 | a loaded user not followed by one with the same key is the entry under its key |
| BotApp.SeededKeepsOthers | internal/bot/app.go:41-43 | seeding leaves keys that no loaded user has as they were |
| BotApp.AddThenRemoveRestores | internal/bot/app.go:26-34 | adding then removing a user whose keys were absent restores both maps |
| ChatGpt.CompletionsRequest | internal/chatgpt/api.go:43-58 | the request is a JSON POST with a bearer key and the configured model, carrying the system message first and the query second |
| ChatGpt.CompletionsResult | internal/chatgpt/api.go:59-83 | no error exactly for a 200 reply that decodes to at least one choice and whose body closes; the answer is the first choice's content; a failed close overrides the error and keeps the answer |
| ChatGpt.Completions | internal/chatgpt/api.go:42-83 | an answer without error is the first choice of a 200 reply to the built request |
| ChatGpt.RequestsIndependent | internal/chatgpt/api.go:43-47 | the request depends on the query alone, and different queries give different requests |
| WebForms.TrimLeft | cmd/web/model.go:19 | the leading white space is removed, and only white space |
| WebForms.TrimRight | cmd/web/model.go:19 | the trailing white space is removed, and only white space |
| WebForms.TrimSpace | cmd/web/model.go:19 | the trimmed name neither begins nor ends with white space |
| WebForms.TrimSpaceIsSlice | cmd/web/model.go:19 | the trimmed name is the slice of the original that starts after its leading white space |
| WebForms.TrimSpaceRemovesOnlySpace | cmd/web/model.go:19 | everything cut away before and after the trimmed name is white space |
| WebForms.TrimmedIsFixed | cmd/web/model.go:18-20 | a name without surrounding white space is unchanged by trimming |
| WebForms.TrimIdempotent | cmd/web/model.go:18-20 | trimming twice is trimming once |
| WebForms.BlankTrimsToEmpty | cmd/web/model.go:18-20 | a name of only white space trims to the empty name |
| WebForms.ValidationErrors | cmd/web/model.go:22-29 | no errors exactly for a non-empty name; the empty name gets exactly "Name is required" |
| WebForms.BlankNameRejected | cmd/web/model.go:18-29 | a blank name fails validation once trimmed |
| WebForms.AddChannel.Trim | cmd/web/model.go:18-20 | the name is replaced by its trimmed form; the errors are kept |
| WebForms.AddChannel.Validate | cmd/web/model.go:22-29 | the errors recorded are those of the name, and the answer is true exactly when the name is non-empty |
| WebForms.AddUsername.Trim | cmd/web/model.go:36-38 | the name is replaced by its trimmed form; the errors are kept |
| WebForms.AddUsername.Validate | cmd/web/model.go:40-47 | the errors recorded are those of the name, and the answer is true exactly when the name is non-empty |
| OAuth.HexEncode | cmd/web/oauth_routes.go:33 | two lower-case hex digits per byte |
| OAuth.HexDecode | cmd/web/oauth_routes.go:33 | a decoded string has half as many bytes as digits; an odd length never decodes |
| OAuth.HexRoundTrip | cmd/web/oauth_routes.go:33 | decoding the encoding gives back the bytes |
| OAuth.HexEncodeInjective | cmd/web/oauth_routes.go:28-33 | different random bytes give different states |
| OAuth.NewState | cmd/web/oauth_routes.go:28-33 | the state is 510 hex characters that decode to the 255 random bytes |
| OAuth.CheckState | cmd/web/oauth_routes.go:58-66 | the check passes exactly for a non-empty state equal to the last flashed challenge; an empty state or no challenge is "missing"; the mismatch message names the submitted state as expected and the first challenge as received |
| OAuth.EarlierChallengesIgnored | cmd/web/oauth_routes.go:58-63 | challenges flashed before the last do not affect the verdict |
| OAuth.GeneratedStatePasses | cmd/web/oauth_routes.go:28-63 | a state generated by the add-user route and flashed last passes the callback's check |
| OAuth.InvalidStateMessageMisreports | cmd/web/oauth_routes.go:61-62 | the message as written can call a state "expected" that is not the challenge |
| OAuth.CheckStateIntended | cmd/web/oauth_routes.go:58-63 | with the message corrected, the verdict is unchanged and a mismatch names the last challenge as expected and the submitted state as received |
| Middleware.ConstantTimeCompare | cmd/web/middleware.go:40-41 | the comparison yields 0 or 1, and 1 exactly for equal strings |
| Middleware.BasicAuthValidator | cmd/web/middleware.go:39-45 | credentials are accepted exactly when both the username and the password equal the configured ones, and no error is ever returned |
| Middleware.WrongUsernameRejected | cmd/web/middleware.go:40-41 | a wrong username is rejected whatever the password |
| Middleware.WrongPasswordRejected | cmd/web/middleware.go:41 | a wrong password is rejected whatever the username |

## Left out

- Goroutines, channels and cancellation. Each loop is modelled as one finite sequence of `select` outcomes, with no interleaving between the stages. The IRC callback bridge in `NewMessagePipeline`, which connects and closes the stream, is modelled only as its conversion of events into a stream.
- Wiring of the serve stage in `StartMessagePipeline`. The call at internal/bot/app.go:57 passes one argument where `ServeMessageStream` takes two functions, so it does not type-check. The model stops after the filter; the serve stage is modelled on its own.
- The whitelist's element type. internal/bot/app.go refers to `chat.Username` with fields `Name` and `ID`, and to a repository method `GetUsernames`. Neither is declared in internal/chat/model.go. The whitelist holds `User` records keyed by `username` and `id`, and the repository's answers are parameters.
- Repository I/O, the IRC client, the HTTP transport, JSON encoding and decoding. Each is a parameter or a value: decoding failure is a `None` body, and transport failure is a constructor.
- The OpenAI reply's choice with a null `message`. Go would panic on the nil dereference at internal/chatgpt/api.go:82; the model's choices always carry a message.
- ChatGpt.CompletionsResult: the body read error at internal/chatgpt/api.go:72 is overwritten by the decode at line 74, so it is not modelled separately.
- TwitchApiCaller.ExpiryAfter: `time.Time.Add` saturation and the monotonic clock are not modelled; times are integer nanoseconds, and only the int64 `Duration` product wraps.
- The random source and the session store of the OAuth routes. The 255 random bytes are a parameter; a `rand.Read` failure, the flash storage, the redirect, the code exchange and the user lookup after a passed check are not modelled.
- Middleware.ConstantTimeCompare: compares characters rather than UTF-8 bytes, and the timing property is not modelled; the equality verdict is the same.
- WebForms.TrimSpace: works on characters rather than UTF-8 bytes, so invalid UTF-8 is not modelled.
- The request logger and the panic-recovery and error-reporting middlewares. They only log and report, and do not change what a handler computes.

## Findings

| source | as written | input that shows it | evidently intended | confidence | as-written member | corrected member |
|---|---|---|---|---|---|---|
| internal/twitch/api.go:54 | `if resp.StatusCode != 401` returns `ErrUnauthorized`, so every reply but a 401 is "unauthorised" and a 401 falls through to "non ok" | a 200 reply carrying a valid token gives `ErrUnauthorized` | `== 401` is unauthorised; a 200 with a token succeeds | not executed | TwitchApi.RefreshAccessTokenResult (shown by TwitchApi.RefreshRejectsSuccess) | TwitchApi.RefreshAccessTokenResultIntended |
| internal/twitch/api.go:150 | `if resp.StatusCode != http.StatusUnauthorized` returns `ErrUnauthorized`, so no send can succeed, and the caller's refresh after it can never succeed either | a 200 reply with one sent message gives `ErrUnauthorized` | `== http.StatusUnauthorized` is unauthorised; a 200 with data succeeds | not executed | TwitchApi.SendMessageResult (shown by TwitchApi.SendMessageRejectsSuccess and TwitchApiCaller.AsWrittenSendAlwaysFails) | TwitchApi.SendMessageResultIntended (used by TwitchApiCaller.IntendedRefreshRecovers) |
| cmd/web/oauth_routes.go:62 | the mismatch message prints the submitted state as "expected" and the first flashed challenge as "got" | state `c` with challenges `a`, `b` reports expected `c`, got `a` | expected is the last challenge, got is the submitted state | not executed | OAuth.CheckState (shown by OAuth.InvalidStateMessageMisreports) | OAuth.CheckStateIntended |
