/**
 * The completion client: the request it builds for a query, and how it
 * chooses the answer (or the error) from the reply. The client's fields are
 * set once at construction and only read afterwards, so it is a value here.
 */
module ChatGpt {
  import opened Common

  /** The client's configuration: the system prompt, the model name and the API key. */
  datatype Api = Api(systemMessage: string, model: string, apiKey: string)

  datatype RoleMessage = RoleMessage(role: string, content: string)

  /** The request: endpoint, headers and the JSON body (model and messages). */
  datatype CompletionRequest = CompletionRequest(
    httpMethod: string,
    url: string,
    contentType: string,
    authorization: string,
    model: string,
    messages: seq<RoleMessage>)

  datatype Choice = Choice(index: int, message: RoleMessage)

  /**
   * What the HTTP client reports: a transport failure, or a status with the
   * decoded choices (None when decoding failed) and whether closing the body failed.
   */
  datatype CompletionReply = TransportFailure | Reply(status: int, choices: Option<seq<Choice>>, closeFails: bool)

  datatype CompletionError = TransportError | NonOkResponse(status: int) | DecodeError | NoChoices | BodyCloseError

  /** Go's named results `(answer string, err error)`. */
  datatype Completion = Completion(answer: string, err: Option<CompletionError>)

  const CompletionsUrl := "https://api.openai.com/v1/chat/completions"
  const StatusOK := 200

  /** The request for query `q`: the configured system message first, then the query as the user message. */
  function CompletionsRequest(a: Api, q: string): (r: CompletionRequest)
    ensures |r.messages| == 2
    ensures r.messages[0] == RoleMessage("system", a.systemMessage)
    ensures r.messages[1] == RoleMessage("user", q)
    ensures r.model == a.model
    ensures r.httpMethod == "POST" && r.url == CompletionsUrl
    ensures r.contentType == "application/json" && r.authorization == "Bearer " + a.apiKey
  {
    CompletionRequest("POST", CompletionsUrl, "application/json", "Bearer " + a.apiKey, a.model,
      [RoleMessage("system", a.systemMessage), RoleMessage("user", q)])
  }

  /**
   * The answer chosen from a reply. A deferred close of the body replaces the
   * error with the close error when closing fails, keeping the answer.
   */
  function CompletionsResult(reply: CompletionReply): (r: Completion)
    ensures reply.TransportFailure? ==> r == Completion("", Some(TransportError))
    ensures reply.Reply? && reply.status != StatusOK ==> r.answer == "" && r.err.Some?
    ensures r.err.None? <==>
      reply.Reply? && reply.status == StatusOK && reply.choices.Some? && |reply.choices.value| > 0 && !reply.closeFails
    ensures reply.Reply? && reply.status == StatusOK && reply.choices == Some([]) ==>
      r.answer == "" && r.err == Some(if reply.closeFails then BodyCloseError else NoChoices)
    ensures reply.Reply? && reply.status == StatusOK && reply.choices.Some? && |reply.choices.value| > 0 ==>
      r.answer == reply.choices.value[0].message.content
  {
    match reply
    case TransportFailure => Completion("", Some(TransportError))
    case Reply(status, choices, closeFails) =>
      var returned :=
        if status != StatusOK then Completion("", Some(NonOkResponse(status)))
        else match choices
          case None => Completion("", Some(DecodeError))
          case Some(cs) =>
            if |cs| == 0 then Completion("", Some(NoChoices))
            else Completion(cs[0].message.content, None);
      if closeFails then returned.(err := Some(BodyCloseError)) else returned
  }

  /** `API.Completions`: send the request for `q` and choose the answer from the reply. */
  function Completions(a: Api, transport: CompletionRequest -> CompletionReply, q: string): (r: Completion)
    ensures var reply := transport(CompletionsRequest(a, q));
      r.err.None? ==>
        (reply.Reply? && reply.choices.Some? && |reply.choices.value| > 0
         && r.answer == reply.choices.value[0].message.content)
  {
    CompletionsResult(transport(CompletionsRequest(a, q)))
  }

  /** The request depends only on the configuration and the query: calls do not influence each other. */
  lemma {:induction false} RequestsIndependent(a: Api, q1: string, q2: string)
    ensures CompletionsRequest(a, q1).messages[0] == CompletionsRequest(a, q2).messages[0]
    ensures CompletionsRequest(a, q1) == CompletionsRequest(a, q2) <==> q1 == q2
  {
    if CompletionsRequest(a, q1) == CompletionsRequest(a, q2) {
      assert CompletionsRequest(a, q1).messages[1].content == q1;
    }
  }
}
