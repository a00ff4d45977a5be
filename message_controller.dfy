/** Server side, HTTP layer: three routes under api/v1, each bound to one kind
    of recipient and one service operation. A success becomes a 200 response
    whose body holds the message id; a failure becomes a 500 problem detail
    whose detail is the exception's message. */
module MessageController {
  import opened MessageService

  const OK: int := 200
  const INTERNAL_SERVER_ERROR: int := 500

  /** A response body: the id of the sent message, or a problem detail. */
  datatype ResponseBody = MessageResponse(messageId: string) | ProblemDetail(status: int, detail: string)

  /** An HTTP response: its status and its body. */
  datatype Response = Response(status: int, body: ResponseBody)

  /** The `getOrElse` step every route applies to the service's result. */
  function ToResponse(result: SendResult): (resp: Response)
    ensures resp.status == OK <==> result.Success?
    ensures resp.body.MessageResponse? <==> result.Success?
    ensures result.Success? ==> resp.body.messageId == result.value
    ensures result.Failure? ==>
      resp.status == INTERNAL_SERVER_ERROR &&
      resp.body == ProblemDetail(INTERNAL_SERVER_ERROR, result.exception.message)
  {
    match result
    case Success(id) => Response(OK, MessageResponse(id))
    case Failure(e) => Response(INTERNAL_SERVER_ERROR, ProblemDetail(INTERNAL_SERVER_ERROR, e.message))
  }

  /** A route's response to a request whose one sender call ended in `outcome`:
      200 with the id, 500 with the messaging exception's message, or the
      other exception leaving the route. */
  ghost predicate Answers(outcome: SendOutcome, completion: Completion<Response>)
  {
    match outcome
    case Ok(id) => completion == Returned(Response(OK, MessageResponse(id)))
    case FcmErr(m) => completion == Returned(Response(INTERNAL_SERVER_ERROR, ProblemDetail(INTERNAL_SERVER_ERROR, m)))
    case OtherErr(m) => completion == Thrown(m)
  }

  /** A route as observed from outside: the single sender call `call`, and
      the answer to its outcome. */
  ghost predicate Serves(sender: Sender, call: SenderCall, inv: Invocation<Response>)
  {
    inv.calls == [call] && Answers(sender(call), inv.completion)
  }

  /** Applies the response mapping to a returned result; an exception the
      service let through goes on unchanged. */
  function Respond(inv: Invocation<SendResult>): (out: Invocation<Response>)
    ensures out.calls == inv.calls
    ensures inv.completion.Thrown? <==> out.completion.Thrown?
    ensures inv.completion.Thrown? ==> out.completion.message == inv.completion.message
    ensures inv.completion.Returned? ==> out.completion.value == ToResponse(inv.completion.value)
  {
    match inv.completion
    case Returned(result) => Invocation(inv.calls, Returned(ToResponse(result)))
    case Thrown(m) => Invocation(inv.calls, Thrown(m))
  }

  /** Route POST api/v1/messages: the X-Topic-Condition header goes to the
      topic-condition operation. */
  function PushMessageToTopicCondition(sender: Sender, topicCondition: string, message: MessageEntity)
    : (inv: Invocation<Response>)
    ensures Serves(sender, SenderCall(Condition(topicCondition), message), inv)
  {
    var sent := SendMessageToTopicCondition(sender, topicCondition, message);
    Respond(sent)
  }

  /** Route POST api/v1/topics/{topic}/messages: the path's topic goes to the
      topic operation. */
  function PushMessageToTopic(sender: Sender, topicName: string, message: MessageEntity)
    : (inv: Invocation<Response>)
    ensures Serves(sender, SenderCall(Topic(topicName), message), inv)
  {
    var sent := SendMessageToTopic(sender, topicName, message);
    Respond(sent)
  }

  /** Route POST api/v1/tokens/{token}/messages: the path's token goes to the
      registration-token operation. */
  function PushMessageToRegistrationToken(sender: Sender, registrationToken: string, message: MessageEntity)
    : (inv: Invocation<Response>)
    ensures Serves(sender, SenderCall(Token(registrationToken), message), inv)
  {
    var sent := SendMessageToRegistrationToken(sender, registrationToken, message);
    Respond(sent)
  }

  /** No route answers 200 unless the sender returned an id: an error never
      turns into a success response. */
  lemma ErrorNeverOk(sender: Sender, call: SenderCall, inv: Invocation<Response>)
    requires Serves(sender, call, inv)
    ensures inv.completion.Returned? && inv.completion.value.status == OK <==> sender(call).Ok?
    ensures inv.completion.Returned? ==> (inv.completion.value.status == OK || inv.completion.value.status == INTERNAL_SERVER_ERROR)
  {
  }

  /** The three routes never address the same recipient: each passes its
      value only in a selector of its own kind, so no two routes ever make
      the same sender call, whatever their arguments. */
  lemma RoutesExclusive(sender: Sender, condition: string, topic: string, token: string,
                        m1: MessageEntity, m2: MessageEntity, m3: MessageEntity)
    ensures PushMessageToTopicCondition(sender, condition, m1).calls[0].selector.Condition?
    ensures PushMessageToTopic(sender, topic, m2).calls[0].selector.Topic?
    ensures PushMessageToRegistrationToken(sender, token, m3).calls[0].selector.Token?
    ensures PushMessageToTopicCondition(sender, condition, m1).calls != PushMessageToTopic(sender, topic, m2).calls
    ensures PushMessageToTopic(sender, topic, m2).calls != PushMessageToRegistrationToken(sender, token, m3).calls
    ensures PushMessageToRegistrationToken(sender, token, m3).calls != PushMessageToTopicCondition(sender, condition, m1).calls
  {
  }
}
