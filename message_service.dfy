/** Server side, service layer: each send operation makes one call of the
    push-message sender and turns its outcome into a result value. A
    messaging exception becomes a failure; any other exception is not caught
    and reaches the caller. */
module MessageService {

  /** The notification content of a request. */
  datatype MessageEntity = MessageEntity(title: string, body: string)

  /** The recipient of one send: a topic-condition expression (passed on
      without parsing), a topic name, or a registration token. */
  datatype Selector = Condition(expression: string) | Topic(name: string) | Token(token: string)

  /** One call of the sender, with the arguments it was given. */
  datatype SenderCall = SenderCall(selector: Selector, message: MessageEntity)

  /** What one sender call ends in: a message id, a messaging exception, or
      any other exception, each with its message text. */
  datatype SendOutcome = Ok(id: string) | FcmErr(msg: string) | OtherErr(msg: string)

  /** The messaging exception a failure carries. */
  datatype MessagingException = MessagingException(message: string)

  /** The result a service operation returns. */
  datatype SendResult = Success(value: string) | Failure(exception: MessagingException)

  /** How a call ends: it returns a value, or an exception it did not catch
      leaves it, carrying that exception's message. */
  datatype Completion<T> = Returned(value: T) | Thrown(message: string)

  /** One operation as observed from outside: the sender calls it made, in
      order, and how it ended. */
  datatype Invocation<T> = Invocation(calls: seq<SenderCall>, completion: Completion<T>)

  /** The sender: the outcome the provider gives each call. */
  type Sender = SenderCall -> SendOutcome

  /** `completion` is what the try/catch around one sender call must make of
      the sender's `outcome`: a returned id becomes a success with that id, a
      messaging exception a failure carrying it, and any other exception
      leaves the call unchanged. */
  ghost predicate Normalised(outcome: SendOutcome, completion: Completion<SendResult>)
  {
    (forall id :: completion == Returned(Success(id)) <==> outcome == Ok(id)) &&
    (forall m :: completion == Returned(Failure(MessagingException(m))) <==> outcome == FcmErr(m)) &&
    (forall m :: completion == Thrown(m) <==> outcome == OtherErr(m))
  }

  /** The conversion leaves no choice: for each outcome exactly one
      completion is allowed. */
  lemma NormalisedUnique(outcome: SendOutcome, c1: Completion<SendResult>, c2: Completion<SendResult>)
    requires Normalised(outcome, c1) && Normalised(outcome, c2)
    ensures c1 == c2
  {
  }

  /** `inv` made exactly one sender call, the given one, and ended as the
      sender's outcome for that call demands. */
  ghost predicate SendsOnce(sender: Sender, call: SenderCall, inv: Invocation<SendResult>)
  {
    inv.calls == [call] && Normalised(sender(call), inv.completion)
  }

  /** The try/catch shared by the three operations: one sender call, whose id
      becomes a success and whose messaging exception becomes a failure; no
      other exception is caught and none is retried. */
  function SendOnce(sender: Sender, call: SenderCall): (inv: Invocation<SendResult>)
    ensures SendsOnce(sender, call, inv)
  {
    var completion :=
      match sender(call)
      case Ok(id) => Returned(Success(id))
      case FcmErr(msg) => Returned(Failure(MessagingException(msg)))
      case OtherErr(msg) => Thrown(msg);
    Invocation([call], completion)
  }

  /** Sends to the devices subscribed to topics matching `topicCondition`. */
  function SendMessageToTopicCondition(sender: Sender, topicCondition: string, messageEntity: MessageEntity)
    : (inv: Invocation<SendResult>)
    ensures SendsOnce(sender, SenderCall(Condition(topicCondition), messageEntity), inv)
  {
    SendOnce(sender, SenderCall(Condition(topicCondition), messageEntity))
  }

  /** Sends to the devices subscribed to `topicName`. */
  function SendMessageToTopic(sender: Sender, topicName: string, messageEntity: MessageEntity)
    : (inv: Invocation<SendResult>)
    ensures SendsOnce(sender, SenderCall(Topic(topicName), messageEntity), inv)
  {
    SendOnce(sender, SenderCall(Topic(topicName), messageEntity))
  }

  /** Sends to the one device holding `registrationToken`. */
  function SendMessageToRegistrationToken(sender: Sender, registrationToken: string, message: MessageEntity)
    : (inv: Invocation<SendResult>)
    ensures SendsOnce(sender, SenderCall(Token(registrationToken), message), inv)
  {
    SendOnce(sender, SenderCall(Token(registrationToken), message))
  }
}
