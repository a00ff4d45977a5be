# StockNews: subscription state and push-message dispatch

This project models the two small pieces of logic in the StockNews codelab pair.
The first is an Android client that lists stock-news categories with one switch each.
The second is a Spring server that forwards push-notification requests to Firebase Cloud Messaging.

- `subscription.dfy` (module `Subscription`) covers `MainViewModel`.
  - Its state is `UiState`, an ordered list of `StockCategory` records (category name, topic name, subscription flag).
  - `toggleSubscribed` rewrites the list. Every entry of the given topic gets the new flag, and every other entry stays as it is.
  - It then makes exactly one hook call: subscribe when the flag is set, unsubscribe otherwise.
  - The view model is a class. Its field `uiState` holds the state flow's current value. A second field, `hookCalls`, records the hook calls made so far.
  - The list rewrite is the pure function `MapToggle`.
- `message_service.dfy` (module `MessageService`) covers `MessageService`.
  - Each of its three operations makes one sender call and has no retry.
  - A returned id becomes `Success(id)`.
  - A Firebase messaging exception becomes `Failure(e)`.
  - Any other exception is not caught and leaves the operation.
  - The sender is a parameter. It maps each call (selector plus message) to an outcome: `Ok(id)`, `FcmErr(msg)` or `OtherErr(msg)`.
  - An operation's observable behaviour is an `Invocation`: the list of sender calls it made, plus how it ended (`Returned(result)` or `Thrown(msg)`).
- `message_controller.dfy` (module `MessageController`) covers `MessageController`.
  - Each of its three routes binds one selector kind to one service operation.
  - A success maps to `200 MessageResponse(id)`.
  - A failure maps to a `500` problem detail whose detail is the exception's message.

## Model

| member | source | states |
|---|---|---|
| Subscription.MapToggle | StockNewsApp/app/src/main/java/io/github/casl0/stocknews/MainViewModel.kt:60-66 | The result has the same length and order as the input, and no entry's category name or topic name changes. Every entry with the topic gets the new flag, all of them and not just the first. Entries of other topics are returned unchanged. |
| Subscription.MapToggleUnchangedIff | StockNewsApp/app/src/main/java/io/github/casl0/stocknews/MainViewModel.kt:60-67 | A toggle leaves the list unchanged if and only if every entry with that topic already had the requested flag. |
| Subscription.MapToggleNoMatch | StockNewsApp/app/src/main/java/io/github/casl0/stocknews/MainViewModel.kt:60-67 | If no entry has the topic, the state is unchanged. |
| Subscription.MapToggleLastWriteWins | StockNewsApp/app/src/main/java/io/github/casl0/stocknews/MainViewModel.kt:61-64 | For one topic, toggle(t, x) followed by toggle(t, y) equals toggle(t, y). |
| Subscription.MapToggleIdempotent | StockNewsApp/app/src/main/java/io/github/casl0/stocknews/MainViewModel.kt:61-64 | Repeating a toggle changes nothing further. |
| Subscription.MapToggleUndo | StockNewsApp/app/src/main/java/io/github/casl0/stocknews/MainViewModel.kt:61-64 | Suppose every entry of a topic had the same flag. Toggling the topic to a new flag and then back to that flag restores the original list. |
| Subscription.MapToggleCommutes | StockNewsApp/app/src/main/java/io/github/casl0/stocknews/MainViewModel.kt:60-66 | Toggles of two different topics give the same list in either order. |
| Subscription.MainViewModel.constructor | StockNewsApp/app/src/main/java/io/github/casl0/stocknews/MainViewModel.kt:39-47 | The initial state is the default category list, and no hook has been called. |
| Subscription.MainViewModel.ToggleSubscribed | StockNewsApp/app/src/main/java/io/github/casl0/stocknews/MainViewModel.kt:55-74 | The new list is `MapToggle` of the old list. Exactly one hook call is appended after the update, with the same topic. It is a subscribe exactly when the flag is true. The invariant holds: the categories and their order are those of the default list. |
| MessageService.NormalisedUnique | StockNewsServer/src/main/kotlin/io/github/casl0/stocknews/messages/service/MessageService.kt:49-57 | The outcome-to-result conversion is a function: each sender outcome allows exactly one completion. |
| MessageService.SendOnce | StockNewsServer/src/main/kotlin/io/github/casl0/stocknews/messages/service/MessageService.kt:49-57 | Exactly one sender call is made, with no retry. The result is `Success(id)` exactly when the sender returned `id`. It is `Failure` exactly when the sender raised a messaging exception, and it carries that exception's message. Other exceptions propagate unchanged. |
| MessageService.SendMessageToTopicCondition | StockNewsServer/src/main/kotlin/io/github/casl0/stocknews/messages/service/MessageService.kt:45-58 | Exactly one sender call is made: a condition selector with the condition string, plus the message, both unchanged. Its outcome is converted as in `SendOnce`. |
| MessageService.SendMessageToTopic | StockNewsServer/src/main/kotlin/io/github/casl0/stocknews/messages/service/MessageService.kt:67-80 | Exactly one sender call is made: a topic selector with the topic name, plus the message, both unchanged. Its outcome is converted as in `SendOnce`. |
| MessageService.SendMessageToRegistrationToken | StockNewsServer/src/main/kotlin/io/github/casl0/stocknews/messages/service/MessageService.kt:89-102 | Exactly one sender call is made: a token selector with the registration token, plus the message, both unchanged. Its outcome is converted as in `SendOnce`. |
| MessageController.ToResponse | StockNewsServer/src/main/kotlin/io/github/casl0/stocknews/messages/controller/MessageController.kt:69-78 | The status is 200 if and only if the result is a success, and the body is then `MessageResponse` with the id unchanged. A failure gives status 500 with a problem detail of status 500, whose detail is the exception's message. |
| MessageController.Respond | StockNewsServer/src/main/kotlin/io/github/casl0/stocknews/messages/controller/MessageController.kt:65-78 | The sender calls are passed on unchanged. A returned service result is mapped by `ToResponse`. An exception the service did not catch leaves the route with the same message, because the handler has no try/catch of its own. |
| MessageController.PushMessageToTopicCondition | StockNewsServer/src/main/kotlin/io/github/casl0/stocknews/messages/controller/MessageController.kt:57-79 | The header value and the body reach the sender once, unchanged, in a condition selector. The route then answers as follows: 200 with the sender's id; 500 with the messaging exception's message; any other exception leaves the route. |
| MessageController.PushMessageToTopic | StockNewsServer/src/main/kotlin/io/github/casl0/stocknews/messages/controller/MessageController.kt:88-107 | The `{topic}` path value and the body reach the sender once, unchanged, in a topic selector. The route answers 200, 500 or the uncaught exception as above. |
| MessageController.PushMessageToRegistrationToken | StockNewsServer/src/main/kotlin/io/github/casl0/stocknews/messages/controller/MessageController.kt:116-135 | The `{token}` path value and the body reach the sender once, unchanged, in a token selector. The route answers 200, 500 or the uncaught exception as above. |
| MessageController.ErrorNeverOk | StockNewsServer/src/main/kotlin/io/github/casl0/stocknews/messages/controller/MessageController.kt:69-78 | A route answers 200 if and only if the sender returned an id. Every answer a route returns is either 200 or 500. |
| MessageController.RoutesExclusive | StockNewsServer/src/main/kotlin/io/github/casl0/stocknews/messages/controller/MessageController.kt:57-135 | Each route puts its value only into a selector of its own kind. So no two routes ever make the same sender call, whatever their arguments. |

## Left out

- The sender itself, `FcmSender`, is not part of the model. It loads credentials, initialises the Firebase SDK and builds SDK message objects, none of which can be seen here. Its topic and condition senders are unimplemented. Its method signatures also do not match the calls `MessageService` makes. The model uses an abstract sender that maps each call to an outcome.
- The bodies of the subscribe and unsubscribe hooks are unimplemented placeholders (`TODO()`), so they are modelled only as recorded calls. In the source each of them throws, after the state update has already taken effect. The model records the call and does not model that throw.
- The compare-and-set retry inside `MutableStateFlow.update` is concurrency and is modelled as one assignment. So is the flow's emission to collectors.
- The default list `STOCK_CATEGORIES` is not part of this model. The view model's constructor takes it as a parameter.
- Subscription.MainViewModel.ToggleSubscribed: the topic parameter is a `CharSequence` in the source. String equality in the model stands for Kotlin's `==` between the stored `String` and the argument. That `==` would never match a non-`String` `CharSequence` with the same characters, and the model does not capture that case.
- MessageController.ToResponse: the detail is the exception's `localizedMessage`. The model takes it to be a non-null string equal to the message. A null message, which would give a problem detail without a detail, is not modelled.
- Spring request binding is not modelled: the required `X-Topic-Condition` header, the path variables, and JSON parsing of the body, together with their 400 answers. Neither is the construction of `ResponseEntity` and `ProblemDetail`, nor the server's own handling of an exception that leaves a route. A response is the pair (status, body).
- Compose UI, snackbar collection, the messaging-service logging callbacks and the Spring bootstrap are outside the modelled core.
- The sender is a fixed function from a call to its outcome, so two identical calls against the same `sender` get the same outcome. The real provider answers each send on its own. The model describes one request at a time, and a provider whose answers change is represented by passing a different `sender` for each request.
- The topic-condition string is passed through as an opaque string and never parsed, in the source and in the model alike.
