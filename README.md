# Feishu–Dify relay: a Dafny model

The relay in `gaode/app.py` connects a Feishu (Lark) bot to a Dify AI
application. It is driven by the Feishu event webhook. For a text message it
picks the identity to answer: the chat, or the sender. It looks up that
identity's Dify conversation in a process-wide store and starts a background
turn. The turn streams the AI answer over server-sent-event lines and
delivers it back in chunks of at least 50 characters. When the stream ends,
the turn sends the remainder and stores the new conversation id, so the next
message resumes the same conversation. AI and transport errors become
user-visible notices.

The model has these modules:

- `Wrappers`, `Text`, `Json` (`base.dfy`): decoded JSON values with Python's
  truthiness, `str()`, `dict.get`, and the texts of the exceptions CPython
  3.12 raises when a value has the wrong type.
- `Feishu` (`feishu.dfy`): how an outbound message is addressed. The kind of
  `receive_id` is inferred from its prefix.
- `Dify` (`dify.dfy`): the chat request body. Also the classification of
  stream lines into yielded items: `Classify` is the specification and
  `ReadStream` the line loop proved against it.
- `Conversations` (`conversations.dfy`): the shared conversation store, as a
  class whose dictionary is updated in place.
- `Turn` (`turn.dfy`): the turn processor.
  - `Handle`, `Step` and `Run` specify one event, one loop iteration
    (including the outer `except`) and the whole loop.
  - The class `TurnProcessor` is the imperative loop. It has the
    accumulator, the delivery trace and a reference to the shared store.
  - Its method `Process` is proved to leave exactly the state `ProcessTurn`
    describes.
- `TurnProperties` (`turn_properties.dfy`): what a turn guarantees.
- `Webhook` (`webhook.dfy`): the webhook's decisions, stated as a pure
  function of the body, the decoder and the store. It returns the
  acknowledgement and the task it would start. Also lemmas across the
  webhook and the turn that follows it.

Several things outside the model are parameters:

- the network calls, as oracles: whether the tenant-token call returned
  without raising, the
  AI response lines and the exception that ended them, and for each delivery
  attempt whether it succeeded;
- `json.loads`, as a function `string -> Option<Json>`;
- `uuid.uuid4()`, as a given identifier;
- `datetime.now()`, as a clock indexed by event position.

Behaviours of the source a reader might not expect, which the model keeps:

- **Token failure.** When the tenant-token call raises, nothing at all is
  sent. The system-error notice in the outer `except` refers to
  `access_token` before it is bound. The `UnboundLocalError` this raises is
  caught and logged by the inner `except` (`gaode/app.py:190-195`). A token
  response without `tenant_access_token` does not raise: the call returns
  `None` (`gaode/app.py:49`) and the turn goes ahead, opening the AI request,
  attempting every delivery and writing the store. In the model that is a
  turn whose token call returned and whose deliveries the oracle may fail.
- **Chunk reset.** A chunk clears the accumulator only when its delivery
  succeeds (`gaode/app.py:163-167`). `message_end` never clears it.
- **Stored conversation id.** The conversation id is stored only when it is
  truthy. So an empty string, `0` or `false` is never stored
  (`gaode/app.py:177`).
- **Values of the wrong type.** A yielded value that is not a dictionary, or
  a non-string `answer`, raises inside the turn loop. This sends one
  `系统错误: ` notice and ends the loop. A decoded stream value on which
  `"error" in v` or `v["error"]` raises ends the stream with one error item
  carrying the exception text (`gaode/app.py:87-97`).

## Model

| member | source | states |
|---|---|---|
| Feishu.ReceiveIdTypeOf | gaode/app.py:102-108 | the target kind is `open_id` exactly when the id starts with `ou_`, and `chat_id` otherwise (for `oc_` and for any unknown prefix) |
| Feishu.ReceiveIdTypeExamples | gaode/app.py:102-108 | `oc_555` is a chat, `ou_999` a user, and `xyz_1` falls back to a chat |
| Dify.SessionId | gaode/app.py:65 | the conversation id when it is truthy, otherwise the generated id; a non-empty generated id always gives a truthy session id |
| Dify.BuildRequest | gaode/app.py:62-72 | `query` and `inputs.message` are the message, `user` is the identity, the mode is `streaming` with `stream` true, `conversation_id` is passed through, `session_id` is the conversation id when it is truthy, and otherwise exactly the fresh id; a non-empty fresh id always gives a truthy session id |
| Dify.ActiveConversationIgnoresFreshId | gaode/app.py:65 | with a truthy conversation id the request does not depend on the generated id |
| Dify.Payload | gaode/app.py:83-85 | a line without the `data: ` prefix has no payload |
| Dify.DataLinePayload | gaode/app.py:83-85 | the payload of `data: ` followed by a text is what that text decodes to |
| Dify.ProbeError | gaode/app.py:87-89 | an error field is found exactly for an object with an `error` key, and it is that key's value; an object never raises; None, a boolean or a number always raises the not-iterable error; a string raises exactly when it contains `error`, a list exactly when it has the element `"error"` |
| Dify.ItemsFor | gaode/app.py:83-94 | a line without a payload adds nothing; a raising line replaces everything after it by one error item; any other payload adds exactly one item in front of what follows |
| Dify.Classify | gaode/app.py:82-97 | when the stream ends with a transport exception, the last item yielded is an error item |
| Dify.ReadStream | gaode/app.py:82-97 | the line loop yields exactly the items `Classify` gives for the lines and the transport outcome |
| Dify.ClassifyLength | gaode/app.py:82-97 | at most one item per line, plus at most one terminal error |
| Dify.DecodedItemsComeFromDataLines | gaode/app.py:83-91 | every value passed through unchanged is what some `data: ` line decoded to, and it has no `error` field |
| Dify.SkippedLineIsInvisible | gaode/app.py:83-94 | a line without the `data: ` prefix, or whose JSON does not decode, can be removed from anywhere in the stream without changing what is yielded |
| Dify.TransportFailureIsLast | gaode/app.py:95-97 | when no line raises, a transport or status exception adds exactly one error item carrying its text, after everything the lines yield |
| Dify.ItemsForAppend | gaode/app.py:83-91 | what a line that does not raise yields does not depend on the items after it |
| Dify.ClassifyCons | gaode/app.py:82-94 | the lines are handled front to back: the first line's contribution goes in front of what the remaining lines yield |
| Dify.ClassifyAppend | gaode/app.py:82-97 | when no line of a prefix raises, the items the prefix yields come first, followed by what the remaining lines and the transport outcome yield |
| Dify.NonRaisingLineInPlace | gaode/app.py:83-94 | a line that does not raise contributes what it yields alone, between what the lines before and after it yield |
| Dify.CleanLineIsYielded | gaode/app.py:90-91 | a decoded value without an `error` key is yielded unchanged in the place of its line |
| Dify.ErrorFieldBecomesFailure | gaode/app.py:87-89 | an object with an `error` key becomes one error item with the message `MCP API错误: ` followed by `str()` of that value, in the place of its line |
| Dify.RaisingLineEndsStream | gaode/app.py:87-97 | a decoded value on which the error probe raises ends the stream with one error item carrying the exception text; later lines and the transport outcome do not matter |
| Feishu.Outbound.Url | gaode/app.py:111 | the URL is the messages endpoint with a `receive_id_type` query |
| Feishu.UrlNamesKind | gaode/app.py:102-111 | the URL's query is `open_id` exactly for a user target and `chat_id` exactly for a chat target |
| Feishu.TextMessage | gaode/app.py:119-123 | the message goes to the given id as a `text` message with the given text, addressed as a user exactly when the id starts with `ou_` |
| Conversations.Lookup | gaode/app.py:238-239 | a conversation is found exactly when the identity has an entry, and it is that entry's `conversation_id` |
| Conversations.ConversationStore.constructor | gaode/app.py:31 | the store starts empty |
| Conversations.ConversationStore.Put | gaode/app.py:178-181 | the identity's entry becomes the new id and time, and all other entries are unchanged |
| Turn.EventOf | gaode/app.py:156-184 | a stream failure is an `error` event with its text; a value that is not a dictionary has no `.get`; `message`, `message_end` and `error` events come from the `event` field, with `""` as the default answer and `未知错误` as the default error message; `conversation_id` is present exactly when the key is |
| Turn.EventDispatch | gaode/app.py:156-184 | for a decoded dictionary, `event` `message` gives its `answer` (default `""`), `message_end` its `conversation_id` (None when absent), `error` its `message` (default `未知错误`), and any other or no `event` is ignored |
| Turn.Handle | gaode/app.py:156-189 | the loop body raises exactly for a value without `.get` or a non-string answer; otherwise it keeps the halt flag, only `message_end` can change the store, and an unrecognised event changes nothing |
| Turn.Step | gaode/app.py:155-195 | once halted, later items change nothing; an exception halts the loop with exactly one more attempt and the accumulator and store kept |
| Turn.Run | gaode/app.py:155-189 | a loop that has been left stays as it is |
| Turn.ProcessTurn | gaode/app.py:149-195 | an AI request is opened exactly when the tenant-token call returned without raising, for the message, the user and the conversation passed in; when that call raises the turn leaves the initial state |
| Turn.RunAfterHalt | gaode/app.py:190-195 | after an exception has left the loop, the remaining items change nothing |
| Turn.TurnProcessor.constructor | gaode/app.py:149-151 | a processor starts with an empty accumulator and an empty trace, and shares the given store |
| Turn.TurnProcessor.Deliver | gaode/app.py:163-167 | one attempt to the turn's user is appended to the trace, with the oracle's outcome for that attempt; a failure is swallowed |
| Turn.TurnProcessor.OnEvent | gaode/app.py:156-189 | one loop iteration changes the accumulator, trace and store exactly as `Handle` specifies, or it raises with the text `Handle` gives and changes nothing |
| Turn.TurnProcessor.Process | gaode/app.py:149-195 | the whole turn opens the request and leaves the accumulator, trace, store and halt flag exactly as `ProcessTurn` specifies |
| TurnProperties.StepOutbox | gaode/app.py:156-195 | one item appends at most one attempt, keeps earlier attempts, and the attempt goes to the user with the oracle's outcome |
| TurnProperties.RunOutbox | gaode/app.py:155-195 | over the whole loop, attempts are only appended, at most one per item, and each follows the oracle and targets the user |
| TurnProperties.RunStoreFrame | gaode/app.py:176-181 | a turn never touches another identity's entry and keeps every stored id truthy; the user's entry is either kept or is the id and time of one of its `message_end` events |
| TurnProperties.StepStoreIgnoresDelivery | gaode/app.py:163-189 | one item's effect on the store and on leaving the loop does not depend on delivery outcomes |
| TurnProperties.RunStoreIgnoresDelivery | gaode/app.py:155-195 | a failed delivery never stops the turn or changes which conversation is stored |
| TurnProperties.AccumulatorStaysShort | gaode/app.py:158-167 | while every delivery succeeds the accumulator stays below 50 characters between events |
| TurnProperties.MessageChunking | gaode/app.py:158-167 | a fragment is appended; a delivery of the whole accumulator happens exactly when it reaches 50; the accumulator is cleared only when that delivery succeeds, and it is kept when the delivery fails |
| TurnProperties.FragmentStepNoLoss | gaode/app.py:158-167 | one fragment moves text between the accumulator and the delivered text without losing or repeating any |
| TurnProperties.FragmentsNoLoss | gaode/app.py:158-167 | with only `message` events, the delivered text followed by the accumulator is always all fragments in arrival order, whichever deliveries fail |
| TurnProperties.ChunksReachThreshold | gaode/app.py:162-164 | every chunk delivered mid-turn is at least 50 characters long |
| TurnProperties.ShortFragmentsAccumulate | gaode/app.py:158-162 | below the threshold nothing is sent and the fragments pile up in the accumulator |
| TurnProperties.FirstChunkIsAllFragments | gaode/app.py:158-167 | the first chunk is sent by the fragment that reaches the threshold, and it is all fragments so far |
| TurnProperties.ShortAnswerSentOnceAtEnd | gaode/app.py:169-174 | an answer shorter than 50 characters is delivered once, whole, at `message_end` |
| TurnProperties.MessageEndStep | gaode/app.py:169-181 | `message_end` sends the remainder exactly once if it is non-empty, keeps the accumulator, and stores the user's id only for a truthy conversation id |
| TurnProperties.EndStepDelivers | gaode/app.py:169-174 | with a successful delivery, `message_end` adds the whole remainder to the delivered text |
| TurnProperties.CompleteTurnDeliversAnswer | gaode/app.py:155-181 | fragments closed by `message_end`, with every delivery succeeding, deliver exactly the fragments in order, all to the user, and store the truthy conversation id with the end event's time |
| TurnProperties.EndDoesNotClearRemainder | gaode/app.py:169-174 | a second `message_end` sends the same remainder again |
| TurnProperties.ErrorEventStep | gaode/app.py:183-189 | an `error` event sends exactly one notice, `处理您的请求时遇到错误: ` followed by its message (`未知错误` if absent, or the stream client's text), and changes nothing else |
| TurnProperties.OtherEventIgnored | gaode/app.py:156-183 | an unrecognised event type changes nothing |
| TurnProperties.ExceptionEndsTurn | gaode/app.py:190-195 | a value without `.get` or a non-string answer sends one `系统错误: ` notice with the exception text, keeps the accumulator and store, and ends the loop |
| TurnProperties.TokenFailureIsSilent | gaode/app.py:153 | when the tenant-token call raises, no request is opened, nothing is sent and the store is untouched |
| TurnProperties.MalformedLineDoesNotInterrupt | gaode/app.py:83-94 | a malformed line anywhere in the AI response makes no difference to the whole turn |
| TurnProperties.TurnTargetsUser | gaode/app.py:149-195 | every attempt of a turn goes to its user as a text message, stored ids stay truthy, and other identities' entries are untouched |
| Webhook.HandleWebhook | gaode/app.py:202-254 | the code is always 0; a challenge is echoed exactly when the body is an object with a `challenge` key, and then nothing is started; otherwise the reply is `success`; a started task has a non-empty identity and that identity's stored conversation |
| Webhook.ParseTextEvent | gaode/app.py:223-233 | a parsed event is a `text` message, and its chat id and sender open id are the values under those paths of the event |
| Webhook.ReceiveId | gaode/app.py:234 | the identity is the chat id or the sender id; it is truthy exactly when one of them is, and a truthy chat id takes precedence |
| Webhook.SpawnIdentity | gaode/app.py:212-242 | a turn is started only for a `text` message without a challenge, and its identity is the truthy `chat_id`, or else the sender's `open_id` |
| Webhook.TextMessageSpawns | gaode/app.py:222-242 | conversely, a well-formed text message whose chosen identity is a non-empty string starts a turn with the `text` of its decoded content (the content defaulting to `"{}"` when absent) and the identity's stored conversation |
| Webhook.SpawnReadsStoreOnce | gaode/app.py:236-242 | the store affects only the conversation id given to the task |
| Webhook.NextTurnResumesConversation | gaode/app.py:176-181 | after a turn that recorded a conversation, the next message from that identity resumes it as both the session id and the conversation id |
| Webhook.NewIdentityStartsFresh | gaode/app.py:238-242 | an identity without a stored conversation starts with no conversation id and the generated session id |

## Left out

- The token value is not modelled: a call that returns `None` for a missing
  `tenant_access_token` counts as returning, and what the message endpoint
  does with `Bearer None` is left to the delivery oracle.
- Network calls are not modelled: the token request, the streaming POST and
  the message POST (`gaode/app.py:33-52`, `74-81`, `130-140`). Their
  outcomes are oracles. The token's value is never used by the modelled
  logic.
- `json.loads` and `json.dumps` internals are not modelled. Decoding is a
  given function, and the body of an outbound message is kept as its fields.
  The `ensure_ascii` rendering of `content` is not modelled.
- `str()` of lists and dictionaries depends on key order and repr escaping,
  so the decoder supplies that text with the value. Floats are not modelled.
- FastAPI routing, the health check, environment loading and server startup
  are not modelled. For the webhook body, the decoder stands for
  `body.decode('utf-8')` followed by `json.loads`: it gives None when either
  step fails.
- Concurrency is not modelled. `asyncio.create_task` becomes the returned
  task descriptor, and turns are sequential. Interleaved turns on the same
  identity are not modelled.
- `uuid.uuid4()` and `datetime.now()` are parameters: a given identifier and
  a clock indexed by event position.
- Logging is left out. So is the warning for an unknown receive id prefix.
- Python's `len` counts code points. The model uses the length of a Dafny
  `string`, which agrees except on lone surrogates.
- Exception texts follow CPython 3.12. Exceptions the modelled code cannot
  raise on decoded JSON, such as cancellation or `RecursionError`, are not
  modelled.
- Webhook.HandleWebhook: a truthy `receive_id` that is a number or `true`
  starts a turn in the source, because the store lookup simply finds nothing.
  The model types identities as strings and starts nothing in that case.
