/** The event endpoint `feishu_webhook`: it answers the URL-verification
  * challenge, and for a text message it picks the identity to answer, reads
  * that identity's conversation from the store and starts a turn. Starting
  * the turn is modelled as the returned task descriptor; `decode` stands for
  * `body.decode('utf-8')` followed by `json.loads`: it gives None when
  * either step fails. */
module Webhook {
  import opened Wrappers
  import opened Json
  import opened Conversations
  import Dify
  import Turn
  import TurnProperties

  /** The JSON acknowledgement: `{"challenge": ..., "code": 0}` or
    * `{"code": 0, "msg": "success"}`. */
  datatype Ack = Ack(code: int, challenge: Option<Json>, msg: Option<string>)

  const Success: Ack := Ack(0, None, Some("success"))

  /** The arguments of the `process_ai_response` task the handler creates. */
  datatype Task = Task(text: Json, receiveId: string, conversationId: Option<Json>)

  datatype WebhookResult = WebhookResult(response: Ack, spawned: Option<Task>)

  /** What a text-message event carries: the `text` of its decoded content,
    * the message's `chat_id` and the sender's `open_id`. */
  datatype TextEvent = TextEvent(text: Json, chatId: Option<Json>, openId: Option<Json>)

  /** The value under a path of keys, going only through objects. */
  function At(j: Json, path: seq<string>): Option<Json>
    decreases |path|
  {
    if path == [] then Some(j)
    else if j.JObject? && path[0] in j.fields then At(j.fields[path[0]], path[1..])
    else None
  }

  /** The reads of the `event` value. None when the message is not of type
    * `text` or when one of the `.get` calls or the content's `json.loads`
    * raises (a value that is not a dictionary, content that is not a string
    * or does not decode, decoded content that is not a dictionary). */
  function ParseTextEvent(event: Json, decode: string -> Option<Json>): (r: Option<TextEvent>)
    ensures r.Some? ==> At(event, ["message", "message_type"]) == Some(JStr("text"))
    ensures r.Some? ==> r.value.chatId == At(event, ["message", "chat_id"])
    ensures r.Some? ==> r.value.openId == At(event, ["sender", "sender_id", "open_id"])
  {
    if !event.JObject? then None
    else
      var message := GetOr(event.fields, "message", EmptyObject);
      if !message.JObject? || Get(message.fields, "message_type") != Some(JStr("text")) then None
      else
        var content := GetOr(message.fields, "content", JStr("{}"));
        if !content.JStr? then None
        else
          match decode(content.s)
          case None => None
          case Some(c) =>
            if !c.JObject? then None
            else
              var sender := GetOr(event.fields, "sender", EmptyObject);
              if !sender.JObject? then None
              else
                var senderId := GetOr(sender.fields, "sender_id", EmptyObject);
                if !senderId.JObject? then None
                else Some(TextEvent(GetOr(c.fields, "text", JStr("")), Get(message.fields, "chat_id"), Get(senderId.fields, "open_id")))
  }

  /** `chat_id if chat_id else sender_id`. */
  function ReceiveId(e: TextEvent): (r: Option<Json>)
    ensures r == e.chatId || r == e.openId
    ensures (r.Some? && Truthy(r.value)) <==> (e.chatId.Some? && Truthy(e.chatId.value)) || (e.openId.Some? && Truthy(e.openId.value))
    ensures e.chatId.Some? && Truthy(e.chatId.value) ==> r == e.chatId
  {
    if e.chatId.Some? && Truthy(e.chatId.value) then e.chatId else e.openId
  }

  /** The handler. Every failure inside its `try` ends in the plain success
    * acknowledgement; a truthy receive id that is not a string is not
    * modelled as an identity and starts nothing. */
  function HandleWebhook(body: string, decode: string -> Option<Json>, store: Records): (r: WebhookResult)
    ensures r.response.code == 0
    ensures r.response.challenge.Some? <==>
      decode(body).Some? && decode(body).value.JObject? && "challenge" in decode(body).value.fields
    ensures r.response.challenge.Some? ==>
      r.response.challenge.value == decode(body).value.fields["challenge"] && r.response.msg.None? && r.spawned.None?
    ensures r.response.challenge.None? ==> r.response.msg == Some("success")
    ensures r.spawned.Some? ==>
      r.spawned.value.receiveId != "" && r.spawned.value.conversationId == Lookup(store, r.spawned.value.receiveId)
  {
    match decode(body)
    case None => WebhookResult(Success, None)
    case Some(data) =>
      if !data.JObject? then WebhookResult(Success, None)
      else if "challenge" in data.fields then WebhookResult(Ack(0, Some(data.fields["challenge"]), None), None)
      else if "event" !in data.fields then WebhookResult(Success, None)
      else
        match ParseTextEvent(data.fields["event"], decode)
        case None => WebhookResult(Success, None)
        case Some(e) =>
          var id := ReceiveId(e);
          if id.Some? && id.value.JStr? && id.value.s != "" then
            WebhookResult(Success, Some(Task(e.text, id.value.s, Lookup(store, id.value.s))))
          else
            WebhookResult(Success, None)
  }

  /** The payload's `chat_id`, if it is truthy, else the sender's `open_id`. */
  function ChosenId(data: Json): Option<Json> {
    var chat := At(data, ["event", "message", "chat_id"]);
    if chat.Some? && Truthy(chat.value) then chat else At(data, ["event", "sender", "sender_id", "open_id"])
  }

  /** A turn is started only for a `text` message, and it answers the chat
    * when the message has a truthy `chat_id`, the sender's `open_id`
    * otherwise. */
  lemma SpawnIdentity(body: string, decode: string -> Option<Json>, store: Records)
    requires HandleWebhook(body, decode, store).spawned.Some?
    ensures var data := decode(body).value; var t := HandleWebhook(body, decode, store).spawned.value;
      && data.JObject? && "challenge" !in data.fields
      && At(data, ["event", "message", "message_type"]) == Some(JStr("text"))
      && ChosenId(data) == Some(JStr(t.receiveId))
  {
  }

  /** The sender is a dictionary with a dictionary `sender_id`, or absent. */
  predicate SenderReadable(data: Json) {
    var sender := At(data, ["event", "sender"]);
    sender.None? || (sender.value.JObject? &&
      var senderId := At(data, ["event", "sender", "sender_id"]);
      senderId.None? || senderId.value.JObject?)
  }

  /** Conversely, a well-formed text message whose chosen identity is a
    * non-empty string starts a turn for that identity, with the text of the
    * decoded content (`"{}"` when there is none) and the identity's stored
    * conversation. */
  lemma TextMessageSpawns(body: string, decode: string -> Option<Json>, store: Records, content: string, c: map<string, Json>, ctext: string, id: string)
    requires decode(body).Some? && decode(body).value.JObject? && "challenge" !in decode(body).value.fields
    requires At(decode(body).value, ["event", "message", "message_type"]) == Some(JStr("text"))
    requires At(decode(body).value, ["event", "message", "content"]) == Some(JStr(content))
          || (At(decode(body).value, ["event", "message", "content"]).None? && content == "{}")
    requires decode(content) == Some(JObject(c, ctext))
    requires SenderReadable(decode(body).value)
    requires id != "" && ChosenId(decode(body).value) == Some(JStr(id))
    ensures HandleWebhook(body, decode, store).spawned == Some(Task(GetOr(c, "text", JStr("")), id, Lookup(store, id)))
  {
  }

  /** The store is read once, for the chosen identity: everything else the
    * handler decides is the same whatever the store holds. */
  lemma SpawnReadsStoreOnce(body: string, decode: string -> Option<Json>, s1: Records, s2: Records)
    ensures var r1 := HandleWebhook(body, decode, s1); var r2 := HandleWebhook(body, decode, s2);
      && r1.response == r2.response
      && r1.spawned.Some? == r2.spawned.Some?
      && (r1.spawned.Some? ==> r1.spawned.value.(conversationId := None) == r2.spawned.value.(conversationId := None))
  {
  }

  /** Across turns: once a turn has stored a conversation for its user, the
    * next text message from that identity resumes it, and the AI request
    * uses it as both the session id and the conversation id. */
  lemma NextTurnResumesConversation(message: Json, userId: string, conversationId: Option<Json>, env: Turn.Environment, store: Records,
                                    body: string, decode: string -> Option<Json>, freshId: string)
    requires WellFormed(store)
    requires var after := Turn.ProcessTurn(message, userId, conversationId, env, store).final.store;
      && userId in after
      && HandleWebhook(body, decode, after).spawned.Some?
      && HandleWebhook(body, decode, after).spawned.value.receiveId == userId
    ensures var after := Turn.ProcessTurn(message, userId, conversationId, env, store).final.store;
      var t := HandleWebhook(body, decode, after).spawned.value;
      var req := Dify.BuildRequest(t.text, t.receiveId, t.conversationId, freshId);
      && t.conversationId == Some(after[userId].conversationId)
      && req.conversationId == Some(after[userId].conversationId)
      && req.inputs.sessionId == after[userId].conversationId
  {
    TurnProperties.TurnTargetsUser(message, userId, conversationId, env, store);
  }

  /** An identity without a stored conversation starts a new one: the
    * request carries no conversation id and the generated session id. */
  lemma NewIdentityStartsFresh(body: string, decode: string -> Option<Json>, store: Records, freshId: string)
    requires HandleWebhook(body, decode, store).spawned.Some?
    requires HandleWebhook(body, decode, store).spawned.value.receiveId !in store
    ensures var t := HandleWebhook(body, decode, store).spawned.value;
      var req := Dify.BuildRequest(t.text, t.receiveId, t.conversationId, freshId);
      req.conversationId.None? && req.inputs.sessionId == JStr(freshId)
  {
  }
}
