/** The chat-delivery client: how `send_feishu_message` addresses one
  * outbound text message. The HTTP call itself is an oracle in the turn
  * processor (module Turn): only the message it would send is modelled. */
module Feishu {
  import opened Text

  /** The value of the `receive_id_type` query parameter. */
  datatype ReceiveIdType = ChatId | OpenId

  const GroupPrefix: string := "oc_"
  const UserPrefix: string := "ou_"

  /** Target-kind inference from the literal prefix of the receive id:
    * `oc_` selects a chat, `ou_` a user, and anything else falls back to a
    * chat (the source logs a warning there). */
  function ReceiveIdTypeOf(receiveId: string): (k: ReceiveIdType)
    ensures k == OpenId <==> HasPrefix(receiveId, UserPrefix)
    ensures k == ChatId <==> !HasPrefix(receiveId, UserPrefix)
  {
    if HasPrefix(receiveId, GroupPrefix) then
      assert receiveId[1] == GroupPrefix[1] != UserPrefix[1];
      ChatId
    else if HasPrefix(receiveId, UserPrefix) then OpenId
    else ChatId
  }

  /** Three addressing examples: a chat, a user and an unknown prefix. */
  lemma ReceiveIdTypeExamples()
    ensures ReceiveIdTypeOf("oc_555") == ChatId
    ensures ReceiveIdTypeOf("ou_999") == OpenId
    ensures ReceiveIdTypeOf("xyz_1") == ChatId
  {
    assert HasPrefix("ou_999", UserPrefix);
    assert !HasPrefix("xyz_1", UserPrefix) by { assert "xyz_1"[0] != UserPrefix[0]; }
    assert !HasPrefix("oc_555", UserPrefix) by { assert "oc_555"[1] != UserPrefix[1]; }
  }

  function QueryValue(k: ReceiveIdType): string {
    match k
    case ChatId => "chat_id"
    case OpenId => "open_id"
  }

  const MessagesEndpoint: string := "https://open.feishu.cn/open-apis/im/v1/messages"

  /** One outbound message: the target kind of the URL and the JSON body's
    * `receive_id`, `msg_type` and the `text` inside `content`. */
  datatype Outbound = Outbound(receiveIdType: ReceiveIdType, receiveId: string, msgType: string, text: string)
  {
    function Url(): (r: string)
      ensures HasPrefix(r, MessagesEndpoint + "?receive_id_type=")
    {
      MessagesEndpoint + "?receive_id_type=" + QueryValue(receiveIdType)
    }
  }

  /** The URL names the target kind: `open_id` for a user, `chat_id` for a
    * chat, and the two never coincide. */
  lemma UrlNamesKind(m: Outbound)
    ensures m.Url() == MessagesEndpoint + "?receive_id_type=open_id" <==> m.receiveIdType == OpenId
    ensures m.Url() == MessagesEndpoint + "?receive_id_type=chat_id" <==> m.receiveIdType == ChatId
  {
    var base := MessagesEndpoint + "?receive_id_type=";
    var n := |base|;
    assert (base + "open_id")[n] == 'o' && (base + "chat_id")[n] == 'c';
  }

  /** The message `send_feishu_message(token, receiveId, text)` posts: a
    * text message to that id, addressed by the kind its prefix selects. */
  function TextMessage(receiveId: string, text: string): (m: Outbound)
    ensures m.receiveId == receiveId && m.text == text && m.msgType == "text"
    ensures m.receiveIdType == OpenId <==> HasPrefix(receiveId, UserPrefix)
    ensures m.Url() == MessagesEndpoint + "?receive_id_type=open_id" <==> HasPrefix(receiveId, UserPrefix)
  {
    var m := Outbound(ReceiveIdTypeOf(receiveId), receiveId, "text", text);
    UrlNamesKind(m);
    m
  }
}
