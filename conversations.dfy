/** The process-wide `conversation_store`: identity -> last conversation. */
module Conversations {
  import opened Wrappers
  import opened Json

  /** `{"conversation_id": ..., "updated_at": datetime.now()}`; the time is
    * an integer supplied by the caller. */
  datatype ConversationRecord = ConversationRecord(conversationId: Json, updatedAt: int)

  type Records = map<string, ConversationRecord>

  /** `conversation_store.get(identity, {}).get("conversation_id")`. */
  function Lookup(records: Records, identity: string): (r: Option<Json>)
    ensures r.Some? <==> identity in records
    ensures r.Some? ==> r.value == records[identity].conversationId
  {
    if identity in records then Some(records[identity].conversationId) else None
  }

  /** Only truthy conversation ids are ever written. */
  ghost predicate WellFormed(records: Records) {
    forall identity | identity in records :: Truthy(records[identity].conversationId)
  }

  /** The shared dictionary, passed by reference to every turn. */
  class ConversationStore {
    var records: Records

    constructor ()
      ensures records == map[]
    {
      records := map[];
    }

    /** `conversation_store[identity] = {...}`. */
    method Put(identity: string, conversationId: Json, now: int)
      modifies this
      ensures records == old(records)[identity := ConversationRecord(conversationId, now)]
    {
      records := records[identity := ConversationRecord(conversationId, now)];
    }
  }
}
