/** The turn processor `process_ai_response`: it consumes the items the AI
  * stream yields, batches answer fragments into chunks, delivers them to
  * the user, records the conversation id at the end of the answer and turns
  * errors into user-facing messages.
  *
  * The pure functions Handle, Step and Run specify one event, one loop
  * iteration and the whole loop; the class TurnProcessor is the imperative
  * loop proved against them. Every outbound delivery is an oracle: `sendOk(k)`
  * says whether the k-th attempt of the turn succeeded. */
module Turn {
  import opened Wrappers
  import opened Json
  import Feishu
  import Dify
  import opened Conversations

  const ChunkThreshold: nat := 50
  const UnknownError: string := "未知错误"
  const ErrorNoticePrefix: string := "处理您的请求时遇到错误: "
  const SystemErrorPrefix: string := "系统错误: "

  /** How the loop body sees one yielded item, by its `event` field. */
  datatype Event =
    | Message(answer: Json)                    // `answer`, default ""
    | MessageEnd(conversationId: Option<Json>) // `conversation_id`, None if absent
    | Error(message: Json)                     // `message`, default "未知错误"
    | Other                                    // any other or no `event`
    | NotAnObject(value: Json)                 // a yielded value without `.get`

  function EventOf(item: Dify.Item): (e: Event)
    ensures item.Failed? ==> e == Error(JStr(item.message))
    ensures e.NotAnObject? <==> item.Decoded? && !item.value.JObject?
    ensures e.Message? ==> item.Decoded? && Get(item.value.fields, "event") == Some(JStr("message"))
    ensures e.Message? && "answer" !in item.value.fields ==> e.answer == JStr("")
    ensures e.MessageEnd? ==> item.Decoded? && Get(item.value.fields, "event") == Some(JStr("message_end"))
    ensures e.MessageEnd? ==> (e.conversationId.Some? <==> "conversation_id" in item.value.fields)
    ensures e.Error? && item.Decoded? ==> Get(item.value.fields, "event") == Some(JStr("error"))
    ensures e.Error? && item.Decoded? && "message" !in item.value.fields ==> e.message == JStr(UnknownError)
  {
    match item
    case Failed(m) => Error(JStr(m))
    case Decoded(v) =>
      match v
      case JObject(fields, _) =>
        var kind := Get(fields, "event");
        if kind == Some(JStr("message")) then Message(GetOr(fields, "answer", JStr("")))
        else if kind == Some(JStr("message_end")) then MessageEnd(Get(fields, "conversation_id"))
        else if kind == Some(JStr("error")) then Error(GetOr(fields, "message", JStr(UnknownError)))
        else Other
      case _ => NotAnObject(v)
  }

  /** The dispatch on a yielded dictionary's `event` field: `message`,
    * `message_end` and `error` become those events with their `answer`
    * (default `""`), `conversation_id` (None if absent) and `message`
    * (default `未知错误`); any other or no `event` is ignored. */
  lemma EventDispatch(fields: map<string, Json>, text: string)
    ensures var e := EventOf(Dify.Decoded(JObject(fields, text))); var kind := Get(fields, "event");
      && (kind == Some(JStr("message")) ==> e == Message(GetOr(fields, "answer", JStr(""))))
      && (kind == Some(JStr("message_end")) ==> e == MessageEnd(Get(fields, "conversation_id")))
      && (kind == Some(JStr("error")) ==> e == Error(GetOr(fields, "message", JStr(UnknownError))))
      && (kind != Some(JStr("message")) && kind != Some(JStr("message_end")) && kind != Some(JStr("error")) ==> e == Other)
  {
  }

  /** One call of `send_feishu_message` and whether it returned normally. */
  datatype Attempt = Attempt(message: Feishu.Outbound, delivered: bool)

  /** The state a turn changes: the accumulator, the shared store, the
    * delivery attempts so far, and whether an exception left the loop. */
  datatype TurnState = TurnState(acc: string, store: Records, outbox: seq<Attempt>, halted: bool)

  function Initial(store: Records): TurnState {
    TurnState("", store, [], false)
  }

  /** One delivery attempt to `userId`. */
  function Send(st: TurnState, userId: string, text: string, sendOk: nat -> bool): TurnState {
    st.(outbox := st.outbox + [Attempt(Feishu.TextMessage(userId, text), sendOk(|st.outbox|))])
  }

  /** The loop body either carries on with a new state or raises. */
  datatype Outcome = Continue(next: TurnState) | Raise(message: string)

  /** The loop body for one event. */
  function Handle(st: TurnState, userId: string, ev: Event, sendOk: nat -> bool, now: int): (r: Outcome)
    ensures r.Raise? <==> ev.NotAnObject? || (ev.Message? && !ev.answer.JStr?)
    ensures r.Continue? ==> r.next.halted == st.halted
    ensures r.Continue? && !ev.MessageEnd? ==> r.next.store == st.store
    ensures ev.Other? ==> r == Continue(st)
  {
    match ev
    case Message(answer) =>
      if !answer.JStr? then Raise(ConcatMessage(answer))
      else
        var grown := st.acc + answer.s;
        if |grown| < ChunkThreshold then Continue(st.(acc := grown))
        else Continue(Send(st, userId, grown, sendOk).(acc := if sendOk(|st.outbox|) then "" else grown))
    case MessageEnd(conversationId) =>
      var flushed := if st.acc != "" then Send(st, userId, st.acc, sendOk) else st;
      if conversationId.Some? && Truthy(conversationId.value) then
        Continue(flushed.(store := flushed.store[userId := ConversationRecord(conversationId.value, now)]))
      else
        Continue(flushed)
    case Error(message) =>
      Continue(Send(st, userId, ErrorNoticePrefix + Show(message), sendOk))
    case Other =>
      Continue(st)
    case NotAnObject(v) =>
      Raise(NoGetMessage(v))
  }

  /** One iteration of the loop, with the outer `except`: an exception sends
    * the system-error notice (the token is bound by then) and ends the loop. */
  function Step(st: TurnState, userId: string, item: Dify.Item, sendOk: nat -> bool, now: int): (r: TurnState)
    ensures st.halted ==> r == st
    ensures !st.halted && r.halted ==> (r.acc == st.acc && r.store == st.store && |r.outbox| == |st.outbox| + 1)
  {
    if st.halted then st
    else
      match Handle(st, userId, EventOf(item), sendOk, now)
      case Continue(next) => next
      case Raise(m) => Send(st, userId, SystemErrorPrefix + m, sendOk).(halted := true)
  }

  /** The loop over the yielded items; `clock(i)` is `datetime.now()` while
    * the i-th item is handled. */
  function Run(st: TurnState, userId: string, items: seq<Dify.Item>, sendOk: nat -> bool, clock: nat -> int): (r: TurnState)
    ensures st.halted ==> r == st
    decreases |items|
  {
    if items == [] then st
    else
      var n := |items| - 1;
      Step(Run(st, userId, items[..n], sendOk, clock), userId, items[n], sendOk, clock(n))
  }

  /** Everything a turn consults that the model does not compute: whether the
    * tenant-token call returned without raising, the generated session id,
    * the AI response, `json.loads`, the delivery outcomes and the clock. A
    * call that returns without a token (`None`) counts as returning: the turn
    * goes ahead, and its deliveries are then the oracle's to fail. */
  datatype Environment = Environment(
    tokenOk: bool,
    freshId: string,
    response: Dify.HttpResponse,
    decode: string -> Option<Json>,
    sendOk: nat -> bool,
    clock: nat -> int)

  /** The AI request a turn opened (None if it never got that far) and the
    * state it left. */
  datatype TurnResult = TurnResult(request: Option<Dify.ChatRequest>, final: TurnState)

  /** A whole turn. When the token call raises nothing is sent: the notice in the
    * outer `except` names the unbound `access_token`, and the error that
    * raises is swallowed. */
  function ProcessTurn(message: Json, userId: string, conversationId: Option<Json>, env: Environment, store: Records): (r: TurnResult)
    ensures r.request.Some? <==> env.tokenOk
    ensures !env.tokenOk ==> r.final == Initial(store)
    ensures r.request.Some? ==> (r.request.value.user == userId && r.request.value.query == message && r.request.value.conversationId == conversationId)
  {
    if !env.tokenOk then TurnResult(None, Initial(store))
    else
      var items := Dify.Classify(env.response.lines, env.response.failure, env.decode);
      TurnResult(Some(Dify.BuildRequest(message, userId, conversationId, env.freshId)), Run(Initial(store), userId, items, env.sendOk, env.clock))
  }

  /** Once the loop has been left, later items change nothing. */
  lemma {:induction false} RunAfterHalt(st: TurnState, userId: string, items: seq<Dify.Item>, n: nat, sendOk: nat -> bool, clock: nat -> int)
    requires n <= |items|
    requires Run(st, userId, items[..n], sendOk, clock).halted
    ensures Run(st, userId, items, sendOk, clock) == Run(st, userId, items[..n], sendOk, clock)
    decreases |items|
  {
    if n < |items| {
      var m := |items| - 1;
      assert items[..m][..n] == items[..n];
      RunAfterHalt(st, userId, items[..m], n, sendOk, clock);
      var p := Run(st, userId, items[..m], sendOk, clock);
      assert p.halted;
      assert Run(st, userId, items, sendOk, clock) == Step(p, userId, items[m], sendOk, clock(m));
    } else {
      assert items[..n] == items;
    }
  }

  /** The loop over one more item is one more step. */
  lemma RunSnoc(st: TurnState, userId: string, items: seq<Dify.Item>, i: nat, sendOk: nat -> bool, clock: nat -> int)
    requires i < |items|
    ensures Run(st, userId, items[..i + 1], sendOk, clock) == Step(Run(st, userId, items[..i], sendOk, clock), userId, items[i], sendOk, clock(i))
  {
    assert items[..i + 1][..i] == items[..i];
  }

  /** One running invocation of `process_ai_response`: its local
    * accumulator, the store it shares with the webhook and other turns, and
    * its outbound attempts. */
  class TurnProcessor {
    const userId: string
    const store: ConversationStore
    var accumulated: string
    var outbox: seq<Attempt>
    var halted: bool
    var request: Option<Dify.ChatRequest>

    ghost function State(): TurnState
      reads this, store
    {
      TurnState(accumulated, store.records, outbox, halted)
    }

    constructor (userId: string, store: ConversationStore)
      ensures this.userId == userId && this.store == store
      ensures accumulated == "" && outbox == [] && !halted && request == None
    {
      this.userId := userId;
      this.store := store;
      accumulated := "";
      outbox := [];
      halted := false;
      request := None;
    }

    /** `send_feishu_message(access_token, user_id, text)` inside its own
      * `try`: a failure is logged and swallowed. */
    method Deliver(text: string, sendOk: nat -> bool) returns (ok: bool)
      modifies this
      ensures ok == sendOk(|old(outbox)|)
      ensures outbox == old(outbox) + [Attempt(Feishu.TextMessage(userId, text), ok)]
      ensures accumulated == old(accumulated) && halted == old(halted) && request == old(request)
    {
      ok := sendOk(|outbox|);
      outbox := outbox + [Attempt(Feishu.TextMessage(userId, text), ok)];
    }

    /** The body of the `async for` loop for one item; `raised` is the text
      * of an exception that leaves the loop. */
    method OnEvent(item: Dify.Item, sendOk: nat -> bool, now: int) returns (raised: Option<string>)
      modifies this, store
      ensures Handle(old(State()), userId, EventOf(item), sendOk, now)
           == if raised.Some? then Raise(raised.value) else Continue(State())
      ensures raised.Some? ==> State() == old(State())
      ensures halted == old(halted) && request == old(request)
    {
      raised := None;
      match EventOf(item) {
        case Message(answer) =>
          if !answer.JStr? {
            raised := Some(ConcatMessage(answer));
            return;
          }
          accumulated := accumulated + answer.s;
          if |accumulated| >= ChunkThreshold {
            var ok := Deliver(accumulated, sendOk);
            if ok {
              accumulated := "";
            }
          }
        case MessageEnd(conversationId) =>
          if accumulated != "" {
            var _ := Deliver(accumulated, sendOk);
          }
          if conversationId.Some? && Truthy(conversationId.value) {
            store.Put(userId, conversationId.value, now);
          }
        case Error(message) =>
          var _ := Deliver(ErrorNoticePrefix + Show(message), sendOk);
        case Other =>
        case NotAnObject(v) =>
          raised := Some(NoGetMessage(v));
      }
    }

    /** `process_ai_response(message, user_id, conversation_id)`. */
    method Process(message: Json, conversationId: Option<Json>, env: Environment)
      modifies this, store
      ensures var r := ProcessTurn(message, userId, conversationId, env, old(store.records));
        request == r.request && State() == r.final
    {
      accumulated := "";
      outbox := [];
      halted := false;
      request := None;
      if !env.tokenOk {
        return;
      }
      request := Some(Dify.BuildRequest(message, userId, conversationId, env.freshId));
      var items := Dify.ReadStream(env.response, env.decode);
      ghost var start := State();
      assert start == Initial(old(store.records));
      var i := 0;
      while i < |items| && !halted
        invariant 0 <= i <= |items|
        invariant State() == Run(start, userId, items[..i], env.sendOk, env.clock)
        invariant request == Some(Dify.BuildRequest(message, userId, conversationId, env.freshId))
        decreases |items| - i
      {
        ghost var pre := State();
        var raised := OnEvent(items[i], env.sendOk, env.clock(i));
        if raised.Some? {
          var _ := Deliver(SystemErrorPrefix + raised.value, env.sendOk);
          halted := true;
        }
        assert State() == Step(pre, userId, items[i], env.sendOk, env.clock(i));
        RunSnoc(start, userId, items, i, env.sendOk, env.clock);
        i := i + 1;
      }
      if halted {
        RunAfterHalt(start, userId, items, i, env.sendOk, env.clock);
      } else {
        assert items[..i] == items;
      }
    }
  }
}
