/** What a turn guarantees: chunk sizes, order and completeness of delivered
  * text, the accumulator bound, the store frame, error translation and the
  * token-failure path. All are stated about the specification in module Turn,
  * which TurnProcessor.Process is proved to implement. */
module TurnProperties {
  import opened Wrappers
  import opened Json
  import Feishu
  import Dify
  import opened Conversations
  import opened Turn

  /** The item is a `message` event whose `answer` is a string. */
  predicate IsFragment(item: Dify.Item) {
    EventOf(item).Message? && EventOf(item).answer.JStr?
  }

  function FragmentOf(item: Dify.Item): string
    requires IsFragment(item)
  {
    EventOf(item).answer.s
  }

  /** The answer fragments of the items, concatenated in arrival order. */
  function Fragments(items: seq<Dify.Item>): string
    requires forall i | 0 <= i < |items| :: IsFragment(items[i])
    decreases |items|
  {
    if items == [] then "" else
      var n := |items| - 1;
      assert IsFragment(items[n]);
      Fragments(items[..n]) + FragmentOf(items[n])
  }

  /** The texts of the attempts that succeeded, concatenated in order. */
  function DeliveredText(outbox: seq<Attempt>): string
    decreases |outbox|
  {
    if outbox == [] then "" else
      var n := |outbox| - 1;
      DeliveredText(outbox[..n]) + (if outbox[n].delivered then outbox[n].message.text else "")
  }

  /** Every delivery succeeds. */
  ghost predicate AllDelivered(sendOk: nat -> bool) {
    forall k: nat :: sendOk(k)
  }

  /** Each attempt goes to `userId`, with the target kind its prefix selects,
    * and the k-th attempt's outcome is the oracle's answer for k. */
  ghost predicate OutboxFollows(outbox: seq<Attempt>, userId: string, sendOk: nat -> bool) {
    forall k | 0 <= k < |outbox| ::
      && outbox[k].delivered == sendOk(k)
      && outbox[k].message.receiveId == userId
      && outbox[k].message.receiveIdType == Feishu.ReceiveIdTypeOf(userId)
      && outbox[k].message.msgType == "text"
  }

  lemma StepOutbox(st: TurnState, userId: string, item: Dify.Item, sendOk: nat -> bool, now: int)
    ensures var r := Step(st, userId, item, sendOk, now);
      |st.outbox| <= |r.outbox| <= |st.outbox| + 1 && r.outbox[..|st.outbox|] == st.outbox
    ensures OutboxFollows(st.outbox, userId, sendOk) ==> OutboxFollows(Step(st, userId, item, sendOk, now).outbox, userId, sendOk)
  {
    if !st.halted {
      match EventOf(item) {
        case Message(_) =>
        case MessageEnd(_) =>
        case Error(_) =>
        case Other =>
        case NotAnObject(_) =>
      }
    }
  }

  /** Attempts are only ever appended, at most one per item, and they all
    * follow the oracle and target the turn's user. */
  lemma {:induction false} RunOutbox(st: TurnState, userId: string, items: seq<Dify.Item>, sendOk: nat -> bool, clock: nat -> int)
    ensures var r := Run(st, userId, items, sendOk, clock);
      |st.outbox| <= |r.outbox| <= |st.outbox| + |items| && r.outbox[..|st.outbox|] == st.outbox
    ensures OutboxFollows(st.outbox, userId, sendOk) ==> OutboxFollows(Run(st, userId, items, sendOk, clock).outbox, userId, sendOk)
    decreases |items|
  {
    if items != [] {
      var n := |items| - 1;
      RunOutbox(st, userId, items[..n], sendOk, clock);
      var p := Run(st, userId, items[..n], sendOk, clock);
      StepOutbox(p, userId, items[n], sendOk, clock(n));
      var r := Run(st, userId, items, sendOk, clock);
      assert r.outbox[..|st.outbox|] == r.outbox[..|p.outbox|][..|st.outbox|];
    }
  }

  /** A turn only ever writes the entry of its own user, only with a truthy
    * conversation id, and only with the id and time of one of its
    * `message_end` events. */
  lemma {:induction false} RunStoreFrame(st: TurnState, userId: string, items: seq<Dify.Item>, sendOk: nat -> bool, clock: nat -> int)
    ensures var r := Run(st, userId, items, sendOk, clock);
      forall key | key != userId :: (key in r.store <==> key in st.store) && (key in st.store ==> r.store[key] == st.store[key])
    ensures WellFormed(st.store) ==> WellFormed(Run(st, userId, items, sendOk, clock).store)
    ensures var r := Run(st, userId, items, sendOk, clock);
      userId in r.store ==>
        (userId in st.store && r.store[userId] == st.store[userId]) ||
        exists i | 0 <= i < |items| ::
          EventOf(items[i]) == MessageEnd(Some(r.store[userId].conversationId)) && r.store[userId].updatedAt == clock(i)
    decreases |items|
  {
    if items != [] {
      var n := |items| - 1;
      RunStoreFrame(st, userId, items[..n], sendOk, clock);
      var p := Run(st, userId, items[..n], sendOk, clock);
      var r := Run(st, userId, items, sendOk, clock);
      if userId in r.store && !(userId in p.store && r.store[userId] == p.store[userId]) {
        assert EventOf(items[n]) == MessageEnd(Some(r.store[userId].conversationId)) && r.store[userId].updatedAt == clock(n);
      } else if userId in r.store && !(userId in st.store && r.store[userId] == st.store[userId]) {
        var i :| 0 <= i < |items[..n]| &&
          EventOf(items[..n][i]) == MessageEnd(Some(p.store[userId].conversationId)) && p.store[userId].updatedAt == clock(i);
        assert items[..n][i] == items[i];
      }
    }
  }

  lemma StepStoreIgnoresDelivery(s1: TurnState, s2: TurnState, userId: string, item: Dify.Item, ok1: nat -> bool, ok2: nat -> bool, now: int)
    requires s1.store == s2.store && s1.halted == s2.halted
    ensures Step(s1, userId, item, ok1, now).store == Step(s2, userId, item, ok2, now).store
    ensures Step(s1, userId, item, ok1, now).halted == Step(s2, userId, item, ok2, now).halted
  {
  }

  /** Which deliveries fail, and what the accumulator and earlier attempts
    * hold, never changes whether the loop is left or which conversation ends
    * up stored: a failed chunk does not stop the turn. */
  lemma {:induction false} RunStoreIgnoresDelivery(s1: TurnState, s2: TurnState, userId: string, items: seq<Dify.Item>, ok1: nat -> bool, ok2: nat -> bool, clock: nat -> int)
    requires s1.store == s2.store && s1.halted == s2.halted
    ensures Run(s1, userId, items, ok1, clock).store == Run(s2, userId, items, ok2, clock).store
    ensures Run(s1, userId, items, ok1, clock).halted == Run(s2, userId, items, ok2, clock).halted
    decreases |items|
  {
    if items != [] {
      var n := |items| - 1;
      RunStoreIgnoresDelivery(s1, s2, userId, items[..n], ok1, ok2, clock);
      StepStoreIgnoresDelivery(Run(s1, userId, items[..n], ok1, clock), Run(s2, userId, items[..n], ok2, clock), userId, items[n], ok1, ok2, clock(n));
    }
  }

  /** While every delivery succeeds the accumulator stays below the
    * threshold between events. */
  lemma {:induction false} AccumulatorStaysShort(st: TurnState, userId: string, items: seq<Dify.Item>, sendOk: nat -> bool, clock: nat -> int)
    requires AllDelivered(sendOk)
    requires |st.acc| < ChunkThreshold
    ensures |Run(st, userId, items, sendOk, clock).acc| < ChunkThreshold
    decreases |items|
  {
    if items != [] {
      var n := |items| - 1;
      AccumulatorStaysShort(st, userId, items[..n], sendOk, clock);
      var p := Run(st, userId, items[..n], sendOk, clock);
      assert sendOk(|p.outbox|);
    }
  }

  /** On a `message` event the fragment is appended; a delivery happens
    * exactly when the grown accumulator reaches the threshold, and the
    * accumulator is cleared only when that delivery succeeds. */
  lemma MessageChunking(st: TurnState, userId: string, item: Dify.Item, sendOk: nat -> bool, now: int)
    requires !st.halted && IsFragment(item)
    ensures var r := Step(st, userId, item, sendOk, now); var grown := st.acc + EventOf(item).answer.s;
      && !r.halted && r.store == st.store
      && (|r.outbox| == |st.outbox| + 1 <==> |grown| >= ChunkThreshold)
      && (|r.outbox| == |st.outbox| <==> |grown| < ChunkThreshold)
      && (|grown| >= ChunkThreshold ==> r.outbox[|st.outbox|].message.text == grown)
      && (r.acc == grown || (r.acc == "" && |grown| >= ChunkThreshold && r.outbox[|st.outbox|].delivered))
      && (|grown| >= ChunkThreshold && !sendOk(|st.outbox|) ==> r.acc == grown)
  {
  }

  lemma AppendAssoc(a: string, b: string, c: string)
    ensures a + (b + c) == (a + b) + c
  {
  }

  lemma FragmentStepNoLoss(st: TurnState, userId: string, item: Dify.Item, sendOk: nat -> bool, now: int)
    requires !st.halted && IsFragment(item)
    ensures var r := Step(st, userId, item, sendOk, now);
      && !r.halted && r.store == st.store
      && DeliveredText(r.outbox) + r.acc == DeliveredText(st.outbox) + (st.acc + FragmentOf(item))
  {
    var r := Step(st, userId, item, sendOk, now);
    var grown := st.acc + FragmentOf(item);
    if |grown| >= ChunkThreshold {
      assert r.outbox[..|st.outbox|] == st.outbox;
      assert DeliveredText(r.outbox) == DeliveredText(st.outbox) + (if sendOk(|st.outbox|) then grown else "");
    }
  }

  /** With only `message` events, the text delivered so far followed by the
    * accumulator is always every fragment in arrival order: nothing is lost,
    * repeated or reordered, whichever deliveries fail. */
  lemma {:induction false} FragmentsNoLoss(st: TurnState, userId: string, items: seq<Dify.Item>, sendOk: nat -> bool, clock: nat -> int)
    requires !st.halted
    requires forall i | 0 <= i < |items| :: IsFragment(items[i])
    ensures var r := Run(st, userId, items, sendOk, clock);
      && !r.halted && r.store == st.store
      && DeliveredText(r.outbox) + r.acc == DeliveredText(st.outbox) + st.acc + Fragments(items)
    decreases |items|
  {
    if items != [] {
      var n := |items| - 1;
      FragmentsNoLoss(st, userId, items[..n], sendOk, clock);
      var p := Run(st, userId, items[..n], sendOk, clock);
      assert IsFragment(items[n]);
      FragmentStepNoLoss(p, userId, items[n], sendOk, clock(n));
      var r := Run(st, userId, items, sendOk, clock);
      assert r == Step(p, userId, items[n], sendOk, clock(n));
      var f := FragmentOf(items[n]);
      var base := DeliveredText(st.outbox) + st.acc;
      AppendAssoc(DeliveredText(p.outbox), p.acc, f);
      AppendAssoc(base, Fragments(items[..n]), f);
      assert Fragments(items) == Fragments(items[..n]) + f;
    }
  }

  /** With only `message` events every chunk delivered mid-turn is at least
    * the threshold long. */
  lemma {:induction false} ChunksReachThreshold(st: TurnState, userId: string, items: seq<Dify.Item>, sendOk: nat -> bool, clock: nat -> int)
    requires !st.halted
    requires forall i | 0 <= i < |items| :: IsFragment(items[i])
    ensures var r := Run(st, userId, items, sendOk, clock);
      forall k | |st.outbox| <= k < |r.outbox| :: |r.outbox[k].message.text| >= ChunkThreshold
    decreases |items|
  {
    if items != [] {
      var n := |items| - 1;
      ChunksReachThreshold(st, userId, items[..n], sendOk, clock);
      FragmentsNoLoss(st, userId, items[..n], sendOk, clock);
      var p := Run(st, userId, items[..n], sendOk, clock);
      MessageChunking(p, userId, items[n], sendOk, clock(n));
      StepOutbox(p, userId, items[n], sendOk, clock(n));
      var r := Run(st, userId, items, sendOk, clock);
      forall k | |st.outbox| <= k < |r.outbox| ensures |r.outbox[k].message.text| >= ChunkThreshold {
        if k < |p.outbox| {
          assert r.outbox[k] == r.outbox[..|p.outbox|][k];
        }
      }
    }
  }

  /** While the fragments stay below the threshold nothing is sent: they
    * simply pile up in the accumulator. */
  lemma {:induction false} ShortFragmentsAccumulate(st: TurnState, userId: string, items: seq<Dify.Item>, sendOk: nat -> bool, clock: nat -> int)
    requires !st.halted
    requires forall i | 0 <= i < |items| :: IsFragment(items[i])
    requires |st.acc + Fragments(items)| < ChunkThreshold
    ensures var r := Run(st, userId, items, sendOk, clock);
      !r.halted && r.outbox == st.outbox && r.store == st.store && r.acc == st.acc + Fragments(items)
    decreases |items|
  {
    if items != [] {
      var n := |items| - 1;
      ShortFragmentsAccumulate(st, userId, items[..n], sendOk, clock);
    }
  }

  /** The first chunk is sent by the fragment that brings the accumulated
    * text to the threshold, and it is all the fragments so far. */
  lemma FirstChunkIsAllFragments(userId: string, store: Records, items: seq<Dify.Item>, sendOk: nat -> bool, clock: nat -> int)
    requires items != []
    requires forall i | 0 <= i < |items| :: IsFragment(items[i])
    requires |Fragments(items[..|items| - 1])| < ChunkThreshold <= |Fragments(items)|
    ensures var r := Run(Initial(store), userId, items, sendOk, clock);
      && r.outbox == [Attempt(Feishu.TextMessage(userId, Fragments(items)), sendOk(0))]
      && r.acc == (if sendOk(0) then "" else Fragments(items))
  {
    var n := |items| - 1;
    ShortFragmentsAccumulate(Initial(store), userId, items[..n], sendOk, clock);
    var p := Run(Initial(store), userId, items[..n], sendOk, clock);
    assert IsFragment(items[n]);
    assert Fragments(items) == p.acc + FragmentOf(items[n]);
    MessageChunking(p, userId, items[n], sendOk, clock(n));
  }

  /** An answer shorter than the threshold is delivered once, whole, when
    * the `message_end` event arrives. */
  lemma ShortAnswerSentOnceAtEnd(userId: string, store: Records, frags: seq<Dify.Item>, end: Dify.Item, sendOk: nat -> bool, clock: nat -> int)
    requires forall i | 0 <= i < |frags| :: IsFragment(frags[i])
    requires 0 < |Fragments(frags)| < ChunkThreshold
    requires EventOf(end).MessageEnd?
    ensures Run(Initial(store), userId, frags + [end], sendOk, clock).outbox
         == [Attempt(Feishu.TextMessage(userId, Fragments(frags)), sendOk(0))]
  {
    ShortFragmentsAccumulate(Initial(store), userId, frags, sendOk, clock);
    var items := frags + [end];
    assert items[..|frags|] == frags && items[|frags|] == end;
    var p := Run(Initial(store), userId, frags, sendOk, clock);
    assert Run(Initial(store), userId, items, sendOk, clock) == Step(p, userId, end, sendOk, clock(|frags|));
    assert p.outbox == [] && p.acc == Fragments(frags);
    var c := EventOf(end).conversationId;
    assert Handle(p, userId, MessageEnd(c), sendOk, clock(|frags|)).next.outbox == Send(p, userId, p.acc, sendOk).outbox;
  }

  /** On `message_end` the remainder is sent exactly once if there is one,
    * the accumulator is kept, and the store gets the user's conversation id
    * only when the event carries a truthy one. */
  lemma MessageEndStep(st: TurnState, userId: string, item: Dify.Item, sendOk: nat -> bool, now: int)
    requires !st.halted && EventOf(item).MessageEnd?
    ensures var r := Step(st, userId, item, sendOk, now); var c := EventOf(item).conversationId;
      && !r.halted && r.acc == st.acc
      && |r.outbox| == |st.outbox| + (if st.acc == "" then 0 else 1)
      && (st.acc != "" ==> r.outbox[|st.outbox|].message.text == st.acc)
      && r.store == (if c.Some? && Truthy(c.value) then st.store[userId := ConversationRecord(c.value, now)] else st.store)
  {
  }

  /** With a successful delivery, `message_end` adds the whole remainder to
    * the delivered text. */
  lemma EndStepDelivers(st: TurnState, userId: string, item: Dify.Item, sendOk: nat -> bool, now: int)
    requires !st.halted && EventOf(item).MessageEnd? && sendOk(|st.outbox|)
    ensures DeliveredText(Step(st, userId, item, sendOk, now).outbox) == DeliveredText(st.outbox) + st.acc
  {
    var r := Step(st, userId, item, sendOk, now);
    if st.acc != "" {
      assert r.outbox[..|st.outbox|] == st.outbox;
      assert r.outbox[|st.outbox|] == Attempt(Feishu.TextMessage(userId, st.acc), true);
    } else {
      assert r.outbox == st.outbox;
    }
  }

  /** A stream of fragments closed by `message_end`, with every delivery
    * succeeding, delivers exactly the fragments in order, all to the user,
    * and stores the conversation id the end event carries if it is truthy. */
  lemma CompleteTurnDeliversAnswer(userId: string, store: Records, frags: seq<Dify.Item>, end: Dify.Item, sendOk: nat -> bool, clock: nat -> int)
    requires forall i | 0 <= i < |frags| :: IsFragment(frags[i])
    requires EventOf(end).MessageEnd?
    requires AllDelivered(sendOk)
    ensures var r := Run(Initial(store), userId, frags + [end], sendOk, clock); var c := EventOf(end).conversationId;
      && !r.halted
      && DeliveredText(r.outbox) == Fragments(frags)
      && (forall k | 0 <= k < |r.outbox| :: r.outbox[k].delivered && r.outbox[k].message.receiveId == userId)
      && r.store == (if c.Some? && Truthy(c.value) then store[userId := ConversationRecord(c.value, clock(|frags|))] else store)
  {
    var items := frags + [end];
    var n := |frags|;
    assert items[..n] == frags && items[n] == end;
    var p := Run(Initial(store), userId, frags, sendOk, clock);
    var r := Run(Initial(store), userId, items, sendOk, clock);
    assert r == Step(p, userId, end, sendOk, clock(n));
    FragmentsNoLoss(Initial(store), userId, frags, sendOk, clock);
    assert DeliveredText(p.outbox) + p.acc == Fragments(frags) by {
      assert DeliveredText(Initial(store).outbox) + Initial(store).acc == "";
    }
    assert sendOk(|p.outbox|);
    EndStepDelivers(p, userId, end, sendOk, clock(n));
    MessageEndStep(p, userId, end, sendOk, clock(n));
    RunOutbox(Initial(store), userId, items, sendOk, clock);
    assert OutboxFollows(r.outbox, userId, sendOk);
  }

  /** `message_end` does not clear the accumulator: a second one sends the
    * same remainder again. */
  lemma EndDoesNotClearRemainder(st: TurnState, userId: string, end1: Dify.Item, end2: Dify.Item, sendOk: nat -> bool, clock: nat -> int)
    requires !st.halted && st.acc != ""
    requires EventOf(end1).MessageEnd? && EventOf(end2).MessageEnd?
    ensures var r := Run(st, userId, [end1, end2], sendOk, clock);
      && |r.outbox| == |st.outbox| + 2
      && r.outbox[|st.outbox|].message.text == st.acc
      && r.outbox[|st.outbox| + 1].message.text == st.acc
  {
    var items := [end1, end2];
    assert items[..1] == [end1] && [end1][..0] == [];
    var p := Run(st, userId, [end1], sendOk, clock);
    assert Run(st, userId, [end1][..0], sendOk, clock) == st;
    assert p == Step(st, userId, end1, sendOk, clock(0));
    MessageEndStep(st, userId, end1, sendOk, clock(0));
    assert Run(st, userId, items, sendOk, clock) == Step(p, userId, end2, sendOk, clock(1));
    MessageEndStep(p, userId, end2, sendOk, clock(1));
    StepOutbox(p, userId, end2, sendOk, clock(1));
    var r := Run(st, userId, items, sendOk, clock);
    assert r.outbox[|st.outbox|] == r.outbox[..|p.outbox|][|st.outbox|];
  }

  /** An `error` event, whether from the AI backend or built by the stream
    * client, sends exactly one notice and changes nothing else. */
  lemma ErrorEventStep(st: TurnState, userId: string, item: Dify.Item, sendOk: nat -> bool, now: int)
    requires !st.halted && EventOf(item).Error?
    ensures var r := Step(st, userId, item, sendOk, now);
      && !r.halted && r.acc == st.acc && r.store == st.store
      && r.outbox == st.outbox + [Attempt(Feishu.TextMessage(userId, ErrorNoticePrefix + Show(EventOf(item).message)), sendOk(|st.outbox|))]
    ensures item.Failed? ==> Step(st, userId, item, sendOk, now).outbox[|st.outbox|].message.text == ErrorNoticePrefix + item.message
    ensures item.Decoded? && item.value.JObject? && "message" !in item.value.fields ==>
      Step(st, userId, item, sendOk, now).outbox[|st.outbox|].message.text == ErrorNoticePrefix + UnknownError
  {
  }

  /** Any other event type is ignored. */
  lemma OtherEventIgnored(st: TurnState, userId: string, item: Dify.Item, sendOk: nat -> bool, now: int)
    requires EventOf(item).Other?
    ensures Step(st, userId, item, sendOk, now) == st
  {
  }

  /** An item the loop body cannot handle (not a dictionary, or an answer
    * that is not a string) leaves the loop: one system-error notice is sent,
    * the accumulator and store are kept, and later items are ignored. */
  lemma ExceptionEndsTurn(st: TurnState, userId: string, items: seq<Dify.Item>, n: nat, sendOk: nat -> bool, clock: nat -> int)
    requires n < |items|
    requires !Run(st, userId, items[..n], sendOk, clock).halted
    requires EventOf(items[n]).NotAnObject? || (EventOf(items[n]).Message? && !EventOf(items[n]).answer.JStr?)
    ensures var p := Run(st, userId, items[..n], sendOk, clock); var r := Run(st, userId, items, sendOk, clock);
      && r.halted && r.acc == p.acc && r.store == p.store
      && |r.outbox| == |p.outbox| + 1
      && r.outbox[|p.outbox|].message.text ==
           SystemErrorPrefix + (if EventOf(items[n]).NotAnObject? then NoGetMessage(EventOf(items[n]).value)
                                else ConcatMessage(EventOf(items[n]).answer))
  {
    assert items[..n + 1][..n] == items[..n];
    RunAfterHalt(st, userId, items, n + 1, sendOk, clock);
  }

  /** Without a token the turn opens no AI request, sends nothing and leaves
    * the store alone. */
  lemma TokenFailureIsSilent(message: Json, userId: string, conversationId: Option<Json>, env: Environment, store: Records)
    requires !env.tokenOk
    ensures var r := ProcessTurn(message, userId, conversationId, env, store);
      r.request.None? && r.final.outbox == [] && r.final.store == store
  {
  }

  /** A malformed line (not a data line, or undecodable JSON) anywhere in the
    * AI response makes no difference to the turn. */
  lemma MalformedLineDoesNotInterrupt(message: Json, userId: string, conversationId: Option<Json>, env: Environment, store: Records,
                                      pre: seq<string>, bad: string, post: seq<string>)
    requires env.response.lines == pre + [bad] + post
    requires Dify.Payload(bad, env.decode).None?
    ensures ProcessTurn(message, userId, conversationId, env, store)
         == ProcessTurn(message, userId, conversationId, env.(response := env.response.(lines := pre + post)), store)
  {
    Dify.SkippedLineIsInvisible(pre, bad, post, env.response.failure, env.decode);
  }

  /** Every attempt of a whole turn targets the turn's user, and the store
    * keeps only truthy conversation ids. */
  lemma TurnTargetsUser(message: Json, userId: string, conversationId: Option<Json>, env: Environment, store: Records)
    requires WellFormed(store)
    ensures var r := ProcessTurn(message, userId, conversationId, env, store);
      && OutboxFollows(r.final.outbox, userId, env.sendOk)
      && WellFormed(r.final.store)
      && forall key | key != userId :: (key in r.final.store <==> key in store) && (key in store ==> r.final.store[key] == store[key])
  {
    if env.tokenOk {
      var items := Dify.Classify(env.response.lines, env.response.failure, env.decode);
      RunOutbox(Initial(store), userId, items, env.sendOk, env.clock);
      RunStoreFrame(Initial(store), userId, items, env.sendOk, env.clock);
    }
  }
}
