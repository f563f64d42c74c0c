/** The AI stream client `call_dify_api`: the request body it posts and the
  * classification of the streamed response lines into yielded items. The
  * streaming HTTP exchange is an oracle: a response is the lines it produced
  * and, possibly, the text of the exception that ended it. */
module Dify {
  import opened Wrappers
  import opened Text
  import opened Json

  /** The `inputs` object of the request body. */
  datatype ChatInputs = ChatInputs(message: Json, sessionId: Json, stream: bool)

  /** The JSON body posted to `<endpoint>/chat-messages`; `conversationId`
    * None is JSON null. */
  datatype ChatRequest = ChatRequest(
    inputs: ChatInputs,
    query: Json,
    user: string,
    responseMode: string,
    conversationId: Option<Json>)

  /** Python's `conversation_id or str(uuid.uuid4())`; `freshId` stands for
    * the generated identifier. */
  function SessionId(conversationId: Option<Json>, freshId: string): (r: Json)
    ensures conversationId.Some? && Truthy(conversationId.value) ==> r == conversationId.value
    ensures !(conversationId.Some? && Truthy(conversationId.value)) ==> r == JStr(freshId)
    ensures freshId != "" ==> Truthy(r)
  {
    if conversationId.Some? && Truthy(conversationId.value) then conversationId.value else JStr(freshId)
  }

  /** The request body built from the message, the user key and the
    * conversation in progress, if any. */
  function BuildRequest(message: Json, user: string, conversationId: Option<Json>, freshId: string): (r: ChatRequest)
    ensures r.query == message && r.inputs.message == message && r.user == user
    ensures r.responseMode == "streaming" && r.inputs.stream
    ensures r.conversationId == conversationId
    ensures conversationId.Some? && Truthy(conversationId.value) ==> r.inputs.sessionId == conversationId.value
    ensures freshId != "" ==> Truthy(r.inputs.sessionId)
    ensures !(conversationId.Some? && Truthy(conversationId.value)) ==> r.inputs.sessionId == JStr(freshId)
  {
    ChatRequest(ChatInputs(message, SessionId(conversationId, freshId), true), message, user, "streaming", conversationId)
  }

  /** With a conversation in progress the generated identifier is not used:
    * the body depends only on the message, the user and the conversation. */
  lemma ActiveConversationIgnoresFreshId(message: Json, user: string, conversationId: Json, id1: string, id2: string)
    requires Truthy(conversationId)
    ensures BuildRequest(message, user, Some(conversationId), id1) == BuildRequest(message, user, Some(conversationId), id2)
  {
  }

  /** The response of the streaming POST: the lines `aiter_lines` delivered,
    * then either a normal end or the text of the exception (a non-2xx status,
    * a transport error) that ended the stream. */
  datatype HttpResponse = HttpResponse(lines: seq<string>, failure: Option<string>)

  /** One object the generator yields: a decoded value passed through as is,
    * or the `{"event": "error", "message": ...}` dictionary it builds. */
  datatype Item = Decoded(value: Json) | Failed(message: string)

  const DataPrefix: string := "data: "
  const McpErrorPrefix: string := "MCP API错误: "

  /** What `"error" in v` followed by `v["error"]` does to a decoded value:
    * nothing (the value is yielded), find the error field, or raise. */
  datatype ErrorProbe = Clean | ErrorField(error: Json) | Raised(message: string)

  function ProbeError(v: Json): (r: ErrorProbe)
    ensures r.ErrorField? <==> v.JObject? && "error" in v.fields
    ensures r.ErrorField? ==> r.error == v.fields["error"]
    ensures v.JObject? ==> !r.Raised?
    ensures v.JNull? || v.JBool? || v.JNum? ==> r == Raised(NotIterableMessage(v))
    ensures v.JStr? ==> (r.Raised? <==> Contains(v.s, "error"))
    ensures v.JArray? ==> (r.Raised? <==> JStr("error") in v.items)
  {
    match v
    case JObject(fields, _) => if "error" in fields then ErrorField(fields["error"]) else Clean
    case JArray(items, _) => if JStr("error") in items then Raised(ListIndexMessage) else Clean
    case JStr(s) => if Contains(s, "error") then Raised(StringIndexMessage) else Clean
    case _ => Raised(NotIterableMessage(v))
  }

  /** The decoded payload of a line: None for a line without the `data: `
    * prefix and for one whose JSON does not decode. */
  function Payload(line: string, decode: string -> Option<Json>): (r: Option<Json>)
    ensures !HasPrefix(line, DataPrefix) ==> r.None?
  {
    if HasPrefix(line, DataPrefix) then decode(line[|DataPrefix|..]) else None
  }

  /** The payload of a data line is what its text after the prefix decodes to. */
  lemma DataLinePayload(text: string, decode: string -> Option<Json>)
    ensures Payload(DataPrefix + text, decode) == decode(text)
  {
    assert (DataPrefix + text)[..|DataPrefix|] == DataPrefix;
    assert (DataPrefix + text)[|DataPrefix|..] == text;
  }

  /** A line whose payload makes the error probe raise: the exception leaves
    * the line loop and the generator ends with one error item. */
  predicate LineRaises(line: string, decode: string -> Option<Json>) {
    Payload(line, decode).Some? && ProbeError(Payload(line, decode).value).Raised?
  }

  /** What one line adds in front of the items the later lines yield. */
  function ItemsFor(line: string, decode: string -> Option<Json>, rest: seq<Item>): (r: seq<Item>)
    ensures Payload(line, decode).None? ==> r == rest
    ensures LineRaises(line, decode) ==> |r| == 1 && r[0].Failed?
    ensures Payload(line, decode).Some? && !LineRaises(line, decode) ==> |r| == |rest| + 1 && r[1..] == rest
  {
    match Payload(line, decode)
    case None => rest
    case Some(v) =>
      match ProbeError(v)
      case Clean => [Decoded(v)] + rest
      case ErrorField(e) => [Failed(McpErrorPrefix + Show(e))] + rest
      case Raised(m) => [Failed(m)]
  }

  /** The items the generator yields for the given lines and end of stream. */
  function Classify(lines: seq<string>, failure: Option<string>, decode: string -> Option<Json>): (r: seq<Item>)
    ensures failure.Some? ==> r != [] && r[|r| - 1].Failed?
    decreases |lines|
  {
    if lines == [] then
      if failure.Some? then [Failed(failure.value)] else []
    else
      ItemsFor(lines[0], decode, Classify(lines[1..], failure, decode))
  }

  /** The line loop of `call_dify_api`, collecting what it yields. */
  method ReadStream(response: HttpResponse, decode: string -> Option<Json>) returns (items: seq<Item>)
    ensures items == Classify(response.lines, response.failure, decode)
  {
    var lines, failure := response.lines, response.failure;
    items := [];
    var i := 0;
    while i < |lines|
      invariant 0 <= i <= |lines|
      invariant items + Classify(lines[i..], failure, decode) == Classify(lines, failure, decode)
    {
      var line := lines[i];
      ghost var rest := Classify(lines[i + 1..], failure, decode);
      assert Classify(lines[i..], failure, decode) == ItemsFor(line, decode, rest) by {
        assert lines[i..][0] == line && lines[i..][1..] == lines[i + 1..];
      }
      ghost var before := items;
      if HasPrefix(line, DataPrefix) {
        var parsed := decode(line[|DataPrefix|..]);
        assert parsed == Payload(line, decode);
        if parsed.Some? {
          match ProbeError(parsed.value) {
            case Clean =>
              items := items + [Decoded(parsed.value)];
              assert items + rest == before + ([Decoded(parsed.value)] + rest);
            case ErrorField(e) =>
              items := items + [Failed(McpErrorPrefix + Show(e))];
              assert items + rest == before + ([Failed(McpErrorPrefix + Show(e))] + rest);
            case Raised(m) =>
              items := items + [Failed(m)];
              return;
          }
        }
      }
      i := i + 1;
    }
    if failure.Some? {
      items := items + [Failed(failure.value)];
    }
  }

  /** At most one item per line, plus the terminal error. */
  lemma {:induction false} ClassifyLength(lines: seq<string>, failure: Option<string>, decode: string -> Option<Json>)
    ensures |Classify(lines, failure, decode)| <= |lines| + 1
    decreases |lines|
  {
    if lines != [] {
      ClassifyLength(lines[1..], failure, decode);
    }
  }

  /** Every decoded item is free of an `error` field and is the payload of
    * one of the lines. */
  ghost predicate PassedThrough(items: seq<Item>, lines: seq<string>, decode: string -> Option<Json>) {
    forall k | 0 <= k < |items| && items[k].Decoded? ::
      ProbeError(items[k].value).Clean? &&
      exists j | 0 <= j < |lines| :: Payload(lines[j], decode) == Some(items[k].value)
  }

  /** Every value passed through unchanged is one a data line decoded to, and
    * carries no `error` field. */
  lemma {:induction false} DecodedItemsComeFromDataLines(lines: seq<string>, failure: Option<string>, decode: string -> Option<Json>)
    ensures PassedThrough(Classify(lines, failure, decode), lines, decode)
    decreases |lines|
  {
    if lines != [] {
      DecodedItemsComeFromDataLines(lines[1..], failure, decode);
      var items := Classify(lines, failure, decode);
      var rest := Classify(lines[1..], failure, decode);
      forall k | 0 <= k < |items| && items[k].Decoded?
        ensures ProbeError(items[k].value).Clean?
        ensures exists j | 0 <= j < |lines| :: Payload(lines[j], decode) == Some(items[k].value)
      {
        var p := Payload(lines[0], decode);
        assert items == ItemsFor(lines[0], decode, rest);
        if p.Some? && ProbeError(p.value).Clean? && k == 0 {
          assert items[k] == Decoded(p.value);
        } else {
          var k' := if p.None? then k else k - 1;
          assert 0 <= k' < |rest| && items[k] == rest[k'];
          var j :| 0 <= j < |lines[1..]| && Payload(lines[1..][j], decode) == Some(rest[k'].value);
          assert lines[1..][j] == lines[j + 1];
        }
      }
    }
  }

  /** A line that is not a data line, or whose JSON fails to decode, is
    * skipped wherever it stands: the stream yields as if it were absent. */
  lemma {:induction false} SkippedLineIsInvisible(pre: seq<string>, line: string, post: seq<string>, failure: Option<string>, decode: string -> Option<Json>)
    requires Payload(line, decode).None?
    ensures Classify(pre + [line] + post, failure, decode) == Classify(pre + post, failure, decode)
    decreases |pre|
  {
    if pre == [] {
      assert pre + [line] + post == [line] + post;
      assert ([line] + post)[0] == line && ([line] + post)[1..] == post;
      assert pre + post == post;
    } else {
      SkippedLineIsInvisible(pre[1..], line, post, failure, decode);
      assert (pre + [line] + post)[1..] == pre[1..] + [line] + post;
      assert (pre + post)[1..] == pre[1..] + post;
    }
  }

  /** When no line raises, a transport failure adds exactly one error item,
    * at the end, to what the lines yield. */
  lemma {:induction false} TransportFailureIsLast(lines: seq<string>, error: string, decode: string -> Option<Json>)
    requires forall j | 0 <= j < |lines| :: !LineRaises(lines[j], decode)
    ensures Classify(lines, Some(error), decode) == Classify(lines, None, decode) + [Failed(error)]
    decreases |lines|
  {
    if lines != [] {
      assert !LineRaises(lines[0], decode);
      forall j | 0 <= j < |lines[1..]| ensures !LineRaises(lines[1..][j], decode) {
        assert lines[1..][j] == lines[j + 1];
      }
      TransportFailureIsLast(lines[1..], error, decode);
    }
  }

  /** Classification of a line followed by more lines. */
  lemma ClassifyCons(line: string, lines: seq<string>, failure: Option<string>, decode: string -> Option<Json>)
    ensures Classify([line] + lines, failure, decode) == ItemsFor(line, decode, Classify(lines, failure, decode))
  {
    assert ([line] + lines)[0] == line && ([line] + lines)[1..] == lines;
  }

  /** When no line of `pre` raises, the lines after it are classified on
    * their own and their items follow those of `pre`. */
  lemma {:induction false} ClassifyAppend(pre: seq<string>, rest: seq<string>, failure: Option<string>, decode: string -> Option<Json>)
    requires forall j | 0 <= j < |pre| :: !LineRaises(pre[j], decode)
    ensures Classify(pre + rest, failure, decode) == Classify(pre, None, decode) + Classify(rest, failure, decode)
    decreases |pre|
  {
    if pre == [] {
      assert pre + rest == rest;
    } else {
      var q := pre[1..];
      forall j | 0 <= j < |q| ensures !LineRaises(q[j], decode) {
        assert q[j] == pre[j + 1];
      }
      ClassifyAppend(q, rest, failure, decode);
      assert (pre + rest)[0] == pre[0] && (pre + rest)[1..] == q + rest;
      assert !LineRaises(pre[0], decode);
      ItemsForAppend(pre[0], decode, Classify(q, None, decode), Classify(rest, failure, decode));
    }
  }

  /** A line that does not raise contributes what it yields on its own, in
    * its place between what the lines before and after it yield. */
  lemma NonRaisingLineInPlace(pre: seq<string>, line: string, post: seq<string>, failure: Option<string>, decode: string -> Option<Json>)
    requires forall j | 0 <= j < |pre| :: !LineRaises(pre[j], decode)
    requires !LineRaises(line, decode)
    ensures Classify(pre + [line] + post, failure, decode)
         == Classify(pre, None, decode) + ItemsFor(line, decode, []) + Classify(post, failure, decode)
  {
    assert pre + [line] + post == pre + ([line] + post);
    ClassifyAppend(pre, [line] + post, failure, decode);
    ClassifyCons(line, post, failure, decode);
    ItemsForAppend(line, decode, [], Classify(post, failure, decode));
  }

  /** What a line that does not raise yields does not depend on what follows. */
  lemma ItemsForAppend(line: string, decode: string -> Option<Json>, rest: seq<Item>, more: seq<Item>)
    requires !LineRaises(line, decode)
    ensures ItemsFor(line, decode, rest + more) == ItemsFor(line, decode, rest) + more
  {
    if Payload(line, decode).Some? {
      var x := ItemsFor(line, decode, rest)[0];
      assert ItemsFor(line, decode, rest) == [x] + rest;
      assert ItemsFor(line, decode, rest + more) == [x] + (rest + more);
    }
  }

  /** A decoded value without an `error` field is yielded unchanged, in the
    * place of its line. */
  lemma CleanLineIsYielded(pre: seq<string>, line: string, post: seq<string>, failure: Option<string>, decode: string -> Option<Json>, v: Json)
    requires forall j | 0 <= j < |pre| :: !LineRaises(pre[j], decode)
    requires Payload(line, decode) == Some(v) && ProbeError(v).Clean?
    ensures Classify(pre + [line] + post, failure, decode)
         == Classify(pre, None, decode) + [Decoded(v)] + Classify(post, failure, decode)
  {
    NonRaisingLineInPlace(pre, line, post, failure, decode);
  }

  /** A decoded object with an `error` field becomes one error item whose
    * message is the prefixed `str()` of that field, in the place of its line. */
  lemma ErrorFieldBecomesFailure(pre: seq<string>, line: string, post: seq<string>, failure: Option<string>, decode: string -> Option<Json>, v: Json)
    requires forall j | 0 <= j < |pre| :: !LineRaises(pre[j], decode)
    requires Payload(line, decode) == Some(v) && v.JObject? && "error" in v.fields
    ensures Classify(pre + [line] + post, failure, decode)
         == Classify(pre, None, decode) + [Failed(McpErrorPrefix + Show(v.fields["error"]))] + Classify(post, failure, decode)
  {
    NonRaisingLineInPlace(pre, line, post, failure, decode);
  }

  /** A line on which the error probe raises ends the stream with one error
    * item carrying the exception text: later lines and the transport outcome
    * are never looked at. */
  lemma {:induction false} RaisingLineEndsStream(pre: seq<string>, line: string, post: seq<string>, failure: Option<string>, decode: string -> Option<Json>)
    requires forall j | 0 <= j < |pre| :: !LineRaises(pre[j], decode)
    requires LineRaises(line, decode)
    ensures Classify(pre + [line] + post, failure, decode)
         == Classify(pre, None, decode) + [Failed(ProbeError(Payload(line, decode).value).message)]
    decreases |pre|
  {
    if pre == [] {
      assert pre + [line] + post == [line] + post;
    } else {
      assert !LineRaises(pre[0], decode);
      forall j | 0 <= j < |pre[1..]| ensures !LineRaises(pre[1..][j], decode) {
        assert pre[1..][j] == pre[j + 1];
      }
      RaisingLineEndsStream(pre[1..], line, post, failure, decode);
      assert (pre + [line] + post)[1..] == pre[1..] + [line] + post;
    }
  }
}
