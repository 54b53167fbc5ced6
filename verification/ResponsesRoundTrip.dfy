/** Printing a run as an OpenAI Responses stream, decoding it and collecting it: everything but reasoning comes back. */
module ResponsesRoundTrip {
  import opened Canonical
  import opened Collector
  import opened Decimals
  import opened Json
  import opened OrderlyRuns
  import opened ResponsesStream
  import opened RoundTrips
  import opened StopReasons
  import opened StreamTypes
  import opened Streams
  import opened Wrappers

  // ---- Keys -------------------------------------------------------------------------------

  function CallKey(index: int): string {
    "item:" + ToolKey(index)
  }

  function TextKey(index: int, text: JsonText): string {
    "item:" + MessageKey(index) + ":content:" + text.format(Num(0))
  }

  /** The keys under which the decoder numbers the blocks of different items never collide. */
  lemma {:induction false} KeysNeverCollide(i: int, j: int, text: JsonText)
    ensures CallKey(i) != TextKey(j, text)
    ensures CallKey(i) == CallKey(j) ==> i == j
    ensures TextKey(i, text) == TextKey(j, text) ==> i == j
  {
    hide Decimal;
    assert CallKey(i)[5] == 'f' && TextKey(j, text)[5] == 'm';
    DecimalInjective(i, j);
    SameInTheMiddle("item:fc_", Decimal(i), Decimal(j), "");
    assert CallKey(i) == "item:fc_" + Decimal(i) + "" && CallKey(j) == "item:fc_" + Decimal(j) + "";
    var suffix := ":content:" + text.format(Num(0));
    SameInTheMiddle("item:msg_", Decimal(i), Decimal(j), suffix);
    TextKeySplits(i, text);
    TextKeySplits(j, text);
  }

  lemma {:induction false} TextKeySplits(i: int, text: JsonText)
    ensures TextKey(i, text) == "item:msg_" + Decimal(i) + (":content:" + text.format(Num(0)))
  {
    hide Decimal;
    assert "item:" + ("msg_" + Decimal(i)) == "item:msg_" + Decimal(i);
  }

  lemma {:induction false} SameInTheMiddle(prefix: string, a: string, b: string, suffix: string)
    ensures prefix + a + suffix == prefix + b + suffix ==> a == b
  {
    var x, y := prefix + a + suffix, prefix + b + suffix;
    if x == y {
      assert x[|prefix|..|x| - |suffix|] == a && y[|prefix|..|y| - |suffix|] == b;
    }
  }

  function Key(kind: ContentType, index: int, text: JsonText): string {
    if kind == ToolCallType then CallKey(index) else TextKey(index, text)
  }

  // ---- What survives ----------------------------------------------------------------------

  // A call without an id is given the generated item id.
  function Named(e: StreamEvent): StreamEvent {
    match Image(e)
    case ContentStart(index, c) =>
      ContentStart(index, if c.kind == ToolCallType && c.id == "" then c.(id := ToolKey(index)) else c)
    case other => other
  }

  function NamedAll(es: seq<StreamEvent>): (r: seq<StreamEvent>)
    ensures |r| == |es|
  {
    seq(|es|, i requires 0 <= i < |es| => Named(es[i]))
  }

  // What a run collects to once every call has an id.
  function Labelled(es: seq<StreamEvent>, text: JsonText): Collected {
    ApplyAll(EMPTY, NamedAll(es), text)
  }

  function WithoutReasoning(contents: seq<Content>): seq<Content> {
    if contents == [] then []
    else
      var n := |contents| - 1;
      var before := WithoutReasoning(contents[..n]);
      if contents[n].kind == ReasoningType then before else before + [contents[n]]
  }

  predicate HasCall(contents: seq<Content>) {
    exists c :: c in contents && c.kind == ToolCallType
  }

  function SurvivingStop(stopReason: string, hadTool: bool): string {
    var status := ResponsesStopReason(ResponsesStatus(stopReason));
    if hadTool && status == "stop" then "tool_use" else status
  }

  function SurvivingUsage(usage: Option<Usage>): Option<Usage> {
    match usage
    case None => None
    case Some(u) => Some(u.(cacheWrite := 0))
  }

  lemma {:induction false} NamedConcat(a: seq<StreamEvent>, b: seq<StreamEvent>)
    ensures NamedAll(a + b) == NamedAll(a) + NamedAll(b)
  {
    hide Named;
  }

  lemma {:induction false} LabelledOneMore(es: seq<StreamEvent>, e: StreamEvent, text: JsonText)
    ensures Labelled(es + [e], text) == Apply(Labelled(es, text), Named(e), text)
  {
    hide Named, Apply;
    NamedConcat(es, [e]);
    assert NamedAll([e]) == [Named(e)];
    CollectedOneMore(NamedAll(es), Named(e), text);
  }

  lemma {:induction false} WithoutReasoningOneMore(contents: seq<Content>, c: Content)
    ensures WithoutReasoning(contents + [c]) ==
            if c.kind == ReasoningType then WithoutReasoning(contents) else WithoutReasoning(contents) + [c]
  {
    assert (contents + [c])[..|contents|] == contents;
  }

  // ---- One frame at a time ----------------------------------------------------------------

  // What the names of the frames announce.
  lemma {:induction false} Kinds()
    ensures KindOf("response.output_item.added") == ItemAddedFrame
    ensures KindOf("response.content_part.added") == PartAddedFrame
    ensures KindOf("response.output_text.delta") == TextDeltaFrame
    ensures KindOf("response.function_call_arguments.delta") == CallDeltaFrame
    ensures KindOf("response.content_part.done") == PartDone
    ensures KindOf("response.output_item.done") == ItemDone
    ensures KindOf("response.completed") == Terminal
    ensures KindOf("response.output_text.done") == Ignored
    ensures KindOf("response.function_call_arguments.done") == Ignored
    ensures KindOf("response.reasoning_summary_text.delta") == Ignored
    ensures KindOf("response.reasoning_summary_text.done") == Ignored
  {
  }

  lemma {:induction false} IgnoresKind(s: State, d: Delivery, name: string, fields: map<string, Json>, text: JsonText)
    requires d.event == Frame(name, fields) && name != "" && KindOf(name) == Ignored
    ensures ResponsesStream.Decode(s, d, text) == Decoded(s, [])
  {
    hide KindOf;
  }

  // Item frames about anything but a call are ignored.
  lemma {:induction false} IgnoresItem(s: State, d: Delivery, name: string, index: int, item: Json, text: JsonText)
    requires d.event == ItemFrame(name, index, item) && name != ""
    requires KindOf(name) == ItemAddedFrame || KindOf(name) == ItemDone
    requires Get(item, "type") != Str("function_call")
    ensures ResponsesStream.Decode(s, d, text) == Decoded(s, [])
  {
    hide KindOf;
  }

  lemma {:induction false} IgnoresMessageFrames(s: State, d: Delivery, index: int, content: seq<Json>, status: string,
                                                t: string, text: JsonText)
    requires
      || d.event == ItemFrame("response.output_item.added", index, MessageItem(index, status, content))
      || d.event == ItemFrame("response.output_item.done", index, MessageItem(index, status, content))
      || d.event == TextFrame("response.output_text.done", index, "text", t)
      || d.event == CallFrame("response.function_call_arguments.done", index, "arguments", t)
    ensures ResponsesStream.Decode(s, d, text) == Decoded(s, [])
  {
    hide ResponsesStream.Decode, KindOf, ItemFrame, Decimal, Frame;
    Kinds();
    var item := MessageItem(index, status, content);
    if d.event == ItemFrame("response.output_item.added", index, item) {
      IgnoresItem(s, d, "response.output_item.added", index, item, text);
    } else if d.event == ItemFrame("response.output_item.done", index, item) {
      IgnoresItem(s, d, "response.output_item.done", index, item, text);
    } else if d.event == TextFrame("response.output_text.done", index, "text", t) {
      IgnoresKind(s, d, "response.output_text.done",
                  map["item_id" := Str(MessageKey(index)), "output_index" := Num(index), "content_index" := Num(0),
                      "text" := Str(t)],
                  text);
    } else {
      IgnoresKind(s, d, "response.function_call_arguments.done",
                  map["item_id" := Str(ToolKey(index)), "output_index" := Num(index), "arguments" := Str(t)], text);
    }
  }

  lemma {:induction false} IgnoresReasoningFrames(s: State, d: Delivery, index: int, summary: seq<Json>, status: string,
                                                  t: string, text: JsonText)
    requires
      || d.event == ItemFrame("response.output_item.added", index, ReasoningItem(index, status, summary))
      || d.event == ItemFrame("response.output_item.done", index, ReasoningItem(index, status, summary))
      || d.event == SummaryFrame("response.reasoning_summary_text.delta", index, "delta", t)
      || d.event == SummaryFrame("response.reasoning_summary_text.done", index, "text", t)
    ensures ResponsesStream.Decode(s, d, text) == Decoded(s, [])
  {
    hide ResponsesStream.Decode, KindOf, ItemFrame, Decimal, Frame;
    Kinds();
    var item := ReasoningItem(index, status, summary);
    var fields := map["item_id" := Str(ReasoningKey(index)), "output_index" := Num(index), "summary_index" := Num(0)];
    if d.event == ItemFrame("response.output_item.added", index, item) {
      IgnoresItem(s, d, "response.output_item.added", index, item, text);
    } else if d.event == ItemFrame("response.output_item.done", index, item) {
      IgnoresItem(s, d, "response.output_item.done", index, item, text);
    } else if d.event == SummaryFrame("response.reasoning_summary_text.delta", index, "delta", t) {
      IgnoresKind(s, d, "response.reasoning_summary_text.delta", fields["delta" := Str(t)], text);
    } else {
      IgnoresKind(s, d, "response.reasoning_summary_text.done", fields["text" := Str(t)], text);
    }
  }

  // The state after a block is opened under a fresh key.
  function OpenedBlock(s: State, key: string): State {
    s.(nextBlock := s.nextBlock + 1, blocks := s.blocks[key := s.nextBlock], open := s.open + {s.nextBlock})
  }

  lemma {:induction false} MessageKeyIsLong(index: int)
    ensures MessageKey(index) != "" && ToolKey(index) != ""
  {
  }

  lemma {:induction false} DecodesPartAdded(s: State, d: Delivery, index: int, text: JsonText)
    requires d.event == PartFrame("response.content_part.added", index, OutputText(""))
    requires TextKey(index, text) !in s.blocks
    ensures ResponsesStream.Decode(s, d, text) ==
            Decoded(OpenedBlock(s, TextKey(index, text)), [ContentStart(s.nextBlock, TextContent(""))])
  {
    hide KindOf, Decimal, Capture, Completed;
    Kinds();
    MessageKeyIsLong(index);
  }

  lemma {:induction false} DecodesTextDelta(s: State, d: Delivery, index: int, t: string, text: JsonText)
    requires d.event == TextFrame("response.output_text.delta", index, "delta", t)
    requires TextKey(index, text) in s.blocks
    ensures ResponsesStream.Decode(s, d, text) ==
            Decoded(s, [ContentDelta(s.blocks[TextKey(index, text)], TextContent(t), "")])
  {
    hide KindOf, Decimal, Capture, Completed;
    Kinds();
    MessageKeyIsLong(index);
  }

  lemma {:induction false} DecodesPartDone(s: State, d: Delivery, index: int, t: string, text: JsonText)
    requires d.event == PartFrame("response.content_part.done", index, OutputText(t))
    requires TextKey(index, text) in s.blocks && s.blocks[TextKey(index, text)] in s.open
    ensures var block := s.blocks[TextKey(index, text)];
            ResponsesStream.Decode(s, d, text) == Decoded(s.(open := s.open - {block}), [ContentStop(block)])
  {
    hide KindOf, Decimal, Capture, Completed;
    Kinds();
    MessageKeyIsLong(index);
  }

  // What the frame that announces a call says.
  lemma {:induction false} CallItemFields(index: int, status: string, id: string, name: string, arguments: string)
    ensures var item := CallItem(index, status, id, name, arguments);
            && Get(item, "type") == Str("function_call") && Get(item, "id") == Str(ToolKey(index))
            && Get(item, "call_id") == Str(id) && Get(item, "name") == Str(name)
  {
    hide Decimal;
  }

  lemma {:induction false} ItemFrameFields(name: string, index: int, item: Json)
    requires name != ""
    ensures var event := ItemFrame(name, index, item);
            && Unmarshal(event.data) == Some(event.data.json) && TypeName(event, event.data.json) == name
            && Get(event.data.json, "item") == item && Get(event.data.json, "item_id") == Null
  {
  }

  lemma {:induction false} DecodesCallAdded(s: State, d: Delivery, e: StreamEvent, text: JsonText)
    requires e.ContentStart? && e.content.kind == ToolCallType && CallKey(e.index) !in s.blocks
    requires d.event ==
             ItemFrame("response.output_item.added", e.index,
                       CallItem(e.index, "in_progress", e.content.id, e.content.name, ""))
    ensures Named(e).ContentStart?
    ensures ResponsesStream.Decode(s, d, text) ==
            Decoded(OpenedBlock(s, CallKey(e.index)).(hadTool := true), [ContentStart(s.nextBlock, Named(e).content)])
  {
    Kinds();
    MessageKeyIsLong(e.index);
    var item := CallItem(e.index, "in_progress", e.content.id, e.content.name, "");
    CallItemFields(e.index, "in_progress", e.content.id, e.content.name, "");
    ItemFrameFields("response.output_item.added", e.index, item);
    hide KindOf, Decimal, ItemFrame, CallItem, Unmarshal, TypeName, Get;
  }

  lemma {:induction false} DecodesCallDelta(s: State, d: Delivery, index: int, t: string, text: JsonText)
    requires d.event == CallFrame("response.function_call_arguments.delta", index, "delta", t)
    requires CallKey(index) in s.blocks
    ensures ResponsesStream.Decode(s, d, text) ==
            Decoded(s, [ContentDelta(s.blocks[CallKey(index)], ToolCallContent("", "", Null), t)])
  {
    hide KindOf, Decimal, Capture, Completed;
    Kinds();
    MessageKeyIsLong(index);
  }

  lemma {:induction false} DecodesCallDone(s: State, d: Delivery, index: int, id: string, name: string, t: string,
                                           text: JsonText)
    requires d.event == ItemFrame("response.output_item.done", index, CallItem(index, "completed", id, name, t))
    requires CallKey(index) in s.blocks && s.blocks[CallKey(index)] in s.open
    ensures var block := s.blocks[CallKey(index)];
            ResponsesStream.Decode(s, d, text) == Decoded(s.(open := s.open - {block}), [ContentStop(block)])
  {
    Kinds();
    MessageKeyIsLong(index);
    CallItemFields(index, "completed", id, name, t);
    ItemFrameFields("response.output_item.done", index, CallItem(index, "completed", id, name, t));
    hide KindOf, Decimal, ItemFrame, CallItem, Unmarshal, TypeName, Get;
  }

  lemma {:induction false} TextCloses(s: State, ds: seq<Delivery>, shown: string, index: int, text: JsonText)
    requires TextKey(index, text) in s.blocks && s.blocks[TextKey(index, text)] in s.open && |ds| == 3
    requires ds[0].event == TextFrame("response.output_text.done", index, "text", shown)
    requires ds[1].event == PartFrame("response.content_part.done", index, OutputText(shown))
    requires ds[2].event == ItemFrame("response.output_item.done", index,
                                      MessageItem(index, "completed", [OutputText(shown)]))
    ensures var block := s.blocks[TextKey(index, text)];
            Run(ResponsesDecoder(s), ds, text) ==
                Decoded(ResponsesDecoder(s.(open := s.open - {block})), [ContentStop(block)])
  {
    hide ResponsesStream.Decode, ItemFrame, TextFrame, PartFrame, MessageItem, OutputText, TextKey, Run;
    var block := s.blocks[TextKey(index, text)];
    var s1 := s.(open := s.open - {block});
    IgnoresMessageFrames(s, ds[0], index, [], "", shown, text);
    DecodesPartDone(s, ds[1], index, shown, text);
    IgnoresMessageFrames(s1, ds[2], index, [OutputText(shown)], "completed", "", text);
    var before, after := ResponsesDecoder(s), ResponsesDecoder(s1);
    RunThree(before, before, after, after, [], [ContentStop(block)], [], ds, text);
    assert [] + [ContentStop(block)] + [] == [ContentStop(block)];
  }

  lemma {:induction false} CallCloses(s: State, ds: seq<Delivery>, index: int, id: string, name: string, t: string,
                                      text: JsonText)
    requires CallKey(index) in s.blocks && s.blocks[CallKey(index)] in s.open && |ds| == 2
    requires ds[0].event == CallFrame("response.function_call_arguments.done", index, "arguments", t)
    requires ds[1].event == ItemFrame("response.output_item.done", index, CallItem(index, "completed", id, name, t))
    ensures var block := s.blocks[CallKey(index)];
            Run(ResponsesDecoder(s), ds, text) ==
                Decoded(ResponsesDecoder(s.(open := s.open - {block})), [ContentStop(block)])
  {
    hide ResponsesStream.Decode, ItemFrame, CallFrame, CallItem, CallKey, Run;
    var block := s.blocks[CallKey(index)];
    IgnoresMessageFrames(s, ds[0], index, [], "", t, text);
    DecodesCallDone(s, ds[1], index, id, name, t, text);
    var before, after := ResponsesDecoder(s), ResponsesDecoder(s.(open := s.open - {block}));
    RunTwo(before, before, after, [], [ContentStop(block)], ds, text);
    assert [] + [ContentStop(block)] == [ContentStop(block)];
  }

  // The response a start announces.
  function Skeleton(id: string, model: string): Json {
    Obj(map["id" := Str(id), "object" := Str("response"), "created_at" := Num(0), "status" := Str("in_progress"),
            "model" := Str(model), "output" := Arr([])])
  }

  function Begun(s: State, id: string, model: string): State {
    s.(started := true, id := id, model := model, stopReason := "stop")
  }

  lemma {:induction false} DecodesCreated(s: State, ds: seq<Delivery>, id: string, model: string, text: JsonText)
    requires !s.started && |ds| == 2
    requires ds[0].event == Frame("response.created", map["response" := Skeleton(id, model)])
    requires ds[1].event == Frame("response.in_progress", map["response" := Skeleton(id, model)])
    ensures Run(ResponsesDecoder(s), ds, text) ==
            Decoded(ResponsesDecoder(Begun(s, id, model)), [Start(id, model, None)])
  {
    var t, start := Begun(s, id, model), [Start(id, model, None)];
    DecodesSkeleton(s, ds[0], "response.created", id, model, text);
    DecodesSkeleton(t, ds[1], "response.in_progress", id, model, text);
    hide ResponsesStream.Decode, Run, Frame, Skeleton;
    RunTwo(ResponsesDecoder(s), ResponsesDecoder(t), ResponsesDecoder(t), start, [], ds, text);
    assert start + [] == start;
  }

  lemma {:induction false} DecodesSkeleton(s: State, d: Delivery, name: string, id: string, model: string,
                                           text: JsonText)
    requires name == "response.created" || name == "response.in_progress"
    requires d.event == Frame(name, map["response" := Skeleton(id, model)])
    ensures ResponsesStream.Decode(s, d, text) ==
            Decoded(Begun(s, id, model), if s.started then [] else [Start(id, model, None)])
  {
    hide EnsureID;
    var body := Skeleton(id, model);
    SkeletonFields(id, model);
    hide Skeleton;
    assert Unmarshal(d.event.data) == Some(d.event.data.json) && TypeName(d.event, d.event.data.json) == name;
    assert Get(d.event.data.json, "response") == body;
    hide Frame, Unmarshal, TypeName, Get, DecodeResponsesUsage, ResponsesStopReason;
    assert Capture(s, body) == s.(id := id, model := model, stopReason := "stop");
  }

  lemma {:induction false} SkeletonFields(id: string, model: string)
    ensures var body := Skeleton(id, model);
            && body.Obj? && Get(body, "id") == Str(id) && Get(body, "model") == Str(model)
            && ResponsesStopReason(StringOr(Get(body, "status"))) == "stop"
                && DecodeResponsesUsage(Get(body, "usage")) == None
  {
  }

  // ---- The books of a run -----------------------------------------------------------------

  // Some call was started.
  predicate CallStarted(es: seq<StreamEvent>) {
    es != [] &&
    var e := es[|es| - 1];
    (e.ContentStart? && e.content.kind == ToolCallType) || CallStarted(es[..|es| - 1])
  }

  predicate OpenCall(t: Ledger) {
    exists i :: i in t.open && t.open[i] == ToolCallType
  }

  lemma {:induction false} CallStartedOneMore(es: seq<StreamEvent>, e: StreamEvent)
    ensures CallStarted(es + [e]) <==> (e.ContentStart? && e.content.kind == ToolCallType) || CallStarted(es)
  {
    assert (es + [e])[..|es|] == es;
  }

  lemma {:induction false} NamedDepicts(e: StreamEvent)
    ensures Depicts(e, Named(e))
  {
    hide ToolKey;
  }

  lemma {:induction false} CallsStep(z: Collected, t: Ledger, e: StreamEvent, text: JsonText)
    requires WireBlocks(z, t) && Allowed(t, e)
    ensures HasCall(Apply(z, Named(e), text).response.content) || OpenCall(Note(t, e)) <==>
            (e.ContentStart? && e.content.kind == ToolCallType) || HasCall(z.response.content) || OpenCall(t)
  {
    hide Collector.Closed, ToolKey, Grow;
    ClosedKeepsKind(z, e, text);
    var y, u := Apply(z, Named(e), text), Note(t, e);
    match e
    case ContentStart(index, content) =>
      if content.kind == ToolCallType {
        assert index in u.open && u.open[index] == ToolCallType;
      }
      if i :| i in t.open && t.open[i] == ToolCallType {
        assert i != index && i in u.open && u.open[i] == ToolCallType;
      }
    case ContentStop(index) =>
      if index in t.open {
        var c := Collector.Closed(z.blocks[index], text);
        HasCallOneMore(z.response.content, c);
        assert forall i :: i in t.open && i != index ==> i in u.open && u.open[i] == t.open[i];
      } else {
        assert forall i :: i in t.open ==> i in u.open && u.open[i] == t.open[i];
      }
    case _ =>
  }

  lemma {:induction false} HasCallOneMore(contents: seq<Content>, c: Content)
    ensures HasCall(contents + [c]) <==> HasCall(contents) || c.kind == ToolCallType
  {
    assert forall x :: x in contents + [c] <==> x in contents || x == c;
  }

  lemma {:induction false} WireStays(es: seq<StreamEvent>, text: JsonText)
    requires Orderly(es)
    ensures WireBlocks(Labelled(es, text), Noted(es))
    ensures CallStarted(es) <==> HasCall(Labelled(es, text).response.content) || OpenCall(Noted(es))
  {
    hide WireBlocks, HasCall, OpenCall, Allowed, Note, Named, Labelled, Apply, CallStarted;
    if es == [] {
      assert WireBlocks(EMPTY, BLANK) && !HasCall(EMPTY.response.content) && !OpenCall(BLANK) && !CallStarted([]) by {
        NothingOpen();
      }
      assert Labelled([], text) == EMPTY by { NothingLabelled(text); }
    } else {
      var n := |es| - 1;
      assert es == es[..n] + [es[n]];
      WireStays(es[..n], text);
      LabelledOneMore(es[..n], es[n], text);
      CallStartedOneMore(es[..n], es[n]);
      NamedDepicts(es[n]);
      WireStep(Labelled(es[..n], text), Noted(es[..n]), es[n], Named(es[n]), text);
      CallsStep(Labelled(es[..n], text), Noted(es[..n]), es[n], text);
    }
  }

  lemma {:induction false} NothingOpen()
    ensures WireBlocks(EMPTY, BLANK) && !HasCall([]) && !OpenCall(BLANK) && !CallStarted([])
  {
  }

  lemma {:induction false} NothingLabelled(text: JsonText)
    ensures Labelled([], text) == EMPTY
  {
  }

  // What the encoder itself has collected.
  ghost predicate RawBlocks(z: Collected, t: Ledger) {
    && z.blocks.Keys == t.started && t.open.Keys <= t.started
    && forall i :: i in t.open ==> i in z.blocks && z.blocks[i].content.kind == t.open[i]
  }

  lemma {:induction false} RawStep(z: Collected, t: Ledger, e: StreamEvent, text: JsonText)
    requires RawBlocks(z, t) && Allowed(t, e)
    ensures RawBlocks(Apply(z, e, text), Note(t, e))
  {
    hide Collector.Closed;
    ClosedKeepsKind(z, e, text);
  }

  lemma {:induction false} RawStays(es: seq<StreamEvent>, text: JsonText)
    requires Orderly(es)
    ensures RawBlocks(ApplyAll(EMPTY, es, text), Noted(es))
  {
    hide RawBlocks, Allowed, Note, Apply;
    if es == [] {
      assert RawBlocks(EMPTY, BLANK) by { NothingCollected(); }
    } else {
      var n := |es| - 1;
      RawStays(es[..n], text);
      RawStep(ApplyAll(EMPTY, es[..n], text), Noted(es[..n]), es[n], text);
    }
  }

  lemma {:induction false} NothingCollected()
    ensures RawBlocks(EMPTY, BLANK)
  {
  }

  // ---- The decoder beside the run ---------------------------------------------------------

  // Open and not reasoning, of which the decoder hears nothing.
  predicate Shown(t: Ledger, i: int) {
    i in t.open && t.open[i] != ReasoningType
  }

  function Number(s: State, kind: ContentType, i: int, text: JsonText): int {
    if Key(kind, i, text) in s.blocks then s.blocks[Key(kind, i, text)] else -1
  }

  ghost predicate KeysKnown(blocks: map<string, int>, started: set<int>, text: JsonText) {
    forall key :: key in blocks ==> exists i :: i in started && (key == CallKey(i) || key == TextKey(i, text))
  }

  ghost predicate Numbered(s: State, t: Ledger, text: JsonText) {
    && 0 <= s.nextBlock && KeysKnown(s.blocks, t.started, text)
    && (forall i :: Shown(t, i) ==>
          0 <= Number(s, t.open[i], i, text) < s.nextBlock && Number(s, t.open[i], i, text) in s.open)
    && (forall i, j :: Shown(t, i) && Shown(t, j) && i != j ==>
        Number(s, t.open[i], i, text) != Number(s, t.open[j], j, text))
  }

  ghost predicate Mirrors(s: State, t: Ledger, z: Collected, seen: Collected, text: JsonText) {
    && (forall i :: Shown(t, i) && i in z.blocks ==>
          var n := Number(s, t.open[i], i, text); n in seen.blocks && seen.blocks[n] == z.blocks[i])
    && seen.response.content == WithoutReasoning(z.response.content) && seen.response.model == z.response.model
  }

  ghost predicate InStep(es: seq<StreamEvent>, s: State, fs: seq<StreamEvent>, text: JsonText) {
    && !s.done && s.usage == None && s.started == Noted(es).begun && s.hadTool == CallStarted(es)
    && Numbered(s, Noted(es), text) && WireBlocks(Labelled(es, text), Noted(es))
    && Mirrors(s, Noted(es), Labelled(es, text), ApplyAll(EMPTY, fs, text), text)
  }

  lemma {:induction false} KeyIsFresh(blocks: map<string, int>, started: set<int>, kind: ContentType, n: int,
                                      text: JsonText)
    requires KeysKnown(blocks, started, text) && n !in started
    ensures Key(kind, n, text) !in blocks
  {
    hide CallKey, TextKey;
    var key := Key(kind, n, text);
    if key in blocks {
      var i :| i in started && (key == CallKey(i) || key == TextKey(i, text));
      KeysNeverCollide(i, n, text);
      KeysNeverCollide(n, i, text);
    }
  }

  // A block opened under a fresh key leaves the numbers of the others.
  lemma {:induction false} OpensNumbered(s: State, t: Ledger, e: StreamEvent, text: JsonText)
    requires Numbered(s, t, text) && Allowed(t, e) && e.ContentStart? && e.content.kind != ReasoningType
    requires t.open.Keys <= t.started
    ensures Key(e.content.kind, e.index, text) !in s.blocks
    ensures var u := OpenedBlock(s, Key(e.content.kind, e.index, text));
            && Numbered(u, Note(t, e), text) && Number(u, e.content.kind, e.index, text) == s.nextBlock
            && forall i :: Shown(t, i) ==> Number(u, t.open[i], i, text) == Number(s, t.open[i], i, text)
  {
    var key := Key(e.content.kind, e.index, text);
    var u, after := OpenedBlock(s, key), Note(t, e);
    KeyIsFresh(s.blocks, t.started, e.content.kind, e.index, text);
    KeysOneMore(s.blocks, t.started, e.content.kind, e.index, s.nextBlock, text);
    hide Key, KeysKnown;
    forall i | Shown(t, i)
      ensures Number(u, t.open[i], i, text) == Number(s, t.open[i], i, text)
    {
    }
    assert Number(u, e.content.kind, e.index, text) == s.nextBlock;
    hide Number;
    assert forall i :: Shown(after, i) && i != e.index ==> Shown(t, i) && after.open[i] == t.open[i];
  }

  lemma {:induction false} KeysOneMore(blocks: map<string, int>, started: set<int>, kind: ContentType, n: int,
                                       number: int, text: JsonText)
    requires KeysKnown(blocks, started, text)
    ensures KeysKnown(blocks[Key(kind, n, text) := number], started + {n}, text)
  {
    hide CallKey, TextKey;
    var more := blocks[Key(kind, n, text) := number];
    forall key | key in more
      ensures exists i :: i in started + {n} && (key == CallKey(i) || key == TextKey(i, text))
    {
      if key in blocks {
        var i :| i in started && (key == CallKey(i) || key == TextKey(i, text));
        assert i in started + {n};
      } else {
        assert n in started + {n};
      }
    }
  }

  lemma {:induction false} OpensMirrors(s: State, t: Ledger, z: Collected, seen: Collected, e: StreamEvent, c: Content,
                                        text: JsonText)
    requires Numbered(s, t, text) && Mirrors(s, t, z, seen, text) && WireBlocks(z, t)
    requires Allowed(t, e) && e.ContentStart? && e.content.kind != ReasoningType
    ensures var u := OpenedBlock(s, Key(e.content.kind, e.index, text));
            && Numbered(u, Note(t, e), text)
            && Mirrors(u, Note(t, e), Apply(z, ContentStart(e.index, c), text),
                       Apply(seen, ContentStart(s.nextBlock, c), text), text)
  {
    hide Key;
    OpensNumbered(s, t, e, text);
    NumbersBelow(s, t, text);
    hide Number, Numbered, WireBlocks, OpenedBlock, WithoutReasoning;
    var after, u := Note(t, e), OpenedBlock(s, Key(e.content.kind, e.index, text));
    forall i | Shown(after, i)
      ensures i != e.index ==> Shown(t, i) && after.open[i] == t.open[i]
      ensures i != e.index ==> Number(u, after.open[i], i, text) == Number(s, t.open[i], i, text) < s.nextBlock
    {
    }
  }

  lemma {:induction false} NumbersBelow(s: State, t: Ledger, text: JsonText)
    requires Numbered(s, t, text)
    ensures forall i :: Shown(t, i) ==> Number(s, t.open[i], i, text) < s.nextBlock
  {
  }

  lemma {:induction false} GrowsMirrors(s: State, t: Ledger, z: Collected, seen: Collected, index: int, c: Content,
                                        argumentsDelta: string, text: JsonText)
    requires Numbered(s, t, text) && Mirrors(s, t, z, seen, text) && WireBlocks(z, t) && Shown(t, index)
    ensures var n := Number(s, t.open[index], index, text);
            Mirrors(s, t, Apply(z, ContentDelta(index, c, argumentsDelta), text),
                    Apply(seen, ContentDelta(n, c, argumentsDelta), text), text)
  {
    hide Key, Number, Grow;
    assert index in z.blocks;
    var e, n := ContentDelta(index, c, argumentsDelta), Number(s, t.open[index], index, text);
    assert Grow(z.blocks[index], e) == Grow(seen.blocks[n], ContentDelta(n, c, argumentsDelta)) by {
      SameGrowth(z.blocks[index], index, n, c, argumentsDelta);
    }
  }

  lemma {:induction false} SameGrowth(b: Block, i: int, j: int, c: Content, argumentsDelta: string)
    ensures Grow(b, ContentDelta(i, c, argumentsDelta)) == Grow(b, ContentDelta(j, c, argumentsDelta))
  {
  }

  lemma {:induction false} StopsMirrors(s: State, t: Ledger, z: Collected, seen: Collected, index: int, text: JsonText)
    requires Numbered(s, t, text) && Mirrors(s, t, z, seen, text) && WireBlocks(z, t) && Shown(t, index)
    ensures var n, after := Number(s, t.open[index], index, text), Note(t, ContentStop(index));
            var u := s.(open := s.open - {n});
            && Numbered(u, after, text)
            && Mirrors(u, after, Apply(z, ContentStop(index), text), Apply(seen, ContentStop(n), text), text)
  {
    hide Key, Collector.Closed, KeysKnown;
    var n, after := Number(s, t.open[index], index, text), Note(t, ContentStop(index));
    var u := s.(open := s.open - {n});
    assert forall i :: Shown(after, i) <==> Shown(t, i) && i != index;
    assert forall i :: Shown(after, i) ==> after.open[i] == t.open[i];
    assert forall i :: Shown(t, i) ==> Number(u, t.open[i], i, text) == Number(s, t.open[i], i, text);
    hide Number;
    assert Numbered(u, after, text);
    ClosedKeepsKind(z, ContentStop(index), text);
    WithoutReasoningOneMore(z.response.content, Collector.Closed(z.blocks[index], text));
  }

  // Events the decoder hears nothing of: those of reasoning blocks, and stops of blocks never started.
  lemma {:induction false} SilentMirrors(s: State, t: Ledger, z: Collected, seen: Collected, e: StreamEvent,
                                         text: JsonText)
    requires Numbered(s, t, text) && Mirrors(s, t, z, seen, text) && WireBlocks(z, t) && Allowed(t, e)
    requires match e
             case ContentStart(_, c) => c.kind == ReasoningType
             case ContentDelta(_, c, _) => c.kind == ReasoningType
             case ContentStop(index) => index !in t.open || t.open[index] == ReasoningType
             case _ => false
    ensures Numbered(s, Note(t, e), text) && Mirrors(s, Note(t, e), Apply(z, Named(e), text), seen, text)
  {
    hide Key, Number, Collector.Closed, Grow, ToolKey;
    var after := Note(t, e);
    assert forall i :: Shown(after, i) ==> Shown(t, i) && after.open[i] == t.open[i];
    assert KeysKnown(s.blocks, after.started, text) by { KeysStay(s.blocks, t.started, after.started, text); }
    ClosedKeepsKind(z, e, text);
    if e.ContentStop? && e.index in z.blocks {
      WithoutReasoningOneMore(z.response.content, Collector.Closed(z.blocks[e.index], text));
    }
  }

  lemma {:induction false} KeysStay(blocks: map<string, int>, started: set<int>, more: set<int>, text: JsonText)
    requires KeysKnown(blocks, started, text) && started <= more
    ensures KeysKnown(blocks, more, text)
  {
    forall key | key in blocks
      ensures exists i :: i in more && (key == CallKey(i) || key == TextKey(i, text))
    {
      var i :| i in started && (key == CallKey(i) || key == TextKey(i, text));
      assert i in more;
    }
  }

  // ---- One event at a time ----------------------------------------------------------------

  // The decoder's answer to the frames of one event keeps it in step.
  ghost predicate KeepsStep(es: seq<StreamEvent>, s: State, fs: seq<StreamEvent>, e: StreamEvent, ds: seq<Delivery>,
                            text: JsonText) {
    var run := Run(ResponsesDecoder(s), ds, text);
    run.Decoded? && run.state.ResponsesDecoder? && InStep(es + [e], run.state.responses, fs + run.events, text)
  }

  // What one more event does to everything that is kept about a run.
  lemma {:induction false} RunOneMore(es: seq<StreamEvent>, e: StreamEvent, text: JsonText)
    requires WireBlocks(Labelled(es, text), Noted(es)) && Allowed(Noted(es), e)
    ensures Noted(es + [e]) == Note(Noted(es), e)
    ensures Labelled(es + [e], text) == Apply(Labelled(es, text), Named(e), text)
    ensures WireBlocks(Labelled(es + [e], text), Noted(es + [e]))
    ensures CallStarted(es + [e]) <==> (e.ContentStart? && e.content.kind == ToolCallType) || CallStarted(es)
  {
    hide WireBlocks, Allowed, Note, Named, Apply, CallStarted;
    OrderlyOneMore(es, e);
    LabelledOneMore(es, e, text);
    CallStartedOneMore(es, e);
    NamedDepicts(e);
    WireStep(Labelled(es, text), Noted(es), e, Named(e), text);
  }

  lemma {:induction false} StartKeepsStep(es: seq<StreamEvent>, s: State, fs: seq<StreamEvent>, e: StreamEvent,
                                          ds: seq<Delivery>, id: string, text: JsonText)
    requires InStep(es, s, fs, text) && Allowed(Noted(es), e) && e.Start?
    requires Events(ds) == [Frame("response.created", map["response" := Skeleton(id, e.model)]),
                            Frame("response.in_progress", map["response" := Skeleton(id, e.model)])]
    ensures KeepsStep(es, s, fs, e, ds, text)
  {
    RunOneMore(es, e, text);
    NamedStart(e);
    var z, seen, u := Labelled(es, text), ApplyAll(EMPTY, fs, text), Begun(s, id, e.model);
    SameNumbers(s, u, Noted(es), z, seen, text);
    StartMirrors(u, Noted(es), z, seen, e, id, text);
    hide Noted, Labelled, CallStarted, WireBlocks, Frame, Skeleton, ApplyAll, Run, Events, Named, Numbered, Mirrors;
    TwoDeliveries(ds, Events(ds));
    DecodesCreated(s, ds, id, e.model, text);
    CollectedOneMore(fs, Start(id, e.model, None), text);
  }

  lemma {:induction false} StartMirrors(s: State, t: Ledger, z: Collected, seen: Collected, e: StreamEvent, id: string,
                                        text: JsonText)
    requires Numbered(s, t, text) && Mirrors(s, t, z, seen, text) && e.Start?
    ensures Numbered(s, Note(t, e), text)
    ensures Mirrors(s, Note(t, e), Apply(z, e, text), Apply(seen, Start(id, e.model, None), text), text)
  {
    hide Number, KeysKnown, WithoutReasoning;
    assert forall i :: Shown(Note(t, e), i) == Shown(t, i);
  }

  // The books depend on the keys, the numbers and the open blocks alone.
  lemma {:induction false} SameNumbers(s: State, u: State, t: Ledger, z: Collected, seen: Collected, text: JsonText)
    requires u.blocks == s.blocks && u.open == s.open && u.nextBlock == s.nextBlock
    ensures Numbered(s, t, text) ==> Numbered(u, t, text)
    ensures Mirrors(s, t, z, seen, text) ==> Mirrors(u, t, z, seen, text)
  {
    hide Key, KeysKnown, WithoutReasoning;
    NumberIgnores(s, u, text);
    hide Number;
  }

  // Numbers depend on the keys alone.
  lemma {:induction false} NumberIgnores(s: State, t: State, text: JsonText)
    requires t.blocks == s.blocks
    ensures forall kind, i :: Number(t, kind, i, text) == Number(s, kind, i, text)
  {
  }

  lemma {:induction false} OpenKeepsStep(es: seq<StreamEvent>, s: State, fs: seq<StreamEvent>, e: StreamEvent,
                                         ds: seq<Delivery>, text: JsonText)
    requires InStep(es, s, fs, text) && Allowed(Noted(es), e) && e.ContentStart? && e.content.kind != ReasoningType
    requires Named(e).ContentStart?
    requires var u := OpenedBlock(s, Key(e.content.kind, e.index, text));
             Run(ResponsesDecoder(s), ds, text) ==
             Decoded(ResponsesDecoder(u.(hadTool := s.hadTool || e.content.kind == ToolCallType)),
                     [ContentStart(s.nextBlock, Named(e).content)])
    ensures KeepsStep(es, s, fs, e, ds, text)
  {
    RunOneMore(es, e, text);
    var z, seen, key := Labelled(es, text), ApplyAll(EMPTY, fs, text), Key(e.content.kind, e.index, text);
    hide Noted, Labelled, CallStarted, Key, WireBlocks, ApplyAll, Run, Named, Apply, Numbered, Mirrors;
    OpensMirrors(s, Noted(es), z, seen, e, Named(e).content, text);
    NamedIndex(e);
    CollectedOneMore(fs, ContentStart(s.nextBlock, Named(e).content), text);
    var u := OpenedBlock(s, key);
    var v := u.(hadTool := s.hadTool || e.content.kind == ToolCallType);
    SameNumbers(u, v, Noted(es + [e]), Labelled(es + [e], text),
                ApplyAll(EMPTY, fs + [ContentStart(s.nextBlock, Named(e).content)], text), text);
  }

  lemma {:induction false} NamedIndex(e: StreamEvent)
    requires e.ContentStart?
    ensures Named(e) == ContentStart(e.index, Named(e).content)
  {
  }

  lemma {:induction false} StartOfText(es: seq<StreamEvent>, s: State, fs: seq<StreamEvent>, e: StreamEvent,
                                       ds: seq<Delivery>, text: JsonText)
    requires InStep(es, s, fs, text) && Allowed(Noted(es), e) && e.ContentStart?
    requires e.content.kind != ToolCallType && e.content.kind != ReasoningType
    requires Events(ds) == [ItemFrame("response.output_item.added", e.index, MessageItem(e.index, "in_progress", [])),
                            PartFrame("response.content_part.added", e.index, OutputText(""))]
    ensures KeepsStep(es, s, fs, e, ds, text)
  {
    hide ItemFrame, PartFrame, MessageItem, OutputText, TextKey, Run, ResponsesStream.Decode, InStep, Events;
    TwoDeliveries(ds, Events(ds));
    assert TextKey(e.index, text) !in s.blocks by { FreshText(es, s, fs, e, text); }
    IgnoresMessageFrames(s, ds[0], e.index, [], "in_progress", "", text);
    DecodesPartAdded(s, ds[1], e.index, text);
    var u, start := OpenedBlock(s, TextKey(e.index, text)), [ContentStart(s.nextBlock, TextContent(""))];
    RunTwo(ResponsesDecoder(s), ResponsesDecoder(s), ResponsesDecoder(u), [], start, ds, text);
    assert [] + start == start;
    OpenKeepsStep(es, s, fs, e, ds, text);
  }

  lemma {:induction false} FreshText(es: seq<StreamEvent>, s: State, fs: seq<StreamEvent>, e: StreamEvent,
                                     text: JsonText)
    requires InStep(es, s, fs, text) && Allowed(Noted(es), e) && e.ContentStart?
    ensures Key(e.content.kind, e.index, text) !in s.blocks
  {
    hide Noted, Labelled, CallStarted, Key, WireBlocks, Mirrors;
    KeyIsFresh(s.blocks, Noted(es).started, e.content.kind, e.index, text);
  }

  lemma {:induction false} StartOfCall(es: seq<StreamEvent>, s: State, fs: seq<StreamEvent>, e: StreamEvent,
                                       ds: seq<Delivery>, text: JsonText)
    requires InStep(es, s, fs, text) && Allowed(Noted(es), e) && e.ContentStart? && e.content.kind == ToolCallType
    requires Events(ds) ==
             [ItemFrame("response.output_item.added", e.index,
                        CallItem(e.index, "in_progress", e.content.id, e.content.name, ""))]
    ensures KeepsStep(es, s, fs, e, ds, text)
  {
    hide ItemFrame, CallItem, CallKey, Run, ResponsesStream.Decode, InStep, Events, Named;
    OneDelivery(ds, Events(ds));
    assert CallKey(e.index) !in s.blocks by { FreshText(es, s, fs, e, text); }
    DecodesCallAdded(s, ds[0], e, text);
    RunOne(ResponsesDecoder(s), ds[0], text);
    OpenKeepsStep(es, s, fs, e, ds, text);
  }

  lemma {:induction false} SilentKeepsStep(es: seq<StreamEvent>, s: State, fs: seq<StreamEvent>, e: StreamEvent,
                                           ds: seq<Delivery>, text: JsonText)
    requires InStep(es, s, fs, text) && Allowed(Noted(es), e)
    requires match e
             case ContentStart(_, c) => c.kind == ReasoningType
             case ContentDelta(_, c, _) => c.kind == ReasoningType
             case ContentStop(index) => index !in Noted(es).open || Noted(es).open[index] == ReasoningType
             case _ => false
    requires Run(ResponsesDecoder(s), ds, text) == Decoded(ResponsesDecoder(s), [])
    ensures KeepsStep(es, s, fs, e, ds, text)
  {
    RunOneMore(es, e, text);
    SilentMirrors(s, Noted(es), Labelled(es, text), ApplyAll(EMPTY, fs, text), e, text);
    var none: seq<StreamEvent> := [];
    assert fs + none == fs;
    hide Noted, Labelled, CallStarted, Key, WireBlocks, ApplyAll, WithoutReasoning, Run, KeysKnown, Number, Shown,
         Named, Apply;
  }

  lemma {:induction false} DeltaKeepsStep(es: seq<StreamEvent>, s: State, fs: seq<StreamEvent>, e: StreamEvent,
                                          ds: seq<Delivery>, text: JsonText)
    requires InStep(es, s, fs, text) && Allowed(Noted(es), e) && e.ContentDelta? && e.content.kind != ReasoningType
             && Image(e).ContentDelta?
    requires var n := Number(s, e.content.kind, e.index, text);
             Run(ResponsesDecoder(s), ds, text) ==
             Decoded(ResponsesDecoder(s), [ContentDelta(n, Image(e).content, Image(e).argumentsDelta)])
    ensures KeepsStep(es, s, fs, e, ds, text)
  {
    RunOneMore(es, e, text);
    var n := Number(s, e.content.kind, e.index, text);
    NamedDelta(e);
    GrowsMirrors(s, Noted(es), Labelled(es, text), ApplyAll(EMPTY, fs, text), e.index, Image(e).content,
                 Image(e).argumentsDelta, text);
    CollectedOneMore(fs, ContentDelta(n, Image(e).content, Image(e).argumentsDelta), text);
    hide Noted, Labelled, CallStarted, Key, WireBlocks, ApplyAll, WithoutReasoning, Run, KeysKnown, Number, Shown,
         Named, Apply, Image;
  }

  lemma {:induction false} NamedDelta(e: StreamEvent)
    requires e.ContentDelta?
    ensures Named(e) == Image(e) && Image(e).ContentDelta? && Image(e).index == e.index
    ensures Image(e).content.kind == WireKind(e.content.kind)
  {
  }

  // The number of a shown block is the one under its key.
  lemma {:induction false} ShownKey(es: seq<StreamEvent>, s: State, fs: seq<StreamEvent>, i: int, text: JsonText)
    requires InStep(es, s, fs, text) && Shown(Noted(es), i)
    ensures var key := Key(Noted(es).open[i], i, text);
            && key in s.blocks && s.blocks[key] in s.open && Number(s, Noted(es).open[i], i, text) == s.blocks[key]
  {
    hide Noted, Labelled, CallStarted, Key, WireBlocks, Mirrors, KeysKnown;
  }

  lemma {:induction false} DeltaEvent(es: seq<StreamEvent>, s: State, fs: seq<StreamEvent>, e: StreamEvent,
                                      ds: seq<Delivery>, text: JsonText)
    requires InStep(es, s, fs, text) && Allowed(Noted(es), e) && e.ContentDelta?
    requires Events(ds) == (match e.content.kind
                            case ToolCallType =>
                              [CallFrame("response.function_call_arguments.delta", e.index, "delta", e.argumentsDelta)]
                            case ReasoningType =>
                              [SummaryFrame("response.reasoning_summary_text.delta", e.index, "delta", e.content.text)]
                            case _ => [TextFrame("response.output_text.delta", e.index, "delta", e.content.text)])
    ensures KeepsStep(es, s, fs, e, ds, text)
  {
    hide CallFrame, SummaryFrame, TextFrame, TextKey, CallKey, Run, ResponsesStream.Decode, InStep, Events, Noted;
    OneDelivery(ds, Events(ds));
    RunOne(ResponsesDecoder(s), ds[0], text);
    if e.content.kind == ReasoningType {
      IgnoresReasoningFrames(s, ds[0], e.index, [], "", e.content.text, text);
      SilentKeepsStep(es, s, fs, e, ds, text);
    } else {
      ShownKey(es, s, fs, e.index, text);
      if e.content.kind == ToolCallType {
        DecodesCallDelta(s, ds[0], e.index, e.argumentsDelta, text);
      } else {
        DecodesTextDelta(s, ds[0], e.index, e.content.text, text);
      }
      DeltaKeepsStep(es, s, fs, e, ds, text);
    }
  }

  lemma {:induction false} StopKeepsStep(es: seq<StreamEvent>, s: State, fs: seq<StreamEvent>, e: StreamEvent,
                                         ds: seq<Delivery>, text: JsonText)
    requires InStep(es, s, fs, text) && Allowed(Noted(es), e) && e.ContentStop? && Shown(Noted(es), e.index)
    requires var n := Number(s, Noted(es).open[e.index], e.index, text);
             Run(ResponsesDecoder(s), ds, text) == Decoded(ResponsesDecoder(s.(open := s.open - {n})), [ContentStop(n)])
    ensures KeepsStep(es, s, fs, e, ds, text)
  {
    RunOneMore(es, e, text);
    var n := Number(s, Noted(es).open[e.index], e.index, text);
    StopsMirrors(s, Noted(es), Labelled(es, text), ApplyAll(EMPTY, fs, text), e.index, text);
    CollectedOneMore(fs, ContentStop(n), text);
    assert Named(e) == e;
    hide Noted, Labelled, CallStarted, Key, WireBlocks, ApplyAll, WithoutReasoning, Run, KeysKnown, Number, Shown,
         Named, Apply;
  }

  lemma {:induction false} StopEvent(es: seq<StreamEvent>, s: State, fs: seq<StreamEvent>, e: StreamEvent, block: Block,
                                     ds: seq<Delivery>, text: JsonText)
    requires InStep(es, s, fs, text) && Allowed(Noted(es), e) && e.ContentStop? && e.index in Noted(es).open
    requires block.content.kind == Noted(es).open[e.index]
    requires Events(ds) == StopFrames(e.index, block)
    ensures KeepsStep(es, s, fs, e, ds, text)
  {
    hide CallFrame, SummaryFrame, TextFrame, ItemFrame, PartFrame, MessageItem, CallItem, ReasoningItem, OutputText,
         SummaryText, TextKey, CallKey, Run, ResponsesStream.Decode, InStep, Events, Noted;
    var c, frames := block.content, StopFrames(e.index, block);
    match c.kind
    case ReasoningType =>
      TwoDeliveries(ds, frames);
      IgnoresReasoningFrames(s, ds[0], e.index, [], "", c.text, text);
      IgnoresReasoningFrames(s, ds[1], e.index, [SummaryText(c.text)], "completed", "", text);
      RunTwo(ResponsesDecoder(s), ResponsesDecoder(s), ResponsesDecoder(s), [], [], ds, text);
      var none: seq<StreamEvent> := [];
      assert none + none == none;
      SilentKeepsStep(es, s, fs, e, ds, text);
    case ToolCallType =>
      TwoDeliveries(ds, frames);
      ShownKey(es, s, fs, e.index, text);
      CallCloses(s, ds, e.index, c.id, c.name, block.arguments, text);
      StopKeepsStep(es, s, fs, e, ds, text);
    case _ =>
      ThreeDeliveries(ds, frames);
      ShownKey(es, s, fs, e.index, text);
      TextCloses(s, ds, c.text, e.index, text);
      StopKeepsStep(es, s, fs, e, ds, text);
  }

  lemma {:induction false} TwoDeliveries(ds: seq<Delivery>, frames: seq<Event>)
    requires Events(ds) == frames && |frames| == 2
    ensures |ds| == 2 && ds[0].event == frames[0] && ds[1].event == frames[1]
  {
    assert |Events(ds)| == |ds| && Events(ds)[0] == ds[0].event && Events(ds)[1] == ds[1].event;
  }

  lemma {:induction false} ThreeDeliveries(ds: seq<Delivery>, frames: seq<Event>)
    requires Events(ds) == frames && |frames| == 3
    ensures |ds| == 3 && ds[0].event == frames[0] && ds[1].event == frames[1] && ds[2].event == frames[2]
  {
    assert |Events(ds)| == |ds|;
    assert Events(ds)[0] == ds[0].event && Events(ds)[1] == ds[1].event && Events(ds)[2] == ds[2].event;
  }

  lemma {:induction false} EventKeepsStep(es: seq<StreamEvent>, s: State, fs: seq<StreamEvent>, e: StreamEvent,
                                          seen: Collected, id: string, ds: seq<Delivery>, text: JsonText)
    requires InStep(es, s, fs, text) && Allowed(Noted(es), e) && !e.Done?
    requires RawBlocks(seen, Note(Noted(es), e)) && (e.ContentStop? && e.index in Noted(es).open ==>
               e.index in seen.blocks && seen.blocks[e.index].content.kind == Noted(es).open[e.index])
    requires Events(ds) == ResponsesStream.Encode(e, seen, id, text)
    ensures KeepsStep(es, s, fs, e, ds, text)
  {
    hide CallFrame, SummaryFrame, TextFrame, ItemFrame, PartFrame, MessageItem, CallItem, ReasoningItem, OutputText,
         SummaryText, Run, ResponsesStream.Decode, InStep, Events, Noted, StopFrames, KeepsStep, Frame;
    match e
    case Start(_, model, _) =>
      assert Skeleton(id, model) ==
             Obj(map["id" := Str(id), "object" := Str("response"), "created_at" := Num(0),
                     "status" := Str("in_progress"), "model" := Str(model), "output" := Arr([])]);
      StartKeepsStep(es, s, fs, e, ds, id, text);
    case ContentStart(index, content) =>
      if content.kind == ToolCallType {
        StartOfCall(es, s, fs, e, ds, text);
      } else if content.kind == ReasoningType {
        OneDelivery(ds, Events(ds));
        IgnoresReasoningFrames(s, ds[0], index, [], "in_progress", "", text);
        RunOne(ResponsesDecoder(s), ds[0], text);
        SilentKeepsStep(es, s, fs, e, ds, text);
      } else {
        StartOfText(es, s, fs, e, ds, text);
      }
    case ContentDelta(_, _, _) =>
      DeltaEvent(es, s, fs, e, ds, text);
    case ContentStop(index) =>
      if index in Noted(es).open {
        StopEvent(es, s, fs, e, seen.blocks[index], ds, text);
      } else {
        assert ds == [] by { NoDelivery(ds); }
        RunNothing(ResponsesDecoder(s), text);
        SilentKeepsStep(es, s, fs, e, ds, text);
      }
    case Done(_, _) =>
  }

  lemma {:induction false} NoDelivery(ds: seq<Delivery>)
    requires Events(ds) == []
    ensures ds == []
  {
    assert |Events(ds)| == |ds|;
  }

  // ---- The run up to its end --------------------------------------------------------------

  lemma {:induction false} EncodesOneMore(es: seq<StreamEvent>, e: StreamEvent, env: Env)
    ensures var before, after := EncodeAll(OpenAIResponses, FRESH, es, env),
            EncodeAll(OpenAIResponses, FRESH, es + [e], env);
            && after.collected == Apply(before.collected, e, env.text)
            && after.out == before.out + ResponsesStream.Encode(e, after.collected, after.responseID, env.text)
  {
    hide ResponsesStream.Encode, Apply;
    assert (es + [e])[..|es|] == es;
  }

  // The block a stop prints, as the encoder has it.
  lemma {:induction false} RawAtStop(z: Collected, t: Ledger, e: StreamEvent, text: JsonText)
    requires RawBlocks(z, t) && Allowed(t, e)
    ensures RawBlocks(Apply(z, e, text), Note(t, e))
    ensures e.ContentStop? && e.index in t.open ==>
              var seen := Apply(z, e, text);
                  e.index in seen.blocks && seen.blocks[e.index].content.kind == t.open[e.index]
  {
    RawStep(z, t, e, text);
    hide Collector.Closed;
    ClosedKeepsKind(z, e, text);
  }

  /**
   * Wherever a run is cut before its end, the frames printed so far decode, and collect to everything but
   * reasoning.
   */
  lemma {:induction false} DecodesPrefix(es: seq<StreamEvent>, ds: seq<Delivery>, env: Env)
    requires Orderly(es) && !Noted(es).ended
    requires Events(ds) == EncodeAll(OpenAIResponses, FRESH, es, env).out
    ensures var run := Run(Initial(OpenAIResponses), ds, env.text);
            && run.Decoded? && run.state.ResponsesDecoder?
            && InStep(es, run.state.responses, run.events, env.text)
  {
    hide ResponsesStream.Decode, ResponsesStream.Encode, Run, EncodeAll, Events, InStep, Allowed, RawBlocks, Apply;
    if es == [] {
      assert EncodeAll(OpenAIResponses, FRESH, es, env).out == [] && ds == [] by {
        NothingPrinted(OpenAIResponses, ds, env);
      }
      RunNothing(Initial(OpenAIResponses), env.text);
      NothingInStep(env.text);
    } else {
      var n, e := |es| - 1, es[|es| - 1];
      assert es == es[..n] + [e];
      var before, after := EncodeAll(OpenAIResponses, FRESH, es[..n], env), EncodeAll(OpenAIResponses, FRESH, es, env);
      EncodesOneMore(es[..n], e, env);
      EncoderCollects(OpenAIResponses, FRESH, es[..n], env);
      RawStays(es[..n], env.text);
      RawAtStop(before.collected, Noted(es[..n]), e, env.text);
      var frames := ResponsesStream.Encode(e, after.collected, after.responseID, env.text);
      SplitEvents(ds, before.out, frames);
      var m := |before.out|;
      DecodesPrefix(es[..n], ds[..m], env);
      var run := Run(Initial(OpenAIResponses), ds[..m], env.text);
      EventKeepsStep(es[..n], run.state.responses, run.events, e, after.collected, after.responseID, ds[m..], env.text);
      RunConcat(Initial(OpenAIResponses), ds[..m], ds[m..], env.text);
    }
  }

  lemma {:induction false} NothingInStep(text: JsonText)
    ensures InStep([], INITIAL, [], text)
  {
    NothingLabelled(text);
    NothingOpen();
  }

  // ---- The end of the run -----------------------------------------------------------------

  lemma {:induction false} CompletedFields(seen: Response, id: string, text: JsonText)
    ensures var body := ResponseObject(seen, id, text);
            && body.Obj?
            && Get(body, "status") == Str(ResponsesStatus(seen.stopReason))
            && Get(body, "usage") == (if seen.usage.Some? then UsageObject(seen.usage.value) else Null)
  {
    hide OutputItems, ResponsesStatus;
  }

  function UsageObject(u: Usage): Json {
    Obj(map["input_tokens" := Num(u.input), "output_tokens" := Num(u.output), "total_tokens" := Num(u.total),
            "input_tokens_details" := Obj(map["cached_tokens" := Num(u.cached)]),
            "output_tokens_details" := Obj(map["reasoning_tokens" := Num(u.reasoning)])])
  }

  lemma {:induction false} UsageReads(u: Usage)
    ensures DecodeResponsesUsage(UsageObject(u)) == SurvivingUsage(Some(u)) && DecodeResponsesUsage(Null) == None
  {
  }

  lemma {:induction false} TerminalDecodes(s: State, d: Delivery, body: Json, text: JsonText)
    requires d.event == Frame("response.completed", map["response" := body])
    ensures ResponsesStream.Decode(s, d, text) == Completed(s, body)
  {
    Kinds();
    hide KindOf, ItemAdded, PartAdded, Delta, Stop, ItemKey, ContentKey, Completed, Capture;
  }

  lemma {:induction false} CompletedGives(s: State, body: Json, stopReason: string, usage: Option<Usage>)
    requires s.usage == None && body.Obj? && Get(body, "status") == Str(ResponsesStatus(stopReason))
    requires DecodeResponsesUsage(Get(body, "usage")) == usage
    ensures var step := Completed(s, body);
            step.Decoded? && step.state.done && step.events == [Done(SurvivingStop(stopReason, s.hadTool), usage)]
  {
    hide ResponsesStatus, ResponsesStopReason, DecodeResponsesUsage, Get;
  }

  lemma {:induction false} DecodesCompleted(s: State, d: Delivery, seen: Response, id: string, text: JsonText)
    requires s.usage == None
    requires d.event == Frame("response.completed", map["response" := ResponseObject(seen, id, text)])
    ensures var step := ResponsesStream.Decode(s, d, text);
            && step.Decoded? && step.state.done
            && step.events == [Done(SurvivingStop(seen.stopReason, s.hadTool), SurvivingUsage(seen.usage))]
  {
    hide ResponseObject, ResponsesStream.Decode, Completed, UsageObject, DecodeResponsesUsage, Frame, SurvivingStop,
         Get;
    CompletedFields(seen, id, text);
    UsageReads(if seen.usage.Some? then seen.usage.value else Usage(0, 0, 0, 0, 0, 0));
    TerminalDecodes(s, d, ResponseObject(seen, id, text), text);
    CompletedGives(s, ResponseObject(seen, id, text), seen.stopReason, SurvivingUsage(seen.usage));
  }

  lemma {:induction false} StopReasonIsSet(value: string, hadTool: bool)
    ensures DefaultStopReason(SurvivingStop(value, hadTool)) == SurvivingStop(value, hadTool)
  {
  }

  /** What collecting the printed frames of a complete run gives. */
  ghost predicate Carries(es: seq<StreamEvent>, got: Response, text: JsonText) {
    var z, r := Labelled(es, text).response, ApplyAll(EMPTY, es, text).response;
    && got.content == WithoutReasoning(z.content) && got.model == r.model
    && got.stopReason == SurvivingStop(r.stopReason, HasCall(z.content))
    && got.usage == SurvivingUsage(r.usage)
  }

  // Naming calls touches content only.
  lemma {:induction false} LabelledModel(es: seq<StreamEvent>, text: JsonText)
    ensures Labelled(es, text).response.model == ApplyAll(EMPTY, es, text).response.model
  {
    if es == [] {
      NothingLabelled(text);
    } else {
      var n := |es| - 1;
      assert es == es[..n] + [es[n]];
      LabelledModel(es[..n], text);
      LabelledOneMore(es[..n], es[n], text);
      hide Labelled, Grow, Collector.Closed, Portable, ToolKey;
    }
  }

  // A decoder that is not done has emitted no done.
  lemma {:induction false} NoDoneYet(ds: seq<Delivery>, text: JsonText)
    ensures var run := Run(Initial(OpenAIResponses), ds, text);
            run.Decoded? ==>
              run.state.ResponsesDecoder? && (!run.state.responses.done ==> forall e :: e in run.events ==> !e.Done?)
  {
    hide ResponsesStream.Decode;
    if ds != [] {
      var n := |ds| - 1;
      NoDoneYet(ds[..n], text);
      var before := Run(Initial(OpenAIResponses), ds[..n], text);
      if before.Decoded? {
        StepDone(before.state.responses, ds[n], text);
      }
    }
  }

  lemma {:induction false} StepDone(s: State, d: Delivery, text: JsonText)
    ensures var step := ResponsesStream.Decode(s, d, text);
            step.Decoded? ==>
              (s.done ==> step.state.done) && (!step.state.done ==> forall e :: e in step.events ==> !e.Done?)
  {
    hide StringOr, IntOr, Get, ItemKey, ContentKey, KindOf;
  }

  lemma {:induction false} BareUsage(es: seq<StreamEvent>, text: JsonText)
    requires AllBare(es) && forall e :: e in es ==> !e.Done?
    ensures ApplyAll(EMPTY, es, text).response.usage == None
  {
    hide Grow, Collector.Closed;
    if es != [] {
      var n := |es| - 1;
      assert es[n] in es && forall e :: e in es[..n] ==> e in es;
      BareUsage(es[..n], text);
    }
  }

  lemma {:induction false} DecodesAll(es: seq<StreamEvent>, env: Env, ds: seq<Delivery>, last: seq<int>)
    requires Complete(es)
    requires Events(ds) == EncodeAll(OpenAIResponses, FRESH, es, env).out
    ensures Run(Initial(OpenAIResponses), ds, env.text).Decoded?
    ensures var got := Collect(OpenAIResponses, ds, last, env.text);
            got.Some? && Carries(es, got.value, env.text)
  {
    hide Run, EncodeAll, Events, ResponsesStream.Encode, ResponsesStream.Decode, ResponseObject, Orderly, Noted,
         ApplyAll, Labelled, SurvivingStop, SurvivingUsage, DefaultStopReason, Frame;
    CompleteEnds(es);
    var n, e := |es| - 1, es[|es| - 1];
    var before, after := EncodeAll(OpenAIResponses, FRESH, es[..n], env), EncodeAll(OpenAIResponses, FRESH, es, env);
    EncodesOneMore(es[..n], e, env);
    EncoderCollects(OpenAIResponses, FRESH, es, env);
    var seen := after.collected.response;
    var frame := Frame("response.completed", map["response" := ResponseObject(seen, after.responseID, env.text)]);
    assert ResponsesStream.Encode(e, after.collected, after.responseID, env.text) == [frame] by {
      EncodesDone(e, after, env);
    }
    SplitEvents(ds, before.out, [frame]);
    var m := |before.out|;
    DecodesPrefix(es[..n], ds[..m], env);
    var run := Run(Initial(OpenAIResponses), ds[..m], env.text);
    OneDelivery(ds[m..], [frame]);
    DecodesCompleted(run.state.responses, ds[m], seen, after.responseID, env.text);
    RunOne(run.state, ds[m], env.text);
    RunConcat(Initial(OpenAIResponses), ds[..m], ds[m..], env.text);
    var stop, usage := SurvivingStop(seen.stopReason, run.state.responses.hadTool), SurvivingUsage(seen.usage);
    var none: seq<StreamEvent> := [];
    assert (run.events + [Done(stop, usage)]) + none == run.events + [Done(stop, usage)];
    CollectedOneMore(run.events, Done(stop, usage), env.text);
    StopReasonIsSet(seen.stopReason, run.state.responses.hadTool);
    NoDoneYet(ds[..m], env.text);
    RunIsPlain(Initial(OpenAIResponses), ds[..m], env.text);
    BareUsage(run.events, env.text);
    LabelledModel(es, env.text);
    EndLabelled(es, run.state.responses, run.events, env.text);
  }

  lemma {:induction false} EncodesDone(e: StreamEvent, s: EncoderState, env: Env)
    requires e.Done?
    ensures ResponsesStream.Encode(e, s.collected, s.responseID, env.text) ==
            [Frame("response.completed",
                   map["response" := ResponseObject(s.collected.response, s.responseID, env.text)])]
  {
  }

  // What is kept of the run just before its end, in the terms of the whole run.
  lemma {:induction false} EndLabelled(es: seq<StreamEvent>, s: State, fs: seq<StreamEvent>, text: JsonText)
    requires Complete(es) && InStep(es[..|es| - 1], s, fs, text)
    ensures var z, seen := Labelled(es, text).response, ApplyAll(EMPTY, fs, text).response;
            seen.content == WithoutReasoning(z.content) && seen.model == z.model && s.hadTool == HasCall(z.content)
  {
    hide Labelled, Orderly, Noted, CallStarted, HasCall, WireBlocks, Numbered;
    CompleteEnds(es);
    var n := |es| - 1;
    WireStays(es[..n], text);
    LabelledOneMore(es[..n], es[n], text);
    assert Named(es[n]) == es[n];
    assert !OpenCall(Noted(es[..n]));
  }

  /**
   * A complete run printed as a Responses stream: collecting the frames never fails and gives the content
   * without its reasoning, calls without an id under a generated one, however the blocks interleave.
   */
  lemma {:induction false} RunCollects(es: seq<StreamEvent>, env: Env, result: Result<Response, Failure>)
    requires Complete(es)
    requires Outcome(OpenAIResponses, EncodeAll(OpenAIResponses, FRESH, es, env).out, env.text, result)
    ensures result.Ok? && Carries(es, result.value, env.text)
  {
    hide Run, WalksFit, EncodeAll, Orderly, Noted, Carries;
    var frames := EncodeAll(OpenAIResponses, FRESH, es, env).out;
    forall ds | Events(ds) == frames && WalksFit(Initial(OpenAIResponses), ds, env.text)
      ensures Run(Initial(OpenAIResponses), ds, env.text).Decoded?
    {
      DecodesAll(es, env, ds, []);
    }
    match result
    case Err(f) => NeverFails(OpenAIResponses, frames, env.text, f);
    case Ok(got) =>
      var ds, last :| CollectsBy(OpenAIResponses, frames, env.text, got, ds, last);
      DecodesAll(es, env, ds, last);
  }

  // When the stop reason survives.
  predicate StopSurvives(stopReason: string, hadTool: bool) {
    || stopReason in {"length", "error"}
    || (stopReason == "stop" && !hadTool)
    || (stopReason == "tool_use" && hadTool)
  }

  lemma {:induction false} StopReasonSurvivesIff(stopReason: string, hadTool: bool)
    ensures SurvivingStop(stopReason, hadTool) == stopReason <==> StopSurvives(stopReason, hadTool)
  {
  }

  // ---- A response printed and read --------------------------------------------------------

  // An item of a response as it comes back, if it does.
  function Carried(c: Content, index: int): Content {
    if c.kind == ToolCallType && c.id == "" then ToolCallContent(ToolKey(index), c.name, c.arguments) else Portable(c)
  }

  function CarriedAll(contents: seq<Content>): (r: seq<Content>)
    ensures |r| == |contents|
  {
    seq(|contents|, i requires 0 <= i < |contents| => Carried(contents[i], i))
  }

  lemma {:induction false} NamedItem(c: Content, index: int, text: JsonText)
    ensures NamedAll(ItemEvents(c, index, text)) == PortableEvents(Carried(c, index), index, text)
  {
    hide ToolKey;
    MessageKeyIsLong(index);
  }

  lemma {:induction false} CarriedTwice(c: Content, index: int)
    ensures Portable(Carried(c, index)) == Carried(c, index)
    ensures Carried(c, index).kind == ToolCallType <==> c.kind == ToolCallType
    ensures c.kind == ToolCallType ==> Carried(c, index).arguments == c.arguments
  {
  }

  lemma {:induction false} LabelledPrefix(r: Response, n: nat, text: JsonText)
    requires n <= |r.content| && ArgumentsSurvive(r.content, text)
    ensures Labelled(PrefixEvents(r, n, text), text).response.content == CarriedAll(r.content)[..n]
  {
    hide Named, ItemEvents, PortableEvents, ApplyAll, Carried;
    var start := Start(r.id, r.model, r.usage);
    if n == 0 {
      assert [start] + [] == [] + [start];
      NothingLabelled(text);
      LabelledOneMore([], start, text);
      assert Named(start) == start by { NamedStart(start); }
    } else {
      var before, c := PrefixEvents(r, n - 1, text), r.content[n - 1];
      LabelledPrefix(r, n - 1, text);
      assert PrefixEvents(r, n, text) == before + ItemEvents(c, n - 1, text);
      NamedConcat(before, ItemEvents(c, n - 1, text));
      NamedItem(c, n - 1, text);
      ApplyAllConcat(EMPTY, NamedAll(before), PortableEvents(Carried(c, n - 1), n - 1, text), text);
      CarriedTwice(c, n - 1);
      assert c in r.content;
      CollectsItem(Labelled(before, text), Carried(c, n - 1), n - 1, text);
      assert CarriedAll(r.content)[..n] == CarriedAll(r.content)[..n - 1] + [Carried(c, n - 1)];
    }
  }

  lemma {:induction false} NamedStart(e: StreamEvent)
    requires e.Start? || e.Done?
    ensures Named(e) == e
  {
  }

  lemma {:induction false} LabelledResponse(r: Response, text: JsonText)
    requires ArgumentsSurvive(r.content, text)
    ensures Labelled(ResponseEvents(r, text), text).response.content == CarriedAll(r.content)
    ensures HasCall(CarriedAll(r.content)) <==> HasCall(r.content)
  {
    hide Labelled, ContentEvents, Carried, Named, ArgumentsSurvive;
    var n, done := |r.content|, Done(r.stopReason, r.usage);
    LabelledPrefix(r, n, text);
    assert ResponseEvents(r, text) == PrefixEvents(r, n, text) + [done];
    LabelledOneMore(PrefixEvents(r, n, text), done, text);
    NamedStart(done);
    assert CarriedAll(r.content)[..n] == CarriedAll(r.content);
    CarriedCalls(r.content);
  }

  lemma {:induction false} CarriedCalls(contents: seq<Content>)
    ensures HasCall(CarriedAll(contents)) <==> HasCall(contents)
  {
    hide Carried;
    forall i | 0 <= i < |contents|
      ensures CarriedAll(contents)[i].kind == ToolCallType <==> contents[i].kind == ToolCallType
    {
      CarriedTwice(contents[i], i);
    }
    if c :| c in contents && c.kind == ToolCallType {
      var i :| 0 <= i < |contents| && contents[i] == c;
      assert CarriedAll(contents)[i] in CarriedAll(contents);
    }
    if c :| c in CarriedAll(contents) && c.kind == ToolCallType {
      var i :| 0 <= i < |contents| && CarriedAll(contents)[i] == c;
      assert contents[i] in contents;
    }
  }

  predicate PlainWithIDs(contents: seq<Content>) {
    forall c :: c in contents ==> IsPlain(c) && (c.kind == ToolCallType ==> c.id != "")
  }

  lemma {:induction false} CarriedIsExact(contents: seq<Content>)
    requires PlainWithIDs(contents)
    ensures CarriedAll(contents) == contents
  {
    hide ToolKey;
    forall i | 0 <= i < |contents|
      ensures CarriedAll(contents)[i] == contents[i]
    {
      assert contents[i] in contents;
    }
  }

  /**
   * The Responses stream round trip. Collecting the printed stream never fails; the content list comes
   * back in order without its reasoning items, exactly so when the items are plain and the calls have
   * ids; the stop reason survives exactly when it is length or error, or stop without calls, or
   * tool_use with calls.
   */
  lemma {:induction false} RoundTrip(r: Response, env: Env, result: Result<Response, Failure>)
    requires ArgumentsSurvive(r.content, env.text)
    requires Outcome(OpenAIResponses, Written(OpenAIResponses, r, env), env.text, result)
    ensures result.Ok?
    ensures var got := result.value;
            && got.content == WithoutReasoning(CarriedAll(r.content))
            && (PlainWithIDs(r.content) ==> got.content == WithoutReasoning(r.content))
            && (got.stopReason == r.stopReason <==> StopSurvives(r.stopReason, HasCall(r.content)))
            && got.model == r.model
            && got.usage == SurvivingUsage(r.usage)
  {
    hide EncodeAll, Complete, Outcome, ResponseEvents, Labelled, CarriedAll, HasCall, WithoutReasoning, PlainWithIDs,
         ApplyAll, SurvivingStop, SurvivingUsage, ArgumentsSurvive;
    var es := ResponseEvents(r, env.text);
    ResponseIsComplete(r, env.text);
    RunCollects(es, env, result);
    LabelledResponse(r, env.text);
    ResponseEnvelope(r, env.text);
    if PlainWithIDs(r.content) {
      CarriedIsExact(r.content);
    }
    StopReasonSurvivesIff(r.stopReason, HasCall(r.content));
    StopReasonOfEmpty(r.stopReason, HasCall(r.content));
  }

  lemma {:induction false} StopReasonOfEmpty(value: string, hadTool: bool)
    ensures SurvivingStop(DefaultStopReason(value), hadTool) == SurvivingStop(value, hadTool)
  {
  }

  // ---- A stream translated and read -------------------------------------------------------

  predicate CallsHaveIDs(contents: seq<Content>) {
    forall c :: c in contents && c.kind == ToolCallType ==> c.id != ""
  }

  // A content with its id filled in if it is a call without one.
  predicate Filled(got: Content, c: Content) {
    if c.kind == ToolCallType && c.id == "" then got == c.(id := got.id) && got.id != "" else got == c
  }

  ghost predicate AllFilled(got: seq<Content>, contents: seq<Content>) {
    |got| == |contents| && forall i :: 0 <= i < |got| ==> Filled(got[i], contents[i])
  }

  ghost predicate BlocksFilled(got: Collected, z: Collected) {
    && got.blocks.Keys == z.blocks.Keys && AllFilled(got.response.content, z.response.content)
    && forall i :: i in z.blocks ==>
         Filled(got.blocks[i].content, z.blocks[i].content) && got.blocks[i].arguments == z.blocks[i].arguments
  }

  lemma {:induction false} FilledStep(got: Collected, z: Collected, e: StreamEvent, text: JsonText)
    requires BlocksFilled(got, z) && IsPlainEvent(e)
             && (e.ContentDelta? ==> e.index in z.blocks && z.blocks[e.index].content.kind == e.content.kind)
    ensures BlocksFilled(Apply(got, Named(e), text), Apply(z, e, text))
  {
    hide AllFilled, ParseArguments, Image, ToolKey;
    PlainImage(e);
    match e
    case ContentStart(index, c) =>
      MessageKeyIsLong(index);
    case ContentDelta(_, _, _) =>
      assert Named(e) == e;
    case ContentStop(index) =>
      if index in z.blocks {
        FilledOneMore(got.response.content, z.response.content, Collector.Closed(got.blocks[index], text),
                      Collector.Closed(z.blocks[index], text));
      }
    case _ =>
  }

  lemma {:induction false} FilledOneMore(got: seq<Content>, contents: seq<Content>, a: Content, b: Content)
    requires AllFilled(got, contents) && Filled(a, b)
    ensures AllFilled(got + [a], contents + [b])
  {
  }

  lemma {:induction false} FilledStays(es: seq<StreamEvent>, text: JsonText)
    requires AllPlain(es) && Orderly(es)
    ensures BlocksFilled(Labelled(es, text), ApplyAll(EMPTY, es, text))
  {
    hide BlocksFilled, IsPlainEvent, Named, Labelled, Apply, Noted;
    if es == [] {
      NothingLabelled(text);
      assert BlocksFilled(EMPTY, EMPTY) by { NothingFilled(); }
    } else {
      var n := |es| - 1;
      assert es == es[..n] + [es[n]] && es[n] in es && forall e :: e in es[..n] ==> e in es;
      FilledStays(es[..n], text);
      LabelledOneMore(es[..n], es[n], text);
      RawStays(es[..n], text);
      FilledStep(Labelled(es[..n], text), ApplyAll(EMPTY, es[..n], text), es[n], text);
    }
  }

  lemma {:induction false} NothingFilled()
    ensures BlocksFilled(EMPTY, EMPTY)
  {
  }

  // Filling ids in changes the list exactly when a call had none.
  lemma {:induction false} FilledIsExact(got: seq<Content>, contents: seq<Content>)
    requires AllFilled(got, contents)
    ensures |WithoutReasoning(got)| == |WithoutReasoning(contents)|
    ensures WithoutReasoning(got) == WithoutReasoning(contents) <==> CallsHaveIDs(contents)
    ensures HasCall(got) <==> HasCall(contents)
  {
    hide CallsHaveIDs, HasCall;
    if contents == [] {
      assert CallsHaveIDs([]) && !HasCall([]) by { NoCalls(); }
    } else {
      var n := |contents| - 1;
      FilledIsExact(got[..n], contents[..n]);
      assert got == got[..n] + [got[n]] && contents == contents[..n] + [contents[n]];
      CallsOneMore(contents[..n], contents[n]);
      HasCallOneMore(contents[..n], contents[n]);
      HasCallOneMore(got[..n], got[n]);
      var p, q := WithoutReasoning(got[..n]), WithoutReasoning(contents[..n]);
      SameEnd(p, q, got[n], contents[n]);
    }
  }

  lemma {:induction false} NoCalls()
    ensures CallsHaveIDs([]) && !HasCall([])
  {
  }

  lemma {:induction false} CallsOneMore(contents: seq<Content>, c: Content)
    ensures CallsHaveIDs(contents + [c]) <==> CallsHaveIDs(contents) && (c.kind == ToolCallType ==> c.id != "")
  {
    assert forall x :: x in contents + [c] <==> x in contents || x == c;
  }

  lemma {:induction false} SameEnd(p: seq<Content>, q: seq<Content>, a: Content, b: Content)
    requires |p| == |q|
    ensures p + [a] == q + [b] <==> p == q && a == b
  {
    if p + [a] == q + [b] {
      assert (p + [a])[..|p|] == p && (q + [b])[..|q|] == q && (p + [a])[|p|] == a && (q + [b])[|q|] == b;
    }
  }

  /**
   * Translating to a Responses stream. When the decoder's run is orderly, collecting the written frames
   * never fails and gives the content of the response returned without its reasoning, exactly so when its
   * calls have ids, however the blocks interleave; the stop reason survives as in the round trip, and the
   * usage but for the tokens written to the cache.
   */
  lemma {:induction false} TranslationKeeps(from: Protocol, ds: seq<Delivery>, last: seq<int>, env: Env,
                                            result: Result<Response, Failure>)
    requires Run(Initial(from), ds, env.text).Decoded? && Complete(StreamEvents(from, ds, last, env.text))
    requires Outcome(OpenAIResponses, Translate(from, OpenAIResponses, ds, last, env).value.0, env.text, result)
    ensures result.Ok?
    ensures var r, got := Translate(from, OpenAIResponses, ds, last, env).value.1, result.value;
            && |got.content| == |WithoutReasoning(r.content)|
            && (got.content == WithoutReasoning(r.content) <==> CallsHaveIDs(r.content))
            && (got.stopReason == r.stopReason <==> StopSurvives(r.stopReason, HasCall(r.content)))
            && got.model == r.model
            && got.usage == SurvivingUsage(r.usage)
  {
    hide Run, EncodeAll, Orderly, Noted, Outcome, Streams.Finish, AllPlain, Labelled, WithoutReasoning, SurvivingStop,
         SurvivingUsage, CallsHaveIDs, HasCall, ApplyAll, AllFilled;
    var es := StreamEvents(from, ds, last, env.text);
    StreamIsPlain(from, ds, last, env.text);
    RunCollects(es, env, result);
    EncoderCollects(OpenAIResponses, FRESH, es, env);
    FilledStays(es, env.text);
    FilledIsExact(Labelled(es, env.text).response.content, ApplyAll(EMPTY, es, env.text).response.content);
    StopReasonSurvivesIff(ApplyAll(EMPTY, es, env.text).response.stopReason,
                          HasCall(ApplyAll(EMPTY, es, env.text).response.content));
  }
}
