/** Streams whose frames are in order, and that printing keeps the order, so that translations can follow each other. */
module StreamOrder {
  import opened Canonical
  import opened Collector
  import opened Json
  import opened OrderlyRuns
  import opened StreamTypes
  import opened Streams
  import opened Wrappers
  import AnthropicOrder
  import AnthropicRoundTrip
  import AnthropicStream
  import Bracketing
  import ChatBracketing
  import ChatRoundTrip
  import ChatStream
  import Decimals
  import ResponsesOrder
  import ResponsesRoundTrip
  import ResponsesStream

  /**
   * The frames of a stream are in order. For Chat: each tool-call index is used for one kind of block, and
   * nothing is said after [DONE].
   */
  ghost predicate WellOrdered(p: Protocol, frames: seq<Event>, text: JsonText) {
    match p
    case OpenAIChat => ChatBracketing.OneKindUnderEachKey(frames) && ChatBracketing.SilentAfterDone(frames)
    case OpenAIResponses => ResponsesOrder.WellOrdered(frames, text)
    case Anthropic => AnthropicOrder.WellOrdered(frames)
  }

  /** A stream in order makes a complete run; for Responses and Anthropic no other does. */
  lemma {:induction false} OrderIsComplete(p: Protocol, ds: seq<Delivery>, last: seq<int>, text: JsonText)
    requires FitsFrames(p, Events(ds), text, ds, last)
    ensures WellOrdered(p, Events(ds), text) ==> Complete(StreamEvents(p, ds, last, text))
    ensures !p.OpenAIChat? ==> (Complete(StreamEvents(p, ds, last, text)) <==> WellOrdered(p, Events(ds), text))
  {
    hide Run, WalksFit, Orderly, Noted, Finish;
    match p
    case OpenAIChat =>
      ChatBracketing.RunsAreBracketed(ds, last, text);
      if WellOrdered(p, Events(ds), text) {
        BracketedIsOrderly(StreamEvents(p, ds, last, text));
      }
    case OpenAIResponses => ResponsesOrder.OrderIsExact(ds, last, text);
    case Anthropic => AnthropicOrder.OrderIsExact(ds, last, text);
  }

  // ---- Printed for Anthropic --------------------------------------------------------------

  // What the frames tell of the ledger: the kinds of the blocks are those the wire gives them.
  function OnWire(t: Ledger): Ledger {
    t.(open := map i | i in t.open :: WireKind(t.open[i]))
  }

  function AnthropicMark(e: StreamEvent): AnthropicOrder.Mark {
    match e
    case Start(_, _, _) => AnthropicOrder.Opening
    case ContentStart(index, content) => AnthropicOrder.Begins(index, WireKind(content.kind))
    case ContentDelta(index, content, _) => AnthropicOrder.Piece(index, WireKind(content.kind))
    case ContentStop(index) => AnthropicOrder.Stops(index)
    case Done(_, _) => AnthropicOrder.Closing
  }

  lemma {:induction false} AnthropicPrints(e: StreamEvent, generated: string)
    ensures var frames := AnthropicStream.Encode(e, generated);
            if e.Done?
            then |frames| == 2 && AnthropicOrder.MarkOf(frames[0]) == AnthropicOrder.Nothing
                && AnthropicOrder.MarkOf(frames[1]) == AnthropicMark(e)
            else |frames| == 1 && AnthropicOrder.MarkOf(frames[0]) == AnthropicMark(e)
  {
    hide EnsureID, AnthropicStream.StartUsage, StopReasons.EncodeAnthropicStopReason;
  }

  // An event that is allowed prints a frame that fits.
  lemma {:induction false} AnthropicFits(t: Ledger, e: StreamEvent)
    requires Allowed(t, e) && t.open.Keys <= t.started
    ensures AnthropicOrder.Fits(OnWire(t), AnthropicMark(e))
    ensures OnWire(Note(t, e)) == AnthropicOrder.Noting(OnWire(t), AnthropicMark(e))
  {
  }

  lemma {:induction false} AnthropicInOrder(es: seq<StreamEvent>, env: Env)
    requires Orderly(es)
    ensures var out := EncodeAll(Anthropic, FRESH, es, env).out;
            AnthropicOrder.InOrder(out) && AnthropicOrder.Marked(out) == OnWire(Noted(es))
  {
    hide EncodeAll, AnthropicStream.Encode, Noted, AnthropicOrder.InOrder, AnthropicOrder.Marked, AnthropicOrder.MarkOf,
         OnWire, Allowed, Note, AnthropicOrder.Fits, AnthropicOrder.Noting;
    if es == [] {
      NothingOnWire(Anthropic, env);
    } else {
      var n, e := |es| - 1, es[|es| - 1];
      AnthropicInOrder(es[..n], env);
      assert es == es[..n] + [e];
      var before := EncodeAll(Anthropic, FRESH, es[..n], env).out;
      var generated := env.ids(|before|);
      AnthropicRoundTrip.EncodesOneMore(es[..n], e, env);
      var frames := AnthropicStream.Encode(e, generated);
      AnthropicPrints(e, generated);
      OrderlyOneMore(es[..n], e);
      OpenWasStarted(es[..n]);
      AnthropicFits(Noted(es[..n]), e);
      if e.Done? {
        AnthropicOrder.MarkedOneMore(before, frames[0]);
        AnthropicOrder.MarkedOneMore(before + [frames[0]], frames[1]);
        NothingFits(OnWire(Noted(es[..n])));
        assert before + frames == before + [frames[0]] + [frames[1]];
      } else {
        AnthropicOrder.MarkedOneMore(before, frames[0]);
        assert frames == [frames[0]];
      }
    }
  }

  lemma {:induction false} NothingFits(t: Ledger)
    ensures AnthropicOrder.Fits(t, AnthropicOrder.Nothing) && AnthropicOrder.Noting(t, AnthropicOrder.Nothing) == t
  {
  }

  lemma {:induction false} NothingOnWire(p: Protocol, env: Env)
    ensures EncodeAll(p, FRESH, [], env).out == [] && Noted([]) == BLANK && OnWire(BLANK) == BLANK
    ensures AnthropicOrder.InOrder([]) && AnthropicOrder.Marked([]) == BLANK
    ensures ResponsesOrder.InOrder([], env.text) && ResponsesOrder.Marked([], env.text) == ResponsesOrder.NO_BOOKS
  {
  }

  // ---- Printed for Responses --------------------------------------------------------------

  // The mark of an event; a stop needs the kind of the block it closes.
  function ResponsesMark(e: StreamEvent, kind: ContentType, text: JsonText): ResponsesOrder.Mark {
    match e
    case Start(_, _, _) => ResponsesOrder.Beginning
    case ContentStart(index, content) =>
      if content.kind.ReasoningType? then ResponsesOrder.Nothing
      else ResponsesOrder.Adds(ResponsesRoundTrip.Key(content.kind, index, text), WireKind(content.kind))
    case ContentDelta(index, content, _) =>
      if content.kind.ReasoningType? then ResponsesOrder.Nothing
      else ResponsesOrder.Grows(ResponsesRoundTrip.Key(content.kind, index, text), WireKind(content.kind))
    case ContentStop(index) =>
      if kind.ReasoningType? then ResponsesOrder.Nothing
      else ResponsesOrder.Closes(ResponsesRoundTrip.Key(kind, index, text))
    case Done(_, _) => ResponsesOrder.Ending
  }

  function Marks(frames: seq<Event>, text: JsonText): (r: seq<ResponsesOrder.Mark>)
    ensures |r| == |frames|
  {
    seq(|frames|, i requires 0 <= i < |frames| => ResponsesOrder.MarkOf(frames[i], text))
  }

  // One mark among others without effect; a stream may begin twice.
  predicate Amounts(marks: seq<ResponsesOrder.Mark>, m: ResponsesOrder.Mark) {
    var none := ResponsesOrder.Nothing;
    || (marks == [] && m == none) || marks == [m] || marks == [none, m] || marks == [none, m, none]
    || (marks == [m, m] && m == ResponsesOrder.Beginning)
  }

  ghost predicate Booked(frames: seq<Event>, b: ResponsesOrder.Books, text: JsonText) {
    ResponsesOrder.InOrder(frames, text) && ResponsesOrder.Marked(frames, text) == b
  }

  lemma {:induction false} OneBooked(before: seq<Event>, b: ResponsesOrder.Books, e: Event, text: JsonText)
    requires Booked(before, b, text) && ResponsesOrder.Fits(b, ResponsesOrder.MarkOf(e, text))
    ensures Booked(before + [e], ResponsesOrder.Noting(b, ResponsesOrder.MarkOf(e, text)), text)
  {
    hide ResponsesOrder.MarkOf, ResponsesOrder.Fits, ResponsesOrder.Noting;
    ResponsesOrder.MarkedOneMore(before, e, text);
  }

  lemma {:induction false} NothingNoted(b: ResponsesOrder.Books)
    ensures ResponsesOrder.Fits(b, ResponsesOrder.Nothing) && ResponsesOrder.Noting(b, ResponsesOrder.Nothing) == b
    ensures var c := ResponsesOrder.Noting(b, ResponsesOrder.Beginning);
            ResponsesOrder.Fits(c, ResponsesOrder.Beginning) && ResponsesOrder.Noting(c, ResponsesOrder.Beginning) == c
  {
  }

  lemma {:induction false} FramesBooked(before: seq<Event>, b: ResponsesOrder.Books, frames: seq<Event>,
                                        m: ResponsesOrder.Mark, text: JsonText)
    requires Booked(before, b, text) && ResponsesOrder.Fits(b, m) && Amounts(Marks(frames, text), m)
    ensures Booked(before + frames, ResponsesOrder.Noting(b, m), text)
  {
    hide Booked, ResponsesOrder.MarkOf, ResponsesOrder.Fits, ResponsesOrder.Noting;
    NothingNoted(b);
    var marks := Marks(frames, text);
    assert forall i :: 0 <= i < |frames| ==> ResponsesOrder.MarkOf(frames[i], text) == marks[i];
    if |frames| == 0 {
      assert before + frames == before;
    } else if |frames| == 1 {
      OneBooked(before, b, frames[0], text);
      assert before + frames == before + [frames[0]];
    } else if |frames| == 2 {
      OneBooked(before, b, frames[0], text);
      var c := ResponsesOrder.Noting(b, marks[0]);
      OneBooked(before + [frames[0]], c, frames[1], text);
      assert before + frames == before + [frames[0]] + [frames[1]];
    } else {
      OneBooked(before, b, frames[0], text);
      OneBooked(before + [frames[0]], b, frames[1], text);
      var c := ResponsesOrder.Noting(b, marks[1]);
      NothingNoted(c);
      OneBooked(before + [frames[0]] + [frames[1]], c, frames[2], text);
      assert before + frames == before + [frames[0]] + [frames[1]] + [frames[2]];
    }
  }

  // ---- The marks of the printed frames ----

  lemma {:induction false} FrameMark(name: string, fields: map<string, Json>, text: JsonText)
    requires name != ""
    ensures ResponsesOrder.MarkOf(Frame(name, fields), text) ==
            ResponsesOrder.MarkFor(ResponsesStream.KindOf(name), Obj(fields["type" := Str(name)]), text)
  {
    hide ResponsesStream.KindOf, ResponsesOrder.MarkFor;
  }

  lemma {:induction false} EnvelopeMarks(fields: map<string, Json>, text: JsonText)
    ensures ResponsesOrder.MarkOf(Frame("response.created", fields), text) == ResponsesOrder.Beginning
    ensures ResponsesOrder.MarkOf(Frame("response.in_progress", fields), text) == ResponsesOrder.Beginning
    ensures ResponsesOrder.MarkOf(Frame("response.completed", fields), text) == ResponsesOrder.Ending
  {
    hide Frame, ResponsesOrder.MarkOf;
    FrameMark("response.created", fields, text);
    FrameMark("response.in_progress", fields, text);
    FrameMark("response.completed", fields, text);
    hide Get;
  }

  lemma {:induction false} ItemFrameMark(name: string, index: int, item: Json, id: string, text: JsonText)
    requires name == "response.output_item.added" || name == "response.output_item.done"
    requires Get(item, "type") == Str("function_call") ==> Get(item, "id") == Str(id) && id != ""
    ensures ResponsesOrder.MarkOf(ResponsesStream.ItemFrame(name, index, item), text) ==
            if Get(item, "type") != Str("function_call") then ResponsesOrder.Nothing
            else if name == "response.output_item.added" then ResponsesOrder.Adds("item:" + id, ToolCallType)
            else ResponsesOrder.Closes("item:" + id)
  {
    ResponsesRoundTrip.Kinds();
    ResponsesRoundTrip.ItemFrameFields(name, index, item);
    hide ResponsesStream.ItemFrame, ResponsesStream.KindOf, Unmarshal, TypeName, Get;
  }

  // The fields of a frame about a message's text.
  lemma {:induction false} PartFields(index: int, part: Json, name: string)
    ensures var value := Obj(map["item_id" := Str(ResponsesStream.MessageKey(index)), "output_index" := Num(index),
                                 "content_index" := Num(0), "part" := part]["type" := Str(name)]);
            && Get(value, "item_id") == Str(ResponsesStream.MessageKey(index)) && Get(value, "content_index") == Num(0)
            && Get(value, "part") == part
  {
    hide ResponsesStream.MessageKey;
  }

  lemma {:induction false} PartFrameMarks(index: int, shown: string, text: JsonText)
    ensures var key, part := ResponsesRoundTrip.TextKey(index, text), ResponsesStream.OutputText(shown);
            && ResponsesOrder.MarkOf(ResponsesStream.PartFrame("response.content_part.added", index, part), text) ==
               ResponsesOrder.Adds(key, TextType)
            && ResponsesOrder.MarkOf(ResponsesStream.PartFrame("response.content_part.done", index, part), text) ==
               ResponsesOrder.Closes(key)
  {
    hide Frame, ResponsesOrder.MarkOf, ResponsesStream.KindOf, ResponsesStream.OutputText, Get;
    var part := ResponsesStream.OutputText(shown);
    PartIsText(shown);
    ResponsesRoundTrip.Kinds();
    ResponsesRoundTrip.MessageKeyIsLong(index);
    PartFields(index, part, "response.content_part.added");
    PartFields(index, part, "response.content_part.done");
    var fields := map["item_id" := Str(ResponsesStream.MessageKey(index)), "output_index" := Num(index),
                      "content_index" := Num(0), "part" := part];
    FrameMark("response.content_part.added", fields, text);
    FrameMark("response.content_part.done", fields, text);
    hide ResponsesStream.MessageKey;
  }

  lemma {:induction false} PartIsText(shown: string)
    ensures Get(ResponsesStream.OutputText(shown), "type") == Str("output_text")
  {
  }

  lemma {:induction false} TextDeltaMark(index: int, t: string, text: JsonText)
    ensures ResponsesOrder.MarkOf(ResponsesStream.TextFrame("response.output_text.delta", index, "delta", t), text) ==
            ResponsesOrder.Grows(ResponsesRoundTrip.TextKey(index, text), TextType)
  {
    hide Frame, ResponsesOrder.MarkOf, ResponsesStream.KindOf, Decimals.Decimal;
    ResponsesRoundTrip.Kinds();
    ResponsesRoundTrip.MessageKeyIsLong(index);
    FrameMark("response.output_text.delta",
              map["item_id" := Str(ResponsesStream.MessageKey(index)), "output_index" := Num(index),
                  "content_index" := Num(0), "delta" := Str(t)], text);
    hide ResponsesStream.MessageKey;
  }

  lemma {:induction false} CallDeltaMark(index: int, t: string, text: JsonText)
    ensures ResponsesOrder.MarkOf(ResponsesStream.CallFrame("response.function_call_arguments.delta", index, "delta",
                                                            t),
                                  text) ==
            ResponsesOrder.Grows(ResponsesRoundTrip.CallKey(index), ToolCallType)
  {
    hide Frame, ResponsesOrder.MarkOf, ResponsesStream.KindOf, Decimals.Decimal;
    ResponsesRoundTrip.Kinds();
    ResponsesRoundTrip.MessageKeyIsLong(index);
    FrameMark("response.function_call_arguments.delta",
              map["item_id" := Str(ResponsesStream.ToolKey(index)), "output_index" := Num(index), "delta" := Str(t)],
                  text);
    hide ResponsesStream.ToolKey;
  }

  // Frames that only repeat what was said have no effect.
  lemma {:induction false} IgnoredMarks(index: int, t: string, text: JsonText)
    ensures ResponsesOrder.MarkOf(ResponsesStream.SummaryFrame("response.reasoning_summary_text.delta", index, "delta",
                                                               t),
                                  text).Nothing?
    ensures ResponsesOrder.MarkOf(ResponsesStream.SummaryFrame("response.reasoning_summary_text.done", index, "text",
                                                               t),
                                  text).Nothing?
    ensures ResponsesOrder.MarkOf(ResponsesStream.CallFrame("response.function_call_arguments.done", index,
                                                            "arguments", t),
                                  text).Nothing?
    ensures ResponsesOrder.MarkOf(ResponsesStream.TextFrame("response.output_text.done", index, "text", t),
                                  text).Nothing?
  {
    hide Frame, ResponsesOrder.MarkOf, ResponsesStream.KindOf, ResponsesStream.ToolKey, ResponsesStream.MessageKey,
         ResponsesStream.ReasoningKey;
    ResponsesRoundTrip.Kinds();
    var summary := map["item_id" := Str(ResponsesStream.ReasoningKey(index)), "output_index" := Num(index),
                       "summary_index" := Num(0)];
    FrameMark("response.reasoning_summary_text.delta", summary["delta" := Str(t)], text);
    FrameMark("response.reasoning_summary_text.done", summary["text" := Str(t)], text);
    FrameMark("response.function_call_arguments.done",
              map["item_id" := Str(ResponsesStream.ToolKey(index)), "output_index" := Num(index),
                  "arguments" := Str(t)],
              text);
    FrameMark("response.output_text.done",
              map["item_id" := Str(ResponsesStream.MessageKey(index)), "output_index" := Num(index),
                  "content_index" := Num(0), "text" := Str(t)],
              text);
    hide Get;
  }

  lemma {:induction false} CallItemMarks(index: int, status: string, id: string, name: string, arguments: string,
                                         text: JsonText)
    ensures var item, key := ResponsesStream.CallItem(index, status, id, name, arguments),
            ResponsesRoundTrip.CallKey(index);
            && ResponsesOrder.MarkOf(ResponsesStream.ItemFrame("response.output_item.added", index, item), text) ==
               ResponsesOrder.Adds(key, ToolCallType)
            && ResponsesOrder.MarkOf(ResponsesStream.ItemFrame("response.output_item.done", index, item), text) ==
               ResponsesOrder.Closes(key)
  {
    hide ResponsesOrder.MarkOf, ResponsesStream.ItemFrame, ResponsesStream.CallItem, ResponsesStream.ToolKey;
    var item := ResponsesStream.CallItem(index, status, id, name, arguments);
    ResponsesRoundTrip.CallItemFields(index, status, id, name, arguments);
    ResponsesRoundTrip.MessageKeyIsLong(index);
    ItemFrameMark("response.output_item.added", index, item, ResponsesStream.ToolKey(index), text);
    ItemFrameMark("response.output_item.done", index, item, ResponsesStream.ToolKey(index), text);
  }

  lemma {:induction false} OtherItemMarks(index: int, status: string, content: seq<Json>, text: JsonText)
    ensures var message, reasoning := ResponsesStream.MessageItem(index, status, content),
            ResponsesStream.ReasoningItem(index, status, content);
            && ResponsesOrder.MarkOf(ResponsesStream.ItemFrame("response.output_item.added", index, message), text)
               .Nothing?
            && ResponsesOrder.MarkOf(ResponsesStream.ItemFrame("response.output_item.done", index, message),
                                     text).Nothing?
            && ResponsesOrder.MarkOf(ResponsesStream.ItemFrame("response.output_item.added", index, reasoning), text)
               .Nothing?
            && ResponsesOrder.MarkOf(ResponsesStream.ItemFrame("response.output_item.done", index, reasoning), text)
               .Nothing?
  {
    OtherItems(index, status, content);
    hide ResponsesOrder.MarkOf, ResponsesStream.ItemFrame, ResponsesStream.MessageItem, ResponsesStream.ReasoningItem,
         Get;
    var message, reasoning := ResponsesStream.MessageItem(index, status, content),
        ResponsesStream.ReasoningItem(index, status, content);
    ItemFrameMark("response.output_item.added", index, message, "", text);
    ItemFrameMark("response.output_item.done", index, message, "", text);
    ItemFrameMark("response.output_item.added", index, reasoning, "", text);
    ItemFrameMark("response.output_item.done", index, reasoning, "", text);
  }

  lemma {:induction false} OtherItems(index: int, status: string, content: seq<Json>)
    ensures Get(ResponsesStream.MessageItem(index, status, content), "type") == Str("message")
    ensures Get(ResponsesStream.ReasoningItem(index, status, content), "type") == Str("reasoning")
  {
    hide Decimals.Decimal;
  }

  lemma {:induction false} StartMarks(e: StreamEvent, seen: Collected, responseID: string, kind: ContentType,
                                      text: JsonText)
    requires e.ContentStart?
    ensures Amounts(Marks(ResponsesStream.Encode(e, seen, responseID, text), text), ResponsesMark(e, kind, text))
  {
    hide ResponsesOrder.MarkOf, ResponsesStream.ItemFrame, ResponsesStream.PartFrame, ResponsesStream.CallItem,
         ResponsesStream.ReasoningItem, ResponsesStream.MessageItem, ResponsesRoundTrip.TextKey,
         ResponsesRoundTrip.CallKey, ResponsesStream.OutputText;
    CallItemMarks(e.index, "in_progress", e.content.id, e.content.name, "", text);
    OtherItemMarks(e.index, "in_progress", [], text);
    PartFrameMarks(e.index, "", text);
  }

  lemma {:induction false} DeltaMarks(e: StreamEvent, seen: Collected, responseID: string, kind: ContentType,
                                      text: JsonText)
    requires e.ContentDelta?
    ensures Amounts(Marks(ResponsesStream.Encode(e, seen, responseID, text), text), ResponsesMark(e, kind, text))
  {
    hide ResponsesOrder.MarkOf, ResponsesStream.TextFrame, ResponsesStream.CallFrame, ResponsesStream.SummaryFrame,
         ResponsesRoundTrip.TextKey, ResponsesRoundTrip.CallKey;
    TextDeltaMark(e.index, e.content.text, text);
    CallDeltaMark(e.index, e.argumentsDelta, text);
    IgnoredMarks(e.index, e.content.text, text);
  }

  lemma {:induction false} StopMarks(index: int, block: Block, text: JsonText)
    ensures Amounts(Marks(ResponsesStream.StopFrames(index, block), text),
                    ResponsesMark(ContentStop(index), block.content.kind, text))
  {
    hide ResponsesOrder.MarkOf, ResponsesStream.ItemFrame, ResponsesStream.PartFrame, ResponsesStream.CallItem,
         ResponsesStream.ReasoningItem, ResponsesStream.MessageItem, ResponsesRoundTrip.TextKey,
         ResponsesRoundTrip.CallKey, ResponsesStream.OutputText, ResponsesStream.SummaryText, ResponsesStream.TextFrame,
         ResponsesStream.CallFrame, ResponsesStream.SummaryFrame;
    var c := block.content;
    CallItemMarks(index, "completed", c.id, c.name, block.arguments, text);
    OtherItemMarks(index, "completed", [ResponsesStream.SummaryText(c.text)], text);
    OtherItemMarks(index, "completed", [ResponsesStream.OutputText(c.text)], text);
    PartFrameMarks(index, c.text, text);
    IgnoredMarks(index, c.text, text);
    IgnoredMarks(index, block.arguments, text);
  }

  // ---- The books of the printed frames ----

  ghost predicate KeysAdded(added: set<string>, started: set<int>, text: JsonText) {
    forall key :: key in added ==>
      exists i :: i in started && (key == ResponsesRoundTrip.CallKey(i) || key == ResponsesRoundTrip.TextKey(i, text))
  }

  // The blocks open under a key are those that are no reasoning.
  ghost predicate SameShown(t: Ledger, open: map<string, ContentType>, text: JsonText) {
    && (forall i :: ResponsesRoundTrip.Shown(t, i) ==>
          var key := ResponsesRoundTrip.Key(t.open[i], i, text); key in open && open[key] == WireKind(t.open[i]))
    && (forall key :: key in open ==>
          exists i :: ResponsesRoundTrip.Shown(t, i) && key == ResponsesRoundTrip.Key(t.open[i], i, text))
  }

  ghost predicate Shows(t: Ledger, b: ResponsesOrder.Books, text: JsonText) {
    && b.begun == t.begun && b.ended == t.ended && t.open.Keys <= t.started
    && KeysAdded(b.added, t.started, text) && SameShown(t, b.open, text)
  }

  lemma {:induction false} NewKey(added: set<string>, started: set<int>, kind: ContentType, index: int, text: JsonText)
    requires KeysAdded(added, started, text)
    ensures index !in started ==> ResponsesRoundTrip.Key(kind, index, text) !in added
    ensures KeysAdded(added + {ResponsesRoundTrip.Key(kind, index, text)}, started + {index}, text)
    ensures KeysAdded(added, started + {index}, text)
    ensures started == {} ==> added == {}
  {
    hide ResponsesRoundTrip.CallKey, ResponsesRoundTrip.TextKey;
    var key := ResponsesRoundTrip.Key(kind, index, text);
    forall k | k in added
      ensures exists i :: i in started + {index}
                    && (k == ResponsesRoundTrip.CallKey(i) || k == ResponsesRoundTrip.TextKey(i, text))
      ensures started != {} && (index !in started ==> k != key)
    {
      var i :| i in started && (k == ResponsesRoundTrip.CallKey(i) || k == ResponsesRoundTrip.TextKey(i, text));
      assert i in started + {index};
      ResponsesRoundTrip.KeysNeverCollide(i, index, text);
      ResponsesRoundTrip.KeysNeverCollide(index, i, text);
    }
    assert index in started + {index};
  }

  lemma {:induction false} KeysTellBlocks(kind: ContentType, i: int, other: ContentType, j: int, text: JsonText)
    ensures ResponsesRoundTrip.Key(kind, i, text) == ResponsesRoundTrip.Key(other, j, text) ==> i == j
  {
    hide ResponsesRoundTrip.CallKey, ResponsesRoundTrip.TextKey;
    ResponsesRoundTrip.KeysNeverCollide(i, j, text);
    ResponsesRoundTrip.KeysNeverCollide(j, i, text);
  }

  lemma {:induction false} OneMoreShown(t: Ledger, open: map<string, ContentType>, index: int, kind: ContentType,
                                        text: JsonText)
    requires SameShown(t, open, text) && index !in t.open
    ensures var u := t.(open := t.open[index := kind]);
            SameShown(u, if kind.ReasoningType? then open
                         else open[ResponsesRoundTrip.Key(kind, index, text) := WireKind(kind)], text)
  {
    hide ResponsesRoundTrip.Key;
    var u, key := t.(open := t.open[index := kind]), ResponsesRoundTrip.Key(kind, index, text);
    var more := if kind.ReasoningType? then open else open[key := WireKind(kind)];
    forall i | ResponsesRoundTrip.Shown(u, i)
      ensures var k := ResponsesRoundTrip.Key(u.open[i], i, text); k in more && more[k] == WireKind(u.open[i])
    {
      KeysTellBlocks(u.open[i], i, kind, index, text);
      assert i != index ==> ResponsesRoundTrip.Shown(t, i);
    }
    forall k | k in more
      ensures exists i :: ResponsesRoundTrip.Shown(u, i) && k == ResponsesRoundTrip.Key(u.open[i], i, text)
    {
      if k in open && k != key {
        var i :| ResponsesRoundTrip.Shown(t, i) && k == ResponsesRoundTrip.Key(t.open[i], i, text);
        assert ResponsesRoundTrip.Shown(u, i) && u.open[i] == t.open[i];
      } else if !kind.ReasoningType? {
        assert ResponsesRoundTrip.Shown(u, index);
      } else {
        var i :| ResponsesRoundTrip.Shown(t, i) && k == ResponsesRoundTrip.Key(t.open[i], i, text);
        assert ResponsesRoundTrip.Shown(u, i) && u.open[i] == t.open[i];
      }
    }
  }

  lemma {:induction false} OneLessShown(t: Ledger, open: map<string, ContentType>, index: int, text: JsonText)
    requires SameShown(t, open, text) && index in t.open
    ensures var u, kind := t.(open := t.open - {index}), t.open[index];
            SameShown(u, if kind.ReasoningType? then open else open - {ResponsesRoundTrip.Key(kind, index, text)}, text)
  {
    hide ResponsesRoundTrip.Key;
    var u, kind := t.(open := t.open - {index}), t.open[index];
    var key := ResponsesRoundTrip.Key(kind, index, text);
    var less := if kind.ReasoningType? then open else open - {key};
    forall i | ResponsesRoundTrip.Shown(u, i)
      ensures var k := ResponsesRoundTrip.Key(u.open[i], i, text); k in less && less[k] == WireKind(u.open[i])
    {
      KeysTellBlocks(u.open[i], i, kind, index, text);
      assert ResponsesRoundTrip.Shown(t, i);
    }
    forall k | k in less
      ensures exists i :: ResponsesRoundTrip.Shown(u, i) && k == ResponsesRoundTrip.Key(u.open[i], i, text)
    {
      var i :| ResponsesRoundTrip.Shown(t, i) && k == ResponsesRoundTrip.Key(t.open[i], i, text);
      assert ResponsesRoundTrip.Shown(u, i) && u.open[i] == t.open[i];
    }
  }

  // The kind a stop closes; of a block that never started there is none.
  function StopKind(t: Ledger, e: StreamEvent): ContentType {
    if e.ContentStop? && e.index in t.open then t.open[e.index] else ReasoningType
  }

  // An event that is allowed prints frames that fit.
  lemma {:induction false} ResponsesFits(t: Ledger, b: ResponsesOrder.Books, e: StreamEvent, text: JsonText)
    requires Shows(t, b, text) && Allowed(t, e)
    ensures var m := ResponsesMark(e, StopKind(t, e), text);
            ResponsesOrder.Fits(b, m) && Shows(Note(t, e), ResponsesOrder.Noting(b, m), text)
  {
    hide ResponsesRoundTrip.Key, KeysAdded, SameShown;
    match e
    case Start(_, _, _) =>
      NewKey(b.added, t.started, TextType, 0, text);
      ShownIgnores(t, Note(t, e), b.open, text);
    case ContentStart(index, content) =>
      NewKey(b.added, t.started, content.kind, index, text);
      OneMoreShown(t, b.open, index, content.kind, text);
      ShownIgnores(t.(open := t.open[index := content.kind]), Note(t, e),
                   ResponsesOrder.Noting(b, ResponsesMark(e, StopKind(t, e), text)).open, text);
    case ContentDelta(index, content, _) => ShownHasKey(t, b.open, index, text);
    case ContentStop(index) =>
      if index in t.open {
        OneLessShown(t, b.open, index, text);
      } else {
        assert t.open - {index} == t.open;
      }
    case Done(_, _) =>
      NoneShown(t, b.open, text);
      ShownIgnores(t, Note(t, e), b.open, text);
  }

  lemma {:induction false} ShownIgnores(t: Ledger, u: Ledger, open: map<string, ContentType>, text: JsonText)
    requires SameShown(t, open, text) && u.open == t.open
    ensures SameShown(u, open, text)
  {
    hide ResponsesRoundTrip.Key;
    assert forall i :: ResponsesRoundTrip.Shown(u, i) <==> ResponsesRoundTrip.Shown(t, i);
  }

  lemma {:induction false} ShownHasKey(t: Ledger, open: map<string, ContentType>, index: int, text: JsonText)
    requires SameShown(t, open, text) && index in t.open
    ensures !t.open[index].ReasoningType? ==>
              var key := ResponsesRoundTrip.Key(t.open[index], index, text);
              key in open && open[key] == WireKind(t.open[index])
  {
    hide ResponsesRoundTrip.Key;
    assert ResponsesRoundTrip.Shown(t, index) <==> !t.open[index].ReasoningType?;
  }

  lemma {:induction false} NoneShown(t: Ledger, open: map<string, ContentType>, text: JsonText)
    requires SameShown(t, open, text)
    ensures t.open == map[] ==> open == map[]
  {
    hide ResponsesRoundTrip.Key;
    if open != map[] {
      assert open.Keys != {};
      var key :| key in open.Keys;
      var i :| ResponsesRoundTrip.Shown(t, i) && key == ResponsesRoundTrip.Key(t.open[i], i, text);
      assert i in t.open;
    }
  }

  lemma {:induction false} ResponsesPrints(t: Ledger, e: StreamEvent, seen: Collected, responseID: string,
                                           text: JsonText)
    requires Allowed(t, e) && ResponsesRoundTrip.RawBlocks(seen, Note(t, e))
    requires e.ContentStop? && e.index in t.open ==>
               e.index in seen.blocks && seen.blocks[e.index].content.kind == t.open[e.index]
    ensures Amounts(Marks(ResponsesStream.Encode(e, seen, responseID, text), text),
                    ResponsesMark(e, StopKind(t, e), text))
  {
    hide ResponsesOrder.MarkOf, ResponsesStream.StopFrames;
    match e
    case Start(_, model, _) =>
      EnvelopeMarks(map["response" := Obj(map["id" := Str(responseID), "object" := Str("response"),
                                              "created_at" := Num(0), "status" := Str("in_progress"),
                                              "model" := Str(model), "output" := Arr([])])], text);
      hide Frame;
    case ContentStart(_, _) =>
      hide ResponsesStream.Encode, ResponsesMark, Amounts;
      StartMarks(e, seen, responseID, StopKind(t, e), text);
    case ContentDelta(_, _, _) =>
      hide ResponsesStream.Encode, ResponsesMark, Amounts;
      DeltaMarks(e, seen, responseID, StopKind(t, e), text);
    case ContentStop(index) =>
      if index in t.open {
        StopMarks(index, seen.blocks[index], text);
      }
    case Done(_, _) =>
      hide ResponsesStream.ResponseObject;
      EnvelopeMarks(map["response" := ResponsesStream.ResponseObject(seen.response, responseID, text)], text);
      hide Frame;
  }

  lemma {:induction false} ResponsesInOrder(es: seq<StreamEvent>, env: Env)
    requires Orderly(es)
    ensures var out := EncodeAll(OpenAIResponses, FRESH, es, env).out;
            ResponsesOrder.InOrder(out, env.text) && Shows(Noted(es), ResponsesOrder.Marked(out, env.text), env.text)
  {
    hide EncodeAll, ResponsesStream.Encode, Noted, ResponsesOrder.InOrder, ResponsesOrder.Marked, ResponsesOrder.MarkOf,
         Allowed, Note, ResponsesOrder.Fits, ResponsesOrder.Noting, Shows, Apply, ResponsesRoundTrip.RawBlocks, Amounts,
         ResponsesMark, StopKind;
    if es == [] {
      NothingOnWire(OpenAIResponses, env);
      NothingShown(env.text);
    } else {
      var n, e := |es| - 1, es[|es| - 1];
      ResponsesInOrder(es[..n], env);
      assert es == es[..n] + [e];
      var t, before := Noted(es[..n]), EncodeAll(OpenAIResponses, FRESH, es[..n], env);
      var after := EncodeAll(OpenAIResponses, FRESH, es, env);
      ResponsesRoundTrip.EncodesOneMore(es[..n], e, env);
      EncoderCollects(OpenAIResponses, FRESH, es[..n], env);
      ResponsesRoundTrip.RawStays(es[..n], env.text);
      OrderlyOneMore(es[..n], e);
      ResponsesRoundTrip.RawAtStop(before.collected, t, e, env.text);
      ResponsesPrints(t, e, after.collected, after.responseID, env.text);
      var b := ResponsesOrder.Marked(before.out, env.text);
      ResponsesFits(t, b, e, env.text);
      FramesBooked(before.out, b, ResponsesStream.Encode(e, after.collected, after.responseID, env.text),
                   ResponsesMark(e, StopKind(t, e), env.text), env.text);
    }
  }

  lemma {:induction false} NothingShown(text: JsonText)
    ensures Shows(BLANK, ResponsesOrder.NO_BOOKS, text)
  {
  }

  // ---- Printed for Chat -------------------------------------------------------------------

  // A chunk whose calls come under indexes that are not negative.
  ghost predicate ProperChunk(e: Event) {
    !e.data.DoneMark? && ChatBracketing.IsChunk(e)
    && forall f :: f in ChatBracketing.ChunkFragments(Unmarshal(e.data).value) ==> ChatBracketing.ProperFragment(f)
  }

  lemma {:induction false} ProperFragments(frames: seq<Event>)
    requires forall e :: e in frames ==> ProperChunk(e)
    ensures forall f :: f in ChatBracketing.Fragments(frames) ==> ChatBracketing.ProperFragment(f)
    ensures !ChatBracketing.HasDone(frames)
  {
    hide ChatBracketing.ChunkFragments, ChatBracketing.ProperFragment;
    if frames != [] {
      var n := |frames| - 1;
      assert frames[n] in frames && forall e :: e in frames[..n] ==> e in frames;
      ProperFragments(frames[..n]);
    }
  }

  lemma {:induction false} ChunkFrameChoices(r: Response, generated: string, choices: seq<Json>, usage: Option<Usage>)
    ensures var e := ChatStream.ChunkFrame(r, generated, choices, usage);
            && !e.data.DoneMark? && ChatBracketing.IsChunk(e)
            && ChatStream.Items(Get(Unmarshal(e.data).value, "choices")) == choices
  {
    hide EnsureID;
  }

  lemma {:induction false} NoChoiceIsProper(r: Response, generated: string, usage: Option<Usage>)
    ensures ProperChunk(ChatStream.ChunkFrame(r, generated, [], usage))
  {
    hide ChatStream.ChunkFrame;
    ChunkFrameChoices(r, generated, [], usage);
    assert ChatBracketing.ChoicesFragments([]) == [];
  }

  lemma {:induction false} OneChoiceFragments(choice: Json)
    ensures ChatBracketing.ChoicesFragments([choice]) == ChatBracketing.ChoiceFragments(choice)
  {
    hide ChatBracketing.ChoiceFragments;
    var choices, fs := [choice], ChatBracketing.ChoiceFragments(choice);
    assert choices[..|choices| - 1] == [] && [] + fs == fs;
  }

  lemma {:induction false} OneCallFragments(call: Json)
    ensures ChatBracketing.CallFragments([call]) == [ChatBracketing.CallFragment(call)]
  {
    hide ChatBracketing.CallFragment;
    var calls := [call];
    assert calls[..|calls| - 1] == [];
  }

  predicate IsOneCall(calls: Json) {
    calls.Arr? && |calls.items| == 1 && ChatBracketing.CallFragment(calls.items[0]).key >= 0
  }

  // A frame with one choice whose delta is text, reasoning, or one call with a proper index.
  lemma {:induction false} DeltaIsProper(r: Response, generated: string, delta: map<string, Json>, finish: Json)
    requires delta.Keys <= {"role", "content"} || delta.Keys == {"reasoning_content"}
             || (delta.Keys == {"tool_calls"} && IsOneCall(delta["tool_calls"]))
    ensures ProperChunk(ChatStream.ChunkFrame(r, generated, [ChatStream.ChoiceObject(delta, finish)], None))
  {
    hide ChatStream.ChunkFrame, ChatBracketing.CallFragment;
    var choice := ChatStream.ChoiceObject(delta, finish);
    ChunkFrameChoices(r, generated, [choice], None);
    OneChoiceFragments(choice);
    assert Get(choice, "delta") == Obj(delta);
    hide ChatStream.ChoiceObject;
    if delta.Keys == {"tool_calls"} {
      var call := delta["tool_calls"].items[0];
      assert delta["tool_calls"] == Arr([call]);
      OneCallFragments(call);
      CallIsACall(call);
    }
  }

  lemma {:induction false} CallIsACall(call: Json)
    ensures ChatBracketing.CallFragment(call).kind == ToolCallType
  {
  }

  lemma {:induction false} PrintedCalls(index: int, id: string, name: string, arguments: string)
    ensures 0 <= index ==>
              IsOneCall(Arr([ChatStream.CallStart(index, id, name)]))
                  && IsOneCall(Arr([ChatStream.CallDelta(index, arguments)]))
  {
  }

  lemma {:induction false} ChatPrints(t: Ledger, e: StreamEvent, r: Response, ids: nat -> string, n: nat)
    requires Allowed(t, e) && !e.Done? && t.open.Keys <= t.started && forall i :: i in t.started ==> 0 <= i
    ensures forall f :: f in ChatStream.Encode(e, r, ids, n) ==> ProperChunk(f)
  {
    hide ProperChunk, ChatStream.ChunkFrame, ChatStream.CallStart, ChatStream.CallDelta, ChatStream.ChoiceObject,
         IsOneCall;
    match e
    case Start(_, _, _) =>
      DeltaIsProper(r, ids(n), map["role" := Str("assistant"), "content" := Str("")], Null);
    case ContentStart(index, c) =>
      PrintedCalls(index, c.id, c.name, "");
      DeltaIsProper(r, ids(n), map["tool_calls" := Arr([ChatStream.CallStart(index, c.id, c.name)])], Null);
    case ContentDelta(index, c, argumentsDelta) =>
      PrintedCalls(index, "", "", argumentsDelta);
      DeltaIsProper(r, ids(n), map["tool_calls" := Arr([ChatStream.CallDelta(index, argumentsDelta)])], Null);
      DeltaIsProper(r, ids(n), map["reasoning_content" := Str(c.text)], Null);
      DeltaIsProper(r, ids(n), map["content" := Str(c.text)], Null);
    case ContentStop(_) =>
    case Done(_, _) =>
  }

  lemma {:induction false} StartedIsNatural(es: seq<StreamEvent>)
    requires Orderly(es)
    ensures forall i :: i in Noted(es).started ==> 0 <= i
  {
    if es != [] {
      StartedIsNatural(es[..|es| - 1]);
    }
  }

  lemma {:induction false} ChatIsProper(es: seq<StreamEvent>, env: Env)
    requires Orderly(es) && !Noted(es).ended
    ensures forall f :: f in EncodeAll(OpenAIChat, FRESH, es, env).out ==> ProperChunk(f)
  {
    hide EncodeAll, ChatStream.Encode, Noted, ProperChunk, Allowed, Note;
    if es == [] {
      NothingOnWire(OpenAIChat, env);
    } else {
      var n, e := |es| - 1, es[|es| - 1];
      assert es == es[..n] + [e];
      OrderlyOneMore(es[..n], e);
      NotEndedYet(Noted(es[..n]), e);
      ChatIsProper(es[..n], env);
      ChatRoundTrip.EncodesOneMore(es[..n], e, env);
      StartedIsNatural(es[..n]);
      OpenWasStarted(es[..n]);
      var before, after := EncodeAll(OpenAIChat, FRESH, es[..n], env), EncodeAll(OpenAIChat, FRESH, es, env);
      ChatPrints(Noted(es[..n]), e, after.collected.response, env.ids, |before.out|);
    }
  }

  lemma {:induction false} NotEndedYet(t: Ledger, e: StreamEvent)
    ensures !Note(t, e).ended ==> !t.ended && !e.Done?
  {
  }

  // Proper chunks and [DONE] are in order.
  lemma {:induction false} ProperIsTidy(chunks: seq<Event>, text: JsonText)
    requires forall e :: e in chunks ==> ProperChunk(e)
    ensures WellOrdered(OpenAIChat, chunks + [ChatBracketing.END], text)
  {
    hide ChatBracketing.SilentAfterDone, ChatBracketing.OneKindPerKey, ChatBracketing.Fragments,
         ChatBracketing.BeforeDone, ChatBracketing.ProperFragment, ChatBracketing.HasDone,
         ChatBracketing.ChunkFragments;
    ProperFragments(chunks);
    ChatBracketing.DoneOneMore(chunks, ChatBracketing.END);
    ChatBracketing.ProperIsOneKind(ChatBracketing.Fragments(chunks));
    var frames := chunks + [ChatBracketing.END];
    forall i | 0 <= i < |chunks|
      ensures frames[i] == chunks[i] && !frames[i].data.DoneMark?
    {
      assert chunks[i] in chunks;
    }
    ChatBracketing.OnlyDoneIsSilent(frames);
  }

  lemma {:induction false} ChatInOrder(es: seq<StreamEvent>, env: Env)
    requires Complete(es)
    ensures WellOrdered(OpenAIChat, EncodeAll(OpenAIChat, FRESH, es, env).out, env.text)
  {
    hide EncodeAll, Noted, Orderly, ProperChunk, WellOrdered, ChatStream.ChunkFrame, StopReasons.EncodeChatStopReason;
    CompleteEnds(es);
    var n, done := |es| - 1, es[|es| - 1];
    ChatIsProper(es[..n], env);
    ChatRoundTrip.EncodesOneMore(es[..n], done, env);
    var before, r := EncodeAll(OpenAIChat, FRESH, es[..n], env).out,
        EncodeAll(OpenAIChat, FRESH, es, env).collected.response;
    var m := |before|;
    var ending := ChatStream.ChunkFrame(r, env.ids(m), [ChatStream.ChoiceObject(map[],
                                        Str(StopReasons.EncodeChatStopReason(done.stopReason)))], None);
    var counted := if done.usage.Some? then [ChatStream.ChunkFrame(r, env.ids(m + 1), [], done.usage)] else [];
    DeltaIsProper(r, env.ids(m), map[], Str(StopReasons.EncodeChatStopReason(done.stopReason)));
    NoChoiceIsProper(r, env.ids(m + 1), done.usage);
    ProperIsTidy(before + [ending] + counted, env.text);
    assert EncodeAll(OpenAIChat, FRESH, es, env).out == before + [ending] + counted + [ChatBracketing.END];
  }

  // ---- Translations compose ---------------------------------------------------------------

  /** Whatever complete run is printed, its frames are in order. */
  lemma {:induction false} PrintedIsInOrder(to: Protocol, es: seq<StreamEvent>, env: Env)
    requires Complete(es)
    ensures WellOrdered(to, EncodeAll(to, FRESH, es, env).out, env.text)
  {
    hide EncodeAll, Noted, Orderly, AnthropicOrder.InOrder, AnthropicOrder.Marked, ResponsesOrder.InOrder,
         ResponsesOrder.Marked;
    match to
    case OpenAIChat => ChatInOrder(es, env);
    case OpenAIResponses =>
      CompleteEnds(es);
      OrderlyOneMore(es[..|es| - 1], es[|es| - 1]);
      ResponsesInOrder(es, env);
      NoneShown(Noted(es), ResponsesOrder.Marked(EncodeAll(to, FRESH, es, env).out, env.text).open, env.text);
    case Anthropic => AnthropicInOrder(es, env);
  }

  /** A stream in order is translated to a stream in order, whatever the two protocols, so translations compose. */
  lemma {:induction false} TranslationsCompose(from: Protocol, to: Protocol, frames: seq<Event>, env: Env,
                                               out: seq<Event>, r: Response)
    requires WellOrdered(from, frames, env.text) && Translates(from, to, frames, env, out, r)
    ensures WellOrdered(to, out, env.text)
  {
    hide Run, Noted, Orderly, EncodeAll, WellOrdered, WalksFit, Finish;
    var ds, last :| FitsFrames(from, frames, env.text, ds, last)
        && Translate(from, to, ds, last, env) == Some((out, r));
    OrderIsComplete(from, ds, last, env.text);
    PrintedIsInOrder(to, StreamEvents(from, ds, last, env.text), env);
  }
}
