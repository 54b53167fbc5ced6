/** The usage TranslateStream returns, told on the frames alone (proxy/codec/stream.go). */
module StreamUsage {
  import opened Canonical
  import opened Collector
  import opened Json
  import opened OrderlyRuns
  import opened StopReasons
  import opened StreamTypes
  import opened Streams
  import opened Wrappers
  import AnthropicStream
  import ChatBracketing
  import ChatStream
  import ResponsesStream
  import RoundTrips

  // ---- What the frames tell ---------------------------------------------------------------

  function ChatFrameUsage(frame: Event): Option<Usage> {
    var parsed := Unmarshal(frame.data);
    if parsed.Some? then DecodeChatUsage(Get(parsed.value, "usage")) else None
  }

  // The last usage object of some chunks.
  function ChatUsage(frames: seq<Event>): Option<Usage> {
    if frames == [] then None
    else
      var told := ChatFrameUsage(frames[|frames| - 1]);
      if told.Some? then told else ChatUsage(frames[..|frames| - 1])
  }

  function ResponsesKind(frame: Event): ResponsesStream.FrameKind {
    var parsed := Unmarshal(frame.data);
    if parsed.Some? then ResponsesStream.KindOf(TypeName(frame, parsed.value)) else ResponsesStream.Ignored
  }

  predicate IsTerminal(frame: Event) {
    ResponsesKind(frame).Terminal?
  }

  function ResponsesFrameUsage(frame: Event): Option<Usage> {
    if ResponsesKind(frame).Created? || IsTerminal(frame)
    then DecodeResponsesUsage(Get(Get(frame.data.json, "response"), "usage")) else None
  }

  // The last usage object of the response objects of some frames.
  function ResponsesUsage(frames: seq<Event>): Option<Usage> {
    if frames == [] then None
    else
      var told := ResponsesFrameUsage(frames[|frames| - 1]);
      if told.Some? then told else ResponsesUsage(frames[..|frames| - 1])
  }

  function AnthropicName(frame: Event): string {
    var parsed := Unmarshal(frame.data);
    if parsed.Some? then TypeName(frame, parsed.value) else ""
  }

  // The usage object of a message_start or a message_delta.
  function AnthropicFrameUsage(frame: Event): Option<Usage> {
    if AnthropicName(frame) == "message_start" then
      DecodeAnthropicUsage(Get(Get(frame.data.json, "message"), "usage"))
    else if AnthropicName(frame) == "message_delta" then DecodeAnthropicUsage(Get(frame.data.json, "usage"))
    else None
  }

  function Listed(usage: Option<Usage>): seq<Usage> {
    if usage.Some? then [usage.value] else []
  }

  // The usage objects since the last message_start.
  function AnthropicUsages(frames: seq<Event>): seq<Usage> {
    if frames == [] then []
    else
      var frame := frames[|frames| - 1];
      var before := if AnthropicName(frame) == "message_start" then [] else AnthropicUsages(frames[..|frames| - 1]);
      before + Listed(AnthropicFrameUsage(frame))
  }

  // Input and cached tokens are those of the first object, the rest is that of the last.
  function AnthropicUsage(frames: seq<Event>): Option<Usage> {
    var all := AnthropicUsages(frames);
    if all == [] then None
    else
      var first, last := all[0], all[|all| - 1];
      Some(last.(input := first.input, cached := first.cached, total := first.input + last.output))
  }

  // The usage object of the last message_start.
  function StartTold(frames: seq<Event>): Option<Usage> {
    if frames == [] then None
    else
      var frame := frames[|frames| - 1];
      if AnthropicName(frame) == "message_start" then AnthropicFrameUsage(frame)
      else StartTold(frames[..|frames| - 1])
  }

  predicate Ends(from: Protocol, frame: Event) {
    match from
    case OpenAIChat => frame.data.DoneMark?
    case OpenAIResponses => IsTerminal(frame)
    case Anthropic => AnthropicName(frame) == "message_stop"
  }

  predicate HasEnd(from: Protocol, frames: seq<Event>) {
    exists e :: e in frames && Ends(from, e)
  }

  // The frames up to the last that ends the stream; all of them when none does.
  function UpToEnd(from: Protocol, frames: seq<Event>): seq<Event> {
    if frames == [] || Ends(from, frames[|frames| - 1]) || !HasEnd(from, frames) then frames
    else UpToEnd(from, frames[..|frames| - 1])
  }

  // The usage a decoder knows when the stream ends; for Chat the first [DONE] is the end.
  function UsageIn(from: Protocol, frames: seq<Event>): Option<Usage> {
    match from
    case OpenAIChat => ChatUsage(ChatBracketing.BeforeDone(frames))
    case OpenAIResponses => ResponsesUsage(UpToEnd(from, frames))
    case Anthropic => AnthropicUsage(UpToEnd(from, frames))
  }

  lemma {:induction false} EndOneMore(from: Protocol, frames: seq<Event>, e: Event)
    ensures HasEnd(from, frames + [e]) <==> HasEnd(from, frames) || Ends(from, e)
    ensures Ends(from, e) ==> UpToEnd(from, frames + [e]) == frames + [e]
    ensures !Ends(from, e) && HasEnd(from, frames) ==> UpToEnd(from, frames + [e]) == UpToEnd(from, frames)
    ensures !HasEnd(from, frames) ==> UpToEnd(from, frames) == frames
  {
    hide Ends;
    assert (frames + [e])[..|frames|] == frames;
    assert forall x :: x in frames + [e] <==> x in frames || x == e;
    if frames != [] {
      assert frames[|frames| - 1] in frames;
    }
  }

  // ---- Events that tell no usage ----------------------------------------------------------

  ghost predicate Quiet(es: seq<StreamEvent>) {
    forall e :: e in es ==> !e.Done? && IsBare(e)
  }

  lemma {:induction false} QuietConcat(a: seq<StreamEvent>, b: seq<StreamEvent>)
    ensures Quiet(a + b) <==> Quiet(a) && Quiet(b)
  {
    hide IsBare;
    assert forall e :: e in a + b <==> e in a || e in b;
  }

  lemma {:induction false} QuietKeepsUsage(z: Collected, es: seq<StreamEvent>, text: JsonText)
    requires Quiet(es)
    ensures ApplyAll(z, es, text).response.usage == z.response.usage
  {
    hide Grow, Collector.Closed;
    if es != [] {
      var n := |es| - 1;
      assert es[n] in es && forall e :: e in es[..n] ==> e in es;
      QuietKeepsUsage(z, es[..n], text);
    }
  }

  lemma {:induction false} NothingIsQuiet()
    ensures Quiet([])
  {
  }

  // ---- Chat -------------------------------------------------------------------------------

  lemma {:induction false} PartsAreQuiet(s: ChatStream.State, t: string)
    ensures var step := ChatStream.TextPart(s, t);
            Quiet(step.events) && step.state.usage == s.usage && step.state.done == s.done
    ensures var step := ChatStream.ReasoningPart(s, t);
            Quiet(step.events) && step.state.usage == s.usage && step.state.done == s.done
  {
  }

  lemma {:induction false} CallIsQuiet(s: ChatStream.State, call: Json)
    ensures var step := ChatStream.ToolPart(s, call);
            Quiet(step.events) && step.state.usage == s.usage && step.state.done == s.done
  {
    hide Get, StringOr, IntOr;
  }

  lemma {:induction false} CallsAreQuiet(s: ChatStream.State, calls: seq<Json>)
    ensures var step := ChatStream.ToolParts(s, calls);
            Quiet(step.events) && step.state.usage == s.usage && step.state.done == s.done
  {
    hide ChatStream.ToolPart, Quiet;
    if calls == [] {
      NothingIsQuiet();
    } else {
      var n := |calls| - 1;
      CallsAreQuiet(s, calls[..n]);
      var before := ChatStream.ToolParts(s, calls[..n]);
      CallIsQuiet(before.state, calls[n]);
      QuietConcat(before.events, ChatStream.ToolPart(before.state, calls[n]).events);
    }
  }

  lemma {:induction false} ChoiceIsQuiet(s: ChatStream.State, choice: Json)
    ensures var step := ChatStream.Choice(s, choice);
            Quiet(step.events) && step.state.usage == s.usage && step.state.done == s.done
  {
    hide ChatStream.TextPart, ChatStream.ReasoningPart, ChatStream.ToolParts, Quiet, Get, StringOr, ChatStream.Items;
    var delta := Get(choice, "delta");
    var a := ChatStream.TextPart(s, StringOr(Get(delta, "content")));
    PartsAreQuiet(s, StringOr(Get(delta, "content")));
    var b := ChatStream.ReasoningPart(a.state, StringOr(Get(delta, "reasoning_content")));
    PartsAreQuiet(a.state, StringOr(Get(delta, "reasoning_content")));
    var calls := ChatStream.Items(Get(delta, "tool_calls"));
    CallsAreQuiet(b.state, calls);
    QuietConcat(a.events, b.events);
    QuietConcat(a.events + b.events, ChatStream.ToolParts(b.state, calls).events);
  }

  lemma {:induction false} ChoicesAreQuiet(s: ChatStream.State, choices: seq<Json>)
    ensures var step := ChatStream.Choices(s, choices);
            Quiet(step.events) && step.state.usage == s.usage && step.state.done == s.done
  {
    hide ChatStream.Choice, Quiet;
    if choices == [] {
      NothingIsQuiet();
    } else {
      var n := |choices| - 1;
      ChoicesAreQuiet(s, choices[..n]);
      var before := ChatStream.Choices(s, choices[..n]);
      ChoiceIsQuiet(before.state, choices[n]);
      QuietConcat(before.events, ChatStream.Choice(before.state, choices[n]).events);
    }
  }

  lemma {:induction false} StartIsQuiet(id: string, model: string)
    ensures Quiet([Start(id, model, None)])
  {
  }

  lemma {:induction false} ChunkIsQuiet(s: ChatStream.State, value: Json)
    ensures var step, told := ChatStream.Chunk(s, value), DecodeChatUsage(Get(value, "usage"));
            && Quiet(step.events) && step.state.done == s.done
            && step.state.usage == if told.Some? then told else s.usage
  {
    hide ChatStream.Choices, Quiet, DecodeChatUsage;
    NothingIsQuiet();
    var t, choices := ChatStream.Header(s, value), ChatStream.Items(Get(value, "choices"));
    var u := t.(started := true);
    ChoicesAreQuiet(u, choices);
    StartIsQuiet(t.id, t.model);
    QuietConcat(if t.started then [] else [Start(t.id, t.model, None)], ChatStream.Choices(u, choices).events);
  }

  lemma {:induction false} ClosingIsQuiet(s: ChatStream.State, walk: seq<int>)
    ensures var step := ChatStream.CloseBlocks(s, walk);
            Quiet(step.events) && step.state.usage == s.usage && step.state.done == s.done
  {
    KeyedClosingIsQuiet(s.(textOpen := false), walk);
  }

  lemma {:induction false} KeyedClosingIsQuiet(s: ChatStream.State, walk: seq<int>)
    ensures var step := ChatStream.CloseKeyed(s, walk);
            Quiet(step.events) && step.state.usage == s.usage && step.state.done == s.done
  {
    if walk != [] {
      KeyedClosingIsQuiet(s, walk[..|walk| - 1]);
    }
  }

  // The decoder holds the usage told so far, and has told that of the end.
  ghost predicate ChatKnows(s: ChatStream.State, es: seq<StreamEvent>, frames: seq<Event>, text: JsonText) {
    && s.usage == ChatUsage(frames) && (s.done <==> ChatBracketing.HasDone(frames))
    && ApplyAll(EMPTY, es, text).response.usage ==
       if s.done then ChatUsage(ChatBracketing.BeforeDone(frames)) else None
  }

  lemma {:induction false} ChatUsageOneMore(frames: seq<Event>, e: Event)
    ensures var told := ChatFrameUsage(e);
            ChatUsage(frames + [e]) == if told.Some? then told else ChatUsage(frames)
  {
    hide ChatFrameUsage;
    assert (frames + [e])[..|frames|] == frames;
  }

  // The end of a chat stream tells the usage known before it.
  lemma {:induction false} ChatEndTells(z: Collected, s: ChatStream.State, t: ChatStream.State, walk: seq<int>,
                                        text: JsonText)
    requires z.response.usage == None
    ensures ApplyAll(z, ChatStream.CloseBlocks(t, walk).events + [ChatStream.Ending(s)], text).response.usage == s.usage
  {
    hide ChatStream.CloseBlocks, Quiet, ApplyAll;
    var stops := ChatStream.CloseBlocks(t, walk).events;
    ClosingIsQuiet(t, walk);
    QuietKeepsUsage(z, stops, text);
    ApplyAllConcat(z, stops, [ChatStream.Ending(s)], text);
    RoundTrips.ApplyOne(ApplyAll(z, stops, text), ChatStream.Ending(s), text);
  }

  lemma {:induction false} ChatStepKnows(s: ChatStream.State, es: seq<StreamEvent>, frames: seq<Event>, d: Delivery,
                                         text: JsonText)
    requires ChatKnows(s, es, frames, text)
    ensures var step := ChatStream.Decode(s, d);
            step.Decoded? ==> ChatKnows(step.state, es + step.events, frames + [d.event], text)
  {
    hide ChatStream.Chunk, ChatStream.CloseBlocks, ChatStream.Ending, ChatUsage, ChatBracketing.HasDone,
         ChatBracketing.BeforeDone, ApplyAll, DecodeChatUsage, Quiet;
    var step := ChatStream.Decode(s, d);
    ChatUsageOneMore(frames, d.event);
    ChatBracketing.DoneOneMore(frames, d.event);
    if step.Decoded? {
      ApplyAllConcat(EMPTY, es, step.events, text);
      ApplyAllConcat(ApplyAll(EMPTY, es, text), [], [], text);
      if d.event.data.DoneMark? {
        ClosingIsQuiet(s.(done := true), d.walk);
        if !s.done {
          ChatEndTells(ApplyAll(EMPTY, es, text), s, s.(done := true), d.walk, text);
        }
      } else {
        ChunkIsQuiet(s, Unmarshal(d.event.data).value);
        QuietKeepsUsage(ApplyAll(EMPTY, es, text), step.events, text);
      }
    }
  }

  lemma {:induction false} ChatRunKnows(ds: seq<Delivery>, text: JsonText)
    ensures var run := Run(Initial(OpenAIChat), ds, text);
            run.Decoded? ==> run.state.ChatDecoder? && ChatKnows(run.state.chat, run.events, Events(ds), text)
  {
    hide ChatKnows, ChatStream.Decode;
    if ds == [] {
      assert Events(ds) == [];
      NothingKnown(text);
    } else {
      var n := |ds| - 1;
      ChatRunKnows(ds[..n], text);
      var before := Run(Initial(OpenAIChat), ds[..n], text);
      assert Events(ds) == Events(ds[..n]) + [ds[n].event];
      if before.Decoded? {
        ChatStepKnows(before.state.chat, before.events, Events(ds[..n]), ds[n], text);
      }
    }
  }

  lemma {:induction false} NothingKnown(text: JsonText)
    ensures ChatKnows(ChatStream.INITIAL, [], [], text)
  {
  }

  // What the collector has of a whole chat stream.
  lemma {:induction false} ChatStreamTells(ds: seq<Delivery>, last: seq<int>, text: JsonText)
    requires Run(Initial(OpenAIChat), ds, text).Decoded?
    ensures ApplyAll(EMPTY, StreamEvents(OpenAIChat, ds, last, text), text).response.usage ==
            UsageIn(OpenAIChat, Events(ds))
  {
    hide Run, ApplyAll, ChatStream.CloseBlocks, ChatStream.Ending, ChatUsage, Events, ChatBracketing.BeforeDone,
         ChatBracketing.HasDone;
    var run := Run(Initial(OpenAIChat), ds, text);
    ChatRunKnows(ds, text);
    var s := run.state.chat;
    ApplyAllConcat(EMPTY, run.events, Finish(run.state, last), text);
    ApplyAllConcat(ApplyAll(EMPTY, run.events, text), [], [], text);
    ChatBracketing.DoneOneMore(Events(ds), Event("", DoneMark));
    if !s.done {
      ChatEndTells(ApplyAll(EMPTY, run.events, text), s, s, last, text);
    }
  }

  // ---- Responses --------------------------------------------------------------------------

  lemma {:induction false} CaptureTells(s: ResponsesStream.State, value: Json)
    ensures var told, t := DecodeResponsesUsage(Get(value, "usage")), ResponsesStream.Capture(s, value);
            t.usage == (if told.Some? then told else s.usage) && t.done == s.done
  {
  }

  lemma {:induction false} ResponsesUsageOneMore(frames: seq<Event>, e: Event)
    ensures var told := ResponsesFrameUsage(e);
            ResponsesUsage(frames + [e]) == if told.Some? then told else ResponsesUsage(frames)
  {
    hide ResponsesFrameUsage;
    assert (frames + [e])[..|frames|] == frames;
  }

  // A usage told stays known.
  lemma {:induction false} ToldStaysTold(frames: seq<Event>)
    ensures ResponsesUsage(frames) == None ==> ResponsesUsage(UpToEnd(OpenAIResponses, frames)) == None
  {
    hide ResponsesFrameUsage, Ends, HasEnd;
    if frames != [] {
      ToldStaysTold(frames[..|frames| - 1]);
    }
  }

  // The decoder holds the usage told so far, and has told that of the last end.
  ghost predicate ResponsesKnows(s: ResponsesStream.State, es: seq<StreamEvent>, frames: seq<Event>, text: JsonText) {
    && s.usage == ResponsesUsage(frames) && (s.done <==> HasEnd(OpenAIResponses, frames))
    && ApplyAll(EMPTY, es, text).response.usage ==
       if s.done then ResponsesUsage(UpToEnd(OpenAIResponses, frames)) else None
  }

  // A step that tells no usage and does not end the stream.
  ghost predicate QuietStep(s: ResponsesStream.State, step: Decoded<ResponsesStream.State>) {
    step.Decoded? ==> Quiet(step.events) && step.state.usage == s.usage && step.state.done == s.done
  }

  lemma {:induction false} OpeningsAreQuiet(s: ResponsesStream.State, value: Json, text: JsonText)
    ensures QuietStep(s, ResponsesStream.ItemAdded(s, value, Get(value, "item")))
    ensures QuietStep(s, ResponsesStream.PartAdded(s, value, text))
  {
    hide Get, StringOr, ResponsesStream.ItemKey, ResponsesStream.ContentKey;
  }

  lemma {:induction false} DeltasAreQuiet(s: ResponsesStream.State, key: string, c: Content, argumentsDelta: string)
    ensures QuietStep(s, ResponsesStream.Delta(s, key, c, argumentsDelta))
  {
  }

  lemma {:induction false} StopsAreQuiet(s: ResponsesStream.State, key: string)
    ensures QuietStep(s, ResponsesStream.Stop(s, key))
  {
  }

  // A frame that neither begins nor ends the stream tells no usage.
  lemma {:induction false} OtherFramesAreQuiet(s: ResponsesStream.State, d: Delivery, text: JsonText)
    requires !ResponsesKind(d.event).Created? && !IsTerminal(d.event)
    ensures QuietStep(s, ResponsesStream.Decode(s, d, text))
  {
    hide ResponsesStream.ItemAdded, ResponsesStream.PartAdded, ResponsesStream.Delta, ResponsesStream.Stop,
         ResponsesStream.KindOf, TypeName, Quiet, Get, StringOr;
    NothingIsQuiet();
    var parsed := Unmarshal(d.event.data);
    if parsed.Some? {
      var value := parsed.value;
      var item := Get(value, "item");
      var said := StringOr(Get(value, "delta"));
      OpeningsAreQuiet(s, value, text);
      DeltasAreQuiet(s, ResponsesStream.ContentKey(value, text), TextContent(said), "");
      DeltasAreQuiet(s, ResponsesStream.ItemKey(value, Null), ToolCallContent("", "", Null), said);
      StopsAreQuiet(s, ResponsesStream.ContentKey(value, text));
      StopsAreQuiet(s, ResponsesStream.ItemKey(value, item));
    }
  }

  lemma {:induction false} BeginningTells(s: ResponsesStream.State, d: Delivery, text: JsonText)
    requires ResponsesKind(d.event).Created?
    ensures var step, told := ResponsesStream.Decode(s, d, text), ResponsesFrameUsage(d.event);
            && step.Decoded? && Quiet(step.events) && step.state.done == s.done
            && step.state.usage == if told.Some? then told else s.usage
  {
    hide ResponsesStream.Capture, ResponsesStream.KindOf, TypeName, Get, DecodeResponsesUsage;
    CaptureTells(s, Get(d.event.data.json, "response"));
  }

  lemma {:induction false} EndingTells(s: ResponsesStream.State, d: Delivery, text: JsonText)
    requires IsTerminal(d.event)
    ensures var step, told := ResponsesStream.Decode(s, d, text), ResponsesFrameUsage(d.event);
            && step.Decoded? && step.state.done
            && step.state.usage == (if told.Some? then told else s.usage)
            && |step.events| == 1 && step.events[0].Done? && step.events[0].usage == step.state.usage
  {
    hide ResponsesStream.Capture, ResponsesStream.KindOf, TypeName, Get, DecodeResponsesUsage;
    CaptureTells(s, Get(d.event.data.json, "response"));
  }

  lemma {:induction false} DoneTells(z: Collected, es: seq<StreamEvent>, text: JsonText)
    requires |es| == 1 && es[0].Done?
    ensures ApplyAll(z, es, text).response.usage == if es[0].usage.Some? then es[0].usage else z.response.usage
  {
    assert es == [es[0]];
    RoundTrips.ApplyOne(z, es[0], text);
  }

  lemma {:induction false} ResponsesStepKnows(s: ResponsesStream.State, es: seq<StreamEvent>, frames: seq<Event>,
                                              d: Delivery, text: JsonText)
    requires ResponsesKnows(s, es, frames, text)
    ensures var step := ResponsesStream.Decode(s, d, text);
            step.Decoded? ==> ResponsesKnows(step.state, es + step.events, frames + [d.event], text)
  {
    hide ResponsesStream.Decode, ResponsesUsage, HasEnd, UpToEnd, ApplyAll, Quiet, ResponsesKind;
    var step, z := ResponsesStream.Decode(s, d, text), ApplyAll(EMPTY, es, text);
    ResponsesUsageOneMore(frames, d.event);
    EndOneMore(OpenAIResponses, frames, d.event);
    ToldStaysTold(frames);
    if step.Decoded? {
      ApplyAllConcat(EMPTY, es, step.events, text);
      if IsTerminal(d.event) {
        EndingTells(s, d, text);
        DoneTells(z, step.events, text);
      } else {
        if ResponsesKind(d.event).Created? {
          BeginningTells(s, d, text);
        } else {
          OtherFramesAreQuiet(s, d, text);
        }
        QuietKeepsUsage(z, step.events, text);
      }
    }
  }

  lemma {:induction false} ResponsesRunKnows(ds: seq<Delivery>, text: JsonText)
    ensures var run := Run(Initial(OpenAIResponses), ds, text);
            run.Decoded? ==>
              run.state.ResponsesDecoder? && ResponsesKnows(run.state.responses, run.events, Events(ds), text)
  {
    hide ResponsesKnows, ResponsesStream.Decode;
    if ds == [] {
      assert Events(ds) == [];
      assert ResponsesKnows(ResponsesStream.INITIAL, [], [], text) by { NothingAnswered(text); }
    } else {
      var n := |ds| - 1;
      ResponsesRunKnows(ds[..n], text);
      var before := Run(Initial(OpenAIResponses), ds[..n], text);
      assert Events(ds) == Events(ds[..n]) + [ds[n].event];
      if before.Decoded? {
        ResponsesStepKnows(before.state.responses, before.events, Events(ds[..n]), ds[n], text);
      }
    }
  }

  lemma {:induction false} NothingAnswered(text: JsonText)
    ensures ResponsesKnows(ResponsesStream.INITIAL, [], [], text)
  {
  }

  lemma {:induction false} ResponsesStreamTells(ds: seq<Delivery>, last: seq<int>, text: JsonText)
    requires Run(Initial(OpenAIResponses), ds, text).Decoded?
    ensures ApplyAll(EMPTY, StreamEvents(OpenAIResponses, ds, last, text), text).response.usage ==
            UsageIn(OpenAIResponses, Events(ds))
  {
    hide Run, ApplyAll, ResponsesUsage, Events, HasEnd, UpToEnd;
    var run := Run(Initial(OpenAIResponses), ds, text);
    ResponsesRunKnows(ds, text);
    var s, z := run.state.responses, ApplyAll(EMPTY, run.events, text);
    ApplyAllConcat(EMPTY, run.events, Finish(run.state, last), text);
    ApplyAllConcat(z, [], [], text);
    EndOneMore(OpenAIResponses, Events(ds), Event("", DoneMark));
    if !s.done {
      DoneTells(z, [Done("stop", s.usage)], text);
    }
  }

  // ---- Anthropic --------------------------------------------------------------------------

  // The usage of the last done event.
  function DoneUsage(es: seq<StreamEvent>): Option<Usage> {
    if es == [] then None
    else
      var e := es[|es| - 1];
      if e.Done? then e.usage else DoneUsage(es[..|es| - 1])
  }

  lemma {:induction false} DoneUsageOneMore(es: seq<StreamEvent>, e: StreamEvent)
    ensures DoneUsage(es + [e]) == if e.Done? then e.usage else DoneUsage(es)
  {
    assert (es + [e])[..|es|] == es;
  }

  ghost predicate OnlyContent(es: seq<StreamEvent>) {
    forall e :: e in es ==> !e.Start? && !e.Done?
  }

  lemma {:induction false} ContentTellsNothing(es: seq<StreamEvent>, more: seq<StreamEvent>)
    requires OnlyContent(more)
    ensures DoneUsage(es + more) == DoneUsage(es) && StartUsage(es + more) == StartUsage(es)
    decreases |more|
  {
    hide DoneUsage, StartUsage;
    if more == [] {
      assert es + more == es;
    } else {
      var n := |more| - 1;
      assert more[n] in more && forall e :: e in more[..n] ==> e in more;
      ContentTellsNothing(es, more[..n]);
      assert es + more == es + more[..n] + [more[n]];
      DoneUsageOneMore(es + more[..n], more[n]);
      StartUsageOneMore(es + more[..n], more[n]);
    }
  }

  lemma {:induction false} AnthropicOneMore(frames: seq<Event>, e: Event)
    ensures AnthropicUsages(frames + [e]) ==
            (if AnthropicName(e) == "message_start" then [] else AnthropicUsages(frames))
            + Listed(AnthropicFrameUsage(e))
    ensures StartTold(frames + [e]) ==
            if AnthropicName(e) == "message_start" then AnthropicFrameUsage(e) else StartTold(frames)
  {
    hide AnthropicName, AnthropicFrameUsage, Listed;
    assert (frames + [e])[..|frames|] == frames;
  }

  lemma {:induction false} TotalIsTheSum(value: Json)
    ensures var u := DecodeAnthropicUsage(value); u.Some? ==> u.value.total == u.value.input + u.value.output
  {
  }

  ghost predicate AnthropicKnows(s: AnthropicStream.State, es: seq<StreamEvent>, frames: seq<Event>) {
    && s.usage == AnthropicUsage(frames) && (s.done <==> HasEnd(Anthropic, frames))
    && StartUsage(es) == StartTold(frames)
    && (s.done ==> DoneUsage(es) == AnthropicUsage(UpToEnd(Anthropic, frames)))
  }

  lemma {:induction false} StartKnows(s: AnthropicStream.State, es: seq<StreamEvent>, frames: seq<Event>, d: Delivery)
    requires AnthropicKnows(s, es, frames) && AnthropicName(d.event) == "message_start"
    ensures var step := AnthropicStream.Decode(s, d);
            step.Decoded? && AnthropicKnows(step.state, es + step.events, frames + [d.event])
  {
    hide AnthropicUsages, StartTold, HasEnd, UpToEnd, DoneUsage, StartUsage, DecodeAnthropicUsage, Get, StringOr;
    var usage := Get(Get(d.event.data.json, "message"), "usage");
    var step := AnthropicStream.Decode(s, d);
    AnthropicOneMore(frames, d.event);
    EndOneMore(Anthropic, frames, d.event);
    TotalIsTheSum(usage);
    assert step.events == [step.events[0]];
    DoneUsageOneMore(es, step.events[0]);
    StartUsageOneMore(es, step.events[0]);
    assert [] + Listed(AnthropicFrameUsage(d.event)) == Listed(AnthropicFrameUsage(d.event));
  }

  lemma {:induction false} DeltaKnows(s: AnthropicStream.State, es: seq<StreamEvent>, frames: seq<Event>, d: Delivery)
    requires AnthropicKnows(s, es, frames) && AnthropicName(d.event) == "message_delta"
    ensures var step := AnthropicStream.Decode(s, d);
            step.Decoded? && AnthropicKnows(step.state, es + step.events, frames + [d.event])
  {
    hide AnthropicUsages, StartTold, HasEnd, UpToEnd, DoneUsage, StartUsage, DecodeAnthropicUsage, Get, StringOr,
         AnthropicStopReason;
    var usage := Get(d.event.data.json, "usage");
    AnthropicOneMore(frames, d.event);
    EndOneMore(Anthropic, frames, d.event);
    TotalIsTheSum(usage);
    assert es + [] == es;
    assert AnthropicUsages(frames) + [] == AnthropicUsages(frames);
  }

  lemma {:induction false} StopKnows(s: AnthropicStream.State, es: seq<StreamEvent>, frames: seq<Event>, d: Delivery)
    requires AnthropicKnows(s, es, frames) && AnthropicName(d.event) == "message_stop"
    ensures var step := AnthropicStream.Decode(s, d);
            step.Decoded? && AnthropicKnows(step.state, es + step.events, frames + [d.event])
  {
    hide AnthropicUsages, StartTold, HasEnd, UpToEnd, DoneUsage, StartUsage;
    AnthropicOneMore(frames, d.event);
    EndOneMore(Anthropic, frames, d.event);
    assert AnthropicUsages(frames) + [] == AnthropicUsages(frames);
    var stops, done := AnthropicStream.StopEvents(d.walk), Done(s.stopReason, s.usage);
    ContentTellsNothing(es, stops);
    DoneUsageOneMore(es + stops, done);
    StartUsageOneMore(es + stops, done);
    assert es + (stops + [done]) == es + stops + [done];
  }

  lemma {:induction false} ContentFrames(s: AnthropicStream.State, d: Delivery)
    requires AnthropicName(d.event) !in {"message_start", "message_delta", "message_stop"}
    ensures var step := AnthropicStream.Decode(s, d);
            step.Decoded? ==> OnlyContent(step.events) && step.state.usage == s.usage && step.state.done == s.done
  {
    hide AnthropicStream.BlockStart, AnthropicStream.BlockDelta, Get, TypeName;
    var parsed := Unmarshal(d.event.data);
    if parsed.Some? {
      BlockEvents(s, IntOr(Get(parsed.value, "index")), Get(parsed.value, "content_block"));
      BlockEvents(s, IntOr(Get(parsed.value, "index")), Get(parsed.value, "delta"));
      BlocksKeepDone(s, IntOr(Get(parsed.value, "index")), Get(parsed.value, "content_block"));
      BlocksKeepDone(s, IntOr(Get(parsed.value, "index")), Get(parsed.value, "delta"));
    }
  }

  lemma {:induction false} BlocksKeepDone(s: AnthropicStream.State, index: int, value: Json)
    ensures var step := AnthropicStream.BlockStart(s, index, value); step.Decoded? ==> step.state.done == s.done
    ensures var step := AnthropicStream.BlockDelta(s, index, value); step.Decoded? ==> step.state.done == s.done
  {
    hide Get, StringOr;
  }

  lemma {:induction false} AnthropicStepKnows(s: AnthropicStream.State, es: seq<StreamEvent>, frames: seq<Event>,
                                              d: Delivery)
    requires AnthropicKnows(s, es, frames)
    ensures var step := AnthropicStream.Decode(s, d);
            step.Decoded? ==> AnthropicKnows(step.state, es + step.events, frames + [d.event])
  {
    hide AnthropicStream.Decode, AnthropicUsages, StartTold, HasEnd, UpToEnd, DoneUsage, StartUsage, OnlyContent;
    var name, step := AnthropicName(d.event), AnthropicStream.Decode(s, d);
    if name == "message_start" {
      StartKnows(s, es, frames, d);
    } else if name == "message_delta" {
      DeltaKnows(s, es, frames, d);
    } else if name == "message_stop" {
      StopKnows(s, es, frames, d);
    } else {
      hide AnthropicName;
      AnthropicOneMore(frames, d.event);
      EndOneMore(Anthropic, frames, d.event);
      assert AnthropicUsages(frames) + [] == AnthropicUsages(frames);
      ContentFrames(s, d);
      if step.Decoded? {
        ContentTellsNothing(es, step.events);
      }
    }
  }

  lemma {:induction false} AnthropicRunKnows(ds: seq<Delivery>, text: JsonText)
    ensures var run := Run(Initial(Anthropic), ds, text);
            run.Decoded? ==>
              run.state.AnthropicDecoder? && AnthropicKnows(run.state.anthropic, run.events, Events(ds))
  {
    hide AnthropicKnows, AnthropicStream.Decode;
    if ds == [] {
      assert Events(ds) == [];
      assert AnthropicKnows(AnthropicStream.INITIAL, [], []) by { NothingMeasured(); }
    } else {
      var n := |ds| - 1;
      AnthropicRunKnows(ds[..n], text);
      var before := Run(Initial(Anthropic), ds[..n], text);
      assert Events(ds) == Events(ds[..n]) + [ds[n].event];
      if before.Decoded? {
        AnthropicStepKnows(before.state.anthropic, before.events, Events(ds[..n]), ds[n]);
      }
    }
  }

  lemma {:induction false} NothingMeasured()
    ensures AnthropicKnows(AnthropicStream.INITIAL, [], [])
  {
  }

  lemma {:induction false} AnthropicStreamTells(ds: seq<Delivery>, last: seq<int>, text: JsonText)
    requires Run(Initial(Anthropic), ds, text).Decoded?
    ensures var es := StreamEvents(Anthropic, ds, last, text);
            DoneUsage(es) == UsageIn(Anthropic, Events(ds)) && StartUsage(es) == StartTold(Events(ds))
  {
    hide Run, AnthropicUsage, Events, HasEnd, UpToEnd, DoneUsage, StartUsage, StartTold;
    var run := Run(Initial(Anthropic), ds, text);
    AnthropicRunKnows(ds, text);
    var s := run.state.anthropic;
    EndOneMore(Anthropic, Events(ds), Event("", DoneMark));
    if s.done {
      assert run.events + [] == run.events;
    } else {
      DoneUsageOneMore(run.events, Done("stop", s.usage));
      StartUsageOneMore(run.events, Done("stop", s.usage));
    }
  }

  // ---- The usage returned -----------------------------------------------------------------

  /**
   * TranslateStream returns the usage the frames tell: of every Chat or Responses stream, whatever its
   * order, and of every Anthropic stream whose run is complete.
   */
  lemma {:induction false} ReturnedUsageIsTold(from: Protocol, to: Protocol, ds: seq<Delivery>, last: seq<int>,
                                               env: Env)
    requires Run(Initial(from), ds, env.text).Decoded?
    requires from.Anthropic? ==> Complete(StreamEvents(from, ds, last, env.text))
    ensures Translate(from, to, ds, last, env).value.1.usage == UsageIn(from, Events(ds))
  {
    hide Run, EncodeAll, Finish, Orderly, Noted, UsageIn, ApplyAll, Events;
    var es := StreamEvents(from, ds, last, env.text);
    EncoderCollects(to, FRESH, es, env);
    match from
    case OpenAIChat => ChatStreamTells(ds, last, env.text);
    case OpenAIResponses => ResponsesStreamTells(ds, last, env.text);
    case Anthropic =>
      UsageIsTheLast(from, to, ds, last, env);
      AnthropicStreamTells(ds, last, env.text);
  }

  /** The same of every stream that is translated. */
  lemma {:induction false} TranslatedUsageIsTold(from: Protocol, to: Protocol, frames: seq<Event>, env: Env,
                                                 out: seq<Event>, r: Response)
    requires !from.Anthropic? && Translates(from, to, frames, env, out, r)
    ensures r.usage == UsageIn(from, frames)
  {
    hide Run, Translate, WalksFit, Finish, UsageIn;
    var ds, last :| FitsFrames(from, frames, env.text, ds, last)
        && Translate(from, to, ds, last, env) == Some((out, r));
    ReturnedUsageIsTold(from, to, ds, last, env);
  }
}
