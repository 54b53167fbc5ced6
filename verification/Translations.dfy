/** What TranslateStream keeps of a stream, told on its frames alone. */
module Translations {
  import opened Canonical
  import opened Collector
  import opened Json
  import opened OrderlyRuns
  import opened StreamTypes
  import opened Streams
  import opened Wrappers
  import AnthropicRoundTrip
  import CallIDs
  import ChatBracketing
  import ChatRoundTrip
  import ChatStream
  import ResponsesRoundTrip
  import StreamOrder
  import StreamUsage

  // ---- A chat decoder starts one text block and one reasoning block -----------------------

  predicate StartsKind(e: StreamEvent, kind: ContentType) {
    e.ContentStart? && WireKind(e.content.kind) == kind
  }

  function StartCount(es: seq<StreamEvent>, kind: ContentType): nat {
    if es == [] then 0 else StartCount(es[..|es| - 1], kind) + (if StartsKind(es[|es| - 1], kind) then 1 else 0)
  }

  lemma {:induction false} CountOneMore(es: seq<StreamEvent>, e: StreamEvent, kind: ContentType)
    ensures StartCount(es + [e], kind) == StartCount(es, kind) + (if StartsKind(e, kind) then 1 else 0)
  {
    assert (es + [e])[..|es|] == es;
  }

  lemma {:induction false} OpenWasCounted(es: seq<StreamEvent>, i: int, kind: ContentType)
    requires ChatRoundTrip.OfKind(Noted(es), i, kind)
    ensures StartCount(es, kind) >= 1
  {
    if es != [] && ChatRoundTrip.OfKind(Noted(es[..|es| - 1]), i, kind) {
      OpenWasCounted(es[..|es| - 1], i, kind);
    }
  }

  lemma {:induction false} CountedOneAtATime(es: seq<StreamEvent>, kind: ContentType)
    requires StartCount(es, kind) <= 1
    ensures ChatRoundTrip.OneAtATime(es, kind)
  {
    hide Noted;
    if es != [] {
      var n := |es| - 1;
      CountedOneAtATime(es[..n], kind);
      if StartsKind(es[n], kind) {
        forall i
          ensures !ChatRoundTrip.OfKind(Noted(es[..n]), i, kind)
        {
          if ChatRoundTrip.OfKind(Noted(es[..n]), i, kind) {
            OpenWasCounted(es[..n], i, kind);
          }
        }
      }
    }
  }

  // Before the end a block was started once if the decoder holds it, and not at all otherwise.
  ghost predicate Counted(s: ChatStream.State, es: seq<StreamEvent>) {
    Orderly(es) ==>
      && StartCount(es, TextType) <= 1 && StartCount(es, ReasoningType) <= 1
      && (!Noted(es).ended ==>
            && (StartCount(es, TextType) == 1 ==> s.textOpen)
            && (StartCount(es, ReasoningType) == 1 ==> ChatStream.REASONING_KEY in s.toolIndexes))
  }

  lemma {:induction false} EventCounted(s: ChatStream.State, t: ChatStream.State, es: seq<StreamEvent>, e: StreamEvent)
    requires Counted(s, es)
    requires StartsKind(e, TextType) ==> !s.textOpen
    requires StartsKind(e, ReasoningType) ==> ChatStream.REASONING_KEY !in s.toolIndexes
    requires !e.Done? ==> (s.textOpen || StartsKind(e, TextType) ==> t.textOpen)
    requires !e.Done? ==>
               (ChatStream.REASONING_KEY in s.toolIndexes || StartsKind(e, ReasoningType) ==>
                ChatStream.REASONING_KEY in t.toolIndexes)
    ensures Counted(t, es + [e])
  {
    hide Noted, Orderly, StartsKind;
    CountOneMore(es, e, TextType);
    CountOneMore(es, e, ReasoningType);
    OrderlyOneMore(es, e);
  }

  lemma {:induction false} TextCounted(s: ChatStream.State, es: seq<StreamEvent>, t: string)
    requires Counted(s, es)
    ensures var step := ChatStream.TextPart(s, t); Counted(step.state, es + step.events)
  {
    hide Counted;
    var step := ChatStream.TextPart(s, t);
    if t == "" {
      assert es + [] == es;
    } else if s.textOpen {
      EventCounted(s, s, es, step.events[0]);
    } else {
      EventCounted(s, step.state, es, step.events[0]);
      EventCounted(step.state, step.state, es + [step.events[0]], step.events[1]);
      assert es + step.events == es + [step.events[0]] + [step.events[1]];
    }
  }

  lemma {:induction false} ReasoningCounted(s: ChatStream.State, es: seq<StreamEvent>, t: string)
    requires Counted(s, es)
    ensures var step := ChatStream.ReasoningPart(s, t); Counted(step.state, es + step.events)
  {
    hide Counted;
    var step := ChatStream.ReasoningPart(s, t);
    if t == "" {
      assert es + [] == es;
    } else if ChatStream.REASONING_KEY in s.toolIndexes {
      assert step.events == [step.events[0]];
      EventCounted(s, s, es, step.events[0]);
    } else {
      EventCounted(s, step.state, es, step.events[0]);
      EventCounted(step.state, step.state, es + [step.events[0]], step.events[1]);
      assert es + step.events == es + [step.events[0]] + [step.events[1]];
    }
  }

  lemma {:induction false} CallCounted(s: ChatStream.State, es: seq<StreamEvent>, call: Json)
    requires Counted(s, es)
    ensures var step := ChatStream.ToolPart(s, call); Counted(step.state, es + step.events)
  {
    hide Counted, Get, StringOr, IntOr;
    var step := ChatStream.ToolPart(s, call);
    if |step.events| == 0 {
      assert es + step.events == es;
    } else if |step.events| == 1 {
      assert step.events == [step.events[0]];
      EventCounted(s, step.state, es, step.events[0]);
    } else {
      EventCounted(s, step.state, es, step.events[0]);
      EventCounted(step.state, step.state, es + [step.events[0]], step.events[1]);
      assert es + step.events == es + [step.events[0]] + [step.events[1]];
    }
  }

  lemma {:induction false} CallsCounted(s: ChatStream.State, es: seq<StreamEvent>, calls: seq<Json>)
    requires Counted(s, es)
    ensures var step := ChatStream.ToolParts(s, calls); Counted(step.state, es + step.events)
  {
    hide Counted, ChatStream.ToolPart;
    if calls == [] {
      assert es + [] == es;
    } else {
      var n := |calls| - 1;
      CallsCounted(s, es, calls[..n]);
      var before := ChatStream.ToolParts(s, calls[..n]);
      var last := ChatStream.ToolPart(before.state, calls[n]);
      CallCounted(before.state, es + before.events, calls[n]);
      assert es + (before.events + last.events) == es + before.events + last.events;
    }
  }

  lemma {:induction false} StopReasonCounted(s: ChatStream.State, es: seq<StreamEvent>, t: ChatStream.State)
    requires Counted(s, es) && t.textOpen == s.textOpen && t.toolIndexes == s.toolIndexes
    ensures Counted(t, es)
  {
  }

  lemma {:induction false} ChoiceCounted(s: ChatStream.State, es: seq<StreamEvent>, choice: Json)
    requires Counted(s, es)
    ensures var step := ChatStream.Choice(s, choice); Counted(step.state, es + step.events)
  {
    hide Counted, ChatStream.TextPart, ChatStream.ReasoningPart, ChatStream.ToolParts, StringOr, Get, ChatStream.Items;
    var delta := Get(choice, "delta");
    var a := ChatStream.TextPart(s, StringOr(Get(delta, "content")));
    TextCounted(s, es, StringOr(Get(delta, "content")));
    var b := ChatStream.ReasoningPart(a.state, StringOr(Get(delta, "reasoning_content")));
    ReasoningCounted(a.state, es + a.events, StringOr(Get(delta, "reasoning_content")));
    var calls := ChatStream.Items(Get(delta, "tool_calls"));
    var c := ChatStream.ToolParts(b.state, calls);
    CallsCounted(b.state, es + a.events + b.events, calls);
    assert es + (a.events + b.events + c.events) == es + a.events + b.events + c.events;
    StopReasonCounted(c.state, es + a.events + b.events + c.events, ChatStream.Choice(s, choice).state);
  }

  lemma {:induction false} ChoicesCounted(s: ChatStream.State, es: seq<StreamEvent>, choices: seq<Json>)
    requires Counted(s, es)
    ensures var step := ChatStream.Choices(s, choices); Counted(step.state, es + step.events)
  {
    hide Counted, ChatStream.Choice;
    if choices == [] {
      assert es + [] == es;
    } else {
      var n := |choices| - 1;
      ChoicesCounted(s, es, choices[..n]);
      var before := ChatStream.Choices(s, choices[..n]);
      var last := ChatStream.Choice(before.state, choices[n]);
      ChoiceCounted(before.state, es + before.events, choices[n]);
      assert es + (before.events + last.events) == es + before.events + last.events;
    }
  }

  lemma {:induction false} ChunkCounted(s: ChatStream.State, es: seq<StreamEvent>, value: Json)
    requires Counted(s, es)
    ensures var step := ChatStream.Chunk(s, value); Counted(step.state, es + step.events)
  {
    hide Counted, ChatStream.Choices, Get;
    var t := ChatStream.Header(s, value);
    var start := Start(t.id, t.model, None);
    var started := if t.started then [] else [start];
    var u := t.(started := true);
    StopReasonCounted(s, es, u);
    assert Counted(u, es + started) by {
      if t.started {
        assert es + started == es;
      } else {
        EventCounted(u, u, es, start);
      }
    }
    var choices := ChatStream.Items(Get(value, "choices"));
    ChoicesCounted(u, es + started, choices);
    var body := ChatStream.Choices(u, choices);
    assert es + (started + body.events) == es + started + body.events;
  }

  // Stops change no count; when done follows them the decoder's books no longer matter.
  lemma {:induction false} StopsCounted(s: ChatStream.State, es: seq<StreamEvent>, stops: seq<StreamEvent>)
    requires Counted(s, es) && forall e :: e in stops ==> e.ContentStop?
    ensures Counted(s, es + stops)
    decreases |stops|
  {
    hide Counted;
    if stops == [] {
      assert es + stops == es;
    } else {
      var n := |stops| - 1;
      assert stops[n] in stops && forall e :: e in stops[..n] ==> e in stops;
      StopsCounted(s, es, stops[..n]);
      EventCounted(s, s, es + stops[..n], stops[n]);
      assert es + stops == es + stops[..n] + [stops[n]];
    }
  }

  lemma {:induction false} ClosingStops(s: ChatStream.State, walk: seq<int>)
    ensures forall e :: e in ChatStream.CloseBlocks(s, walk).events ==> e.ContentStop?
  {
    KeyedStops(s.(textOpen := false), walk);
  }

  lemma {:induction false} KeyedStops(s: ChatStream.State, walk: seq<int>)
    ensures forall e :: e in ChatStream.CloseKeyed(s, walk).events ==> e.ContentStop?
  {
    if walk != [] {
      KeyedStops(s, walk[..|walk| - 1]);
    }
  }

  lemma {:induction false} EndingCounted(s: ChatStream.State, u: ChatStream.State, t: ChatStream.State,
                                         es: seq<StreamEvent>, walk: seq<int>)
    requires Counted(s, es)
    ensures Counted(t, es + (ChatStream.CloseBlocks(u, walk).events + [ChatStream.Ending(s)]))
  {
    hide Counted, ChatStream.CloseBlocks;
    var stops, done := ChatStream.CloseBlocks(u, walk).events, ChatStream.Ending(s);
    ClosingStops(u, walk);
    StopsCounted(s, es, stops);
    EventCounted(s, t, es + stops, done);
    assert es + (stops + [done]) == es + stops + [done];
  }

  lemma {:induction false} StepCounted(s: ChatStream.State, es: seq<StreamEvent>, d: Delivery)
    requires Counted(s, es)
    ensures var step := ChatStream.Decode(s, d); step.Decoded? ==> Counted(step.state, es + step.events)
  {
    hide Counted, ChatStream.CloseBlocks, ChatStream.Ending, ChatStream.Chunk;
    assert es + [] == es;
    EndingCounted(s, s.(done := true), ChatStream.CloseBlocks(s.(done := true), d.walk).state, es, d.walk);
    var parsed := Unmarshal(d.event.data);
    if parsed.Some? {
      ChunkCounted(s, es, parsed.value);
    }
  }

  lemma {:induction false} RunCounted(ds: seq<Delivery>, text: JsonText)
    ensures var run := Run(Initial(OpenAIChat), ds, text);
            run.Decoded? ==> run.state.ChatDecoder? && Counted(run.state.chat, run.events)
  {
    hide Counted, ChatStream.Decode;
    if ds == [] {
      assert Counted(ChatStream.INITIAL, []) by { NothingCounted(); }
    } else {
      var n := |ds| - 1;
      RunCounted(ds[..n], text);
      var before := Run(Initial(OpenAIChat), ds[..n], text);
      if before.Decoded? {
        StepCounted(before.state.chat, before.events, ds[n]);
      }
    }
  }

  lemma {:induction false} NothingCounted()
    ensures Counted(ChatStream.INITIAL, [])
  {
  }

  /** In a complete run of a chat decoder neither text blocks nor reasoning blocks interleave. */
  lemma {:induction false} ChatComesOneAtATime(ds: seq<Delivery>, last: seq<int>, text: JsonText)
    requires Run(Initial(OpenAIChat), ds, text).Decoded? && Complete(StreamEvents(OpenAIChat, ds, last, text))
    ensures var es := StreamEvents(OpenAIChat, ds, last, text);
            ChatRoundTrip.OneAtATime(es, TextType) && ChatRoundTrip.OneAtATime(es, ReasoningType)
  {
    hide Run, Orderly, Noted, ChatStream.CloseBlocks, ChatStream.Ending, ChatRoundTrip.OneAtATime;
    RunCounted(ds, text);
    var es, run := StreamEvents(OpenAIChat, ds, last, text), Run(Initial(OpenAIChat), ds, text);
    var s := run.state.chat;
    if s.done {
      assert es == run.events;
    } else {
      EndingCounted(s, s, s, run.events, last);
    }
    assert Counted(s, es);
    CountedOneAtATime(es, TextType);
    CountedOneAtATime(es, ReasoningType);
  }

  // ---- A stream translated and read -------------------------------------------------------

  // The run some walks make of frames in order is complete.
  lemma {:induction false} OrderedIsComplete(from: Protocol, to: Protocol, frames: seq<Event>, env: Env,
                                             out: seq<Event>, r: Response)
    returns (ds: seq<Delivery>, last: seq<int>)
    requires StreamOrder.WellOrdered(from, frames, env.text) && Translates(from, to, frames, env, out, r)
    ensures Run(Initial(from), ds, env.text).Decoded? && Complete(StreamEvents(from, ds, last, env.text))
    ensures Translate(from, to, ds, last, env) == Some((out, r)) && Events(ds) == frames
  {
    hide Run, Orderly, Noted, Translate, WalksFit, Finish, StreamOrder.WellOrdered;
    ds, last :| FitsFrames(from, frames, env.text, ds, last)
        && Translate(from, to, ds, last, env) == Some((out, r));
    StreamOrder.OrderIsComplete(from, ds, last, env.text);
  }

  // What an Anthropic reader is told of a usage.
  predicate SurvivesAnthropic(from: Protocol, frames: seq<Event>) {
    var told := StreamUsage.UsageIn(from, frames);
    told.Some? &&
    if from.Anthropic? then
      && told.value.cacheWrite == 0
      && (StreamUsage.StartTold(frames).Some? || (told.value.input == 0 && told.value.cached == 0))
    else told.value == Usage(0, told.value.output, told.value.output, 0, 0, 0)
  }

  /**
   * A stream in order translated for an Anthropic reader: the content and the model arrive. The usage
   * returned is the one the frames tell. It arrives from Anthropic when no tokens were written to the
   * cache and message_start told the input tokens, if there are any; from the others when it counts
   * nothing but output tokens.
   */
  lemma {:induction false} ToAnthropic(from: Protocol, frames: seq<Event>, env: Env, out: seq<Event>, r: Response,
                                       result: Result<Response, Failure>)
    requires StreamOrder.WellOrdered(from, frames, env.text) && Translates(from, Anthropic, frames, env, out, r)
             && Outcome(Anthropic, out, env.text, result)
    ensures result.Ok? && result.value.content == r.content && result.value.model == r.model
    ensures result.value.stopReason == r.stopReason <==> r.stopReason in {"stop", "length", "tool_use"}
    ensures r.usage == StreamUsage.UsageIn(from, frames)
    ensures result.value.usage == r.usage <==> SurvivesAnthropic(from, frames)
    ensures !from.Anthropic? ==>
              var output := if r.usage.Some? then r.usage.value.output else 0;
              result.value.usage == Some(Usage(0, output, output, 0, 0, 0))
  {
    hide Run, Complete, Translate, Translates, Outcome, StreamOrder.WellOrdered, StreamUsage.UsageIn,
         StreamUsage.StartTold, Events;
    var ds, last := OrderedIsComplete(from, Anthropic, frames, env, out, r);
    AnthropicRoundTrip.TranslationKeeps(from, ds, last, env, result);
    if from.Anthropic? {
      AnthropicRoundTrip.AnthropicUsageSurvives(ds, last, env, result);
    } else {
      AnthropicRoundTrip.OpenAIUsageSurvives(from, ds, last, env, result);
    }
  }

  /**
   * A stream in order translated for a Responses reader: everything but reasoning arrives, the calls
   * exactly as they were if every call comes with an id; and of the usage the frames tell everything but
   * the tokens written to the cache.
   */
  lemma {:induction false} ToResponses(from: Protocol, frames: seq<Event>, env: Env, out: seq<Event>, r: Response,
                                       result: Result<Response, Failure>)
    requires StreamOrder.WellOrdered(from, frames, env.text) && Translates(from, OpenAIResponses, frames, env, out, r)
             && Outcome(OpenAIResponses, out, env.text, result)
    ensures result.Ok? && result.value.model == r.model
    ensures |result.value.content| == |ResponsesRoundTrip.WithoutReasoning(r.content)|
    ensures result.value.content == ResponsesRoundTrip.WithoutReasoning(r.content)
            <==> CallIDs.CallsHaveIDs(from, frames)
    ensures result.value.stopReason == r.stopReason <==>
            ResponsesRoundTrip.StopSurvives(r.stopReason, ResponsesRoundTrip.HasCall(r.content))
    ensures r.usage == StreamUsage.UsageIn(from, frames)
            && result.value.usage == ResponsesRoundTrip.SurvivingUsage(r.usage)
  {
    hide Run, Complete, Translates, Outcome, StreamOrder.WellOrdered, StreamUsage.UsageIn, Events, EncodeAll, ApplyAll,
         Finish, CallIDs.CallsHaveIDs, ResponsesRoundTrip.CallsHaveIDs;
    var ds, last := OrderedIsComplete(from, OpenAIResponses, frames, env, out, r);
    ResponsesRoundTrip.TranslationKeeps(from, ds, last, env, result);
    StreamUsage.ReturnedUsageIsTold(from, OpenAIResponses, ds, last, env);
    EncoderCollects(OpenAIResponses, FRESH, StreamEvents(from, ds, last, env.text), env);
    CallIDs.CollectedCallsHaveIDs(from, ds, last, env.text);
  }

  /**
   * A stream in order translated for a chat reader: the calls arrive, in whatever order blocks are closed,
   * and from a chat stream the text and the reasoning; and of the usage the frames tell input, output and
   * total tokens.
   */
  lemma {:induction false} ToChat(from: Protocol, frames: seq<Event>, env: Env, out: seq<Event>, r: Response,
                                  result: Result<Response, Failure>)
    requires StreamOrder.WellOrdered(from, frames, env.text) && Translates(from, OpenAIChat, frames, env, out, r)
             && Outcome(OpenAIChat, out, env.text, result)
    ensures result.Ok? && result.value.model == r.model
    ensures ChatRoundTrip.Calls(result.value.content) == ChatRoundTrip.Calls(r.content)
    ensures from.OpenAIChat? ==>
              && ChatRoundTrip.JoinedText(result.value.content) == ChatRoundTrip.JoinedText(r.content)
              && ChatRoundTrip.JoinedReasoning(result.value.content) == ChatRoundTrip.JoinedReasoning(r.content)
    ensures result.value.stopReason == r.stopReason
            <==> r.stopReason in {"stop", "length", "tool_use", "content_filter"}
    ensures r.usage == StreamUsage.UsageIn(from, frames)
            && result.value.usage == ChatRoundTrip.SurvivingUsage(r.usage)
  {
    hide Run, Complete, Translate, Translates, Outcome, StreamOrder.WellOrdered, StreamUsage.UsageIn, Events;
    var ds, last := OrderedIsComplete(from, OpenAIChat, frames, env, out, r);
    if from.OpenAIChat? {
      ChatComesOneAtATime(ds, last, env.text);
    }
    ChatRoundTrip.TranslationKeeps(from, ds, last, env, result);
    StreamUsage.ReturnedUsageIsTold(from, OpenAIChat, ds, last, env);
  }

  /**
   * Two translations, the first for Anthropic: whatever the outer protocols, the second one meets a stream
   * in order, writes a stream in order, and returns the content and the model the first one returned.
   */
  lemma {:induction false} ThroughAnthropic(from: Protocol, to: Protocol, frames: seq<Event>, env: Env,
                                            middle: seq<Event>, out: seq<Event>, first: Response, second: Response)
    requires StreamOrder.WellOrdered(from, frames, env.text)
    requires Translates(from, Anthropic, frames, env, middle, first)
             && Translates(Anthropic, to, middle, env, out, second)
    ensures StreamOrder.WellOrdered(Anthropic, middle, env.text) && StreamOrder.WellOrdered(to, out, env.text)
    ensures second.content == first.content && second.model == first.model
  {
    hide StreamOrder.WellOrdered, Translates, Collects, SurvivesAnthropic, StreamUsage.UsageIn;
    StreamOrder.TranslationsCompose(from, Anthropic, frames, env, middle, first);
    StreamOrder.TranslationsCompose(Anthropic, to, middle, env, out, second);
    TranslateAgreesWithCollect(Anthropic, to, middle, env, second);
    assert Outcome(Anthropic, middle, env.text, Ok(second));
    ToAnthropic(from, frames, env, middle, first, Ok(second));
  }

  // ---- A stream whose usage does not survive ----------------------------------------------

  // A chunk with no choices that counts one input token.
  const COUNTED := Event("", Tree(Obj(map["usage" := Obj(map["prompt_tokens" := Num(1)])])))

  const COUNTED_STREAM := [COUNTED, ChatBracketing.END]

  lemma {:induction false} CountedTells()
    ensures ChatBracketing.IsChunk(COUNTED)
    ensures StreamUsage.ChatFrameUsage(COUNTED) == Some(Usage(1, 0, 0, 0, 0, 0))
    ensures Get(Unmarshal(COUNTED.data).value, "choices") == Null
  {
    var value := Unmarshal(COUNTED.data).value;
    assert Get(value, "usage") == Obj(map["prompt_tokens" := Num(1)]);
  }

  lemma {:induction false} CountedIsTidy()
    ensures forall text :: StreamOrder.WellOrdered(OpenAIChat, COUNTED_STREAM, text)
    ensures StreamUsage.UsageIn(OpenAIChat, COUNTED_STREAM) == Some(Usage(1, 0, 0, 0, 0, 0))
  {
    hide ChatBracketing.SilentChunk, ChatBracketing.IsChunk, ChatBracketing.Opened, ChatBracketing.HasDone,
         ChatBracketing.BeforeDone, ChatBracketing.Fragments, ChatBracketing.SilentAfterDone,
         ChatBracketing.OneKindPerKey, StreamUsage.ChatUsage, StreamUsage.ChatFrameUsage, COUNTED;
    CountedTells();
    ChatBracketing.NotAChunk(COUNTED);
    ChatBracketing.NotAChunk(ChatBracketing.END);
    ChatBracketing.NothingOpened();
    ChatBracketing.DoneOneMore([], COUNTED);
    ChatBracketing.DoneOneMore([COUNTED], ChatBracketing.END);
    ChatBracketing.SilentOneMore([], COUNTED);
    ChatBracketing.SilentOneMore([COUNTED], ChatBracketing.END);
    ChatBracketing.FragmentsOneMore([], COUNTED);
    StreamUsage.ChatUsageOneMore([], COUNTED);
    NothingFragmented();
    assert [] + [COUNTED] == [COUNTED] && [COUNTED] + [ChatBracketing.END] == COUNTED_STREAM;
  }

  lemma {:induction false} NothingFragmented()
    ensures ChatBracketing.OneKindPerKey([]) && ChatBracketing.SilentAfterDone([])
    ensures ChatBracketing.ChunkFragments(Unmarshal(COUNTED.data).value) == []
  {
    CountedTells();
  }

  /**
   * One chunk that counts an input token, then [DONE]: the token is in the response returned, and no reader
   * gets it.
   */
  lemma {:induction false} InputTokensAreLost(env: Env) returns (out: seq<Event>, r: Response)
    ensures Translates(OpenAIChat, Anthropic, COUNTED_STREAM, env, out, r)
    ensures r.usage == Some(Usage(1, 0, 0, 0, 0, 0))
    ensures forall result :: Outcome(Anthropic, out, env.text, result) ==>
              result.Ok? && result.value.usage == Some(Usage(0, 0, 0, 0, 0, 0))
  {
    hide Run, Outcome, StreamOrder.WellOrdered, StreamUsage.UsageIn, Events, COUNTED, ChatBracketing.IsChunk, WalksFit,
         EncodeAll;
    CountedTells();
    CountedIsTidy();
    var ds, last := ChatBracketing.SomeWalksFit(COUNTED_STREAM, env.text);
    var t := Translate(OpenAIChat, Anthropic, ds, last, env);
    out, r := t.value.0, t.value.1;
    assert Translates(OpenAIChat, Anthropic, COUNTED_STREAM, env, out, r);
    hide Translates;
    forall result | Outcome(Anthropic, out, env.text, result)
      ensures result.Ok? && result.value.usage == Some(Usage(0, 0, 0, 0, 0, 0))
    {
      ToAnthropic(OpenAIChat, COUNTED_STREAM, env, out, r, result);
    }
    StreamUsage.TranslatedUsageIsTold(OpenAIChat, Anthropic, COUNTED_STREAM, env, out, r);
  }
}
