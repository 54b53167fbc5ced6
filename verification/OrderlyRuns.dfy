/**
 * The event runs a translation keeps: those a decoder emits, whose blocks open once, grow in their own
 * kind and are all closed when the run is done.
 */
module OrderlyRuns {
  import opened Canonical
  import opened Collector
  import opened Json
  import opened RoundTrips
  import opened StopReasons
  import opened StreamTypes
  import opened Streams
  import opened Wrappers
  import AnthropicStream
  import Bracketing
  import ChatStream
  import ResponsesStream

  // ---- What decoders emit -----------------------------------------------------------------

  predicate IsOpening(c: Content) {
    || c == TextContent("")
    || c == ReasoningContent("")
    || c == ToolCallContent(c.id, c.name, EMPTY_OBJECT)
  }

  predicate IsGrowth(c: Content, argumentsDelta: string) {
    || (c == TextContent(c.text) && argumentsDelta == "")
    || (c == ReasoningContent(c.text) && argumentsDelta == "")
    || c == ToolCallContent("", "", Null)
  }

  predicate IsPlainEvent(e: StreamEvent) {
    match e
    case ContentStart(_, content) => IsOpening(content)
    case ContentDelta(_, content, argumentsDelta) => IsGrowth(content, argumentsDelta)
    case _ => true
  }

  predicate AllPlain(es: seq<StreamEvent>) {
    forall e :: e in es ==> IsPlainEvent(e)
  }

  // The decoders of the two OpenAI protocols know no usage when a stream starts.
  predicate IsBare(e: StreamEvent) {
    e.Start? ==> e.usage == None
  }

  predicate AllBare(es: seq<StreamEvent>) {
    forall e :: e in es ==> IsBare(e)
  }

  lemma {:induction false} PlainConcat(a: seq<StreamEvent>, b: seq<StreamEvent>)
    ensures AllPlain(a + b) <==> AllPlain(a) && AllPlain(b)
    ensures AllBare(a + b) <==> AllBare(a) && AllBare(b)
  {
    hide IsPlainEvent, IsBare;
    assert forall e :: e in a + b <==> e in a || e in b;
  }

  lemma {:induction false} AnthropicIsPlain(s: AnthropicStream.State, d: Delivery)
    ensures var step := AnthropicStream.Decode(s, d); step.Decoded? ==> AllPlain(step.events)
  {
    hide StringOr, IntOr, Get;
  }

  lemma {:induction false} ResponsesIsPlain(s: ResponsesStream.State, d: Delivery, text: JsonText)
    ensures var step := ResponsesStream.Decode(s, d, text);
            step.Decoded? ==> AllPlain(step.events) && AllBare(step.events)
  {
    hide StringOr, IntOr, Get, ResponsesStream.Allocate, ResponsesStream.Capture, ResponsesStream.ItemKey,
         ResponsesStream.ContentKey, ResponsesStream.KindOf;
  }

  lemma {:induction false} TextPartIsPlain(s: ChatStream.State, t: string)
    ensures AllPlain(ChatStream.TextPart(s, t).events) && AllBare(ChatStream.TextPart(s, t).events)
  {
  }

  lemma {:induction false} ReasoningPartIsPlain(s: ChatStream.State, t: string)
    ensures AllPlain(ChatStream.ReasoningPart(s, t).events) && AllBare(ChatStream.ReasoningPart(s, t).events)
  {
  }

  lemma {:induction false} ToolPartsArePlain(s: ChatStream.State, calls: seq<Json>)
    ensures AllPlain(ChatStream.ToolParts(s, calls).events) && AllBare(ChatStream.ToolParts(s, calls).events)
  {
    hide StringOr, IntOr, Get;
    if calls != [] {
      ToolPartsArePlain(s, calls[..|calls| - 1]);
    }
  }

  lemma {:induction false} ChoicesArePlain(s: ChatStream.State, choices: seq<Json>)
    ensures AllPlain(ChatStream.Choices(s, choices).events) && AllBare(ChatStream.Choices(s, choices).events)
  {
    hide AllPlain, AllBare, ChatStream.TextPart, ChatStream.ReasoningPart, ChatStream.ToolParts, StringOr, Get;
    if choices == [] {
      NothingIsPlain();
    } else {
      var n := |choices| - 1;
      ChoicesArePlain(s, choices[..n]);
      var before, delta := ChatStream.Choices(s, choices[..n]), Get(choices[n], "delta");
      var a := ChatStream.TextPart(before.state, StringOr(Get(delta, "content")));
      TextPartIsPlain(before.state, StringOr(Get(delta, "content")));
      var b := ChatStream.ReasoningPart(a.state, StringOr(Get(delta, "reasoning_content")));
      ReasoningPartIsPlain(a.state, StringOr(Get(delta, "reasoning_content")));
      var calls := ChatStream.Items(Get(delta, "tool_calls"));
      ToolPartsArePlain(b.state, calls);
      var c := ChatStream.ToolParts(b.state, calls);
      PlainConcat(a.events, b.events);
      PlainConcat(a.events + b.events, c.events);
      PlainConcat(before.events, a.events + b.events + c.events);
    }
  }

  lemma {:induction false} NothingIsPlain()
    ensures AllPlain([]) && AllBare([])
  {
  }

  lemma {:induction false} ClosingIsPlain(s: ChatStream.State, walk: seq<int>)
    ensures AllPlain(ChatStream.CloseKeyed(s, walk).events) && AllBare(ChatStream.CloseKeyed(s, walk).events)
  {
    if walk != [] {
      ClosingIsPlain(s, walk[..|walk| - 1]);
    }
  }

  lemma {:induction false} EndingIsPlain(s: ChatStream.State, t: ChatStream.State, walk: seq<int>)
    ensures AllPlain(ChatStream.CloseBlocks(s, walk).events + [ChatStream.Ending(t)])
            && AllBare(ChatStream.CloseBlocks(s, walk).events + [ChatStream.Ending(t)])
  {
    hide ChatStream.CloseKeyed;
    ClosingIsPlain(s.(textOpen := false), walk);
  }

  lemma {:induction false} ChatIsPlain(s: ChatStream.State, d: Delivery)
    ensures var step := ChatStream.Decode(s, d); step.Decoded? ==> AllPlain(step.events) && AllBare(step.events)
  {
    hide ChatStream.Choices, ChatStream.CloseBlocks, ChatStream.Ending, AllPlain, AllBare, ChatStream.Header;
    NothingIsPlain();
    EndingIsPlain(s.(done := true), s, d.walk);
    var parsed := Unmarshal(d.event.data);
    if parsed.Some? {
      var t, choices := ChatStream.Header(s, parsed.value), ChatStream.Items(Get(parsed.value, "choices"));
      var started := if t.started then [] else [Start(t.id, t.model, None)];
      StartIsPlain(t.id, t.model);
      ChoicesArePlain(t.(started := true), choices);
      PlainConcat(started, ChatStream.Choices(t.(started := true), choices).events);
    }
  }

  lemma {:induction false} StartIsPlain(id: string, model: string)
    ensures AllPlain([Start(id, model, None)]) && AllBare([Start(id, model, None)])
  {
  }

  lemma {:induction false} StepIsPlain(s: DecoderState, d: Delivery, text: JsonText)
    ensures var step := Decode(s, d, text); step.Decoded? ==> AllPlain(step.events)
    ensures var step := Decode(s, d, text);
            !s.AnthropicDecoder? && step.Decoded? ==> !step.state.AnthropicDecoder? && AllBare(step.events)
  {
    hide AllPlain, AllBare, ChatStream.Decode, ResponsesStream.Decode, AnthropicStream.Decode;
    match s
    case ChatDecoder(c) => ChatIsPlain(c, d);
    case ResponsesDecoder(r) => ResponsesIsPlain(r, d, text);
    case AnthropicDecoder(a) => AnthropicIsPlain(a, d);
  }

  lemma {:induction false} FinishIsPlain(s: DecoderState, last: seq<int>)
    ensures AllPlain(Finish(s, last)) && AllBare(Finish(s, last))
  {
    hide ChatStream.CloseBlocks;
    if s.ChatDecoder? {
      EndingIsPlain(s.chat, s.chat, last);
    }
  }

  /** Whatever the frames say, a decoder's events open blocks empty and carry nothing beside their fragments. */
  lemma {:induction false} RunIsPlain(s: DecoderState, ds: seq<Delivery>, text: JsonText)
    ensures var run := Run(s, ds, text); run.Decoded? ==> AllPlain(run.events)
    ensures var run := Run(s, ds, text);
            !s.AnthropicDecoder? && run.Decoded? ==> !run.state.AnthropicDecoder? && AllBare(run.events)
  {
    hide AllPlain, AllBare, Decode;
    if ds == [] {
      NothingIsPlain();
    } else {
      var n := |ds| - 1;
      RunIsPlain(s, ds[..n], text);
      var before := Run(s, ds[..n], text);
      if before.Decoded? {
        StepIsPlain(before.state, ds[n], text);
        var step := Decode(before.state, ds[n], text);
        if step.Decoded? {
          PlainConcat(before.events, step.events);
        }
      }
    }
  }

  // ---- Orderly runs -----------------------------------------------------------------------

  /** What was started so far, what is open and of which kind. */
  datatype Ledger = Ledger(begun: bool, started: set<int>, open: map<int, ContentType>, ended: bool)

  const BLANK := Ledger(false, {}, map[], false)

  // Gaps between indexes are allowed, and so is stopping a block that never started.
  predicate Allowed(t: Ledger, e: StreamEvent) {
    !t.ended &&
    match e
    case Start(_, _, _) => !t.begun && t.started == {}
    case ContentStart(index, _) => 0 <= index && index !in t.started
    case ContentDelta(index, content, _) => index in t.open && t.open[index] == content.kind
    case ContentStop(index) => index in t.open || index !in t.started
    case Done(_, _) => t.open == map[]
  }

  function Note(t: Ledger, e: StreamEvent): Ledger {
    match e
    case Start(_, _, _) => t.(begun := true)
    case ContentStart(index, content) => t.(started := t.started + {index}, open := t.open[index := content.kind])
    case ContentDelta(_, _, _) => t
    case ContentStop(index) => t.(open := t.open - {index})
    case Done(_, _) => t.(ended := true)
  }

  function Noted(es: seq<StreamEvent>): Ledger {
    if es == [] then BLANK else Note(Noted(es[..|es| - 1]), es[|es| - 1])
  }

  predicate Orderly(es: seq<StreamEvent>) {
    es == [] || (Orderly(es[..|es| - 1]) && Allowed(Noted(es[..|es| - 1]), es[|es| - 1]))
  }

  predicate Complete(es: seq<StreamEvent>) {
    Orderly(es) && Noted(es).ended
  }

  lemma {:induction false} OrderlyOneMore(es: seq<StreamEvent>, e: StreamEvent)
    ensures Orderly(es + [e]) <==> Orderly(es) && Allowed(Noted(es), e)
    ensures Noted(es + [e]) == Note(Noted(es), e)
  {
    assert (es + [e])[..|es|] == es;
  }

  lemma {:induction false} OrderlyPrefix(es: seq<StreamEvent>, more: seq<StreamEvent>)
    ensures Orderly(es + more) ==> Orderly(es)
    decreases |more|
  {
    hide Allowed, Noted;
    if more == [] {
      assert es + more == es;
    } else {
      var n := |more| - 1;
      OrderlyPrefix(es, more[..n]);
      assert (es + more)[..|es| + n] == es + more[..n];
    }
  }

  // Only a started block is open.
  lemma {:induction false} OpenWasStarted(es: seq<StreamEvent>)
    requires Orderly(es)
    ensures Noted(es).open.Keys <= Noted(es).started
  {
    if es != [] {
      OpenWasStarted(es[..|es| - 1]);
    }
  }

  // A complete run ends with done, everything closed before.
  lemma {:induction false} CompleteEnds(es: seq<StreamEvent>)
    requires Complete(es)
    ensures es != []
    ensures var n := |es| - 1;
            && es == es[..n] + [es[n]] && es[n].Done? && Orderly(es[..n])
            && !Noted(es[..n]).ended && Noted(es[..n]).open == map[]
  {
    assert es != [] && es == es[..|es| - 1] + [es[|es| - 1]];
  }

  ghost predicate SameBooks(t: Bracketing.Track, l: Ledger) {
    && l.begun == t.begun && l.open == t.open && l.ended == t.ended
    && 0 <= t.next && (forall i :: i in l.started ==> 0 <= i < t.next) && (t.next == 0 ==> l.started == {})
  }

  /** A bracketed run is orderly. */
  lemma {:induction false} BracketedIsOrderly(es: seq<StreamEvent>)
    requires Bracketing.Bracketed(Bracketing.NOTHING, es)
    ensures Orderly(es) && SameBooks(Bracketing.AdvanceAll(Bracketing.NOTHING, es), Noted(es))
  {
    if es != [] {
      BracketedIsOrderly(es[..|es| - 1]);
    }
  }

  // ---- Usage ------------------------------------------------------------------------------

  // The usage the last start brought.
  function StartUsage(es: seq<StreamEvent>): Option<Usage> {
    if es == [] then None
    else
      var e := es[|es| - 1];
      if e.Start? then e.usage else StartUsage(es[..|es| - 1])
  }

  lemma {:induction false} StartUsageOneMore(es: seq<StreamEvent>, e: StreamEvent)
    ensures StartUsage(es + [e]) == if e.Start? then e.usage else StartUsage(es)
  {
    assert (es + [e])[..|es|] == es;
  }

  lemma {:induction false} BareStart(es: seq<StreamEvent>)
    requires AllBare(es)
    ensures StartUsage(es) == None
  {
    if es != [] {
      assert es[|es| - 1] in es && forall e :: e in es[..|es| - 1] ==> e in es;
      BareStart(es[..|es| - 1]);
    }
  }

  // Before its end an orderly run has collected the usage of its start and no stop reason.
  lemma {:induction false} CollectedUsage(es: seq<StreamEvent>, text: JsonText)
    requires Orderly(es) && !Noted(es).ended
    ensures !Noted(es).begun ==> StartUsage(es) == None
    ensures ApplyAll(EMPTY, es, text).response.usage == StartUsage(es)
  {
    hide Grow, Collector.Closed;
    if es != [] {
      CollectedUsage(es[..|es| - 1], text);
    }
  }

  // ---- What the wire carries of a run -----------------------------------------------------

  // An opening is empty, a delta holds one fragment and nothing else.
  function Image(e: StreamEvent): StreamEvent {
    match e
    case ContentStart(index, c) =>
      ContentStart(index, Portable(c).(text := "", arguments := if c.kind == ToolCallType then EMPTY_OBJECT else Null))
    case ContentDelta(index, c, argumentsDelta) =>
      if c.kind == ToolCallType then ContentDelta(index, ToolCallContent("", "", Null), argumentsDelta)
      else ContentDelta(index, Portable(c), "")
    case _ => e
  }

  function Images(es: seq<StreamEvent>): (r: seq<StreamEvent>)
    ensures |r| == |es|
  {
    seq(|es|, i requires 0 <= i < |es| => Image(es[i]))
  }

  // What a run collects to once the wire has dropped what it does not carry.
  function Whole(es: seq<StreamEvent>, text: JsonText): Collected {
    ApplyAll(EMPTY, Images(es), text)
  }

  lemma {:induction false} PlainImage(e: StreamEvent)
    requires IsPlainEvent(e)
    ensures Image(e) == e
  {
  }

  lemma {:induction false} PlainImages(es: seq<StreamEvent>)
    requires AllPlain(es)
    ensures Images(es) == es
  {
    hide Image, IsPlainEvent;
    forall i | 0 <= i < |es|
      ensures Images(es)[i] == es[i]
    {
      assert es[i] in es;
      PlainImage(es[i]);
    }
  }

  lemma {:induction false} WholeOfPlain(es: seq<StreamEvent>, text: JsonText)
    requires AllPlain(es)
    ensures Whole(es, text) == ApplyAll(EMPTY, es, text)
  {
    hide AllPlain, ApplyAll, Images;
    PlainImages(es);
  }

  lemma {:induction false} ImagesConcat(a: seq<StreamEvent>, b: seq<StreamEvent>)
    ensures Images(a + b) == Images(a) + Images(b)
  {
    hide Image;
  }

  lemma {:induction false} WholeOneMore(es: seq<StreamEvent>, e: StreamEvent, text: JsonText)
    ensures Whole(es + [e], text) == Apply(Whole(es, text), Image(e), text)
  {
    hide Image, Apply;
    ImagesConcat(es, [e]);
    assert Images([e]) == [Image(e)];
    CollectedOneMore(Images(es), Image(e), text);
  }

  lemma {:induction false} CollectedOneMore(es: seq<StreamEvent>, e: StreamEvent, text: JsonText)
    ensures ApplyAll(EMPTY, es + [e], text) == Apply(ApplyAll(EMPTY, es, text), e, text)
  {
    hide Apply;
    assert (es + [e])[..|es|] == es;
  }

  // The kind a block has on the wire.
  function WireKind(kind: ContentType): ContentType {
    match kind
    case ToolCallType => ToolCallType
    case ReasoningType => ReasoningType
    case _ => TextType
  }

  // The second event is about the same block as the first, and of the kind the wire gives it.
  predicate Depicts(e: StreamEvent, f: StreamEvent) {
    match e
    case ContentStart(index, c) => f.ContentStart? && f.index == index && f.content.kind == WireKind(c.kind)
    case ContentDelta(index, c, _) => f.ContentDelta? && f.index == index && f.content.kind == WireKind(c.kind)
    case _ => f == e
  }

  // The collector knows the blocks started, and the open ones by their kinds.
  ghost predicate WireBlocks(z: Collected, t: Ledger) {
    && z.blocks.Keys == t.started && t.open.Keys <= t.started
    && forall i :: i in t.open ==> i in z.blocks && z.blocks[i].content.kind == WireKind(t.open[i])
  }

  lemma {:induction false} ImageDepicts(e: StreamEvent)
    ensures Depicts(e, Image(e))
  {
  }

  lemma {:induction false} WireStep(z: Collected, t: Ledger, e: StreamEvent, f: StreamEvent, text: JsonText)
    requires WireBlocks(z, t) && Allowed(t, e) && Depicts(e, f)
    ensures WireBlocks(Apply(z, f, text), Note(t, e))
  {
    hide Collector.Closed;
    ClosedKeepsKind(z, e, text);
  }

  lemma {:induction false} ClosedKeepsKind(z: Collected, e: StreamEvent, text: JsonText)
    ensures e.ContentStop? && e.index in z.blocks ==>
              Collector.Closed(z.blocks[e.index], text).kind == z.blocks[e.index].content.kind
  {
  }

  // ---- The events of a complete response --------------------------------------------------

  lemma {:induction false} ItemImages(c: Content, index: int, text: JsonText)
    ensures Images(ItemEvents(c, index, text)) == PortableEvents(c, index, text)
  {
  }

  function Below(n: nat): (r: set<int>)
    ensures forall i :: i in r <==> 0 <= i < n
  {
    if n == 0 then {} else Below(n - 1) + {n - 1}
  }

  // The ledger after some items: each was started and closed.
  function AllClosed(n: nat): Ledger {
    Ledger(true, Below(n), map[], false)
  }

  lemma {:induction false} ItemIsOrderly(es: seq<StreamEvent>, c: Content, n: nat, text: JsonText)
    requires Orderly(es) && Noted(es) == AllClosed(n)
    ensures var more := es + ItemEvents(c, n, text); Orderly(more) && Noted(more) == AllClosed(n + 1)
  {
    hide Orderly, Noted;
    var item := ItemEvents(c, n, text);
    OrderlyOneMore(es, item[0]);
    OrderlyOneMore(es + [item[0]], item[1]);
    OrderlyOneMore(es + [item[0]] + [item[1]], item[2]);
    assert es + [item[0]] + [item[1]] + [item[2]] == es + item;
    assert AllClosed(n).started + {n as int} == AllClosed(n + 1).started;
    assert map[(n as int) := c.kind] - {n as int} == map[];
  }

  lemma {:induction false} PrefixIsOrderly(r: Response, n: nat, text: JsonText)
    requires n <= |r.content|
    ensures Orderly(PrefixEvents(r, n, text)) && Noted(PrefixEvents(r, n, text)) == AllClosed(n)
  {
    hide Orderly, Noted, ItemEvents;
    var start := Start(r.id, r.model, r.usage);
    if n == 0 {
      OrderlyOneMore([], start);
      assert [] + [start] == [start] + [] && Orderly([]) && Noted([]) == BLANK by { NothingNoted(); }
      assert AllClosed(0).started == {};
    } else {
      PrefixIsOrderly(r, n - 1, text);
      ItemIsOrderly(PrefixEvents(r, n - 1, text), r.content[n - 1], n - 1, text);
      assert PrefixEvents(r, n, text) == PrefixEvents(r, n - 1, text) + ItemEvents(r.content[n - 1], n - 1, text);
    }
  }

  lemma {:induction false} NothingNoted()
    ensures Orderly([]) && Noted([]) == BLANK
  {
  }

  /** The run WriteResponseStream prints is complete. */
  lemma {:induction false} ResponseIsComplete(r: Response, text: JsonText)
    ensures Complete(ResponseEvents(r, text))
  {
    hide Orderly, Noted, ItemEvents;
    PrefixIsOrderly(r, |r.content|, text);
    OrderlyOneMore(PrefixEvents(r, |r.content|, text), Done(r.stopReason, r.usage));
    assert ResponseEvents(r, text) == PrefixEvents(r, |r.content|, text) + [Done(r.stopReason, r.usage)];
  }

  lemma {:induction false} PrefixCollects(r: Response, n: nat, text: JsonText)
    requires n <= |r.content| && ArgumentsSurvive(r.content, text)
    ensures Whole(PrefixEvents(r, n, text), text).response ==
            Response(r.id, r.model, PortableAll(r.content[..n]), "", r.usage)
  {
    hide Image, ItemEvents, PortableEvents, ApplyAll, Portable;
    var start := Start(r.id, r.model, r.usage);
    if n == 0 {
      assert [start] + [] == [start] && Images([start]) == [start] by { StartImage(start); }
      ApplyOne(EMPTY, start, text);
      assert r.content[..0] == [];
    } else {
      var before, c := PrefixEvents(r, n - 1, text), r.content[n - 1];
      PrefixCollects(r, n - 1, text);
      assert PrefixEvents(r, n, text) == before + ItemEvents(c, n - 1, text);
      ImagesConcat(before, ItemEvents(c, n - 1, text));
      ItemImages(c, n - 1, text);
      ApplyAllConcat(EMPTY, Images(before), PortableEvents(c, n - 1, text), text);
      CollectsItem(Whole(before, text), c, n - 1, text);
      assert r.content[..n] == r.content[..n - 1] + [c];
      assert PortableAll(r.content[..n]) == PortableAll(r.content[..n - 1]) + [Portable(c)];
    }
  }

  lemma {:induction false} StartImage(e: StreamEvent)
    requires e.Start?
    ensures Images([e]) == [e]
  {
  }

  /** What the wire carries of a response's events collects to the response with its items as the wire carries them. */
  lemma {:induction false} ResponseCollects(r: Response, text: JsonText)
    requires ArgumentsSurvive(r.content, text)
    ensures Whole(ResponseEvents(r, text), text).response ==
            r.(content := PortableAll(r.content), stopReason := DefaultStopReason(r.stopReason))
  {
    hide ItemEvents, Images, ApplyAll, Portable, ContentEvents, DefaultStopReason;
    var n, done := |r.content|, Done(r.stopReason, r.usage);
    PrefixCollects(r, n, text);
    assert ResponseEvents(r, text) == PrefixEvents(r, n, text) + [done];
    WholeOneMore(PrefixEvents(r, n, text), done, text);
    assert r.content[..n] == r.content;
  }

  // What the encoder has collected of a response's model, stop reason and usage.
  lemma {:induction false} ResponseEnvelope(r: Response, text: JsonText)
    ensures var seen := ApplyAll(EMPTY, ResponseEvents(r, text), text).response;
            seen.model == r.model && seen.stopReason == DefaultStopReason(r.stopReason) && seen.usage == r.usage
  {
    hide ApplyAll, ContentEvents, DefaultStopReason;
    var start, n, done := Start(r.id, r.model, r.usage), |r.content|, Done(r.stopReason, r.usage);
    ApplyOne(EMPTY, start, text);
    ApplyAllConcat(EMPTY, [start], ContentEvents(r.content, n, text), text);
    ContentKeepsEnvelope(Apply(EMPTY, start, text), r.content, n, text);
    CollectedOneMore([start] + ContentEvents(r.content, n, text), done, text);
  }

  // ---- Frames and deliveries --------------------------------------------------------------

  lemma {:induction false} OneDelivery(ds: seq<Delivery>, frames: seq<Event>)
    requires Events(ds) == frames && |frames| == 1
    ensures |ds| == 1 && ds == [ds[0]] && ds[0].event == frames[0] && frames == [frames[0]]
  {
    assert |Events(ds)| == |ds| && Events(ds)[0] == ds[0].event;
  }

  lemma {:induction false} NothingPrinted(p: Protocol, ds: seq<Delivery>, env: Env)
    requires Events(ds) == EncodeAll(p, FRESH, [], env).out
    ensures EncodeAll(p, FRESH, [], env).out == [] && ds == []
  {
    assert |Events(ds)| == |ds|;
  }

  // ---- Translating a run ------------------------------------------------------------------

  // The events of a whole stream, as the decoder emits them.
  function StreamEvents(from: Protocol, ds: seq<Delivery>, last: seq<int>, text: JsonText): seq<StreamEvent>
    requires Run(Initial(from), ds, text).Decoded?
  {
    var run := Run(Initial(from), ds, text);
    run.events + Finish(run.state, last)
  }

  lemma {:induction false} StreamIsPlain(from: Protocol, ds: seq<Delivery>, last: seq<int>, text: JsonText)
    requires Run(Initial(from), ds, text).Decoded?
    ensures AllPlain(StreamEvents(from, ds, last, text))
    ensures from != Anthropic ==> AllBare(StreamEvents(from, ds, last, text))
  {
    hide AllPlain, AllBare, Run, Finish;
    var run := Run(Initial(from), ds, text);
    RunIsPlain(Initial(from), ds, text);
    FinishIsPlain(run.state, last);
    PlainConcat(run.events, Finish(run.state, last));
  }

  // The usage of the response is that of the end, or of the start when the end has none.
  lemma {:induction false} ReturnedUsage(from: Protocol, to: Protocol, ds: seq<Delivery>, last: seq<int>, env: Env)
    requires Run(Initial(from), ds, env.text).Decoded? && Complete(StreamEvents(from, ds, last, env.text))
    ensures var es := StreamEvents(from, ds, last, env.text);
            && es != [] && es[|es| - 1].Done?
            && Translate(from, to, ds, last, env).value.1.usage ==
               if es[|es| - 1].usage.Some? then es[|es| - 1].usage else StartUsage(es)
  {
    hide Run, EncodeAll, Orderly, Noted, Finish, StartUsage;
    var es := StreamEvents(from, ds, last, env.text);
    CompleteEnds(es);
    var n := |es| - 1;
    EncoderCollects(to, FRESH, es, env);
    CollectedOneMore(es[..n], es[n], env.text);
    CollectedUsage(es[..n], env.text);
    StartUsageOneMore(es[..n], es[n]);
  }

  // What the usages of an Anthropic decoder are against the usage of the start.
  predicate Follows(usage: Option<Usage>, start: Option<Usage>) {
    && (usage.Some? ==> usage.value.total == usage.value.input + usage.value.output && usage.value.reasoning == 0)
    && (start.Some? ==>
          usage.Some? && usage.value.input == start.value.input && usage.value.cached == start.value.cached)
  }

  ghost predicate UsageFollows(s: AnthropicStream.State, fs: seq<StreamEvent>) {
    && Follows(s.usage, StartUsage(fs))
    && (Complete(fs) ==> fs != [] && fs[|fs| - 1].Done? && Follows(fs[|fs| - 1].usage, StartUsage(fs)))
  }

  lemma {:induction false} FollowsMore(s: AnthropicStream.State, t: AnthropicStream.State, fs: seq<StreamEvent>,
                                       more: seq<StreamEvent>)
    requires UsageFollows(s, fs) && Follows(t.usage, StartUsage(fs))
    requires forall e :: e in more ==> !e.Start? && !e.Done?
    ensures UsageFollows(t, fs + more)
    decreases |more|
  {
    hide Orderly, Noted, Follows, StartUsage;
    if more == [] {
      assert fs + more == fs;
    } else {
      var n := |more| - 1;
      assert more[n] in more && forall e :: e in more[..n] ==> e in more;
      FollowsMore(s, t, fs, more[..n]);
      assert fs + more == fs + more[..n] + [more[n]];
      StartUsageOneMore(fs + more[..n], more[n]);
      NotComplete(fs + more[..n], more[n]);
    }
  }

  lemma {:induction false} NotComplete(fs: seq<StreamEvent>, e: StreamEvent)
    requires !e.Done?
    ensures !Complete(fs + [e])
  {
    OrderlyOneMore(fs, e);
  }

  lemma {:induction false} EndFollows(t: AnthropicStream.State, fs: seq<StreamEvent>, e: StreamEvent)
    requires e.Done? && Follows(e.usage, StartUsage(fs)) && Follows(t.usage, StartUsage(fs))
    ensures UsageFollows(t, fs + [e])
  {
    hide Orderly, Noted, Follows, StartUsage;
    StartUsageOneMore(fs, e);
  }

  lemma {:induction false} StepFollows(s: AnthropicStream.State, fs: seq<StreamEvent>, d: Delivery)
    requires UsageFollows(s, fs)
    ensures var step := AnthropicStream.Decode(s, d); step.Decoded? ==> UsageFollows(step.state, fs + step.events)
  {
    hide UsageFollows, StartUsage, AnthropicStream.BlockStart, AnthropicStream.BlockDelta, AnthropicStopReason,
         DecodeAnthropicUsage;
    var parsed, step := Unmarshal(d.event.data), AnthropicStream.Decode(s, d);
    if parsed.Some? && step.Decoded? {
      KeepsFollowing(s, fs);
      match TypeName(d.event, parsed.value)
      case "message_start" =>
        var e := step.events[0];
        StartUsageOneMore(fs, e);
        NotComplete(fs, e);
        StartFollows(step.state, fs + [e], Get(Get(parsed.value, "message"), "usage"));
      case "content_block_start" =>
        BlockEvents(s, IntOr(Get(parsed.value, "index")), Get(parsed.value, "content_block"));
        FollowsMore(s, step.state, fs, step.events);
      case "content_block_delta" =>
        BlockEvents(s, IntOr(Get(parsed.value, "index")), Get(parsed.value, "delta"));
        FollowsMore(s, step.state, fs, step.events);
      case "message_delta" =>
        DeltaFollows(s.usage, StartUsage(fs), Get(parsed.value, "usage"));
        FollowsMore(s, step.state, fs, []);
      case "message_stop" =>
        var stops := AnthropicStream.StopEvents(d.walk);
        FollowsMore(s, s, fs, stops);
        KeepsFollowing(s, fs + stops);
        EndFollows(step.state, fs + stops, Done(s.stopReason, s.usage));
        assert fs + step.events == fs + stops + [Done(s.stopReason, s.usage)];
      case _ =>
        FollowsMore(s, step.state, fs, step.events);
    }
  }

  lemma {:induction false} KeepsFollowing(s: AnthropicStream.State, fs: seq<StreamEvent>)
    requires UsageFollows(s, fs)
    ensures Follows(s.usage, StartUsage(fs))
  {
  }

  lemma {:induction false} StartFollows(t: AnthropicStream.State, fs: seq<StreamEvent>, usage: Json)
    requires StartUsage(fs) == t.usage == DecodeAnthropicUsage(usage) && !Complete(fs)
    ensures UsageFollows(t, fs)
  {
    hide StartUsage;
  }

  lemma {:induction false} DeltaFollows(usage: Option<Usage>, start: Option<Usage>, latest: Json)
    requires Follows(usage, start)
    ensures var d := DecodeAnthropicUsage(latest);
            Follows(if d.Some? then Some(AnthropicStream.MergeUsage(usage, d.value)) else usage, start)
  {
  }

  lemma {:induction false} BlockEvents(s: AnthropicStream.State, index: int, value: Json)
    ensures var step := AnthropicStream.BlockStart(s, index, value);
            step.Decoded? ==> step.state.usage == s.usage && forall e :: e in step.events ==> !e.Start? && !e.Done?
    ensures var step := AnthropicStream.BlockDelta(s, index, value);
            step.Decoded? ==> step.state.usage == s.usage && forall e :: e in step.events ==> !e.Start? && !e.Done?
  {
    hide StringOr, Get;
  }

  lemma {:induction false} RunFollows(ds: seq<Delivery>, text: JsonText)
    ensures var run := Run(Initial(Anthropic), ds, text);
            run.Decoded? ==> run.state.AnthropicDecoder? && UsageFollows(run.state.anthropic, run.events)
  {
    hide UsageFollows, AnthropicStream.Decode;
    if ds == [] {
      assert UsageFollows(AnthropicStream.INITIAL, []) by { NothingFollows(); }
    } else {
      var n := |ds| - 1;
      RunFollows(ds[..n], text);
      var before := Run(Initial(Anthropic), ds[..n], text);
      if before.Decoded? {
        StepFollows(before.state.anthropic, before.events, ds[n]);
      }
    }
  }

  lemma {:induction false} NothingFollows()
    ensures UsageFollows(AnthropicStream.INITIAL, [])
  {
  }

  // The usage of the last event of an Anthropic stream.
  lemma {:induction false} AnthropicDone(ds: seq<Delivery>, last: seq<int>, text: JsonText)
    requires Run(Initial(Anthropic), ds, text).Decoded? && Complete(StreamEvents(Anthropic, ds, last, text))
    ensures var es := StreamEvents(Anthropic, ds, last, text);
            es != [] && es[|es| - 1].Done? && Follows(es[|es| - 1].usage, StartUsage(es))
  {
    hide Run, Orderly, Noted, StartUsage, Follows;
    var es, run := StreamEvents(Anthropic, ds, last, text), Run(Initial(Anthropic), ds, text);
    RunFollows(ds, text);
    var s := run.state.anthropic;
    KeepsFollowing(s, run.events);
    if s.done {
      assert es == run.events;
    } else {
      EndFollows(s, run.events, Done("stop", s.usage));
      assert es == run.events + [Done("stop", s.usage)];
    }
    assert UsageFollows(s, es);
  }

  /** Whatever the source, a decoder that knew a usage at the start knows one at the end. */
  lemma {:induction false} UsageIsTheLast(from: Protocol, to: Protocol, ds: seq<Delivery>, last: seq<int>, env: Env)
    requires Run(Initial(from), ds, env.text).Decoded? && Complete(StreamEvents(from, ds, last, env.text))
    ensures var es := StreamEvents(from, ds, last, env.text);
            es != [] && es[|es| - 1].Done? && Translate(from, to, ds, last, env).value.1.usage == es[|es| - 1].usage
  {
    hide Run, Orderly, Noted, StartUsage, Translate, AllPlain, AllBare;
    ReturnedUsage(from, to, ds, last, env);
    if from == Anthropic {
      AnthropicDone(ds, last, env.text);
    } else {
      StreamIsPlain(from, ds, last, env.text);
      BareStart(StreamEvents(from, ds, last, env.text));
    }
  }
}
