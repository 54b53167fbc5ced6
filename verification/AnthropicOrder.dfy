/** Exactly which Anthropic streams are decoded into complete runs, told on their frames (proxy/codec/stream.go). */
module AnthropicOrder {
  import opened AnthropicStream
  import opened Canonical
  import opened Json
  import opened OrderlyRuns
  import opened StreamTypes
  import opened Walks
  import opened Wrappers
  import Streams

  /** What a frame does to the stream. A piece is a delta with text, thinking or arguments. */
  datatype Mark =
    | Opening
    | Begins(index: int, kind: ContentType)
    | Piece(index: int, kind: ContentType)
    | Stops(index: int)
    | Closing
    | Nothing

  function StartMark(index: int, block: Json): Mark {
    match Get(block, "type")
    case Str("text") => Begins(index, TextType)
    case Str("tool_use") => Begins(index, ToolCallType)
    case Str("thinking") => Begins(index, ReasoningType)
    case _ => Nothing
  }

  function PieceMark(index: int, delta: Json): Mark {
    match Get(delta, "type")
    case Str("text_delta") => Piece(index, TextType)
    case Str("input_json_delta") => Piece(index, ToolCallType)
    case Str("thinking_delta") => Piece(index, ReasoningType)
    case _ => Nothing
  }

  function MarkOf(frame: Event): Mark {
    var parsed := Unmarshal(frame.data);
    if parsed.None? then Nothing
    else
      var value := parsed.value;
      match TypeName(frame, value)
      case "message_start" => Opening
      case "content_block_start" => StartMark(IntOr(Get(value, "index")), Get(value, "content_block"))
      case "content_block_delta" => PieceMark(IntOr(Get(value, "index")), Get(value, "delta"))
      case "content_block_stop" => Stops(IntOr(Get(value, "index")))
      case "message_stop" => Closing
      case _ => Nothing
  }

  // Blocks begin once, under indexes that are not negative; text and thinking may begin with their first
  // piece; pieces are of their block's kind; nothing but frames without effect follows message_stop.
  predicate Fits(t: Ledger, m: Mark) {
    match m
    case Nothing => true
    case Opening => !t.ended && !t.begun && t.started == {}
    case Begins(index, _) => !t.ended && 0 <= index && index !in t.started
    case Piece(index, kind) =>
      !t.ended &&
      (if index in t.open then t.open[index] == kind
       else !kind.ToolCallType? && 0 <= index && index !in t.started)
    case Stops(index) => !t.ended && (index in t.open || index !in t.started)
    case Closing => !t.ended
  }

  function Noting(t: Ledger, m: Mark): Ledger {
    match m
    case Nothing => t
    case Opening => t.(begun := true)
    case Begins(index, kind) => t.(started := t.started + {index}, open := t.open[index := kind])
    case Piece(index, kind) =>
      if index in t.open then t else t.(started := t.started + {index}, open := t.open[index := kind])
    case Stops(index) => t.(open := t.open - {index})
    case Closing => t.(open := map[], ended := true)
  }

  function Marked(frames: seq<Event>): Ledger {
    if frames == [] then BLANK else Noting(Marked(frames[..|frames| - 1]), MarkOf(frames[|frames| - 1]))
  }

  predicate InOrder(frames: seq<Event>) {
    frames == [] || (InOrder(frames[..|frames| - 1])
                     && Fits(Marked(frames[..|frames| - 1]), MarkOf(frames[|frames| - 1])))
  }

  // In order, and ended by message_stop unless every block was stopped.
  predicate WellOrdered(frames: seq<Event>) {
    InOrder(frames) && (Marked(frames).ended || Marked(frames).open == map[])
  }

  lemma {:induction false} MarkedOneMore(frames: seq<Event>, e: Event)
    ensures InOrder(frames + [e]) <==> InOrder(frames) && Fits(Marked(frames), MarkOf(e))
    ensures Marked(frames + [e]) == Noting(Marked(frames), MarkOf(e))
  {
    hide Fits, Noting, MarkOf;
    assert (frames + [e])[..|frames|] == frames;
  }

  // ---- Marks and events -------------------------------------------------------------------

  ghost predicate Started(s: State, t: State, es: seq<StreamEvent>, index: int, kind: ContentType) {
    && |es| == 1 && es[0].ContentStart? && es[0].index == index && es[0].content.kind == kind
    && t.open == s.open[index := kind]
  }

  ghost predicate Grown(s: State, t: State, es: seq<StreamEvent>, index: int, kind: ContentType) {
    if index in s.open || kind.ToolCallType? then
      |es| == 1 && es[0].ContentDelta? && es[0].index == index && es[0].content.kind == kind && t.open == s.open
    else
      && |es| == 2 && es[0].ContentStart? && es[0].index == index && es[0].content.kind == kind
      && es[1].ContentDelta? && es[1].index == index && es[1].content.kind == kind
      && t.open == s.open[index := kind]
  }

  // The events a mark stands for.
  ghost predicate Emits(m: Mark, walk: seq<int>, s: State, t: State, es: seq<StreamEvent>) {
    match m
    case Nothing => es == [] && t.open == s.open && t.done == s.done
    case Opening => |es| == 1 && es[0].Start? && t.open == s.open && t.done == s.done
    case Begins(index, kind) => Started(s, t, es, index, kind) && t.done == s.done
    case Piece(index, kind) => Grown(s, t, es, index, kind) && t.done == s.done
    case Stops(index) => es == [ContentStop(index)] && t.open == s.open - {index} && t.done == s.done
    case Closing =>
      && |es| == |walk| + 1 && es[..|walk|] == StopEvents(walk) && es[|walk|].Done?
      && t.open == map[] && t.done
  }

  lemma {:induction false} BlockStartEmits(s: State, index: int, block: Json, walk: seq<int>)
    ensures var step := BlockStart(s, index, block);
            step.Decoded? ==> Emits(StartMark(index, block), walk, s, step.state, step.events)
  {
    hide Get, StringOr;
  }

  lemma {:induction false} BlockDeltaEmits(s: State, index: int, delta: Json, walk: seq<int>)
    ensures var step := BlockDelta(s, index, delta);
            step.Decoded? && Emits(PieceMark(index, delta), walk, s, step.state, step.events)
  {
    hide Get, StringOr;
  }

  lemma {:induction false} CloseEmits(s: State, t: State, walk: seq<int>, done: StreamEvent)
    requires done.Done? && t.open == map[] && t.done
    ensures Emits(Closing, walk, s, t, StopEvents(walk) + [done])
  {
    var stops := StopEvents(walk);
    assert (stops + [done])[..|stops|] == stops;
  }

  lemma {:induction false} PlainEmits(s: State, t: State, walk: seq<int>, e: StreamEvent)
    ensures t.done == s.done && t.open == s.open ==> Emits(Nothing, walk, s, t, [])
    ensures t.done == s.done && e.Start? && t.open == s.open ==> Emits(Opening, walk, s, t, [e])
    ensures t.done == s.done && e.ContentStop? && t.open == s.open - {e.index} ==>
            Emits(Stops(e.index), walk, s, t, [e])
  {
  }

  lemma {:induction false} DecodingEmits(s: State, d: Delivery)
    ensures var step := Decode(s, d);
            step.Decoded? ==> Emits(MarkOf(d.event), d.walk, s, step.state, step.events)
  {
    hide Get, StringOr, IntOr, StopReasons.DecodeAnthropicUsage, BlockStart, BlockDelta, TypeName, StartMark, PieceMark,
         StopReasons.AnthropicStopReason, Emits, StopEvents;
    var step, parsed := Decode(s, d), Unmarshal(d.event.data);
    if step.Decoded? {
      var index := IntOr(Get(parsed.value, "index"));
      PlainEmits(s, step.state, d.walk, ContentStop(index));
      match TypeName(d.event, parsed.value)
      case "message_start" => PlainEmits(s, step.state, d.walk, step.events[0]);
      case "content_block_start" => BlockStartEmits(s, index, Get(parsed.value, "content_block"), d.walk);
      case "content_block_delta" => BlockDeltaEmits(s, index, Get(parsed.value, "delta"), d.walk);
      case "message_stop" => CloseEmits(s, step.state, d.walk, Done(s.stopReason, s.usage));
      case _ =>
    }
  }

  lemma {:induction false} StopsAreOrderly(es: seq<StreamEvent>, walk: seq<int>, open: map<int, ContentType>)
    requires Orderly(es) && !Noted(es).ended && open == Noted(es).open
    requires (forall i, j :: 0 <= i < j < |walk| ==> walk[i] != walk[j]) && (forall k :: k in walk ==> k in open)
    ensures Orderly(es + StopEvents(walk))
    ensures Noted(es + StopEvents(walk)) == Noted(es).(open := open - (set k | k in walk))
  {
    hide Orderly, Noted;
    if walk == [] {
      assert es + StopEvents(walk) == es;
      assert open - (set k | k in walk) == open;
    } else {
      var n := |walk| - 1;
      assert walk[n] in walk && forall k :: k in walk[..n] ==> k in walk;
      StopsAreOrderly(es, walk[..n], open);
      assert StopEvents(walk) == StopEvents(walk[..n]) + [ContentStop(walk[n])];
      assert es + StopEvents(walk) == es + StopEvents(walk[..n]) + [ContentStop(walk[n])];
      OrderlyOneMore(es + StopEvents(walk[..n]), ContentStop(walk[n]));
      assert walk[n] !in walk[..n];
      assert (set k | k in walk) == (set k | k in walk[..n]) + {walk[n]};
      assert open - (set k | k in walk[..n]) - {walk[n]} == open - (set k | k in walk);
    }
  }

  lemma {:induction false} ClosingIsOrderly(es: seq<StreamEvent>, walk: seq<int>, done: StreamEvent)
    requires Orderly(es) && done.Done? && (!Noted(es).ended ==> Enumerates(walk, Noted(es).open.Keys))
    requires Noted(es).ended ==> walk == []
    ensures Orderly(es + StopEvents(walk) + [done]) <==> !Noted(es).ended
    ensures !Noted(es).ended ==> Noted(es + StopEvents(walk) + [done]) == Noted(es).(open := map[], ended := true)
  {
    hide Orderly, Noted;
    var t, stops := Noted(es), es + StopEvents(walk);
    OrderlyOneMore(stops, done);
    if t.ended {
      assert stops == es;
    } else {
      StopsAreOrderly(es, walk, t.open);
      assert forall k :: k in walk <==> k in t.open.Keys;
      assert (set k | k in walk) == t.open.Keys;
      assert t.open - t.open.Keys == map[];
    }
  }

  // ---- Runs -------------------------------------------------------------------------------

  // The events are in order exactly when the frames are, and then both tell the same.
  ghost predicate Matches(s: State, es: seq<StreamEvent>, frames: seq<Event>) {
    if InOrder(frames) then
      && Orderly(es) && Noted(es) == Marked(frames) && s.open == Marked(frames).open
      && s.done == Marked(frames).ended && (s.done ==> s.open == map[])
    else !Orderly(es)
  }

  lemma {:induction false} StepMatches(s: State, es: seq<StreamEvent>, frames: seq<Event>, d: Delivery)
    requires Matches(s, es, frames) && Enumerates(d.walk, s.open.Keys) && Decode(s, d).Decoded?
    ensures Matches(Decode(s, d).state, es + Decode(s, d).events, frames + [d.event])
  {
    hide Decode, InOrder, Marked, Orderly, Noted, MarkOf;
    var step := Decode(s, d);
    DecodingEmits(s, d);
    MarkedOneMore(frames, d.event);
    OrderlyPrefix(es, step.events);
    if InOrder(frames) {
      hide Enumerates, StopEvents;
      match MarkOf(d.event)
      case Nothing =>
        assert es + [] == es;
      case Closing =>
        CloseMatches(s, es, frames, d, step.events);
      case Piece(index, kind) =>
        if |step.events| == 1 {
          assert step.events == [step.events[0]];
          OrderlyOneMore(es, step.events[0]);
        } else {
          assert es + step.events == es + [step.events[0]] + [step.events[1]];
          OrderlyOneMore(es, step.events[0]);
          OrderlyOneMore(es + [step.events[0]], step.events[1]);
        }
      case _ =>
        assert step.events == [step.events[0]];
        OrderlyOneMore(es, step.events[0]);
    }
  }

  lemma {:induction false} CloseMatches(s: State, es: seq<StreamEvent>, frames: seq<Event>, d: Delivery,
                                        events: seq<StreamEvent>)
    requires Matches(s, es, frames) && InOrder(frames) && Enumerates(d.walk, s.open.Keys)
    requires |events| == |d.walk| + 1 && events[..|d.walk|] == StopEvents(d.walk) && events[|d.walk|].Done?
    ensures Orderly(es + events) <==> !Noted(es).ended
    ensures !Noted(es).ended ==> Noted(es + events) == Noted(es).(open := map[], ended := true)
  {
    hide InOrder, Marked, Orderly, Noted, StopEvents;
    if s.done {
      EmptyWalk(d.walk);
    }
    ClosingIsOrderly(es, d.walk, events[|d.walk|]);
    assert events == events[..|d.walk|] + [events[|d.walk|]];
    assert es + events == es + StopEvents(d.walk) + [events[|d.walk|]];
  }

  lemma {:induction false} RunMatches(ds: seq<Delivery>, text: JsonText)
    requires Streams.WalksFit(Streams.Initial(Anthropic), ds, text)
    ensures var run := Streams.Run(Streams.Initial(Anthropic), ds, text);
            run.Decoded? ==> run.state.AnthropicDecoder? && Matches(run.state.anthropic, run.events, Events(ds))
  {
    hide Decode, Matches;
    if ds == [] {
      assert Events(ds) == [];
      assert Matches(INITIAL, [], []) by { NothingMatches(); }
    } else {
      var n := |ds| - 1;
      RunMatches(ds[..n], text);
      var before := Streams.Run(Streams.Initial(Anthropic), ds[..n], text);
      assert Events(ds) == Events(ds[..n]) + [ds[n].event];
      if before.Decoded? && Decode(before.state.anthropic, ds[n]).Decoded? {
        StepMatches(before.state.anthropic, before.events, Events(ds[..n]), ds[n]);
      }
    }
  }

  lemma {:induction false} NothingMatches()
    ensures Matches(INITIAL, [], [])
  {
  }

  /** An Anthropic stream the decoder accepts makes a complete run exactly when its frames are well ordered. */
  lemma {:induction false} OrderIsExact(ds: seq<Delivery>, last: seq<int>, text: JsonText)
    requires Streams.FitsFrames(Anthropic, Events(ds), text, ds, last)
    ensures Complete(StreamEvents(Anthropic, ds, last, text)) <==> WellOrdered(Events(ds))
  {
    hide Streams.Run, Streams.WalksFit, Events, Orderly, Noted, InOrder, Marked;
    var run := Streams.Run(Streams.Initial(Anthropic), ds, text);
    RunMatches(ds, text);
    var s := run.state.anthropic;
    if s.done {
      assert run.events + [] == run.events;
    } else {
      OrderlyOneMore(run.events, Done("stop", s.usage));
    }
  }
}
