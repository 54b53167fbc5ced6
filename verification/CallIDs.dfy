/** Which calls of a stream come without an id, told on its frames alone (proxy/codec/stream.go). */
module CallIDs {
  import opened Canonical
  import opened Collector
  import opened Json
  import opened OrderlyRuns
  import opened StreamTypes
  import opened Streams
  import opened Wrappers
  import AnthropicStream
  import ChatStream
  import ResponsesRoundTrip
  import ResponsesStream
  import StopReasons

  // ---- Chat: what opens each key ----------------------------------------------------------

  /** A piece of reasoning, or of a call with its id. */
  datatype Piece = Piece(key: int, id: Option<string>)

  function ReasoningPieces(reasoning: string): seq<Piece> {
    if reasoning == "" then [] else [Piece(ChatStream.REASONING_KEY, None)]
  }

  function CallPiece(call: Json): Piece {
    Piece(IntOr(Get(call, "index")), Some(StringOr(Get(call, "id"))))
  }

  function CallPieces(calls: seq<Json>): seq<Piece> {
    if calls == [] then [] else CallPieces(calls[..|calls| - 1]) + [CallPiece(calls[|calls| - 1])]
  }

  function ChoicePieces(choice: Json): seq<Piece> {
    var delta := Get(choice, "delta");
    ReasoningPieces(StringOr(Get(delta, "reasoning_content"))) + CallPieces(ChatStream.Items(Get(delta, "tool_calls")))
  }

  function ChoicesPieces(choices: seq<Json>): seq<Piece> {
    if choices == [] then [] else ChoicesPieces(choices[..|choices| - 1]) + ChoicePieces(choices[|choices| - 1])
  }

  function Pieces(frames: seq<Event>): seq<Piece> {
    if frames == [] then []
    else
      var before, parsed := Pieces(frames[..|frames| - 1]), Unmarshal(frames[|frames| - 1].data);
      if parsed.Some? then before + ChoicesPieces(ChatStream.Items(Get(parsed.value, "choices"))) else before
  }

  predicate Opens(ps: seq<Piece>, i: nat)
    requires i < |ps|
  {
    forall j :: 0 <= j < i ==> ps[j].key != ps[i].key
  }

  // Every call that is the first piece under its key comes with an id.
  predicate OpenersHaveIDs(ps: seq<Piece>) {
    forall i :: 0 <= i < |ps| && Opens(ps, i) ==> ps[i].id != Some("")
  }

  function Keys(ps: seq<Piece>): set<int> {
    set i | 0 <= i < |ps| :: ps[i].key
  }

  lemma {:induction false} OpenersOneMore(ps: seq<Piece>, p: Piece)
    ensures Keys(ps + [p]) == Keys(ps) + {p.key}
    ensures OpenersHaveIDs(ps + [p]) <==> OpenersHaveIDs(ps) && (p.key in Keys(ps) || p.id != Some(""))
  {
    var more := ps + [p];
    assert forall i :: 0 <= i < |ps| ==> more[i] == ps[i];
    assert more[|ps|] == p;
    forall i | 0 <= i < |ps|
      ensures Opens(more, i) <==> Opens(ps, i)
    {
    }
    assert Opens(more, |ps|) <==> p.key !in Keys(ps);
    assert Keys(more) == Keys(ps) + {p.key} by {
      assert more[|ps|].key in Keys(more);
      assert forall i :: 0 <= i < |ps| ==> more[i].key in Keys(more);
    }
  }

  // ---- The chat decoder's events ----------------------------------------------------------

  predicate IsNameless(e: StreamEvent) {
    e.ContentStart? && e.content.kind.ToolCallType? && e.content.id == ""
  }

  ghost predicate CallsAreNamed(es: seq<StreamEvent>) {
    forall e :: e in es ==> !IsNameless(e)
  }

  lemma {:induction false} NamedOneMore(es: seq<StreamEvent>, e: StreamEvent)
    ensures CallsAreNamed(es + [e]) <==> CallsAreNamed(es) && !IsNameless(e)
  {
    hide IsNameless;
    assert forall x :: x in es + [e] <==> x in es || x == e;
  }

  lemma {:induction false} NamedConcat(a: seq<StreamEvent>, b: seq<StreamEvent>)
    ensures CallsAreNamed(a + b) <==> CallsAreNamed(a) && CallsAreNamed(b)
  {
    hide IsNameless;
    assert forall x :: x in a + b <==> x in a || x in b;
  }

  // The keys known are those of the pieces, and calls were started without an id exactly if they opened a key.
  ghost predicate Tracks(s: ChatStream.State, es: seq<StreamEvent>, ps: seq<Piece>) {
    s.toolIndexes.Keys == Keys(ps) && (CallsAreNamed(es) <==> OpenersHaveIDs(ps))
  }

  lemma {:induction false} TextTracks(s: ChatStream.State, es: seq<StreamEvent>, ps: seq<Piece>, t: string)
    requires Tracks(s, es, ps)
    ensures var step := ChatStream.TextPart(s, t); Tracks(step.state, es + step.events, ps)
  {
    var step := ChatStream.TextPart(s, t);
    NamedConcat(es, step.events);
  }

  lemma {:induction false} ReasoningTracks(s: ChatStream.State, es: seq<StreamEvent>, ps: seq<Piece>, t: string)
    requires Tracks(s, es, ps)
    ensures var step := ChatStream.ReasoningPart(s, t); Tracks(step.state, es + step.events, ps + ReasoningPieces(t))
  {
    hide Keys, OpenersHaveIDs;
    var step := ChatStream.ReasoningPart(s, t);
    NamedConcat(es, step.events);
    assert ps + [] == ps;
    OpenersOneMore(ps, Piece(ChatStream.REASONING_KEY, None));
  }

  lemma {:induction false} CallTracks(s: ChatStream.State, es: seq<StreamEvent>, ps: seq<Piece>, call: Json)
    requires Tracks(s, es, ps)
    ensures var step := ChatStream.ToolPart(s, call); Tracks(step.state, es + step.events, ps + [CallPiece(call)])
  {
    hide Keys, OpenersHaveIDs, Get, StringOr, IntOr;
    var step := ChatStream.ToolPart(s, call);
    NamedConcat(es, step.events);
    OpenersOneMore(ps, CallPiece(call));
    CallIsNamed(s, call);
  }

  lemma {:induction false} CallIsNamed(s: ChatStream.State, call: Json)
    ensures CallsAreNamed(ChatStream.ToolPart(s, call).events) <==>
            CallPiece(call).key in s.toolIndexes || CallPiece(call).id != Some("")
  {
    hide Get, StringOr, IntOr;
    var events := ChatStream.ToolPart(s, call).events;
    if CallPiece(call).key !in s.toolIndexes {
      assert events[0] in events && (IsNameless(events[0]) <==> CallPiece(call).id == Some(""));
    }
  }

  lemma {:induction false} CallsTrack(s: ChatStream.State, es: seq<StreamEvent>, ps: seq<Piece>, calls: seq<Json>)
    requires Tracks(s, es, ps)
    ensures var step := ChatStream.ToolParts(s, calls); Tracks(step.state, es + step.events, ps + CallPieces(calls))
  {
    hide Tracks, ChatStream.ToolPart, CallPiece;
    if calls == [] {
      assert es + [] == es && ps + [] == ps;
    } else {
      var n := |calls| - 1;
      CallsTrack(s, es, ps, calls[..n]);
      var before := ChatStream.ToolParts(s, calls[..n]);
      var last := ChatStream.ToolPart(before.state, calls[n]);
      CallTracks(before.state, es + before.events, ps + CallPieces(calls[..n]), calls[n]);
      assert es + (before.events + last.events) == es + before.events + last.events;
      assert ps + (CallPieces(calls[..n]) + [CallPiece(calls[n])]) ==
             ps + CallPieces(calls[..n]) + [CallPiece(calls[n])];
    }
  }

  lemma {:induction false} SameKeysTrack(s: ChatStream.State, t: ChatStream.State, es: seq<StreamEvent>, ps: seq<Piece>)
    requires Tracks(s, es, ps) && t.toolIndexes == s.toolIndexes
    ensures Tracks(t, es, ps)
  {
  }

  lemma {:induction false} ChoiceTracks(s: ChatStream.State, es: seq<StreamEvent>, ps: seq<Piece>, choice: Json)
    requires Tracks(s, es, ps)
    ensures var step := ChatStream.Choice(s, choice); Tracks(step.state, es + step.events, ps + ChoicePieces(choice))
  {
    hide Tracks, ChatStream.TextPart, ChatStream.ReasoningPart, ChatStream.ToolParts, StringOr, Get, ChatStream.Items,
         ReasoningPieces, CallPieces;
    var delta := Get(choice, "delta");
    var said, thought := StringOr(Get(delta, "content")), StringOr(Get(delta, "reasoning_content"));
    var a := ChatStream.TextPart(s, said);
    TextTracks(s, es, ps, said);
    var b := ChatStream.ReasoningPart(a.state, thought);
    ReasoningTracks(a.state, es + a.events, ps, thought);
    var calls := ChatStream.Items(Get(delta, "tool_calls"));
    var c := ChatStream.ToolParts(b.state, calls);
    CallsTrack(b.state, es + a.events + b.events, ps + ReasoningPieces(thought), calls);
    assert es + (a.events + b.events + c.events) == es + a.events + b.events + c.events;
    assert ps + (ReasoningPieces(thought) + CallPieces(calls)) == ps + ReasoningPieces(thought) + CallPieces(calls);
    SameKeysTrack(c.state, ChatStream.Choice(s, choice).state, es + a.events + b.events + c.events,
                  ps + ChoicePieces(choice));
  }

  lemma {:induction false} ChoicesTrack(s: ChatStream.State, es: seq<StreamEvent>, ps: seq<Piece>, choices: seq<Json>)
    requires Tracks(s, es, ps)
    ensures var step := ChatStream.Choices(s, choices);
            Tracks(step.state, es + step.events, ps + ChoicesPieces(choices))
  {
    hide Tracks, ChatStream.Choice, ChoicePieces;
    if choices == [] {
      assert es + [] == es && ps + [] == ps;
    } else {
      var n := |choices| - 1;
      ChoicesTrack(s, es, ps, choices[..n]);
      var before, earlier := ChatStream.Choices(s, choices[..n]), ChoicesPieces(choices[..n]);
      var last := ChatStream.Choice(before.state, choices[n]);
      ChoiceTracks(before.state, es + before.events, ps + earlier, choices[n]);
      assert es + (before.events + last.events) == es + before.events + last.events;
      assert ps + (earlier + ChoicePieces(choices[n])) == ps + earlier + ChoicePieces(choices[n]);
    }
  }

  lemma {:induction false} ChunkTracks(s: ChatStream.State, es: seq<StreamEvent>, ps: seq<Piece>, value: Json)
    requires Tracks(s, es, ps)
    ensures var step := ChatStream.Chunk(s, value);
            Tracks(step.state, es + step.events, ps + ChoicesPieces(ChatStream.Items(Get(value, "choices"))))
  {
    hide ChatStream.Choices, Get, ChoicesPieces, Keys, OpenersHaveIDs;
    var t, choices := ChatStream.Header(s, value), ChatStream.Items(Get(value, "choices"));
    var u, started := t.(started := true), if t.started then [] else [Start(t.id, t.model, None)];
    NamedConcat(es, started);
    SameKeysTrack(s, u, es, ps);
    assert Tracks(u, es + started, ps);
    ChoicesTrack(u, es + started, ps, choices);
    var body := ChatStream.Choices(u, choices);
    assert es + (started + body.events) == es + started + body.events;
  }

  lemma {:induction false} ClosingIsNamed(s: ChatStream.State, walk: seq<int>)
    ensures CallsAreNamed(ChatStream.CloseKeyed(s, walk).events)
    ensures ChatStream.CloseKeyed(s, walk).state.toolIndexes == s.toolIndexes
  {
    if walk != [] {
      ClosingIsNamed(s, walk[..|walk| - 1]);
    }
  }

  lemma {:induction false} EndIsNamed(s: ChatStream.State, t: ChatStream.State, walk: seq<int>)
    ensures CallsAreNamed(ChatStream.CloseBlocks(s, walk).events + [ChatStream.Ending(t)])
    ensures ChatStream.CloseBlocks(s, walk).state.toolIndexes == s.toolIndexes
  {
    hide ChatStream.CloseKeyed;
    ClosingIsNamed(s.(textOpen := false), walk);
  }

  lemma {:induction false} PiecesOneMore(frames: seq<Event>, e: Event)
    ensures Pieces(frames + [e]) ==
            var parsed := Unmarshal(e.data);
            if parsed.Some? then Pieces(frames) + ChoicesPieces(ChatStream.Items(Get(parsed.value, "choices")))
            else Pieces(frames)
  {
    hide ChoicesPieces;
    assert (frames + [e])[..|frames|] == frames;
  }

  lemma {:induction false} StepTracks(s: ChatStream.State, es: seq<StreamEvent>, frames: seq<Event>, d: Delivery)
    requires Tracks(s, es, Pieces(frames))
    ensures var step := ChatStream.Decode(s, d);
            step.Decoded? ==> Tracks(step.state, es + step.events, Pieces(frames + [d.event]))
  {
    hide ChatStream.Chunk, ChatStream.CloseBlocks, ChatStream.Ending, Pieces, Keys, OpenersHaveIDs, ChoicesPieces;
    var step := ChatStream.Decode(s, d);
    PiecesOneMore(frames, d.event);
    if step.Decoded? {
      if d.event.data.DoneMark? {
        EndIsNamed(s.(done := true), s, d.walk);
        NamedConcat(es, step.events);
      } else {
        ChunkTracks(s, es, Pieces(frames), Unmarshal(d.event.data).value);
      }
    }
  }

  lemma {:induction false} RunTracks(ds: seq<Delivery>, text: JsonText)
    ensures var run := Run(Initial(OpenAIChat), ds, text);
            run.Decoded? ==> run.state.ChatDecoder? && Tracks(run.state.chat, run.events, Pieces(Events(ds)))
  {
    hide Tracks, ChatStream.Decode, Pieces;
    if ds == [] {
      assert Events(ds) == [];
      assert Tracks(ChatStream.INITIAL, [], Pieces([])) by { NothingTracked(); }
    } else {
      var n := |ds| - 1;
      RunTracks(ds[..n], text);
      var before := Run(Initial(OpenAIChat), ds[..n], text);
      assert Events(ds) == Events(ds[..n]) + [ds[n].event];
      if before.Decoded? {
        StepTracks(before.state.chat, before.events, Events(ds[..n]), ds[n]);
      }
    }
  }

  lemma {:induction false} NothingTracked()
    ensures Tracks(ChatStream.INITIAL, [], Pieces([]))
  {
    assert Pieces([]) == [] && Keys([]) == {};
  }

  // ---- Anthropic and Responses: frames that start a call ----------------------------------

  predicate StartsNamelessBlock(frame: Event) {
    var parsed := Unmarshal(frame.data);
    parsed.Some? && TypeName(frame, parsed.value) == "content_block_start" &&
    var block := Get(parsed.value, "content_block");
    Get(block, "type") == Str("tool_use") && StringOr(Get(block, "id")) == ""
  }

  // The item's own id stands in for a missing call_id.
  predicate AddsNamelessItem(frame: Event) {
    var parsed := Unmarshal(frame.data);
    parsed.Some? && ResponsesStream.KindOf(TypeName(frame, parsed.value)).ItemAddedFrame? &&
    var item := Get(parsed.value, "item");
    Get(item, "type") == Str("function_call") && StringOr(Get(item, "call_id")) == "" && StringOr(Get(item, "id")) == ""
  }

  predicate Nameless(from: Protocol, frame: Event) {
    match from
    case OpenAIChat => false
    case OpenAIResponses => AddsNamelessItem(frame)
    case Anthropic => StartsNamelessBlock(frame)
  }

  lemma {:induction false} BlocksAreNamed(s: AnthropicStream.State, index: int, block: Json, delta: Json)
    ensures var step := AnthropicStream.BlockStart(s, index, block);
            step.Decoded? ==>
              (CallsAreNamed(step.events) <==> !(Get(block, "type") == Str("tool_use")
                                                 && StringOr(Get(block, "id")) == ""))
    ensures var step := AnthropicStream.BlockDelta(s, index, delta); step.Decoded? && CallsAreNamed(step.events)
  {
    hide Get, StringOr;
    var step := AnthropicStream.BlockStart(s, index, block);
    if step.Decoded? && |step.events| == 1 {
      assert step.events[0] in step.events;
      assert IsNameless(step.events[0]) <==> Get(block, "type") == Str("tool_use") && StringOr(Get(block, "id")) == "";
    }
  }

  lemma {:induction false} AnthropicStepNamed(s: AnthropicStream.State, d: Delivery)
    ensures var step := AnthropicStream.Decode(s, d);
            step.Decoded? ==> (CallsAreNamed(step.events) <==> !StartsNamelessBlock(d.event))
  {
    hide Get, StringOr, IntOr, TypeName, AnthropicStream.BlockStart, AnthropicStream.BlockDelta,
         StopReasons.DecodeAnthropicUsage, StopReasons.AnthropicStopReason;
    var parsed := Unmarshal(d.event.data);
    if parsed.Some? {
      var index := IntOr(Get(parsed.value, "index"));
      BlocksAreNamed(s, index, Get(parsed.value, "content_block"), Get(parsed.value, "delta"));
    }
  }

  lemma {:induction false} ItemIsNamed(s: ResponsesStream.State, value: Json, item: Json)
    ensures var step := ResponsesStream.ItemAdded(s, value, item);
            step.Decoded? &&
            (CallsAreNamed(step.events) <==>
             !(Get(item, "type") == Str("function_call") && StringOr(Get(item, "call_id")) == ""
               && StringOr(Get(item, "id")) == ""))
  {
    hide Get, StringOr, ResponsesStream.ItemKey;
    var events := ResponsesStream.ItemAdded(s, value, item).events;
    if |events| == 1 {
      assert events[0] in events;
    }
  }

  lemma {:induction false} OthersAreNamed(s: ResponsesStream.State, value: Json, key: string, c: Content,
                                          argumentsDelta: string, text: JsonText)
    ensures CallsAreNamed(ResponsesStream.PartAdded(s, value, text).events)
    ensures CallsAreNamed(ResponsesStream.Delta(s, key, c, argumentsDelta).events)
    ensures CallsAreNamed(ResponsesStream.Stop(s, key).events)
    ensures CallsAreNamed(ResponsesStream.Completed(s, value).events)
  {
    hide Get, StringOr, ResponsesStream.ContentKey, ResponsesStream.Capture;
  }

  lemma {:induction false} ResponsesStepNamed(s: ResponsesStream.State, d: Delivery, text: JsonText)
    ensures var step := ResponsesStream.Decode(s, d, text);
            step.Decoded? ==> (CallsAreNamed(step.events) <==> !AddsNamelessItem(d.event))
  {
    hide Get, StringOr, TypeName, ResponsesStream.KindOf, ResponsesStream.ItemAdded, ResponsesStream.PartAdded,
         ResponsesStream.Delta, ResponsesStream.Stop, ResponsesStream.Completed, ResponsesStream.Capture;
    var parsed := Unmarshal(d.event.data);
    if parsed.Some? {
      var value := parsed.value;
      var said, item := StringOr(Get(value, "delta")), Get(value, "item");
      ItemIsNamed(s, value, item);
      OthersAreNamed(s, value, ResponsesStream.ContentKey(value, text), TextContent(said), "", text);
      OthersAreNamed(s, Get(value, "response"), ResponsesStream.ItemKey(value, Null), ToolCallContent("", "", Null),
                     said,
                     text);
      OthersAreNamed(s, value, ResponsesStream.ItemKey(value, item), TextContent(said), "", text);
    }
  }

  ghost predicate AllNamed(from: Protocol, frames: seq<Event>) {
    forall e :: e in frames ==> !Nameless(from, e)
  }

  lemma {:induction false} NamelessOneMore(from: Protocol, frames: seq<Event>, e: Event)
    ensures AllNamed(from, frames + [e]) <==> AllNamed(from, frames) && !Nameless(from, e)
  {
    hide Nameless;
    assert forall x :: x in frames + [e] <==> x in frames || x == e;
  }

  lemma {:induction false} FramesAreNamed(from: Protocol, ds: seq<Delivery>, text: JsonText)
    requires !from.OpenAIChat?
    ensures var run := Run(Initial(from), ds, text);
            run.Decoded? ==>
              && (if from.Anthropic? then run.state.AnthropicDecoder? else run.state.ResponsesDecoder?)
              && (CallsAreNamed(run.events) <==> AllNamed(from, Events(ds)))
  {
    hide CallsAreNamed, AnthropicStream.Decode, ResponsesStream.Decode, StartsNamelessBlock, AddsNamelessItem, AllNamed;
    if ds == [] {
      assert Events(ds) == [];
      assert CallsAreNamed([]) by { NothingStarted(); }
      assert AllNamed(from, []) by { NobodyNameless(from); }
    } else {
      var n := |ds| - 1;
      FramesAreNamed(from, ds[..n], text);
      var before, e := Run(Initial(from), ds[..n], text), ds[n].event;
      assert Events(ds) == Events(ds[..n]) + [e];
      NamelessOneMore(from, Events(ds[..n]), e);
      if before.Decoded? && Decode(before.state, ds[n], text).Decoded? {
        NamedConcat(before.events, Decode(before.state, ds[n], text).events);
        if from.Anthropic? {
          AnthropicStepNamed(before.state.anthropic, ds[n]);
        } else {
          ResponsesStepNamed(before.state.responses, ds[n], text);
        }
      }
    }
  }

  lemma {:induction false} NobodyNameless(from: Protocol)
    ensures AllNamed(from, [])
  {
  }

  lemma {:induction false} NothingStarted()
    ensures CallsAreNamed([])
  {
  }

  lemma {:induction false} DoneIsNamed(done: StreamEvent)
    requires done.Done?
    ensures CallsAreNamed([done])
  {
  }

  // Every call a stream starts comes with an id.
  ghost predicate CallsHaveIDs(from: Protocol, frames: seq<Event>) {
    if from.OpenAIChat? then OpenersHaveIDs(Pieces(frames)) else AllNamed(from, frames)
  }

  lemma {:induction false} StreamTracks(from: Protocol, ds: seq<Delivery>, last: seq<int>, text: JsonText)
    requires Run(Initial(from), ds, text).Decoded?
    ensures CallsAreNamed(StreamEvents(from, ds, last, text)) <==> CallsHaveIDs(from, Events(ds))
  {
    hide Run, ChatStream.CloseBlocks, ChatStream.Ending, Pieces, OpenersHaveIDs, Keys, Events, CallsAreNamed, AllNamed;
    var run := Run(Initial(from), ds, text);
    NamedConcat(run.events, Finish(run.state, last));
    NothingStarted();
    if from.OpenAIChat? {
      RunTracks(ds, text);
      EndIsNamed(run.state.chat, run.state.chat, last);
    } else {
      FramesAreNamed(from, ds, text);
      if |Finish(run.state, last)| == 1 {
        DoneIsNamed(Finish(run.state, last)[0]);
        assert Finish(run.state, last) == [Finish(run.state, last)[0]];
      }
    }
  }

  // ---- The calls collected ----------------------------------------------------------------

  predicate NamelessCall(c: Content) {
    c.kind.ToolCallType? && c.id == ""
  }

  ghost predicate OpenCallsHaveIDs(z: Collected, t: Ledger) {
    forall i :: i in t.open && i in z.blocks ==> !NamelessCall(z.blocks[i].content)
  }

  // Calls were started with ids exactly when those collected and those still open have ids.
  ghost predicate Named(z: Collected, t: Ledger, es: seq<StreamEvent>) {
    CallsAreNamed(es) <==> ResponsesRoundTrip.CallsHaveIDs(z.response.content) && OpenCallsHaveIDs(z, t)
  }

  lemma {:induction false} HaveIDsOneMore(contents: seq<Content>, c: Content)
    ensures ResponsesRoundTrip.CallsHaveIDs(contents + [c]) <==>
            ResponsesRoundTrip.CallsHaveIDs(contents) && !NamelessCall(c)
  {
    assert forall x :: x in contents + [c] <==> x in contents || x == c;
  }

  lemma {:induction false} ClosedIsNamed(block: Block, text: JsonText)
    ensures NamelessCall(Collector.Closed(block, text)) <==> NamelessCall(block.content)
  {
  }

  lemma {:induction false} GrownIsNamed(block: Block, e: StreamEvent, kind: ContentType)
    requires e.ContentDelta? && e.content.kind == kind && block.content.kind == WireKind(kind)
    ensures NamelessCall(Grow(block, e).content) <==> NamelessCall(block.content)
  {
  }

  lemma {:induction false} StopIsNamed(z: Collected, t: Ledger, e: StreamEvent, es: seq<StreamEvent>, text: JsonText)
    requires WireBlocks(z, t) && Allowed(t, e) && e.ContentStop? && Named(z, t, es)
    ensures Named(Apply(z, e, text), Note(t, e), es + [e])
  {
    hide Collector.Closed, NamelessCall, ResponsesRoundTrip.CallsHaveIDs, CallsAreNamed;
    NamedOneMore(es, e);
    if e.index in z.blocks {
      var block := z.blocks[e.index];
      ClosedIsNamed(block, text);
      HaveIDsOneMore(z.response.content, Collector.Closed(block, text));
      var after, u := Apply(z, e, text), Note(t, e);
      assert e.index in t.open;
      assert forall i :: i in t.open <==> i in u.open || i == e.index;
      assert forall i :: i in u.open ==> after.blocks[i] == z.blocks[i];
      assert OpenCallsHaveIDs(z, t) <==> OpenCallsHaveIDs(after, u) && !NamelessCall(block.content);
    }
  }

  // One more block is open.
  lemma {:induction false} OpenedIsNamed(z: Collected, t: Ledger, after: Collected, u: Ledger, index: int)
    requires index !in t.open && u.open.Keys == t.open.Keys + {index} && index in after.blocks
    requires forall i :: i in t.open ==> i in z.blocks && i in after.blocks && after.blocks[i] == z.blocks[i]
    ensures OpenCallsHaveIDs(after, u) <==> OpenCallsHaveIDs(z, t) && !NamelessCall(after.blocks[index].content)
  {
    hide NamelessCall;
    assert forall i :: i in u.open <==> i in t.open || i == index;
    if OpenCallsHaveIDs(after, u) {
      forall i | i in t.open
        ensures !NamelessCall(z.blocks[i].content)
      {
        assert i in u.open && i in after.blocks;
      }
      assert index in u.open;
    }
  }

  lemma {:induction false} EventIsNamed(z: Collected, t: Ledger, e: StreamEvent, es: seq<StreamEvent>, text: JsonText)
    requires WireBlocks(z, t) && Allowed(t, e) && Named(z, t, es)
    ensures Named(Apply(z, e, text), Note(t, e), es + [e])
  {
    hide ResponsesRoundTrip.CallsHaveIDs, CallsAreNamed, NamelessCall, Grow, Collector.Closed;
    NamedOneMore(es, e);
    var after, u := Apply(z, e, text), Note(t, e);
    match e
    case ContentStart(index, content) =>
      NamelessStart(e);
      OpenedIsNamed(z, t, after, u, index);
    case ContentDelta(index, content, _) =>
      GrownIsNamed(z.blocks[index], e, content.kind);
      assert OpenCallsHaveIDs(after, u) <==> OpenCallsHaveIDs(z, t);
    case ContentStop(_) => StopIsNamed(z, t, e, es, text);
    case _ =>
  }

  lemma {:induction false} NamelessStart(e: StreamEvent)
    requires e.ContentStart?
    ensures IsNameless(e) <==> NamelessCall(e.content)
  {
  }

  lemma {:induction false} RunIsNamed(es: seq<StreamEvent>, text: JsonText)
    requires Orderly(es) && AllPlain(es)
    ensures var z := ApplyAll(EMPTY, es, text); WireBlocks(z, Noted(es)) && Named(z, Noted(es), es)
  {
    hide Apply, Allowed, Note, Named, WireBlocks, IsPlainEvent;
    if es == [] {
      NothingNamed();
    } else {
      var n := |es| - 1;
      var z, e := ApplyAll(EMPTY, es[..n], text), es[n];
      assert e in es && forall x :: x in es[..n] ==> x in es;
      RunIsNamed(es[..n], text);
      PlainImage(e);
      ImageDepicts(e);
      WireStep(z, Noted(es[..n]), e, e, text);
      EventIsNamed(z, Noted(es[..n]), e, es[..n], text);
      assert es == es[..n] + [e];
    }
  }

  lemma {:induction false} NothingNamed()
    ensures WireBlocks(EMPTY, BLANK) && Named(EMPTY, BLANK, [])
  {
  }

  /** In a stream whose run is complete every call collected has an id exactly when its frames bring one. */
  lemma {:induction false} CollectedCallsHaveIDs(from: Protocol, ds: seq<Delivery>, last: seq<int>, text: JsonText)
    requires Run(Initial(from), ds, text).Decoded? && Complete(StreamEvents(from, ds, last, text))
    ensures ResponsesRoundTrip.CallsHaveIDs(ApplyAll(EMPTY, StreamEvents(from, ds, last, text), text).response.content)
            <==> CallsHaveIDs(from, Events(ds))
  {
    hide Run, CallsHaveIDs, Events, ApplyAll, Noted, Orderly, Allowed, CallsAreNamed, Finish,
         ResponsesRoundTrip.CallsHaveIDs, AllPlain;
    var es := StreamEvents(from, ds, last, text);
    StreamTracks(from, ds, last, text);
    StreamIsPlain(from, ds, last, text);
    CompleteEnds(es);
    RunIsNamed(es, text);
    OrderlyOneMore(es[..|es| - 1], es[|es| - 1]);
    assert Noted(es).open == map[];
    assert OpenCallsHaveIDs(ApplyAll(EMPTY, es, text), Noted(es));
  }
}
