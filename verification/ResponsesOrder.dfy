/** Exactly which Responses streams are decoded into complete runs, told on their frames (proxy/codec/stream.go). */
module ResponsesOrder {
  import opened Canonical
  import opened Json
  import opened OrderlyRuns
  import opened ResponsesStream
  import opened StreamTypes
  import opened Walks
  import opened Wrappers
  import Streams

  /** What a frame does to the stream; a block goes by its key. */
  datatype Mark =
    | Beginning
    | Adds(key: string, kind: ContentType)
    | Grows(key: string, kind: ContentType)
    | Closes(key: string)
    | Ending
    | Nothing

  function MarkFor(kind: FrameKind, value: Json, text: JsonText): Mark {
    var item := Get(value, "item");
    match kind
    case Created => Beginning
    case ItemAddedFrame =>
      if Get(item, "type") == Str("function_call") then Adds(ItemKey(value, item), ToolCallType) else Nothing
    case PartAddedFrame =>
      if Get(Get(value, "part"), "type") == Str("output_text") then Adds(ContentKey(value, text), TextType) else Nothing
    case TextDeltaFrame => Grows(ContentKey(value, text), TextType)
    case CallDeltaFrame => Grows(ItemKey(value, Null), ToolCallType)
    case PartDone => Closes(ContentKey(value, text))
    case ItemDone => if Get(item, "type") == Str("function_call") then Closes(ItemKey(value, item)) else Nothing
    case Terminal => Ending
    case _ => Nothing
  }

  function MarkOf(frame: Event, text: JsonText): Mark {
    var parsed := Unmarshal(frame.data);
    if parsed.None? then Nothing else MarkFor(KindOf(TypeName(frame, parsed.value)), parsed.value, text)
  }

  /** The keys added so far, the open ones by their kinds, and whether the stream began and ended. */
  datatype Books = Books(begun: bool, added: set<string>, open: map<string, ContentType>, ended: bool)

  const NO_BOOKS := Books(false, {}, map[], false)

  // A stream begins before its blocks, a key is added once, grows in its kind while it is open, and
  // everything is closed when the stream ends, once. Closing what is not open has no effect.
  predicate Fits(b: Books, m: Mark) {
    match m
    case Beginning => b.begun || (!b.ended && b.added == {})
    case Adds(key, _) => !b.ended && key !in b.added
    case Grows(key, kind) => !b.ended && key in b.open && b.open[key] == kind
    case Ending => !b.ended && b.open == map[]
    case _ => true
  }

  function Noting(b: Books, m: Mark): Books {
    match m
    case Beginning => b.(begun := true)
    case Adds(key, kind) => b.(added := b.added + {key}, open := b.open[key := kind])
    case Closes(key) => b.(open := b.open - {key})
    case Ending => b.(ended := true)
    case _ => b
  }

  function Marked(frames: seq<Event>, text: JsonText): Books {
    if frames == [] then NO_BOOKS
    else Noting(Marked(frames[..|frames| - 1], text), MarkOf(frames[|frames| - 1], text))
  }

  predicate InOrder(frames: seq<Event>, text: JsonText) {
    frames == [] || (InOrder(frames[..|frames| - 1], text)
                     && Fits(Marked(frames[..|frames| - 1], text), MarkOf(frames[|frames| - 1], text)))
  }

  // In order, and everything closed at the end.
  predicate WellOrdered(frames: seq<Event>, text: JsonText) {
    InOrder(frames, text) && Marked(frames, text).open == map[]
  }

  lemma {:induction false} MarkedOneMore(frames: seq<Event>, e: Event, text: JsonText)
    ensures InOrder(frames + [e], text) <==> InOrder(frames, text) && Fits(Marked(frames, text), MarkOf(e, text))
    ensures Marked(frames + [e], text) == Noting(Marked(frames, text), MarkOf(e, text))
  {
    hide Fits, Noting, MarkOf;
    assert (frames + [e])[..|frames|] == frames;
  }

  // ---- Marks and events -------------------------------------------------------------------

  // The fields the order does not depend on.
  ghost predicate SameBlocks(s: State, t: State) {
    t.started == s.started && t.done == s.done && t.nextBlock == s.nextBlock && t.blocks == s.blocks && t.open == s.open
  }

  // The events a mark stands for.
  ghost predicate Emits(m: Mark, s: State, t: State, es: seq<StreamEvent>) {
    match m
    case Nothing => es == [] && SameBlocks(s, t)
    case Beginning => SameBlocks(s.(started := true), t) && if s.started then es == [] else |es| == 1 && es[0].Start?
    case Adds(key, kind) =>
      var (u, index) := Allocate(s, key);
      && SameBlocks(u.(open := s.open + {index}), t)
      && |es| == 1 && es[0].ContentStart? && es[0].index == index && es[0].content.kind == kind
    case Grows(key, kind) =>
      var (u, index) := Allocate(s, key);
      SameBlocks(u, t) && |es| == 1 && es[0].ContentDelta? && es[0].index == index && es[0].content.kind == kind
    case Closes(key) =>
      if key in s.blocks && s.blocks[key] in s.open
      then es == [ContentStop(s.blocks[key])] && SameBlocks(s.(open := s.open - {s.blocks[key]}), t)
      else es == [] && SameBlocks(s, t)
    case Ending => |es| == 1 && es[0].Done? && SameBlocks(s.(done := true), t)
  }

  lemma {:induction false} CaptureKeepsBlocks(s: State, value: Json)
    ensures SameBlocks(s, Capture(s, value))
  {
  }

  lemma {:induction false} ItemEmits(s: State, value: Json)
    ensures var item, step := Get(value, "item"), ItemAdded(s, value, Get(value, "item"));
            step.Decoded? &&
            Emits(if Get(item, "type") == Str("function_call") then Adds(ItemKey(value, item), ToolCallType)
                  else Nothing,
                  s, step.state, step.events)
  {
    hide Get, StringOr, ItemKey;
  }

  lemma {:induction false} PartEmits(s: State, value: Json, text: JsonText)
    ensures var part, step := Get(value, "part"), PartAdded(s, value, text);
            step.Decoded? &&
            Emits(if Get(part, "type") == Str("output_text") then Adds(ContentKey(value, text), TextType) else Nothing,
                  s, step.state, step.events)
  {
    hide Get, ContentKey;
  }

  lemma {:induction false} DeltaEmits(s: State, key: string, c: Content, argumentsDelta: string)
    ensures var step := Delta(s, key, c, argumentsDelta);
            step.Decoded? && Emits(Grows(key, c.kind), s, step.state, step.events)
  {
  }

  lemma {:induction false} StopEmits(s: State, key: string)
    ensures var step := Stop(s, key); step.Decoded? && Emits(Closes(key), s, step.state, step.events)
  {
  }

  lemma {:induction false} EnvelopeEmits(s: State, response: Json)
    ensures Emits(Nothing, s, s, [])
    ensures var step := Completed(s, response); step.Decoded? && Emits(Ending, s, step.state, step.events)
    ensures var t := Capture(s, response);
            if t.started then Emits(Beginning, s, t, [])
            else Emits(Beginning, s, t.(started := true), [Start(t.id, t.model, None)])
  {
    hide Capture;
    CaptureKeepsBlocks(s, response);
  }

  lemma {:induction false} DecodingEmits(s: State, d: Delivery, text: JsonText)
    ensures var step := Decode(s, d, text);
            step.Decoded? ==> Emits(MarkOf(d.event, text), s, step.state, step.events)
  {
    hide Get, StringOr, KindOf, TypeName, Capture, Completed, ItemAdded, PartAdded, Delta, Stop, Emits, ItemKey,
         ContentKey;
    var step, parsed := Decode(s, d, text), Unmarshal(d.event.data);
    EnvelopeEmits(s, Null);
    if parsed.Some? {
      var value, response, item := parsed.value, Get(parsed.value, "response"), Get(parsed.value, "item");
      var said := StringOr(Get(value, "delta"));
      match KindOf(TypeName(d.event, value))
      case Created => EnvelopeEmits(s, response);
      case ItemAddedFrame => ItemEmits(s, value);
      case PartAddedFrame => PartEmits(s, value, text);
      case TextDeltaFrame => DeltaEmits(s, ContentKey(value, text), TextContent(said), "");
      case CallDeltaFrame => DeltaEmits(s, ItemKey(value, Null), ToolCallContent("", "", Null), said);
      case PartDone => StopEmits(s, ContentKey(value, text));
      case ItemDone => StopEmits(s, ItemKey(value, item));
      case Terminal => EnvelopeEmits(s, response);
      case _ =>
    }
  }

  // ---- Runs -------------------------------------------------------------------------------

  ghost predicate Injective(blocks: map<string, int>) {
    forall k, l :: k in blocks && l in blocks && k != l ==> blocks[k] != blocks[l]
  }

  // The decoder's numbers are the indexes started, one for each key added.
  ghost predicate Numbered(s: State, started: set<int>, added: set<string>) {
    && s.blocks.Keys == added && Injective(s.blocks) && 0 <= s.nextBlock
    && (forall k :: k in s.blocks ==> 0 <= s.blocks[k] < s.nextBlock && s.blocks[k] in started)
    && (forall i :: i in started ==> exists k :: k in s.blocks && s.blocks[k] == i)
  }

  // The keys open are those whose numbers are, and of one kind.
  ghost predicate SameOpen(blocks: map<string, int>, t: map<int, ContentType>, b: map<string, ContentType>) {
    && (forall k :: k in b ==> k in blocks && blocks[k] in t && t[blocks[k]] == b[k])
    && (forall i :: i in t ==> exists k :: k in b && k in blocks && blocks[k] == i)
  }

  ghost predicate Agrees(s: State, t: Ledger, b: Books) {
    && t.begun == b.begun == s.started && t.ended == b.ended == s.done && s.open == t.open.Keys
    && Numbered(s, t.started, b.added) && SameOpen(s.blocks, t.open, b.open) && (s.done ==> s.open == {})
  }

  // The events are in order exactly when the frames are, and then the books agree.
  ghost predicate Matches(s: State, es: seq<StreamEvent>, frames: seq<Event>, text: JsonText) {
    if InOrder(frames, text) then Orderly(es) && Agrees(s, Noted(es), Marked(frames, text)) else !Orderly(es)
  }

  lemma {:induction false} SameBlocksAgree(s: State, u: State, t: Ledger, b: Books)
    requires Agrees(s, t, b) && SameBlocks(s, u)
    ensures Agrees(u, t, b)
  {
  }

  // One event keeps the books in agreement exactly when its mark fits.
  ghost predicate Kept(t: Ledger, b: Books, m: Mark, e: StreamEvent, u: State) {
    (Allowed(t, e) <==> Fits(b, m)) && (Fits(b, m) ==> Agrees(u, Note(t, e), Noting(b, m)))
  }

  lemma {:induction false} NewNumber(s: State, started: set<int>, added: set<string>, key: string)
    requires Numbered(s, started, added)
    ensures var (u, index) := Allocate(s, key);
            && (index in started <==> key in added)
            && Numbered(u, started + {index}, added + {key})
  {
    var (u, index) := Allocate(s, key);
    if key in s.blocks {
      assert started + {index} == started && added + {key} == added;
    } else {
      forall i | i in started + {index}
        ensures exists k :: k in u.blocks && u.blocks[k] == i
      {
        if i == index {
          assert u.blocks[key] == i;
        } else {
          var k :| k in s.blocks && s.blocks[k] == i;
          assert k in u.blocks && u.blocks[k] == i;
        }
      }
    }
  }

  lemma {:induction false} NewOpen(blocks: map<string, int>, t: map<int, ContentType>, b: map<string, ContentType>,
                                   key: string, index: int, kind: ContentType)
    requires SameOpen(blocks, t, b) && Injective(blocks) && key !in blocks
             && (forall k :: k in blocks ==> blocks[k] != index)
    ensures SameOpen(blocks[key := index], t[index := kind], b[key := kind])
  {
    var after, u, c := blocks[key := index], t[index := kind], b[key := kind];
    forall i | i in u
      ensures exists k :: k in c && k in after && after[k] == i
    {
      if i == index {
        assert key in c && after[key] == i;
      } else {
        var k :| k in b && k in blocks && blocks[k] == i;
        assert k in c && after[k] == i;
      }
    }
  }

  lemma {:induction false} AddKept(s: State, t: Ledger, b: Books, key: string, e: StreamEvent)
    requires Agrees(s, t, b) && e.ContentStart? && e.index == Allocate(s, key).1
    ensures var (u, index) := Allocate(s, key);
            Kept(t, b, Adds(key, e.content.kind), e, u.(open := s.open + {index}))
  {
    var (u, index) := Allocate(s, key);
    NewNumber(s, t.started, b.added, key);
    InBounds(s, t.started, b.added);
    if key !in s.blocks {
      NewOpen(s.blocks, t.open, b.open, key, index, e.content.kind);
      assert t.open.Keys + {index} == t.open[index := e.content.kind].Keys;
    }
    hide SameOpen;
    NumbersIgnoreOpen(u, t.started + {index}, b.added + {key}, s.open + {index});
    hide Numbered;
  }

  lemma {:induction false} InBounds(s: State, started: set<int>, added: set<string>)
    requires Numbered(s, started, added)
    ensures s.blocks.Keys == added && Injective(s.blocks) && 0 <= s.nextBlock && s.nextBlock !in started
    ensures forall k :: k in s.blocks ==> s.blocks[k] != s.nextBlock && s.blocks[k] in started
  {
    forall i | i in started
      ensures i != s.nextBlock
    {
      var k :| k in s.blocks && s.blocks[k] == i;
    }
  }

  lemma {:induction false} NumbersIgnoreOpen(s: State, started: set<int>, added: set<string>, open: set<int>)
    requires Numbered(s, started, added)
    ensures Numbered(s.(open := open), started, added)
  {
  }

  lemma {:induction false} OneOpen(blocks: map<string, int>, t: map<int, ContentType>, b: map<string, ContentType>,
                                   key: string)
    requires SameOpen(blocks, t, b) && Injective(blocks)
    ensures key in blocks ==> (blocks[key] in t <==> key in b) && (key in b ==> t[blocks[key]] == b[key])
    ensures key in b ==> key in blocks
    ensures key in blocks ==> SameOpen(blocks, t - {blocks[key]}, b - {key})
  {
    if key in blocks {
      var index := blocks[key];
      if index in t {
        var k :| k in b && k in blocks && blocks[k] == index;
        assert k == key;
      }
      var u, c := t - {index}, b - {key};
      forall i | i in u
        ensures exists k :: k in c && k in blocks && blocks[k] == i
      {
        var k :| k in b && k in blocks && blocks[k] == i;
        assert k in c;
      }
    }
  }

  lemma {:induction false} GrowthKept(s: State, t: Ledger, b: Books, key: string, e: StreamEvent)
    requires Agrees(s, t, b) && e.ContentDelta? && e.index == Allocate(s, key).1
    ensures Kept(t, b, Grows(key, e.content.kind), e, Allocate(s, key).0)
  {
    InBounds(s, t.started, b.added);
    OneOpen(s.blocks, t.open, b.open, key);
    NewIsNotOpen(s.blocks, t.open, b.open, s.nextBlock);
    hide SameOpen, Numbered, Injective;
  }

  lemma {:induction false} NewIsNotOpen(blocks: map<string, int>, t: map<int, ContentType>, b: map<string, ContentType>,
                                        index: int)
    requires SameOpen(blocks, t, b) && forall k :: k in blocks ==> blocks[k] != index
    ensures index !in t
  {
  }

  lemma {:induction false} StopKept(s: State, t: Ledger, b: Books, key: string)
    requires Agrees(s, t, b) && key in s.blocks && s.blocks[key] in s.open && !b.ended
    ensures Kept(t, b, Closes(key), ContentStop(s.blocks[key]), s.(open := s.open - {s.blocks[key]}))
  {
    InBounds(s, t.started, b.added);
    OneOpen(s.blocks, t.open, b.open, key);
    NumbersIgnoreOpen(s, t.started, b.added, s.open - {s.blocks[key]});
    assert (t.open - {s.blocks[key]}).Keys == t.open.Keys - {s.blocks[key]};
    hide SameOpen, Numbered, Injective;
  }

  // What is not open is closed without effect.
  lemma {:induction false} IdleStopKept(s: State, t: Ledger, b: Books, key: string)
    requires Agrees(s, t, b) && !(key in s.blocks && s.blocks[key] in s.open)
    ensures Agrees(s, t, Noting(b, Closes(key)))
  {
    InBounds(s, t.started, b.added);
    OneOpen(s.blocks, t.open, b.open, key);
    assert b.open - {key} == b.open;
  }

  lemma {:induction false} NothingOpen(blocks: map<string, int>, t: map<int, ContentType>, b: map<string, ContentType>)
    requires SameOpen(blocks, t, b)
    ensures t == map[] <==> b == map[]
  {
    if b != map[] {
      assert b.Keys != {};
      var k :| k in b.Keys;
      assert blocks[k] in t;
    }
    if t != map[] {
      HasElement(t.Keys);
      assert t.Keys != {};
      var i :| i in t.Keys;
      var k :| k in b && k in blocks && blocks[k] == i;
    }
  }

  lemma {:induction false} EndKept(s: State, t: Ledger, b: Books, e: StreamEvent)
    requires Agrees(s, t, b) && e.Done?
    ensures Kept(t, b, Ending, e, s.(done := true))
  {
    NothingOpen(s.blocks, t.open, b.open);
    hide SameOpen, Injective;
  }

  lemma {:induction false} NothingStarted(s: State, started: set<int>, added: set<string>)
    requires Numbered(s, started, added)
    ensures started == {} <==> added == {}
  {
    if added != {} {
      var k :| k in added;
      assert s.blocks[k] in started;
    }
    if started != {} {
      HasElement(started);
      var i :| i in started;
      var k :| k in s.blocks && s.blocks[k] == i;
    }
  }

  lemma {:induction false} BeginningKept(s: State, t: Ledger, b: Books, e: StreamEvent)
    requires Agrees(s, t, b) && e.Start? && !s.started
    ensures Kept(t, b, Beginning, e, s.(started := true))
  {
    NothingStarted(s, t.started, b.added);
    hide SameOpen, Injective;
  }

  lemma {:induction false} StepMatches(s: State, es: seq<StreamEvent>, frames: seq<Event>, d: Delivery, text: JsonText)
    requires Matches(s, es, frames, text) && Decode(s, d, text).Decoded?
    ensures Matches(Decode(s, d, text).state, es + Decode(s, d, text).events, frames + [d.event], text)
  {
    hide Decode, InOrder, Marked, Orderly, Noted, MarkOf, Agrees, Fits, Noting, Note, Allowed, Allocate;
    var step, m := Decode(s, d, text), MarkOf(d.event, text);
    DecodingEmits(s, d, text);
    MarkedOneMore(frames, d.event, text);
    OrderlyPrefix(es, step.events);
    if InOrder(frames, text) {
      var t, b := Noted(es), Marked(frames, text);
      if step.events == [] {
        assert es + [] == es;
        SilentStep(s, t, b, m, step.state);
      } else {
        assert step.events == [step.events[0]];
        OrderlyOneMore(es, step.events[0]);
        SpokenStep(s, t, b, m, step.state, step.events[0]);
      }
    }
  }

  lemma {:induction false} SilentStep(s: State, t: Ledger, b: Books, m: Mark, u: State)
    requires Agrees(s, t, b) && Emits(m, s, u, [])
    ensures Fits(b, m) && Agrees(u, t, Noting(b, m))
  {
    hide Numbered, SameOpen, Allocate;
    match m
    case Closes(key) =>
      IdleStopKept(s, t, b, key);
      SameBlocksAgree(s, u, t, Noting(b, m));
    case _ => SameBlocksAgree(s, u, t, b);
  }

  lemma {:induction false} SpokenStep(s: State, t: Ledger, b: Books, m: Mark, u: State, e: StreamEvent)
    requires Agrees(s, t, b) && Emits(m, s, u, [e])
    ensures Kept(t, b, m, e, u)
  {
    hide Agrees, Note, Noting, Allowed, Fits, Kept, Allocate;
    match m
    case Beginning =>
      BeginningKept(s, t, b, e);
      SameBlocksKept(t, b, m, e, s.(started := true), u);
    case Adds(key, kind) =>
      AddKept(s, t, b, key, e);
      SameBlocksKept(t, b, m, e, Allocate(s, key).0.(open := s.open + {Allocate(s, key).1}), u);
    case Grows(key, kind) =>
      GrowthKept(s, t, b, key, e);
      SameBlocksKept(t, b, m, e, Allocate(s, key).0, u);
    case Closes(key) =>
      OpenIsNotEnded(s, t, b);
      StopKept(s, t, b, key);
      SameBlocksKept(t, b, m, e, s.(open := s.open - {s.blocks[key]}), u);
    case Ending =>
      EndKept(s, t, b, e);
      SameBlocksKept(t, b, m, e, s.(done := true), u);
    case Nothing =>
  }

  lemma {:induction false} OpenIsNotEnded(s: State, t: Ledger, b: Books)
    requires Agrees(s, t, b)
    ensures s.open != {} ==> !b.ended
  {
  }

  lemma {:induction false} SameBlocksKept(t: Ledger, b: Books, m: Mark, e: StreamEvent, v: State, u: State)
    requires Kept(t, b, m, e, v) && SameBlocks(v, u)
    ensures Kept(t, b, m, e, u)
  {
    hide Agrees, Allowed, Fits;
    if Fits(b, m) {
      SameBlocksAgree(v, u, Note(t, e), Noting(b, m));
    }
  }

  lemma {:induction false} RunMatches(ds: seq<Delivery>, text: JsonText)
    ensures var run := Streams.Run(Streams.Initial(OpenAIResponses), ds, text);
            run.Decoded? ==>
              run.state.ResponsesDecoder? && Matches(run.state.responses, run.events, Events(ds), text)
  {
    hide Decode, Matches;
    if ds == [] {
      assert Events(ds) == [];
      assert Matches(INITIAL, [], [], text) by { NothingMatches(text); }
    } else {
      var n := |ds| - 1;
      RunMatches(ds[..n], text);
      var before := Streams.Run(Streams.Initial(OpenAIResponses), ds[..n], text);
      assert Events(ds) == Events(ds[..n]) + [ds[n].event];
      if before.Decoded? && Decode(before.state.responses, ds[n], text).Decoded? {
        StepMatches(before.state.responses, before.events, Events(ds[..n]), ds[n], text);
      }
    }
  }

  lemma {:induction false} NothingMatches(text: JsonText)
    ensures Matches(INITIAL, [], [], text)
  {
  }

  /** A Responses stream the decoder accepts makes a complete run exactly when its frames are well ordered. */
  lemma {:induction false} OrderIsExact(ds: seq<Delivery>, last: seq<int>, text: JsonText)
    requires Streams.Run(Streams.Initial(OpenAIResponses), ds, text).Decoded?
    ensures Complete(StreamEvents(OpenAIResponses, ds, last, text)) <==> WellOrdered(Events(ds), text)
  {
    hide Streams.Run, Events, Orderly, Noted, InOrder, Marked, Numbered;
    var run := Streams.Run(Streams.Initial(OpenAIResponses), ds, text);
    RunMatches(ds, text);
    var s, t, b := run.state.responses, Noted(run.events), Marked(Events(ds), text);
    if InOrder(Events(ds), text) {
      NothingOpen(s.blocks, t.open, b.open);
    }
    hide SameOpen;
    if s.done {
      assert run.events + [] == run.events;
    } else {
      OrderlyOneMore(run.events, Done("stop", s.usage));
    }
  }
}
