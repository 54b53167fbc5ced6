/** Which streams are accepted, and that what their frames say is what is emitted (proxy/codec/stream.go). */
module FrameTexts {
  import opened Canonical
  import opened Decimals
  import opened Json
  import opened ResponsesFrames
  import opened Sequences
  import opened StreamTypes
  import opened Streams
  import opened Wrappers
  import AnthropicStream
  import ChatStream
  import ResponsesStream
  import StopReasons

  // ---- Which streams are accepted ---------------------------------------------------------

  // A frame is called by its name, or by the type of its object where it has none.
  predicate Called(f: Event, name: string) {
    f.name == name || (f.name == "" && Field(f, "type") == Str(name))
  }

  predicate IsObject(f: Event) {
    f.data.Tree? && (f.data.json.Obj? || f.data.json.Null?)
  }

  // The frames a protocol's decoder refuses, whatever came before.
  predicate IsBad(p: Protocol, f: Event) {
    match p
    case OpenAIChat => !f.data.DoneMark? && !IsObject(f)
    case OpenAIResponses => !f.data.DoneMark? && (!IsObject(f) || Called(f, "error") || Called(f, "response.failed"))
    case Anthropic =>
      || !IsObject(f) || Called(f, "error")
      || (Called(f, "content_block_start")
          && !exists t :: t in {"text", "tool_use", "thinking", "redacted_thinking"}
                          && Get(Field(f, "content_block"), "type") == Str(t))
  }

  // What is wrong with a frame that is refused.
  function Fault(p: Protocol, f: Event): Failure
    requires IsBad(p, f)
  {
    if !IsObject(f) then BadJson
    else if p.Anthropic? && !Called(f, "error") then UnsupportedBlock
    else UpstreamFailed
  }

  lemma {:induction false} AnthropicAccepts(s: AnthropicStream.State, d: Delivery)
    ensures var step := AnthropicStream.Decode(s, d);
            (step.Failed? <==> IsBad(Anthropic, d.event))
                && (step.Failed? ==> step.failure == Fault(Anthropic, d.event))
  {
    var f := d.event;
    if IsObject(f) {
      assert Field(f, "type") == Get(f.data.json, "type");
      var kind := Get(Field(f, "content_block"), "type");
      hide AnthropicStream.BlockDelta, Get;
      assert kind == Str("text") || kind == Str("tool_use") || kind == Str("thinking")
             || kind == Str("redacted_thinking")
             <==> exists t :: t in {"text", "tool_use", "thinking", "redacted_thinking"} && kind == Str(t);
    }
  }

  lemma {:induction false} ItemsAreAccepted(s: ResponsesStream.State)
    ensures forall value, item :: ResponsesStream.ItemAdded(s, value, item).Decoded?
    ensures forall key :: ResponsesStream.Stop(s, key).Decoded?
  {
    hide Get, ResponsesStream.Allocate, ResponsesStream.ItemKey;
  }

  lemma {:induction false} FailuresAreCalled(f: Event)
    requires IsObject(f)
    ensures ResponsesStream.KindOf(TypeName(f, f.data.json)).Failing?
            <==> Called(f, "error") || Called(f, "response.failed")
  {
    hide Get;
  }

  lemma {:induction false} ResponsesAccepts(s: ResponsesStream.State, d: Delivery, text: JsonText)
    ensures var step := ResponsesStream.Decode(s, d, text);
            && (step.Failed? <==> IsBad(OpenAIResponses, d.event))
            && (step.Failed? ==> step.failure == Fault(OpenAIResponses, d.event))
  {
    ItemsAreAccepted(s);
    if IsObject(d.event) {
      FailuresAreCalled(d.event);
    }
    hide Get, ResponsesStream.Allocate, ResponsesStream.ItemKey, ResponsesStream.ContentKey, ResponsesStream.Capture,
         ResponsesStream.Stop, ResponsesStream.ItemAdded, ResponsesStream.KindOf, TypeName, Called;
  }

  lemma {:induction false} FrameIsAccepted(s: DecoderState, p: Protocol, d: Delivery, text: JsonText)
    requires Speaks(s, p)
    ensures var step := Decode(s, d, text);
            && (step.Failed? <==> IsBad(p, d.event)) && (step.Failed? ==> step.failure == Fault(p, d.event))
            && (step.Decoded? ==> Speaks(step.state, p))
  {
    match s
    case ChatDecoder(c) =>
    case ResponsesDecoder(r) =>
      hide IsBad, Fault, ResponsesStream.Decode;
      ResponsesAccepts(r, d, text);
    case AnthropicDecoder(a) =>
      hide IsBad, Fault, AnthropicStream.Decode;
      AnthropicAccepts(a, d);
  }

  predicate Speaks(s: DecoderState, p: Protocol) {
    match p
    case OpenAIChat => s.ChatDecoder?
    case OpenAIResponses => s.ResponsesDecoder?
    case Anthropic => s.AnthropicDecoder?
  }

  // The first bad frame of some frames, and what is wrong with it.
  ghost predicate FailsAt(p: Protocol, frames: seq<Event>, failure: Failure) {
    exists k :: 0 <= k < |frames| && IsBad(p, frames[k]) && failure == Fault(p, frames[k])
                && forall j :: 0 <= j < k ==> !IsBad(p, frames[j])
  }

  lemma {:induction false} FailsStill(p: Protocol, frames: seq<Event>, f: Event, failure: Failure)
    requires FailsAt(p, frames, failure)
    ensures FailsAt(p, frames + [f], failure)
  {
    hide IsBad;
    var k :| 0 <= k < |frames| && IsBad(p, frames[k]) && failure == Fault(p, frames[k])
             && forall j :: 0 <= j < k ==> !IsBad(p, frames[j]);
    assert (frames + [f])[k] == frames[k] && forall j :: 0 <= j < k ==> (frames + [f])[j] == frames[j];
  }

  lemma {:induction false} FailsNow(p: Protocol, frames: seq<Event>, f: Event)
    requires IsBad(p, f) && forall g :: g in frames ==> !IsBad(p, g)
    ensures FailsAt(p, frames + [f], Fault(p, f))
  {
    hide IsBad;
    assert (frames + [f])[|frames|] == f;
    assert forall j :: 0 <= j < |frames| ==> (frames + [f])[j] == frames[j] && frames[j] in frames;
  }

  /**
   * A stream is accepted exactly when none of its frames is bad, which each frame decides for itself, and
   * fails with what is wrong with the first bad one.
   */
  lemma {:induction false} AcceptedExactly(p: Protocol, ds: seq<Delivery>, text: JsonText)
    ensures var run := Run(Initial(p), ds, text);
            && (run.Decoded? <==> forall f :: f in Events(ds) ==> !IsBad(p, f))
            && (run.Decoded? ==> Speaks(run.state, p))
            && (run.Failed? ==> FailsAt(p, Events(ds), run.failure))
  {
    hide Decode, IsBad, FailsAt, Fault;
    if ds != [] {
      var n := |ds| - 1;
      var before := Run(Initial(p), ds[..n], text);
      AcceptedExactly(p, ds[..n], text);
      assert Events(ds) == Events(ds[..n]) + [ds[n].event];
      assert forall f :: f in Events(ds) <==> f in Events(ds[..n]) || f == ds[n].event;
      if before.Decoded? {
        FrameIsAccepted(before.state, p, ds[n], text);
        if IsBad(p, ds[n].event) {
          FailsNow(p, Events(ds[..n]), ds[n].event);
        }
      } else {
        FailsStill(p, Events(ds[..n]), ds[n].event, before.failure);
      }
    }
  }

  // ---- Which item a Responses frame is about ----------------------------------------------

  datatype Item = ByID(id: string) | ByPlace(index: int)

  // The item a frame is about: the id it gives, else the id of the item it holds, else the place it names.
  function ItemOf(value: Json, item: Json): Item {
    var given, held := Get(value, "item_id"), Get(item, "id");
    if given.Str? && given.s != "" then ByID(given.s)
    else if held.Str? && held.s != "" then ByID(held.s)
    else ByPlace(IntOr(Get(value, "output_index")))
  }

  lemma {:induction false} KeyMeans(value: Json, item: Json)
    ensures ResponsesStream.ItemKey(value, item) ==
            match ItemOf(value, item) case ByID(id) => "item:" + id case ByPlace(index) => "output:" + Decimal(index)
  {
    hide Decimal;
  }

  /** Two frames have the same key exactly when they are about the same item. */
  lemma {:induction false} KeysTellItems(v: Json, i: Json, w: Json, j: Json)
    ensures ResponsesStream.ItemKey(v, i) == ResponsesStream.ItemKey(w, j) <==> ItemOf(v, i) == ItemOf(w, j)
  {
    KeyMeans(v, i);
    KeyMeans(w, j);
    hide ResponsesStream.ItemKey, ItemOf, Decimal;
    match (ItemOf(v, i), ItemOf(w, j))
    case (ByID(id), ByID(other)) =>
      assert ("item:" + id)[5..] == id && ("item:" + other)[5..] == other;
    case (ByPlace(index), ByPlace(other)) =>
      assert ("output:" + Decimal(index))[7..] == Decimal(index) && ("output:" + Decimal(other))[7..] == Decimal(other);
      DecimalInjective(index, other);
    case (ByID(id), ByPlace(index)) => assert ("item:" + id)[0] != ("output:" + Decimal(index))[0];
    case (ByPlace(index), ByID(id)) => assert ("item:" + id)[0] != ("output:" + Decimal(index))[0];
  }

  /** Of one item the parts are told apart by their content index, and under one content index by their items. */
  lemma {:induction false} KeysTellParts(v: Json, w: Json, text: JsonText)
    ensures var same := ResponsesStream.ContentKey(v, text) == ResponsesStream.ContentKey(w, text);
            var item := ItemOf(v, Null) == ItemOf(w, Null);
            var part := text.format(Get(v, "content_index")) == text.format(Get(w, "content_index"));
            (item ==> (same <==> part)) && (part ==> (same <==> item))
  {
    KeysTellItems(v, Null, w, Null);
    hide ResponsesStream.ItemKey, ItemOf, Get;
    var head, tail := ResponsesStream.ItemKey(v, Null) + ":content:", text.format(Get(v, "content_index"));
    var head', tail' := ResponsesStream.ItemKey(w, Null) + ":content:", text.format(Get(w, "content_index"));
    if head + tail == head' + tail' {
      if head == head' {
        assert (head + tail)[|head|..] == tail && (head' + tail')[|head|..] == tail';
      }
      if tail == tail' {
        assert |head| == |head'|;
        assert (head + tail)[..|head|] == head && (head' + tail')[..|head|] == head';
        HeadsAgree(ResponsesStream.ItemKey(v, Null), ResponsesStream.ItemKey(w, Null), ":content:");
      }
    }
  }

  lemma {:induction false} HeadsAgree(s: string, t: string, more: string)
    ensures s + more == t + more ==> s == t
  {
    if s + more == t + more {
      assert |s| == |t| && (s + more)[..|s|] == s && (t + more)[..|s|] == t;
    }
  }

  // ---- What is said -----------------------------------------------------------------------

  datatype Kind = Texts | Thoughts | Arguments

  // What one event adds, and all events of a run put together.
  function Adds(e: StreamEvent, k: Kind): string {
    if !e.ContentDelta? then ""
    else
      match k
      case Texts => if e.content.kind.TextType? then e.content.text else ""
      case Thoughts => if e.content.kind.ReasoningType? then e.content.text else ""
      case Arguments => if e.content.kind.ToolCallType? then e.argumentsDelta else ""
  }

  function Emitted(es: seq<StreamEvent>, k: Kind): string {
    if es == [] then "" else Emitted(es[..|es| - 1], k) + Adds(es[|es| - 1], k)
  }

  // The text a frame of each protocol says.
  function SaidByDelta(delta: Json, k: Kind): string {
    match k
    case Texts => if Get(delta, "type") == Str("text_delta") then StringOr(Get(delta, "text")) else ""
    case Thoughts => if Get(delta, "type") == Str("thinking_delta") then StringOr(Get(delta, "thinking")) else ""
    case Arguments => if Get(delta, "type") == Str("input_json_delta") then StringOr(Get(delta, "partial_json")) else ""
  }

  function ItemsOf(j: Json): seq<Json> {
    if j.Arr? then j.items else []
  }

  function SaidByCalls(calls: seq<Json>): string {
    if calls == [] then ""
    else SaidByCalls(calls[..|calls| - 1]) + StringOr(Get(Get(calls[|calls| - 1], "function"), "arguments"))
  }

  function SaidByChoice(choice: Json, k: Kind): string {
    var delta := Get(choice, "delta");
    match k
    case Texts => StringOr(Get(delta, "content"))
    case Thoughts => StringOr(Get(delta, "reasoning_content"))
    case Arguments => SaidByCalls(ItemsOf(Get(delta, "tool_calls")))
  }

  function SaidByChoices(choices: seq<Json>, k: Kind): string {
    if choices == [] then ""
    else SaidByChoices(choices[..|choices| - 1], k) + SaidByChoice(choices[|choices| - 1], k)
  }

  function SaidBy(p: Protocol, f: Event, k: Kind): string {
    match p
    case OpenAIChat => if f.data.DoneMark? then "" else SaidByChoices(ItemsOf(Field(f, "choices")), k)
    case OpenAIResponses =>
      if k.Texts? && Called(f, "response.output_text.delta") then StringOr(Field(f, "delta"))
      else if k.Arguments? && Called(f, "response.function_call_arguments.delta") then StringOr(Field(f, "delta"))
      else ""
    case Anthropic => if Called(f, "content_block_delta") then SaidByDelta(Field(f, "delta"), k) else ""
  }

  function Said(p: Protocol, frames: seq<Event>, k: Kind): string {
    if frames == [] then "" else Said(p, frames[..|frames| - 1], k) + SaidBy(p, frames[|frames| - 1], k)
  }

  lemma {:induction false} EmittedConcat(a: seq<StreamEvent>, b: seq<StreamEvent>, k: Kind)
    ensures Emitted(a + b, k) == Emitted(a, k) + Emitted(b, k)
    decreases |b|
  {
    hide Adds;
    if b == [] {
      assert a + b == a && Emitted(a, k) + "" == Emitted(a, k);
    } else {
      var n := |b| - 1;
      assert (a + b)[..|a| + n] == a + b[..n];
      EmittedConcat(a, b[..n], k);
      Associative(Emitted(a, k), Emitted(b[..n], k), Adds(b[n], k));
    }
  }

  lemma {:induction false} FewEmitted(e: StreamEvent, f: StreamEvent, k: Kind)
    ensures Emitted([], k) == "" && Emitted([e], k) == Adds(e, k) && Emitted([e, f], k) == Adds(e, k) + Adds(f, k)
  {
    assert [e, f][..1] == [e] && [e][..0] == [];
    assert "" + Adds(e, k) == Adds(e, k);
  }

  lemma {:induction false} StopsAddNothing(es: seq<StreamEvent>, k: Kind)
    requires forall e :: e in es ==> !e.ContentDelta?
    ensures Emitted(es, k) == ""
  {
    if es != [] {
      assert es[|es| - 1] in es && forall e :: e in es[..|es| - 1] ==> e in es;
      StopsAddNothing(es[..|es| - 1], k);
    }
  }

  // ---- Anthropic --------------------------------------------------------------------------

  // An event, perhaps after one that opens its block, adds what it adds.
  lemma {:induction false} OpenedAdds(opening: seq<StreamEvent>, e: StreamEvent, k: Kind)
    requires |opening| <= 1 && forall o :: o in opening ==> !o.ContentDelta?
    ensures Emitted(opening + [e], k) == Adds(e, k)
  {
    StopsAddNothing(opening, k);
    FewEmitted(e, e, k);
    EmittedConcat(opening, [e], k);
    hide Emitted, Adds;
    assert "" + Adds(e, k) == Adds(e, k);
  }

  lemma {:induction false} LazySays(s: AnthropicStream.State, index: int, opening: Content, content: Content, k: Kind)
    ensures var step := AnthropicStream.LazyDelta(s, index, opening, content);
            step.Decoded? && Emitted(step.events, k) == Adds(ContentDelta(0, content, ""), k)
  {
    var starts := if index in s.open then [] else [ContentStart(index, opening)];
    OpenedAdds(starts, ContentDelta(index, content, ""), k);
    hide Emitted;
  }

  lemma {:induction false} DeltaSays(s: AnthropicStream.State, index: int, delta: Json, k: Kind)
    ensures var step := AnthropicStream.BlockDelta(s, index, delta);
            step.Decoded? && Emitted(step.events, k) == SaidByDelta(delta, k)
  {
    hide Get, Emitted, AnthropicStream.LazyDelta;
    var kind := Get(delta, "type");
    if kind == Str("text_delta") {
      LazySays(s, index, TextContent(""), TextContent(StringOr(Get(delta, "text"))), k);
    } else if kind == Str("thinking_delta") {
      LazySays(s, index, ReasoningContent(""), ReasoningContent(StringOr(Get(delta, "thinking"))), k);
    } else if kind == Str("input_json_delta") {
      var call := ContentDelta(index, ToolCallContent("", "", Null), StringOr(Get(delta, "partial_json")));
      FewEmitted(call, call, k);
    } else {
      StopsAddNothing([], k);
    }
  }

  lemma {:induction false} DeltaDecodes(s: AnthropicStream.State, d: Delivery)
    requires IsObject(d.event) && Called(d.event, "content_block_delta")
    ensures var value := d.event.data.json;
            AnthropicStream.Decode(s, d) ==
            AnthropicStream.BlockDelta(s, IntOr(Get(value, "index")), Get(value, "delta"))
  {
    hide Get, IntOr, AnthropicStream.BlockDelta, AnthropicStream.BlockStart;
  }

  lemma {:induction false} StartSays(s: AnthropicStream.State, index: int, block: Json, k: Kind)
    ensures var step := AnthropicStream.BlockStart(s, index, block); step.Decoded? ==> Emitted(step.events, k) == ""
  {
    hide Get, Emitted;
    var step := AnthropicStream.BlockStart(s, index, block);
    if step.Decoded? {
      StopsAddNothing(step.events, k);
    }
  }

  lemma {:induction false} OthersSay(s: AnthropicStream.State, d: Delivery, k: Kind)
    requires IsObject(d.event) && !Called(d.event, "content_block_delta")
    ensures var step := AnthropicStream.Decode(s, d); step.Decoded? ==> Emitted(step.events, k) == ""
  {
    var step, value := AnthropicStream.Decode(s, d), d.event.data.json;
    StartSays(s, IntOr(Get(value, "index")), Get(value, "content_block"), k);
    hide Get, IntOr, AnthropicStream.BlockDelta, AnthropicStream.BlockStart, Emitted, AnthropicStream.MergeUsage,
         StopReasons.AnthropicStopReason, StopReasons.DecodeAnthropicUsage;
    if step.Decoded? && TypeName(d.event, value) != "content_block_start" {
      StopsAddNothing(step.events, k);
    }
  }

  lemma {:induction false} AnthropicSays(s: AnthropicStream.State, d: Delivery, k: Kind)
    ensures var step := AnthropicStream.Decode(s, d);
            step.Decoded? ==> Emitted(step.events, k) == SaidBy(Anthropic, d.event, k)
  {
    if IsObject(d.event) {
      hide AnthropicStream.Decode, AnthropicStream.BlockDelta, SaidByDelta, Get, IntOr, Emitted, Called;
      if Called(d.event, "content_block_delta") {
        var value := d.event.data.json;
        DeltaDecodes(s, d);
        DeltaSays(s, IntOr(Get(value, "index")), Get(value, "delta"), k);
      } else {
        OthersSay(s, d, k);
      }
    }
  }

  // ---- Responses --------------------------------------------------------------------------

  lemma {:induction false} KindsAreCalled(f: Event)
    requires IsObject(f)
    ensures var kind := ResponsesStream.KindOf(TypeName(f, f.data.json));
            && (kind.TextDeltaFrame? <==> Called(f, "response.output_text.delta"))
            && (kind.CallDeltaFrame? <==> Called(f, "response.function_call_arguments.delta"))
            && !(kind.TextDeltaFrame? && kind.CallDeltaFrame?)
  {
    hide Get;
  }

  lemma {:induction false} OnlyDeltasSay(s: ResponsesStream.State, d: Delivery, text: JsonText, k: Kind)
    requires IsObject(d.event)
    requires var kind := ResponsesStream.KindOf(TypeName(d.event, d.event.data.json));
             !kind.TextDeltaFrame? && !kind.CallDeltaFrame?
    ensures var step := ResponsesStream.Decode(s, d, text); step.Decoded? ==> Emitted(step.events, k) == ""
  {
    hide Get, ResponsesStream.Allocate, ResponsesStream.ItemKey, ResponsesStream.ContentKey, ResponsesStream.Capture,
         ResponsesStream.KindOf, TypeName, Emitted;
    var step := ResponsesStream.Decode(s, d, text);
    if step.Decoded? {
      StopsAddNothing(step.events, k);
    }
  }

  lemma {:induction false} GrowthSays(s: ResponsesStream.State, key: string, content: Content, arguments: string,
                                      k: Kind)
    ensures var step := ResponsesStream.Delta(s, key, content, arguments);
            step.Decoded? && Emitted(step.events, k) == Adds(ContentDelta(0, content, arguments), k)
  {
    var e := ResponsesStream.Delta(s, key, content, arguments).events[0];
    FewEmitted(e, e, k);
  }

  lemma {:induction false} GrowthDecodes(s: ResponsesStream.State, d: Delivery, text: JsonText)
    requires IsObject(d.event)
    ensures var value := d.event.data.json;
            var kind, said := ResponsesStream.KindOf(TypeName(d.event, value)), StringOr(Get(value, "delta"));
            && (kind.TextDeltaFrame? ==>
                  ResponsesStream.Decode(s, d, text) ==
                  ResponsesStream.Delta(s, ResponsesStream.ContentKey(value, text), TextContent(said), ""))
            && (kind.CallDeltaFrame? ==>
                  ResponsesStream.Decode(s, d, text) ==
                  ResponsesStream.Delta(s, ResponsesStream.ItemKey(value, Null), ToolCallContent("", "", Null), said))
  {
    hide Get, ResponsesStream.Delta, ResponsesStream.ItemKey, ResponsesStream.ContentKey, ResponsesStream.Capture,
         ResponsesStream.KindOf, TypeName;
  }

  // What a frame says where it is one of the two that grow a block, and where it is not.
  lemma {:induction false} SaidByGrowth(f: Event, k: Kind)
    requires IsObject(f)
    ensures var kind, said := ResponsesStream.KindOf(TypeName(f, f.data.json)), StringOr(Get(f.data.json, "delta"));
            SaidBy(OpenAIResponses, f, k) ==
            if kind.TextDeltaFrame? then Adds(ContentDelta(0, TextContent(said), ""), k)
            else if kind.CallDeltaFrame? then Adds(ContentDelta(0, ToolCallContent("", "", Null), said), k)
            else ""
  {
    KindsAreCalled(f);
    hide ResponsesStream.KindOf, TypeName, Called, Get;
  }

  lemma {:induction false} NothingRead(s: ResponsesStream.State, d: Delivery, text: JsonText, k: Kind)
    requires !IsObject(d.event)
    ensures var step := ResponsesStream.Decode(s, d, text); step.Decoded? ==> step.events == []
    ensures SaidBy(OpenAIResponses, d.event, k) == ""
  {
    hide ResponsesStream.KindOf, TypeName, Called;
  }

  lemma {:induction false} ResponsesSays(s: ResponsesStream.State, d: Delivery, text: JsonText, k: Kind)
    ensures var step := ResponsesStream.Decode(s, d, text);
            step.Decoded? ==> Emitted(step.events, k) == SaidBy(OpenAIResponses, d.event, k)
  {
    StopsAddNothing([], k);
    hide Emitted, Adds, SaidBy, ResponsesStream.KindOf, TypeName, Get, ResponsesStream.ItemKey,
         ResponsesStream.ContentKey, ResponsesStream.Delta, ResponsesStream.Decode;
    if IsObject(d.event) {
      var value := d.event.data.json;
      SaidByGrowth(d.event, k);
      GrowthDecodes(s, d, text);
      var kind, said := ResponsesStream.KindOf(TypeName(d.event, value)), StringOr(Get(value, "delta"));
      if kind.TextDeltaFrame? {
        GrowthSays(s, ResponsesStream.ContentKey(value, text), TextContent(said), "", k);
      } else if kind.CallDeltaFrame? {
        GrowthSays(s, ResponsesStream.ItemKey(value, Null), ToolCallContent("", "", Null), said, k);
      } else {
        OnlyDeltasSay(s, d, text, k);
      }
    } else {
      NothingRead(s, d, text, k);
    }
  }

  // ---- Chat -------------------------------------------------------------------------------

  lemma {:induction false} TextSays(s: ChatStream.State, said: string, k: Kind)
    ensures Emitted(ChatStream.TextPart(s, said).events, k) == if k.Texts? then said else ""
  {
    FewEmitted(ContentStart(s.nextBlock, TextContent("")), ContentDelta(s.nextBlock, TextContent(said), ""), k);
    FewEmitted(ContentDelta(s.textIndex, TextContent(said), ""), ContentStop(0), k);
    hide Emitted;
    assert "" + said == said;
  }

  lemma {:induction false} ReasoningSays(s: ChatStream.State, said: string, k: Kind)
    ensures Emitted(ChatStream.ReasoningPart(s, said).events, k) == if k.Thoughts? then said else ""
  {
    var events := ChatStream.ReasoningPart(s, said).events;
    if events == [] {
      FewEmitted(ContentStop(0), ContentStop(0), k);
    } else {
      FewEmitted(events[0], events[|events| - 1], k);
      hide Emitted;
      assert if |events| == 1 then events == [events[0]] else events == [events[0], events[1]];
      assert "" + said == said;
    }
  }

  lemma {:induction false} CallSays(s: ChatStream.State, call: Json, k: Kind)
    ensures Emitted(ChatStream.ToolPart(s, call).events, k) ==
            if k.Arguments? then StringOr(Get(Get(call, "function"), "arguments")) else ""
  {
    hide Get, IntOr;
    var events, key := ChatStream.ToolPart(s, call).events, IntOr(Get(call, "index"));
    var said := StringOr(Get(Get(call, "function"), "arguments"));
    if said == "" {
      StopsAddNothing(events, k);
    } else {
      var last := events[|events| - 1];
      assert events == events[..|events| - 1] + [last];
      OpenedAdds(events[..|events| - 1], last, k);
    }
  }

  lemma {:induction false} CallsSay(s: ChatStream.State, calls: seq<Json>, k: Kind)
    ensures Emitted(ChatStream.ToolParts(s, calls).events, k) == if k.Arguments? then SaidByCalls(calls) else ""
  {
    hide ChatStream.ToolPart, Get, Emitted;
    if calls == [] {
      FewEmitted(ContentStop(0), ContentStop(0), k);
    } else {
      var n := |calls| - 1;
      var before := ChatStream.ToolParts(s, calls[..n]);
      CallsSay(s, calls[..n], k);
      CallSays(before.state, calls[n], k);
      EmittedConcat(before.events, ChatStream.ToolPart(before.state, calls[n]).events, k);
    }
  }

  lemma {:induction false} ChoiceSays(s: ChatStream.State, choice: Json, k: Kind)
    ensures Emitted(ChatStream.Choice(s, choice).events, k) == SaidByChoice(choice, k)
  {
    hide ChatStream.TextPart, ChatStream.ReasoningPart, ChatStream.ToolParts, Get, Emitted, SaidByCalls;
    var delta := Get(choice, "delta");
    var a := ChatStream.TextPart(s, StringOr(Get(delta, "content")));
    var b := ChatStream.ReasoningPart(a.state, StringOr(Get(delta, "reasoning_content")));
    var c := ChatStream.ToolParts(b.state, ChatStream.Items(Get(delta, "tool_calls")));
    TextSays(s, StringOr(Get(delta, "content")), k);
    ReasoningSays(a.state, StringOr(Get(delta, "reasoning_content")), k);
    CallsSay(b.state, ChatStream.Items(Get(delta, "tool_calls")), k);
    EmittedConcat(a.events, b.events, k);
    EmittedConcat(a.events + b.events, c.events, k);
    var said := SaidByChoice(choice, k);
    assert said + "" == said && "" + said == said;
  }

  lemma {:induction false} ChoicesSay(s: ChatStream.State, choices: seq<Json>, k: Kind)
    ensures Emitted(ChatStream.Choices(s, choices).events, k) == SaidByChoices(choices, k)
  {
    hide ChatStream.Choice, SaidByChoice, Emitted;
    if choices == [] {
      FewEmitted(ContentStop(0), ContentStop(0), k);
    } else {
      var n := |choices| - 1;
      var before := ChatStream.Choices(s, choices[..n]);
      ChoicesSay(s, choices[..n], k);
      ChoiceSays(before.state, choices[n], k);
      EmittedConcat(before.events, ChatStream.Choice(before.state, choices[n]).events, k);
    }
  }

  lemma {:induction false} ChunkSays(s: ChatStream.State, value: Json, k: Kind)
    ensures Emitted(ChatStream.Chunk(s, value).events, k) == SaidByChoices(ItemsOf(Get(value, "choices")), k)
  {
    hide ChatStream.Choices, ChatStream.Header, SaidByChoices, Get, Emitted;
    var t := ChatStream.Header(s, value);
    var started := if t.started then [] else [Start(t.id, t.model, None)];
    var body := ChatStream.Choices(t.(started := true), ItemsOf(Get(value, "choices")));
    ChoicesSay(t.(started := true), ItemsOf(Get(value, "choices")), k);
    StopsAddNothing(started, k);
    EmittedConcat(started, body.events, k);
    assert "" + Emitted(body.events, k) == Emitted(body.events, k);
  }

  lemma {:induction false} ClosingAdds(s: ChatStream.State, walk: seq<int>)
    ensures forall e :: e in ChatStream.CloseKeyed(s, walk).events ==> e.ContentStop?
  {
    if walk != [] {
      ClosingAdds(s, walk[..|walk| - 1]);
    }
  }

  lemma {:induction false} EndingSays(s: ChatStream.State, walk: seq<int>, k: Kind)
    ensures Emitted(ChatStream.CloseBlocks(s, walk).events + [ChatStream.Ending(s)], k) == ""
  {
    hide ChatStream.CloseKeyed;
    ClosingAdds(s.(textOpen := false), walk);
    StopsAddNothing(ChatStream.CloseBlocks(s, walk).events + [ChatStream.Ending(s)], k);
  }

  lemma {:induction false} ChatSays(s: ChatStream.State, d: Delivery, k: Kind)
    ensures var step := ChatStream.Decode(s, d);
            step.Decoded? ==> Emitted(step.events, k) == SaidBy(OpenAIChat, d.event, k)
  {
    hide ChatStream.Chunk, ChatStream.CloseBlocks, SaidByChoices, Get;
    if d.event.data.DoneMark? {
      EndingSays(s.(done := true), d.walk, k);
    } else if Unmarshal(d.event.data).Some? {
      ChunkSays(s, Unmarshal(d.event.data).value, k);
    }
  }

  ghost predicate AllOf(es: seq<StreamEvent>, kind: ContentType) {
    forall e :: e in es ==> (e.ContentStart? || e.ContentDelta?) && e.content.kind == kind
  }

  lemma {:induction false} CallsAreCalls(s: ChatStream.State, calls: seq<Json>)
    ensures AllOf(ChatStream.ToolParts(s, calls).events, ToolCallType)
  {
    hide Get, IntOr;
    if calls != [] {
      CallsAreCalls(s, calls[..|calls| - 1]);
    }
  }

  /** A choice tells its text first, then its reasoning, then its calls. */
  lemma {:induction false} ChoiceTellsInOrder(s: ChatStream.State, choice: Json)
    returns (texts: seq<StreamEvent>, thoughts: seq<StreamEvent>, calls: seq<StreamEvent>)
    ensures ChatStream.Choice(s, choice).events == texts + thoughts + calls
    ensures AllOf(texts, TextType) && AllOf(thoughts, ReasoningType) && AllOf(calls, ToolCallType)
  {
    hide Get, ChatStream.ToolParts;
    var delta := Get(choice, "delta");
    var a := ChatStream.TextPart(s, StringOr(Get(delta, "content")));
    var b := ChatStream.ReasoningPart(a.state, StringOr(Get(delta, "reasoning_content")));
    texts, thoughts := a.events, b.events;
    calls := ChatStream.ToolParts(b.state, ItemsOf(Get(delta, "tool_calls"))).events;
    CallsAreCalls(b.state, ItemsOf(Get(delta, "tool_calls")));
  }

  // ---- A run ------------------------------------------------------------------------------

  lemma {:induction false} FrameSays(s: DecoderState, p: Protocol, d: Delivery, text: JsonText, k: Kind)
    requires Speaks(s, p)
    ensures var step := Decode(s, d, text); step.Decoded? ==> Emitted(step.events, k) == SaidBy(p, d.event, k)
  {
    hide SaidBy, ChatStream.Decode, ResponsesStream.Decode, AnthropicStream.Decode, Emitted;
    match s
    case ChatDecoder(c) => ChatSays(c, d, k);
    case ResponsesDecoder(r) => ResponsesSays(r, d, text, k);
    case AnthropicDecoder(a) => AnthropicSays(a, d, k);
  }

  lemma {:induction false} FinishSays(s: DecoderState, last: seq<int>, k: Kind)
    ensures Emitted(Finish(s, last), k) == ""
  {
    hide ChatStream.CloseBlocks;
    match s
    case ChatDecoder(c) => if c.done { StopsAddNothing([], k); } else { EndingSays(c, last, k); }
    case _ => StopsAddNothing(Finish(s, last), k);
  }

  /**
   * What the frames of an accepted stream say is what the decoder emits: all text, all reasoning and all
   * arguments, each in the order of the frames, nothing lost, doubled or taken for another kind.
   */
  lemma {:induction false} FramesAreEmitted(p: Protocol, ds: seq<Delivery>, last: seq<int>, text: JsonText, k: Kind)
    ensures var run := Run(Initial(p), ds, text);
            run.Decoded? ==>
              Emitted(run.events, k) == Said(p, Events(ds), k)
              && Emitted(run.events + Finish(run.state, last), k) == Said(p, Events(ds), k)
  {
    hide Decode, SaidBy, Finish, Emitted;
    var run := Run(Initial(p), ds, text);
    if ds == [] {
      StopsAddNothing([], k);
    } else {
      var n := |ds| - 1;
      var before := Run(Initial(p), ds[..n], text);
      FramesAreEmitted(p, ds[..n], last, text, k);
      AcceptedExactly(p, ds[..n], text);
      assert Events(ds) == Events(ds[..n]) + [ds[n].event];
      if run.Decoded? {
        FrameSays(before.state, p, ds[n], text, k);
        EmittedConcat(before.events, Decode(before.state, ds[n], text).events, k);
      }
    }
    if run.Decoded? {
      FinishSays(run.state, last, k);
      EmittedConcat(run.events, Finish(run.state, last), k);
      assert Emitted(run.events, k) + "" == Emitted(run.events, k);
    }
  }
}
