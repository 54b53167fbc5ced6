/** Printing a run as a chat stream, decoding it and collecting it, whatever order the tool map is walked in. */
module ChatRoundTrip {
  import opened Canonical
  import opened ChatStream
  import opened Collector
  import opened Json
  import opened OrderlyRuns
  import opened RoundTrips
  import opened Sequences
  import opened StopReasons
  import opened StreamTypes
  import opened Streams
  import opened Walks
  import opened Wrappers
  import Bracketing
  import ChatBracketing

  // ---- What a chat stream carries ---------------------------------------------------------

  // Everything printed as text: neither calls nor reasoning.
  function JoinedText(contents: seq<Content>): string {
    if contents == [] then ""
    else
      var n := |contents| - 1;
      JoinedText(contents[..n]) + (if Portable(contents[n]).kind == TextType then contents[n].text else "")
  }

  function JoinedReasoning(contents: seq<Content>): string {
    if contents == [] then ""
    else
      var n := |contents| - 1;
      JoinedReasoning(contents[..n]) + (if contents[n].kind == ReasoningType then contents[n].text else "")
  }

  // The calls, with id, name and arguments, in no particular order.
  function Calls(contents: seq<Content>): multiset<Content> {
    if contents == [] then multiset{}
    else
      var n := |contents| - 1;
      Calls(contents[..n]) + (if contents[n].kind == ToolCallType then multiset{Portable(contents[n])} else multiset{})
  }

  /** What a run tells of text and reasoning in arrival order, and its calls by the index of their block. */
  datatype Books = Books(text: string, thoughts: string, calls: map<int, Block>)

  function Tell(b: Books, e: StreamEvent): Books {
    match e
    case ContentStart(index, c) =>
      if c.kind != ToolCallType then b
      else b.(calls := b.calls[index := Block(ToolCallContent(c.id, c.name, EMPTY_OBJECT), "")])
    case ContentDelta(index, c, argumentsDelta) =>
      (match c.kind
       case ToolCallType =>
         if index !in b.calls then b
         else b.(calls := b.calls[index := b.calls[index].(arguments := b.calls[index].arguments + argumentsDelta)])
       case ReasoningType => b.(thoughts := b.thoughts + c.text)
       case _ => b.(text := b.text + c.text))
    case _ => b
  }

  function Told(es: seq<StreamEvent>): Books {
    if es == [] then Books("", "", map[]) else Tell(Told(es[..|es| - 1]), es[|es| - 1])
  }

  // The calls with their arguments parsed.
  function Finished(b: Books, text: JsonText): map<int, Content> {
    map k | k in b.calls :: Collector.Closed(b.calls[k], text)
  }

  lemma {:induction false} ToldOneMore(es: seq<StreamEvent>, e: StreamEvent)
    ensures Told(es + [e]) == Tell(Told(es), e)
  {
    assert (es + [e])[..|es|] == es;
  }

  // The contents of some keys, added up.
  function CallsAt(m: map<int, Content>, n: nat, keys: set<int>): multiset<Content> {
    if n == 0 then multiset{} else CallsAt(m, n - 1, keys) + (if n - 1 in keys then CallAt(m, n - 1) else multiset{})
  }

  function CallAt(m: map<int, Content>, k: int): multiset<Content> {
    if k in m then multiset{m[k]} else multiset{}
  }

  lemma {:induction false} CallsAtOneMore(m: map<int, Content>, n: nat, keys: set<int>, k: int)
    requires k !in keys
    ensures CallsAt(m, n, keys + {k}) == CallsAt(m, n, keys) + (if 0 <= k < n then CallAt(m, k) else multiset{})
    decreases n
  {
    hide CallsAt, CallAt;
    var wider := keys + {k};
    if n == 0 {
      NoCallsAt(m, keys);
      NoCallsAt(m, wider);
    } else {
      CallsAtOneMore(m, n - 1, keys, k);
      CallsAtStep(m, n, keys);
      CallsAtStep(m, n, wider);
      Swap(CallsAt(m, n - 1, keys), if 0 <= k < n - 1 then CallAt(m, k)
           else multiset{}, if n - 1 in wider then CallAt(m, n - 1) else multiset{});
      NothingAdded(CallsAt(m, n - 1, keys));
    }
  }

  lemma {:induction false} NoCallsAt(m: map<int, Content>, keys: set<int>)
    ensures CallsAt(m, 0, keys) == multiset{}
  {
  }

  lemma {:induction false} CallsAtStep(m: map<int, Content>, n: nat, keys: set<int>)
    requires 0 < n
    ensures CallsAt(m, n, keys) == CallsAt(m, n - 1, keys) + (if n - 1 in keys then CallAt(m, n - 1) else multiset{})
  {
  }

  lemma {:induction false} Swap(a: multiset<Content>, b: multiset<Content>, c: multiset<Content>)
    ensures a + b + c == a + c + b
  {
  }

  lemma {:induction false} NothingAdded(calls: multiset<Content>)
    ensures calls + multiset{} == calls
  {
  }

  lemma {:induction false} CallsAtNone(m: map<int, Content>, n: nat)
    ensures CallsAt(m, n, {}) == multiset{}
  {
    if n > 0 {
      CallsAtNone(m, n - 1);
    }
  }

  // What is added up depends on the keys and their contents only.
  lemma {:induction false} CallsAtSame(m: map<int, Content>, p: map<int, Content>, n: nat, keys: set<int>,
                                       others: set<int>)
    requires forall k :: 0 <= k < n ==> (k in keys && k in m <==> k in others && k in p)
    requires forall k :: 0 <= k < n && k in keys && k in m ==> m[k] == p[k]
    ensures CallsAt(m, n, keys) == CallsAt(p, n, others)
  {
    if n > 0 {
      CallsAtSame(m, p, n - 1, keys, others);
    }
  }

  // ---- Printed frames ---------------------------------------------------------------------

  // A response that has the id and the model only: all that a chunk shows.
  function Heading(r: Response): Response {
    Response(r.id, r.model, [], "", None)
  }

  // ---- Decoding the frames ----------------------------------------------------------------

  // The state once a chunk's id and model are noted.
  function Headed(s: State, r: Response, generated: string): State {
    s.(started := true, id := EnsureID(r.id, "chatcmpl", generated), model := r.model)
  }

  // The first chunk starts the stream.
  function Starts(s: State, r: Response, generated: string): seq<StreamEvent> {
    if s.started then [] else [Start(EnsureID(r.id, "chatcmpl", generated), r.model, None)]
  }

  lemma {:induction false} DecodesDelta(s: State, d: Delivery, r: Response, generated: string, delta: map<string, Json>)
    requires d.event == DeltaFrame(r, generated, delta)
    ensures var step := Choice(Headed(s, r, generated), ChoiceObject(delta, Null));
            ChatStream.Decode(s, d) == Decoded(step.state, Starts(s, r, generated) + step.events)
  {
    hide Choice, EnsureID, ChoiceObject;
    var choice := ChoiceObject(delta, Null);
    var t := Headed(s, r, generated);
    assert Header(s, d.event.data.json).(started := true) == t;
    assert [choice][..0] == [];
    assert Choices(t, [choice]) == Step(Choice(t, choice).state, [] + Choice(t, choice).events);
    assert [] + Choice(t, choice).events == Choice(t, choice).events;
  }

  lemma {:induction false} TextChoice(s: State, t: string)
    ensures Choice(s, ChoiceObject(map["content" := Str(t)], Null)) == TextPart(s, t)
  {
    var step := TextPart(s, t);
    assert step.events + [] + [] == step.events;
  }

  lemma {:induction false} ReasoningChoice(s: State, t: string)
    ensures Choice(s, ChoiceObject(map["reasoning_content" := Str(t)], Null)) == ReasoningPart(s, t)
  {
    var step := ReasoningPart(s, t);
    assert [] + step.events + [] == step.events;
  }

  lemma {:induction false} CallChoice(s: State, call: Json)
    ensures Choice(s, ChoiceObject(map["tool_calls" := Arr([call])], Null)) == ToolPart(s, call)
  {
    hide ToolPart;
    var step := ToolPart(s, call);
    assert [call][..0] == [];
    assert ToolParts(s, [call]) == Step(step.state, [] + step.events);
    assert [] + [] + ([] + step.events) == step.events;
  }

  lemma {:induction false} RoleChoice(s: State)
    ensures Choice(s, ChoiceObject(map["role" := Str("assistant"), "content" := Str("")], Null)) == Step(s, [])
  {
  }

  // ---- The books of the decoder -----------------------------------------------------------

  // The collected block of a key, and of the open text.
  function KeyEntry(s: State, z: Collected, key: int): Option<Block> {
    if key in s.toolIndexes && s.toolIndexes[key] in z.blocks then Some(z.blocks[s.toolIndexes[key]]) else None
  }

  function TextEntry(s: State, z: Collected): Option<Block> {
    if s.textOpen && s.textIndex in z.blocks then Some(z.blocks[s.textIndex]) else None
  }

  // Distinct blocks below nextBlock, all known to the collector.
  ghost predicate Keyed(s: State, z: Collected) {
    && 0 <= s.nextBlock && ChatBracketing.Injective(s.toolIndexes)
    && (s.textOpen ==> 0 <= s.textIndex < s.nextBlock && s.textIndex in z.blocks)
    && (forall k :: k in s.toolIndexes ==>
          0 <= s.toolIndexes[k] < s.nextBlock && s.toolIndexes[k] in s.open && s.toolIndexes[k] in z.blocks)
    && (s.textOpen ==> forall k :: k in s.toolIndexes ==> s.toolIndexes[k] != s.textIndex)
  }

  // Everything a stream has said before its end besides content.
  ghost predicate Quiet(s: State, z: Collected) {
    !s.done && s.stopReason == "" && s.usage == None && z.response.content == [] && z.response.usage == None
  }

  function ExpectedText(b: Books): Option<Block> {
    if b.text == "" then None else Some(Block(TextContent(b.text), ""))
  }

  function ExpectedKey(b: Books, key: int): Option<Block> {
    if key == REASONING_KEY then if b.thoughts == "" then None else Some(Block(ReasoningContent(b.thoughts), ""))
    else if key in b.calls then Some(b.calls[key])
    else None
  }

  ghost predicate Matches(b: Books, s: State, z: Collected) {
    && Keyed(s, z) && z.response.content == [] && (forall k :: k in b.calls ==> 0 <= k)
    && TextEntry(s, z) == ExpectedText(b)
    && forall k :: KeyEntry(s, z, k) == ExpectedKey(b, k)
  }

  ghost predicate Between(b: Books, s: State, z: Collected) {
    Quiet(s, z) && Matches(b, s, z)
  }

  lemma {:induction false} HeadedKeeps(b: Books, s: State, z: Collected, r: Response, generated: string, text: JsonText)
    requires Between(b, s, z)
    ensures var t, y := Headed(s, r, generated), ApplyAll(z, Starts(s, r, generated), text);
            Between(b, t, y) && y.response.model == if s.started then z.response.model else r.model
  {
    hide EnsureID;
    var t := Headed(s, r, generated);
    assert forall k :: KeyEntry(t, z, k) == KeyEntry(s, z, k);
    if !s.started {
      var start := Starts(s, r, generated)[0];
      ApplyOne(z, start, text);
      var y := Apply(z, start, text);
      assert forall k :: KeyEntry(t, y, k) == KeyEntry(s, z, k);
    }
  }

  lemma {:induction false} ApplyTwo(c: Collected, d: StreamEvent, e: StreamEvent, text: JsonText)
    ensures ApplyAll(c, [d, e], text) == Apply(Apply(c, d, text), e, text)
  {
    assert [d, e][..1] == [d];
    ApplyOne(c, d, text);
  }

  lemma {:induction false} OneMore(contents: seq<Content>, c: Content)
    ensures var more := contents + [c];
            && JoinedText(more) == JoinedText(contents) + (if Portable(c).kind == TextType then c.text else "")
            && JoinedReasoning(more) == JoinedReasoning(contents) + (if c.kind == ReasoningType then c.text else "")
            && Calls(more) == Calls(contents) + (if c.kind == ToolCallType then multiset{Portable(c)} else multiset{})
  {
    assert (contents + [c])[..|contents|] == contents;
  }

  // Opening a block under a fresh key touches no other block.
  lemma {:induction false} OpensKey(s: State, z: Collected, key: int, content: Content, text: JsonText)
    requires Keyed(s, z) && key !in s.toolIndexes
    ensures var t := OpenKeyed(s, key, content).state;
            var y := Apply(z, ContentStart(s.nextBlock, content), text);
            && Keyed(t, y) && TextEntry(t, y) == TextEntry(s, z)
            && forall k :: KeyEntry(t, y, k) == if k == key then Some(Block(content, "")) else KeyEntry(s, z, k)
  {
  }

  // A delta to a keyed block grows that block only.
  lemma {:induction false} GrowsKey(s: State, z: Collected, key: int, content: Content, argumentsDelta: string,
                                    text: JsonText)
    requires Keyed(s, z) && key in s.toolIndexes
    ensures var e := ContentDelta(s.toolIndexes[key], content, argumentsDelta);
            var y := Apply(z, e, text);
            && Keyed(s, y) && TextEntry(s, y) == TextEntry(s, z)
            && forall k :: KeyEntry(s, y, k) == if k == key then Some(Grow(KeyEntry(s, z, key).value, e))
                else KeyEntry(s, z, k)
  {
    hide Grow;
  }

  lemma {:induction false} TextGrows(s: State, z: Collected, t: string, text: JsonText)
    requires Keyed(s, z) && t != ""
    ensures var step := TextPart(s, t);
            var y := ApplyAll(z, step.events, text);
            && Keyed(step.state, y) && y.response == z.response
            && TextEntry(step.state, y) ==
               (if s.textOpen then Some(Grow(z.blocks[s.textIndex], ContentDelta(s.textIndex, TextContent(t), "")))
                else Some(Block(TextContent(t), "")))
            && forall k :: KeyEntry(step.state, y, k) == KeyEntry(s, z, k)
  {
    if s.textOpen {
      ApplyOne(z, ContentDelta(s.textIndex, TextContent(t), ""), text);
    } else {
      assert "" + t == t;
      ApplyTwo(z, ContentStart(s.nextBlock, TextContent("")), ContentDelta(s.nextBlock, TextContent(t), ""), text);
    }
  }

  lemma {:induction false} TextItem(b: Books, e: StreamEvent, s: State, z: Collected, text: JsonText)
    requires Between(b, s, z) && e.ContentDelta? && WireKind(e.content.kind) == TextType
    ensures var step := TextPart(s, e.content.text);
            Between(Tell(b, e), step.state, ApplyAll(z, step.events, text))
  {
    var before, t := b.text, e.content.text;
    assert s.textOpen <==> before != "";
    hide Keyed, KeyEntry;
    assert before + "" == before && "" + t == t;
    assert forall k :: ExpectedKey(Tell(b, e), k) == ExpectedKey(b, k);
    if t != "" {
      TextGrows(s, z, t, text);
    }
  }

  lemma {:induction false} ReasoningGrows(s: State, z: Collected, t: string, text: JsonText)
    requires Keyed(s, z) && t != ""
    ensures var step := ReasoningPart(s, t);
            var y := ApplyAll(z, step.events, text);
            && Keyed(step.state, y) && y.response == z.response && TextEntry(step.state, y) == TextEntry(s, z)
            && step.state == s.(nextBlock := step.state.nextBlock, toolIndexes := step.state.toolIndexes,
                                open := step.state.open)
            && forall k :: KeyEntry(step.state, y, k) ==
                           if k != REASONING_KEY then KeyEntry(s, z, k)
                           else if REASONING_KEY in s.toolIndexes then
                             Some(Grow(KeyEntry(s, z, k).value,
                                       ContentDelta(s.toolIndexes[k], ReasoningContent(t), "")))
                           else Some(Block(ReasoningContent(t), ""))
  {
    hide Keyed, KeyEntry, TextEntry;
    if REASONING_KEY in s.toolIndexes {
      var delta := ContentDelta(s.toolIndexes[REASONING_KEY], ReasoningContent(t), "");
      assert ReasoningPart(s, t).events == [delta];
      ApplyOne(z, delta, text);
      GrowsKey(s, z, REASONING_KEY, ReasoningContent(t), "", text);
    } else {
      var opening, delta := ContentStart(s.nextBlock, ReasoningContent("")),
          ContentDelta(s.nextBlock, ReasoningContent(t), "");
      assert ReasoningPart(s, t).events == [opening, delta];
      ApplyTwo(z, opening, delta, text);
      OpensKey(s, z, REASONING_KEY, ReasoningContent(""), text);
      var u := OpenKeyed(s, REASONING_KEY, ReasoningContent("")).state;
      GrowsKey(u, Apply(z, opening, text), REASONING_KEY, ReasoningContent(t), "", text);
      assert "" + t == t;
    }
  }

  // What a reasoning fragment adds to what is expected.
  lemma {:induction false} ExpectReasoning(b: Books, e: StreamEvent, index: int)
    requires e.ContentDelta? && e.content.kind == ReasoningType
    ensures ExpectedText(Tell(b, e)) == ExpectedText(b)
    ensures forall k :: k != REASONING_KEY ==> ExpectedKey(Tell(b, e), k) == ExpectedKey(b, k)
    ensures var before, after, t := ExpectedKey(b, REASONING_KEY), ExpectedKey(Tell(b, e), REASONING_KEY),
            e.content.text;
            if t == "" then after == before
            else if before.Some? then after == Some(Grow(before.value, ContentDelta(index, ReasoningContent(t), "")))
            else after == Some(Block(ReasoningContent(t), ""))
  {
    assert b.thoughts + "" == b.thoughts && "" + e.content.text == e.content.text;
  }

  lemma {:induction false} ReasoningItem(b: Books, e: StreamEvent, s: State, z: Collected, text: JsonText)
    requires Between(b, s, z) && e.ContentDelta? && e.content.kind == ReasoningType
    ensures var step := ReasoningPart(s, e.content.text);
            Between(Tell(b, e), step.state, ApplyAll(z, step.events, text))
  {
    assert KeyEntry(s, z, REASONING_KEY) == ExpectedKey(b, REASONING_KEY);
    assert REASONING_KEY in s.toolIndexes <==> KeyEntry(s, z, REASONING_KEY).Some?;
    assert Tell(b, e).calls == b.calls;
    var index := if REASONING_KEY in s.toolIndexes then s.toolIndexes[REASONING_KEY] else 0;
    ExpectReasoning(b, e, index);
    if e.content.text == "" {
      assert Tell(b, e) == b by {
        assert b.thoughts + "" == b.thoughts;
      }
    } else {
      hide Keyed, KeyEntry, TextEntry, ExpectedKey, ExpectedText, Grow, Tell, ReasoningPart, ApplyAll;
      ReasoningGrows(s, z, e.content.text, text);
    }
  }

  lemma {:induction false} StartOfCall(s: State, key: int, id: string, name: string)
    requires key !in s.toolIndexes
    ensures ToolPart(s, CallStart(key, id, name)) == OpenKeyed(s, key, ToolCallContent(id, name, EMPTY_OBJECT))
  {
  }

  lemma {:induction false} RestOfCall(s: State, key: int, arguments: string)
    requires key in s.toolIndexes
    ensures ToolPart(s, CallDelta(key, arguments)) ==
            Step(s, if arguments == "" then []
                 else [ContentDelta(s.toolIndexes[key], ToolCallContent("", "", Null), arguments)])
  {
  }

  lemma {:induction false} CallStartItem(b: Books, e: StreamEvent, s: State, z: Collected, text: JsonText)
    requires Between(b, s, z) && e.ContentStart? && e.content.kind == ToolCallType && 0 <= e.index
             && e.index !in b.calls
    ensures var step := ToolPart(s, CallStart(e.index, e.content.id, e.content.name));
            Between(Tell(b, e), step.state, ApplyAll(z, step.events, text))
  {
    var opening := ContentStart(s.nextBlock, ToolCallContent(e.content.id, e.content.name, EMPTY_OBJECT));
    assert KeyEntry(s, z, e.index) == None;
    assert e.index !in s.toolIndexes;
    hide Keyed, KeyEntry, CallStart, ToolPart;
    StartOfCall(s, e.index, e.content.id, e.content.name);
    ApplyOne(z, opening, text);
    OpensKey(s, z, e.index, opening.content, text);
  }

  lemma {:induction false} CallDeltaItem(b: Books, e: StreamEvent, s: State, z: Collected, text: JsonText)
    requires Between(b, s, z) && e.ContentDelta? && e.content.kind == ToolCallType && e.index in b.calls
    ensures var step := ToolPart(s, CallDelta(e.index, e.argumentsDelta));
            Between(Tell(b, e), step.state, ApplyAll(z, step.events, text))
  {
    var key, arguments := e.index, e.argumentsDelta;
    assert KeyEntry(s, z, key) == ExpectedKey(b, key);
    assert key in s.toolIndexes;
    RestOfCall(s, key, arguments);
    hide Keyed, KeyEntry, TextEntry, ToolPart, CallDelta;
    assert b.calls[key].arguments + "" == b.calls[key].arguments;
    if arguments == "" {
      assert Tell(b, e).calls == b.calls;
    } else {
      var delta := ContentDelta(s.toolIndexes[key], ToolCallContent("", "", Null), arguments);
      ApplyOne(z, delta, text);
      GrowsKey(s, z, key, ToolCallContent("", "", Null), arguments, text);
      hide ApplyAll;
    }
  }

  // ---- One event at a time ----------------------------------------------------------------

  ghost predicate InStep(es: seq<StreamEvent>, s: State, fs: seq<StreamEvent>, text: JsonText) {
    var z := ApplyAll(EMPTY, fs, text);
    && Between(Told(es), s, z) && Told(es).calls.Keys <= Noted(es).started
    && (forall i :: i in Noted(es).open && Noted(es).open[i] == ToolCallType ==> i in Told(es).calls)
    && (s.started ==> Noted(es).begun || Noted(es).started != {}) && (!s.started ==> !Noted(es).begun)
    && z.response.model == ApplyAll(EMPTY, es, text).response.model
  }

  // The decoder's answer to the frames of one event keeps it in step.
  ghost predicate KeepsStep(es: seq<StreamEvent>, s: State, fs: seq<StreamEvent>, e: StreamEvent, ds: seq<Delivery>,
                            text: JsonText) {
    var run := Run(ChatDecoder(s), ds, text);
    run.Decoded? && run.state.ChatDecoder? && InStep(es + [e], run.state.chat, fs + run.events, text)
  }

  predicate IsContent(e: StreamEvent) {
    e.ContentStart? || e.ContentDelta? || e.ContentStop?
  }

  lemma {:induction false} ContentKeepsHeading(z: Collected, es: seq<StreamEvent>, text: JsonText)
    requires forall e :: e in es ==> IsContent(e)
    ensures Heading(ApplyAll(z, es, text).response) == Heading(z.response)
    ensures ApplyAll(z, es, text).response.usage == z.response.usage
    ensures ApplyAll(z, es, text).response.stopReason == z.response.stopReason
  {
    hide Grow, Closed;
    if es != [] {
      var n := |es| - 1;
      ContentKeepsHeading(z, es[..n], text);
      assert es[n] in es;
    }
  }

  lemma {:induction false} PartsAreContent(s: State, t: string, call: Json)
    ensures forall e :: e in TextPart(s, t).events ==> IsContent(e)
    ensures forall e :: e in ReasoningPart(s, t).events ==> IsContent(e)
    ensures forall e :: e in ToolPart(s, call).events ==> IsContent(e)
    ensures ToolPart(s, call).state.started == s.started
  {
  }

  // Content events leave the collected model, the books keep count of the calls.
  lemma {:induction false} RunOneMore(es: seq<StreamEvent>, e: StreamEvent, text: JsonText)
    requires Allowed(Noted(es), e)
    requires Told(es).calls.Keys <= Noted(es).started
    requires forall i :: i in Noted(es).open && Noted(es).open[i] == ToolCallType ==> i in Told(es).calls
    ensures Told(es + [e]) == Tell(Told(es), e) && Noted(es + [e]) == Note(Noted(es), e)
    ensures Told(es + [e]).calls.Keys <= Noted(es + [e]).started
    ensures forall i :: i in Noted(es + [e]).open && Noted(es + [e]).open[i] == ToolCallType ==>
            i in Told(es + [e]).calls
    ensures var before, after := ApplyAll(EMPTY, es, text).response.model,
            ApplyAll(EMPTY, es + [e], text).response.model;
            after == if e.Start? then e.model else before
  {
    hide Noted, Told, ApplyAll, Grow, Collector.Closed;
    ToldOneMore(es, e);
    OrderlyOneMore(es, e);
    CollectedOneMore(es, e, text);
  }

  // A run that has not begun has collected no model.
  lemma {:induction false} Unbegun(es: seq<StreamEvent>, text: JsonText)
    requires Orderly(es) && !Noted(es).begun && !Noted(es).ended
    ensures ApplyAll(EMPTY, es, text).response.model == ""
  {
    hide Grow, Collector.Closed;
    if es != [] {
      Unbegun(es[..|es| - 1], text);
    }
  }

  // An event printed as one chunk.
  lemma {:induction false} ChunkKeepsStep(es: seq<StreamEvent>, s: State, fs: seq<StreamEvent>, e: StreamEvent,
                                          ds: seq<Delivery>, r: Response, generated: string, delta: map<string, Json>,
                                          part: Step, text: JsonText)
    requires Orderly(es) && InStep(es, s, fs, text) && Allowed(Noted(es), e)
             && (e.Start? || e.ContentStart? || e.ContentDelta?)
    requires Events(ds) == [DeltaFrame(r, generated, delta)]
             && r.model == ApplyAll(EMPTY, es + [e], text).response.model
    requires Choice(Headed(s, r, generated), ChoiceObject(delta, Null)) == part
    requires (forall f :: f in part.events ==> IsContent(f)) && part.state.started
    requires Between(Told(es), Headed(s, r, generated),
                     ApplyAll(ApplyAll(EMPTY, fs, text), Starts(s, r, generated), text)) ==>
               Between(Tell(Told(es), e), part.state,
                       ApplyAll(ApplyAll(ApplyAll(EMPTY, fs, text), Starts(s, r, generated), text), part.events, text))
    ensures KeepsStep(es, s, fs, e, ds, text)
  {
    hide Orderly, Noted, Told, ApplyAll, Between, Choice, ChoiceObject, DeltaFrame, Headed, Starts, Run, Events, Tell;
    RunOneMore(es, e, text);
    var z, starts := ApplyAll(EMPTY, fs, text), Starts(s, r, generated);
    HeadedKeeps(Told(es), s, z, r, generated, text);
    OneDelivery(ds, Events(ds));
    DecodesDelta(s, ds[0], r, generated, delta);
    RunOne(ChatDecoder(s), ds[0], text);
    var y := ApplyAll(z, starts, text);
    ApplyAllConcat(EMPTY, fs, starts + part.events, text);
    ApplyAllConcat(z, starts, part.events, text);
    ContentKeepsHeading(y, part.events, text);
    OpenWasStarted(es);
    if !Noted(es).begun && !e.Start? {
      Unbegun(es, text);
    }
  }

  // An event that is not printed and says nothing.
  lemma {:induction false} SilentKeepsStep(es: seq<StreamEvent>, s: State, fs: seq<StreamEvent>, e: StreamEvent,
                                           ds: seq<Delivery>, text: JsonText)
    requires InStep(es, s, fs, text) && Allowed(Noted(es), e) && Events(ds) == []
    requires e.ContentStop? || (e.ContentStart? && e.content.kind != ToolCallType)
    ensures KeepsStep(es, s, fs, e, ds, text)
  {
    hide Noted, Told, ApplyAll, Between, Run;
    RunOneMore(es, e, text);
    assert Tell(Told(es), e) == Told(es);
    assert |Events(ds)| == |ds|;
    RunNothing(ChatDecoder(s), text);
    var none: seq<StreamEvent> := [];
    assert fs + none == fs;
  }

  lemma {:induction false} DeltaKeepsStep(es: seq<StreamEvent>, s: State, fs: seq<StreamEvent>, e: StreamEvent,
                                          ds: seq<Delivery>, r: Response, generated: string, text: JsonText)
    requires Orderly(es) && InStep(es, s, fs, text) && Allowed(Noted(es), e) && e.ContentDelta?
    requires r.model == ApplyAll(EMPTY, es + [e], text).response.model
    requires Events(ds) == [DeltaFrame(r, generated,
                                       match e.content.kind
                                       case ToolCallType =>
                                         map["tool_calls" := Arr([CallDelta(e.index, e.argumentsDelta)])]
                                       case ReasoningType => map["reasoning_content" := Str(e.content.text)]
                                       case _ => map["content" := Str(e.content.text)])]
    ensures KeepsStep(es, s, fs, e, ds, text)
  {
    hide Orderly, Noted, Told, ApplyAll, Between, Choice, ChoiceObject, DeltaFrame, Run, Events, Tell, CallDelta,
         EnsureID, TextPart, ReasoningPart, ToolPart, KeepsStep, Starts;
    var b, t := Told(es), Headed(s, r, generated);
    var y := ApplyAll(ApplyAll(EMPTY, fs, text), Starts(s, r, generated), text);
    PartsAreContent(t, e.content.text, CallDelta(e.index, e.argumentsDelta));
    PartsStart(t, e.content.text);
    match e.content.kind
    case ToolCallType =>
      CallChoice(t, CallDelta(e.index, e.argumentsDelta));
      assert e.index in b.calls;
      if Between(b, t, y) {
        CallDeltaItem(b, e, t, y, text);
      }
      ChunkKeepsStep(es, s, fs, e, ds, r, generated, map["tool_calls" := Arr([CallDelta(e.index, e.argumentsDelta)])],
                     ToolPart(t, CallDelta(e.index, e.argumentsDelta)), text);
    case ReasoningType =>
      ReasoningChoice(t, e.content.text);
      if Between(b, t, y) {
        ReasoningItem(b, e, t, y, text);
      }
      ChunkKeepsStep(es, s, fs, e, ds, r, generated, map["reasoning_content" := Str(e.content.text)],
                     ReasoningPart(t, e.content.text), text);
    case _ =>
      TextChoice(t, e.content.text);
      if Between(b, t, y) {
        TextItem(b, e, t, y, text);
      }
      ChunkKeepsStep(es, s, fs, e, ds, r, generated, map["content" := Str(e.content.text)],
                     TextPart(t, e.content.text), text);
  }

  lemma {:induction false} PartsStart(s: State, t: string)
    ensures TextPart(s, t).state.started == s.started && ReasoningPart(s, t).state.started == s.started
  {
  }

  lemma {:induction false} CallKeepsStep(es: seq<StreamEvent>, s: State, fs: seq<StreamEvent>, e: StreamEvent,
                                         ds: seq<Delivery>, r: Response, generated: string, text: JsonText)
    requires Orderly(es) && InStep(es, s, fs, text) && Allowed(Noted(es), e) && e.ContentStart?
             && e.content.kind == ToolCallType
    requires r.model == ApplyAll(EMPTY, es + [e], text).response.model
    requires Events(ds) == [DeltaFrame(r, generated,
                                       map["tool_calls" := Arr([CallStart(e.index, e.content.id, e.content.name)])])]
    ensures KeepsStep(es, s, fs, e, ds, text)
  {
    hide Orderly, Noted, Told, ApplyAll, Between, Choice, ChoiceObject, DeltaFrame, Run, Events, Tell, CallStart,
         EnsureID, ToolPart, KeepsStep, Starts;
    var b, t, call := Told(es), Headed(s, r, generated), CallStart(e.index, e.content.id, e.content.name);
    var y := ApplyAll(ApplyAll(EMPTY, fs, text), Starts(s, r, generated), text);
    PartsAreContent(t, "", call);
    CallChoice(t, call);
    assert e.index !in b.calls;
    if Between(b, t, y) {
      CallStartItem(b, e, t, y, text);
    }
    ChunkKeepsStep(es, s, fs, e, ds, r, generated, map["tool_calls" := Arr([call])], ToolPart(t, call), text);
  }

  lemma {:induction false} StartKeepsStep(es: seq<StreamEvent>, s: State, fs: seq<StreamEvent>, e: StreamEvent,
                                          ds: seq<Delivery>, r: Response, generated: string, text: JsonText)
    requires Orderly(es) && InStep(es, s, fs, text) && Allowed(Noted(es), e) && e.Start?
    requires r.model == ApplyAll(EMPTY, es + [e], text).response.model
    requires Events(ds) == [DeltaFrame(r, generated, map["role" := Str("assistant"), "content" := Str("")])]
    ensures KeepsStep(es, s, fs, e, ds, text)
  {
    var b, t := Told(es), Headed(s, r, generated);
    assert Tell(b, e) == b && t.started;
    hide Orderly, Noted, Told, ApplyAll, Between, Choice, ChoiceObject, DeltaFrame, Run, Events, Tell, EnsureID,
         KeepsStep, Starts, Headed;
    RoleChoice(t);
    var y := ApplyAll(ApplyAll(EMPTY, fs, text), Starts(s, r, generated), text);
    ApplyAllConcat(y, [], [], text);
    ChunkKeepsStep(es, s, fs, e, ds, r, generated, map["role" := Str("assistant"), "content" := Str("")], Step(t, []),
                   text);
  }

  lemma {:induction false} EventKeepsStep(es: seq<StreamEvent>, s: State, fs: seq<StreamEvent>, e: StreamEvent,
                                          r: Response, ids: nat -> string, n: nat, ds: seq<Delivery>, text: JsonText)
    requires Orderly(es) && InStep(es, s, fs, text) && Allowed(Noted(es), e) && !e.Done?
    requires r.model == ApplyAll(EMPTY, es + [e], text).response.model
    requires Events(ds) == ChatStream.Encode(e, r, ids, n)
    ensures KeepsStep(es, s, fs, e, ds, text)
  {
    hide Orderly, Noted, ApplyAll, DeltaFrame, Run, Events, CallStart, CallDelta, KeepsStep, InStep;
    match e
    case Start(_, _, _) => StartKeepsStep(es, s, fs, e, ds, r, ids(n), text);
    case ContentStart(_, c) =>
      if c.kind == ToolCallType {
        CallKeepsStep(es, s, fs, e, ds, r, ids(n), text);
      } else {
        SilentKeepsStep(es, s, fs, e, ds, text);
      }
    case ContentDelta(_, _, _) => DeltaKeepsStep(es, s, fs, e, ds, r, ids(n), text);
    case ContentStop(_) => SilentKeepsStep(es, s, fs, e, ds, text);
    case Done(_, _) =>
  }

  // ---- The run up to its end --------------------------------------------------------------

  lemma {:induction false} EncodesOneMore(es: seq<StreamEvent>, e: StreamEvent, env: Env)
    ensures var before, after := EncodeAll(OpenAIChat, FRESH, es, env), EncodeAll(OpenAIChat, FRESH, es + [e], env);
            after.out == before.out + ChatStream.Encode(e, after.collected.response, env.ids, |before.out|)
  {
    hide ChatStream.Encode, Apply;
    assert (es + [e])[..|es|] == es;
  }

  /**
   * Wherever a run is cut before its end, the frames printed so far decode to the text, the reasoning and
   * the calls told so far.
   */
  lemma {:induction false} DecodesPrefix(es: seq<StreamEvent>, ds: seq<Delivery>, env: Env)
    requires Orderly(es) && !Noted(es).ended
    requires Events(ds) == EncodeAll(OpenAIChat, FRESH, es, env).out
    ensures var run := Run(Initial(OpenAIChat), ds, env.text);
            && run.Decoded? && run.state.ChatDecoder?
            && InStep(es, run.state.chat, run.events, env.text)
  {
    hide ChatStream.Decode, ChatStream.Encode, Run, EncodeAll, Events, InStep, Allowed, ApplyAll;
    if es == [] {
      assert EncodeAll(OpenAIChat, FRESH, es, env).out == [] && ds == [] by { NothingPrinted(OpenAIChat, ds, env); }
      RunNothing(Initial(OpenAIChat), env.text);
      NothingInStep(env.text);
    } else {
      var n, e := |es| - 1, es[|es| - 1];
      assert es == es[..n] + [e];
      var before, after := EncodeAll(OpenAIChat, FRESH, es[..n], env), EncodeAll(OpenAIChat, FRESH, es, env);
      EncodesOneMore(es[..n], e, env);
      EncoderCollects(OpenAIChat, FRESH, es, env);
      var m := |before.out|;
      SplitEvents(ds, before.out, ChatStream.Encode(e, after.collected.response, env.ids, m));
      DecodesPrefix(es[..n], ds[..m], env);
      var run := Run(Initial(OpenAIChat), ds[..m], env.text);
      EventKeepsStep(es[..n], run.state.chat, run.events, e, after.collected.response, env.ids, m, ds[m..], env.text);
      RunConcat(Initial(OpenAIChat), ds[..m], ds[m..], env.text);
    }
  }

  lemma {:induction false} NothingInStep(text: JsonText)
    ensures InStep([], INITIAL, [], text)
  {
  }

  // ---- The end of the run -----------------------------------------------------------------

  function SurvivingStop(stopReason: string): string {
    ChatStopReason(EncodeChatStopReason(stopReason))
  }

  function SurvivingUsage(usage: Option<Usage>): Option<Usage> {
    match usage
    case None => None
    case Some(u) => Some(Usage(u.input, u.output, u.total, 0, 0, 0))
  }

  lemma {:induction false} DecodesFinish(s: State, d: Delivery, r: Response, generated: string, stopReason: string)
    requires d.event == ChunkFrame(r, generated, [ChoiceObject(map[], Str(EncodeChatStopReason(stopReason)))], None)
    ensures ChatStream.Decode(s, d) ==
            Decoded(Headed(s, r, generated).(stopReason := SurvivingStop(stopReason)), Starts(s, r, generated))
  {
    hide EnsureID, ChatStopReason;
    var t := Headed(s, r, generated);
    var finish := EncodeChatStopReason(stopReason);
    assert finish != "";
    var choice := ChoiceObject(map[], Str(finish));
    assert Choice(t, choice) == Step(t.(stopReason := ChatStopReason(finish)), [] + [] + []);
    hide EncodeChatStopReason, Choice, ChoiceObject;
    assert Header(s, d.event.data.json).(started := true) == t;
    assert [choice][..0] == [];
    assert Choices(t, [choice]) == Step(Choice(t, choice).state, [] + Choice(t, choice).events);
    var none: seq<StreamEvent> := [];
    assert Starts(s, r, generated) + none == Starts(s, r, generated);
  }

  lemma {:induction false} UsageFields(r: Response, generated: string, u: Usage)
    ensures var value := ChunkFrame(r, generated, [], Some(u)).data.json;
            && ChunkFrame(r, generated, [], Some(u)).data.Tree? && value.Obj?
            && Get(value, "id") == Str(EnsureID(r.id, "chatcmpl", generated)) && Get(value, "model") == Str(r.model)
            && Get(value, "choices") == Arr([]) && DecodeChatUsage(Get(value, "usage")) == SurvivingUsage(Some(u))
  {
    hide EnsureID;
  }

  lemma {:induction false} DecodesUsage(s: State, d: Delivery, r: Response, generated: string, usage: Option<Usage>)
    requires s.started && usage.Some?
    requires d.event == ChunkFrame(r, generated, [], usage)
    ensures ChatStream.Decode(s, d) == Decoded(Headed(s, r, generated).(usage := SurvivingUsage(usage)), [])
  {
    UsageFields(r, generated, usage.value);
    hide EnsureID, ChunkFrame, Get, DecodeChatUsage, SurvivingUsage;
    var t := Headed(s, r, generated).(usage := SurvivingUsage(usage));
    assert SurvivingUsage(usage).Some? by { SomeSurvives(usage.value); }
    assert Header(s, d.event.data.json).(started := true) == t;
    var none: seq<StreamEvent> := [];
    assert none + none == none;
  }

  lemma {:induction false} SomeSurvives(u: Usage)
    ensures SurvivingUsage(Some(u)).Some?
  {
  }

  function KeyStops(m: map<int, int>, walk: seq<int>): seq<StreamEvent>
    requires forall j :: 0 <= j < |walk| ==> walk[j] in m
  {
    seq(|walk|, j requires 0 <= j < |walk| => ContentStop(m[walk[j]]))
  }

  lemma {:induction false} CloseBlocksStops(s: State, z: Collected, walk: seq<int>)
    requires Keyed(s, z) && Enumerates(walk, s.toolIndexes.Keys)
    ensures forall j :: 0 <= j < |walk| ==> walk[j] in s.toolIndexes
    ensures CloseBlocks(s, walk).events ==
            (if s.textOpen then [ContentStop(s.textIndex)] else []) + KeyStops(s.toolIndexes, walk)
    ensures CloseBlocks(s, walk).state.done == s.done
  {
    forall j | 0 <= j < |walk|
      ensures walk[j] in s.toolIndexes
    {
      WalkElement(walk, s.toolIndexes.Keys, j);
    }
    var t := Bracketing.Track(true, s.nextBlock, map i | i in s.open :: ToolCallType, false);
    ChatBracketing.CloseKeyedBrackets(s.(textOpen := false), t, walk, |walk|);
    assert walk[..|walk|] == walk;
  }

  // The item a keyed block is closed to.
  function Final(b: Books, key: int, text: JsonText): Content {
    if key in b.calls then Collector.Closed(b.calls[key], text) else ReasoningContent(b.thoughts)
  }

  function Finals(b: Books, walk: seq<int>, text: JsonText): seq<Content> {
    if walk == [] then []
    else Finals(b, walk[..|walk| - 1], text) + [Final(b, walk[|walk| - 1], text)]
  }

  function Elements(walk: seq<int>): set<int> {
    set k | k in walk
  }

  lemma {:induction false} ClosesOne(b: Books, s: State, z: Collected, key: int, text: JsonText)
    requires Keyed(s, z) && key in s.toolIndexes && KeyEntry(s, z, key) == ExpectedKey(b, key)
             && REASONING_KEY !in b.calls
    ensures var y := Apply(z, ContentStop(s.toolIndexes[key]), text);
            && Keyed(s, y)
            && y.response.content == z.response.content + [Final(b, key, text)]
            && forall k :: k != key ==> KeyEntry(s, y, k) == KeyEntry(s, z, k)
  {
    hide ParseArguments;
  }

  lemma {:induction false} ClosesKeys(b: Books, s: State, z: Collected, walk: seq<int>, n: nat, text: JsonText)
    requires n <= |walk| && Keyed(s, z) && REASONING_KEY !in b.calls
    requires forall k :: KeyEntry(s, z, k) == ExpectedKey(b, k)
    requires forall j :: 0 <= j < |walk| ==> walk[j] in s.toolIndexes
    requires forall i, j :: 0 <= i < j < |walk| ==> walk[i] != walk[j]
    ensures var y := ApplyAll(z, KeyStops(s.toolIndexes, walk)[..n], text);
            && Keyed(s, y)
            && y.response.content == z.response.content + Finals(b, walk[..n], text)
            && forall k :: k !in walk[..n] ==> KeyEntry(s, y, k) == ExpectedKey(b, k)
  {
    hide Keyed, KeyEntry, ExpectedKey, Final;
    var stops := KeyStops(s.toolIndexes, walk);
    if n > 0 {
      ClosesKeys(b, s, z, walk, n - 1, text);
      var y := ApplyAll(z, stops[..n - 1], text);
      assert stops[..n][..n - 1] == stops[..n - 1] && stops[..n][n - 1] == ContentStop(s.toolIndexes[walk[n - 1]]);
      assert walk[..n] == walk[..n - 1] + [walk[n - 1]];
      assert walk[..n][..n - 1] == walk[..n - 1];
      ClosesOne(b, s, y, walk[n - 1], text);
    }
  }

  function Head(b: Books): seq<Content> {
    if b.text == "" then [] else [TextContent(b.text)]
  }

  // Calls as plain openings leave them.
  ghost predicate TidyCalls(b: Books) {
    forall k :: k in b.calls ==>
      0 <= k && b.calls[k].content == ToolCallContent(b.calls[k].content.id, b.calls[k].content.name, EMPTY_OBJECT)
  }

  // What the closed items add up to.
  lemma {:induction false} ClosedContent(b: Books, n: nat, walk: seq<int>, text: JsonText)
    requires TidyCalls(b) && forall k :: k in b.calls ==> k < n
    requires forall i, j :: 0 <= i < j < |walk| ==> walk[i] != walk[j]
    requires forall k :: k in walk ==> k == REASONING_KEY || k in b.calls
    ensures var got := Head(b) + Finals(b, walk, text);
            && JoinedText(got) == b.text
            && JoinedReasoning(got) == (if REASONING_KEY in walk then b.thoughts else "")
            && Calls(got) == CallsAt(Finished(b, text), n, Elements(walk))
  {
    hide Final, TidyCalls;
    if walk == [] {
      assert Head(b) + [] == Head(b);
      CallsAtNone(Finished(b, text), n);
      assert Elements(walk) == {};
      HeadContent(b);
    } else {
      var m := |walk| - 1;
      var a, key := walk[..m], walk[m];
      assert walk == a + [key] && key in walk && key !in a;
      assert forall k :: k in a ==> k in walk;
      ClosedContent(b, n, a, text);
      StepContent(b, n, a, key, text);
    }
  }

  lemma {:induction false} StepContent(b: Books, n: nat, a: seq<int>, key: int, text: JsonText)
    requires TidyCalls(b) && (key in b.calls ==> key < n)
    requires key !in a && (key == REASONING_KEY || key in b.calls)
    requires JoinedReasoning(Head(b) + Finals(b, a, text)) == (if REASONING_KEY in a then b.thoughts else "")
    requires Calls(Head(b) + Finals(b, a, text)) == CallsAt(Finished(b, text), n, Elements(a))
    ensures var got := Head(b) + Finals(b, a + [key], text);
            && JoinedText(got) == JoinedText(Head(b) + Finals(b, a, text))
            && JoinedReasoning(got) == (if REASONING_KEY in a + [key] then b.thoughts else "")
            && Calls(got) == CallsAt(Finished(b, text), n, Elements(a + [key]))
  {
    OneMoreFinal(b, a, key, text);
    OneMoreElement(a, key);
    AddedByKey(b, Head(b) + Finals(b, a, text), key, text);
    CallsAtOneMore(Finished(b, text), n, Elements(a), key);
    FinalIsFinished(b, key, text);
    hide JoinedText, JoinedReasoning, Calls, CallsAt, Finals, Final, Elements, Portable, Finished, TidyCalls, Head;
    NothingAdded(CallsAt(Finished(b, text), n, Elements(a)));
    assert key == REASONING_KEY ==> REASONING_KEY !in a;
  }

  lemma {:induction false} FinalIsFinished(b: Books, key: int, text: JsonText)
    requires TidyCalls(b)
    ensures REASONING_KEY !in b.calls
    ensures key in b.calls ==> 0 <= key && CallAt(Finished(b, text), key) == multiset{Final(b, key, text)}
  {
    hide Collector.Closed;
  }

  lemma {:induction false} OneMoreFinal(b: Books, a: seq<int>, key: int, text: JsonText)
    ensures Head(b) + Finals(b, a + [key], text) == Head(b) + Finals(b, a, text) + [Final(b, key, text)]
  {
    hide Final;
    assert (a + [key])[..|a|] == a;
  }

  lemma {:induction false} OneMoreElement(walk: seq<int>, key: int)
    ensures Elements(walk + [key]) == Elements(walk) + {key}
    ensures key in Elements(walk) <==> key in walk
    ensures forall k :: k in walk + [key] <==> k in walk || k == key
  {
  }

  lemma {:induction false} HeadContent(b: Books)
    ensures JoinedText(Head(b)) == b.text && JoinedReasoning(Head(b)) == "" && Calls(Head(b)) == multiset{}
  {
    if Head(b) != [] {
      assert Head(b)[..0] == [];
      assert "" + b.text == b.text;
    }
  }

  lemma {:induction false} AddedByKey(b: Books, before: seq<Content>, key: int, text: JsonText)
    requires TidyCalls(b) && (key == REASONING_KEY || key in b.calls)
    ensures var more := before + [Final(b, key, text)];
            && JoinedText(more) == JoinedText(before)
            && (key == REASONING_KEY ==> Calls(more) == Calls(before))
            && (key == REASONING_KEY ==> JoinedReasoning(before) == "" ==> JoinedReasoning(more) == b.thoughts)
            && (key != REASONING_KEY ==> JoinedReasoning(more) == JoinedReasoning(before))
            && (key != REASONING_KEY ==> Calls(more) == Calls(before) + multiset{Final(b, key, text)})
  {
    var c := Final(b, key, text);
    OneMore(before, c);
    FinalShape(b, key, text);
    assert JoinedText(before) + "" == JoinedText(before) && JoinedReasoning(before) + "" == JoinedReasoning(before);
    assert "" + b.thoughts == b.thoughts;
    hide JoinedText, JoinedReasoning, Calls, Final;
    NothingAdded(Calls(before));
  }

  lemma {:induction false} FinalShape(b: Books, key: int, text: JsonText)
    requires TidyCalls(b) && (key == REASONING_KEY || key in b.calls)
    ensures var c := Final(b, key, text);
            if key == REASONING_KEY then c == ReasoningContent(b.thoughts)
            else c.kind == ToolCallType && Portable(c) == c
  {
    hide ParseArguments;
  }

  /** Closing in any order leaves the text, the reasoning and the calls told. */
  lemma {:induction false} ClosesAll(b: Books, s: State, z: Collected, n: nat, walk: seq<int>, text: JsonText)
    requires Matches(b, s, z) && TidyCalls(b) && Enumerates(walk, s.toolIndexes.Keys) && forall k :: k in b.calls ==>
             k < n
    ensures var got := ApplyAll(z, CloseBlocks(s, walk).events, text).response.content;
            && JoinedText(got) == b.text && JoinedReasoning(got) == b.thoughts
            && Calls(got) == CallsAt(Finished(b, text), n, b.calls.Keys)
  {
    CloseBlocksStops(s, z, walk);
    var stops := KeyStops(s.toolIndexes, walk);
    var head := if s.textOpen then [ContentStop(s.textIndex)] else [];
    ApplyAllConcat(z, head, stops, text);
    var y := ApplyAll(z, head, text);
    ClosesText(b, s, z, text);
    FinalIsFinished(b, 0, text);
    hide Keyed, TextEntry, ApplyAll, CloseBlocks, TidyCalls;
    assert stops[..|walk|] == stops && walk[..|walk|] == walk;
    ClosesKeys(b, s, y, walk, |walk|, text);
    WalkedKeys(b, s, z, walk);
    ClosedContent(b, n, walk, text);
    CallsAtSame(Finished(b, text), Finished(b, text), n, Elements(walk), b.calls.Keys);
  }

  lemma {:induction false} ClosesText(b: Books, s: State, z: Collected, text: JsonText)
    requires Matches(b, s, z)
    ensures var y := ApplyAll(z, if s.textOpen then [ContentStop(s.textIndex)] else [], text);
            Keyed(s, y) && y.response.content == Head(b) && forall k :: KeyEntry(s, y, k) == ExpectedKey(b, k)
  {
    if s.textOpen {
      ApplyOne(z, ContentStop(s.textIndex), text);
      assert [] + [TextContent(b.text)] == [TextContent(b.text)];
    }
  }

  // The walk visits the reasoning block, if there is one, and exactly the calls.
  lemma {:induction false} WalkedKeys(b: Books, s: State, z: Collected, walk: seq<int>)
    requires Matches(b, s, z) && Enumerates(walk, s.toolIndexes.Keys)
    ensures forall k :: k in walk <==> (k == REASONING_KEY && b.thoughts != "") || k in b.calls
  {
    forall k
      ensures k in walk <==> ExpectedKey(b, k).Some?
    {
      assert KeyEntry(s, z, k) == ExpectedKey(b, k);
      assert k in walk <==> k in s.toolIndexes.Keys;
    }
  }

  lemma {:induction false} SurvivingStopIsSet(stopReason: string)
    ensures DefaultStopReason(SurvivingStop(stopReason)) == SurvivingStop(stopReason)
  {
  }

  lemma {:induction false} ClosingIsContent(s: State, walk: seq<int>)
    ensures forall e :: e in CloseBlocks(s, walk).events ==> IsContent(e)
  {
    KeyedClosingIsContent(s.(textOpen := false), walk);
  }

  lemma {:induction false} KeyedClosingIsContent(s: State, walk: seq<int>)
    ensures forall e :: e in CloseKeyed(s, walk).events ==> IsContent(e)
  {
    if walk != [] {
      KeyedClosingIsContent(s, walk[..|walk| - 1]);
    }
  }

  // The decoder's state when [DONE] comes, after the closing chunks.
  ghost predicate Closing(s: State, t: State, e: StreamEvent)
    requires e.Done?
  {
    && t.toolIndexes == s.toolIndexes && t.open == s.open && t.textOpen == s.textOpen && t.textIndex == s.textIndex
    && t.nextBlock == s.nextBlock && !t.done && t.stopReason == SurvivingStop(e.stopReason)
        && t.usage == SurvivingUsage(e.usage)
  }

  lemma {:induction false} DecodesClosing(s: State, ds: seq<Delivery>, r: Response, e: StreamEvent,
                                          ids: nat -> string, n: nat, text: JsonText)
    requires e.Done? && !s.done && s.usage == None
    requires Events(ds) == ClosingChunks(e, r, ids, n)
    ensures var run := Run(ChatDecoder(s), ds, text);
            && run.Decoded? && run.state.ChatDecoder? && Closing(s, run.state.chat, e)
            && run.events == Starts(s, r, ids(n))
  {
    var frames := Events(ds);
    assert |frames| == |ds| && forall i :: 0 <= i < |ds| ==> ds[i].event == frames[i];
    var s1 := Finishing(s, r, ids(n), e);
    FinishingCloses(s, r, ids(n), ids(n + 1), e);
    hide ChunkFrame, ChoiceObject, EncodeChatStopReason, Run, Starts, Events, ChatStream.Decode, Closing, Headed;
    DecodesFinish(s, ds[0], r, ids(n), e.stopReason);
    if e.usage.Some? {
      DecodesUsage(s1, ds[1], r, ids(n + 1), e.usage);
      var s2 := Headed(s1, r, ids(n + 1)).(usage := SurvivingUsage(e.usage));
      RunTwo(ChatDecoder(s), ChatDecoder(s1), ChatDecoder(s2), Starts(s, r, ids(n)), [], ds, text);
      assert Starts(s, r, ids(n)) + [] == Starts(s, r, ids(n));
    } else {
      assert ds == [ds[0]];
      RunOne(ChatDecoder(s), ds[0], text);
    }
  }

  // The state after the chunk with the stop reason.
  function Finishing(s: State, r: Response, generated: string, e: StreamEvent): State
    requires e.Done?
  {
    Headed(s, r, generated).(stopReason := SurvivingStop(e.stopReason))
  }

  lemma {:induction false} FinishingCloses(s: State, r: Response, first: string, second: string, e: StreamEvent)
    requires e.Done? && !s.done && s.usage == None
    ensures var t := Finishing(s, r, first, e);
            && t.started && (e.usage.None? ==> Closing(s, t, e))
            && Closing(s, Headed(t, r, second).(usage := SurvivingUsage(e.usage)), e)
  {
    hide EnsureID, SurvivingStop;
  }

  lemma {:induction false} DecodesDoneMark(t: State, d: Delivery)
    requires !t.done && d.event == Event("", DoneMark)
    ensures var closed := CloseBlocks(t.(done := true), d.walk);
            && ChatStream.Decode(t, d) == Decoded(closed.state,
                                                  closed.events + [Done(DefaultStopReason(t.stopReason), t.usage)])
            && closed.state.done
  {
    hide CloseBlocks;
    ChatBracketing.ClosingKeeps(t, d.walk);
  }

  // What the decoder emits for the closing frames, whatever order it walks its map in.
  lemma {:induction false} DecodesDone(before: seq<Delivery>, s: State, fs: seq<StreamEvent>, ds: seq<Delivery>,
                                       r: Response, e: StreamEvent, ids: nat -> string, n: nat, text: JsonText)
    requires Run(Initial(OpenAIChat), before, text) == Decoded(ChatDecoder(s), fs) && !s.done && s.usage == None
    requires e.Done? && Events(ds) == ChatStream.Encode(e, r, ids, n)
    requires WalksFit(Initial(OpenAIChat), before + ds, text) && ds != []
    ensures var run, walk := Run(Initial(OpenAIChat), before + ds, text), ds[|ds| - 1].walk;
            && run.Decoded? && run.state.ChatDecoder? && run.state.chat.done && Enumerates(walk, s.toolIndexes.Keys)
            && exists t :: Closing(s, t, e) && run.events ==
                 fs + Starts(s, r, ids(n)) + CloseBlocks(t.(done := true), walk).events +
                 [Done(SurvivingStop(e.stopReason), SurvivingUsage(e.usage))]
  {
    var chunks := ClosingChunks(e, r, ids, n);
    assert ChatStream.Encode(e, r, ids, n) == chunks + [Event("", DoneMark)] by { ClosingSplits(e, r, ids, n); }
    hide ChatStream.Encode, ClosingChunks, Run, Streams.Decode, CloseBlocks, ChatStream.Decode, Starts, SurvivingStop,
         SurvivingUsage, DefaultStopReason, Closing, Events, Enumerates;
    SplitEvents(ds, chunks, [Event("", DoneMark)]);
    OneDelivery(ds[|chunks|..], [Event("", DoneMark)]);
    var first, d := ds[..|chunks|], ds[|chunks|];
    assert ds == first + [d];
    DecodesClosing(s, first, r, e, ids, n, text);
    RunConcat(Initial(OpenAIChat), before, first, text);
    var t := Run(ChatDecoder(s), first, text).state.chat;
    assert before + ds == before + first + [d];
    DecodesMark(before + first, s, t, fs + Starts(s, r, ids(n)), d, e, text);
  }

  function ClosingChunks(e: StreamEvent, r: Response, ids: nat -> string, n: nat): seq<Event>
    requires e.Done?
  {
    [ChunkFrame(r, ids(n), [ChoiceObject(map[], Str(EncodeChatStopReason(e.stopReason)))], None)]
    + (if e.usage.Some? then [ChunkFrame(r, ids(n + 1), [], e.usage)] else [])
  }

  lemma {:induction false} ClosingSplits(e: StreamEvent, r: Response, ids: nat -> string, n: nat)
    requires e.Done?
    ensures ChatStream.Encode(e, r, ids, n) == ClosingChunks(e, r, ids, n) + [Event("", DoneMark)]
  {
    hide ChunkFrame, ChoiceObject, EncodeChatStopReason;
  }

  lemma {:induction false} DecodesMark(before: seq<Delivery>, s: State, t: State, fs: seq<StreamEvent>, d: Delivery,
                                       e: StreamEvent, text: JsonText)
    requires Run(Initial(OpenAIChat), before, text) == Decoded(ChatDecoder(t), fs) && e.Done? && Closing(s, t, e)
    requires WalksFit(Initial(OpenAIChat), before + [d], text) && d.event == Event("", DoneMark)
    ensures var run := Run(Initial(OpenAIChat), before + [d], text);
            && run.Decoded? && run.state.ChatDecoder? && run.state.chat.done && Enumerates(d.walk, s.toolIndexes.Keys)
            && run.events == fs + CloseBlocks(t.(done := true), d.walk).events
                + [Done(SurvivingStop(e.stopReason), SurvivingUsage(e.usage))]
  {
    hide Run, CloseBlocks, ChatStream.Decode, SurvivingStop, SurvivingUsage, DefaultStopReason, Enumerates;
    var whole := before + [d];
    assert whole[..|whole| - 1] == before && whole[|whole| - 1] == d;
    RunSnoc(Initial(OpenAIChat), before, d, text);
    DecodesDoneMark(t, d);
    SurvivingStopIsSet(e.stopReason);
    var closing, done := CloseBlocks(t.(done := true), d.walk).events,
        [Done(SurvivingStop(e.stopReason), SurvivingUsage(e.usage))];
    assert fs + (closing + done) == fs + closing + done;
  }

  // ---- The whole run ----------------------------------------------------------------------

  // A bound of the indexes of a run.
  function Limit(es: seq<StreamEvent>): nat {
    if es == [] then 0
    else
      var before, e := Limit(es[..|es| - 1]), es[|es| - 1];
      if e.ContentStart? && before <= e.index then e.index + 1 else before
  }

  lemma {:induction false} CallsBelow(es: seq<StreamEvent>)
    requires Orderly(es)
    ensures TidyCalls(Told(es)) && forall k :: k in Told(es).calls ==> k < Limit(es)
  {
    if es != [] {
      CallsBelow(es[..|es| - 1]);
    }
  }

  // The calls closed so far are those the run has collected.
  ghost predicate Accounted(b: Books, t: Ledger, z: Collected, n: nat, text: JsonText) {
    && b.calls.Keys <= t.started && WireBlocks(z, t)
    && (forall i :: i in t.open ==> (t.open[i] == ToolCallType <==> i in b.calls))
    && (forall i :: i in t.open && i in b.calls ==> z.blocks[i] == b.calls[i])
    && Calls(z.response.content) == CallsAt(Finished(b, text), n, b.calls.Keys - t.open.Keys)
  }

  lemma {:induction false} AccountStart(b: Books, t: Ledger, z: Collected, e: StreamEvent, n: nat, text: JsonText)
    requires Accounted(b, t, z, n, text) && Allowed(t, e) && e.ContentStart?
    ensures Accounted(Tell(b, e), Note(t, e), Apply(z, Image(e), text), n, text)
  {
    ImageDepicts(e);
    WireStep(z, t, e, Image(e), text);
    StartAddsNothing(b, t, e, n, text);
    hide Calls, CallsAt, WireBlocks, Finished;
  }

  lemma {:induction false} StartAddsNothing(b: Books, t: Ledger, e: StreamEvent, n: nat, text: JsonText)
    requires b.calls.Keys <= t.started && Allowed(t, e) && e.ContentStart?
    ensures CallsAt(Finished(Tell(b, e), text), n, Tell(b, e).calls.Keys - Note(t, e).open.Keys) ==
            CallsAt(Finished(b, text), n, b.calls.Keys - t.open.Keys)
  {
    hide CallsAt, Collector.Closed;
    var after, keys := Tell(b, e), b.calls.Keys - t.open.Keys;
    assert after.calls.Keys - Note(t, e).open.Keys == keys;
    CallsAtSame(Finished(b, text), Finished(after, text), n, keys, keys);
  }

  lemma {:induction false} AccountDelta(b: Books, t: Ledger, z: Collected, e: StreamEvent, n: nat, text: JsonText)
    requires Accounted(b, t, z, n, text) && Allowed(t, e) && e.ContentDelta?
    ensures Accounted(Tell(b, e), Note(t, e), Apply(z, Image(e), text), n, text)
  {
    ImageDepicts(e);
    WireStep(z, t, e, Image(e), text);
    hide Calls, CallsAt, Collector.Closed;
    var after := Tell(b, e);
    CallsAtSame(Finished(b, text), Finished(after, text), n, b.calls.Keys - t.open.Keys,
                after.calls.Keys - t.open.Keys);
  }

  lemma {:induction false} AccountStop(b: Books, t: Ledger, z: Collected, e: StreamEvent, n: nat, text: JsonText)
    requires Accounted(b, t, z, n, text) && Allowed(t, e) && e.ContentStop? && TidyCalls(b)
             && forall k :: k in b.calls ==> k < n
    ensures Accounted(Tell(b, e), Note(t, e), Apply(z, Image(e), text), n, text)
  {
    ImageDepicts(e);
    WireStep(z, t, e, Image(e), text);
    StopAccounts(b, t, z, e.index, n, text);
    hide Calls, CallsAt, Collector.Closed, TidyCalls, Finished;
  }

  lemma {:induction false} StopAccounts(b: Books, t: Ledger, z: Collected, i: int, n: nat, text: JsonText)
    requires Accounted(b, t, z, n, text) && Allowed(t, ContentStop(i)) && TidyCalls(b) && forall k :: k in b.calls ==>
             k < n
    ensures Calls(Apply(z, ContentStop(i), text).response.content) ==
            CallsAt(Finished(b, text), n, b.calls.Keys - (t.open - {i}).Keys)
  {
    hide Calls, CallsAt, Collector.Closed, TidyCalls, Finished, Portable;
    var keys, m, after := b.calls.Keys - t.open.Keys, Finished(b, text), b.calls.Keys - (t.open - {i}).Keys;
    if i in t.open && i in b.calls {
      var c := Collector.Closed(b.calls[i], text);
      OneMore(z.response.content, c);
      FinalIsFinished(b, i, text);
      FinalShape(b, i, text);
      CallsAtOneMore(m, n, keys, i);
      assert keys + {i} == after;
    } else {
      assert keys == after;
      if i in t.open {
        OneMore(z.response.content, Collector.Closed(z.blocks[i], text));
        ClosedKeepsKind(z, ContentStop(i), text);
        NothingAdded(Calls(z.response.content));
      }
    }
  }

  lemma {:induction false} AccountStays(es: seq<StreamEvent>, n: nat, text: JsonText)
    requires Orderly(es) && Limit(es) <= n
    ensures Accounted(Told(es), Noted(es), Whole(es, text), n, text)
  {
    hide Accounted, Allowed, Note, Tell, Whole, Apply, Image;
    if es == [] {
      NothingAccounted(n, text);
    } else {
      var m, e := |es| - 1, es[|es| - 1];
      assert es == es[..m] + [e];
      AccountStays(es[..m], n, text);
      WholeOneMore(es[..m], e, text);
      CallsBelow(es[..m]);
      var b, t, z := Told(es[..m]), Noted(es[..m]), Whole(es[..m], text);
      match e
      case ContentStart(_, _) => AccountStart(b, t, z, e, n, text);
      case ContentDelta(_, _, _) => AccountDelta(b, t, z, e, n, text);
      case ContentStop(_) => AccountStop(b, t, z, e, n, text);
      case _ => AccountOther(b, t, z, e, n, text);
    }
  }

  lemma {:induction false} AccountOther(b: Books, t: Ledger, z: Collected, e: StreamEvent, n: nat, text: JsonText)
    requires Accounted(b, t, z, n, text) && (e.Start? || e.Done?)
    ensures Accounted(Tell(b, e), Note(t, e), Apply(z, Image(e), text), n, text)
  {
    hide Calls, CallsAt;
  }

  lemma {:induction false} NothingAccounted(n: nat, text: JsonText)
    ensures Accounted(Told([]), Noted([]), Whole([], text), n, text)
  {
    CallsAtNone(Finished(Told([]), text), n);
    assert Told([]).calls.Keys - Noted([]).open.Keys == {};
  }

  /** What collecting the printed frames of a complete run gives. */
  ghost predicate Carries(es: seq<StreamEvent>, got: Response, text: JsonText) {
    var z, r := Whole(es, text).response, ApplyAll(EMPTY, es, text).response;
    && JoinedText(got.content) == Told(es).text && JoinedReasoning(got.content) == Told(es).thoughts
    && Calls(got.content) == Calls(z.content)
    && got.model == r.model && got.stopReason == SurvivingStop(r.stopReason)
    && es != [] && es[|es| - 1].Done? && got.usage == SurvivingUsage(es[|es| - 1].usage)
  }

  /** Every run over the printed frames decodes; whatever order the map is walked in, what was told survives. */
  lemma {:induction false} DecodesAll(es: seq<StreamEvent>, env: Env, ds: seq<Delivery>, last: seq<int>)
    requires Complete(es)
    requires Events(ds) == EncodeAll(OpenAIChat, FRESH, es, env).out && WalksFit(Initial(OpenAIChat), ds, env.text)
    ensures Run(Initial(OpenAIChat), ds, env.text).Decoded?
    ensures var got := Collect(OpenAIChat, ds, last, env.text);
            got.Some? && Carries(es, got.value, env.text)
  {
    hide Run, EncodeAll, Events, ChatStream.Encode, Orderly, Noted, WalksFit, ApplyAll, Whole, Told, Starts,
         CloseBlocks, Between, JoinedText, JoinedReasoning, Calls, SurvivingStop, SurvivingUsage, DefaultStopReason;
    CompleteEnds(es);
    var n, e := |es| - 1, es[|es| - 1];
    var before, after := EncodeAll(OpenAIChat, FRESH, es[..n], env).out, EncodeAll(OpenAIChat, FRESH, es, env);
    EncodesOneMore(es[..n], e, env);
    EncoderCollects(OpenAIChat, FRESH, es, env);
    var r, m := after.collected.response, |before|;
    SplitEvents(ds, before, ChatStream.Encode(e, r, env.ids, m));
    DecodesPrefix(es[..n], ds[..m], env);
    var run := Run(Initial(OpenAIChat), ds[..m], env.text);
    var s, fs, walk := run.state.chat, run.events, Last(ds[m..]);
    QuietBetween(Told(es[..n]), s, ApplyAll(EMPTY, fs, env.text));
    assert ds[m..] != [] by { DoneIsPrinted(ds[m..], e, r, env.ids, m); }
    DecodesDone(ds[..m], s, fs, ds[m..], r, e, env.ids, m, env.text);
    var done := Done(SurvivingStop(e.stopReason), SurvivingUsage(e.usage));
    var t :| Closing(s, t, e) && Run(Initial(OpenAIChat), ds, env.text).events ==
             fs + Starts(s, r, env.ids(m)) + CloseBlocks(t.(done := true), walk).events + [done];
    var events, none := Run(Initial(OpenAIChat), ds, env.text).events,
        Streams.Finish(Run(Initial(OpenAIChat), ds, env.text).state, last);
    assert events + none == events;
    EndCarries(es, s, fs, t, r, env.ids(m), walk, env.text);
  }

  function Last(ds: seq<Delivery>): seq<int> {
    if ds == [] then [] else ds[|ds| - 1].walk
  }

  lemma {:induction false} QuietBetween(b: Books, s: State, z: Collected)
    requires Between(b, s, z)
    ensures !s.done && s.usage == None && z.response.usage == None
  {
  }

  lemma {:induction false} DoneIsPrinted(ds: seq<Delivery>, e: StreamEvent, r: Response, ids: nat -> string, n: nat)
    requires e.Done? && Events(ds) == ChatStream.Encode(e, r, ids, n)
    ensures ds != []
  {
    assert |Events(ds)| == |ds|;
  }

  // What the events of the whole stream collect to.
  lemma {:induction false} EndCarries(es: seq<StreamEvent>, s: State, fs: seq<StreamEvent>, t: State, r: Response,
                                      generated: string, walk: seq<int>, text: JsonText)
    requires Complete(es) && InStep(es[..|es| - 1], s, fs, text) && Enumerates(walk, s.toolIndexes.Keys)
    requires es != [] && es[|es| - 1].Done? && Closing(s, t, es[|es| - 1])
             && r.model == ApplyAll(EMPTY, es, text).response.model
    ensures var e := es[|es| - 1];
            var events := fs + Starts(s, r, generated) + CloseBlocks(t.(done := true), walk).events +
                          [Done(SurvivingStop(e.stopReason), SurvivingUsage(e.usage))];
            Carries(es, ApplyAll(EMPTY, events, text).response, text)
  {
    hide Orderly, Noted, ApplyAll, Whole, Told, Starts, CloseBlocks, Between, JoinedText, JoinedReasoning, Calls,
         SurvivingStop, SurvivingUsage, DefaultStopReason, Headed, Finished, CallsAt, Tell, Apply, TidyCalls, Accounted,
         Matches, Limit;
    CompleteEnds(es);
    var n, e := |es| - 1, es[|es| - 1];
    var b, z, starts := Told(es[..n]), ApplyAll(EMPTY, fs, text), Starts(s, r, generated);
    HeadedKeeps(b, s, z, r, generated, text);
    var y, u, closing := ApplyAll(z, starts, text), t.(done := true), CloseBlocks(t.(done := true), walk).events;
    ClosingMatches(b, Headed(s, r, generated), u, y, s, r, generated);
    CallsBelow(es[..n]);
    ClosesAll(b, u, y, Limit(es[..n]), walk, text);
    var done := Done(SurvivingStop(e.stopReason), SurvivingUsage(e.usage));
    ApplyAllConcat(EMPTY, fs, starts, text);
    ApplyAllConcat(EMPTY, fs + starts, closing, text);
    CollectedOneMore(fs + starts + closing, done, text);
    ClosingIsContent(u, walk);
    ContentKeepsHeading(y, closing, text);
    DoneKeeps(ApplyAll(y, closing, text), done, text);
    SurvivingStopIsSet(e.stopReason);
    QuietBetween(b, Headed(s, r, generated), y);
    BooksAtEnd(es, text);
    if !Noted(es[..n]).begun {
      Unbegun(es[..n], text);
    }
  }

  lemma {:induction false} DoneKeeps(z: Collected, e: StreamEvent, text: JsonText)
    requires e.Done?
    ensures var r := Apply(z, e, text).response;
            && r.content == z.response.content && r.model == z.response.model
                && r.stopReason == DefaultStopReason(e.stopReason)
            && r.usage == if e.usage.Some? then e.usage else z.response.usage
  {
  }

  lemma {:induction false} ClosingMatches(b: Books, h: State, u: State, y: Collected, s: State, r: Response,
                                          generated: string)
    requires Between(b, h, y) && h == Headed(s, r, generated)
    requires u.toolIndexes == s.toolIndexes && u.open == s.open && u.textOpen == s.textOpen
             && u.textIndex == s.textIndex
    requires u.nextBlock == s.nextBlock
    ensures Matches(b, u, y)
  {
    hide EnsureID;
    assert forall k :: KeyEntry(u, y, k) == KeyEntry(h, y, k);
  }

  // The books just before the end are those of the whole run, and all its calls are accounted for.
  lemma {:induction false} BooksAtEnd(es: seq<StreamEvent>, text: JsonText)
    requires Complete(es)
    ensures es != []
    ensures var n := |es| - 1;
            && Told(es[..n]) == Told(es)
            && Calls(Whole(es, text).response.content) ==
                CallsAt(Finished(Told(es), text), Limit(es[..n]), Told(es).calls.Keys)
            && ApplyAll(EMPTY, es[..n], text).response.model == ApplyAll(EMPTY, es, text).response.model
            && SurvivingStop(ApplyAll(EMPTY, es, text).response.stopReason) == SurvivingStop(es[n].stopReason)
  {
    hide Orderly, Noted, ApplyAll, Whole, Told, Calls, CallsAt, Finished, Limit, SurvivingStop, DefaultStopReason;
    CompleteEnds(es);
    var n, e := |es| - 1, es[|es| - 1];
    ToldOneMore(es[..n], e);
    AccountStays(es[..n], Limit(es[..n]), text);
    WholeOneMore(es[..n], e, text);
    CollectedOneMore(es[..n], e, text);
    DoneKeeps(ApplyAll(EMPTY, es[..n], text), e, text);
    DoneKeeps(Whole(es[..n], text), e, text);
    assert Told(es).calls.Keys - Noted(es[..n]).open.Keys == Told(es).calls.Keys;
    StopReasonOfEmpty(e.stopReason);
  }

  lemma {:induction false} StopReasonOfEmpty(value: string)
    ensures SurvivingStop(DefaultStopReason(value)) == SurvivingStop(value)
  {
  }

  /**
   * A complete run printed as a chat stream: collecting the frames never fails and gives the text and the
   * reasoning in arrival order and the multiset of calls, in whatever order closeBlocks walks its map and
   * however the blocks interleave.
   */
  lemma {:induction false} RunCollects(es: seq<StreamEvent>, env: Env, result: Result<Response, Failure>)
    requires Complete(es)
    requires Outcome(OpenAIChat, EncodeAll(OpenAIChat, FRESH, es, env).out, env.text, result)
    ensures result.Ok? && Carries(es, result.value, env.text)
  {
    hide Run, WalksFit, EncodeAll, Orderly, Noted, Carries;
    var frames := EncodeAll(OpenAIChat, FRESH, es, env).out;
    forall ds | Events(ds) == frames && WalksFit(Initial(OpenAIChat), ds, env.text)
      ensures Run(Initial(OpenAIChat), ds, env.text).Decoded?
    {
      DecodesAll(es, env, ds, []);
    }
    match result
    case Err(f) => NeverFails(OpenAIChat, frames, env.text, f);
    case Ok(got) =>
      var ds, last :| CollectsBy(OpenAIChat, frames, env.text, got, ds, last);
      DecodesAll(es, env, ds, last);
  }

  lemma {:induction false} StopReasonSurvivesIff(value: string)
    ensures SurvivingStop(value) == value <==> value in {"stop", "length", "tool_use", "content_filter"}
  {
  }

  // ---- Arrival order and the order of the blocks ------------------------------------------

  function Words(b: Books, kind: ContentType): string {
    if kind == ReasoningType then b.thoughts else b.text
  }

  function Joined(contents: seq<Content>, kind: ContentType): string {
    if kind == ReasoningType then JoinedReasoning(contents) else JoinedText(contents)
  }

  predicate OfKind(t: Ledger, i: int, kind: ContentType) {
    i in t.open && WireKind(t.open[i]) == kind
  }

  ghost predicate NoneOpen(t: Ledger, kind: ContentType) {
    forall i :: !OfKind(t, i, kind)
  }

  // No block of the kind starts while another one is open.
  ghost predicate OneAtATime(es: seq<StreamEvent>, kind: ContentType) {
    es == [] ||
    var n := |es| - 1;
    && OneAtATime(es[..n], kind)
    && (es[n].ContentStart? && WireKind(es[n].content.kind) == kind ==> NoneOpen(Noted(es[..n]), kind))
  }

  // What was told is what the closed blocks say, and then the open one.
  ghost predicate ReadsOn(words: string, t: Ledger, z: Collected, kind: ContentType) {
    && WireBlocks(z, t)
    && (forall i, j :: OfKind(t, i, kind) && OfKind(t, j, kind) ==> i == j)
    && (forall i :: OfKind(t, i, kind) ==> words == Joined(z.response.content, kind) + z.blocks[i].content.text)
    && (NoneOpen(t, kind) ==> words == Joined(z.response.content, kind))
  }

  lemma {:induction false} JoinedOneMore(contents: seq<Content>, c: Content, kind: ContentType)
    requires kind == TextType || kind == ReasoningType
    ensures Joined(contents + [c], kind) == Joined(contents, kind) + (if WireKind(c.kind) == kind then c.text else "")
  {
    OneMore(contents, c);
    hide JoinedText, JoinedReasoning;
  }

  lemma {:induction false} StartReadsOn(b: Books, t: Ledger, z: Collected, e: StreamEvent, kind: ContentType,
                                        text: JsonText)
    requires (kind == TextType || kind == ReasoningType) && ReadsOn(Words(b, kind), t, z, kind) && Allowed(t, e)
             && e.ContentStart?
    requires WireKind(e.content.kind) == kind ==> NoneOpen(t, kind)
    ensures ReadsOn(Words(Tell(b, e), kind), Note(t, e), Apply(z, Image(e), text), kind)
  {
    ImageDepicts(e);
    WireStep(z, t, e, Image(e), text);
    hide Joined, WireBlocks;
    var after, joined := Note(t, e), Joined(z.response.content, kind);
    assert forall i :: OfKind(after, i, kind) <==> if i == e.index then WireKind(e.content.kind) == kind
           else OfKind(t, i, kind);
    assert joined + "" == joined;
    assert Words(Tell(b, e), kind) == Words(b, kind);
    if WireKind(e.content.kind) != kind {
      assert !OfKind(t, e.index, kind) && !OfKind(after, e.index, kind);
    }
  }

  lemma {:induction false} DeltaReadsOn(b: Books, t: Ledger, z: Collected, e: StreamEvent, kind: ContentType,
                                        text: JsonText)
    requires (kind == TextType || kind == ReasoningType) && ReadsOn(Words(b, kind), t, z, kind) && Allowed(t, e)
             && e.ContentDelta?
    ensures ReadsOn(Words(Tell(b, e), kind), Note(t, e), Apply(z, Image(e), text), kind)
  {
    ImageDepicts(e);
    WireStep(z, t, e, Image(e), text);
    assert WireBlocks(z, t);
    hide Joined, WireBlocks;
    var joined := Joined(z.response.content, kind);
    if WireKind(e.content.kind) == kind {
      assert OfKind(t, e.index, kind);
      Associative(joined, z.blocks[e.index].content.text, e.content.text);
    } else {
      assert Words(Tell(b, e), kind) == Words(b, kind);
    }
  }

  lemma {:induction false} StopReadsOn(b: Books, t: Ledger, z: Collected, e: StreamEvent, kind: ContentType,
                                       text: JsonText)
    requires (kind == TextType || kind == ReasoningType) && ReadsOn(Words(b, kind), t, z, kind) && Allowed(t, e)
             && e.ContentStop?
    ensures ReadsOn(Words(Tell(b, e), kind), Note(t, e), Apply(z, Image(e), text), kind)
  {
    ImageDepicts(e);
    WireStep(z, t, e, Image(e), text);
    var joined, after := Joined(z.response.content, kind), Note(t, e);
    forall i
      ensures OfKind(after, i, kind) <==> i != e.index && OfKind(t, i, kind)
    {
    }
    if e.index in z.blocks {
      assert e.index in t.open;
      ClosedKeepsKind(z, e, text);
      ClosedKeepsText(z.blocks[e.index], text);
      JoinedOneMore(z.response.content, Collector.Closed(z.blocks[e.index], text), kind);
    }
    hide Joined, Collector.Closed, WireBlocks, WireKind;
    assert joined + "" == joined;
  }

  lemma {:induction false} ClosedKeepsText(block: Block, text: JsonText)
    ensures Collector.Closed(block, text).text == block.content.text
  {
  }

  lemma {:induction false} ReadsOnStays(es: seq<StreamEvent>, kind: ContentType, text: JsonText)
    requires (kind == TextType || kind == ReasoningType) && Orderly(es) && OneAtATime(es, kind)
    ensures ReadsOn(Words(Told(es), kind), Noted(es), Whole(es, text), kind)
  {
    hide ReadsOn, Allowed, Note, Tell, Whole, Apply, Image, Words;
    if es == [] {
      NothingRead(kind, text);
    } else {
      var m, e := |es| - 1, es[|es| - 1];
      assert es == es[..m] + [e];
      ReadsOnStays(es[..m], kind, text);
      WholeOneMore(es[..m], e, text);
      var b, t, z := Told(es[..m]), Noted(es[..m]), Whole(es[..m], text);
      match e
      case ContentStart(_, _) => StartReadsOn(b, t, z, e, kind, text);
      case ContentDelta(_, _, _) => DeltaReadsOn(b, t, z, e, kind, text);
      case ContentStop(_) => StopReadsOn(b, t, z, e, kind, text);
      case _ => OtherReadsOn(b, t, z, e, kind, text);
    }
  }

  lemma {:induction false} OtherReadsOn(b: Books, t: Ledger, z: Collected, e: StreamEvent, kind: ContentType,
                                        text: JsonText)
    requires ReadsOn(Words(b, kind), t, z, kind) && (e.Start? || e.Done?)
    ensures ReadsOn(Words(Tell(b, e), kind), Note(t, e), Apply(z, Image(e), text), kind)
  {
    hide Joined;
    assert forall i :: OfKind(Note(t, e), i, kind) == OfKind(t, i, kind);
  }

  lemma {:induction false} NothingRead(kind: ContentType, text: JsonText)
    ensures ReadsOn(Words(Told([]), kind), Noted([]), Whole([], text), kind)
  {
  }

  /** When its blocks of one kind come one at a time, a complete run tells what its closed blocks say. */
  lemma {:induction false} ArrivalReadsLikeBlocks(es: seq<StreamEvent>, kind: ContentType, text: JsonText)
    requires (kind == TextType || kind == ReasoningType) && Complete(es) && OneAtATime(es, kind)
    ensures Words(Told(es), kind) == Joined(Whole(es, text).response.content, kind)
  {
    hide Orderly, Told, Whole, Joined, Words;
    CompleteEnds(es);
    ReadsOnStays(es, kind, text);
    assert NoneOpen(Noted(es), kind);
  }

  // ---- A response printed and read --------------------------------------------------------

  lemma {:induction false} ItemOneAtATime(es: seq<StreamEvent>, c: Content, n: nat, kind: ContentType, text: JsonText)
    requires OneAtATime(es, kind) && Noted(es).open == map[]
    ensures OneAtATime(es + ItemEvents(c, n, text), kind)
  {
    hide Noted, OneAtATime;
    var item := ItemEvents(c, n, text);
    OneAtATimeMore(es, item[0], kind);
    OneAtATimeMore(es + [item[0]], item[1], kind);
    OneAtATimeMore(es + [item[0]] + [item[1]], item[2], kind);
    assert es + [item[0]] + [item[1]] + [item[2]] == es + item;
  }

  lemma {:induction false} OneAtATimeMore(es: seq<StreamEvent>, e: StreamEvent, kind: ContentType)
    ensures OneAtATime(es + [e], kind) <==>
            OneAtATime(es, kind) && (e.ContentStart? && WireKind(e.content.kind) == kind ==> NoneOpen(Noted(es), kind))
  {
    hide Noted, NoneOpen;
    var whole := es + [e];
    assert whole[..|whole| - 1] == es && whole[|whole| - 1] == e;
  }

  lemma {:induction false} PrefixOneAtATime(r: Response, n: nat, kind: ContentType, text: JsonText)
    requires n <= |r.content|
    ensures OneAtATime(PrefixEvents(r, n, text), kind)
  {
    hide ItemEvents, Noted;
    var start := Start(r.id, r.model, r.usage);
    if n == 0 {
      assert [start] + [] == [] + [start];
      OneAtATimeMore([], start, kind);
    } else {
      PrefixOneAtATime(r, n - 1, kind, text);
      PrefixIsOrderly(r, n - 1, text);
      ItemOneAtATime(PrefixEvents(r, n - 1, text), r.content[n - 1], n - 1, kind, text);
      assert PrefixEvents(r, n, text) == PrefixEvents(r, n - 1, text) + ItemEvents(r.content[n - 1], n - 1, text);
    }
  }

  lemma {:induction false} ResponseOneAtATime(r: Response, kind: ContentType, text: JsonText)
    ensures OneAtATime(ResponseEvents(r, text), kind)
  {
    hide OneAtATime, ContentEvents;
    PrefixOneAtATime(r, |r.content|, kind, text);
    var before, done := PrefixEvents(r, |r.content|, text), Done(r.stopReason, r.usage);
    assert ResponseEvents(r, text) == before + [done];
    OneAtATimeMore(before, done, kind);
  }

  // The wire keeps the text, the reasoning and the calls of the items it carries.
  lemma {:induction false} PortableReads(contents: seq<Content>)
    ensures JoinedText(PortableAll(contents)) == JoinedText(contents)
    ensures JoinedReasoning(PortableAll(contents)) == JoinedReasoning(contents)
    ensures Calls(PortableAll(contents)) == Calls(contents)
  {
    hide JoinedText, JoinedReasoning, Calls, Portable;
    if contents == [] {
      assert PortableAll(contents) == contents;
    } else {
      var n := |contents| - 1;
      PortableReads(contents[..n]);
      assert PortableAll(contents) == PortableAll(contents[..n]) + [Portable(contents[n])];
      assert contents == contents[..n] + [contents[n]];
      OneMore(contents[..n], contents[n]);
      OneMore(PortableAll(contents[..n]), Portable(contents[n]));
      PortableTwice(contents[n]);
    }
  }

  lemma {:induction false} PortableTwice(c: Content)
    ensures Portable(Portable(c)) == Portable(c) && Portable(c).kind == WireKind(c.kind)
    ensures Portable(c).kind != ToolCallType ==> Portable(c).text == c.text
  {
  }

  /**
   * The chat stream round trip. Collecting the printed stream never fails, and in whatever order
   * closeBlocks walks its map, the concatenated text, the concatenated reasoning and the multiset of
   * calls come back; the stop reason survives exactly when it is stop, length, tool_use or
   * content_filter; input, output and total usage survive when present.
   */
  lemma {:induction false} RoundTrip(r: Response, env: Env, result: Result<Response, Failure>)
    requires ArgumentsSurvive(r.content, env.text)
    requires Outcome(OpenAIChat, Written(OpenAIChat, r, env), env.text, result)
    ensures result.Ok?
    ensures var got := result.value;
            && JoinedText(got.content) == JoinedText(r.content)
            && JoinedReasoning(got.content) == JoinedReasoning(r.content)
            && Calls(got.content) == Calls(r.content)
            && (got.stopReason == r.stopReason <==> r.stopReason in {"stop", "length", "tool_use", "content_filter"})
            && got.model == r.model
            && (if r.usage.None? then got.usage == None
                else
                  var u := r.usage.value;
                  got.usage == Some(Usage(u.input, u.output, u.total, 0, 0, 0)))
  {
    hide EncodeAll, Complete, Outcome, Whole, Told, JoinedText, JoinedReasoning, Calls, ApplyAll, PortableAll,
         OneAtATime, SurvivingStop, DefaultStopReason, ArgumentsSurvive, ContentEvents;
    var es := ResponseEvents(r, env.text);
    ResponseIsComplete(r, env.text);
    RunCollects(es, env, result);
    ResponseCollects(r, env.text);
    ResponseEnvelope(r, env.text);
    ResponseOneAtATime(r, TextType, env.text);
    ResponseOneAtATime(r, ReasoningType, env.text);
    ArrivalReadsLikeBlocks(es, TextType, env.text);
    ArrivalReadsLikeBlocks(es, ReasoningType, env.text);
    PortableReads(r.content);
    StopReasonSurvivesIff(r.stopReason);
    StopReasonOfEmpty(r.stopReason);
  }

  // ---- A stream translated and read -------------------------------------------------------

  /**
   * Translating to a chat stream. When the decoder's run is orderly, collecting the written frames never
   * fails and gives the calls of the response returned, in some order, and its text and reasoning
   * concatenated, as they arrived; that is how the response reads when blocks of a kind come one at a
   * time. The stop reason survives as in the round trip; of the usage, input, output and total tokens.
   */
  lemma {:induction false} TranslationKeeps(from: Protocol, ds: seq<Delivery>, last: seq<int>, env: Env,
                                            result: Result<Response, Failure>)
    requires Run(Initial(from), ds, env.text).Decoded? && Complete(StreamEvents(from, ds, last, env.text))
    requires Outcome(OpenAIChat, Translate(from, OpenAIChat, ds, last, env).value.0, env.text, result)
    ensures result.Ok?
    ensures var r, got := Translate(from, OpenAIChat, ds, last, env).value.1, result.value;
            var es := StreamEvents(from, ds, last, env.text);
            && Calls(got.content) == Calls(r.content)
            && JoinedText(got.content) == Told(es).text && JoinedReasoning(got.content) == Told(es).thoughts
            && (OneAtATime(es, TextType) ==> JoinedText(got.content) == JoinedText(r.content))
            && (OneAtATime(es, ReasoningType) ==> JoinedReasoning(got.content) == JoinedReasoning(r.content))
            && (got.stopReason == r.stopReason <==> r.stopReason in {"stop", "length", "tool_use", "content_filter"})
            && got.model == r.model && got.usage == SurvivingUsage(r.usage)
  {
    hide Run, EncodeAll, Complete, Outcome, Streams.Finish, AllPlain, AllBare, Whole, Told, JoinedText, JoinedReasoning,
         Calls, ApplyAll, OneAtATime, SurvivingStop, SurvivingUsage;
    var es := StreamEvents(from, ds, last, env.text);
    StreamIsPlain(from, ds, last, env.text);
    RunCollects(es, env, result);
    EncoderCollects(OpenAIChat, FRESH, es, env);
    WholeOfPlain(es, env.text);
    UsageIsTheLast(from, OpenAIChat, ds, last, env);
    StopReasonSurvivesIff(ApplyAll(EMPTY, es, env.text).response.stopReason);
    if OneAtATime(es, TextType) {
      ArrivalReadsLikeBlocks(es, TextType, env.text);
    }
    if OneAtATime(es, ReasoningType) {
      ArrivalReadsLikeBlocks(es, ReasoningType, env.text);
    }
  }
}
