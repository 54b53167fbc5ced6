/** The fold of canonical events into a response, shared by all encoders (proxy/codec/stream.go). */
module Collector {
  import opened Wrappers
  import opened Json
  import opened Canonical
  import opened StopReasons
  import opened StreamTypes

  datatype Block = Block(content: Content, arguments: string)

  datatype Collected = Collected(response: Response, blocks: map<int, Block>)

  const EMPTY := Collected(EMPTY_RESPONSE, map[])

  function Grow(block: Block, e: StreamEvent): Block
    requires e.ContentDelta?
  {
    if e.content.kind == TextType || e.content.kind == ReasoningType then
      block.(content := block.content.(kind := e.content.kind, text := block.content.text + e.content.text))
    else
      block.(arguments := block.arguments + e.argumentsDelta)
  }

  // What a stop appends: the block's content, a tool call with its arguments parsed.
  function Closed(block: Block, text: JsonText): Content {
    if block.content.kind == ToolCallType then
      var parsed := ParseArguments(Str(block.arguments), text);
      block.content.(arguments := if parsed.Some? then parsed.value else Null)
    else
      block.content
  }

  function Apply(c: Collected, e: StreamEvent, text: JsonText): Collected {
    match e
    case Start(id, model, usage) =>
      c.(response := c.response.(id := id, model := model, usage := if usage.Some? then usage else c.response.usage))
    case ContentStart(index, content) =>
      c.(blocks := c.blocks[index := Block(content, "")])
    case ContentDelta(index, content, _) =>
      var block := if index in c.blocks then c.blocks[index] else Block(content, "");
      c.(blocks := c.blocks[index := Grow(block, e)])
    case ContentStop(index) =>
      if index !in c.blocks then c
      else
        var block := c.blocks[index];
        var content := Closed(block, text);
        Collected(c.response.(content := c.response.content + [content]),
                  c.blocks[index := block.(content := content)])
    case Done(stopReason, usage) =>
      c.(response := c.response.(stopReason := DefaultStopReason(stopReason),
                                 usage := if usage.Some? then usage else c.response.usage))
  }

  function ApplyAll(c: Collected, es: seq<StreamEvent>, text: JsonText): Collected {
    if es == [] then c
    else Apply(ApplyAll(c, es[..|es| - 1], text), es[|es| - 1], text)
  }

  lemma {:induction false} ApplyAllConcat(c: Collected, a: seq<StreamEvent>, b: seq<StreamEvent>, text: JsonText)
    ensures ApplyAll(c, a + b, text) == ApplyAll(ApplyAll(c, a, text), b, text)
    ensures ApplyAll(c, [], text) == c
    decreases |b|
  {
    if b == [] {
      assert a + b == a;
    } else {
      var n := |b| - 1;
      assert (a + b)[..|a| + n] == a + b[..n];
      ApplyAllConcat(c, a, b[..n], text);
    }
  }

  /** `streamEncoderBase`: the fields every stream encoder carries. */
  class Base {
    var response: Response
    var blocks: map<int, Block>

    constructor ()
      ensures State() == EMPTY
    {
      response := EMPTY_RESPONSE;
      blocks := map[];
    }

    function State(): Collected
      reads this
    {
      Collected(response, blocks)
    }

    method ApplyEvent(e: StreamEvent, text: JsonText)
      modifies this
      ensures State() == Apply(old(State()), e, text)
    {
      match e
      case Start(id, model, usage) =>
        response := response.(id := id, model := model);
        if usage.Some? {
          response := response.(usage := usage);
        }
      case ContentStart(index, content) =>
        blocks := blocks[index := Block(content, "")];
      case ContentDelta(index, content, argumentsDelta) =>
        if index !in blocks {
          blocks := blocks[index := Block(content, "")];
        }
        var block := blocks[index];
        if content.kind == TextType {
          block := block.(content := block.content.(kind := TextType, text := block.content.text + content.text));
        } else if content.kind == ReasoningType {
          block := block.(content := block.content.(kind := ReasoningType, text := block.content.text + content.text));
        } else {
          block := block.(arguments := block.arguments + argumentsDelta);
        }
        blocks := blocks[index := block];
      case ContentStop(index) =>
        if index in blocks {
          var block := blocks[index];
          if block.content.kind == ToolCallType {
            var parsed := ParseArguments(Str(block.arguments), text);
            block := block.(content := block.content.(arguments := if parsed.Some? then parsed.value else Null));
          }
          blocks := blocks[index := block];
          response := response.(content := response.content + [block.content]);
        }
      case Done(stopReason, usage) =>
        response := response.(stopReason := DefaultStopReason(stopReason));
        if usage.Some? {
          response := response.(usage := usage);
        }
    }
  }

  // ---- Interleaving -----------------------------------------------------------------------

  predicate AtIndex(e: StreamEvent, i: int) {
    match e
    case ContentStart(index, _) => index == i
    case ContentDelta(index, _, _) => index == i
    case ContentStop(index) => index == i
    case _ => false
  }

  // The events of one block, in order.
  function OfBlock(es: seq<StreamEvent>, i: int): seq<StreamEvent> {
    if es == [] then []
    else
      var e := es[|es| - 1];
      var before := OfBlock(es[..|es| - 1], i);
      if AtIndex(e, i) then before + [e] else before
  }

  // The blocks in the order they stop.
  function Stops(es: seq<StreamEvent>): seq<int> {
    if es == [] then []
    else
      var e := es[|es| - 1];
      var before := Stops(es[..|es| - 1]);
      if e.ContentStop? then before + [e.index] else before
  }

  // The start and done events, in order.
  function Envelope(es: seq<StreamEvent>): seq<StreamEvent> {
    if es == [] then []
    else
      var e := es[|es| - 1];
      var before := Envelope(es[..|es| - 1]);
      if e.Start? || e.Done? then before + [e] else before
  }

  function Lookup(c: Collected, i: int): Option<Block> {
    if i in c.blocks then Some(c.blocks[i]) else None
  }

  // One slot for each stop: what it appended, if its block existed.
  function Slots(es: seq<StreamEvent>, text: JsonText): seq<Option<Content>> {
    if es == [] then []
    else
      var e := es[|es| - 1];
      var rest := es[..|es| - 1];
      if e.ContentStop? then
        Slots(rest, text) + [Slot(Lookup(ApplyAll(EMPTY, rest, text), e.index), text)]
      else
        Slots(rest, text)
  }

  function Slot(block: Option<Block>, text: JsonText): Option<Content> {
    if block.Some? then Some(Closed(block.value, text)) else None
  }

  function Filled(slots: seq<Option<Content>>): seq<Content> {
    if slots == [] then []
    else
      var last := slots[|slots| - 1];
      var before := Filled(slots[..|slots| - 1]);
      if last.Some? then before + [last.value] else before
  }

  lemma {:induction false} BlocksAreLocal(es: seq<StreamEvent>, i: int, text: JsonText)
    ensures Lookup(ApplyAll(EMPTY, es, text), i) == Lookup(ApplyAll(EMPTY, OfBlock(es, i), text), i)
  {
    if es != [] {
      var n := |es| - 1;
      BlocksAreLocal(es[..n], i, text);
      if AtIndex(es[n], i) {
        var mine := OfBlock(es[..n], i);
        assert (mine + [es[n]])[..|mine|] == mine;
      }
    }
  }

  lemma {:induction false} ContentIsSlots(es: seq<StreamEvent>, text: JsonText)
    ensures ApplyAll(EMPTY, es, text).response.content == Filled(Slots(es, text))
    ensures |Slots(es, text)| == |Stops(es)|
  {
    if es != [] {
      var n := |es| - 1;
      ContentIsSlots(es[..n], text);
      if es[n].ContentStop? {
        var slots := Slots(es[..n], text);
        var slot := Slot(Lookup(ApplyAll(EMPTY, es[..n], text), es[n].index), text);
        assert (slots + [slot])[..|slots|] == slots;
      }
    }
  }

  lemma {:induction false} EnvelopeIsLocal(es: seq<StreamEvent>, text: JsonText)
    ensures var whole := ApplyAll(EMPTY, es, text).response;
            var part := ApplyAll(EMPTY, Envelope(es), text).response;
            whole.(content := []) == part.(content := [])
  {
    if es != [] {
      var n := |es| - 1;
      EnvelopeIsLocal(es[..n], text);
      if es[n].Start? || es[n].Done? {
        var mine := Envelope(es[..n]);
        assert (mine + [es[n]])[..|mine|] == mine;
      }
    }
  }

  lemma {:induction false} StopsOfBlock(es: seq<StreamEvent>, i: int, text: JsonText)
    ensures |Slots(OfBlock(es, i), text)| == multiset(Stops(es))[i]
  {
    if es != [] {
      var n := |es| - 1;
      StopsOfBlock(es[..n], i, text);
      if AtIndex(es[n], i) {
        var mine := OfBlock(es[..n], i);
        assert (mine + [es[n]])[..|mine|] == mine;
      }
    }
  }

  /** The n-th stop appends what its own block's events alone would append at the same repetition. */
  lemma {:induction false} SlotsAreLocal(es: seq<StreamEvent>, n: nat, text: JsonText)
    requires n < |Stops(es)|
    ensures |Slots(es, text)| == |Stops(es)|
    ensures var i := Stops(es)[n];
            var k := multiset(Stops(es)[..n])[i];
            k < |Slots(OfBlock(es, i), text)| && Slots(es, text)[n] == Slots(OfBlock(es, i), text)[k]
  {
    var m := |es| - 1;
    var e, rest, i := es[m], es[..m], Stops(es)[n];
    var k := multiset(Stops(es)[..n])[i];
    ContentIsSlots(rest, text);
    StopsOfBlock(rest, i, text);
    var mine := OfBlock(rest, i);
    assert AtIndex(e, i) ==> (mine + [e])[..|mine|] == mine;
    if n < |Stops(rest)| {
      assert Stops(es)[..n] == Stops(rest)[..n];
      SlotsAreLocal(rest, n, text);
    } else {
      assert Stops(es)[..n] == Stops(rest);
      BlocksAreLocal(rest, i, text);
    }
  }

  /**
   * The collector does not see how blocks interleave: runs with the same events per block, the same
   * order of stops and the same start and done events collect to the same state.
   */
  lemma {:induction false} InterleavingDoesNotMatter(a: seq<StreamEvent>, b: seq<StreamEvent>, text: JsonText)
    requires forall i :: OfBlock(a, i) == OfBlock(b, i)
    requires Stops(a) == Stops(b)
    requires Envelope(a) == Envelope(b)
    ensures ApplyAll(EMPTY, a, text) == ApplyAll(EMPTY, b, text)
  {
    var left, right := ApplyAll(EMPTY, a, text), ApplyAll(EMPTY, b, text);
    ContentIsSlots(a, text);
    ContentIsSlots(b, text);
    forall n | 0 <= n < |Stops(a)|
      ensures Slots(a, text)[n] == Slots(b, text)[n]
    {
      SlotsAreLocal(a, n, text);
      SlotsAreLocal(b, n, text);
    }
    assert Slots(a, text) == Slots(b, text);
    EnvelopeIsLocal(a, text);
    EnvelopeIsLocal(b, text);
    assert left.response == left.response.(content := []).(content := left.response.content);
    assert right.response == right.response.(content := []).(content := right.response.content);
    forall i
      ensures Lookup(left, i) == Lookup(right, i)
    {
      BlocksAreLocal(a, i, text);
      BlocksAreLocal(b, i, text);
    }
    SameLookups(left, right);
  }

  lemma {:induction false} SameLookups(c: Collected, d: Collected)
    requires forall i :: Lookup(c, i) == Lookup(d, i)
    ensures c.blocks == d.blocks
  {
    forall i
      ensures i in c.blocks <==> i in d.blocks
      ensures i in c.blocks && i in d.blocks ==> c.blocks[i] == d.blocks[i]
    {
      assert Lookup(c, i) == Lookup(d, i);
    }
  }
}
