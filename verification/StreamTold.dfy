/** What a run of events tells of each block, and that this is what is collected (proxy/codec/stream.go). */
module StreamTold {
  import opened Canonical
  import opened Collector
  import opened Json
  import opened OrderlyRuns
  import opened StreamTypes
  import opened Wrappers
  import ResponsesRoundTrip
  import Sequences

  // ---- Blocks, told by their events -------------------------------------------------------

  predicate Starts(e: StreamEvent, i: int) {
    e.ContentStart? && e.index == i
  }

  // The content a block was started with.
  function Opening(es: seq<StreamEvent>, i: int): Option<Content> {
    if es == [] then None
    else if Starts(es[|es| - 1], i) then Some(es[|es| - 1].content)
    else Opening(es[..|es| - 1], i)
  }

  // The text fragments of a block since its start, in order.
  function Spoken(es: seq<StreamEvent>, i: int): string {
    if es == [] || Starts(es[|es| - 1], i) then ""
    else
      var before, e := Spoken(es[..|es| - 1], i), es[|es| - 1];
      if e.ContentDelta? && e.index == i && e.content.kind in {TextType, ReasoningType} then before + e.content.text
      else before
  }

  // The argument fragments of a block since its start, in order.
  function ArgumentsTold(es: seq<StreamEvent>, i: int): string {
    if es == [] || Starts(es[|es| - 1], i) then ""
    else
      var before, e := ArgumentsTold(es[..|es| - 1], i), es[|es| - 1];
      if e.ContentDelta? && e.index == i && e.content.kind !in {TextType, ReasoningType} then before + e.argumentsDelta
      else before
  }

  // A block as its events tell it: a call's arguments are the object its fragments parse to, if they do.
  function BlockTold(es: seq<StreamEvent>, i: int, text: JsonText): Content {
    match Opening(es, i)
    case None => TextContent("")
    case Some(c) =>
      if c.kind.ToolCallType? then
        var parsed := text.parse(ArgumentsTold(es, i));
        c.(arguments := if parsed.Some? && parsed.value.Obj? then parsed.value else Null)
      else c.(text := c.text + Spoken(es, i))
  }

  // The blocks stopped, in the order of their stops.
  function ContentTold(es: seq<StreamEvent>, text: JsonText): seq<Content> {
    if es == [] then []
    else
      var rest, e := es[..|es| - 1], es[|es| - 1];
      if e.ContentStop? && e.index in Noted(rest).open
      then ContentTold(rest, text) + [BlockTold(rest, e.index, text)]
      else ContentTold(rest, text)
  }

  lemma {:induction false} ToldOneMore(es: seq<StreamEvent>, e: StreamEvent, i: int)
    ensures Opening(es + [e], i) == if Starts(e, i) then Some(e.content) else Opening(es, i)
    ensures Spoken(es + [e], i) ==
            if Starts(e, i) then ""
            else if e.ContentDelta? && e.index == i && e.content.kind in {TextType, ReasoningType}
            then Spoken(es, i) + e.content.text else Spoken(es, i)
    ensures ArgumentsTold(es + [e], i) ==
            if Starts(e, i) then ""
            else if e.ContentDelta? && e.index == i && e.content.kind !in {TextType, ReasoningType}
            then ArgumentsTold(es, i) + e.argumentsDelta else ArgumentsTold(es, i)
  {
    assert (es + [e])[..|es|] == es;
  }

  lemma {:induction false} ContentToldOneMore(es: seq<StreamEvent>, e: StreamEvent, text: JsonText)
    ensures ContentTold(es + [e], text) ==
            if e.ContentStop? && e.index in Noted(es).open then ContentTold(es, text) + [BlockTold(es, e.index, text)]
            else ContentTold(es, text)
  {
    hide Noted, BlockTold;
    assert (es + [e])[..|es|] == es;
  }

  // ---- The collector holds what was told --------------------------------------------------

  ghost predicate Holds(block: Block, es: seq<StreamEvent>, i: int) {
    var c := Opening(es, i);
    && c.Some? && block.arguments == ArgumentsTold(es, i)
    && block.content == c.value.(text := c.value.text + Spoken(es, i))
  }

  ghost predicate HoldsOpen(z: Collected, es: seq<StreamEvent>) {
    forall i :: i in Noted(es).open ==> i in z.blocks && Holds(z.blocks[i], es, i)
  }

  lemma {:induction false} GrowthHeld(block: Block, es: seq<StreamEvent>, e: StreamEvent)
    requires e.ContentDelta? && Holds(block, es, e.index) && block.content.kind == e.content.kind
    ensures Holds(Grow(block, e), es + [e], e.index)
  {
    ToldOneMore(es, e, e.index);
    hide Opening, Spoken, ArgumentsTold;
    var c := Opening(es, e.index).value;
    Sequences.Associative(c.text, Spoken(es, e.index), e.content.text);
  }

  lemma {:induction false} StartHeld(es: seq<StreamEvent>, e: StreamEvent)
    requires e.ContentStart?
    ensures Holds(Block(e.content, ""), es + [e], e.index)
  {
    ToldOneMore(es, e, e.index);
    hide Opening, Spoken, ArgumentsTold;
    assert e.content.text + "" == e.content.text;
  }

  lemma {:induction false} OtherHeld(block: Block, es: seq<StreamEvent>, e: StreamEvent, i: int)
    requires Holds(block, es, i) && (e.ContentStart? || e.ContentDelta? ==> e.index != i)
    ensures Holds(block, es + [e], i)
  {
    ToldOneMore(es, e, i);
    hide Opening, Spoken, ArgumentsTold;
  }

  lemma {:induction false} OpenHeld(z: Collected, es: seq<StreamEvent>, e: StreamEvent, text: JsonText)
    requires HoldsOpen(z, es) && Allowed(Noted(es), e) && ResponsesRoundTrip.RawBlocks(z, Noted(es))
    ensures HoldsOpen(Apply(z, e, text), es + [e])
  {
    OrderlyOneMore(es, e);
    hide Noted, Orderly, Holds, Grow, Collector.Closed;
    var after := Apply(z, e, text);
    forall i | i in Noted(es + [e]).open
      ensures i in after.blocks && Holds(after.blocks[i], es + [e], i)
    {
      if e.ContentStart? && e.index == i {
        StartHeld(es, e);
      } else if e.ContentDelta? && e.index == i {
        GrowthHeld(z.blocks[i], es, e);
      } else {
        OtherHeld(z.blocks[i], es, e, i);
      }
    }
  }

  lemma {:induction false} ClosedIsTold(block: Block, es: seq<StreamEvent>, i: int, text: JsonText)
    requires Holds(block, es, i) && (block.content.kind.ToolCallType? ==> Spoken(es, i) == "")
    ensures Collector.Closed(block, text) == BlockTold(es, i, text)
  {
    hide Opening, Spoken, ArgumentsTold;
    var c := Opening(es, i).value;
    assert c.text + "" == c.text;
  }

  // A call is told no text.
  lemma {:induction false} CallsAreSilent(es: seq<StreamEvent>, i: int)
    requires Orderly(es) && i in Noted(es).open && Noted(es).open[i].ToolCallType?
    ensures Spoken(es, i) == ""
  {
    if es != [] {
      var n := |es| - 1;
      if !Starts(es[n], i) {
        CallsAreSilent(es[..n], i);
      }
    }
  }

  /**
   * Of every orderly run the collector holds, for each open block, the content it was started with and its
   * fragments in order; and its content list is the blocks as told, in the order of their stops.
   */
  lemma {:induction false} CollectedIsTold(es: seq<StreamEvent>, text: JsonText)
    requires Orderly(es)
    ensures var z := ApplyAll(EMPTY, es, text);
            HoldsOpen(z, es) && z.response.content == ContentTold(es, text)
  {
    hide Apply, Allowed, Note, HoldsOpen, ContentTold, ResponsesRoundTrip.RawBlocks, BlockTold;
    if es == [] {
      NothingTold(text);
    } else {
      var n, e := |es| - 1, es[|es| - 1];
      var z := ApplyAll(EMPTY, es[..n], text);
      assert es == es[..n] + [e];
      CollectedIsTold(es[..n], text);
      ResponsesRoundTrip.RawStays(es[..n], text);
      OpenHeld(z, es[..n], e, text);
      ContentToldOneMore(es[..n], e, text);
      StopIsTold(z, es[..n], e, text);
    }
  }

  lemma {:induction false} StopIsTold(z: Collected, es: seq<StreamEvent>, e: StreamEvent, text: JsonText)
    requires HoldsOpen(z, es) && Orderly(es) && Allowed(Noted(es), e) && ResponsesRoundTrip.RawBlocks(z, Noted(es))
    ensures Apply(z, e, text).response.content ==
            z.response.content + if e.ContentStop? && e.index in Noted(es).open then [BlockTold(es, e.index, text)]
                else []
  {
    hide Noted, Orderly, Holds, Grow, Collector.Closed, BlockTold;
    assert z.response.content + [] == z.response.content;
    if e.ContentStop? && e.index in Noted(es).open {
      if Noted(es).open[e.index].ToolCallType? {
        CallsAreSilent(es, e.index);
      }
      ClosedIsTold(z.blocks[e.index], es, e.index, text);
    }
  }

  lemma {:induction false} NothingTold(text: JsonText)
    ensures HoldsOpen(EMPTY, []) && ContentTold([], text) == [] && EMPTY.response.content == []
  {
  }

  // ---- The envelope -----------------------------------------------------------------------

  // The last start and the last done, and the last usage either of them told.
  function LastStart(es: seq<StreamEvent>): (r: Option<StreamEvent>)
    ensures r.Some? ==> r.value.Start?
  {
    if es == [] then None
    else if es[|es| - 1].Start? then Some(es[|es| - 1]) else LastStart(es[..|es| - 1])
  }

  function LastDone(es: seq<StreamEvent>): (r: Option<StreamEvent>)
    ensures r.Some? ==> r.value.Done?
  {
    if es == [] then None
    else if es[|es| - 1].Done? then Some(es[|es| - 1]) else LastDone(es[..|es| - 1])
  }

  function UsageTold(es: seq<StreamEvent>): Option<Usage> {
    if es == [] then None
    else
      var e := es[|es| - 1];
      if (e.Start? || e.Done?) && e.usage.Some? then e.usage else UsageTold(es[..|es| - 1])
  }

  /** The response collected has the id and model of the last start, the reason of the last done, and the last usage. */
  lemma {:induction false} EnvelopeIsTold(es: seq<StreamEvent>, text: JsonText)
    ensures var r, start, done := ApplyAll(EMPTY, es, text).response, LastStart(es), LastDone(es);
            && (if start.None? then r.id == "" && r.model == ""
                else r.id == start.value.id && r.model == start.value.model)
            && r.stopReason == (if done.None? then ""
                                else if done.value.stopReason == "" then "stop" else done.value.stopReason)
            && r.usage == UsageTold(es)
  {
    hide Grow, Collector.Closed;
    if es != [] {
      EnvelopeIsTold(es[..|es| - 1], text);
    }
  }
}
