/** What the Anthropic bridge makes of an answer, told by its events or blocks (anthropic/openai.go). */
module BridgeTold {
  import opened AnthropicBridge
  import opened AnthropicTypes
  import opened ChatTypes
  import opened ResponseAssembler
  import opened Texts
  import opened Wrappers
  import AnthropicConversion

  // ---- Streamed ---------------------------------------------------------------------------

  predicate Ends(e: Event) {
    e.kind == "error" || e.kind == "message_stop"
  }

  ghost predicate StillOpen(events: seq<Event>) {
    forall e :: e in events ==> !Ends(e)
  }

  // The last message announced.
  function Announced(events: seq<Event>): MessageStart {
    if events == [] then MessageStart("", "", 0)
    else
      var e := events[|events| - 1];
      if e.kind == "message_start" && e.message.Some? then e.message.value else Announced(events[..|events| - 1])
  }

  // The events that are sent on: errors that say something, calls that start, fragments, and finish reasons.
  predicate Speaks(e: Event) {
    || (e.kind == "error" && e.error.Some?)
    || (e.kind == "content_block_start" && e.block.Some? && e.block.value.kind == "tool_use")
    || (e.kind == "content_block_delta" && e.delta.Some? &&
        var d := e.delta.value;
        || (d.kind == "text_delta" && d.text != "") || (d.kind == "thinking_delta" && d.thinking != "")
        || d.kind == "input_json_delta")
    || (e.kind == "message_delta" && e.delta.Some? && e.delta.value.stopReason != "")
  }

  function FinishTold(reason: string): string {
    if reason in {"end_turn", "stop_sequence"} then "stop"
    else if reason == "max_tokens" then "length"
    else if reason == "tool_use" then "tool_calls"
    else reason
  }

  predicate SaysMessage(c: Choice, content: string, reasoning: string, calls: seq<ToolCall>) {
    c.delta == Some(Message("", content, reasoning, calls, "", "")) && c.finishReason == ""
  }

  // What a choice says of an event other than an error.
  predicate ChoiceSays(c: Choice, e: Event)
    requires Speaks(e) && e.kind != "error"
  {
    var at := if e.index.Some? then e.index.value else 0;
    c.index == 0 && c.message == None &&
    if e.kind == "content_block_start" then
      SaysMessage(c, "", "", [ToolCall(at, e.block.value.id, "function", e.block.value.name, "")])
    else if e.kind == "message_delta" then c.delta == None && c.finishReason == FinishTold(e.delta.value.stopReason)
    else if e.delta.value.kind == "text_delta" then SaysMessage(c, e.delta.value.text, "", [])
    else if e.delta.value.kind == "thinking_delta" then SaysMessage(c, "", e.delta.value.thinking, [])
    else SaysMessage(c, "", "", [ToolCall(at, "", "", "", e.delta.value.partialJSON)])
  }

  // A chunk says an event, in the name of the message announced; the finish counts the tokens.
  predicate ChunkSays(chunk: Chunk, e: Event, m: MessageStart)
    requires Speaks(e)
  {
    if e.kind == "error" then chunk == Chunk("", "", e.error, [], None)
    else
      var output := if e.outputTokens.Some? then e.outputTokens.value else 0;
      && chunk.id == m.id && chunk.model == m.model && chunk.error == None
      && |chunk.choices| == 1 && ChoiceSays(chunk.choices[0], e)
      && chunk.usage == if e.kind == "message_delta"
                        then Some(CompletionUsage(m.inputTokens, output, m.inputTokens + output)) else None
  }

  // The events sent on before the end, by position.
  ghost function Sent(events: seq<Event>): seq<nat> {
    if events == [] then []
    else
      var n := |events| - 1;
      Sent(events[..n]) + if StillOpen(events[..n]) && Speaks(events[n]) then [n] else []
  }

  lemma {:induction false} StepSays(b: Bridge, e: Event, m: MessageStart)
    requires !b.closed && m == MessageStart(b.id, b.model, b.inputTokens)
    ensures var c := Step(b, e);
            && (c.closed <==> Ends(e))
            && (if Speaks(e) then |c.chunks| == |b.chunks| + 1 && c.chunks[..|b.chunks|] == b.chunks
                                  && ChunkSays(c.chunks[|b.chunks|], e, m)
                else c.chunks == b.chunks)
            && MessageStart(c.id, c.model, c.inputTokens) ==
               if e.kind == "message_start" && e.message.Some? then e.message.value else m
  {
  }

  lemma {:induction false} OpenOneMore(events: seq<Event>)
    requires events != []
    ensures var n := |events| - 1; StillOpen(events) <==> StillOpen(events[..n]) && !Ends(events[n])
  {
    assert events == events[..|events| - 1] + [events[|events| - 1]];
  }

  /**
   * The chunks are the events sent on before the first error or stop, one for one and in order, each in the
   * name of the message announced before it.
   */
  lemma {:induction false} ChunksAreTold(events: seq<Event>)
    ensures var b, sent := Run(events), Sent(events);
            && (b.closed <==> !StillOpen(events))
            && (StillOpen(events) ==> Announced(events) == MessageStart(b.id, b.model, b.inputTokens))
            && |b.chunks| == |sent|
            && forall k :: 0 <= k < |sent| ==>
                 sent[k] < |events| && Speaks(events[sent[k]])
                 && ChunkSays(b.chunks[k], events[sent[k]], Announced(events[..sent[k]]))
  {
    hide Step, StillOpen, Speaks, ChunkSays, Ends;
    if events == [] {
      NothingEnds();
    } else {
      var n := |events| - 1;
      var before, sent := Run(events[..n]), Sent(events[..n]);
      ChunksAreTold(events[..n]);
      OpenOneMore(events);
      if before.closed {
        StepClosed(before, events[n]);
      } else {
        StepSays(before, events[n], Announced(events[..n]));
      }
      var after := Run(events);
      assert forall k :: 0 <= k < |sent| ==> after.chunks[k] == before.chunks[k];
      assert forall k :: 0 <= k < |sent| ==> events[..n][..sent[k]] == events[..sent[k]];
    }
  }

  lemma {:induction false} NothingEnds()
    ensures StillOpen([])
  {
  }

  // ---- Whole ------------------------------------------------------------------------------

  function TextsOf(blocks: seq<Block>): (r: seq<string>)
    ensures |r| == |blocks|
  {
    seq(|blocks|, i requires 0 <= i < |blocks| => blocks[i].text)
  }

  function ThoughtsOf(blocks: seq<Block>): (r: seq<string>)
    ensures |r| == |blocks|
  {
    seq(|blocks|, i requires 0 <= i < |blocks| => blocks[i].thinking)
  }

  // The k-th call is the k-th tool_use block, and numbered so.
  predicate CallsAre(calls: seq<ToolCall>, uses: seq<Block>) {
    && |calls| == |uses|
    && forall k :: 0 <= k < |calls| ==>
         calls[k] ==
         ToolCall(k, uses[k].id, "function", uses[k].name, if uses[k].input == "" then "{}" else uses[k].input)
  }

  // The assistant's message: the texts put together, the thoughts put together, and the calls.
  ghost predicate WholeSays(m: Message, texts: seq<Block>, thoughts: seq<Block>, uses: seq<Block>) {
    && m == Message("assistant", m.content, m.reasoning, m.toolCalls, "", "")
    && Assembles(TextsOf(texts), m.content) && Assembles(ThoughtsOf(thoughts), m.reasoning)
    && CallsAre(m.toolCalls, uses)
  }

  lemma {:induction false} BlockSays(m: Message, b: Block, texts: seq<Block>, thoughts: seq<Block>, uses: seq<Block>)
    requires WholeSays(m, texts, thoughts, uses)
    ensures WholeSays(AddBlock(m, b), if b.kind == "text" then texts + [b] else texts,
                      if b.kind == "thinking" then thoughts + [b] else thoughts,
                      if b.kind == "tool_use" then uses + [b] else uses)
  {
    hide Assembles;
    AssemblesOneMore(TextsOf(texts), b.text, m.content);
    AssemblesOneMore(ThoughtsOf(thoughts), b.thinking, m.reasoning);
    assert TextsOf(texts + [b]) == TextsOf(texts) + [b.text];
    assert ThoughtsOf(thoughts + [b]) == ThoughtsOf(thoughts) + [b.thinking];
  }

  /** A whole answer says what its blocks say, kind by kind and in their order. */
  lemma {:induction false} WholeIsTold(blocks: seq<Block>)
    ensures WholeSays(AddBlocks(blocks), AnthropicConversion.BlocksOfKind(blocks, "text"),
                      AnthropicConversion.BlocksOfKind(blocks, "thinking"),
                      AnthropicConversion.BlocksOfKind(blocks, "tool_use"))
  {
    hide WholeSays, AddBlock;
    if blocks == [] {
      NothingSaid();
    } else {
      var n := |blocks| - 1;
      WholeIsTold(blocks[..n]);
      BlockSays(AddBlocks(blocks[..n]), blocks[n], AnthropicConversion.BlocksOfKind(blocks[..n], "text"),
                AnthropicConversion.BlocksOfKind(blocks[..n], "thinking"),
                AnthropicConversion.BlocksOfKind(blocks[..n], "tool_use"));
    }
  }

  lemma {:induction false} NothingSaid()
    ensures WholeSays(AddBlocks([]), [], [], [])
  {
    assert TextsOf([]) == [] && ThoughtsOf([]) == [];
  }
}
