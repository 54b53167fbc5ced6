/** Anthropic answers, streamed or whole, as the chat messages the agent builds (anthropic/openai.go). */
module AnthropicBridge {
  import opened AnthropicTypes
  import opened ChatTypes
  import opened MessageBuilder
  import opened ResponseAssembler
  import opened Wrappers
  import AgentRun

  datatype Delta = Delta(kind: string, text: string, thinking: string, partialJSON: string, stopReason: string)

  datatype MessageStart = MessageStart(id: string, model: string, inputTokens: int)

  // An undecodable delta is None.
  datatype Event = Event(
    kind: string,
    index: Option<int>,
    message: Option<MessageStart>,
    block: Option<Block>,
    delta: Option<Delta>,
    outputTokens: Option<int>,
    error: Option<string>)

  /** The bridge's variables, the chunks sent so far and whether the channel is closed. */
  datatype Bridge = Bridge(id: string, model: string, inputTokens: int, chunks: seq<Chunk>, closed: bool)

  const START := Bridge("", "", 0, [], false)

  function MapStopReason(reason: string): string {
    if reason == "end_turn" || reason == "stop_sequence" then "stop"
    else if reason == "max_tokens" then "length"
    else if reason == "tool_use" then "tool_calls"
    else reason
  }

  function IndexOf(e: Event): int {
    if e.index.Some? then e.index.value else 0
  }

  function ChatDelta(b: Bridge, m: Message): Chunk {
    Chunk(b.id, b.model, None, [Choice(0, None, Some(m), "")], None)
  }

  function Send(b: Bridge, chunk: Chunk): Bridge {
    b.(chunks := b.chunks + [chunk])
  }

  function CallStart(e: Event): Message
    requires e.block.Some?
  {
    EMPTY_MESSAGE.(toolCalls := [ToolCall(IndexOf(e), e.block.value.id, "function", e.block.value.name, "")])
  }

  function MessageOfDelta(e: Event): Message
    requires e.delta.Some?
  {
    var d := e.delta.value;
    if d.kind == "text_delta" then EMPTY_MESSAGE.(content := d.text)
    else if d.kind == "thinking_delta" then EMPTY_MESSAGE.(reasoning := d.thinking)
    else if d.kind == "input_json_delta" then
      EMPTY_MESSAGE.(toolCalls := [ToolCall(IndexOf(e), "", "", "", d.partialJSON)])
    else EMPTY_MESSAGE
  }

  function FinishChunk(b: Bridge, e: Event): Chunk
    requires e.delta.Some?
  {
    var output := if e.outputTokens.Some? then e.outputTokens.value else 0;
    Chunk(b.id, b.model, None, [Choice(0, None, None, MapStopReason(e.delta.value.stopReason))],
          Some(CompletionUsage(b.inputTokens, output, b.inputTokens + output)))
  }

  function Step(b: Bridge, e: Event): Bridge {
    if b.closed then b
    else if e.kind == "error" then
      (if e.error.Some? then Send(b, Chunk("", "", e.error, [], None)) else b).(closed := true)
    else if e.kind == "message_start" then
      if e.message.None? then b
      else b.(id := e.message.value.id, model := e.message.value.model, inputTokens := e.message.value.inputTokens)
    else if e.kind == "content_block_start" then
      if e.block.None? || e.block.value.kind != TOOL_USE then b else Send(b, ChatDelta(b, CallStart(e)))
    else if e.kind == "content_block_delta" then
      if e.delta.None? || IsEmpty(MessageOfDelta(e)) then b else Send(b, ChatDelta(b, MessageOfDelta(e)))
    else if e.kind == "message_delta" then
      if e.delta.None? || e.delta.value.stopReason == "" then b else Send(b, FinishChunk(b, e))
    else if e.kind == "message_stop" then b.(closed := true)
    else b
  }

  function Run(events: seq<Event>): Bridge {
    if events == [] then START else Step(Run(events[..|events| - 1]), events[|events| - 1])
  }

  lemma {:induction false} ClosedStays(events: seq<Event>, n: nat)
    requires n <= |events| && Run(events[..n]).closed
    ensures Run(events) == Run(events[..n])
    decreases |events|
  {
    hide Step;
    if n == |events| {
      assert events[..n] == events;
    } else {
      assert events[..|events| - 1][..n] == events[..n];
      ClosedStays(events[..|events| - 1], n);
      StepClosed(Run(events[..n]), events[|events| - 1]);
    }
  }

  lemma {:induction false} StepClosed(b: Bridge, e: Event)
    ensures b.closed ==> Step(b, e) == b
  {
  }

  /** `AnthropicStreamToChatCompletionStream`: the chunks put on the channel before it is closed. */
  method Translate(events: seq<Event>) returns (chunks: seq<Chunk>)
    ensures chunks == Run(events).chunks
  {
    var messageID, model, inputTokens := "", "", 0;
    chunks := [];
    for i := 0 to |events|
      invariant Bridge(messageID, model, inputTokens, chunks, false) == Run(events[..i])
    {
      assert events[..i + 1][..i] == events[..i];
      var e := events[i];
      if e.kind == "error" {
        if e.error.Some? {
          chunks := chunks + [Chunk("", "", e.error, [], None)];
        }
        ClosedStays(events, i + 1);
        return;
      } else if e.kind == "message_start" {
        if e.message.Some? {
          messageID, model, inputTokens := e.message.value.id, e.message.value.model, e.message.value.inputTokens;
        }
      } else if e.kind == "content_block_start" {
        if e.block.Some? && e.block.value.kind == TOOL_USE {
          var call := ToolCall(IndexOf(e), e.block.value.id, "function", e.block.value.name, "");
          var m := Message("", "", "", [call], "", "");
          chunks := chunks + [Chunk(messageID, model, None, [Choice(0, None, Some(m), "")], None)];
        }
      } else if e.kind == "content_block_delta" {
        if e.delta.Some? {
          var m := MessageOfDelta(e);
          if !IsEmpty(m) {
            chunks := chunks + [Chunk(messageID, model, None, [Choice(0, None, Some(m), "")], None)];
          }
        }
      } else if e.kind == "message_delta" {
        if e.delta.Some? && e.delta.value.stopReason != "" {
          chunks := chunks + [FinishChunk(Bridge(messageID, model, inputTokens, chunks, false), e)];
        }
      } else if e.kind == "message_stop" {
        ClosedStays(events, i + 1);
        return;
      }
    }
    assert events[..|events|] == events;
  }

  // ---- The whole answer -------------------------------------------------------------------

  function CallOf(index: int, b: Block): ToolCall {
    ToolCall(index, b.id, "function", b.name, if b.input == "" then "{}" else b.input)
  }

  function AddBlock(m: Message, b: Block): Message {
    if b.kind == TEXT then m.(content := m.content + b.text)
    else if b.kind == THINKING then m.(reasoning := m.reasoning + b.thinking)
    else if b.kind == TOOL_USE then m.(toolCalls := m.toolCalls + [CallOf(|m.toolCalls|, b)])
    else m
  }

  function AddBlocks(blocks: seq<Block>): Message {
    if blocks == [] then EMPTY_MESSAGE.(role := ROLE_ASSISTANT)
    else AddBlock(AddBlocks(blocks[..|blocks| - 1]), blocks[|blocks| - 1])
  }

  /** `NewChatCompletionResponseFromAnthropicResponse`, its message. */
  method ConvertResponse(blocks: seq<Block>) returns (m: Message)
    ensures m == AddBlocks(blocks)
  {
    m := Message(ROLE_ASSISTANT, "", "", [], "", "");
    for i := 0 to |blocks|
      invariant m == AddBlocks(blocks[..i])
    {
      assert blocks[..i + 1][..i] == blocks[..i];
      var b := blocks[i];
      if b.kind == TEXT {
        m := m.(content := m.content + b.text);
      } else if b.kind == THINKING {
        m := m.(reasoning := m.reasoning + b.thinking);
      } else if b.kind == TOOL_USE {
        var args := b.input;
        if args == "" {
          args := "{}";
        }
        m := m.(toolCalls := m.toolCalls + [ToolCall(|m.toolCalls|, b.id, "function", b.name, args)]);
      }
    }
    assert blocks[..|blocks|] == blocks;
  }
}
