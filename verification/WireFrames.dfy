/** What the frames of a printed Anthropic or Chat stream say, field by field (proxy/codec/stream.go). */
module WireFrames {
  import opened Canonical
  import opened Json
  import opened ResponsesFrames
  import opened StreamTypes
  import opened Wrappers
  import AnthropicStream
  import ChatStream
  import StopReasons

  // ---- Anthropic --------------------------------------------------------------------------

  predicate IsNamed(f: Event, name: string) {
    f.name == name && Field(f, "type") == Str(name)
  }

  // message_start: a message of the assistant without content yet, with the input tokens known.
  predicate StartsMessage(f: Event, model: string, usage: Option<Usage>) {
    IsNamed(f, "message_start") &&
    var message := Field(f, "message");
    && Get(message, "type") == Str("message") && Get(message, "role") == Str("assistant")
    && Get(message, "model") == Str(model) && Get(message, "content") == Arr([])
    && Get(message, "stop_reason") == Null && Get(message, "stop_sequence") == Null
    && var told := Get(message, "usage");
       && Get(told, "input_tokens") == Num(if usage.Some? then usage.value.input else 0)
       && Get(told, "output_tokens") == Num(0)
       && Get(told, "cache_read_input_tokens") == if usage.Some? then Num(usage.value.cached) else Null
  }

  predicate StartsBlock(f: Event, index: int, c: Content) {
    && IsNamed(f, "content_block_start") && Field(f, "index") == Num(index)
    && var block := Field(f, "content_block");
       match c.kind
       case ToolCallType =>
         && Get(block, "type") == Str("tool_use") && Get(block, "id") == Str(c.id) && Get(block, "name") == Str(c.name)
         && Get(block, "input") == Obj(map[])
       case ReasoningType =>
         Get(block, "type") == Str("thinking") && Get(block, "thinking") == Str("")
             && Get(block, "signature") == Str("")
       case _ => Get(block, "type") == Str("text") && Get(block, "text") == Str("")
  }

  predicate GrowsABlock(f: Event, index: int, c: Content, argumentsDelta: string) {
    && IsNamed(f, "content_block_delta") && Field(f, "index") == Num(index)
    && var delta := Field(f, "delta");
       match c.kind
       case ToolCallType =>
         Get(delta, "type") == Str("input_json_delta") && Get(delta, "partial_json") == Str(argumentsDelta)
       case ReasoningType => Get(delta, "type") == Str("thinking_delta") && Get(delta, "thinking") == Str(c.text)
       case _ => Get(delta, "type") == Str("text_delta") && Get(delta, "text") == Str(c.text)
  }

  predicate EndsMessage(frames: seq<Event>, stopReason: string, usage: Option<Usage>) {
    var reason := if stopReason == "length" then "max_tokens" else if stopReason == "tool_use" then "tool_use"
        else "end_turn";
    && |frames| == 2 && IsNamed(frames[0], "message_delta") && IsNamed(frames[1], "message_stop")
    && Get(Field(frames[0], "delta"), "stop_reason") == Str(reason)
    && Get(Field(frames[0], "delta"), "stop_sequence") == Null
    && Get(Field(frames[0], "usage"), "output_tokens") == Num(if usage.Some? then usage.value.output else 0)
  }

  /** The Anthropic frames of each event say what the event says. */
  lemma {:induction false} AnthropicFramesSay(e: StreamEvent, generated: string)
    ensures var frames := AnthropicStream.Encode(e, generated);
            match e
            case Start(id, model, usage) =>
              && |frames| == 1 && StartsMessage(frames[0], model, usage)
              && Get(Field(frames[0], "message"), "id") == Str(if "msg_" <= id then id else generated)
            case ContentStart(index, c) => |frames| == 1 && StartsBlock(frames[0], index, c)
            case ContentDelta(index, c, argumentsDelta) =>
              |frames| == 1 && GrowsABlock(frames[0], index, c, argumentsDelta)
            case ContentStop(index) =>
              |frames| == 1 && IsNamed(frames[0], "content_block_stop") && Field(frames[0], "index") == Num(index)
            case Done(stopReason, usage) => EndsMessage(frames, stopReason, usage)
  {
    match e
    case Start(id, model, usage) => StartFrameSays(id, model, usage, generated);
    case ContentStart(index, c) => BlockFrameSays(index, c, generated);
    case ContentDelta(index, c, argumentsDelta) => DeltaFrameSays(index, c, argumentsDelta, generated);
    case ContentStop(_) =>
    case Done(stopReason, usage) => EndFramesSay(stopReason, usage, generated);
  }

  lemma {:induction false} MessageFrame(message: Json)
    ensures var f := Frame("message_start", map["message" := message]);
            IsNamed(f, "message_start") && Field(f, "message") == message
  {
  }

  lemma {:induction false} UsageSays(usage: Option<Usage>)
    ensures var told := AnthropicStream.StartUsage(usage);
            && Get(told, "input_tokens") == Num(if usage.Some? then usage.value.input else 0)
            && Get(told, "output_tokens") == Num(0)
            && Get(told, "cache_read_input_tokens") == if usage.Some? then Num(usage.value.cached) else Null
  {
  }

  function MessageObject(id: string, model: string, told: Json): Json {
    Obj(map["id" := Str(id), "type" := Str("message"), "role" := Str("assistant"), "model" := Str(model),
            "content" := Arr([]), "stop_reason" := Null, "stop_sequence" := Null, "usage" := told])
  }

  lemma {:induction false} MessageSays(id: string, model: string, told: Json)
    ensures var message := MessageObject(id, model, told);
            && Get(message, "type") == Str("message") && Get(message, "role") == Str("assistant")
            && Get(message, "model") == Str(model) && Get(message, "content") == Arr([])
            && Get(message, "stop_reason") == Null && Get(message, "stop_sequence") == Null
            && Get(message, "id") == Str(id) && Get(message, "usage") == told
  {
  }

  lemma {:induction false} EncodesStart(id: string, model: string, usage: Option<Usage>, generated: string)
    ensures AnthropicStream.Encode(Start(id, model, usage), generated) ==
            [Frame("message_start", map["message" := MessageObject(EnsureID(id, "msg", generated), model,
                                                                   AnthropicStream.StartUsage(usage))])]
  {
    hide EnsureID, AnthropicStream.StartUsage, Frame;
  }

  lemma {:induction false} KeepsID(id: string, prefix: string, generated: string)
    ensures EnsureID(id, prefix, generated) == if prefix + "_" <= id then id else generated
  {
  }

  lemma {:induction false} StartFrameSays(id: string, model: string, usage: Option<Usage>, generated: string)
    ensures var frames := AnthropicStream.Encode(Start(id, model, usage), generated);
            && |frames| == 1 && StartsMessage(frames[0], model, usage)
            && Get(Field(frames[0], "message"), "id") == Str(if "msg_" <= id then id else generated)
  {
    hide EnsureID, AnthropicStream.StartUsage, Frame, Field, IsNamed, AnthropicStream.Encode, MessageObject, Get;
    KeepsID(id, "msg", generated);
    assert "msg" + "_" == "msg_";
    var kept, told := EnsureID(id, "msg", generated), AnthropicStream.StartUsage(usage);
    UsageSays(usage);
    MessageSays(kept, model, told);
    MessageFrame(MessageObject(kept, model, told));
    EncodesStart(id, model, usage, generated);
  }

  lemma {:induction false} BlockFrameSays(index: int, c: Content, generated: string)
    ensures var frames := AnthropicStream.Encode(ContentStart(index, c), generated);
            |frames| == 1 && StartsBlock(frames[0], index, c)
  {
  }

  lemma {:induction false} DeltaFrameSays(index: int, c: Content, argumentsDelta: string, generated: string)
    ensures var frames := AnthropicStream.Encode(ContentDelta(index, c, argumentsDelta), generated);
            |frames| == 1 && GrowsABlock(frames[0], index, c, argumentsDelta)
  {
  }

  lemma {:induction false} EndFramesSay(stopReason: string, usage: Option<Usage>, generated: string)
    ensures EndsMessage(AnthropicStream.Encode(Done(stopReason, usage), generated), stopReason, usage)
  {
    StopReasons.PrintedReasonsMean(stopReason);
    hide StopReasons.EncodeAnthropicStopReason;
  }

  // ---- Chat -------------------------------------------------------------------------------

  predicate IsChunk(f: Event, r: Response, generated: string) {
    && f.name == "" && Field(f, "object") == Str("chat.completion.chunk") && Field(f, "model") == Str(r.model)
    && Field(f, "id") == Str(if "chatcmpl_" <= r.id then r.id else generated)
  }

  // A chunk of one choice, the first, and no usage; its delta and finish reason are given.
  predicate IsChoice(f: Event, r: Response, generated: string, delta: Json, finish: Json) {
    && IsChunk(f, r, generated) && Field(f, "usage") == Null
    && var choices := Field(f, "choices");
       choices.Arr? && |choices.items| == 1
       && Get(choices.items[0], "index") == Num(0) && Get(choices.items[0], "delta") == delta
       && Get(choices.items[0], "finish_reason") == finish
  }

  predicate HasOneCall(delta: Json, index: int) {
    var calls := Get(delta, "tool_calls");
    calls.Arr? && |calls.items| == 1 && Get(calls.items[0], "index") == Num(index)
  }

  lemma {:induction false} ChoiceSays(r: Response, generated: string, delta: map<string, Json>, finish: Json)
    ensures IsChoice(ChatStream.ChunkFrame(r, generated, [ChatStream.ChoiceObject(delta, finish)], None), r,
                     generated, Obj(delta), finish)
  {
    var kept := EnsureID(r.id, "chatcmpl", generated);
    assert "chatcmpl" + "_" == "chatcmpl_";
    KeepsID(r.id, "chatcmpl", generated);
    hide EnsureID;
    var choice := ChatStream.ChoiceObject(delta, finish);
    assert Get(choice, "index") == Num(0) && Get(choice, "delta") == Obj(delta)
           && Get(choice, "finish_reason") == finish;
    hide ChatStream.ChoiceObject;
  }

  lemma {:induction false} UsageChunkSays(r: Response, generated: string, u: Usage)
    ensures var f := ChatStream.ChunkFrame(r, generated, [], Some(u));
            && IsChunk(f, r, generated) && Field(f, "choices") == Arr([])
            && Get(Field(f, "usage"), "prompt_tokens") == Num(u.input)
            && Get(Field(f, "usage"), "completion_tokens") == Num(u.output)
            && Get(Field(f, "usage"), "total_tokens") == Num(u.total)
  {
    var kept := EnsureID(r.id, "chatcmpl", generated);
    assert "chatcmpl" + "_" == "chatcmpl_";
    KeepsID(r.id, "chatcmpl", generated);
    hide EnsureID;
  }

  // What the chunks of an event say: `r` is the response collected so far, `ids` generates ids.
  ghost predicate ChatSays(e: StreamEvent, r: Response, ids: nat -> string, n: nat, frames: seq<Event>) {
    match e
    case Start(_, _, _) =>
      |frames| == 1 && IsChoice(frames[0], r, ids(n), Obj(map["role" := Str("assistant"), "content" := Str("")]), Null)
    case ContentStart(index, c) =>
      if !c.kind.ToolCallType? then frames == []
      else
        |frames| == 1 && exists delta :: IsChoice(frames[0], r, ids(n), delta, Null) && StartsCall(delta, index, c)
    case ContentDelta(index, c, argumentsDelta) =>
      |frames| == 1 && exists d :: IsChoice(frames[0], r, ids(n), d, Null) && GrowsChoice(d, index, c, argumentsDelta)
    case ContentStop(_) => frames == []
    case Done(stopReason, usage) =>
      var reason := if stopReason == "tool_use" then "tool_calls"
          else if stopReason in {"length", "content_filter"} then stopReason else "stop";
      && |frames| == (if usage.Some? then 3 else 2) && IsChoice(frames[0], r, ids(n), Obj(map[]), Str(reason))
      && frames[|frames| - 1] == Event("", DoneMark)
      && (usage.Some? ==>
            && IsChunk(frames[1], r, ids(n + 1)) && Field(frames[1], "choices") == Arr([])
            && Get(Field(frames[1], "usage"), "prompt_tokens") == Num(usage.value.input)
            && Get(Field(frames[1], "usage"), "completion_tokens") == Num(usage.value.output)
            && Get(Field(frames[1], "usage"), "total_tokens") == Num(usage.value.total))
  }

  predicate StartsCall(delta: Json, index: int, c: Content) {
    HasOneCall(delta, index) &&
    var call := Get(delta, "tool_calls").items[0];
    && Get(call, "id") == Str(c.id) && Get(call, "type") == Str("function")
    && Get(Get(call, "function"), "name") == Str(c.name) && Get(Get(call, "function"), "arguments") == Str("")
  }

  predicate GrowsChoice(delta: Json, index: int, c: Content, argumentsDelta: string) {
    match c.kind
    case ToolCallType =>
      && HasOneCall(delta, index)
      && Get(Get(Get(delta, "tool_calls").items[0], "function"), "arguments") == Str(argumentsDelta)
    case ReasoningType => delta == Obj(map["reasoning_content" := Str(c.text)])
    case _ => delta == Obj(map["content" := Str(c.text)])
  }

  // The delta a fragment prints as.
  function DeltaOf(index: int, c: Content, argumentsDelta: string): map<string, Json> {
    match c.kind
    case ToolCallType => map["tool_calls" := Arr([ChatStream.CallDelta(index, argumentsDelta)])]
    case ReasoningType => map["reasoning_content" := Str(c.text)]
    case _ => map["content" := Str(c.text)]
  }

  lemma {:induction false} CallsSay(index: int, c: Content, argumentsDelta: string)
    ensures StartsCall(Obj(map["tool_calls" := Arr([ChatStream.CallStart(index, c.id, c.name)])]), index, c)
    ensures GrowsChoice(Obj(DeltaOf(index, c, argumentsDelta)), index, c, argumentsDelta)
  {
  }

  /** The chunks of each event say what the event says. */
  lemma {:induction false} ChatFramesSay(e: StreamEvent, r: Response, ids: nat -> string, n: nat)
    ensures ChatSays(e, r, ids, n, ChatStream.Encode(e, r, ids, n))
  {
    hide ChatStream.ChunkFrame, ChatStream.ChoiceObject, ChatStream.CallStart, ChatStream.CallDelta, IsChoice, IsChunk,
         StopReasons.EncodeChatStopReason, StartsCall, Field;
    match e
    case Start(_, _, _) => ChoiceSays(r, ids(n), map["role" := Str("assistant"), "content" := Str("")], Null);
    case ContentStart(index, c) =>
      CallsSay(index, c, "");
      ChoiceSays(r, ids(n), map["tool_calls" := Arr([ChatStream.CallStart(index, c.id, c.name)])], Null);
    case ContentDelta(index, c, argumentsDelta) =>
      CallsSay(index, c, argumentsDelta);
      ChoiceSays(r, ids(n), DeltaOf(index, c, argumentsDelta), Null);
      hide GrowsChoice;
    case ContentStop(_) =>
    case Done(stopReason, usage) =>
      StopReasons.PrintedReasonsMean(stopReason);
      ChoiceSays(r, ids(n), map[], Str(StopReasons.EncodeChatStopReason(stopReason)));
      if usage.Some? {
        UsageChunkSays(r, ids(n + 1), usage.value);
      }
  }
}
