/** The Anthropic Messages stream machine: decoder and encoder (proxy/codec/stream.go). */
module AnthropicStream {
  import opened Wrappers
  import opened Json
  import opened Canonical
  import opened StopReasons
  import opened StreamTypes
  import opened Walks

  // The decoder's `response` is kept as its four fields; its content is never used.
  datatype State = State(
    started: bool,
    done: bool,
    id: string,
    model: string,
    stopReason: string,
    usage: Option<Usage>,
    open: map<int, ContentType>)

  const INITIAL := State(false, false, "", "", "", None, map[])

  function StopEvents(walk: seq<int>): seq<StreamEvent> {
    seq(|walk|, i requires 0 <= i < |walk| => ContentStop(walk[i]))
  }

  // Usage of a message_delta: input counts come from message_start when it had any.
  function MergeUsage(earlier: Option<Usage>, latest: Usage): Usage {
    var usage := if earlier.Some? then latest.(input := earlier.value.input, cached := earlier.value.cached)
        else latest;
    usage.(total := usage.input + usage.output)
  }

  function BlockStart(s: State, index: int, block: Json): Decoded<State> {
    match Get(block, "type")
    case Str("text") =>
      Decoded(s.(open := s.open[index := TextType]), [ContentStart(index, TextContent(""))])
    case Str("tool_use") =>
      Decoded(s.(open := s.open[index := ToolCallType]),
              [ContentStart(index, ToolCallContent(StringOr(Get(block, "id")), StringOr(Get(block, "name")),
                                                   EMPTY_OBJECT))])
    case Str("thinking") =>
      Decoded(s.(open := s.open[index := ReasoningType]), [ContentStart(index, ReasoningContent(""))])
    case Str("redacted_thinking") => Decoded(s, [])
    case _ => Failed(UnsupportedBlock)
  }

  // A delta for an index that is not open opens it first.
  function LazyDelta(s: State, index: int, opening: Content, content: Content): Decoded<State> {
    var starts := if index in s.open then [] else [ContentStart(index, opening)];
    Decoded(if index in s.open then s else s.(open := s.open[index := opening.kind]),
            starts + [ContentDelta(index, content, "")])
  }

  function BlockDelta(s: State, index: int, delta: Json): Decoded<State> {
    match Get(delta, "type")
    case Str("text_delta") => LazyDelta(s, index, TextContent(""), TextContent(StringOr(Get(delta, "text"))))
    case Str("input_json_delta") =>
      Decoded(s, [ContentDelta(index, ToolCallContent("", "", Null), StringOr(Get(delta, "partial_json")))])
    case Str("thinking_delta") =>
      LazyDelta(s, index, ReasoningContent(""), ReasoningContent(StringOr(Get(delta, "thinking"))))
    case _ => Decoded(s, [])
  }

  function Decode(s: State, d: Delivery): Decoded<State> {
    var parsed := Unmarshal(d.event.data);
    if parsed.None? then Failed(BadJson)
    else
      var value := parsed.value;
      match TypeName(d.event, value)
      case "message_start" =>
        var message := Get(value, "message");
        var id, model := StringOr(Get(message, "id")), StringOr(Get(message, "model"));
        var usage := DecodeAnthropicUsage(Get(message, "usage"));
        Decoded(s.(id := id, model := model, usage := usage, started := true), [Start(id, model, usage)])
      case "content_block_start" => BlockStart(s, IntOr(Get(value, "index")), Get(value, "content_block"))
      case "content_block_delta" => BlockDelta(s, IntOr(Get(value, "index")), Get(value, "delta"))
      case "content_block_stop" =>
        var index := IntOr(Get(value, "index"));
        Decoded(s.(open := s.open - {index}), [ContentStop(index)])
      case "message_delta" =>
        var stopReason := AnthropicStopReason(StringOr(Get(Get(value, "delta"), "stop_reason")));
        var usage := DecodeAnthropicUsage(Get(value, "usage"));
        Decoded(s.(stopReason := stopReason,
                   usage := if usage.Some? then Some(MergeUsage(s.usage, usage.value)) else s.usage), [])
      case "message_stop" =>
        Decoded(s.(done := true, open := map[]), StopEvents(d.walk) + [Done(s.stopReason, s.usage)])
      case "error" => Failed(UpstreamFailed)
      case _ => Decoded(s, [])
  }

  function Finish(s: State): seq<StreamEvent> {
    if s.done then [] else [Done("stop", s.usage)]
  }

  function BlockObject(c: Content): Json {
    match c.kind
    case ToolCallType => Obj(map["type" := Str("tool_use"), "id" := Str(c.id), "name" := Str(c.name),
                                 "input" := EMPTY_OBJECT])
    case ReasoningType => Obj(map["type" := Str("thinking"), "thinking" := Str(""), "signature" := Str("")])
    case _ => Obj(map["type" := Str("text"), "text" := Str("")])
  }

  function DeltaObject(c: Content, argumentsDelta: string): Json {
    match c.kind
    case ToolCallType => Obj(map["type" := Str("input_json_delta"), "partial_json" := Str(argumentsDelta)])
    case ReasoningType => Obj(map["type" := Str("thinking_delta"), "thinking" := Str(c.text)])
    case _ => Obj(map["type" := Str("text_delta"), "text" := Str(c.text)])
  }

  function StartUsage(usage: Option<Usage>): Json {
    match usage
    case None => Obj(map["input_tokens" := Num(0), "output_tokens" := Num(0)])
    case Some(u) =>
      Obj(map["input_tokens" := Num(u.input), "output_tokens" := Num(0), "cache_read_input_tokens" := Num(u.cached)])
  }

  // The frames one event is printed as; `generated` replaces a foreign message id.
  function Encode(e: StreamEvent, generated: string): seq<Event> {
    match e
    case Start(id, model, usage) =>
      [Frame("message_start", map["message" := Obj(map[
        "id" := Str(EnsureID(id, "msg", generated)), "type" := Str("message"), "role" := Str("assistant"),
        "model" := Str(model), "content" := Arr([]), "stop_reason" := Null, "stop_sequence" := Null,
        "usage" := StartUsage(usage)])])]
    case ContentStart(index, content) =>
      [Frame("content_block_start", map["index" := Num(index), "content_block" := BlockObject(content)])]
    case ContentDelta(index, content, argumentsDelta) =>
      [Frame("content_block_delta", map["index" := Num(index), "delta" := DeltaObject(content, argumentsDelta)])]
    case ContentStop(index) =>
      [Frame("content_block_stop", map["index" := Num(index)])]
    case Done(stopReason, usage) =>
      [Frame("message_delta", map[
         "delta" := Obj(map["stop_reason" := Str(EncodeAnthropicStopReason(stopReason)), "stop_sequence" := Null]),
         "usage" := Obj(map["output_tokens" := Num(if usage.Some? then usage.value.output else 0)])]),
       Frame("message_stop", map[])]
  }

  /** `anthropicStreamDecoder`. */
  class StreamDecoder {
    var started: bool
    var done: bool
    var id: string
    var model: string
    var stopReason: string
    var usage: Option<Usage>
    var open: map<int, ContentType>

    constructor ()
      ensures Value() == INITIAL
    {
      started, done, id, model, stopReason, usage, open := false, false, "", "", "", None, map[];
    }

    function Value(): State
      reads this
    {
      State(started, done, id, model, stopReason, usage, open)
    }

    method StartBlock(index: int, block: Json) returns (result: Result<seq<StreamEvent>, Failure>)
      modifies this`open
      ensures match BlockStart(old(Value()), index, block)
              case Decoded(s, es) => Value() == s && result == Ok(es)
              case Failed(f) => Value() == old(Value()) && result == Err(f)
    {
      match Get(block, "type") {
        case Str("text") =>
          open := open[index := TextType];
          return Ok([ContentStart(index, TextContent(""))]);
        case Str("tool_use") =>
          open := open[index := ToolCallType];
          var call := ToolCallContent(StringOr(Get(block, "id")), StringOr(Get(block, "name")), EMPTY_OBJECT);
          return Ok([ContentStart(index, call)]);
        case Str("thinking") =>
          open := open[index := ReasoningType];
          return Ok([ContentStart(index, ReasoningContent(""))]);
        case Str("redacted_thinking") =>
          return Ok([]);
        case _ =>
          return Err(UnsupportedBlock);
      }
    }

    method DeltaBlock(index: int, delta: Json) returns (events: seq<StreamEvent>)
      modifies this`open
      ensures BlockDelta(old(Value()), index, delta) == Decoded(Value(), events)
    {
      events := [];
      match Get(delta, "type") {
        case Str("text_delta") =>
          if index !in open {
            open := open[index := TextType];
            events := [ContentStart(index, TextContent(""))];
          }
          events := events + [ContentDelta(index, TextContent(StringOr(Get(delta, "text"))), "")];
        case Str("input_json_delta") =>
          events := [ContentDelta(index, ToolCallContent("", "", Null), StringOr(Get(delta, "partial_json")))];
        case Str("thinking_delta") =>
          if index !in open {
            open := open[index := ReasoningType];
            events := [ContentStart(index, ReasoningContent(""))];
          }
          events := events + [ContentDelta(index, ReasoningContent(StringOr(Get(delta, "thinking"))), "")];
        case _ =>
      }
    }

    method DecodeFrame(event: Event) returns (result: Result<seq<StreamEvent>, Failure>, ghost walk: seq<int>)
      modifies this
      ensures Enumerates(walk, old(open).Keys)
      ensures match Decode(old(Value()), Delivery(event, walk))
              case Decoded(s, es) => Value() == s && result == Ok(es)
              case Failed(f) => Value() == old(Value()) && result == Err(f)
    {
      hide BlockStart, BlockDelta;
      walk := AnyWalk(open.Keys);
      var parsed := Unmarshal(event.data);
      if parsed.None? {
        return Err(BadJson), walk;
      }
      var value := parsed.value;
      var events := [];
      match TypeName(event, value) {
      case "message_start" =>
        var message := Get(value, "message");
        id, model := StringOr(Get(message, "id")), StringOr(Get(message, "model"));
        usage := DecodeAnthropicUsage(Get(message, "usage"));
        started := true;
        events := [Start(id, model, usage)];
      case "content_block_start" =>
        result := StartBlock(IntOr(Get(value, "index")), Get(value, "content_block"));
        return result, walk;
      case "content_block_delta" =>
        events := DeltaBlock(IntOr(Get(value, "index")), Get(value, "delta"));
      case "content_block_stop" =>
        var index := IntOr(Get(value, "index"));
        open := open - {index};
        events := [ContentStop(index)];
      case "message_delta" =>
        stopReason := AnthropicStopReason(StringOr(Get(Get(value, "delta"), "stop_reason")));
        var latest := DecodeAnthropicUsage(Get(value, "usage"));
        if latest.Some? {
          var merged := latest.value;
          if usage.Some? {
            merged := merged.(input := usage.value.input, cached := usage.value.cached);
          }
          usage := Some(merged.(total := merged.input + merged.output));
        }
      case "message_stop" =>
        done := true;
        events, walk := StopAll(open);
        open := map[];
        events := events + [Done(stopReason, usage)];
      case "error" =>
        return Err(UpstreamFailed), walk;
      case _ =>
      }
      result := Ok(events);
    }

    method FinishStream() returns (events: seq<StreamEvent>)
      ensures events == Finish(Value())
    {
      if done {
        return [];
      }
      events := [Done("stop", usage)];
    }
  }

  // Ranging over the open blocks, whichever order the map yields them in.
  method StopAll(open: map<int, ContentType>) returns (events: seq<StreamEvent>, ghost walk: seq<int>)
    ensures Enumerates(walk, open.Keys) && events == StopEvents(walk)
  {
    events, walk := [], [];
    var rest := open.Keys;
    while rest != {}
      invariant rest <= open.Keys && Enumerates(walk, open.Keys - rest) && events == StopEvents(walk)
    {
      HasElement(rest);
      var index :| index in rest;
      rest := rest - {index};
      events := events + [ContentStop(index)];
      walk := walk + [index];
    }
  }
}
