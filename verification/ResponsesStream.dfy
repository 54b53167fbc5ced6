/** The OpenAI Responses stream machine: decoder and encoder (proxy/codec/stream.go). */
module ResponsesStream {
  import opened Wrappers
  import opened Json
  import opened Canonical
  import opened StopReasons
  import opened StreamTypes
  import opened Collector
  import opened Decimals

  // `blocks` numbers the item and content-part keys; `open` holds the numbers not yet stopped.
  datatype State = State(
    started: bool,
    done: bool,
    nextBlock: int,
    blocks: map<string, int>,
    open: set<int>,
    hadTool: bool,
    id: string,
    model: string,
    stopReason: string,
    usage: Option<Usage>)

  const INITIAL := State(false, false, 0, map[], {}, false, "", "", "", None)

  function ItemKey(event: Json, item: Json): string {
    if StringOr(Get(event, "item_id")) != "" then "item:" + StringOr(Get(event, "item_id"))
    else if StringOr(Get(item, "id")) != "" then "item:" + StringOr(Get(item, "id"))
    else "output:" + Decimal(IntOr(Get(event, "output_index")))
  }

  function ContentKey(event: Json, text: JsonText): string {
    ItemKey(event, Null) + ":content:" + text.format(Get(event, "content_index"))
  }

  // The number of a key, allocating the next one the first time.
  function Allocate(s: State, key: string): (r: (State, int))
    ensures key in r.0.blocks && r.0.blocks[key] == r.1
    ensures forall k :: k in s.blocks ==> k in r.0.blocks && r.0.blocks[k] == s.blocks[k]
  {
    if key in s.blocks then (s, s.blocks[key])
    else (s.(nextBlock := s.nextBlock + 1, blocks := s.blocks[key := s.nextBlock]), s.nextBlock)
  }

  function Stop(s: State, key: string): Decoded<State> {
    if key in s.blocks && s.blocks[key] in s.open then
      Decoded(s.(open := s.open - {s.blocks[key]}), [ContentStop(s.blocks[key])])
    else
      Decoded(s, [])
  }

  function Capture(s: State, value: Json): State {
    if !value.Obj? then s
    else
      var id, model := StringValue(Get(value, "id")), StringValue(Get(value, "model"));
      var usage := DecodeResponsesUsage(Get(value, "usage"));
      s.(id := if id.Some? then id.value else s.id,
         model := if model.Some? then model.value else s.model,
         stopReason := ResponsesStopReason(StringOr(Get(value, "status"))),
         usage := if usage.Some? then usage else s.usage)
  }

  function ItemAdded(s: State, value: Json, item: Json): Decoded<State> {
    if Get(item, "type") != Str("function_call") then Decoded(s, [])
    else
      var (t, index) := Allocate(s, ItemKey(value, item));
      var callID := StringOr(Get(item, "call_id"));
      var id := if callID == "" then StringOr(Get(item, "id")) else callID;
      Decoded(t.(hadTool := true, open := t.open + {index}),
              [ContentStart(index, ToolCallContent(id, StringOr(Get(item, "name")), EMPTY_OBJECT))])
  }

  function PartAdded(s: State, value: Json, text: JsonText): Decoded<State> {
    if Get(Get(value, "part"), "type") != Str("output_text") then Decoded(s, [])
    else
      var (t, index) := Allocate(s, ContentKey(value, text));
      Decoded(t.(open := t.open + {index}), [ContentStart(index, TextContent(""))])
  }

  function Delta(s: State, key: string, content: Content, argumentsDelta: string): Decoded<State> {
    var (t, index) := Allocate(s, key);
    Decoded(t, [ContentDelta(index, content, argumentsDelta)])
  }

  function Completed(s: State, response: Json): Decoded<State> {
    var t := Capture(s, response);
    var u := if t.hadTool && t.stopReason == "stop" then t.(stopReason := "tool_use") else t;
    Decoded(u.(done := true), [Done(u.stopReason, u.usage)])
  }

  // What the type name of a frame announces.
  datatype FrameKind =
    Created | ItemAddedFrame | PartAddedFrame | TextDeltaFrame | CallDeltaFrame | PartDone | ItemDone | Terminal
    | Failing | Ignored

  function KindOf(typeName: string): FrameKind {
    match typeName
    case "response.created" | "response.in_progress" => Created
    case "response.output_item.added" => ItemAddedFrame
    case "response.content_part.added" => PartAddedFrame
    case "response.output_text.delta" => TextDeltaFrame
    case "response.function_call_arguments.delta" => CallDeltaFrame
    case "response.content_part.done" => PartDone
    case "response.output_item.done" => ItemDone
    case "response.completed" | "response.incomplete" => Terminal
    case "error" | "response.failed" => Failing
    case _ => Ignored
  }

  function Decode(s: State, d: Delivery, text: JsonText): Decoded<State> {
    if d.event.data.DoneMark? then Decoded(s, [])
    else
      var parsed := Unmarshal(d.event.data);
      if parsed.None? then Failed(BadJson)
      else
        var value := parsed.value;
        match KindOf(TypeName(d.event, value))
        case Created =>
          var t := Capture(s, Get(value, "response"));
          if t.started then Decoded(t, [])
          else Decoded(t.(started := true), [Start(t.id, t.model, None)])
        case ItemAddedFrame => ItemAdded(s, value, Get(value, "item"))
        case PartAddedFrame => PartAdded(s, value, text)
        case TextDeltaFrame =>
          Delta(s, ContentKey(value, text), TextContent(StringOr(Get(value, "delta"))), "")
        case CallDeltaFrame =>
          Delta(s, ItemKey(value, Null), ToolCallContent("", "", Null), StringOr(Get(value, "delta")))
        case PartDone => Stop(s, ContentKey(value, text))
        case ItemDone =>
          if Get(Get(value, "item"), "type") == Str("function_call") then Stop(s, ItemKey(value, Get(value, "item")))
          else Decoded(s, [])
        case Terminal => Completed(s, Get(value, "response"))
        case Failing => Failed(UpstreamFailed)
        case Ignored => Decoded(s, [])
  }

  function Finish(s: State): seq<StreamEvent> {
    if s.done then [] else [Done("stop", s.usage)]
  }

  // ---- Encoder ----------------------------------------------------------------------------

  function ToolKey(index: int): string { "fc_" + Decimal(index) }
  function ReasoningKey(index: int): string { "rs_" + Decimal(index) }
  function MessageKey(index: int): string { "msg_" + Decimal(index) }

  function OutputText(text: string): Json {
    Obj(map["type" := Str("output_text"), "text" := Str(text), "annotations" := Arr([])])
  }

  function SummaryText(text: string): Json {
    Obj(map["type" := Str("summary_text"), "text" := Str(text)])
  }

  function CallItem(index: int, status: string, callID: string, name: string, arguments: string): Json {
    Obj(map["type" := Str("function_call"), "id" := Str(ToolKey(index)), "status" := Str(status),
            "call_id" := Str(callID), "name" := Str(name), "arguments" := Str(arguments)])
  }

  function ReasoningItem(index: int, status: string, summary: seq<Json>): Json {
    Obj(map["type" := Str("reasoning"), "id" := Str(ReasoningKey(index)), "status" := Str(status),
            "summary" := Arr(summary)])
  }

  function MessageItem(index: int, status: string, content: seq<Json>): Json {
    Obj(map["type" := Str("message"), "id" := Str(MessageKey(index)), "status" := Str(status),
            "role" := Str("assistant"), "content" := Arr(content)])
  }

  function ItemFrame(name: string, index: int, item: Json): Event {
    Frame(name, map["output_index" := Num(index), "item" := item])
  }

  function PartFrame(name: string, index: int, part: Json): Event {
    Frame(name, map["item_id" := Str(MessageKey(index)), "output_index" := Num(index), "content_index" := Num(0),
                    "part" := part])
  }

  // A frame about the text of a message (`field` is "delta" or "text").
  function TextFrame(name: string, index: int, field: string, text: string): Event {
    Frame(name, map["item_id" := Str(MessageKey(index)), "output_index" := Num(index), "content_index" := Num(0),
                    field := Str(text)])
  }

  function SummaryFrame(name: string, index: int, field: string, text: string): Event {
    Frame(name, map["item_id" := Str(ReasoningKey(index)), "output_index" := Num(index), "summary_index" := Num(0),
                    field := Str(text)])
  }

  function CallFrame(name: string, index: int, field: string, text: string): Event {
    Frame(name, map["item_id" := Str(ToolKey(index)), "output_index" := Num(index), field := Str(text)])
  }

  function OutputItems(contents: seq<Content>, text: JsonText): seq<Json> {
    if contents == [] then []
    else
      var index := |contents| - 1;
      var c, before := contents[index], OutputItems(contents[..index], text);
      match c.kind
      case TextType => before + [MessageItem(index, "completed", [OutputText(c.text)])]
      case ToolCallType => before + [CallItem(index, "completed", c.id, c.name, text.marshal(c.arguments))]
      case ReasoningType =>
        before + [Obj(map["type" := Str("reasoning"), "id" := Str(ReasoningKey(index)),
                          "summary" := Arr([SummaryText(c.text)])])]
      case _ => before
  }

  // The whole response as the API's JSON body, under the given id (`created_at` is left out).
  function ResponseObject(r: Response, id: string, text: JsonText): Json {
    var output := OutputItems(r.content, text);
    var fields := map[
      "id" := Str(id), "object" := Str("response"), "status" := Str(ResponsesStatus(r.stopReason)),
      "error" := Null, "incomplete_details" := if r.stopReason == "length"
          then Obj(map["reason" := Str("max_output_tokens")]) else Null,
      "instructions" := Null, "model" := Str(r.model), "output" := if output == [] then Null else Arr(output),
      "parallel_tool_calls" := Bool(true), "tools" := Arr([]), "tool_choice" := Str("auto")];
    if r.usage.None? then Obj(fields)
    else
      var u := r.usage.value;
      Obj(fields["usage" := Obj(map[
        "input_tokens" := Num(u.input), "output_tokens" := Num(u.output), "total_tokens" := Num(u.total),
        "input_tokens_details" := Obj(map["cached_tokens" := Num(u.cached)]),
        "output_tokens_details" := Obj(map["reasoning_tokens" := Num(u.reasoning)])])])
  }

  // The frames a stop prints, from the block the collector holds.
  function StopFrames(index: int, block: Block): seq<Event> {
    var c := block.content;
    match c.kind
    case ToolCallType =>
      [CallFrame("response.function_call_arguments.done", index, "arguments", block.arguments),
       ItemFrame("response.output_item.done", index, CallItem(index, "completed", c.id, c.name, block.arguments))]
    case ReasoningType =>
      [SummaryFrame("response.reasoning_summary_text.done", index, "text", c.text),
       ItemFrame("response.output_item.done", index, ReasoningItem(index, "completed", [SummaryText(c.text)]))]
    case _ =>
      [TextFrame("response.output_text.done", index, "text", c.text),
       PartFrame("response.content_part.done", index, OutputText(c.text)),
       ItemFrame("response.output_item.done", index, MessageItem(index, "completed", [OutputText(c.text)]))]
  }

  // The frames one event is printed as, after the collector has seen it.
  function Encode(e: StreamEvent, seen: Collected, responseID: string, text: JsonText): seq<Event> {
    match e
    case Start(_, model, _) =>
      var skeleton := Obj(map["id" := Str(responseID), "object" := Str("response"), "created_at" := Num(0),
                              "status" := Str("in_progress"), "model" := Str(model), "output" := Arr([])]);
      [Frame("response.created", map["response" := skeleton]),
       Frame("response.in_progress", map["response" := skeleton])]
    case ContentStart(index, content) =>
      (match content.kind
       case ToolCallType =>
         [ItemFrame("response.output_item.added", index, CallItem(index, "in_progress", content.id, content.name, ""))]
       case ReasoningType =>
         [ItemFrame("response.output_item.added", index, ReasoningItem(index, "in_progress", []))]
       case _ =>
         [ItemFrame("response.output_item.added", index, MessageItem(index, "in_progress", [])),
          PartFrame("response.content_part.added", index, OutputText(""))])
    case ContentDelta(index, content, argumentsDelta) =>
      (match content.kind
       case ToolCallType => [CallFrame("response.function_call_arguments.delta", index, "delta", argumentsDelta)]
       case ReasoningType => [SummaryFrame("response.reasoning_summary_text.delta", index, "delta", content.text)]
       case _ => [TextFrame("response.output_text.delta", index, "delta", content.text)])
    case ContentStop(index) =>
      if index in seen.blocks then StopFrames(index, seen.blocks[index]) else []
    case Done(_, _) =>
      [Frame("response.completed", map["response" := ResponseObject(seen.response, responseID, text)])]
  }

  /** `responsesStreamDecoder`. */
  class StreamDecoder {
    var started: bool
    var done: bool
    var nextBlock: int
    var blocks: map<string, int>
    var open: set<int>
    var hadTool: bool
    var id: string
    var model: string
    var stopReason: string
    var usage: Option<Usage>

    constructor ()
      ensures Value() == INITIAL
    {
      started, done, nextBlock, blocks, open, hadTool := false, false, 0, map[], {}, false;
      id, model, stopReason, usage := "", "", "", None;
    }

    function Value(): State
      reads this
    {
      State(started, done, nextBlock, blocks, open, hadTool, id, model, stopReason, usage)
    }

    method AllocateBlock(key: string) returns (index: int)
      modifies this`nextBlock, this`blocks
      ensures (Value(), index) == Allocate(old(Value()), key)
    {
      if key in blocks {
        return blocks[key];
      }
      index := nextBlock;
      nextBlock := nextBlock + 1;
      blocks := blocks[key := index];
    }

    method StopBlock(key: string) returns (events: seq<StreamEvent>)
      modifies this`open
      ensures Stop(old(Value()), key) == Decoded(Value(), events)
    {
      if key !in blocks || blocks[key] !in open {
        return [];
      }
      var index := blocks[key];
      open := open - {index};
      events := [ContentStop(index)];
    }

    method CaptureResponse(value: Json)
      modifies this`id, this`model, this`stopReason, this`usage
      ensures Value() == Capture(old(Value()), value)
    {
      if !value.Obj? {
        return;
      }
      if Get(value, "id").Str? {
        id := Get(value, "id").s;
      }
      if Get(value, "model").Str? {
        model := Get(value, "model").s;
      }
      stopReason := ResponsesStopReason(StringOr(Get(value, "status")));
      var latest := DecodeResponsesUsage(Get(value, "usage"));
      if latest.Some? {
        usage := latest;
      }
    }

    method AddItem(value: Json, item: Json) returns (events: seq<StreamEvent>)
      modifies this`nextBlock, this`blocks, this`open, this`hadTool
      ensures ItemAdded(old(Value()), value, item) == Decoded(Value(), events)
    {
      if Get(item, "type") != Str("function_call") {
        return [];
      }
      var index := AllocateBlock(ItemKey(value, item));
      hadTool := true;
      var callID := StringOr(Get(item, "call_id"));
      if callID == "" {
        callID := StringOr(Get(item, "id"));
      }
      open := open + {index};
      events := [ContentStart(index, ToolCallContent(callID, StringOr(Get(item, "name")), EMPTY_OBJECT))];
    }

    method AddPart(value: Json, text: JsonText) returns (events: seq<StreamEvent>)
      modifies this`nextBlock, this`blocks, this`open
      ensures PartAdded(old(Value()), value, text) == Decoded(Value(), events)
    {
      if Get(Get(value, "part"), "type") != Str("output_text") {
        return [];
      }
      var index := AllocateBlock(ContentKey(value, text));
      open := open + {index};
      events := [ContentStart(index, TextContent(""))];
    }

    method Complete(response: Json) returns (events: seq<StreamEvent>)
      modifies this`id, this`model, this`stopReason, this`usage, this`done
      ensures Completed(old(Value()), response) == Decoded(Value(), events)
    {
      hide Capture;
      CaptureResponse(response);
      if hadTool && stopReason == "stop" {
        stopReason := "tool_use";
      }
      done := true;
      events := [Done(stopReason, usage)];
    }

    method DecodeFrame(event: Event, text: JsonText) returns (result: Result<seq<StreamEvent>, Failure>)
      modifies this
      ensures match Decode(old(Value()), Delivery(event, []), text)
              case Decoded(s, es) => Value() == s && result == Ok(es)
              case Failed(f) => Value() == old(Value()) && result == Err(f)
    {
      hide KindOf, TypeName, ItemAdded, PartAdded, Capture, Completed, Stop, Allocate, ItemKey, ContentKey;
      if event.data.DoneMark? {
        return Ok([]);
      }
      var parsed := Unmarshal(event.data);
      if parsed.None? {
        return Err(BadJson);
      }
      var value, events := parsed.value, [];
      match KindOf(TypeName(event, value)) {
        case Created =>
          CaptureResponse(Get(value, "response"));
          if !started {
            started := true;
            events := [Start(id, model, None)];
          }
        case ItemAddedFrame =>
          events := AddItem(value, Get(value, "item"));
        case PartAddedFrame =>
          events := AddPart(value, text);
        case TextDeltaFrame =>
          var index := AllocateBlock(ContentKey(value, text));
          events := [ContentDelta(index, TextContent(StringOr(Get(value, "delta"))), "")];
        case CallDeltaFrame =>
          var index := AllocateBlock(ItemKey(value, Null));
          events := [ContentDelta(index, ToolCallContent("", "", Null), StringOr(Get(value, "delta")))];
        case PartDone =>
          events := StopBlock(ContentKey(value, text));
        case ItemDone =>
          var item := Get(value, "item");
          if Get(item, "type") == Str("function_call") {
            events := StopBlock(ItemKey(value, item));
          }
        case Terminal =>
          events := Complete(Get(value, "response"));
        case Failing =>
          return Err(UpstreamFailed);
        case Ignored =>
      }
      result := Ok(events);
    }

    method FinishStream() returns (events: seq<StreamEvent>)
      ensures events == Finish(Value())
    {
      if done {
        return [];
      }
      events := [Done("stop", usage)];
    }
  }
}
