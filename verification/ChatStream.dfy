/** The OpenAI Chat Completions stream machine: decoder and encoder (proxy/codec/stream.go). */
module ChatStream {
  import opened Wrappers
  import opened Json
  import opened Canonical
  import opened StopReasons
  import opened StreamTypes
  import opened Walks

  // `toolIndexes` numbers the tool-call indexes, and the reasoning block under the key -1.
  datatype State = State(
    started: bool,
    done: bool,
    nextBlock: int,
    textIndex: int,
    textOpen: bool,
    toolIndexes: map<int, int>,
    open: set<int>,
    id: string,
    model: string,
    stopReason: string,
    usage: Option<Usage>)

  const INITIAL := State(false, false, 0, 0, false, map[], {}, "", "", "", None)

  const REASONING_KEY := -1

  datatype Step = Step(state: State, events: seq<StreamEvent>)

  function TextPart(s: State, text: string): Step {
    if text == "" then Step(s, [])
    else if s.textOpen then Step(s, [ContentDelta(s.textIndex, TextContent(text), "")])
    else
      Step(s.(textIndex := s.nextBlock, nextBlock := s.nextBlock + 1, textOpen := true),
           [ContentStart(s.nextBlock, TextContent("")), ContentDelta(s.nextBlock, TextContent(text), "")])
  }

  // A fresh block for a key, opened by the given content.
  function OpenKeyed(s: State, key: int, content: Content): Step {
    Step(s.(nextBlock := s.nextBlock + 1, toolIndexes := s.toolIndexes[key := s.nextBlock],
            open := s.open + {s.nextBlock}),
         [ContentStart(s.nextBlock, content)])
  }

  function ReasoningPart(s: State, reasoning: string): Step {
    if reasoning == "" then Step(s, [])
    else
      var started := if REASONING_KEY in s.toolIndexes then Step(s, [])
          else OpenKeyed(s, REASONING_KEY, ReasoningContent(""));
      Step(started.state,
           started.events + [ContentDelta(started.state.toolIndexes[REASONING_KEY], ReasoningContent(reasoning), "")])
  }

  function ToolPart(s: State, call: Json): Step {
    var key := IntOr(Get(call, "index"));
    var fn := Get(call, "function");
    var started :=
      if key in s.toolIndexes then Step(s, [])
      else OpenKeyed(s, key, ToolCallContent(StringOr(Get(call, "id")), StringOr(Get(fn, "name")), EMPTY_OBJECT));
    var arguments := StringOr(Get(fn, "arguments"));
    if arguments == "" then started
    else
      Step(started.state,
           started.events + [ContentDelta(started.state.toolIndexes[key], ToolCallContent("", "", Null), arguments)])
  }

  function ToolParts(s: State, calls: seq<Json>): Step {
    if calls == [] then Step(s, [])
    else
      var before := ToolParts(s, calls[..|calls| - 1]);
      var last := ToolPart(before.state, calls[|calls| - 1]);
      Step(last.state, before.events + last.events)
  }

  function Items(j: Json): seq<Json> {
    if j.Arr? then j.items else []
  }

  function Choice(s: State, choice: Json): Step {
    var delta := Get(choice, "delta");
    var a := TextPart(s, StringOr(Get(delta, "content")));
    var b := ReasoningPart(a.state, StringOr(Get(delta, "reasoning_content")));
    var c := ToolParts(b.state, Items(Get(delta, "tool_calls")));
    var finish := StringOr(Get(choice, "finish_reason"));
    Step(if finish == "" then c.state else c.state.(stopReason := ChatStopReason(finish)),
         a.events + b.events + c.events)
  }

  function Choices(s: State, choices: seq<Json>): Step {
    if choices == [] then Step(s, [])
    else
      var before := Choices(s, choices[..|choices| - 1]);
      var last := Choice(before.state, choices[|choices| - 1]);
      Step(last.state, before.events + last.events)
  }

  function Header(s: State, value: Json): State {
    var usage := DecodeChatUsage(Get(value, "usage"));
    s.(id := if Get(value, "id").Str? then Get(value, "id").s else s.id,
       model := if Get(value, "model").Str? then Get(value, "model").s else s.model,
       usage := if usage.Some? then usage else s.usage)
  }

  function Chunk(s: State, value: Json): Step {
    var t := Header(s, value);
    var started := if t.started then [] else [Start(t.id, t.model, None)];
    var body := Choices(t.(started := true), Items(Get(value, "choices")));
    Step(body.state, started + body.events)
  }

  // Stopping the keyed blocks in the order the map is walked.
  function CloseKeyed(s: State, walk: seq<int>): Step {
    if walk == [] then Step(s, [])
    else
      var before := CloseKeyed(s, walk[..|walk| - 1]);
      var key := walk[|walk| - 1];
      if key in s.toolIndexes && s.toolIndexes[key] in before.state.open then
        Step(before.state.(open := before.state.open - {s.toolIndexes[key]}),
             before.events + [ContentStop(s.toolIndexes[key])])
      else
        before
  }

  function CloseBlocks(s: State, walk: seq<int>): Step {
    var text := if s.textOpen then [ContentStop(s.textIndex)] else [];
    var keyed := CloseKeyed(s.(textOpen := false), walk);
    Step(keyed.state, text + keyed.events)
  }

  function Ending(s: State): StreamEvent {
    Done(DefaultStopReason(s.stopReason), s.usage)
  }

  function Decode(s: State, d: Delivery): Decoded<State> {
    if d.event.data.DoneMark? then
      if s.done then Decoded(s, [])
      else
        var closed := CloseBlocks(s.(done := true), d.walk);
        Decoded(closed.state, closed.events + [Ending(s)])
    else
      var parsed := Unmarshal(d.event.data);
      if parsed.None? then Failed(BadJson)
      else
        var chunk := Chunk(s, parsed.value);
        Decoded(chunk.state, chunk.events)
  }

  function Finish(s: State, walk: seq<int>): seq<StreamEvent> {
    if s.done then [] else CloseBlocks(s, walk).events + [Ending(s)]
  }

  // ---- Encoder ----------------------------------------------------------------------------

  function ChunkFrame(r: Response, generated: string, choices: seq<Json>, usage: Option<Usage>): Event {
    var fields := map[
      "id" := Str(EnsureID(r.id, "chatcmpl", generated)), "object" := Str("chat.completion.chunk"),
      "model" := Str(r.model), "choices" := Arr(choices)];
    if usage.None? then Event("", Tree(Obj(fields)))
    else
      var u := usage.value;
      Event("", Tree(Obj(fields["usage" := Obj(map[
        "prompt_tokens" := Num(u.input), "completion_tokens" := Num(u.output), "total_tokens" := Num(u.total)])])))
  }

  function ChoiceObject(delta: map<string, Json>, finish: Json): Json {
    Obj(map["index" := Num(0), "delta" := Obj(delta), "finish_reason" := finish])
  }

  function DeltaFrame(r: Response, generated: string, delta: map<string, Json>): Event {
    ChunkFrame(r, generated, [ChoiceObject(delta, Null)], None)
  }

  function CallStart(index: int, id: string, name: string): Json {
    Obj(map["index" := Num(index), "id" := Str(id), "type" := Str("function"),
            "function" := Obj(map["name" := Str(name), "arguments" := Str("")])])
  }

  function CallDelta(index: int, arguments: string): Json {
    Obj(map["index" := Num(index), "function" := Obj(map["arguments" := Str(arguments)])])
  }

  // The frames one event is printed as; `r` is the collected response after the event, and
  // ids(n), ids(n + 1) are the next generated identifiers.
  function Encode(e: StreamEvent, r: Response, ids: nat -> string, n: nat): seq<Event> {
    match e
    case Start(_, _, _) => [DeltaFrame(r, ids(n), map["role" := Str("assistant"), "content" := Str("")])]
    case ContentStart(index, c) =>
      if c.kind == ToolCallType then [DeltaFrame(r, ids(n),
                                                 map["tool_calls" := Arr([CallStart(index, c.id, c.name)])])] else []
    case ContentDelta(index, c, argumentsDelta) =>
      (match c.kind
       case ToolCallType => [DeltaFrame(r, ids(n), map["tool_calls" := Arr([CallDelta(index, argumentsDelta)])])]
       case ReasoningType => [DeltaFrame(r, ids(n), map["reasoning_content" := Str(c.text)])]
       case _ => [DeltaFrame(r, ids(n), map["content" := Str(c.text)])])
    case ContentStop(_) => []
    case Done(stopReason, usage) =>
      [ChunkFrame(r, ids(n), [ChoiceObject(map[], Str(EncodeChatStopReason(stopReason)))], None)]
      + (if usage.Some? then [ChunkFrame(r, ids(n + 1), [], usage)] else [])
      + [Event("", DoneMark)]
  }

  /** `chatStreamDecoder`. */
  class StreamDecoder {
    var started: bool
    var done: bool
    var nextBlock: int
    var textIndex: int
    var textOpen: bool
    var toolIndexes: map<int, int>
    var open: set<int>
    var id: string
    var model: string
    var stopReason: string
    var usage: Option<Usage>

    constructor ()
      ensures Value() == INITIAL
    {
      started, done, nextBlock, textIndex, textOpen, toolIndexes, open := false, false, 0, 0, false, map[], {};
      id, model, stopReason, usage := "", "", "", None;
    }

    function Value(): State
      reads this
    {
      State(started, done, nextBlock, textIndex, textOpen, toolIndexes, open, id, model, stopReason, usage)
    }

    method DecodeFrame(event: Event) returns (result: Result<seq<StreamEvent>, Failure>, ghost walk: seq<int>)
      modifies this
      ensures Enumerates(walk, old(toolIndexes).Keys)
      ensures match Decode(old(Value()), Delivery(event, walk))
              case Decoded(s, es) => Value() == s && result == Ok(es)
              case Failed(f) => Value() == old(Value()) && result == Err(f)
    {
      walk := AnyWalk(toolIndexes.Keys);
      if event.data.DoneMark? {
        if done {
          return Ok([]), walk;
        }
        done := true;
        var events;
        events, walk := CloseAll();
        return Ok(events + [Done(DefaultStopReason(stopReason), usage)]), walk;
      }
      var parsed := Unmarshal(event.data);
      if parsed.None? {
        return Err(BadJson), walk;
      }
      var events := DecodeChunk(parsed.value);
      result := Ok(events);
    }

    method CaptureHeader(value: Json)
      modifies this`id, this`model, this`usage
      ensures Value() == Header(old(Value()), value)
    {
      if Get(value, "id").Str? {
        id := Get(value, "id").s;
      }
      if Get(value, "model").Str? {
        model := Get(value, "model").s;
      }
      var latest := DecodeChatUsage(Get(value, "usage"));
      if latest.Some? {
        usage := latest;
      }
    }

    method DecodeChunk(value: Json) returns (events: seq<StreamEvent>)
      modifies this
      ensures Step(Value(), events) == Chunk(old(Value()), value)
    {
      CaptureHeader(value);
      var opening := [];
      if !started {
        started := true;
        opening := [Start(id, model, None)];
      }
      var body := DecodeChoices(Items(Get(value, "choices")));
      events := opening + body;
    }

    method DecodeChoices(choices: seq<Json>) returns (events: seq<StreamEvent>)
      modifies this
      ensures Step(Value(), events) == Choices(old(Value()), choices)
    {
      events := [];
      for i := 0 to |choices|
        invariant Step(Value(), events) == Choices(old(Value()), choices[..i])
      {
        assert choices[..i + 1][..i] == choices[..i];
        var more := DecodeChoice(choices[i]);
        events := events + more;
      }
      assert choices[..|choices|] == choices;
    }

    method DecodeChoice(choice: Json) returns (events: seq<StreamEvent>)
      modifies this
      ensures Step(Value(), events) == Choice(old(Value()), choice)
    {
      var delta := Get(choice, "delta");
      var text := DecodeText(StringOr(Get(delta, "content")));
      var reasoning := DecodeReasoning(StringOr(Get(delta, "reasoning_content")));
      var calls := DecodeCalls(Items(Get(delta, "tool_calls")));
      events := text + reasoning + calls;
      var finish := StringOr(Get(choice, "finish_reason"));
      if finish != "" {
        stopReason := ChatStopReason(finish);
      }
    }

    method DecodeText(text: string) returns (events: seq<StreamEvent>)
      modifies this
      ensures Step(Value(), events) == TextPart(old(Value()), text)
    {
      events := [];
      if text != "" {
        if !textOpen {
          textIndex := nextBlock;
          nextBlock := nextBlock + 1;
          textOpen := true;
          events := [ContentStart(textIndex, TextContent(""))];
        }
        events := events + [ContentDelta(textIndex, TextContent(text), "")];
      }
    }

    method DecodeReasoning(reasoning: string) returns (events: seq<StreamEvent>)
      modifies this
      ensures Step(Value(), events) == ReasoningPart(old(Value()), reasoning)
    {
      events := [];
      if reasoning != "" {
        var index := nextBlock;
        if REASONING_KEY in toolIndexes {
          index := toolIndexes[REASONING_KEY];
        } else {
          nextBlock := nextBlock + 1;
          toolIndexes := toolIndexes[REASONING_KEY := index];
          open := open + {index};
          events := [ContentStart(index, ReasoningContent(""))];
        }
        events := events + [ContentDelta(index, ReasoningContent(reasoning), "")];
      }
    }

    method DecodeCalls(calls: seq<Json>) returns (events: seq<StreamEvent>)
      modifies this
      ensures Step(Value(), events) == ToolParts(old(Value()), calls)
    {
      events := [];
      for i := 0 to |calls|
        invariant Step(Value(), events) == ToolParts(old(Value()), calls[..i])
      {
        assert calls[..i + 1][..i] == calls[..i];
        var more := DecodeCall(calls[i]);
        events := events + more;
      }
      assert calls[..|calls|] == calls;
    }

    method DecodeCall(call: Json) returns (events: seq<StreamEvent>)
      modifies this
      ensures Step(Value(), events) == ToolPart(old(Value()), call)
    {
      var callIndex, fn := IntOr(Get(call, "index")), Get(call, "function");
      events := [];
      if callIndex !in toolIndexes {
        var index := nextBlock;
        nextBlock := nextBlock + 1;
        toolIndexes := toolIndexes[callIndex := index];
        open := open + {index};
        events := [ContentStart(index, ToolCallContent(StringOr(Get(call, "id")), StringOr(Get(fn, "name")),
                                                       EMPTY_OBJECT))];
      }
      var arguments := StringOr(Get(fn, "arguments"));
      if arguments != "" {
        events := events + [ContentDelta(toolIndexes[callIndex], ToolCallContent("", "", Null), arguments)];
      }
    }

    method CloseAll() returns (events: seq<StreamEvent>, ghost walk: seq<int>)
      modifies this`textOpen, this`open
      ensures Enumerates(walk, toolIndexes.Keys)
      ensures Step(Value(), events) == CloseBlocks(old(Value()), walk)
    {
      events, walk := [], [];
      if textOpen {
        events := [ContentStop(textIndex)];
        textOpen := false;
      }
      ghost var text, begun := events, Value();
      var rest := toolIndexes.Keys;
      while rest != {}
        invariant rest <= toolIndexes.Keys && Enumerates(walk, toolIndexes.Keys - rest)
        invariant Value() == CloseKeyed(begun, walk).state
        invariant events == text + CloseKeyed(begun, walk).events
      {
        HasElement(rest);
        var key :| key in rest;
        rest := rest - {key};
        assert (walk + [key])[..|walk|] == walk;
        walk := walk + [key];
        var index := toolIndexes[key];
        if index in open {
          events := events + [ContentStop(index)];
          open := open - {index};
        }
      }
    }

    method FinishStream() returns (events: seq<StreamEvent>, ghost walk: seq<int>)
      modifies this
      ensures Enumerates(walk, old(toolIndexes).Keys)
      ensures events == Finish(old(Value()), walk)
    {
      walk := AnyWalk(toolIndexes.Keys);
      if done {
        return [], walk;
      }
      events, walk := CloseAll();
      events := events + [Done(DefaultStopReason(stopReason), usage)];
    }
  }
}
