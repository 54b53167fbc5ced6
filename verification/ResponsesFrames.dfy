/** What the frames of a printed Responses stream say, field by field (proxy/codec/stream.go). */
module ResponsesFrames {
  import opened Canonical
  import opened Collector
  import opened Decimals
  import opened Json
  import opened OrderlyRuns
  import opened StreamTold
  import opened StreamTypes
  import opened Streams
  import opened Wrappers
  import AnthropicStream
  import ChatStream
  import ResponsesRoundTrip
  import ResponsesStream
  import StopReasons

  // ---- Fields -----------------------------------------------------------------------------

  function Field(f: Event, key: string): Json {
    if f.data.Tree? then Get(f.data.json, key) else Null
  }

  // A frame is named twice, and is about the item with the index.
  predicate IsAbout(f: Event, name: string, index: int) {
    f.name == name && Field(f, "type") == Str(name) && Field(f, "output_index") == Num(index)
  }

  predicate IsCall(item: Json, index: int, status: string, id: string, name: string, arguments: string) {
    && Get(item, "type") == Str("function_call") && Get(item, "id") == Str("fc_" + Decimal(index))
    && Get(item, "status") == Str(status) && Get(item, "call_id") == Str(id) && Get(item, "name") == Str(name)
    && Get(item, "arguments") == Str(arguments)
  }

  predicate IsTextPart(part: Json, s: string) {
    Get(part, "type") == Str("output_text") && Get(part, "text") == Str(s) && Get(part, "annotations") == Arr([])
  }

  // A message of one text, or of nothing while it has none.
  predicate IsMessage(item: Json, index: int, status: string, s: Option<string>) {
    && Get(item, "type") == Str("message") && Get(item, "id") == Str("msg_" + Decimal(index))
    && Get(item, "status") == Str(status) && Get(item, "role") == Str("assistant")
    && var content := Get(item, "content");
       content.Arr? &&
       if s.None? then content.items == [] else |content.items| == 1 && IsTextPart(content.items[0], s.value)
  }

  predicate IsReasoning(item: Json, index: int, s: Option<string>) {
    && Get(item, "type") == Str("reasoning") && Get(item, "id") == Str("rs_" + Decimal(index))
    && var summary := Get(item, "summary");
       summary.Arr? &&
       if s.None? then summary.items == []
       else
         |summary.items| == 1 && Get(summary.items[0], "type") == Str("summary_text")
         && Get(summary.items[0], "text") == Str(s.value)
  }

  // ---- The frames of one event ------------------------------------------------------------

  predicate OpensBlock(frames: seq<Event>, index: int, c: Content) {
    var added := "response.output_item.added";
    match c.kind
    case ToolCallType =>
      && |frames| == 1 && IsAbout(frames[0], added, index)
      && IsCall(Field(frames[0], "item"), index, "in_progress", c.id, c.name, "")
    case ReasoningType =>
      && |frames| == 1 && IsAbout(frames[0], added, index) && IsReasoning(Field(frames[0], "item"), index, None)
      && Get(Field(frames[0], "item"), "status") == Str("in_progress")
    case _ =>
      && |frames| == 2 && IsAbout(frames[0], added, index)
      && IsMessage(Field(frames[0], "item"), index, "in_progress", None)
      && IsAbout(frames[1], "response.content_part.added", index)
      && Field(frames[1], "item_id") == Str("msg_" + Decimal(index)) && Field(frames[1], "content_index") == Num(0)
      && IsTextPart(Field(frames[1], "part"), "")
  }

  predicate GrowsBlock(frames: seq<Event>, index: int, c: Content, argumentsDelta: string) {
    |frames| == 1 &&
    match c.kind
    case ToolCallType =>
      && IsAbout(frames[0], "response.function_call_arguments.delta", index)
      && Field(frames[0], "item_id") == Str("fc_" + Decimal(index)) && Field(frames[0], "delta") == Str(argumentsDelta)
    case ReasoningType =>
      && IsAbout(frames[0], "response.reasoning_summary_text.delta", index)
      && Field(frames[0], "item_id") == Str("rs_" + Decimal(index)) && Field(frames[0], "summary_index") == Num(0)
      && Field(frames[0], "delta") == Str(c.text)
    case _ =>
      && IsAbout(frames[0], "response.output_text.delta", index)
      && Field(frames[0], "item_id") == Str("msg_" + Decimal(index)) && Field(frames[0], "content_index") == Num(0)
      && Field(frames[0], "delta") == Str(c.text)
  }

  // The whole of a block: what opened it, and its fragments put together.
  predicate ClosesBlock(frames: seq<Event>, index: int, c: Content, said: string, arguments: string) {
    var done := "response.output_item.done";
    match c.kind
    case ToolCallType =>
      && |frames| == 2 && IsAbout(frames[0], "response.function_call_arguments.done", index)
      && Field(frames[0], "item_id") == Str("fc_" + Decimal(index)) && Field(frames[0], "arguments") == Str(arguments)
      && IsAbout(frames[1], done, index)
      && IsCall(Field(frames[1], "item"), index, "completed", c.id, c.name, arguments)
    case ReasoningType =>
      && |frames| == 2 && IsAbout(frames[0], "response.reasoning_summary_text.done", index)
      && Field(frames[0], "item_id") == Str("rs_" + Decimal(index)) && Field(frames[0], "summary_index") == Num(0)
      && Field(frames[0], "text") == Str(c.text + said)
      && IsAbout(frames[1], done, index) && IsReasoning(Field(frames[1], "item"), index, Some(c.text + said))
      && Get(Field(frames[1], "item"), "status") == Str("completed")
    case _ =>
      && |frames| == 3 && IsAbout(frames[0], "response.output_text.done", index)
      && Field(frames[0], "item_id") == Str("msg_" + Decimal(index)) && Field(frames[0], "content_index") == Num(0)
      && Field(frames[0], "text") == Str(c.text + said)
      && IsAbout(frames[1], "response.content_part.done", index)
      && Field(frames[1], "item_id") == Str("msg_" + Decimal(index)) && Field(frames[1], "content_index") == Num(0)
      && IsTextPart(Field(frames[1], "part"), c.text + said)
      && IsAbout(frames[2], done, index)
      && IsMessage(Field(frames[2], "item"), index, "completed", Some(c.text + said))
  }

  lemma {:induction false} ItemFrameSays(name: string, index: int, item: Json)
    ensures var f := ResponsesStream.ItemFrame(name, index, item); IsAbout(f, name, index) && Field(f, "item") == item
  {
  }

  lemma {:induction false} PartFrameSays(name: string, index: int, part: Json)
    ensures var f := ResponsesStream.PartFrame(name, index, part);
            && IsAbout(f, name, index) && Field(f, "item_id") == Str("msg_" + Decimal(index))
            && Field(f, "content_index") == Num(0) && Field(f, "part") == part
  {
    hide Decimal;
  }

  lemma {:induction false} TextFrameSays(name: string, index: int, s: string)
    ensures var f := ResponsesStream.TextFrame(name, index, "delta", s);
            && IsAbout(f, name, index) && Field(f, "item_id") == Str("msg_" + Decimal(index))
            && Field(f, "content_index") == Num(0) && Field(f, "delta") == Str(s)
    ensures var f := ResponsesStream.TextFrame(name, index, "text", s);
            && IsAbout(f, name, index) && Field(f, "item_id") == Str("msg_" + Decimal(index))
            && Field(f, "content_index") == Num(0) && Field(f, "text") == Str(s)
  {
    hide Decimal;
  }

  lemma {:induction false} SummaryFrameSays(name: string, index: int, s: string)
    ensures var f := ResponsesStream.SummaryFrame(name, index, "delta", s);
            && IsAbout(f, name, index) && Field(f, "item_id") == Str("rs_" + Decimal(index))
            && Field(f, "summary_index") == Num(0) && Field(f, "delta") == Str(s)
    ensures var f := ResponsesStream.SummaryFrame(name, index, "text", s);
            && IsAbout(f, name, index) && Field(f, "item_id") == Str("rs_" + Decimal(index))
            && Field(f, "summary_index") == Num(0) && Field(f, "text") == Str(s)
  {
    hide Decimal;
  }

  lemma {:induction false} CallFrameSays(name: string, index: int, s: string)
    ensures var f := ResponsesStream.CallFrame(name, index, "delta", s);
            && IsAbout(f, name, index) && Field(f, "item_id") == Str("fc_" + Decimal(index))
                && Field(f, "delta") == Str(s)
    ensures var f := ResponsesStream.CallFrame(name, index, "arguments", s);
            && IsAbout(f, name, index) && Field(f, "item_id") == Str("fc_" + Decimal(index))
            && Field(f, "arguments") == Str(s)
  {
    hide Decimal;
  }

  lemma {:induction false} CallItemSays(index: int, status: string, id: string, name: string, arguments: string)
    ensures IsCall(ResponsesStream.CallItem(index, status, id, name, arguments), index, status, id, name, arguments)
  {
    hide Decimal;
  }

  lemma {:induction false} PartSays(s: string)
    ensures IsTextPart(ResponsesStream.OutputText(s), s)
  {
  }

  lemma {:induction false} MessageItemSays(index: int, status: string, s: string)
    ensures IsMessage(ResponsesStream.MessageItem(index, status, []), index, status, None)
    ensures IsMessage(ResponsesStream.MessageItem(index, status, [ResponsesStream.OutputText(s)]), index, status,
                      Some(s))
  {
    PartSays(s);
    hide Decimal, IsTextPart, ResponsesStream.OutputText;
  }

  lemma {:induction false} ReasoningItemSays(index: int, status: string, s: string)
    ensures IsReasoning(ResponsesStream.ReasoningItem(index, status, []), index, None)
    ensures IsReasoning(ResponsesStream.ReasoningItem(index, status, [ResponsesStream.SummaryText(s)]), index, Some(s))
    ensures forall summary :: Get(ResponsesStream.ReasoningItem(index, status, summary), "status") == Str(status)
  {
    hide Decimal;
  }

  lemma {:induction false} Opens(index: int, c: Content, seen: Collected, responseID: string, text: JsonText)
    ensures OpensBlock(ResponsesStream.Encode(ContentStart(index, c), seen, responseID, text), index, c)
  {
    hide Decimal, IsAbout, Field, Get, IsCall, IsMessage, IsReasoning, IsTextPart, ResponsesStream.ItemFrame,
         ResponsesStream.PartFrame, ResponsesStream.CallItem, ResponsesStream.MessageItem,
         ResponsesStream.ReasoningItem, ResponsesStream.OutputText;
    var call, reasoning, message := ResponsesStream.CallItem(index, "in_progress", c.id, c.name, ""),
        ResponsesStream.ReasoningItem(index, "in_progress", []), ResponsesStream.MessageItem(index, "in_progress", []);
    ItemFrameSays("response.output_item.added", index, call);
    ItemFrameSays("response.output_item.added", index, reasoning);
    ItemFrameSays("response.output_item.added", index, message);
    PartFrameSays("response.content_part.added", index, ResponsesStream.OutputText(""));
    CallItemSays(index, "in_progress", c.id, c.name, "");
    ReasoningItemSays(index, "in_progress", "");
    MessageItemSays(index, "in_progress", "");
    PartSays("");
  }

  lemma {:induction false} Grows(index: int, c: Content, argumentsDelta: string, seen: Collected, responseID: string,
                                 text: JsonText)
    ensures GrowsBlock(ResponsesStream.Encode(ContentDelta(index, c, argumentsDelta), seen, responseID, text), index, c,
                       argumentsDelta)
  {
    hide Decimal, IsAbout, Field, ResponsesStream.TextFrame, ResponsesStream.SummaryFrame, ResponsesStream.CallFrame;
    CallFrameSays("response.function_call_arguments.delta", index, argumentsDelta);
    SummaryFrameSays("response.reasoning_summary_text.delta", index, c.text);
    TextFrameSays("response.output_text.delta", index, c.text);
  }

  lemma {:induction false} Closes(index: int, block: Block, c: Content, said: string)
    requires block.content.kind == c.kind && block.content.id == c.id && block.content.name == c.name
             && block.content.text == c.text + said
    ensures ClosesBlock(ResponsesStream.StopFrames(index, block), index, c, said, block.arguments)
  {
    hide Decimal, IsAbout, Field, Get, IsCall, IsMessage, IsReasoning, IsTextPart, ResponsesStream.ItemFrame,
         ResponsesStream.PartFrame, ResponsesStream.CallItem, ResponsesStream.MessageItem,
         ResponsesStream.ReasoningItem, ResponsesStream.OutputText, ResponsesStream.SummaryText,
         ResponsesStream.TextFrame, ResponsesStream.SummaryFrame, ResponsesStream.CallFrame;
    var s := c.text + said;
    var call, reasoning, message := ResponsesStream.CallItem(index, "completed", c.id, c.name, block.arguments),
        ResponsesStream.ReasoningItem(index, "completed", [ResponsesStream.SummaryText(s)]),
        ResponsesStream.MessageItem(index, "completed", [ResponsesStream.OutputText(s)]);
    ItemFrameSays("response.output_item.done", index, call);
    ItemFrameSays("response.output_item.done", index, reasoning);
    ItemFrameSays("response.output_item.done", index, message);
    CallFrameSays("response.function_call_arguments.done", index, block.arguments);
    SummaryFrameSays("response.reasoning_summary_text.done", index, s);
    TextFrameSays("response.output_text.done", index, s);
    PartFrameSays("response.content_part.done", index, ResponsesStream.OutputText(s));
    CallItemSays(index, "completed", c.id, c.name, block.arguments);
    ReasoningItemSays(index, "completed", s);
    MessageItemSays(index, "completed", s);
    PartSays(s);
  }

  // ---- The envelope -----------------------------------------------------------------------

  predicate IsResponse(value: Json, id: string, status: string, model: string) {
    && Get(value, "object") == Str("response") && Get(value, "id") == Str(id) && Get(value, "status") == Str(status)
    && Get(value, "model") == Str(model)
  }

  predicate Begins(frames: seq<Event>, id: string, model: string) {
    && |frames| == 2 && frames[0].name == "response.created" && frames[1].name == "response.in_progress"
    && forall f :: f in frames ==>
         Field(f, "type") == Str(f.name) && IsResponse(Field(f, "response"), id, "in_progress", model)
         && Get(Field(f, "response"), "output") == Arr([])
  }

  // The positions of the contents a response object lists.
  function Listed(contents: seq<Content>): seq<nat> {
    if contents == [] then []
    else
      var n := |contents| - 1;
      var before := Listed(contents[..n]);
      if contents[n].kind in {TextType, ReasoningType, ToolCallType} then before + [n] else before
  }

  // An item of a finished response says what a content says.
  predicate ItemSays(item: Json, index: int, c: Content, text: JsonText) {
    match c.kind
    case ToolCallType => IsCall(item, index, "completed", c.id, c.name, text.marshal(c.arguments))
    case ReasoningType => IsReasoning(item, index, Some(c.text))
    case TextType => IsMessage(item, index, "completed", Some(c.text))
    case _ => false
  }

  // One item for each content listed, in order, under the content's position.
  ghost predicate OutputSays(items: seq<Json>, contents: seq<Content>, text: JsonText) {
    && |items| == |Listed(contents)|
    && forall k :: 0 <= k < |items| ==>
         Listed(contents)[k] < |contents|
         && ItemSays(items[k], Listed(contents)[k], contents[Listed(contents)[k]], text)
  }

  // Where every content is text, reasoning or a call, all are listed.
  lemma {:induction false} AllListed(contents: seq<Content>)
    requires forall c :: c in contents ==> c.kind in {TextType, ReasoningType, ToolCallType}
    ensures |Listed(contents)| == |contents| && forall k :: 0 <= k < |contents| ==> Listed(contents)[k] == k
  {
    if contents != [] {
      assert contents[|contents| - 1] in contents && forall c :: c in contents[..|contents| - 1] ==> c in contents;
      AllListed(contents[..|contents| - 1]);
    }
  }

  lemma {:induction false} OldReasoningSays(index: int, s: string)
    ensures IsReasoning(Obj(map["type" := Str("reasoning"), "id" := Str(ResponsesStream.ReasoningKey(index)),
                                "summary" := Arr([ResponsesStream.SummaryText(s)])]), index, Some(s))
  {
    hide Decimal;
  }

  lemma {:induction false} OutputIsListed(contents: seq<Content>, text: JsonText)
    ensures OutputSays(ResponsesStream.OutputItems(contents, text), contents, text)
  {
    hide IsCall, IsReasoning, IsMessage, ResponsesStream.CallItem, ResponsesStream.MessageItem,
         ResponsesStream.OutputText, ResponsesStream.SummaryText, ResponsesStream.ReasoningKey;
    if contents != [] {
      var n := |contents| - 1;
      var c := contents[n];
      OutputIsListed(contents[..n], text);
      CallItemSays(n, "completed", c.id, c.name, text.marshal(c.arguments));
      MessageItemSays(n, "completed", c.text);
      OldReasoningSays(n, c.text);
    }
  }

  // What a usage prints as.
  predicate IsUsage(value: Json, u: Usage) {
    && Get(value, "input_tokens") == Num(u.input) && Get(value, "output_tokens") == Num(u.output)
    && Get(value, "total_tokens") == Num(u.total)
    && Get(Get(value, "input_tokens_details"), "cached_tokens") == Num(u.cached)
    && Get(Get(value, "output_tokens_details"), "reasoning_tokens") == Num(u.reasoning)
  }

  // A finished response: its status, why it is incomplete, its content and its usage.
  ghost predicate IsFinished(value: Json, id: string, r: Response, text: JsonText) {
    var status := if r.stopReason == "length" then "incomplete" else if r.stopReason == "error" then "failed"
        else "completed";
    var output := Get(value, "output");
    && IsResponse(value, id, status, r.model)
    && (if r.stopReason == "length" then Get(Get(value, "incomplete_details"), "reason") == Str("max_output_tokens")
        else Get(value, "incomplete_details") == Null)
    && Get(value, "error") == Null && Get(value, "instructions") == Null && Get(value, "tools") == Arr([])
    && Get(value, "tool_choice") == Str("auto") && Get(value, "parallel_tool_calls") == Bool(true)
    && OutputSays(if output.Arr? then output.items else [], r.content, text)
    && (if r.usage.None? then Get(value, "usage") == Null else IsUsage(Get(value, "usage"), r.usage.value))
  }

  lemma {:induction false} ObjectSays(r: Response, id: string, text: JsonText)
    ensures var value := ResponsesStream.ResponseObject(r, id, text);
            Get(value, "object") == Str("response") && Get(value, "id") == Str(id)
  {
    hide ResponsesStream.OutputItems, StopReasons.ResponsesStatus;
  }

  lemma {:induction false} ObjectModel(r: Response, id: string, text: JsonText)
    ensures var value := ResponsesStream.ResponseObject(r, id, text);
            Get(value, "status") == Str(StopReasons.ResponsesStatus(r.stopReason))
                && Get(value, "model") == Str(r.model)
  {
    hide ResponsesStream.OutputItems, StopReasons.ResponsesStatus;
  }

  lemma {:induction false} ObjectRest(r: Response, id: string, text: JsonText)
    ensures var value := ResponsesStream.ResponseObject(r, id, text);
            && Get(value, "error") == Null && Get(value, "instructions") == Null && Get(value, "tools") == Arr([])
            && Get(value, "tool_choice") == Str("auto") && Get(value, "parallel_tool_calls") == Bool(true)
  {
    hide ResponsesStream.OutputItems, StopReasons.ResponsesStatus;
  }

  lemma {:induction false} ObjectOutput(r: Response, id: string, text: JsonText)
    ensures var output := ResponsesStream.OutputItems(r.content, text);
            Get(ResponsesStream.ResponseObject(r, id, text), "output") == if output == [] then Null else Arr(output)
  {
    hide ResponsesStream.OutputItems, StopReasons.ResponsesStatus;
  }

  lemma {:induction false} ObjectDetails(r: Response, id: string, text: JsonText)
    ensures Get(ResponsesStream.ResponseObject(r, id, text), "incomplete_details") ==
            if r.stopReason == "length" then Obj(map["reason" := Str("max_output_tokens")]) else Null
  {
    hide ResponsesStream.OutputItems, StopReasons.ResponsesStatus;
  }

  lemma {:induction false} ObjectUsage(r: Response, id: string, text: JsonText)
    ensures var value := ResponsesStream.ResponseObject(r, id, text);
            if r.usage.None? then Get(value, "usage") == Null else IsUsage(Get(value, "usage"), r.usage.value)
  {
    hide ResponsesStream.OutputItems, StopReasons.ResponsesStatus;
  }

  lemma {:induction false} Finishes(r: Response, id: string, text: JsonText)
    ensures IsFinished(ResponsesStream.ResponseObject(r, id, text), id, r, text)
  {
    hide ResponsesStream.ResponseObject, ResponsesStream.OutputItems, OutputSays, IsUsage;
    ObjectSays(r, id, text);
    ObjectModel(r, id, text);
    ObjectRest(r, id, text);
    ObjectOutput(r, id, text);
    ObjectDetails(r, id, text);
    ObjectUsage(r, id, text);
    OutputIsListed(r.content, text);
  }

  // ---- The frames of a run ----------------------------------------------------------------

  // What the frames printed for an event say, after the events before it.
  ghost predicate EventSays(es: seq<StreamEvent>, e: StreamEvent, frames: seq<Event>, id: string, text: JsonText) {
    match e
    case Start(_, model, _) => Begins(frames, id, model)
    case ContentStart(index, c) => OpensBlock(frames, index, c)
    case ContentDelta(index, c, argumentsDelta) => GrowsBlock(frames, index, c, argumentsDelta)
    case ContentStop(index) =>
      if index in Noted(es).open then
        && Opening(es, index).Some?
        && ClosesBlock(frames, index, Opening(es, index).value, Spoken(es, index), ArgumentsTold(es, index))
      else frames == []
    case Done(_, _) =>
      && |frames| == 1 && frames[0].name == "response.completed"
          && Field(frames[0], "type") == Str("response.completed")
      && var r := ApplyAll(EMPTY, es + [e], text).response;
         && IsFinished(Field(frames[0], "response"), id, r, text) && r.content == ContentTold(es, text)
  }

  lemma {:induction false} EnvelopeFrames(name: string, response: Json)
    ensures var f := Frame(name, map["response" := response]);
            f.name == name && Field(f, "type") == Str(name) && Field(f, "response") == response
  {
  }

  lemma {:induction false} StartSays(e: StreamEvent, seen: Collected, id: string, text: JsonText)
    requires e.Start?
    ensures Begins(ResponsesStream.Encode(e, seen, id, text), id, e.model)
  {
    var skeleton := Obj(map["id" := Str(id), "object" := Str("response"), "created_at" := Num(0),
                            "status" := Str("in_progress"), "model" := Str(e.model), "output" := Arr([])]);
    assert IsResponse(skeleton, id, "in_progress", e.model) && Get(skeleton, "output") == Arr([]);
    EnvelopeFrames("response.created", skeleton);
    EnvelopeFrames("response.in_progress", skeleton);
    hide Get, Field, Frame;
  }

  lemma {:induction false} DoneSays(es: seq<StreamEvent>, e: StreamEvent, id: string, text: JsonText)
    requires e.Done? && ApplyAll(EMPTY, es, text).response.content == ContentTold(es, text)
    ensures EventSays(es, e, ResponsesStream.Encode(e, ApplyAll(EMPTY, es + [e], text), id, text), id, text)
  {
    hide ContentTold, IsFinished, ResponsesStream.ResponseObject, Field, Frame, ApplyAll;
    var seen := ApplyAll(EMPTY, es + [e], text);
    CollectedOneMore(es, e, text);
    Finishes(seen.response, id, text);
    EnvelopeFrames("response.completed", ResponsesStream.ResponseObject(seen.response, id, text));
  }

  lemma {:induction false} StopSays(es: seq<StreamEvent>, e: StreamEvent, id: string, text: JsonText)
    requires e.ContentStop? && Orderly(es) && Allowed(Noted(es), e)
    ensures EventSays(es, e, ResponsesStream.Encode(e, ApplyAll(EMPTY, es + [e], text), id, text), id, text)
  {
    hide Noted, Orderly, ClosesBlock, Opening, Spoken, ArgumentsTold, ResponsesStream.StopFrames, ApplyAll,
         ParseArguments;
    var z := ApplyAll(EMPTY, es, text);
    CollectedIsTold(es, text);
    CollectedOneMore(es, e, text);
    ResponsesRoundTrip.RawStays(es, text);
    if e.index in Noted(es).open {
      var c, after := Opening(es, e.index).value, Apply(z, e, text).blocks[e.index];
      assert Holds(z.blocks[e.index], es, e.index);
      Closes(e.index, after, c, Spoken(es, e.index));
    }
  }

  lemma {:induction false} EncodedSays(es: seq<StreamEvent>, e: StreamEvent, id: string, text: JsonText)
    requires Orderly(es) && Allowed(Noted(es), e)
    ensures EventSays(es, e, ResponsesStream.Encode(e, ApplyAll(EMPTY, es + [e], text), id, text), id, text)
  {
    var seen := ApplyAll(EMPTY, es + [e], text);
    match e
    case Start(_, _, _) =>
      hide ResponsesStream.Encode, Begins, ApplyAll;
      StartSays(e, seen, id, text);
    case ContentStart(index, c) =>
      hide ResponsesStream.Encode, OpensBlock, ApplyAll;
      Opens(index, c, seen, id, text);
    case ContentDelta(index, c, argumentsDelta) =>
      hide ResponsesStream.Encode, GrowsBlock, ApplyAll;
      Grows(index, c, argumentsDelta, seen, id, text);
    case ContentStop(_) =>
      hide ResponsesStream.Encode, EventSays, ApplyAll, Orderly, Allowed, Noted;
      StopSays(es, e, id, text);
    case Done(_, _) =>
      hide ResponsesStream.Encode, EventSays, ApplyAll, Orderly, Allowed, Noted, ContentTold;
      CollectedIsTold(es, text);
      DoneSays(es, e, id, text);
  }

  // The response id: that of the last start when it has the right prefix, else a generated one.
  lemma {:induction false} ResponseIDOneMore(es: seq<StreamEvent>, e: StreamEvent, env: Env)
    ensures var before, after := EncodeAll(OpenAIResponses, FRESH, es, env),
            EncodeAll(OpenAIResponses, FRESH, es + [e], env);
            after.responseID ==
            if !e.Start? then before.responseID else if "resp_" <= e.id then e.id else env.ids(|before.out|)
  {
    hide ResponsesStream.Encode, Apply;
    assert (es + [e])[..|es|] == es && "resp" + "_" == "resp_";
  }

  lemma {:induction false} PrintedPrefix(p: Protocol, es: seq<StreamEvent>, more: seq<StreamEvent>, env: Env)
    ensures EncodeAll(p, FRESH, es, env).out <= EncodeAll(p, FRESH, es + more, env).out
    decreases |more|
  {
    hide ChatStream.Encode, ResponsesStream.Encode, AnthropicStream.Encode, Apply;
    if more == [] {
      assert es + more == es;
    } else {
      var n := |more| - 1;
      PrintedPrefix(p, es, more[..n], env);
      assert (es + more)[..|es| + n] == es + more[..n];
    }
  }

  /**
   * The frames of an orderly run printed as Responses, event by event: starts and deltas say what the event
   * says; what closes a block says what opened it and all its fragments put together; and the end lists the
   * blocks as told, in the order of their stops, with the status and the usage.
   */
  lemma {:induction false} PrintedFramesSay(es: seq<StreamEvent>, k: nat, env: Env)
    requires Orderly(es) && k < |es|
    ensures var before, after := EncodeAll(OpenAIResponses, FRESH, es[..k], env),
            EncodeAll(OpenAIResponses, FRESH, es[..k + 1], env);
            && before.out <= after.out <= EncodeAll(OpenAIResponses, FRESH, es, env).out
            && EventSays(es[..k], es[k], after.out[|before.out|..], after.responseID, env.text)
            && after.responseID ==
               if !es[k].Start? then before.responseID
               else if "resp_" <= es[k].id then es[k].id else env.ids(|before.out|)
  {
    hide EncodeAll, EventSays, ResponsesStream.Encode, ApplyAll, Allowed, Noted;
    var prefix, e := es[..k], es[k];
    assert es[..k + 1] == prefix + [e] && es == es[..k + 1] + es[k + 1..] && es == prefix + es[k..];
    OrderlyPrefix(es[..k + 1], es[k + 1..]);
    OrderlyOneMore(prefix, e);
    PrintedPrefix(OpenAIResponses, es[..k + 1], es[k + 1..], env);
    var before, after := EncodeAll(OpenAIResponses, FRESH, prefix, env),
        EncodeAll(OpenAIResponses, FRESH, prefix + [e], env);
    ResponsesRoundTrip.EncodesOneMore(prefix, e, env);
    EncoderCollects(OpenAIResponses, FRESH, prefix + [e], env);
    ResponseIDOneMore(prefix, e, env);
    EncodedSays(prefix, e, after.responseID, env.text);
  }
}
