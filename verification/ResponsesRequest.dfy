/** Decoding and encoding OpenAI Responses requests (proxy/codec/request.go). */
module ResponsesRequest {
  import opened Canonical
  import opened Json
  import opened RequestTypes
  import opened Texts
  import opened Wrappers

  const INPUT: Path := [Key("input")]

  // ---- Decoding ---------------------------------------------------------------------------

  function DecodePart(item: Json, path: Path): Read<Content> {
    if !item.Obj? then Read([], [Problem(path, "must be an object")])
    else
      var kind := StringOr(Get(item, "type"));
      if kind != "input_text" && kind != "output_text" && kind != "text" then
        Read([], [Problem(path + [Key("type")], "content type is not portable")])
      else if !Get(item, "text").Str? then Read([], [Problem(path + [Key("text")], "must be a string")])
      else Read([TextContent(Get(item, "text").s)], [])
  }

  function DecodeParts(items: seq<Json>, path: Path): Read<Content> {
    if items == [] then Read([], [])
    else
      var n := |items| - 1;
      Both(DecodeParts(items[..n], path), DecodePart(items[n], path + [At(n)]))
  }

  function DecodeContent(value: Json, path: Path): Read<Content> {
    match value
    case Str(s) => Read([TextContent(s)], [])
    case Arr(items) => DecodeParts(items, path)
    case _ => Read([], [Problem(path, "must be a string or content array")])
  }

  function DecodeMessageItem(item: Json, path: Path): Read<Message> {
    var role := StringOr(Get(item, "role"));
    if role != "system" && role != "developer" && role != "user" && role != "assistant" then
      Read([], [Problem(path + [Key("role")], "contains an unsupported role")])
    else
      var contents := DecodeContent(Get(item, "content"), path + [Key("content")]);
      Read([Message(role, contents.values)], contents.diagnostics)
  }

  // The call's id: call_id, else id.
  function CallID(item: Json): string {
    if StringOr(Get(item, "call_id")) != "" then StringOr(Get(item, "call_id")) else StringOr(Get(item, "id"))
  }

  function DecodeCall(item: Json, path: Path, text: JsonText): Read<Message> {
    var name, arguments := StringValue(Get(item, "name")), ParseArguments(Get(item, "arguments"), text);
    if CallID(item) == "" || name.None? || arguments.None? then
      Read([], [Problem(path, "function_call requires call_id, name and JSON arguments")])
    else Read([Message("assistant", [ToolCallContent(CallID(item), name.value, arguments.value)])], [])
  }

  function DecodeOutput(item: Json, path: Path, text: JsonText): Read<Message> {
    var id, output := Get(item, "call_id"), Get(item, "output");
    if !id.Str? then Read([], [Problem(path + [Key("call_id")], "must be a string")])
    else Read([Message("user", [ToolResultContent(id.s, if output.Str? then output.s
                                                  else text.marshal(output), false)])], [])
  }

  datatype ItemKind = MessageItem | CallItem | OutputItem | ReasoningItem | OtherItem

  function KindOf(item: Json): ItemKind {
    var name := StringOr(Get(item, "type"));
    if name == "" || name == "message" then MessageItem
    else if name == "function_call" then CallItem
    else if name == "function_call_output" then OutputItem
    else if name == "reasoning" then ReasoningItem
    else OtherItem
  }

  function DecodeItem(item: Json, index: nat, text: JsonText): Read<Message> {
    var path := INPUT + [At(index)];
    if !item.Obj? then Read([], [Problem(path, "must be an object")])
    else
      match KindOf(item)
      case MessageItem => DecodeMessageItem(item, path)
      case CallItem => DecodeCall(item, path, text)
      case OutputItem => DecodeOutput(item, path, text)
      case ReasoningItem => Read([], [Problem(path, "reasoning history is not portable without its provider state")])
      case OtherItem => Read([], [Problem(path + [Key("type")], "input type is not portable")])
  }

  function DecodeItems(items: seq<Json>, text: JsonText): Read<Message> {
    if items == [] then Read([], [])
    else
      var n := |items| - 1;
      Both(DecodeItems(items[..n], text), DecodeItem(items[n], n, text))
  }

  function DecodeInput(value: Json, text: JsonText): Read<Message> {
    match value
    case Str(s) => Read([Message("user", [TextContent(s)])], [])
    case Arr(items) => DecodeItems(items, text)
    case _ => Read([], [Problem(INPUT, "must be a string or item array")])
  }

  function DecodeInstructions(value: Json): Read<Message> {
    Read(if StringOr(value) == "" then [] else [Message("developer", [TextContent(StringOr(value))])], [])
  }

  // The messages of a request; its other fields are decoded beside them.
  function Decode(value: Json, text: JsonText): Read<Message> {
    Both(DecodeInstructions(Get(value, "instructions")), DecodeInput(Get(value, "input"), text))
  }

  lemma {:induction false} OneMorePart(items: seq<Json>, i: nat, path: Path)
    requires i < |items|
    ensures DecodeParts(items[..i + 1], path) ==
            Both(DecodeParts(items[..i], path), DecodePart(items[i], path + [At(i)]))
  {
    hide DecodePart;
    assert items[..i + 1][..i] == items[..i];
  }

  /** `decodeResponsesMessageContent`. */
  method ReadContent(value: Json, path: Path, report: Report) returns (contents: seq<Content>)
    modifies report
    ensures var r := DecodeContent(value, path); contents == r.values && report.list == old(report.list) + r.diagnostics
  {
    hide DecodeParts, Get;
    contents := [];
    if value.Str? {
      return [TextContent(value.s)];
    }
    if !value.Arr? {
      report.Add(Problem(path, "must be a string or content array"));
      return;
    }
    NoParts(path);
    assert value.items[..0] == [];
    for i := 0 to |value.items|
      invariant var r := DecodeParts(value.items[..i], path);
                contents == r.values && report.list == old(report.list) + r.diagnostics
    {
      OneMorePart(value.items, i, path);
      var item, itemPath := value.items[i], path + [At(i)];
      if !item.Obj? {
        report.Add(Problem(itemPath, "must be an object"));
        continue;
      }
      var kind := StringOr(Get(item, "type"));
      if kind != "input_text" && kind != "output_text" && kind != "text" {
        report.Add(Problem(itemPath + [Key("type")], "content type is not portable"));
        continue;
      }
      if !Get(item, "text").Str? {
        report.Add(Problem(itemPath + [Key("text")], "must be a string"));
        continue;
      }
      contents := contents + [TextContent(Get(item, "text").s)];
    }
    assert value.items[..|value.items|] == value.items;
  }

  lemma {:induction false} NoParts(path: Path)
    ensures DecodeParts([], path) == Read([], [])
  {
  }

  method ReadItem(item: Json, index: nat, text: JsonText, report: Report) returns (ms: seq<Message>)
    modifies report
    ensures var r := DecodeItem(item, index, text); ms == r.values && report.list == old(report.list) + r.diagnostics
  {
    hide DecodeContent, Get, ParseArguments, KindOf;
    var path := INPUT + [At(index)];
    ms := [];
    if !item.Obj? {
      report.Add(Problem(path, "must be an object"));
      return;
    }
    match KindOf(item) {
      case MessageItem =>
        var role := StringOr(Get(item, "role"));
        if role != "system" && role != "developer" && role != "user" && role != "assistant" {
          report.Add(Problem(path + [Key("role")], "contains an unsupported role"));
          return;
        }
        var contents := ReadContent(Get(item, "content"), path + [Key("content")], report);
        ms := [Message(role, contents)];
      case CallItem =>
        var id := StringOr(Get(item, "call_id"));
        if id == "" {
          id := StringOr(Get(item, "id"));
        }
        var name, arguments := StringValue(Get(item, "name")), ParseArguments(Get(item, "arguments"), text);
        if id == "" || name.None? || arguments.None? {
          report.Add(Problem(path, "function_call requires call_id, name and JSON arguments"));
          return;
        }
        ms := [Message("assistant", [ToolCallContent(id, name.value, arguments.value)])];
      case OutputItem =>
        var id, output := Get(item, "call_id"), Get(item, "output");
        if !id.Str? {
          report.Add(Problem(path + [Key("call_id")], "must be a string"));
          return;
        }
        ms := [Message("user", [ToolResultContent(id.s, if output.Str? then output.s
                                                  else text.marshal(output), false)])];
      case ReasoningItem =>
        report.Add(Problem(path, "reasoning history is not portable without its provider state"));
      case OtherItem =>
        report.Add(Problem(path + [Key("type")], "input type is not portable"));
    }
  }

  /** `decodeResponsesInput`. */
  method ReadInput(value: Json, text: JsonText, report: Report) returns (ms: seq<Message>)
    modifies report
    ensures var r := DecodeInput(value, text); ms == r.values && report.list == old(report.list) + r.diagnostics
  {
    hide DecodeItem;
    ms := [];
    if value.Str? {
      return [Message("user", [TextContent(value.s)])];
    }
    if !value.Arr? {
      report.Add(Problem(INPUT, "must be a string or item array"));
      return;
    }
    for i := 0 to |value.items|
      invariant var r := DecodeItems(value.items[..i], text);
                ms == r.values && report.list == old(report.list) + r.diagnostics
    {
      assert value.items[..i + 1][..i] == value.items[..i];
      var more := ReadItem(value.items[i], i, text, report);
      ms := ms + more;
    }
    assert value.items[..|value.items|] == value.items;
  }

  // ---- Encoding ---------------------------------------------------------------------------

  function CallJson(c: Content, text: JsonText): Json {
    Obj(map["type" := Str("function_call"), "call_id" := Str(c.id), "name" := Str(c.name),
            "arguments" := Str(text.marshal(c.arguments))])
  }

  function OutputJson(c: Content): Json {
    Obj(map["type" := Str("function_call_output"), "call_id" := Str(c.toolCallID), "output" := Str(c.text)])
  }

  function PartJson(role: string, s: string): Json {
    Obj(map["type" := Str(if role == "assistant" then "output_text" else "input_text"), "text" := Str(s)])
  }

  function MessageJson(role: string, parts: seq<Json>): Json {
    Obj(map["type" := Str("message"), "role" := Str(role), "content" := Arr(parts)])
  }

  // The tool items printed at once, and the text parts gathered into one message.
  function ToolItems(contents: seq<Content>, text: JsonText): seq<Json> {
    if contents == [] then []
    else
      var before, c := ToolItems(contents[..|contents| - 1], text), contents[|contents| - 1];
      match c.kind
      case ToolCallType => before + [CallJson(c, text)]
      case ToolResultType => before + [OutputJson(c)]
      case _ => before
  }

  function Parts(role: string, contents: seq<Content>): seq<Json> {
    if contents == [] then []
    else
      var before, c := Parts(role, contents[..|contents| - 1]), contents[|contents| - 1];
      if c.kind.TextType? then before + [PartJson(role, c.text)] else before
  }

  function EncodeMessage(m: Message, text: JsonText): seq<Json> {
    var parts := Parts(m.role, m.content);
    ToolItems(m.content, text) + (if parts == [] then [] else [MessageJson(m.role, parts)])
  }

  function EncodeItems(ms: seq<Message>, text: JsonText): seq<Json> {
    if ms == [] then []
    else
      var before, m := EncodeItems(ms[..|ms| - 1], text), ms[|ms| - 1];
      if IsSystem(m.role) then before else before + EncodeMessage(m, text)
  }

  function Instructions(ms: seq<Message>): seq<string> {
    if ms == [] then []
    else
      var before, m := Instructions(ms[..|ms| - 1]), ms[|ms| - 1];
      if IsSystem(m.role) then before + [ContentText(m.content)] else before
  }

  // The input and instructions of the encoded request; a nil input prints as null.
  function Encode(ms: seq<Message>, text: JsonText): Json {
    var input, instructions := EncodeItems(ms, text), Instructions(ms);
    var fields: map<string, Json> := map["input" := if input == [] then Null else Arr(input)];
    Obj(if instructions == [] then fields else fields["instructions" := Str(Join(instructions, "\n\n"))])
  }

  /** `encodeResponsesRequest`, its input and instructions. */
  method WriteRequest(ms: seq<Message>, text: JsonText) returns (value: Json)
    ensures value == Encode(ms, text)
  {
    hide ToolItems, Parts, ContentText, MessageJson, Join;
    var instructions: seq<string>, input: seq<Json> := [], [];
    for i := 0 to |ms|
      invariant input == EncodeItems(ms[..i], text) && instructions == Instructions(ms[..i])
    {
      assert ms[..i + 1][..i] == ms[..i];
      if IsSystem(ms[i].role) {
        var said := WriteText(ms[i].content);
        instructions := instructions + [said];
        continue;
      }
      var items, parts := WriteContents(ms[i].role, ms[i].content, text);
      input := input + items;
      if |parts| > 0 {
        input := input + [MessageJson(ms[i].role, parts)];
      }
    }
    assert ms[..|ms|] == ms;
    var fields: map<string, Json> := map["input" := if input == [] then Null else Arr(input)];
    if |instructions| > 0 {
      fields := fields["instructions" := Str(Join(instructions, "\n\n"))];
    }
    value := Obj(fields);
  }

  /** `contentText`. */
  method WriteText(contents: seq<Content>) returns (said: string)
    ensures said == ContentText(contents)
  {
    said := "";
    for i := 0 to |contents|
      invariant said == ContentText(contents[..i])
    {
      assert contents[..i + 1][..i] == contents[..i];
      if contents[i].kind.TextType? {
        said := said + contents[i].text;
      }
    }
    assert contents[..|contents|] == contents;
  }

  method WriteContents(role: string, contents: seq<Content>, text: JsonText)
    returns (items: seq<Json>, parts: seq<Json>)
    ensures items == ToolItems(contents, text) && parts == Parts(role, contents)
  {
    hide CallJson, OutputJson, PartJson;
    items, parts := [], [];
    for i := 0 to |contents|
      invariant items == ToolItems(contents[..i], text) && parts == Parts(role, contents[..i])
    {
      assert contents[..i + 1][..i] == contents[..i];
      var c := contents[i];
      match c.kind {
        case TextType => parts := parts + [PartJson(role, c.text)];
        case ToolCallType => items := items + [CallJson(c, text)];
        case ToolResultType => items := items + [OutputJson(c)];
        case _ =>
      }
    }
    assert contents[..|contents|] == contents;
  }

  // ---- Decoding what was encoded ----------------------------------------------------------

  ghost predicate Reads(item: Json, m: Message, text: JsonText) {
    forall index: nat :: DecodeItem(item, index, text) == Read([m], [])
  }

  lemma {:induction false} DecodeMore(before: seq<Json>, items: seq<Json>, back: seq<Message>, text: JsonText)
    requires |items| == |back| && forall i :: 0 <= i < |items| ==> Reads(items[i], back[i], text)
    ensures DecodeItems(before + items, text) == Both(DecodeItems(before, text), Read(back, []))
  {
    hide DecodeItem;
    if items == [] {
      assert before + items == before;
    } else {
      var n := |items| - 1;
      DecodeMore(before, items[..n], back[..n], text);
      assert (before + items)[..|before| + n] == before + items[..n];
      assert Reads(items[n], back[n], text);
      assert back == back[..n] + [back[n]];
      assert DecodeItems(before, text).diagnostics + [] == DecodeItems(before, text).diagnostics;
    }
  }

  // A message per tool item, and one for the text parts.
  function ToolsBack(contents: seq<Content>): seq<Message> {
    if contents == [] then []
    else
      var before, c := ToolsBack(contents[..|contents| - 1]), contents[|contents| - 1];
      match c.kind
      case ToolCallType => before + [Message("assistant", [ToolCallContent(c.id, c.name, c.arguments)])]
      case ToolResultType => before + [Message("user", [ToolResultContent(c.toolCallID, c.text, false)])]
      case _ => before
  }

  function TextsBack(contents: seq<Content>): seq<Content> {
    if contents == [] then []
    else
      var before, c := TextsBack(contents[..|contents| - 1]), contents[|contents| - 1];
      if c.kind.TextType? then before + [TextContent(c.text)] else before
  }

  function MessageBack(m: Message): seq<Message> {
    ToolsBack(m.content) + (if TextsBack(m.content) == [] then [] else [Message(m.role, TextsBack(m.content))])
  }

  function AllBack(ms: seq<Message>): seq<Message> {
    if ms == [] then []
    else
      var before, m := AllBack(ms[..|ms| - 1]), ms[|ms| - 1];
      if IsSystem(m.role) then before else before + MessageBack(m)
  }

  lemma {:induction false} CallFields(c: Content, text: JsonText)
    ensures var item := CallJson(c, text);
            && item.Obj? && Get(item, "type") == Str("function_call") && Get(item, "call_id") == Str(c.id)
            && Get(item, "name") == Str(c.name) && Get(item, "arguments") == Str(text.marshal(c.arguments))
  {
  }

  lemma {:induction false} CallReads(c: Content, text: JsonText)
    requires c.id != "" && Survives(c.arguments, text)
    ensures Reads(CallJson(c, text), Message("assistant", [ToolCallContent(c.id, c.name, c.arguments)]), text)
  {
    ArgumentsAreSpelled(Str(text.marshal(c.arguments)), c.arguments, text);
    CallFields(c, text);
    hide CallJson, Get, ParseArguments;
    assert KindOf(CallJson(c, text)) == CallItem;
  }

  lemma {:induction false} OutputFields(c: Content)
    ensures var item := OutputJson(c);
            && item.Obj? && Get(item, "type") == Str("function_call_output")
            && Get(item, "call_id") == Str(c.toolCallID) && Get(item, "output") == Str(c.text)
  {
  }

  lemma {:induction false} OutputReads(c: Content, text: JsonText)
    ensures Reads(OutputJson(c), Message("user", [ToolResultContent(c.toolCallID, c.text, false)]), text)
  {
    OutputFields(c);
    hide OutputJson, Get;
    assert KindOf(OutputJson(c)) == OutputItem;
  }

  lemma {:induction false} PartReads(role: string, s: string, path: Path)
    ensures DecodePart(PartJson(role, s), path) == Read([TextContent(s)], [])
  {
    var item := PartJson(role, s);
    assert Get(item, "text") == Str(s) && Get(item, "type") ==
           Str(if role == "assistant" then "output_text" else "input_text");
  }

  lemma {:induction false} PartsRead(role: string, contents: seq<Content>, path: Path)
    ensures DecodeParts(Parts(role, contents), path) == Read(TextsBack(contents), [])
    ensures |Parts(role, contents)| == |TextsBack(contents)|
  {
    hide DecodePart, PartJson;
    if contents != [] {
      var n := |contents| - 1;
      PartsRead(role, contents[..n], path);
      var before := Parts(role, contents[..n]);
      if contents[n].kind.TextType? {
        PartReads(role, contents[n].text, path + [At(|before|)]);
        assert Parts(role, contents)[..|before|] == before;
      }
    }
  }

  lemma {:induction false} MessageFields(role: string, parts: seq<Json>)
    ensures var item := MessageJson(role, parts);
            item.Obj? && Get(item, "type") == Str("message") && Get(item, "role") == Str(role)
                && Get(item, "content") == Arr(parts)
  {
  }

  lemma {:induction false} TextReads(m: Message, text: JsonText)
    requires m.role in {"user", "assistant"}
    ensures Reads(MessageJson(m.role, Parts(m.role, m.content)), Message(m.role, TextsBack(m.content)), text)
  {
    hide Parts, TextsBack;
    var parts := Parts(m.role, m.content);
    MessageFields(m.role, parts);
    assert KindOf(MessageJson(m.role, parts)) == MessageItem;
    forall index: nat
      ensures DecodeItem(MessageJson(m.role, parts), index, text) == Read([Message(m.role, TextsBack(m.content))], [])
    {
      PartsRead(m.role, m.content, INPUT + [At(index)] + [Key("content")]);
      hide MessageJson, Get, KindOf;
    }
  }

  lemma {:induction false} ToolsRead(role: string, contents: seq<Content>, text: JsonText)
    requires forall c :: c in contents ==>
             ContentFits(role, c) && (c.kind.ToolCallType? ==> Survives(c.arguments, text))
    ensures |ToolItems(contents, text)| == |ToolsBack(contents)|
    ensures forall i :: 0 <= i < |ToolsBack(contents)| ==>
            Reads(ToolItems(contents, text)[i], ToolsBack(contents)[i], text)
  {
    hide CallJson, OutputJson, Reads, Survives;
    if contents != [] {
      var n := |contents| - 1;
      assert contents[n] in contents && forall c :: c in contents[..n] ==> c in contents;
      ToolsRead(role, contents[..n], text);
      if contents[n].kind.ToolCallType? {
        CallReads(contents[n], text);
      }
      OutputReads(contents[n], text);
    }
  }

  lemma {:induction false} MessageReads(m: Message, text: JsonText)
    requires MessageFits(m) && ArgumentsSurvive([m], text) && !IsSystem(m.role)
    ensures |EncodeMessage(m, text)| == |MessageBack(m)|
    ensures forall i :: 0 <= i < |MessageBack(m)| ==> Reads(EncodeMessage(m, text)[i], MessageBack(m)[i], text)
  {
    hide Reads, MessageJson, ToolItems, Parts, ToolsBack, TextsBack, Survives, ContentFits;
    assert m in [m];
    ToolsRead(m.role, m.content, text);
    PartsRead(m.role, m.content, []);
    TextReads(m, text);
  }

  lemma {:induction false} ItemsRead(ms: seq<Message>, text: JsonText)
    requires Sensible(ms) && ArgumentsSurvive(ms, text)
    ensures DecodeItems(EncodeItems(ms, text), text) == Read(AllBack(ms), [])
  {
    hide EncodeMessage, MessageBack, Reads, MessageFits, Survives;
    if ms != [] {
      var n := |ms| - 1;
      assert ms[n] in ms && forall m :: m in ms[..n] ==> m in ms;
      ItemsRead(ms[..n], text);
      if !IsSystem(ms[n].role) {
        MessageReads(ms[n], text);
        DecodeMore(EncodeItems(ms[..n], text), EncodeMessage(ms[n], text), MessageBack(ms[n]), text);
      }
    }
  }

  // ---- Meaning ----------------------------------------------------------------------------

  lemma {:induction false} TraceOneMore(ms: seq<Message>, m: Message, side: string)
    ensures Trace(ms + [m]) == Trace(ms) + TraceOf(m.content)
    ensures RoleText(ms + [m], side) == RoleText(ms, side)
            + (if OnSide(m.role, side) then ContentText(m.content) else "")
  {
    assert (ms + [m])[..|ms|] == ms;
    assert RoleText(ms, side) + "" == RoleText(ms, side);
  }

  lemma {:induction false} ToolsMeaning(contents: seq<Content>, side: string)
    ensures Trace(ToolsBack(contents)) == TraceOf(contents) && RoleText(ToolsBack(contents), side) == ""
  {
    hide OnSide, Trace, RoleText;
    NoContent();
    if contents != [] {
      var n := |contents| - 1;
      var c, before := contents[n], ToolsBack(contents[..n]);
      ToolsMeaning(contents[..n], side);
      var call, output := ToolCallContent(c.id, c.name, c.arguments), ToolResultContent(c.toolCallID, c.text, false);
      TraceOneMore(before, Message("assistant", [call]), side);
      TraceOneMore(before, Message("user", [output]), side);
      OneContent(call);
      OneContent(output);
      TraceOfOneMore(contents);
      hide ContentText, TraceOf;
      assert RoleText(before, side) + "" == "" && TraceOf(contents[..n]) + [] == TraceOf(contents[..n]);
    }
  }

  lemma {:induction false} TraceOfOneMore(contents: seq<Content>)
    requires contents != []
    ensures TraceOf(contents) == TraceOf(contents[..|contents| - 1]) + ToolItemOf(contents[|contents| - 1])
  {
  }

  lemma {:induction false} TextsMeaning(contents: seq<Content>)
    ensures TraceOf(TextsBack(contents)) == [] && ContentText(TextsBack(contents)) == ContentText(contents)
  {
    if contents != [] {
      var n := |contents| - 1;
      TextsMeaning(contents[..n]);
      assert (TextsBack(contents[..n]) + [TextContent(contents[n].text)])[..|TextsBack(contents[..n])|] ==
             TextsBack(contents[..n]);
    }
  }

  lemma {:induction false} MessageMeaning(m: Message, side: string)
    ensures Trace(MessageBack(m)) == TraceOf(m.content)
    ensures RoleText(MessageBack(m), side) == if OnSide(m.role, side) then ContentText(m.content) else ""
  {
    hide ToolsBack, TextsBack, Trace, RoleText, TraceOf, ContentText, OnSide;
    ToolsMeaning(m.content, side);
    TextsMeaning(m.content);
    var tools, texts := ToolsBack(m.content), TextsBack(m.content);
    if texts == [] {
      assert MessageBack(m) == tools;
      NoContent();
    } else {
      TraceOneMore(tools, Message(m.role, texts), side);
      assert TraceOf(m.content) + [] == TraceOf(m.content) && "" + ContentText(m.content) == ContentText(m.content);
    }
  }

  lemma {:induction false} AllMeaning(ms: seq<Message>, side: string)
    requires Sensible(ms) && side in {"user", "assistant", "system"}
    ensures Trace(AllBack(ms)) == Trace(ms)
    ensures RoleText(AllBack(ms), side) == if side == "system" then "" else RoleText(ms, side)
  {
    hide MessageBack, TraceOf, ContentText, ContentFits;
    if ms != [] {
      var n := |ms| - 1;
      var m := ms[n];
      assert MessageFits(m) by { assert m in ms; }
      assert Sensible(ms[..n]) by { assert forall x :: x in ms[..n] ==> x in ms; }
      AllMeaning(ms[..n], side);
      SidesOf(m.role, side);
      if IsSystem(m.role) {
        SystemHasNoTrace(m.role, m.content);
        assert Trace(ms[..n]) + [] == Trace(ms[..n]);
      } else {
        MessageMeaning(m, side);
        TraceConcat(AllBack(ms[..n]), MessageBack(m));
        RoleTextConcat(AllBack(ms[..n]), MessageBack(m), side);
        assert RoleText(ms[..n], side) + "" == RoleText(ms[..n], side);
      }
    }
  }

  lemma {:induction false} EncodedFields(ms: seq<Message>, text: JsonText)
    ensures Get(Encode(ms, text), "input") == if EncodeItems(ms, text) == [] then Null else Arr(EncodeItems(ms, text))
    ensures StringOr(Get(Encode(ms, text), "instructions")) == Join(Instructions(ms), "\n\n")
  {
    hide EncodeItems, Instructions;
  }

  lemma {:induction false} ItemsAppear(role: string, contents: seq<Content>, text: JsonText)
    ensures ToolItems(contents, text) != [] || Parts(role, contents) != [] <==> AnyCarried(contents)
  {
    hide CallJson, OutputJson, PartJson, AnyCarried;
    if contents == [] {
      NothingCarried();
    } else {
      ItemsAppear(role, contents[..|contents| - 1], text);
      AnyCarriedOneMore(contents);
    }
  }

  lemma {:induction false} SomethingPrints(ms: seq<Message>, text: JsonText)
    ensures EncodeItems(ms, text) != [] <==> HasItem(ms)
  {
    hide ToolItems, Parts, AnyCarried, HasItem, MessageJson;
    if ms == [] {
      NothingCarried();
    } else {
      var m := ms[|ms| - 1];
      SomethingPrints(ms[..|ms| - 1], text);
      ItemsAppear(m.role, m.content, text);
      HasItemOneMore(ms);
    }
  }

  /**
   * A sensible request keeps its meaning through a Responses target: the same calls and results in one
   * order, the same text from user and assistant, the instructions joined; and it decodes without a
   * diagnostic exactly when there is a non-system item.
   */
  lemma {:induction false} ResponsesKeepsMeaning(ms: seq<Message>, text: JsonText)
    requires Sensible(ms) && ArgumentsSurvive(ms, text)
    ensures var r := Decode(Encode(ms, text), text);
            && SameMeaning(ms, r.values) && RoleText(r.values, "system") == Join(Instructions(ms), "\n\n")
            && (r.diagnostics == [] <==> HasItem(ms))
  {
    hide EncodeItems, AllBack, Sensible, ArgumentsSurvive, Trace, RoleText, Encode, DecodeItems, HasItem, Join,
         Instructions, TraceOf, ContentText;
    EncodedFields(ms, text);
    ItemsRead(ms, text);
    SomethingPrints(ms, text);
    AllMeaning(ms, "user");
    AllMeaning(ms, "assistant");
    AllMeaning(ms, "system");
    var said := Join(Instructions(ms), "\n\n");
    var first := Message("developer", [TextContent(said)]);
    if EncodeItems(ms, text) == [] {
      NothingDecoded(text);
    }
    if said != "" {
      OneContent(first.content[0]);
      TraceConcat([first], AllBack(ms));
      RoleTextConcat([first], AllBack(ms), "user");
      RoleTextConcat([first], AllBack(ms), "assistant");
      RoleTextConcat([first], AllBack(ms), "system");
      OneMessage(first, "user");
      OneMessage(first, "assistant");
      OneMessage(first, "system");
    } else {
      assert [] + AllBack(ms) == AllBack(ms);
    }
  }

  lemma {:induction false} NothingDecoded(text: JsonText)
    ensures DecodeItems([], text) == Read([], [])
  {
  }

  // ---- Error flags ------------------------------------------------------------------------

  lemma {:induction false} ErrorsOneMore(ms: seq<Message>, c: Content, role: string)
    ensures Errors(ms + [Message(role, [c])]) == Errors(ms) + ErrorOf(c)
  {
    ErrorsConcat(ms, [Message(role, [c])]);
    OneMessageErrors(Message(role, [c]));
    OneError(c);
  }

  lemma {:induction false} ToolsBackErrors(contents: seq<Content>)
    ensures NoErrors(Errors(ToolsBack(contents))) && |Errors(ToolsBack(contents))| == |ErrorsOf(contents)|
  {
    hide Errors;
    if contents == [] {
      assert Errors([]) == [] by { NoErrorsYet(); }
    } else {
      var n := |contents| - 1;
      var c, before := contents[n], ToolsBack(contents[..n]);
      ToolsBackErrors(contents[..n]);
      ErrorsOneMore(before, ToolCallContent(c.id, c.name, c.arguments), "assistant");
      ErrorsOneMore(before, ToolResultContent(c.toolCallID, c.text, false), "user");
    }
  }

  lemma {:induction false} TextsBackErrors(contents: seq<Content>)
    ensures ErrorsOf(TextsBack(contents)) == []
  {
    hide ErrorsOf;
    NoErrorsYet();
    if contents != [] {
      var n := |contents| - 1;
      TextsBackErrors(contents[..n]);
      ErrorsOfConcat(TextsBack(contents[..n]), [TextContent(contents[n].text)]);
      OneError(TextContent(contents[n].text));
    }
  }

  lemma {:induction false} MessageBackErrors(m: Message)
    ensures NoErrors(Errors(MessageBack(m))) && |Errors(MessageBack(m))| == |ErrorsOf(m.content)|
  {
    hide ErrorsOf, Errors, ToolsBack, TextsBack;
    ToolsBackErrors(m.content);
    TextsBackErrors(m.content);
    NoErrorsYet();
    var item := Message(m.role, TextsBack(m.content));
    OneMessageErrors(item);
    ErrorsConcat(ToolsBack(m.content), if TextsBack(m.content) == [] then [] else [item]);
  }

  lemma {:induction false} AllBackErrors(ms: seq<Message>)
    requires Sensible(ms)
    ensures NoErrors(Errors(AllBack(ms))) && |Errors(AllBack(ms))| == |Errors(ms)|
  {
    hide ErrorsOf, MessageBack, MessageFits;
    if ms != [] {
      var n := |ms| - 1;
      var m := ms[n];
      assert m in ms && forall x :: x in ms[..n] ==> x in ms;
      AllBackErrors(ms[..n]);
      if IsSystem(m.role) {
        SystemErrors(m.role, m.content);
      } else {
        MessageBackErrors(m);
        ErrorsConcat(AllBack(ms[..n]), MessageBack(m));
      }
    }
  }

  /**
   * A Responses target drops the error flags: as many results come back, none an error, so the flags only
   * if none was set.
   */
  lemma {:induction false} ResponsesDropsErrors(ms: seq<Message>, text: JsonText)
    requires Sensible(ms) && ArgumentsSurvive(ms, text)
    ensures var back := Errors(Decode(Encode(ms, text), text).values);
            |back| == |Errors(ms)| && NoErrors(back) && (back == Errors(ms) <==> NoErrors(Errors(ms)))
  {
    hide EncodeItems, AllBack, Sensible, ArgumentsSurvive, Encode, DecodeItems, Errors, Instructions, Join;
    EncodedFields(ms, text);
    ItemsRead(ms, text);
    AllBackErrors(ms);
    NothingDecoded(text);
    var said := Join(Instructions(ms), "\n\n");
    var first := Message("developer", [TextContent(said)]);
    ErrorsConcat(if said == "" then [] else [first], AllBack(ms));
    ErrorsOneMore([], TextContent(said), "developer");
    NoErrorsYet();
    assert [] + [first] == [first] && [] + AllBack(ms) == AllBack(ms)
           && [] + Errors(AllBack(ms)) == Errors(AllBack(ms));
  }
}
