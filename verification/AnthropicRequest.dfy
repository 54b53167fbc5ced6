/** Decoding and encoding Anthropic Messages requests (proxy/codec/request.go). */
module AnthropicRequest {
  import opened Canonical
  import opened Json
  import opened RequestTypes
  import opened Texts
  import opened Wrappers

  // ---- Decoding ---------------------------------------------------------------------------

  function Nothing<T>(d: Diagnostic): Read<T> {
    Read([], [d])
  }

  function DecodeTextBlock(item: Json, path: Path): Read<Content> {
    var cached := if Get(item, "cache_control") != Null
                  then [Warning(path + [Key("cache_control")], "prompt cache control is provider-specific")] else [];
    var t := StringValue(Get(item, "text"));
    if t.None? then Read([], cached + [Problem(path + [Key("text")], "must be a string")])
    else Read([TextContent(t.value)], cached)
  }

  function DecodeToolUse(item: Json, path: Path, text: JsonText): Read<Content> {
    var id, name := StringValue(Get(item, "id")), StringValue(Get(item, "name"));
    var arguments := ParseArguments(Get(item, "input"), text);
    if id.None? || name.None? || arguments.None?
      then Nothing(Problem(path, "tool_use requires string id/name and object input"))
    else Read([ToolCallContent(id.value, name.value, arguments.value)], [])
  }

  // anthropicToolResultText: a string, or text blocks concatenated.
  function ResultText(value: Json): Option<string> {
    if value.Str? then Some(value.s) else if value.Arr? then ResultBlocks(value.items) else None
  }

  function ResultBlocks(items: seq<Json>): Option<string> {
    if items == [] then Some("")
    else
      var before, item := ResultBlocks(items[..|items| - 1]), items[|items| - 1];
      if before.None? || !item.Obj? || Get(item, "type") != Str("text") || !Get(item, "text").Str? then None
      else Some(before.value + Get(item, "text").s)
  }

  // A block of plain text, and the texts of some blocks.
  predicate IsTextBlock(item: Json) {
    item.Obj? && Get(item, "type") == Str("text") && Get(item, "text").Str?
  }

  function BlockTexts(items: seq<Json>): (r: seq<string>)
    ensures |r| == |items|
  {
    seq(|items|, i requires 0 <= i < |items| => StringOr(Get(items[i], "text")))
  }

  // A value says a text: it is the text, or text blocks that put together are the text.
  predicate Says(value: Json, said: string) {
    value == Str(said)
    || (value.Arr? && (forall item :: item in value.items ==> IsTextBlock(item))
        && Assembles(BlockTexts(value.items), said))
  }

  lemma {:induction false} AllOneMore(items: seq<Json>, item: Json)
    ensures (forall x :: x in items + [item] ==> IsTextBlock(x)) <==>
            (forall x :: x in items ==> IsTextBlock(x)) && IsTextBlock(item)
  {
    hide IsTextBlock;
    assert item in items + [item] && forall x :: x in items ==> x in items + [item];
  }

  lemma {:induction false} BlocksSay(items: seq<Json>)
    ensures ResultBlocks(items).Some? <==> forall item :: item in items ==> IsTextBlock(item)
    ensures ResultBlocks(items).Some? ==> Assembles(BlockTexts(items), ResultBlocks(items).value)
  {
    hide Get, Assembles;
    if items == [] {
      assert Assembles([], "") by { NothingAssembled(); }
      assert BlockTexts(items) == [];
    } else {
      var n := |items| - 1;
      BlocksSay(items[..n]);
      assert items == items[..n] + [items[n]];
      AllOneMore(items[..n], items[n]);
      assert BlockTexts(items) == BlockTexts(items[..n]) + [StringOr(Get(items[n], "text"))];
      if ResultBlocks(items).Some? {
        AssemblesOneMore(BlockTexts(items[..n]), Get(items[n], "text").s, ResultBlocks(items[..n]).value);
      }
    }
  }

  lemma {:induction false} NothingAssembled()
    ensures Assembles([], "")
  {
  }

  /** A tool result has a text exactly when it is a string or text blocks only, and then it is what they say. */
  lemma {:induction false} ResultTextIsSaid(value: Json)
    ensures ResultText(value).Some? <==>
            value.Str? || (value.Arr? && forall item :: item in value.items ==> IsTextBlock(item))
    ensures ResultText(value).Some? ==> Says(value, ResultText(value).value)
  {
    hide Assembles, IsTextBlock, ResultBlocks;
    if value.Arr? {
      BlocksSay(value.items);
    }
  }

  function DecodeToolResult(item: Json, path: Path): Read<Content> {
    var id, t := StringValue(Get(item, "tool_use_id")), ResultText(Get(item, "content"));
    if id.None? || t.None? then Nothing(Problem(path, "tool_result requires tool_use_id and text content"))
    else Read([ToolResultContent(id.value, t.value, BoolOr(Get(item, "is_error")))], [])
  }

  datatype BlockKind = TextBlock | ToolUseBlock | ToolResultBlock | ThinkingBlock | OtherBlock

  function KindOf(item: Json): BlockKind {
    var name := StringOr(Get(item, "type"));
    if name == "text" then TextBlock
    else if name == "tool_use" then ToolUseBlock
    else if name == "tool_result" then ToolResultBlock
    else if name == "thinking" || name == "redacted_thinking" then ThinkingBlock
    else OtherBlock
  }

  function DecodeBlock(item: Json, path: Path, text: JsonText): Read<Content> {
    if !item.Obj? then Nothing(Problem(path, "must be an object"))
    else
      match KindOf(item)
      case TextBlock => DecodeTextBlock(item, path)
      case ToolUseBlock => DecodeToolUse(item, path, text)
      case ToolResultBlock => DecodeToolResult(item, path)
      case ThinkingBlock => Nothing(Warning(path, "extended-thinking history is not portable"))
      case OtherBlock => Nothing(Problem(path + [Key("type")], "content type is not portable"))
  }

  function DecodeBlocks(items: seq<Json>, path: Path, text: JsonText): Read<Content> {
    if items == [] then Read([], [])
    else
      var n := |items| - 1;
      Both(DecodeBlocks(items[..n], path, text), DecodeBlock(items[n], path + [At(n)], text))
  }

  function DecodeContent(value: Json, path: Path, text: JsonText): Read<Content> {
    if value.Str? then Read([TextContent(value.s)], [])
    else if value.Arr? then DecodeBlocks(value.items, path, text)
    else Nothing(Problem(path, "must be a string or content block array"))
  }

  const MESSAGES: Path := [Key("messages")]

  function DecodeMessage(item: Json, index: nat, text: JsonText): Read<Message> {
    var path := MESSAGES + [At(index)];
    if !item.Obj? then Nothing(Problem(path, "must be an object"))
    else
      var role := StringOr(Get(item, "role"));
      if role != "user" && role != "assistant" then Nothing(Problem(path + [Key("role")], "must be user or assistant"))
      else
        var contents := DecodeContent(Get(item, "content"), path + [Key("content")], text);
        Read([Message(role, contents.values)], contents.diagnostics)
  }

  function DecodeItems(items: seq<Json>, text: JsonText): Read<Message> {
    if items == [] then Read([], [])
    else
      var n := |items| - 1;
      Both(DecodeItems(items[..n], text), DecodeMessage(items[n], n, text))
  }

  function DecodeMessages(value: Json, text: JsonText): Read<Message> {
    if value.Arr? then DecodeItems(value.items, text) else Nothing(Problem(MESSAGES, "must be an array"))
  }

  const SYSTEM: Path := [Key("system")]

  // Each system block's text and diagnostics.
  function DecodeSystemBlock(item: Json, index: nat): Read<string> {
    var path := SYSTEM + [At(index)];
    if !item.Obj? || Get(item, "type") != Str("text") then Nothing(Problem(path, "only text blocks are portable"))
    else
      var part := DecodeTextBlock(item, path);
      Read(if part.values == [] then [] else [part.values[0].text], part.diagnostics)
  }

  function DecodeSystemBlocks(items: seq<Json>): Read<string> {
    if items == [] then Read([], [])
    else
      var n := |items| - 1;
      Both(DecodeSystemBlocks(items[..n]), DecodeSystemBlock(items[n], n))
  }

  function Concat(parts: seq<string>): string {
    if parts == [] then "" else Concat(parts[..|parts| - 1]) + parts[|parts| - 1]
  }

  function SystemMessage(s: string): Message {
    Message("system", [TextContent(s)])
  }

  function DecodeSystem(value: Json): Read<Message> {
    if value == Null then Read([], [])
    else if value.Str? then Read([SystemMessage(value.s)], [])
    else if value.Arr? then
      var parts := DecodeSystemBlocks(value.items);
      Read(if Concat(parts.values) == "" then [] else [SystemMessage(Concat(parts.values))], parts.diagnostics)
    else Nothing(Problem(SYSTEM, "must be a string or text block array"))
  }

  // The blocks that are plain text.
  function TextBlocks(items: seq<Json>): seq<Json> {
    if items == [] then []
    else
      var before, item := TextBlocks(items[..|items| - 1]), items[|items| - 1];
      if IsTextBlock(item) then before + [item] else before
  }

  lemma {:induction false} SystemBlocksSay(items: seq<Json>)
    ensures DecodeSystemBlocks(items).values == BlockTexts(TextBlocks(items))
  {
    if items == [] {
      assert BlockTexts([]) == [];
    } else {
      var n := |items| - 1;
      SystemBlocksSay(items[..n]);
      SystemBlockSays(items[n], n);
      hide DecodeSystemBlock, Get, IsTextBlock;
      var before := TextBlocks(items[..n]);
      assert BlockTexts(before + [items[n]]) == BlockTexts(before) + [StringOr(Get(items[n], "text"))];
      assert BlockTexts(before) + [] == BlockTexts(before);
    }
  }

  lemma {:induction false} SystemBlockSays(item: Json, index: nat)
    ensures DecodeSystemBlock(item, index).values == if IsTextBlock(item) then [Get(item, "text").s] else []
  {
  }

  lemma {:induction false} ConcatAssembles(parts: seq<string>)
    ensures Assembles(parts, Concat(parts))
  {
    hide Assembles;
    if parts == [] {
      NothingAssembled();
    } else {
      var n := |parts| - 1;
      ConcatAssembles(parts[..n]);
      AssemblesOneMore(parts[..n], parts[n], Concat(parts[..n]));
      assert parts == parts[..n] + [parts[n]];
    }
  }

  /** The system text is the string, or the texts of the text blocks put together; without any there is no message. */
  lemma {:induction false} SystemIsSaid(value: Json)
    ensures var r := DecodeSystem(value);
            match value
            case Str(s) => r.values == [Message("system", [TextContent(s)])]
            case Arr(items) =>
              exists said :: Assembles(BlockTexts(TextBlocks(items)), said)
                             && r.values == if said == "" then [] else [Message("system", [TextContent(said)])]
            case _ => r.values == []
  {
    hide Assembles, DecodeSystemBlocks;
    if value.Arr? {
      SystemBlocksSay(value.items);
      ConcatAssembles(DecodeSystemBlocks(value.items).values);
    }
  }

  // The messages of a request; its other fields are decoded beside them.
  function Decode(value: Json, text: JsonText): Read<Message> {
    Both(DecodeSystem(Get(value, "system")), DecodeMessages(Get(value, "messages"), text))
  }

  /** A tool result without an id, or whose content does not say a text, is refused. */
  lemma {:induction false} ResultsAreRefused(item: Json, path: Path)
    ensures var r, content := DecodeToolResult(item, path), Get(item, "content");
            var said := content.Str? || (content.Arr? && forall block :: block in content.items ==> IsTextBlock(block));
            if Get(item, "tool_use_id").Str? && said then r.diagnostics == [] && |r.values| == 1
            else r.values == [] && |r.diagnostics| == 1 && !r.diagnostics[0].warning
  {
    hide ResultText, IsTextBlock, Get;
    ResultTextIsSaid(Get(item, "content"));
  }

  // ---- The decoding loops -----------------------------------------------------------------

  method ReadBlock(item: Json, path: Path, text: JsonText, report: Report) returns (contents: seq<Content>)
    modifies report
    ensures var r := DecodeBlock(item, path, text);
            contents == r.values && report.list == old(report.list) + r.diagnostics
  {
    contents := [];
    if !item.Obj? {
      report.Add(Problem(path, "must be an object"));
      return;
    }
    match KindOf(item) {
      case TextBlock =>
        if Get(item, "cache_control") != Null {
          report.Add(Warning(path + [Key("cache_control")], "prompt cache control is provider-specific"));
        }
        if Get(item, "text").Str? {
          contents := [TextContent(Get(item, "text").s)];
        } else {
          report.Add(Problem(path + [Key("text")], "must be a string"));
        }
      case ToolUseBlock =>
        var id, name := StringValue(Get(item, "id")), StringValue(Get(item, "name"));
        var arguments := ParseArguments(Get(item, "input"), text);
        if id.None? || name.None? || arguments.None? {
          report.Add(Problem(path, "tool_use requires string id/name and object input"));
        } else {
          contents := [ToolCallContent(id.value, name.value, arguments.value)];
        }
      case ToolResultBlock =>
        var t := ReadResultText(Get(item, "content"));
        if !Get(item, "tool_use_id").Str? || t.None? {
          report.Add(Problem(path, "tool_result requires tool_use_id and text content"));
        } else {
          contents := [ToolResultContent(Get(item, "tool_use_id").s, t.value, BoolOr(Get(item, "is_error")))];
        }
      case ThinkingBlock =>
        report.Add(Warning(path, "extended-thinking history is not portable"));
      case OtherBlock =>
        report.Add(Problem(path + [Key("type")], "content type is not portable"));
    }
  }

  method ReadResultText(value: Json) returns (t: Option<string>)
    ensures t == ResultText(value)
    ensures t.Some? <==> value.Str? || (value.Arr? && forall item :: item in value.items ==> IsTextBlock(item))
    ensures t.Some? ==> Says(value, t.value)
  {
    ResultTextIsSaid(value);
    hide Says, IsTextBlock;
    if value.Str? {
      return Some(value.s);
    }
    if !value.Arr? {
      return None;
    }
    var built := "";
    for i := 0 to |value.items|
      invariant ResultBlocks(value.items[..i]) == Some(built)
    {
      assert value.items[..i + 1][..i] == value.items[..i];
      var item := value.items[i];
      if !item.Obj? || Get(item, "type") != Str("text") || !Get(item, "text").Str? {
        NoResult(value.items, i + 1);
        return None;
      }
      built := built + Get(item, "text").s;
    }
    assert value.items[..|value.items|] == value.items;
    return Some(built);
  }

  lemma {:induction false} NoResult(items: seq<Json>, n: nat)
    requires n <= |items| && ResultBlocks(items[..n]).None?
    ensures ResultBlocks(items).None?
    decreases |items|
  {
    if n == |items| {
      assert items[..n] == items;
    } else {
      assert items[..|items| - 1][..n] == items[..n];
      NoResult(items[..|items| - 1], n);
    }
  }

  /** `decodeAnthropicContent`. */
  method ReadContent(value: Json, path: Path, text: JsonText, report: Report) returns (contents: seq<Content>)
    modifies report
    ensures var r := DecodeContent(value, path, text);
            contents == r.values && report.list == old(report.list) + r.diagnostics
  {
    hide DecodeBlock;
    contents := [];
    if value.Str? {
      contents := [TextContent(value.s)];
    } else if !value.Arr? {
      report.Add(Problem(path, "must be a string or content block array"));
    } else {
      ghost var told := report.list;
      for i := 0 to |value.items|
        invariant var r := DecodeBlocks(value.items[..i], path, text);
                  contents == r.values && report.list == told + r.diagnostics
      {
        assert value.items[..i + 1][..i] == value.items[..i];
        var more := ReadBlock(value.items[i], path + [At(i)], text, report);
        contents := contents + more;
      }
      assert value.items[..|value.items|] == value.items;
    }
  }

  /** `decodeAnthropicSystem`. */
  method ReadSystem(value: Json, report: Report) returns (ms: seq<Message>)
    modifies report
    ensures var r := DecodeSystem(value); ms == r.values && report.list == old(report.list) + r.diagnostics
  {
    ms := [];
    if value == Null {
      return;
    }
    if value.Str? {
      return [SystemMessage(value.s)];
    }
    if !value.Arr? {
      report.Add(Problem(SYSTEM, "must be a string or text block array"));
      return;
    }
    var built := ReadSystemBlocks(value.items, report);
    if |built| > 0 {
      ms := [SystemMessage(built)];
    }
  }

  method ReadSystemBlocks(items: seq<Json>, report: Report) returns (built: string)
    modifies report
    ensures var r := DecodeSystemBlocks(items);
            built == Concat(r.values) && report.list == old(report.list) + r.diagnostics
  {
    hide DecodeSystemBlock, Concat, DecodeSystemBlocks;
    built := "";
    NoSystemBlocks();
    for i := 0 to |items|
      invariant var r := DecodeSystemBlocks(items[..i]);
                built == Concat(r.values) && report.list == old(report.list) + r.diagnostics
    {
      SystemBlocksOneMore(items, i);
      var part := ReadSystemBlock(items[i], i, report);
      ConcatOneMore(DecodeSystemBlocks(items[..i]).values, part);
      if part.Some? {
        built := built + part.value;
      }
    }
    assert items[..|items|] == items;
  }

  lemma {:induction false} NoSystemBlocks()
    ensures DecodeSystemBlocks([]) == Read([], []) && Concat([]) == ""
  {
  }

  lemma {:induction false} SystemBlocksOneMore(items: seq<Json>, n: nat)
    requires n < |items|
    ensures DecodeSystemBlocks(items[..n + 1]) == Both(DecodeSystemBlocks(items[..n]), DecodeSystemBlock(items[n], n))
  {
    assert items[..n + 1][..n] == items[..n];
  }

  lemma {:induction false} ConcatOneMore(parts: seq<string>, part: Option<string>)
    ensures Concat(parts + (if part.Some? then [part.value] else [])) == if part.Some? then Concat(parts) + part.value
            else Concat(parts)
  {
    if part.Some? {
      assert (parts + [part.value])[..|parts|] == parts;
    } else {
      assert parts + [] == parts;
    }
  }

  method ReadSystemBlock(item: Json, index: nat, report: Report) returns (part: Option<string>)
    modifies report
    ensures var r := DecodeSystemBlock(item, index);
            && report.list == old(report.list) + r.diagnostics
            && r.values == if part.Some? then [part.value] else []
  {
    hide Get;
    var path := SYSTEM + [At(index)];
    if !item.Obj? || Get(item, "type") != Str("text") {
      report.Add(Problem(path, "only text blocks are portable"));
      return None;
    }
    if Get(item, "cache_control") != Null {
      report.Add(Warning(path + [Key("cache_control")], "prompt cache control is provider-specific"));
    }
    if !Get(item, "text").Str? {
      report.Add(Problem(path + [Key("text")], "must be a string"));
      return None;
    }
    part := Some(Get(item, "text").s);
  }

  method ReadMessage(item: Json, index: nat, text: JsonText, report: Report) returns (ms: seq<Message>)
    modifies report
    ensures var r := DecodeMessage(item, index, text); ms == r.values && report.list == old(report.list) + r.diagnostics
  {
    hide DecodeContent, Get;
    var path := MESSAGES + [At(index)];
    if !item.Obj? {
      report.Add(Problem(path, "must be an object"));
      return [];
    }
    var role := StringOr(Get(item, "role"));
    if role != "user" && role != "assistant" {
      report.Add(Problem(path + [Key("role")], "must be user or assistant"));
      return [];
    }
    var contents := ReadContent(Get(item, "content"), path + [Key("content")], text, report);
    ms := [Message(role, contents)];
  }

  /** The message loop of `decodeAnthropicRequest`. */
  method ReadMessages(value: Json, text: JsonText, report: Report) returns (ms: seq<Message>)
    modifies report
    ensures var r := DecodeMessages(value, text); ms == r.values && report.list == old(report.list) + r.diagnostics
  {
    hide DecodeMessage;
    ms := [];
    if !value.Arr? {
      report.Add(Problem(MESSAGES, "must be an array"));
      return;
    }
    for i := 0 to |value.items|
      invariant var r := DecodeItems(value.items[..i], text);
                ms == r.values && report.list == old(report.list) + r.diagnostics
    {
      assert value.items[..i + 1][..i] == value.items[..i];
      var more := ReadMessage(value.items[i], i, text, report);
      ms := ms + more;
    }
    assert value.items[..|value.items|] == value.items;
  }

  // ---- Encoding ---------------------------------------------------------------------------

  /** An output message under construction. */
  datatype Turn = Turn(role: string, blocks: seq<Json>)

  function TextJson(s: string): Json {
    Obj(map["type" := Str("text"), "text" := Str(s)])
  }

  function ToolUseJson(id: string, name: string, arguments: Arguments): Json {
    Obj(map["type" := Str("tool_use"), "id" := Str(id), "name" := Str(name), "input" := arguments])
  }

  function ToolResultJson(callID: string, s: string, isError: bool): Json {
    var fields: map<string, Json> := map["type" := Str("tool_result"), "tool_use_id" := Str(callID),
                                         "content" := Str(s)];
    Obj(if isError then fields["is_error" := Bool(true)] else fields)
  }

  function EncodeItem(c: Content): seq<Json> {
    match c.kind
    case TextType => [TextJson(c.text)]
    case ToolCallType => [ToolUseJson(c.id, c.name, c.arguments)]
    case ToolResultType => [ToolResultJson(c.toolCallID, c.text, c.isError)]
    case _ => []
  }

  function EncodeItems(contents: seq<Content>): seq<Json> {
    if contents == [] then [] else EncodeItems(contents[..|contents| - 1]) + EncodeItem(contents[|contents| - 1])
  }

  function OutRole(role: string): string {
    if role != "assistant" then "user" else role
  }

  function AppendMessage(out: seq<Turn>, role: string, blocks: seq<Json>): seq<Turn> {
    if blocks == [] then out
    else if |out| > 0 && out[|out| - 1].role == role then
      out[|out| - 1 := Turn(role, out[|out| - 1].blocks + blocks)]
    else out + [Turn(role, blocks)]
  }

  function EncodeTurns(ms: seq<Message>): seq<Turn> {
    if ms == [] then []
    else
      var before, m := EncodeTurns(ms[..|ms| - 1]), ms[|ms| - 1];
      if IsSystem(m.role) then before else AppendMessage(before, OutRole(m.role), EncodeItems(m.content))
  }

  // The texts hoisted out of system and developer messages, one per content.
  function TextList(contents: seq<Content>): seq<string> {
    if contents == [] then []
    else
      var before, c := TextList(contents[..|contents| - 1]), contents[|contents| - 1];
      if c.kind.TextType? then before + [c.text] else before
  }

  function SystemTexts(ms: seq<Message>): seq<string> {
    if ms == [] then []
    else
      var before, m := SystemTexts(ms[..|ms| - 1]), ms[|ms| - 1];
      if IsSystem(m.role) then before + TextList(m.content) else before
  }

  function TurnJson(t: Turn): Json {
    Obj(map["role" := Str(t.role), "content" := Arr(t.blocks)])
  }

  function TurnsJson(out: seq<Turn>): seq<Json> {
    seq(|out|, i requires 0 <= i < |out| => TurnJson(out[i]))
  }

  // The messages and system text of the encoded request; no message at all prints as null.
  function Encode(ms: seq<Message>): Json {
    var out, system := EncodeTurns(ms), SystemTexts(ms);
    var fields: map<string, Json> := map["messages" := if out == [] then Null else Arr(TurnsJson(out))];
    Obj(if system == [] then fields else fields["system" := Str(Join(system, "\n\n"))])
  }

  /** The output list of `encodeAnthropicRequest`, whose last message `appendMessage` grows in place. */
  class Output {
    var turns: seq<Turn>

    constructor ()
      ensures turns == []
    {
      turns := [];
    }

    method Append(role: string, blocks: seq<Json>)
      modifies this
      ensures turns == AppendMessage(old(turns), role, blocks)
    {
      if |blocks| == 0 {
        return;
      }
      if |turns| > 0 && turns[|turns| - 1].role == role {
        var last := turns[|turns| - 1];
        turns := turns[|turns| - 1 := last.(blocks := last.blocks + blocks)];
        return;
      }
      turns := turns + [Turn(role, blocks)];
    }
  }

  function StrayDiagnostics(contents: seq<Content>, index: nat): seq<Diagnostic> {
    if contents == [] then []
    else
      var before := StrayDiagnostics(contents[..|contents| - 1], index);
      if contents[|contents| - 1].kind.TextType? then before
      else before + [Problem(MESSAGES + [At(index)], "system messages may only contain text for Anthropic")]
  }

  function EncodeDiagnostics(ms: seq<Message>): seq<Diagnostic> {
    if ms == [] then []
    else
      var n := |ms| - 1;
      if IsSystem(ms[n].role) then EncodeDiagnostics(ms[..n]) + StrayDiagnostics(ms[n].content, n)
      else EncodeDiagnostics(ms[..n])
  }

  method SystemPart(contents: seq<Content>, index: nat) returns (texts: seq<string>, diagnostics: seq<Diagnostic>)
    ensures texts == TextList(contents) && diagnostics == StrayDiagnostics(contents, index)
  {
    texts, diagnostics := [], [];
    for i := 0 to |contents|
      invariant texts == TextList(contents[..i]) && diagnostics == StrayDiagnostics(contents[..i], index)
    {
      assert contents[..i + 1][..i] == contents[..i];
      if !contents[i].kind.TextType? {
        diagnostics := diagnostics + [Problem(MESSAGES + [At(index)],
                                              "system messages may only contain text for Anthropic")];
        continue;
      }
      texts := texts + [contents[i].text];
    }
    assert contents[..|contents|] == contents;
  }

  /** `encodeAnthropicRequest`, its messages and system text. */
  method WriteRequest(ms: seq<Message>) returns (value: Json, diagnostics: seq<Diagnostic>)
    ensures value == Encode(ms) && diagnostics == EncodeDiagnostics(ms)
  {
    hide EncodeItem, TurnJson, Join, StrayDiagnostics, AppendMessage;
    var output := new Output();
    var system: seq<string> := [];
    diagnostics := [];
    for i := 0 to |ms|
      invariant output.turns == EncodeTurns(ms[..i]) && system == SystemTexts(ms[..i])
      invariant diagnostics == EncodeDiagnostics(ms[..i])
    {
      assert ms[..i + 1][..i] == ms[..i];
      if IsSystem(ms[i].role) {
        var texts, strays := SystemPart(ms[i].content, i);
        system, diagnostics := system + texts, diagnostics + strays;
        continue;
      }
      var role := ms[i].role;
      if role != "assistant" {
        role := "user";
      }
      var blocks := WriteItems(ms[i].content);
      output.Append(role, blocks);
    }
    assert ms[..|ms|] == ms;
    var fields: map<string, Json> := map["messages" := if output.turns == [] then Null
                                         else Arr(TurnsJson(output.turns))];
    if |system| > 0 {
      fields := fields["system" := Str(Join(system, "\n\n"))];
    }
    value := Obj(fields);
  }

  method WriteItems(contents: seq<Content>) returns (blocks: seq<Json>)
    ensures blocks == EncodeItems(contents)
  {
    blocks := [];
    for i := 0 to |contents|
      invariant blocks == EncodeItems(contents[..i])
    {
      assert contents[..i + 1][..i] == contents[..i];
      blocks := blocks + EncodeItem(contents[i]);
    }
    assert contents[..|contents|] == contents;
  }
}
