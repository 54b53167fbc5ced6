/** Decoding and encoding OpenAI Chat requests (proxy/codec/request.go). */
module ChatRequest {
  import opened Canonical
  import opened Json
  import opened RequestTypes
  import opened Wrappers

  const MESSAGES: Path := [Key("messages")]

  // ---- Decoding ---------------------------------------------------------------------------

  function DecodePart(item: Json, path: Path): Read<Content> {
    if !item.Obj? || (Get(item, "type") != Str("text") && Get(item, "type") != Str("input_text"))
    then Read([], [Problem(path, "only text content is portable")])
    else Read(if Get(item, "text").Str? then [TextContent(Get(item, "text").s)] else [], [])
  }

  function DecodeParts(items: seq<Json>, path: Path): Read<Content> {
    if items == [] then Read([], [])
    else
      var n := |items| - 1;
      Both(DecodeParts(items[..n], path), DecodePart(items[n], path + [At(n)]))
  }

  function DecodeText(value: Json, path: Path): Read<Content> {
    match value
    case Null => Read([], [])
    case Str(s) => Read([TextContent(s)], [])
    case Arr(items) => DecodeParts(items, path)
    case _ => Read([], [Problem(path, "must be a string or text part array")])
  }

  function DecodeCall(call: Json, path: Path, text: JsonText): Read<Content> {
    var fn := Get(call, "function");
    var id, name := StringOr(Get(call, "id")), StringOr(Get(fn, "name"));
    var arguments := ParseArguments(Get(fn, "arguments"), text);
    if id == "" || name == "" || arguments.None? then Read([], [Problem(path, "invalid function tool call")])
    else Read([ToolCallContent(id, name, arguments.value)], [])
  }

  function DecodeCalls(calls: seq<Json>, path: Path, text: JsonText): Read<Content> {
    if calls == [] then Read([], [])
    else
      var n := |calls| - 1;
      Both(DecodeCalls(calls[..n], path, text), DecodeCall(calls[n], path + [Key("tool_calls"), At(n)], text))
  }

  function DecodeAssistant(item: Json, path: Path, text: JsonText): Read<Content> {
    var contents, calls := DecodeText(Get(item, "content"), path + [Key("content")]), Get(item, "tool_calls");
    if calls.Arr? then Both(contents, DecodeCalls(calls.items, path, text)) else contents
  }

  function OneOf(role: string, contents: Read<Content>): Read<Message> {
    Read([Message(role, contents.values)], contents.diagnostics)
  }

  function DecodeMessage(item: Json, index: nat, text: JsonText): Read<Message> {
    var path := MESSAGES + [At(index)];
    if !item.Obj? then Read([], [Problem(path, "must be an object")])
    else
      var role := StringOr(Get(item, "role"));
      if role == "system" || role == "developer" || role == "user" then
        OneOf(role, DecodeText(Get(item, "content"), path + [Key("content")]))
      else if role == "assistant" then OneOf(role, DecodeAssistant(item, path, text))
      else if role == "tool" then
        var id := StringOr(Get(item, "tool_call_id"));
        if id == "" then Read([], [Problem(path + [Key("tool_call_id")], "must be a string")])
        else Read([Message("user", [ToolResultContent(id, StringOr(Get(item, "content")), false)])], [])
      else Read([], [Problem(path + [Key("role")], "contains an unsupported role")])
  }

  function DecodeItems(items: seq<Json>, text: JsonText): Read<Message> {
    if items == [] then Read([], [])
    else
      var n := |items| - 1;
      Both(DecodeItems(items[..n], text), DecodeMessage(items[n], n, text))
  }

  // The messages of a request; its other fields are decoded beside them.
  function Decode(value: Json, text: JsonText): Read<Message> {
    var items := Get(value, "messages");
    if items.Arr? then DecodeItems(items.items, text) else Read([], [Problem(MESSAGES, "must be an array")])
  }

  /** `decodeChatTextContent`. */
  method ReadText(value: Json, path: Path, report: Report) returns (contents: seq<Content>)
    modifies report
    ensures var r := DecodeText(value, path); contents == r.values && report.list == old(report.list) + r.diagnostics
  {
    contents := [];
    if value == Null {
      return;
    }
    if value.Str? {
      return [TextContent(value.s)];
    }
    if !value.Arr? {
      report.Add(Problem(path, "must be a string or text part array"));
      return;
    }
    for i := 0 to |value.items|
      invariant var r := DecodeParts(value.items[..i], path);
                contents == r.values && report.list == old(report.list) + r.diagnostics
    {
      assert value.items[..i + 1][..i] == value.items[..i];
      var item := value.items[i];
      if !item.Obj? || (Get(item, "type") != Str("text") && Get(item, "type") != Str("input_text")) {
        report.Add(Problem(path + [At(i)], "only text content is portable"));
        continue;
      }
      if Get(item, "text").Str? {
        contents := contents + [TextContent(Get(item, "text").s)];
      }
    }
    assert value.items[..|value.items|] == value.items;
  }

  method ReadAssistant(item: Json, path: Path, text: JsonText, report: Report) returns (contents: seq<Content>)
    modifies report
    ensures var r := DecodeAssistant(item, path, text);
            contents == r.values && report.list == old(report.list) + r.diagnostics
  {
    hide DecodeText, DecodeCall;
    contents := ReadText(Get(item, "content"), path + [Key("content")], report);
    var calls := Get(item, "tool_calls");
    if calls.Arr? {
      ghost var read, told := contents, report.list;
      for i := 0 to |calls.items|
        invariant var r := DecodeCalls(calls.items[..i], path, text);
                  contents == read + r.values && report.list == told + r.diagnostics
      {
        assert calls.items[..i + 1][..i] == calls.items[..i];
        var more := ReadCall(calls.items[i], path + [Key("tool_calls"), At(i)], text, report);
        contents := contents + more;
      }
      assert calls.items[..|calls.items|] == calls.items;
    }
  }

  method ReadCall(call: Json, path: Path, text: JsonText, report: Report) returns (contents: seq<Content>)
    modifies report
    ensures var r := DecodeCall(call, path, text);
            contents == r.values && report.list == old(report.list) + r.diagnostics
  {
    var fn := Get(call, "function");
    var id, name := StringOr(Get(call, "id")), StringOr(Get(fn, "name"));
    var arguments := ParseArguments(Get(fn, "arguments"), text);
    if id == "" || name == "" || arguments.None? {
      report.Add(Problem(path, "invalid function tool call"));
      return [];
    }
    contents := [ToolCallContent(id, name, arguments.value)];
  }

  /** The message loop of `decodeChatRequest`. */
  method ReadMessages(value: Json, text: JsonText, report: Report) returns (ms: seq<Message>)
    modifies report
    ensures var r := Decode(value, text); ms == r.values && report.list == old(report.list) + r.diagnostics
  {
    hide DecodeMessage;
    ms := [];
    var items := Get(value, "messages");
    if !items.Arr? {
      report.Add(Problem(MESSAGES, "must be an array"));
      return;
    }
    for i := 0 to |items.items|
      invariant var r := DecodeItems(items.items[..i], text);
                ms == r.values && report.list == old(report.list) + r.diagnostics
    {
      assert items.items[..i + 1][..i] == items.items[..i];
      var more := ReadMessage(items.items[i], i, text, report);
      ms := ms + more;
    }
    assert items.items[..|items.items|] == items.items;
  }

  method ReadMessage(item: Json, index: nat, text: JsonText, report: Report) returns (ms: seq<Message>)
    modifies report
    ensures var r := DecodeMessage(item, index, text); ms == r.values && report.list == old(report.list) + r.diagnostics
  {
    hide DecodeText, DecodeAssistant, Get;
    var path := MESSAGES + [At(index)];
    if !item.Obj? {
      report.Add(Problem(path, "must be an object"));
      return [];
    }
    var role := StringOr(Get(item, "role"));
    if role == "system" || role == "developer" || role == "user" {
      var contents := ReadText(Get(item, "content"), path + [Key("content")], report);
      ms := [Message(role, contents)];
    } else if role == "assistant" {
      var contents := ReadAssistant(item, path, text, report);
      ms := [Message(role, contents)];
    } else if role == "tool" {
      var id := StringOr(Get(item, "tool_call_id"));
      if id == "" {
        report.Add(Problem(path + [Key("tool_call_id")], "must be a string"));
        return [];
      }
      ms := [Message("user", [ToolResultContent(id, StringOr(Get(item, "content")), false)])];
    } else {
      report.Add(Problem(path + [Key("role")], "contains an unsupported role"));
      ms := [];
    }
  }

  // ---- Encoding ---------------------------------------------------------------------------

  function CallJson(c: Content, text: JsonText): Json {
    Obj(map["id" := Str(c.id), "type" := Str("function"),
            "function" := Obj(map["name" := Str(c.name), "arguments" := Str(text.marshal(c.arguments))])])
  }

  function ResultJson(c: Content): Json {
    Obj(map["role" := Str("tool"), "tool_call_id" := Str(c.toolCallID), "content" := Str(c.text)])
  }

  // The tool messages printed for a message's results, and the entries of its tool_calls.
  function ResultItems(contents: seq<Content>): seq<Json> {
    if contents == [] then []
    else
      var before, c := ResultItems(contents[..|contents| - 1]), contents[|contents| - 1];
      if c.kind.ToolResultType? then before + [ResultJson(c)] else before
  }

  function CallItems(contents: seq<Content>, text: JsonText): seq<Json> {
    if contents == [] then []
    else
      var before, c := CallItems(contents[..|contents| - 1], text), contents[|contents| - 1];
      if c.kind.ToolCallType? then before + [CallJson(c, text)] else before
  }

  function PrintedRole(role: string): string {
    if role == "developer" then "system" else role
  }

  function ItemJson(role: string, said: string, calls: seq<Json>): Json {
    var fields: map<string, Json> := map["role" := Str(PrintedRole(role)), "content" := Str(said)];
    if calls == [] then Obj(fields)
    else
      var called := fields["tool_calls" := Arr(calls)];
      Obj(if said == "" then called["content" := Null] else called)
  }

  // A message with text, with calls or with nothing at all prints as an item of its own.
  predicate HasItem(m: Message, text: JsonText) {
    ContentText(m.content) != "" || CallItems(m.content, text) != [] || m.content == []
  }

  function EncodeMessage(m: Message, text: JsonText): seq<Json> {
    ResultItems(m.content) +
    (if HasItem(m, text) then [ItemJson(m.role, ContentText(m.content), CallItems(m.content, text))] else [])
  }

  function EncodeItems(ms: seq<Message>, text: JsonText): seq<Json> {
    if ms == [] then [] else EncodeItems(ms[..|ms| - 1], text) + EncodeMessage(ms[|ms| - 1], text)
  }

  // The messages field of the encoded request; a nil list prints as null.
  function Encode(ms: seq<Message>, text: JsonText): Json {
    Obj(map["messages" := if EncodeItems(ms, text) == [] then Null else Arr(EncodeItems(ms, text))])
  }

  /** `encodeChatRequest`, its messages. */
  method WriteRequest(ms: seq<Message>, text: JsonText) returns (value: Json)
    ensures value == Encode(ms, text)
  {
    hide CallItems, ResultItems, ContentText, ItemJson;
    var messages: seq<Json> := [];
    for i := 0 to |ms|
      invariant messages == EncodeItems(ms[..i], text)
    {
      assert ms[..i + 1][..i] == ms[..i];
      var results, said, calls := WriteContents(ms[i].content, text);
      messages := messages + results;
      if |said| > 0 || |calls| > 0 || |ms[i].content| == 0 {
        messages := messages + [ItemJson(ms[i].role, said, calls)];
      }
    }
    assert ms[..|ms|] == ms;
    value := Obj(map["messages" := if messages == [] then Null else Arr(messages)]);
  }

  method WriteContents(contents: seq<Content>, text: JsonText)
    returns (results: seq<Json>, said: string, calls: seq<Json>)
    ensures results == ResultItems(contents) && said == ContentText(contents) && calls == CallItems(contents, text)
  {
    hide CallJson, ResultJson;
    results, said, calls := [], "", [];
    for i := 0 to |contents|
      invariant results == ResultItems(contents[..i]) && said == ContentText(contents[..i])
      invariant calls == CallItems(contents[..i], text)
    {
      assert contents[..i + 1][..i] == contents[..i];
      var c := contents[i];
      match c.kind {
        case TextType => said := said + c.text;
        case ToolCallType => calls := calls + [CallJson(c, text)];
        case ToolResultType => results := results + [ResultJson(c)];
        case _ =>
      }
    }
    assert contents[..|contents|] == contents;
  }

  // ---- Decoding what was encoded ----------------------------------------------------------

  // Decoding an item gives one message and no diagnostic, wherever it stands.
  ghost predicate Reads(item: Json, m: Message, text: JsonText) {
    forall index: nat :: DecodeMessage(item, index, text) == Read([m], [])
  }

  lemma {:induction false} DecodeMore(before: seq<Json>, items: seq<Json>, back: seq<Message>, text: JsonText)
    requires |items| == |back| && forall i :: 0 <= i < |items| ==> Reads(items[i], back[i], text)
    ensures DecodeItems(before + items, text) == Both(DecodeItems(before, text), Read(back, []))
  {
    hide DecodeMessage;
    if items == [] {
      assert before + items == before;
    } else {
      var n := |items| - 1;
      DecodeMore(before, items[..n], back[..n], text);
      assert (before + items)[..|before| + n] == before + items[..n];
      assert Reads(items[n], back[n], text);
      assert back == back[..n] + [back[n]];
      assert DecodeItems(before, text).diagnostics + [] == DecodeItems(before, text).diagnostics;
    }
  }

  // The tool messages read back, one user message per result.
  function ResultsBack(contents: seq<Content>): seq<Message> {
    if contents == [] then []
    else
      var before, c := ResultsBack(contents[..|contents| - 1]), contents[|contents| - 1];
      if c.kind.ToolResultType? then before + [Message("user", [ToolResultContent(c.toolCallID, c.text, false)])]
      else before
  }

  function CallsBack(contents: seq<Content>): seq<Content> {
    if contents == [] then []
    else
      var before, c := CallsBack(contents[..|contents| - 1]), contents[|contents| - 1];
      if c.kind.ToolCallType? then before + [ToolCallContent(c.id, c.name, c.arguments)] else before
  }

  // The text read back from an item: null content when there are calls and no text.
  function SaidBack(said: string, calls: seq<Content>): seq<Content> {
    if said == "" && calls != [] then [] else [TextContent(said)]
  }

  function MessageBack(m: Message, text: JsonText): seq<Message> {
    var said, calls := ContentText(m.content), CallsBack(m.content);
    ResultsBack(m.content) + (if HasItem(m, text) then [Message(PrintedRole(m.role), SaidBack(said, calls) + calls)]
                              else [])
  }

  function AllBack(ms: seq<Message>, text: JsonText): seq<Message> {
    if ms == [] then [] else AllBack(ms[..|ms| - 1], text) + MessageBack(ms[|ms| - 1], text)
  }

  lemma {:induction false} ResultReads(c: Content, text: JsonText)
    requires c.toolCallID != ""
    ensures Reads(ResultJson(c), Message("user", [ToolResultContent(c.toolCallID, c.text, false)]), text)
  {
    var item := ResultJson(c);
    assert Get(item, "role") == Str("tool") && Get(item, "tool_call_id") == Str(c.toolCallID)
           && Get(item, "content") == Str(c.text);
  }

  lemma {:induction false} ResultsRead(contents: seq<Content>, text: JsonText)
    requires forall c :: c in contents && c.kind.ToolResultType? ==> c.toolCallID != ""
    ensures |ResultItems(contents)| == |ResultsBack(contents)|
    ensures forall i :: 0 <= i < |ResultItems(contents)| ==>
            Reads(ResultItems(contents)[i], ResultsBack(contents)[i], text)
  {
    hide ResultJson, Reads;
    if contents != [] {
      var n := |contents| - 1;
      assert contents[n] in contents && forall c :: c in contents[..n] ==> c in contents;
      ResultsRead(contents[..n], text);
      if contents[n].kind.ToolResultType? {
        ResultReads(contents[n], text);
      }
    }
  }

  lemma {:induction false} CallFields(c: Content, text: JsonText)
    ensures var call := CallJson(c, text);
            && Get(call, "id") == Str(c.id) && Get(Get(call, "function"), "name") == Str(c.name)
            && Get(Get(call, "function"), "arguments") == Str(text.marshal(c.arguments))
  {
  }

  lemma {:induction false} CallReads(c: Content, path: Path, text: JsonText)
    requires c.id != "" && c.name != "" && Survives(c.arguments, text)
    ensures DecodeCall(CallJson(c, text), path, text) == Read([ToolCallContent(c.id, c.name, c.arguments)], [])
  {
    CallFields(c, text);
    ArgumentsAreSpelled(Str(text.marshal(c.arguments)), c.arguments, text);
    hide CallJson, Get, ParseArguments;
  }

  ghost predicate CallsFit(contents: seq<Content>, text: JsonText) {
    forall c :: c in contents && c.kind.ToolCallType? ==> c.id != "" && c.name != "" && Survives(c.arguments, text)
  }

  lemma {:induction false} CallsRead(contents: seq<Content>, path: Path, text: JsonText)
    requires CallsFit(contents, text)
    ensures DecodeCalls(CallItems(contents, text), path, text) == Read(CallsBack(contents), [])
    ensures CallItems(contents, text) == [] <==> CallsBack(contents) == []
  {
    hide CallJson, DecodeCall, Survives;
    if contents != [] {
      var n := |contents| - 1;
      assert contents[n] in contents && forall c :: c in contents[..n] ==> c in contents;
      CallsRead(contents[..n], path, text);
      var items := CallItems(contents[..n], text);
      if contents[n].kind.ToolCallType? {
        CallReads(contents[n], path + [Key("tool_calls"), At(|items|)], text);
        assert CallItems(contents, text)[..|items|] == items;
      }
    }
  }

  lemma {:induction false} ItemFields(role: string, said: string, calls: seq<Json>)
    ensures var item := ItemJson(role, said, calls);
            && item.Obj? && Get(item, "role") == Str(PrintedRole(role))
            && Get(item, "content") == (if said == "" && calls != [] then Null else Str(said))
            && Get(item, "tool_calls") == if calls == [] then Null else Arr(calls)
  {
  }

  lemma {:induction false} ItemReads(m: Message, text: JsonText)
    requires MessageFits(m) && CallsFit(m.content, text)
    ensures var said, calls := ContentText(m.content), CallsBack(m.content);
            Reads(ItemJson(m.role, said, CallItems(m.content, text)),
                  Message(PrintedRole(m.role), SaidBack(said, calls) + calls), text)
  {
    hide CallsFit, ContentText;
    var said, calls, printed := ContentText(m.content), CallsBack(m.content), CallItems(m.content, text);
    ItemFields(m.role, said, printed);
    CallsRead(m.content, [], text);
    NoCallsUnlessAssistant(m);
    forall index: nat
      ensures DecodeMessage(ItemJson(m.role, said, printed), index, text) ==
              Read([Message(PrintedRole(m.role), SaidBack(said, calls) + calls)], [])
    {
      CallsRead(m.content, MESSAGES + [At(index)], text);
      hide ItemJson, Get, CallItems, CallsBack, DecodeCalls;
      if calls == [] {
        assert SaidBack(said, calls) + calls == SaidBack(said, calls);
      }
    }
  }

  lemma {:induction false} NoCallsUnlessAssistant(m: Message)
    requires MessageFits(m)
    ensures m.role != "assistant" ==> CallsBack(m.content) == []
    ensures m.role != "user" ==> ResultsBack(m.content) == []
    decreases |m.content|
  {
    if m.content != [] {
      var n := |m.content| - 1;
      assert m.content[n] in m.content && forall c :: c in m.content[..n] ==> c in m.content;
      NoCallsUnlessAssistant(Message(m.role, m.content[..n]));
    }
  }

  lemma {:induction false} MessageReads(m: Message, text: JsonText)
    requires MessageFits(m) && CallsFit(m.content, text)
    ensures |EncodeMessage(m, text)| == |MessageBack(m, text)|
    ensures forall i :: 0 <= i < |EncodeMessage(m, text)| ==>
            Reads(EncodeMessage(m, text)[i], MessageBack(m, text)[i], text)
  {
    hide Reads, ItemJson, CallItems, CallsBack, ContentText, SaidBack, PrintedRole;
    ResultsRead(m.content, text);
    ItemReads(m, text);
  }

  lemma {:induction false} ItemsRead(ms: seq<Message>, text: JsonText)
    requires Sensible(ms) && ArgumentsSurvive(ms, text)
    ensures DecodeItems(EncodeItems(ms, text), text) == Read(AllBack(ms, text), [])
  {
    hide EncodeMessage, MessageBack, Reads, MessageFits, Survives;
    if ms != [] {
      var n := |ms| - 1;
      assert ms[n] in ms && forall m :: m in ms[..n] ==> m in ms;
      ItemsRead(ms[..n], text);
      FitCalls(ms[n], text);
      MessageReads(ms[n], text);
      DecodeMore(EncodeItems(ms[..n], text), EncodeMessage(ms[n], text), MessageBack(ms[n], text), text);
    }
  }

  lemma {:induction false} FitCalls(m: Message, text: JsonText)
    requires MessageFits(m) && ArgumentsSurvive([m], text)
    ensures CallsFit(m.content, text)
  {
    hide Survives;
    assert m in [m];
  }

  // ---- Meaning ----------------------------------------------------------------------------

  lemma {:induction false} ResultsMeaning(contents: seq<Content>, side: string)
    ensures RoleText(ResultsBack(contents), side) == ""
    ensures Trace(ResultsBack(contents)) == Returns(contents)
  {
    if contents != [] {
      var n := |contents| - 1;
      ResultsMeaning(contents[..n], side);
      var c := contents[n];
      if c.kind.ToolResultType? {
        var r := Message("user", [ToolResultContent(c.toolCallID, c.text, false)]);
        OneContent(r.content[0]);
        assert (ResultsBack(contents[..n]) + [r])[..|ResultsBack(contents[..n])|] == ResultsBack(contents[..n]);
      }
    }
  }

  // The results alone, and the calls alone.
  function Returns(contents: seq<Content>): seq<ToolItem> {
    if contents == [] then []
    else
      var before, c := Returns(contents[..|contents| - 1]), contents[|contents| - 1];
      if c.kind.ToolResultType? then before + [Returned(c.toolCallID, c.text)] else before
  }

  lemma {:induction false} CallsMeaning(contents: seq<Content>)
    ensures ContentText(CallsBack(contents)) == ""
    ensures (forall c :: c in contents ==> !c.kind.ToolResultType?) ==>
            TraceOf(CallsBack(contents)) == TraceOf(contents)
    ensures (forall c :: c in contents ==> !c.kind.ToolCallType?) ==> Returns(contents) == TraceOf(contents)
  {
    if contents != [] {
      var n := |contents| - 1;
      var c := contents[n];
      assert c in contents && forall x :: x in contents[..n] ==> x in contents;
      CallsMeaning(contents[..n]);
      if c.kind.ToolCallType? {
        var k := ToolCallContent(c.id, c.name, c.arguments);
        assert (CallsBack(contents[..n]) + [k])[..|CallsBack(contents[..n])|] == CallsBack(contents[..n]);
      }
    }
  }

  // The item read back says and calls what the message did.
  lemma {:induction false} ItemMeaning(m: Message, side: string)
    requires side in {"system", "user", "assistant"} && m.role in {"system", "developer", "user", "assistant"}
    ensures var said, calls := ContentText(m.content), CallsBack(m.content);
            var item := Message(PrintedRole(m.role), SaidBack(said, calls) + calls);
            && Trace([item]) == TraceOf(calls)
            && RoleText([item], side) == if OnSide(m.role, side) then said else ""
  {
    hide ContentText, CallsBack, TraceOf;
    var said, calls := ContentText(m.content), CallsBack(m.content);
    var item := Message(PrintedRole(m.role), SaidBack(said, calls) + calls);
    OneMessage(item, side);
    TraceOfConcat(SaidBack(said, calls), calls);
    ContentTextConcat(SaidBack(said, calls), calls);
    OneContent(TextContent(said));
    NoContent();
    CallsMeaning(m.content);
    assert said + "" == said && [] + TraceOf(calls) == TraceOf(calls);
  }

  lemma {:induction false} MessageMeaning(m: Message, side: string, text: JsonText)
    requires MessageFits(m) && CallsFit(m.content, text) && side in {"system", "user", "assistant"}
    ensures Trace(MessageBack(m, text)) == TraceOf(m.content)
    ensures RoleText(MessageBack(m, text), side) == if OnSide(m.role, side) then ContentText(m.content) else ""
  {
    hide ContentText, CallsBack, CallItems, ResultsBack, TraceOf, Trace, RoleText, Returns, SaidBack, CallsFit, OnSide;
    var said, calls, results := ContentText(m.content), CallsBack(m.content), ResultsBack(m.content);
    CallsRead(m.content, [], text);
    CallsMeaning(m.content);
    ResultsMeaning(m.content, side);
    NoCallsUnlessAssistant(m);
    NoContent();
    ItemMeaning(m, side);
    var item := Message(PrintedRole(m.role), SaidBack(said, calls) + calls);
    TraceConcat(results, [item]);
    RoleTextConcat(results, [item], side);
    if HasItem(m, text) {
      assert MessageBack(m, text) == results + [item];
      assert "" + RoleText([item], side) == RoleText([item], side);
      assert [] + TraceOf(calls) == TraceOf(calls) && Returns(m.content) + [] == Returns(m.content);
    } else {
      assert MessageBack(m, text) == results;
    }
  }

  lemma {:induction false} AllMeaning(ms: seq<Message>, side: string, text: JsonText)
    requires Sensible(ms) && ArgumentsSurvive(ms, text) && side in {"system", "user", "assistant"}
    ensures Trace(AllBack(ms, text)) == Trace(ms) && RoleText(AllBack(ms, text), side) == RoleText(ms, side)
  {
    hide MessageBack, MessageFits, Survives, TraceOf, ContentText;
    if ms != [] {
      var n := |ms| - 1;
      assert ms[n] in ms && forall m :: m in ms[..n] ==> m in ms;
      AllMeaning(ms[..n], side, text);
      FitCalls(ms[n], text);
      MessageMeaning(ms[n], side, text);
      TraceConcat(AllBack(ms[..n], text), MessageBack(ms[n], text));
      RoleTextConcat(AllBack(ms[..n], text), MessageBack(ms[n], text), side);
      assert RoleText(ms[..n], side) + "" == RoleText(ms[..n], side);
    }
  }

  lemma {:induction false} EncodedMessages(ms: seq<Message>, text: JsonText)
    ensures Get(Encode(ms, text), "messages") == if EncodeItems(ms, text) == [] then Null
            else Arr(EncodeItems(ms, text))
  {
    hide EncodeItems;
  }

  // A message prints when it is empty, has text, or holds a call or a result.
  predicate Prints(m: Message) {
    || m.content == []
    || ContentText(m.content) != ""
    || exists c :: c in m.content && (c.kind.ToolCallType? || c.kind.ToolResultType?)
  }

  lemma {:induction false} ItemsAppear(contents: seq<Content>, text: JsonText)
    ensures ResultItems(contents) != [] <==> exists c :: c in contents && c.kind.ToolResultType?
    ensures CallItems(contents, text) != [] <==> exists c :: c in contents && c.kind.ToolCallType?
  {
    if contents != [] {
      var n := |contents| - 1;
      ItemsAppear(contents[..n], text);
      assert contents == contents[..n] + [contents[n]];
    }
  }

  lemma {:induction false} SomethingPrints(ms: seq<Message>, text: JsonText)
    ensures EncodeItems(ms, text) != [] <==> exists m :: m in ms && Prints(m)
  {
    hide ContentText, CallItems, ResultItems;
    if ms != [] {
      var n := |ms| - 1;
      SomethingPrints(ms[..n], text);
      ItemsAppear(ms[n].content, text);
      assert EncodeMessage(ms[n], text) != [] <==> Prints(ms[n]);
      assert ms == ms[..n] + [ms[n]];
    }
  }

  /**
   * A sensible request keeps its meaning through a Chat target: the same calls and results in one order,
   * the same text from system, user and assistant; and it decodes without a diagnostic exactly when
   * some message prints.
   */
  lemma {:induction false} ChatKeepsMeaning(ms: seq<Message>, text: JsonText)
    requires Sensible(ms) && ArgumentsSurvive(ms, text)
    ensures var r := Decode(Encode(ms, text), text);
            && SameMeaning(ms, r.values) && RoleText(ms, "system") == RoleText(r.values, "system")
            && (r.diagnostics == [] <==> exists m :: m in ms && Prints(m))
  {
    hide EncodeItems, AllBack, Sensible, ArgumentsSurvive, Trace, RoleText, Encode, DecodeItems, Prints;
    EncodedMessages(ms, text);
    ItemsRead(ms, text);
    SomethingPrints(ms, text);
    AllMeaning(ms, "system", text);
    AllMeaning(ms, "user", text);
    AllMeaning(ms, "assistant", text);
    if EncodeItems(ms, text) == [] {
      NothingDecoded(text);
    }
  }

  lemma {:induction false} NothingDecoded(text: JsonText)
    ensures DecodeItems([], text) == Read([], [])
  {
  }

  // ---- Error flags ------------------------------------------------------------------------

  lemma {:induction false} ResultsBackErrors(contents: seq<Content>)
    ensures NoErrors(Errors(ResultsBack(contents))) && |Errors(ResultsBack(contents))| == |ErrorsOf(contents)|
  {
    hide Errors;
    if contents == [] {
      NoErrorsYet();
    } else {
      var n := |contents| - 1;
      var c, before := contents[n], ResultsBack(contents[..n]);
      ResultsBackErrors(contents[..n]);
      if c.kind.ToolResultType? {
        var r := ToolResultContent(c.toolCallID, c.text, false);
        ErrorsConcat(before, [Message("user", [r])]);
        OneMessageErrors(Message("user", [r]));
        OneError(r);
      }
    }
  }

  lemma {:induction false} ItemErrors(m: Message)
    requires forall c :: c in m.content ==> !c.kind.ToolResultType?
    ensures Errors([m]) == []
  {
    OneMessageErrors(m);
    NoResultErrors(m.content);
  }

  lemma {:induction false} NoResultErrors(contents: seq<Content>)
    requires forall c :: c in contents ==> !c.kind.ToolResultType?
    ensures ErrorsOf(contents) == []
  {
    if contents != [] {
      assert contents[|contents| - 1] in contents && forall c :: c in contents[..|contents| - 1] ==> c in contents;
      NoResultErrors(contents[..|contents| - 1]);
    }
  }

  lemma {:induction false} CallsAreCalls(contents: seq<Content>)
    ensures forall c :: c in CallsBack(contents) ==> c.kind.ToolCallType?
  {
    if contents != [] {
      CallsAreCalls(contents[..|contents| - 1]);
    }
  }

  lemma {:induction false} MessageBackErrors(m: Message, text: JsonText)
    ensures NoErrors(Errors(MessageBack(m, text))) && |Errors(MessageBack(m, text))| == |ErrorsOf(m.content)|
  {
    hide ErrorsOf, Errors, ContentText, CallsBack, CallItems, ResultsBack, HasItem;
    ResultsBackErrors(m.content);
    CallsAreCalls(m.content);
    var item := Message(PrintedRole(m.role),
                        SaidBack(ContentText(m.content), CallsBack(m.content)) + CallsBack(m.content));
    ItemErrors(item);
    NoErrorsYet();
    ErrorsConcat(ResultsBack(m.content), if HasItem(m, text) then [item] else []);
  }

  lemma {:induction false} AllBackErrors(ms: seq<Message>, text: JsonText)
    ensures NoErrors(Errors(AllBack(ms, text))) && |Errors(AllBack(ms, text))| == |Errors(ms)|
  {
    hide ErrorsOf, MessageBack;
    if ms != [] {
      var n := |ms| - 1;
      AllBackErrors(ms[..n], text);
      MessageBackErrors(ms[n], text);
      ErrorsConcat(AllBack(ms[..n], text), MessageBack(ms[n], text));
    }
  }

  /**
   * A Chat target drops the error flags: as many results come back, none an error, so the flags only if
   * none was set.
   */
  lemma {:induction false} ChatDropsErrors(ms: seq<Message>, text: JsonText)
    requires Sensible(ms) && ArgumentsSurvive(ms, text)
    ensures var back := Errors(Decode(Encode(ms, text), text).values);
            |back| == |Errors(ms)| && NoErrors(back) && (back == Errors(ms) <==> NoErrors(Errors(ms)))
  {
    hide EncodeItems, AllBack, Sensible, ArgumentsSurvive, Encode, DecodeItems, Errors;
    EncodedMessages(ms, text);
    ItemsRead(ms, text);
    AllBackErrors(ms, text);
    NothingDecoded(text);
  }

  // ---- What the decoder accepts -----------------------------------------------------------

  lemma {:induction false} PartsAreText(items: seq<Json>, path: Path)
    ensures forall c :: c in DecodeParts(items, path).values ==> c.kind.TextType?
  {
    if items != [] {
      PartsAreText(items[..|items| - 1], path);
    }
  }

  lemma {:induction false} TextIsText(value: Json, path: Path)
    ensures forall c :: c in DecodeText(value, path).values ==> c.kind.TextType?
  {
    if value.Arr? {
      PartsAreText(value.items, path);
    }
  }

  lemma {:induction false} CallsAreNamed(calls: seq<Json>, path: Path, text: JsonText)
    ensures forall c :: c in DecodeCalls(calls, path, text).values ==>
            c.kind.ToolCallType? && c.id != "" && c.name != ""
  {
    hide Get;
    if calls != [] {
      CallsAreNamed(calls[..|calls| - 1], path, text);
    }
  }

  lemma {:induction false} MessageIsSensible(item: Json, index: nat, text: JsonText)
    ensures Sensible(DecodeMessage(item, index, text).values)
  {
    hide DecodeText, DecodeCalls, Get;
    var path := MESSAGES + [At(index)];
    TextIsText(Get(item, "content"), path + [Key("content")]);
    var calls := Get(item, "tool_calls");
    if calls.Arr? {
      CallsAreNamed(calls.items, path, text);
    }
  }

  /** Whatever a Chat client sends, the request it decodes to is sensible. */
  lemma {:induction false} DecodedIsSensible(value: Json, text: JsonText)
    ensures Sensible(Decode(value, text).values)
  {
    hide DecodeItems, MessageFits;
    var items := Get(value, "messages");
    if items.Arr? {
      ItemsAreSensible(items.items, text);
    }
  }

  lemma {:induction false} ItemsAreSensible(items: seq<Json>, text: JsonText)
    ensures Sensible(DecodeItems(items, text).values)
  {
    hide DecodeMessage, MessageFits;
    if items != [] {
      var n := |items| - 1;
      ItemsAreSensible(items[..n], text);
      MessageIsSensible(items[n], n, text);
    }
  }
}
