/** What a request loses in a translation that succeeds without a word (proxy/codec/request.go). */
module RequestLosses {
  import opened Canonical
  import opened Json
  import opened RequestTypes
  import opened Requests
  import opened Wrappers
  import AnthropicRequest
  import AnthropicRequestRoundTrip
  import ChatRequest
  import ResponsesRequest
  import Texts

  // ---- A Chat source ----------------------------------------------------------------------

  // What the content of a message says: a string, or one text per part; null says nothing.
  predicate TextsRepresent(value: Json, contents: seq<Content>) {
    if value == Null then contents == [] else PartsRepresent(value, contents)
  }

  predicate CallRepresents(call: Json, c: Content, text: JsonText) {
    var fn := Get(call, "function");
    && c.kind.ToolCallType? && c == ToolCallContent(c.id, c.name, c.arguments)
    && Get(call, "id") == Str(c.id) && Get(fn, "name") == Str(c.name)
    && Spells(Get(fn, "arguments"), c.arguments, text)
  }

  predicate CallsRepresent(value: Json, contents: seq<Content>, text: JsonText) {
    if value == Null then contents == []
    else
      value.Arr? && |contents| == |value.items|
      && forall i :: 0 <= i < |contents| ==> CallRepresents(value.items[i], contents[i], text)
  }

  function TextCount(value: Json): nat {
    if value.Arr? then |value.items| else if value == Null then 0 else 1
  }

  // A canonical message says what a chat message says: its texts and then its calls, or its result.
  predicate ChatRepresents(item: Json, m: Message, text: JsonText) {
    var content, calls, count := Get(item, "content"), Get(item, "tool_calls"), TextCount(Get(item, "content"));
    if Get(item, "role") == Str("tool") then
      && m.role == "user" && |m.content| == 1 && CallsRepresent(calls, [], text)
      && var c := m.content[0];
         && c == ToolResultContent(c.toolCallID, c.text, false) && Get(item, "tool_call_id") == Str(c.toolCallID)
         && (if content == Null then c.text == "" else content == Str(c.text))
    else
      && Get(item, "role") == Str(m.role) && count <= |m.content|
      && TextsRepresent(content, m.content[..count]) && CallsRepresent(calls, m.content[count..], text)
  }

  // What the decoder leaves out without a diagnostic: a text part without a string for text, the content
  // of a tool message that is not a string, tool_calls that are not an array or stand in another message.
  predicate DropsSilently(item: Json) {
    var role, content, calls := StringOr(Get(item, "role")), Get(item, "content"), Get(item, "tool_calls");
    || (role == "tool" && content != Null && !content.Str?)
    || (role != "tool" && content.Arr? && exists part :: part in content.items && !Get(part, "text").Str?)
    || (calls != Null && if role == "assistant" then !calls.Arr? else calls != Arr([]))
  }

  lemma {:induction false} PartSaid(part: Json, path: Path)
    ensures var r := ChatRequest.DecodePart(part, path);
            r.diagnostics == [] && Get(part, "text").Str? ==> r.values == [TextContent(Get(part, "text").s)]
  {
  }

  lemma {:induction false} PartsOneMore(items: seq<Json>, contents: seq<Content>, item: Json, s: string)
    requires PartsRepresent(Arr(items), contents) && Get(item, "text") == Str(s)
    ensures PartsRepresent(Arr(items + [item]), contents + [TextContent(s)])
  {
    hide Get;
  }

  lemma {:induction false} PartsSaid(items: seq<Json>, path: Path)
    ensures var r := ChatRequest.DecodeParts(items, path);
            r.diagnostics == [] && (forall part :: part in items ==> Get(part, "text").Str?) ==>
              PartsRepresent(Arr(items), r.values)
  {
    hide Get, ChatRequest.DecodePart;
    var r := ChatRequest.DecodeParts(items, path);
    if items != [] && r.diagnostics == [] && (forall part :: part in items ==> Get(part, "text").Str?) {
      var n := |items| - 1;
      var before, last := ChatRequest.DecodeParts(items[..n], path), ChatRequest.DecodePart(items[n], path + [At(n)]);
      assert r == Both(before, last);
      assert items[n] in items && forall part :: part in items[..n] ==> part in items;
      PartsSaid(items[..n], path);
      PartSaid(items[n], path + [At(n)]);
      hide ChatRequest.DecodeParts, PartsRepresent;
      assert items == items[..n] + [items[n]];
      PartsOneMore(items[..n], before.values, items[n], Get(items[n], "text").s);
    }
  }

  lemma {:induction false} PartsUnsaid(items: seq<Json>, contents: seq<Content>)
    requires exists part :: part in items && !Get(part, "text").Str?
    ensures !PartsRepresent(Arr(items), contents)
  {
    var part :| part in items && !Get(part, "text").Str?;
    var i :| 0 <= i < |items| && items[i] == part;
    if |contents| == |items| {
      assert Get(Arr(items).items[i], "text") != Str(contents[i].text);
    }
  }

  predicate TextsDropped(content: Json) {
    content.Arr? && exists part :: part in content.items && !Get(part, "text").Str?
  }

  lemma {:induction false} TextsSaid(content: Json, path: Path)
    ensures var r := ChatRequest.DecodeText(content, path);
            r.diagnostics == [] && !TextsDropped(content) ==>
              TextsRepresent(content, r.values) && |r.values| == TextCount(content)
    ensures forall contents :: TextsDropped(content) ==> !TextsRepresent(content, contents)
  {
    hide Get, ChatRequest.DecodeParts;
    if content.Arr? {
      PartsSaid(content.items, path);
      if TextsDropped(content) {
        forall contents
          ensures !TextsRepresent(content, contents)
        {
          PartsUnsaid(content.items, contents);
        }
      }
    }
  }

  lemma {:induction false} CallSaid(call: Json, path: Path, text: JsonText)
    ensures var r := ChatRequest.DecodeCall(call, path, text);
            r.diagnostics == [] ==> |r.values| == 1 && CallRepresents(call, r.values[0], text)
  {
    hide ParseArguments, Spells;
    var r := ChatRequest.DecodeCall(call, path, text);
    if r.diagnostics == [] {
      ArgumentsAreSpelled(Get(Get(call, "function"), "arguments"), r.values[0].arguments, text);
    }
  }

  lemma {:induction false} CallsSaid(calls: seq<Json>, path: Path, text: JsonText)
    ensures var r := ChatRequest.DecodeCalls(calls, path, text);
            r.diagnostics == [] ==> CallsRepresent(Arr(calls), r.values, text)
  {
    hide CallRepresents, ChatRequest.DecodeCall;
    if calls != [] {
      var n := |calls| - 1;
      CallsSaid(calls[..n], path, text);
      CallSaid(calls[n], path + [Key("tool_calls"), At(n)], text);
    }
  }

  lemma {:induction false} Halves<T>(p: seq<T>, q: seq<T>)
    ensures (p + q)[..|p|] == p && (p + q)[|p|..] == q
  {
  }

  lemma {:induction false} SpokenItem(item: Json, path: Path, text: JsonText)
    requires item.Obj? && StringOr(Get(item, "role")) in {"system", "developer", "user", "assistant"}
    ensures var role := StringOr(Get(item, "role"));
            var r := if role == "assistant" then ChatRequest.DecodeAssistant(item, path, text)
                     else ChatRequest.DecodeText(Get(item, "content"), path + [Key("content")]);
            r.diagnostics == [] ==> (ChatRepresents(item, Message(role, r.values), text) <==> !DropsSilently(item))
  {
    hide Get, ChatRequest.DecodeText, ChatRequest.DecodeCalls, TextsRepresent, CallsRepresent, TextCount;
    var role, content, calls := StringOr(Get(item, "role")), Get(item, "content"), Get(item, "tool_calls");
    var said := ChatRequest.DecodeText(content, path + [Key("content")]);
    TextsSaid(content, path + [Key("content")]);
    NoCalls(calls, text);
    assert said.values == said.values + [];
    if role == "assistant" && calls.Arr? {
      var called := ChatRequest.DecodeCalls(calls.items, path, text);
      CallsSaid(calls.items, path, text);
      assert calls == Arr(calls.items);
      Halves(said.values, called.values);
    } else {
      Halves(said.values, []);
    }
  }

  lemma {:induction false} NoCalls(value: Json, text: JsonText)
    ensures value == Null ==> CallsRepresent(value, [], text)
    ensures !value.Arr? && value != Null ==> forall contents :: !CallsRepresent(value, contents, text)
    ensures value.Arr? ==> (CallsRepresent(value, [], text) <==> value == Arr([]))
  {
  }

  // Every diagnostic of the Chat decoder's messages blocks.
  ghost predicate AllBlock(ds: seq<Diagnostic>) {
    forall d :: d in ds ==> !d.warning
  }

  lemma {:induction false} PartsBlock(items: seq<Json>, path: Path)
    ensures AllBlock(ChatRequest.DecodeParts(items, path).diagnostics)
  {
    if items != [] {
      PartsBlock(items[..|items| - 1], path);
    }
  }

  lemma {:induction false} CallsBlock(calls: seq<Json>, path: Path, text: JsonText)
    ensures AllBlock(ChatRequest.DecodeCalls(calls, path, text).diagnostics)
  {
    hide ParseArguments;
    if calls != [] {
      CallsBlock(calls[..|calls| - 1], path, text);
    }
  }

  lemma {:induction false} MessageBlocks(item: Json, index: nat, text: JsonText)
    ensures AllBlock(ChatRequest.DecodeMessage(item, index, text).diagnostics)
  {
    hide Get, ChatRequest.DecodeParts, ChatRequest.DecodeCalls;
    var path, content, calls := ChatRequest.MESSAGES + [At(index)], Get(item, "content"), Get(item, "tool_calls");
    PartsBlock(if content.Arr? then content.items else [], path + [Key("content")]);
    CallsBlock(if calls.Arr? then calls.items else [], path, text);
  }

  lemma {:induction false} ItemSaid(item: Json, index: nat, text: JsonText)
    ensures var r := ChatRequest.DecodeMessage(item, index, text);
            r.diagnostics == [] ==>
              |r.values| == 1 && (ChatRepresents(item, r.values[0], text) <==> !DropsSilently(item))
  {
    hide ChatRequest.DecodeText, ChatRequest.DecodeAssistant;
    var role, path := StringOr(Get(item, "role")), ChatRequest.MESSAGES + [At(index)];
    if item.Obj? && role in {"system", "developer", "user", "assistant"} {
      SpokenItem(item, path, text);
    } else if item.Obj? && role == "tool" {
      NoCalls(Get(item, "tool_calls"), text);
      hide CallsRepresent;
    }
  }

  lemma {:induction false} NothingBlocks(ds: seq<Diagnostic>)
    requires AllBlock(ds)
    ensures OnlyWarnings(ds) <==> ds == []
  {
    if ds != [] {
      assert ds[0] in ds;
    }
  }

  lemma {:induction false} ItemsSaid(items: seq<Json>, text: JsonText)
    ensures var r := ChatRequest.DecodeItems(items, text);
            OnlyWarnings(r.diagnostics) ==>
              && r.diagnostics == [] && |r.values| == |items|
              && forall i :: 0 <= i < |items| ==>
                  (ChatRepresents(items[i], r.values[i], text) <==> !DropsSilently(items[i]))
  {
    hide ChatRequest.DecodeMessage, ChatRepresents, DropsSilently;
    var r := ChatRequest.DecodeItems(items, text);
    if items != [] {
      var n := |items| - 1;
      var before, last := ChatRequest.DecodeItems(items[..n], text), ChatRequest.DecodeMessage(items[n], n, text);
      assert r == Both(before, last);
      ItemsSaid(items[..n], text);
      BothOnlyWarn(before.diagnostics, last.diagnostics);
      MessageBlocks(items[n], n, text);
      ItemSaid(items[n], n, text);
      NothingBlocks(last.diagnostics);
    }
  }

  /**
   * If a translation from Chat succeeds, every message became exactly one canonical message, in order, and
   * that says what the message says exactly when nothing of it is left out silently.
   */
  lemma {:induction false} NoChatMessageIsLost(to: Protocol, body: Json, keys: seq<string>, text: JsonText)
    ensures var r := Translate(OpenAIChat, to, body, keys, text);
            var items := Get(body, "messages");
            r.Translated? ==>
              && items.Arr? && |r.messages| == |items.items|
              && forall i :: 0 <= i < |items.items| ==>
                  (ChatRepresents(items.items[i], r.messages[i], text) <==> !DropsSilently(items.items[i]))
  {
    hide ChatRepresents, DropsSilently, Translate, ChatRequest.DecodeItems, KeyDiagnostics, PortableKeys, WarnedKeys;
    TranslatedOnlyWarns(OpenAIChat, to, body, keys, text);
    var items := Get(body, "messages");
    ItemsSaid(if items.Arr? then items.items else [], text);
    if !items.Arr? {
      assert ChatRequest.Decode(body, text).diagnostics[0] in ChatRequest.Decode(body, text).diagnostics;
    }
  }

  // ---- Nil arguments ----------------------------------------------------------------------

  // Arguments of null are no object, and the decoder takes them for nil.
  predicate NilCall(call: Json, text: JsonText) {
    Spells(Get(Get(call, "function"), "arguments"), Null, text)
  }

  // An assistant message has a call with nil arguments.
  predicate AsksWithNil(item: Json, text: JsonText) {
    Get(item, "role") == Str("assistant") && Get(item, "tool_calls").Arr?
    && exists call :: call in Get(item, "tool_calls").items && NilCall(call, text)
  }

  lemma {:induction false} NilCalls(calls: seq<Json>, contents: seq<Content>, text: JsonText)
    requires CallsRepresent(Arr(calls), contents, text)
    ensures AnthropicRequestRoundTrip.ObjectArguments(contents) <==> forall call :: call in calls ==>
            !NilCall(call, text)
  {
    hide ParseArguments, Get;
    assert forall i :: 0 <= i < |calls| ==> CallRepresents(Arr(calls).items[i], contents[i], text);
    forall i | 0 <= i < |calls|
      ensures AnthropicRequestRoundTrip.IsNil(contents[i]) <==> NilCall(calls[i], text)
    {
      assert CallRepresents(Arr(calls).items[i], contents[i], text);
    }
  }

  lemma {:induction false} TextIsNotNil(content: Json, path: Path)
    ensures AnthropicRequestRoundTrip.ObjectArguments(ChatRequest.DecodeText(content, path).values)
  {
    if content.Arr? {
      ChatRequest.PartsAreText(content.items, path);
    }
  }

  lemma {:induction false} ItemNil(item: Json, index: nat, text: JsonText)
    ensures var r := ChatRequest.DecodeMessage(item, index, text);
            r.diagnostics == [] ==>
              |r.values| == 1 && (!IsSystem(r.values[0].role) ==>
                (AnthropicRequestRoundTrip.ObjectArguments(r.values[0].content) <==> !AsksWithNil(item, text)))
              && (IsSystem(r.values[0].role) ==> !AsksWithNil(item, text))
  {
    hide ChatRequest.DecodeText, ChatRequest.DecodeCalls, AnthropicRequestRoundTrip.ObjectArguments, NilCall,
         CallsRepresent;
    var path, content, calls := ChatRequest.MESSAGES + [At(index)], Get(item, "content"), Get(item, "tool_calls");
    var said := ChatRequest.DecodeText(content, path + [Key("content")]);
    TextIsNotNil(content, path + [Key("content")]);
    ResultIsNotNil(StringOr(Get(item, "tool_call_id")), StringOr(Get(item, "content")));
    hide Get;
    if calls.Arr? {
      var called := ChatRequest.DecodeCalls(calls.items, path, text);
      AnthropicRequestRoundTrip.ObjectsConcat(said.values, called.values);
      CallsSaid(calls.items, path, text);
      if called.diagnostics == [] {
        NilCalls(calls.items, called.values, text);
      }
    }
  }

  lemma {:induction false} ResultIsNotNil(id: string, said: string)
    ensures AnthropicRequestRoundTrip.ObjectArguments([ToolResultContent(id, said, false)])
  {
  }

  lemma {:induction false} ItemsNil(items: seq<Json>, text: JsonText)
    ensures var r := ChatRequest.DecodeItems(items, text);
            r.diagnostics == [] ==>
              (AnthropicRequestRoundTrip.AllObjectArguments(r.values) <==>
               forall item :: item in items ==> !AsksWithNil(item, text))
  {
    hide ChatRequest.DecodeMessage, AnthropicRequestRoundTrip.AllObjectArguments, IsSystem, AsksWithNil,
         AnthropicRequestRoundTrip.ObjectArguments;
    if items == [] {
      AnthropicRequestRoundTrip.NothingHeld();
    } else {
      var n := |items| - 1;
      var before, last := ChatRequest.DecodeItems(items[..n], text), ChatRequest.DecodeMessage(items[n], n, text);
      ItemsNil(items[..n], text);
      ItemNil(items[n], n, text);
      assert items == items[..n] + [items[n]];
      assert forall item :: item in items <==> item in items[..n] || item == items[n];
      if before.diagnostics == [] && last.diagnostics == [] {
        assert last.values == [last.values[0]];
        AnthropicRequestRoundTrip.AllObjectsOneMore(before.values, last.values[0]);
      }
    }
  }

  /**
   * A request from Chat keeps its meaning through an Anthropic target exactly when no call of an
   * assistant message has arguments that parse to null.
   */
  lemma {:induction false} ChatKeepsMeaningForAnthropic(body: Json, keys: seq<string>, text: JsonText)
    ensures var r := Translate(OpenAIChat, Anthropic, body, keys, text);
            var items := Get(body, "messages");
            r.Translated? ==>
              items.Arr? && (SameMeaning(r.messages, AnthropicRequest.Decode(r.encoded, text).values) <==>
                             forall item :: item in items.items ==> !AsksWithNil(item, text))
  {
    hide Translate, SameMeaning, AsksWithNil, ChatRequest.DecodeItems, AnthropicRequest.Decode, KeyDiagnostics,
         PortableKeys, WarnedKeys, AnthropicRequestRoundTrip.AllObjectArguments;
    TranslationKeepsMeaning(OpenAIChat, Anthropic, body, keys, text);
    TranslatedOnlyWarns(OpenAIChat, Anthropic, body, keys, text);
    NoChatMessageIsLost(Anthropic, body, keys, text);
    var r, items := Translate(OpenAIChat, Anthropic, body, keys, text), Get(body, "messages");
    if r.Translated? {
      ItemsSaid(items.items, text);
      ItemsNil(items.items, text);
    }
  }

  // ---- Requests that show it --------------------------------------------------------------

  // A request of one message and no other key.
  function Asking(item: Json): Json {
    Obj(map["messages" := Arr([item])])
  }

  lemma {:induction false} MessagesIsPortable(p: Protocol)
    requires !p.OpenAIResponses?
    ensures KeyDiagnostics(["messages"], PortableKeys(p), WarnedKeys(p)) == []
  {
    assert ["messages"][..0] == [];
  }

  lemma {:induction false} AskingTranslates(from: Protocol, to: Protocol, item: Json, m: Message, text: JsonText)
    requires !from.OpenAIResponses? && !IsSystem(m.role)
    requires DecodeMessages(from, Asking(item), text) == Read([m], [])
    ensures Translate(from, to, Asking(item), ["messages"], text) ==
            Translated(EncodeRequest(to, [m], text).0, [m], [])
  {
    hide DecodeMessages, ChatRequest.Encode, ResponsesRequest.Encode, AnthropicRequest.Encode, KeyDiagnostics,
         PortableKeys, WarnedKeys, AnthropicRequest.EncodeDiagnostics;
    MessagesIsPortable(from);
    NoStrayDiagnostics(m);
    assert DecodeRequest(from, Asking(item), ["messages"], text) == Read([m], []) by {
      assert [] + [m] == [m];
    }
    assert EncodeRequest(to, [m], text).1 == [];
    hide DecodeRequest, EncodeRequest;
    assert Blocking([]) == [];
    var none: seq<Diagnostic> := [];
    assert none + none == none;
  }

  lemma {:induction false} NoStrayDiagnostics(m: Message)
    requires !IsSystem(m.role)
    ensures AnthropicRequest.EncodeDiagnostics([m]) == []
  {
    assert [m][..0] == [];
  }

  lemma {:induction false} AskingFields(item: Json)
    ensures Asking(item).Obj? && Get(Asking(item), "messages") == Arr([item]) && Get(Asking(item), "system") == Null
  {
  }

  lemma {:induction false} ChatAsking(item: Json, text: JsonText)
    ensures DecodeMessages(OpenAIChat, Asking(item), text) == ChatRequest.DecodeMessage(item, 0, text)
  {
    AskingFields(item);
    hide ChatRequest.DecodeMessage, Asking, Get;
    var items, r := [item], ChatRequest.DecodeMessage(item, 0, text);
    assert items[..|items| - 1] == [];
    assert ChatRequest.DecodeItems(items, text) == Both(ChatRequest.DecodeItems([], text), r);
    assert [] + r.values == r.values && [] + r.diagnostics == r.diagnostics;
  }

  lemma {:induction false} AnthropicAsking(item: Json, text: JsonText)
    ensures DecodeMessages(Anthropic, Asking(item), text) == AnthropicRequest.DecodeMessage(item, 0, text)
  {
    AskingFields(item);
    hide AnthropicRequest.DecodeMessage, Asking, Get;
    var items, r := [item], AnthropicRequest.DecodeMessage(item, 0, text);
    assert items[..|items| - 1] == [];
    assert AnthropicRequest.DecodeItems(items, text) == Both(AnthropicRequest.DecodeItems([], text), r);
    assert AnthropicRequest.DecodeSystem(Null) == Read([], []);
    assert [] + r.values == r.values && [] + r.diagnostics == r.diagnostics;
  }

  function NilCallItem(): Json {
    var fn := Obj(map["name" := Str("f"), "arguments" := Str("null")]);
    Obj(map["role" := Str("assistant"), "content" := Null,
            "tool_calls" := Arr([Obj(map["id" := Str("a"), "type" := Str("function"), "function" := fn])])])
  }

  function NilCallMessage(): Message {
    Message("assistant", [ToolCallContent("a", "f", Null)])
  }

  lemma {:induction false} NilCallIsRefused(text: JsonText)
    ensures var back := AnthropicRequest.Decode(AnthropicRequest.Encode([NilCallMessage()]), text);
            back.diagnostics != [] && Trace(back.values) == [] && Trace([NilCallMessage()]) == [Called("a", "f", Null)]
  {
    hide AnthropicRequest.Encode, AnthropicRequest.Decode, Trace, TraceOf, RoleText, Texts.Join, ContentText,
         AnthropicRequest.SystemTexts, SameMeaning, HasItem, AnthropicRequestRoundTrip.WithoutNil;
    var m, c := NilCallMessage(), ToolCallContent("a", "f", Null);
    assert Sensible([m]);
    assert m in [m] && c in m.content && AnthropicRequestRoundTrip.IsNil(c);
    assert !AnthropicRequestRoundTrip.AllObjectArguments([m]);
    AnthropicRequestRoundTrip.AnthropicKeepsMeaning([m], text);
    OneMessage(m, "assistant");
    OneContent(c);
    NothingHeldOf("a", "f");
  }

  /** A Chat call with the arguments null is translated for Anthropic without a word, and its target refuses it. */
  lemma {:induction false} NilArgumentsAreLost(text: JsonText)
    requires text.parse("null") == Some(Null)
    ensures var r := Translate(OpenAIChat, Anthropic, Asking(NilCallItem()), ["messages"], text);
            && r.Translated? && r.diagnostics == [] && Trace(r.messages) == [Called("a", "f", Null)]
            && var back := AnthropicRequest.Decode(r.encoded, text); back.diagnostics != [] && Trace(back.values) == []
  {
    hide NilCallItem, ChatRequest.DecodeMessage, AnthropicRequest.Encode, AnthropicRequest.Decode, Translate, Asking,
         Trace, KeyDiagnostics, PortableKeys, WarnedKeys, DecodeRequest, Blocking, DecodeMessages;
    NilCallReads(text);
    ChatAsking(NilCallItem(), text);
    AskingTranslates(OpenAIChat, Anthropic, NilCallItem(), NilCallMessage(), text);
    NilCallIsRefused(text);
  }

  lemma {:induction false} NothingHeldOf(id: string, name: string)
    ensures AnthropicRequestRoundTrip.WithoutNil([Called(id, name, Null)]) == []
  {
    var trace := [Called(id, name, Null)];
    assert trace[..|trace| - 1] == [];
  }

  lemma {:induction false} NilCallReads(text: JsonText)
    requires text.parse("null") == Some(Null)
    ensures ChatRequest.DecodeMessage(NilCallItem(), 0, text) ==
            Read([Message("assistant", [ToolCallContent("a", "f", Null)])], [])
  {
    var item := NilCallItem();
    assert Get(item, "role") == Str("assistant") && Get(item, "content") == Null;
    var call, path := Get(item, "tool_calls").items[0], ChatRequest.MESSAGES + [At(0)];
    assert Get(item, "tool_calls") == Arr([call]);
    assert Get(call, "id") == Str("a") && Get(Get(call, "function"), "name") == Str("f")
           && Get(Get(call, "function"), "arguments") == Str("null");
    hide NilCallItem, Get;
    OneCall(call, path, text);
    assert [] + [ToolCallContent("a", "f", Null)] == [ToolCallContent("a", "f", Null)];
  }

  lemma {:induction false} OneCall(call: Json, path: Path, text: JsonText)
    ensures ChatRequest.DecodeCalls([call], path, text) ==
            ChatRequest.DecodeCall(call, path + [Key("tool_calls"), At(0)], text)
  {
    hide ChatRequest.DecodeCall;
    var calls, r := [call], ChatRequest.DecodeCall(call, path + [Key("tool_calls"), At(0)], text);
    assert calls[..|calls| - 1] == [];
    assert ChatRequest.DecodeCalls(calls, path, text) == Both(ChatRequest.DecodeCalls([], path, text), r);
    assert [] + r.values == r.values && [] + r.diagnostics == r.diagnostics;
  }

  function PartsResultItem(): Json {
    Obj(map["role" := Str("tool"), "tool_call_id" := Str("a"),
            "content" := Arr([Obj(map["type" := Str("text"), "text" := Str("done")])])])
  }

  lemma {:induction false} PartsResultReads(text: JsonText)
    ensures ChatRequest.DecodeMessage(PartsResultItem(), 0, text) ==
            Read([Message("user", [ToolResultContent("a", "", false)])], [])
  {
    var item := PartsResultItem();
    assert Get(item, "role") == Str("tool") && Get(item, "tool_call_id") == Str("a") && Get(item, "content").Arr?;
    hide PartsResultItem, Get;
  }

  /** A tool message whose content is a list of text parts is translated without a word, as an empty result. */
  lemma {:induction false} ResultPartsAreLost(to: Protocol, text: JsonText)
    ensures var r := Translate(OpenAIChat, to, Asking(PartsResultItem()), ["messages"], text);
            r.Translated? && r.diagnostics == [] && Trace(r.messages) == [Returned("a", "")]
  {
    hide ChatRequest.DecodeMessage, Translate, Asking, PartsResultItem, Trace, TraceOf, KeyDiagnostics, PortableKeys,
         WarnedKeys, DecodeRequest, Blocking, EncodeRequest, DecodeMessages;
    var m := Message("user", [ToolResultContent("a", "", false)]);
    ChatAsking(PartsResultItem(), text);
    PartsResultReads(text);
    AskingTranslates(OpenAIChat, to, PartsResultItem(), m, text);
    OneMessage(m, "user");
    OneContent(m.content[0]);
  }

  function FailedResultItem(): Json {
    Obj(map["role" := Str("user"),
            "content" := Arr([Obj(map["type" := Str("tool_result"), "tool_use_id" := Str("a"),
                                      "content" := Str("no such file"), "is_error" := Bool(true)])])])
  }

  lemma {:induction false} FailedResultReads(text: JsonText)
    ensures AnthropicRequest.DecodeMessage(FailedResultItem(), 0, text) ==
            Read([Message("user", [ToolResultContent("a", "no such file", true)])], [])
  {
    var item := FailedResultItem();
    assert Get(item, "role") == Str("user");
    var block, path := Get(item, "content").items[0], AnthropicRequest.MESSAGES + [At(0)] + [Key("content")];
    assert Get(item, "content") == Arr([block]);
    assert Get(block, "type") == Str("tool_result") && Get(block, "tool_use_id") == Str("a")
           && Get(block, "content") == Str("no such file") && Get(block, "is_error") == Bool(true);
    hide FailedResultItem, Get;
    OneBlock(block, path, text);
  }

  lemma {:induction false} OneBlock(block: Json, path: Path, text: JsonText)
    ensures AnthropicRequest.DecodeBlocks([block], path, text) ==
            AnthropicRequest.DecodeBlock(block, path + [At(0)], text)
  {
    hide AnthropicRequest.DecodeBlock;
    var blocks, r := [block], AnthropicRequest.DecodeBlock(block, path + [At(0)], text);
    assert blocks[..|blocks| - 1] == [];
    assert AnthropicRequest.DecodeBlocks(blocks, path, text) == Both(AnthropicRequest.DecodeBlocks([], path, text), r);
    assert [] + r.values == r.values && [] + r.diagnostics == r.diagnostics;
  }

  /** An Anthropic result that is an error comes out of a Chat or Responses target as no error. */
  lemma {:induction false} ErrorsAreLost(to: Protocol, text: JsonText)
    requires !to.Anthropic?
    ensures var r := Translate(Anthropic, to, Asking(FailedResultItem()), ["messages"], text);
            && r.Translated? && r.diagnostics == [] && Errors(r.messages) == [true]
            && Errors(DecodeMessages(to, r.encoded, text).values) == [false]
  {
    hide FailedResultItem, AnthropicRequest.DecodeMessage, Translate, Asking, ChatRequest.Encode,
         ResponsesRequest.Encode, ChatRequest.Decode, ResponsesRequest.Decode, Errors, ErrorsOf, Survives,
         KeyDiagnostics, PortableKeys, WarnedKeys, DecodeRequest, Blocking;
    var c := ToolResultContent("a", "no such file", true);
    var m := Message("user", [c]);
    AnthropicAsking(FailedResultItem(), text);
    FailedResultReads(text);
    AskingTranslates(Anthropic, to, FailedResultItem(), m, text);
    OneMessageErrors(m);
    OneError(c);
    if to.OpenAIChat? {
      ChatRequest.ChatDropsErrors([m], text);
    } else {
      ResponsesRequest.ResponsesDropsErrors([m], text);
    }
  }
}
