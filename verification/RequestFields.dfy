/** What requests print, field by field, and what becomes of system text (proxy/codec/request.go). */
module RequestFields {
  import opened Canonical
  import opened Json
  import opened RequestTypes
  import opened Texts
  import AnthropicRequest
  import ChatRequest
  import Requests
  import ResponsesRequest

  // The contents of one kind, in order.
  function OfKind(contents: seq<Content>, kind: ContentType): seq<Content> {
    if contents == [] then []
    else
      var before, c := OfKind(contents[..|contents| - 1], kind), contents[|contents| - 1];
      if c.kind == kind then before + [c] else before
  }

  function TextsOf(contents: seq<Content>): (r: seq<string>)
    ensures |r| == |contents|
  {
    seq(|contents|, i requires 0 <= i < |contents| => contents[i].text)
  }

  lemma {:induction false} NothingAssembled()
    ensures Assembles([], "")
  {
  }

  lemma {:induction false} NoneOfKind(kind: ContentType)
    ensures OfKind([], kind) == []
  {
  }

  /** The text of a message is its text contents put together. */
  lemma {:induction false} TextIsAssembled(contents: seq<Content>)
    ensures Assembles(TextsOf(OfKind(contents, TextType)), ContentText(contents))
  {
    hide Assembles;
    if contents == [] {
      NothingAssembled();
      assert TextsOf([]) == [];
    } else {
      var n := |contents| - 1;
      var before := OfKind(contents[..n], TextType);
      TextIsAssembled(contents[..n]);
      AssemblesOneMore(TextsOf(before), contents[n].text, ContentText(contents[..n]));
      assert TextsOf(before + [contents[n]]) == TextsOf(before) + [contents[n].text];
    }
  }

  // ---- System text ------------------------------------------------------------------------

  // All contents of the system and developer messages, in order.
  function SystemContents(ms: seq<Message>): seq<Content> {
    if ms == [] then []
    else
      var before, m := SystemContents(ms[..|ms| - 1]), ms[|ms| - 1];
      if m.role in {"system", "developer"} then before + m.content else before
  }

  // The text of each system or developer message, in order.
  function SystemMessages(ms: seq<Message>): seq<string> {
    if ms == [] then []
    else
      var before, m := SystemMessages(ms[..|ms| - 1]), ms[|ms| - 1];
      if m.role in {"system", "developer"} then before + [ContentText(m.content)] else before
  }

  lemma {:induction false} KindConcat(p: seq<Content>, q: seq<Content>, kind: ContentType)
    ensures OfKind(p + q, kind) == OfKind(p, kind) + OfKind(q, kind)
    decreases |q|
  {
    if q == [] {
      assert p + q == p;
    } else {
      var n, whole := |q| - 1, p + q;
      assert whole[..|whole| - 1] == p + q[..n] && whole[|whole| - 1] == q[n];
      KindConcat(p, q[..n], kind);
    }
  }

  lemma {:induction false} ListIsTexts(contents: seq<Content>)
    ensures AnthropicRequest.TextList(contents) == TextsOf(OfKind(contents, TextType))
  {
    if contents == [] {
      assert TextsOf([]) == [];
    } else {
      var n := |contents| - 1;
      ListIsTexts(contents[..n]);
      var before := OfKind(contents[..n], TextType);
      assert TextsOf(before + [contents[n]]) == TextsOf(before) + [contents[n].text];
    }
  }

  lemma {:induction false} HoistedTexts(ms: seq<Message>)
    ensures AnthropicRequest.SystemTexts(ms) == TextsOf(OfKind(SystemContents(ms), TextType))
  {
    hide OfKind, AnthropicRequest.TextList;
    if ms == [] {
      NoneOfKind(TextType);
      assert TextsOf([]) == [];
    } else {
      var n := |ms| - 1;
      var before := SystemContents(ms[..n]);
      HoistedTexts(ms[..n]);
      ListIsTexts(ms[n].content);
      KindConcat(before, ms[n].content, TextType);
      assert TextsOf(OfKind(before, TextType) + OfKind(ms[n].content, TextType)) ==
             TextsOf(OfKind(before, TextType)) + TextsOf(OfKind(ms[n].content, TextType));
    }
  }

  lemma {:induction false} InstructedTexts(ms: seq<Message>)
    ensures ResponsesRequest.Instructions(ms) == SystemMessages(ms)
  {
    hide ContentText;
    if ms != [] {
      InstructedTexts(ms[..|ms| - 1]);
    }
  }

  // A field holds the parts, blank lines between them, or is missing if there are none.
  predicate HoldsParts(value: Json, parts: seq<string>) {
    if parts == [] then value == Null else value.Str? && Separates(parts, "\n\n", value.s)
  }

  /**
   * System text is kept: an Anthropic target holds the text contents of the system messages, a Responses
   * target one text for each system message, in order and apart by blank lines.
   */
  lemma {:induction false} SystemTextIsKept(ms: seq<Message>, text: JsonText)
    ensures HoldsParts(Get(AnthropicRequest.Encode(ms), "system"), TextsOf(OfKind(SystemContents(ms), TextType)))
    ensures HoldsParts(Get(ResponsesRequest.Encode(ms, text), "instructions"), SystemMessages(ms))
  {
    hide Separates, SystemMessages, SystemContents, OfKind, Join, AnthropicRequest.EncodeTurns,
         AnthropicRequest.TurnsJson, ResponsesRequest.EncodeItems, AnthropicRequest.SystemTexts,
         ResponsesRequest.Instructions;
    HoistedTexts(ms);
    InstructedTexts(ms);
    JoinSeparates(AnthropicRequest.SystemTexts(ms), "\n\n");
    JoinSeparates(ResponsesRequest.Instructions(ms), "\n\n");
  }

  ghost predicate AllText(contents: seq<Content>) {
    forall c :: c in contents ==> c.kind.TextType?
  }

  lemma {:induction false} AllTextConcat(p: seq<Content>, q: seq<Content>)
    ensures AllText(p + q) <==> AllText(p) && AllText(q)
  {
    assert forall c :: c in p + q <==> c in p || c in q;
  }

  lemma {:induction false} StraysOf(contents: seq<Content>, index: nat)
    ensures AnthropicRequest.StrayDiagnostics(contents, index) == [] <==> AllText(contents)
    ensures forall d :: d in AnthropicRequest.StrayDiagnostics(contents, index) ==> !d.warning
  {
    if contents != [] {
      var n := |contents| - 1;
      StraysOf(contents[..n], index);
      AllTextConcat(contents[..n], [contents[n]]);
      assert contents == contents[..n] + [contents[n]];
    }
  }

  lemma {:induction false} StraysBlock(ms: seq<Message>)
    ensures var ds := AnthropicRequest.EncodeDiagnostics(ms);
            (ds == [] <==> AllText(SystemContents(ms))) && forall d :: d in ds ==> !d.warning
  {
    hide AllText, AnthropicRequest.StrayDiagnostics;
    if ms == [] {
      assert AllText([]) by { NothingStrays(); }
    } else {
      var n := |ms| - 1;
      StraysBlock(ms[..n]);
      StraysOf(ms[n].content, n);
      AllTextConcat(SystemContents(ms[..n]), ms[n].content);
    }
  }

  lemma {:induction false} NothingStrays()
    ensures AllText([])
  {
  }

  /** For an Anthropic target nothing but text in a system message is refused; for the others it is dropped. */
  lemma {:induction false} StraysAreRefused(from: Protocol, to: Protocol, body: Json, keys: seq<string>, text: JsonText)
    ensures var r, decoded := Requests.Translate(from, to, body, keys, text),
            Requests.DecodeRequest(from, body, keys, text);
            r.Translated? <==>
              && body.Obj? && Requests.OnlyWarnings(decoded.diagnostics)
              && (to.Anthropic? ==> AllText(SystemContents(decoded.values)))
  {
    hide Requests.DecodeRequest, AllText, Blocking, ChatRequest.Encode, ResponsesRequest.Encode,
         AnthropicRequest.Encode, AnthropicRequest.EncodeDiagnostics, SystemContents;
    var decoded := Requests.DecodeRequest(from, body, keys, text);
    var strays: seq<Diagnostic> := Requests.EncodeRequest(to, decoded.values, text).1;
    Requests.BlockingMeans(decoded.diagnostics);
    Requests.BlockingMeans(decoded.diagnostics + strays);
    Requests.BothOnlyWarn(decoded.diagnostics, strays);
    StraysBlock(decoded.values);
    OnlyProblems(strays);
    hide Requests.OnlyWarnings;
  }

  lemma {:induction false} OnlyProblems(ds: seq<Diagnostic>)
    requires forall d :: d in ds ==> !d.warning
    ensures Requests.OnlyWarnings(ds) <==> ds == []
  {
    assert ds != [] ==> ds[0] in ds;
  }

  // ---- System blocks ----------------------------------------------------------------------

  lemma {:induction false} SystemBlockIsText(item: Json, index: nat)
    ensures var ds, path := AnthropicRequest.DecodeSystemBlock(item, index).diagnostics,
            [Key("system"), At(index), Key("cache_control")];
            && (Requests.OnlyWarnings(ds) <==> AnthropicRequest.IsTextBlock(item))
            && (Requests.AsksForCache(item) && item.Obj? ==>
                  Warning(path, "prompt cache control is provider-specific") in ds)
  {
    var ds := AnthropicRequest.DecodeSystemBlock(item, index).diagnostics;
    assert AnthropicRequest.SYSTEM + [At(index)] + [Key("cache_control")] ==
           [Key("system"), At(index), Key("cache_control")];
    if Requests.OnlyWarnings(ds) {
      Requests.LastIsNoProblem(ds);
    }
  }

  lemma {:induction false} SystemBlocksAreText(items: seq<Json>)
    ensures var ds := AnthropicRequest.DecodeSystemBlocks(items).diagnostics;
            && (Requests.OnlyWarnings(ds) <==> forall item :: item in items ==> AnthropicRequest.IsTextBlock(item))
            && forall i :: 0 <= i < |items| && items[i].Obj? && Requests.AsksForCache(items[i]) ==>
                 Warning([Key("system"), At(i), Key("cache_control")],
                         "prompt cache control is provider-specific") in ds
  {
    hide AnthropicRequest.DecodeSystemBlock, AnthropicRequest.IsTextBlock, Requests.AsksForCache, Requests.OnlyWarnings;
    if items == [] {
      NothingWarns();
    } else {
      var n := |items| - 1;
      var before, last := AnthropicRequest.DecodeSystemBlocks(items[..n]),
          AnthropicRequest.DecodeSystemBlock(items[n], n);
      SystemBlocksAreText(items[..n]);
      SystemBlockIsText(items[n], n);
      Requests.BothOnlyWarn(before.diagnostics, last.diagnostics);
      AnthropicRequest.AllOneMore(items[..n], items[n]);
      assert items == items[..n] + [items[n]];
    }
  }

  lemma {:induction false} NothingWarns()
    ensures Requests.OnlyWarnings([])
  {
  }

  /** The system of an Anthropic request is read exactly when it is missing, a text, or text blocks only. */
  lemma {:induction false} SystemIsPortable(value: Json)
    ensures Requests.OnlyWarnings(AnthropicRequest.DecodeSystem(value).diagnostics) <==>
            value.Null? || value.Str? ||
            (value.Arr? && forall item :: item in value.items ==> AnthropicRequest.IsTextBlock(item))
    ensures value.Arr? ==>
              forall i :: 0 <= i < |value.items| && value.items[i].Obj? && Requests.AsksForCache(value.items[i]) ==>
                Warning([Key("system"), At(i), Key("cache_control")], "prompt cache control is provider-specific")
                in AnthropicRequest.DecodeSystem(value).diagnostics
  {
    hide AnthropicRequest.DecodeSystemBlocks, AnthropicRequest.IsTextBlock, Requests.AsksForCache;
    if value.Arr? {
      SystemBlocksAreText(value.items);
    } else if !value.Null? && !value.Str? {
      var ds := AnthropicRequest.DecodeSystem(value).diagnostics;
      assert ds[0] in ds;
    }
  }

  // ---- Chat -------------------------------------------------------------------------------

  predicate PrintsResult(item: Json, c: Content) {
    && Get(item, "role") == Str("tool") && Get(item, "tool_call_id") == Str(c.toolCallID)
    && Get(item, "content") == Str(c.text)
  }

  predicate PrintsCall(item: Json, c: Content, text: JsonText) {
    && Get(item, "id") == Str(c.id) && Get(item, "type") == Str("function")
    && Get(Get(item, "function"), "name") == Str(c.name)
    && Get(Get(item, "function"), "arguments") == Str(text.marshal(c.arguments))
  }

  predicate PrintsCalls(items: seq<Json>, calls: seq<Content>, text: JsonText) {
    |items| == |calls| && forall i :: 0 <= i < |items| ==> PrintsCall(items[i], calls[i], text)
  }

  // The text and the calls of a message; content is null when there are only calls.
  predicate PrintsSpoken(item: Json, role: string, said: string, calls: seq<Content>, text: JsonText) {
    && Get(item, "role") == Str(if role == "developer" then "system" else role)
    && Get(item, "content") == (if said == "" && calls != [] then Null else Str(said))
    && var printed := Get(item, "tool_calls");
       if calls == [] then printed == Null else printed.Arr? && PrintsCalls(printed.items, calls, text)
  }

  // A message prints its results, then what it says and calls, if anything or if it holds nothing at all.
  ghost predicate PrintsForChat(items: seq<Json>, m: Message, text: JsonText) {
    var results, calls := OfKind(m.content, ToolResultType), OfKind(m.content, ToolCallType);
    exists said :: Assembles(TextsOf(OfKind(m.content, TextType)), said) &&
      var speaks := said != "" || calls != [] || m.content == [];
      && |items| == |results| + (if speaks then 1 else 0)
      && (forall i :: 0 <= i < |results| ==> PrintsResult(items[i], results[i]))
      && (speaks ==> PrintsSpoken(items[|results|], m.role, said, calls, text))
  }

  lemma {:induction false} ResultsPrint(contents: seq<Content>)
    ensures var items, results := ChatRequest.ResultItems(contents), OfKind(contents, ToolResultType);
            |items| == |results| && forall i :: 0 <= i < |results| ==> PrintsResult(items[i], results[i])
  {
    if contents != [] {
      ResultsPrint(contents[..|contents| - 1]);
    }
  }

  lemma {:induction false} CallPrints(c: Content, text: JsonText)
    ensures PrintsCall(ChatRequest.CallJson(c, text), c, text)
  {
  }

  lemma {:induction false} CallsPrint(contents: seq<Content>, text: JsonText)
    ensures PrintsCalls(ChatRequest.CallItems(contents, text), OfKind(contents, ToolCallType), text)
  {
    hide PrintsCall, ChatRequest.CallJson;
    if contents != [] {
      CallsPrint(contents[..|contents| - 1], text);
      CallPrints(contents[|contents| - 1], text);
    }
  }

  lemma {:induction false} SpokenPrints(role: string, said: string, contents: seq<Content>, text: JsonText)
    ensures PrintsSpoken(ChatRequest.ItemJson(role, said, ChatRequest.CallItems(contents, text)), role, said,
                         OfKind(contents, ToolCallType), text)
  {
    hide PrintsCall, ChatRequest.CallItems;
    CallsPrint(contents, text);
    var calls := ChatRequest.CallItems(contents, text);
    ChatRequest.ItemFields(role, said, calls);
    hide ChatRequest.ItemJson, Get;
  }

  /** What a message prints for a Chat target. */
  lemma {:induction false} ChatPrints(ms: seq<Message>, m: Message, text: JsonText)
    ensures ChatRequest.EncodeItems([], text) == []
    ensures exists items :: PrintsForChat(items, m, text)
                            && ChatRequest.EncodeItems(ms + [m], text) == ChatRequest.EncodeItems(ms, text) + items
  {
    hide ChatRequest.ResultItems, ChatRequest.CallItems, ChatRequest.ItemJson, ContentText, OfKind, Assembles,
         PrintsResult, PrintsSpoken;
    assert (ms + [m])[..|ms|] == ms;
    var items, said := ChatRequest.EncodeMessage(m, text), ContentText(m.content);
    ResultsPrint(m.content);
    CallsPrint(m.content, text);
    SpokenPrints(m.role, said, m.content, text);
    TextIsAssembled(m.content);
    hide PrintsCall;
    assert PrintsForChat(items, m, text);
  }

  // ---- Responses --------------------------------------------------------------------------

  predicate PrintsTool(item: Json, c: Content, text: JsonText) {
    if c.kind.ToolCallType? then
      && Get(item, "type") == Str("function_call") && Get(item, "call_id") == Str(c.id)
          && Get(item, "name") == Str(c.name)
      && Get(item, "arguments") == Str(text.marshal(c.arguments))
    else
      && Get(item, "type") == Str("function_call_output") && Get(item, "call_id") == Str(c.toolCallID)
      && Get(item, "output") == Str(c.text)
  }

  predicate PrintsTexts(item: Json, role: string, texts: seq<Content>) {
    && Get(item, "type") == Str("message") && Get(item, "role") == Str(role)
    && var parts := Get(item, "content");
       && parts.Arr? && |parts.items| == |texts|
       && forall i :: 0 <= i < |texts| ==>
            && Get(parts.items[i], "type") == Str(if role == "assistant" then "output_text" else "input_text")
            && Get(parts.items[i], "text") == Str(texts[i].text)
  }

  // The calls and results of some contents, in order.
  function Tools(contents: seq<Content>): seq<Content> {
    if contents == [] then []
    else
      var before, c := Tools(contents[..|contents| - 1]), contents[|contents| - 1];
      if c.kind in {ToolCallType, ToolResultType} then before + [c] else before
  }

  // A message prints its calls and results, then its texts together; a system message prints nothing here.
  ghost predicate PrintsForResponses(items: seq<Json>, m: Message, text: JsonText) {
    if m.role in {"system", "developer"} then items == []
    else
      var tools, texts := Tools(m.content), OfKind(m.content, TextType);
      && |items| == |tools| + (if texts == [] then 0 else 1)
      && (forall i :: 0 <= i < |tools| ==> PrintsTool(items[i], tools[i], text))
      && (texts != [] ==> PrintsTexts(items[|tools|], m.role, texts))
  }

  lemma {:induction false} ToolPrints(c: Content, text: JsonText)
    ensures c.kind.ToolCallType? ==> PrintsTool(ResponsesRequest.CallJson(c, text), c, text)
    ensures c.kind.ToolResultType? ==> PrintsTool(ResponsesRequest.OutputJson(c), c, text)
  {
  }

  lemma {:induction false} ToolsPrint(contents: seq<Content>, text: JsonText)
    ensures var items, tools := ResponsesRequest.ToolItems(contents, text), Tools(contents);
            |items| == |tools| && forall i :: 0 <= i < |tools| ==> PrintsTool(items[i], tools[i], text)
  {
    hide PrintsTool, ResponsesRequest.CallJson, ResponsesRequest.OutputJson;
    if contents != [] {
      ToolsPrint(contents[..|contents| - 1], text);
      ToolPrints(contents[|contents| - 1], text);
    }
  }

  lemma {:induction false} PartsPrint(role: string, contents: seq<Content>)
    ensures var parts, texts := ResponsesRequest.Parts(role, contents), OfKind(contents, TextType);
            |parts| == |texts| && forall i :: 0 <= i < |texts| ==>
              && Get(parts[i], "type") == Str(if role == "assistant" then "output_text" else "input_text")
              && Get(parts[i], "text") == Str(texts[i].text)
  {
    if contents != [] {
      PartsPrint(role, contents[..|contents| - 1]);
    }
  }

  /** What a message prints for a Responses target. */
  lemma {:induction false} ResponsesPrints(ms: seq<Message>, m: Message, text: JsonText)
    ensures ResponsesRequest.EncodeItems([], text) == []
    ensures exists items ::
              && PrintsForResponses(items, m, text)
              && ResponsesRequest.EncodeItems(ms + [m], text) == ResponsesRequest.EncodeItems(ms, text) + items
  {
    hide ResponsesRequest.ToolItems, ResponsesRequest.Parts, ResponsesRequest.MessageJson, OfKind, Tools, PrintsTool;
    assert (ms + [m])[..|ms|] == ms;
    var items := if IsSystem(m.role) then [] else ResponsesRequest.EncodeMessage(m, text);
    var before := ResponsesRequest.EncodeItems(ms, text);
    assert before + [] == before;
    ToolsPrint(m.content, text);
    PartsPrint(m.role, m.content);
    ResponsesRequest.MessageFields(m.role, ResponsesRequest.Parts(m.role, m.content));
    hide Get;
    assert PrintsForResponses(items, m, text);
  }
}
