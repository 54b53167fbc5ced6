/** Translating whole requests, and what a translation that succeeds cannot have lost (proxy/codec/canonical.go). */
module Requests {
  import opened Canonical
  import opened Json
  import opened RequestTypes
  import opened Wrappers
  import AnthropicRequest
  import AnthropicRequestRoundTrip
  import ChatRequest
  import ResponsesRequest

  // ---- Top-level keys ---------------------------------------------------------------------

  function PortableKeys(p: Protocol): seq<string> {
    match p
    case OpenAIChat =>
      ["model", "messages", "tools", "tool_choice", "max_tokens", "max_completion_tokens", "temperature", "top_p",
       "stop", "stream"]
    case OpenAIResponses =>
      ["model", "input", "instructions", "tools", "tool_choice", "max_output_tokens", "temperature", "top_p", "stream"]
    case Anthropic =>
      ["model", "max_tokens", "messages", "system", "tools", "tool_choice", "temperature", "top_p", "stop_sequences",
       "stream"]
  }

  function WarnedKeys(p: Protocol): map<string, string> {
    match p
    case OpenAIChat =>
      map["stream_options" := "stream usage options are transport-specific",
          "user" := "user attribution is not portable"]
    case OpenAIResponses =>
      map["metadata" := "metadata is not portable", "store" := "response storage is provider-specific",
          "prompt_cache_key" := "prompt cache routing is provider-specific",
          "client_metadata" := "client metadata is not portable"]
    case Anthropic =>
      map["metadata" := "client attribution is not portable", "service_tier" := "service tier is provider-specific",
          "thinking" := "thinking configuration is provider-specific",
          "context_management" := "context management is provider-specific",
          "output_config" := "output configuration is provider-specific"]
  }

  function KeyDiagnostics(keys: seq<string>, portable: seq<string>, warnings: map<string, string>): seq<Diagnostic> {
    if keys == [] then []
    else
      var before, key := KeyDiagnostics(keys[..|keys| - 1], portable, warnings), keys[|keys| - 1];
      if key in warnings then before + [Warning([Key(key)], warnings[key])]
      else if key !in portable then before
          + [Problem([Key(key)], "field is not supported for cross-protocol conversion")]
      else before
  }

  /** `diagnoseRequestKeys`, over the sorted keys of the request. */
  method DiagnoseKeys(keys: seq<string>, portable: seq<string>, warnings: map<string, string>)
    returns (ds: seq<Diagnostic>)
    ensures ds == KeyDiagnostics(keys, portable, warnings)
  {
    var known: set<string> := {};
    for i := 0 to |portable|
      invariant forall k :: k in known <==> k in portable[..i]
    {
      known := known + {portable[i]};
    }
    known := known + warnings.Keys;
    ds := [];
    for i := 0 to |keys|
      invariant ds == KeyDiagnostics(keys[..i], portable, warnings)
    {
      assert keys[..i + 1][..i] == keys[..i];
      assert portable[..|portable|] == portable;
      if keys[i] in warnings {
        ds := ds + [Warning([Key(keys[i])], warnings[keys[i]])];
      } else if keys[i] !in known {
        ds := ds + [Problem([Key(keys[i])], "field is not supported for cross-protocol conversion")];
      }
    }
    assert keys[..|keys|] == keys;
  }

  // ---- Translation ------------------------------------------------------------------------

  function DecodeMessages(p: Protocol, value: Json, text: JsonText): Read<Message> {
    match p
    case OpenAIChat => ChatRequest.Decode(value, text)
    case OpenAIResponses => ResponsesRequest.Decode(value, text)
    case Anthropic => AnthropicRequest.Decode(value, text)
  }

  // The decoded messages, and the diagnostics of the keys and of the messages.
  function DecodeRequest(p: Protocol, value: Json, keys: seq<string>, text: JsonText): Read<Message> {
    Both(Read([], KeyDiagnostics(keys, PortableKeys(p), WarnedKeys(p))), DecodeMessages(p, value, text))
  }

  function EncodeRequest(p: Protocol, ms: seq<Message>, text: JsonText): (Json, seq<Diagnostic>) {
    match p
    case OpenAIChat => (ChatRequest.Encode(ms, text), [])
    case OpenAIResponses => (ResponsesRequest.Encode(ms, text), [])
    case Anthropic => (AnthropicRequest.Encode(ms), AnthropicRequest.EncodeDiagnostics(ms))
  }

  datatype Translation =
    | Translated(encoded: Json, messages: seq<Message>, diagnostics: seq<Diagnostic>)
    | Blocked(blocking: seq<Diagnostic>)
    | BadBody

  // The body decodes to an object or it does not.
  function Translate(from: Protocol, to: Protocol, body: Json, keys: seq<string>, text: JsonText): Translation {
    if !body.Obj? then BadBody
    else
      var decoded := DecodeRequest(from, body, keys, text);
      if Blocking(decoded.diagnostics) != [] then Blocked(Blocking(decoded.diagnostics))
      else
        var (encoded, more) := EncodeRequest(to, decoded.values, text);
        var all := decoded.diagnostics + more;
        if Blocking(all) != [] then Blocked(Blocking(all)) else Translated(encoded, decoded.values, all)
  }

  method ReadRequest(p: Protocol, value: Json, keys: seq<string>, text: JsonText)
    returns (ms: seq<Message>, ds: seq<Diagnostic>)
    ensures Read(ms, ds) == DecodeRequest(p, value, keys, text)
  {
    hide PortableKeys, WarnedKeys, KeyDiagnostics, AnthropicRequest.DecodeMessages, AnthropicRequest.DecodeSystem,
         ResponsesRequest.DecodeInput, ChatRequest.Decode;
    var report := new Report();
    report.list := DiagnoseKeys(keys, PortableKeys(p), WarnedKeys(p));
    match p {
      case OpenAIChat =>
        ms := ChatRequest.ReadMessages(value, text, report);
      case OpenAIResponses =>
        var instructions := StringOr(Get(value, "instructions"));
        ms := ResponsesRequest.ReadInput(Get(value, "input"), text, report);
        if instructions != "" {
          ms := [Message("developer", [TextContent(instructions)])] + ms;
        }
      case Anthropic =>
        var system := AnthropicRequest.ReadSystem(Get(value, "system"), report);
        ms := AnthropicRequest.ReadMessages(Get(value, "messages"), text, report);
        ms := system + ms;
    }
    ds := report.list;
  }

  /** `TranslateRequest`. */
  method TranslateRequest(from: Protocol, to: Protocol, body: Json, keys: seq<string>, text: JsonText)
    returns (r: Translation)
    ensures r == Translate(from, to, body, keys, text)
    ensures from.Anthropic? && r.Translated? ==> BlocksKept(body, r.messages, r.diagnostics, text)
    ensures from.OpenAIResponses? && r.Translated? ==> ItemsKept(body, r.messages, text)
  {
    NoBlockIsLost(to, body, keys, text);
    NoItemIsLost(to, body, keys, text);
    hide DecodeRequest, Blocking, BlocksKept, ItemsKept;
    if !body.Obj? {
      return BadBody;
    }
    var ms, ds := ReadRequest(from, body, keys, text);
    var blocking := BlockingDiagnostics(ds);
    if |blocking| > 0 {
      return Blocked(blocking);
    }
    var encoded, more;
    match to {
      case OpenAIChat =>
        encoded := ChatRequest.WriteRequest(ms, text);
        more := [];
      case OpenAIResponses =>
        encoded := ResponsesRequest.WriteRequest(ms, text);
        more := [];
      case Anthropic =>
        encoded, more := AnthropicRequest.WriteRequest(ms);
    }
    ds := ds + more;
    blocking := BlockingDiagnostics(ds);
    if |blocking| > 0 {
      return Blocked(blocking);
    }
    return Translated(encoded, ms, ds);
  }

  // ---- Meaning ----------------------------------------------------------------------------

  /**
   * Whatever the source protocol, decoding what a translation printed gives the meaning of the canonical
   * request it decoded: for Anthropic exactly when no call has nil arguments, for the others when the
   * arguments survive their JSON text. A request from Chat is always sensible; one from elsewhere must be.
   */
  lemma {:induction false} TranslationKeepsMeaning(from: Protocol, to: Protocol, body: Json, keys: seq<string>,
                                                   text: JsonText)
    ensures var r := Translate(from, to, body, keys, text);
            r.Translated? && (from.OpenAIChat? || Sensible(r.messages)) ==>
              var back := DecodeMessages(to, r.encoded, text).values;
              if to.Anthropic?
              then SameMeaning(r.messages, back) <==> AnthropicRequestRoundTrip.AllObjectArguments(r.messages)
              else ArgumentsSurvive(r.messages, text) ==> SameMeaning(r.messages, back)
  {
    hide Sensible, SameMeaning, DecodeRequest, Blocking, ArgumentsSurvive, AnthropicRequestRoundTrip.AllObjectArguments,
         ChatRequest.Encode, ResponsesRequest.Encode, AnthropicRequest.Encode, AnthropicRequest.EncodeDiagnostics,
         ChatRequest.Decode, ResponsesRequest.Decode, AnthropicRequest.Decode;
    var r := Translate(from, to, body, keys, text);
    ChatRequest.DecodedIsSensible(body, text);
    TranslatedOnlyWarns(from, to, body, keys, text);
    if r.Translated? && (from.OpenAIChat? || Sensible(r.messages)) {
      match to {
        case OpenAIChat =>
          if ArgumentsSurvive(r.messages, text) {
            ChatRequest.ChatKeepsMeaning(r.messages, text);
          }
        case OpenAIResponses =>
          if ArgumentsSurvive(r.messages, text) {
            ResponsesRequest.ResponsesKeepsMeaning(r.messages, text);
          }
        case Anthropic => AnthropicRequestRoundTrip.AnthropicKeepsMeaning(r.messages, text);
      }
    }
  }

  // ---- No silent loss ---------------------------------------------------------------------

  ghost predicate OnlyWarnings(ds: seq<Diagnostic>) {
    forall d :: d in ds ==> d.warning
  }

  lemma {:induction false} BlockingMeans(ds: seq<Diagnostic>)
    ensures Blocking(ds) == [] <==> OnlyWarnings(ds)
  {
    if ds != [] {
      BlockingMeans(ds[..|ds| - 1]);
      assert ds == ds[..|ds| - 1] + [ds[|ds| - 1]];
    }
  }

  lemma {:induction false} KeysKnown(keys: seq<string>, portable: seq<string>, warnings: map<string, string>)
    ensures OnlyWarnings(KeyDiagnostics(keys, portable, warnings)) <==> forall k :: k in keys ==>
            k in portable || k in warnings
    ensures forall k :: k in keys && k in warnings ==>
            Warning([Key(k)], warnings[k]) in KeyDiagnostics(keys, portable, warnings)
  {
    if keys != [] {
      var n := |keys| - 1;
      KeysKnown(keys[..n], portable, warnings);
      assert keys == keys[..n] + [keys[n]];
    }
  }

  lemma {:induction false} TranslatedOnlyWarns(from: Protocol, to: Protocol, body: Json, keys: seq<string>,
                                               text: JsonText)
    ensures var r := Translate(from, to, body, keys, text);
            r.Translated? ==>
              && body.Obj? && OnlyWarnings(KeyDiagnostics(keys, PortableKeys(from), WarnedKeys(from)))
              && OnlyWarnings(DecodeMessages(from, body, text).diagnostics)
              && r.messages == DecodeMessages(from, body, text).values
              && (forall d :: d in DecodeRequest(from, body, keys, text).diagnostics ==> d in r.diagnostics)
  {
    hide PortableKeys, WarnedKeys, KeyDiagnostics, DecodeMessages, EncodeRequest, Blocking;
    BlockingMeans(DecodeRequest(from, body, keys, text).diagnostics);
    var decoded := DecodeRequest(from, body, keys, text);
    assert forall d :: d in KeyDiagnostics(keys, PortableKeys(from), WarnedKeys(from)) ==> d in decoded.diagnostics;
    assert forall d :: d in DecodeMessages(from, body, text).diagnostics ==> d in decoded.diagnostics;
    assert [] + DecodeMessages(from, body, text).values == DecodeMessages(from, body, text).values;
  }

  // The keys a protocol's requests may have, and those that are warned about.
  predicate MayHave(p: Protocol, key: string) {
    || key in {"model", "tools", "tool_choice", "temperature", "top_p", "stream"}
    || (p.OpenAIChat? && key in {"messages", "max_tokens", "max_completion_tokens", "stop"})
    || (p.OpenAIResponses? && key in {"input", "instructions", "max_output_tokens"})
    || (p.Anthropic? && key in {"messages", "system", "max_tokens", "stop_sequences"})
  }

  predicate IsWarned(p: Protocol, key: string) {
    || (p.OpenAIChat? && key in {"stream_options", "user"})
    || (p.OpenAIResponses? && key in {"metadata", "store", "prompt_cache_key", "client_metadata"})
    || (p.Anthropic? && key in {"metadata", "service_tier", "thinking", "context_management", "output_config"})
  }

  lemma {:induction false} KeysAreKnown(p: Protocol, key: string)
    ensures key in PortableKeys(p) <==> MayHave(p, key)
    ensures key in WarnedKeys(p) <==> IsWarned(p, key)
    ensures !(MayHave(p, key) && IsWarned(p, key))
  {
  }

  // A key that may stand in a request leaves no diagnostic.
  lemma {:induction false} PortableIsSilent(keys: seq<string>, portable: seq<string>, warnings: map<string, string>,
                                            key: string)
    requires key in portable && key !in warnings
    ensures forall d :: d in KeyDiagnostics(keys, portable, warnings) ==> d.path != [Key(key)]
  {
    if keys != [] {
      PortableIsSilent(keys[..|keys| - 1], portable, warnings, key);
    }
  }

  /**
   * If a translation succeeds, every top-level key is one the protocol may have, and left no diagnostic
   * among those of the keys, or one that is warned about, and left its warning.
   */
  lemma {:induction false} NoKeyIsLost(from: Protocol, to: Protocol, body: Json, keys: seq<string>, text: JsonText,
                                       key: string)
    requires body.Obj? && (forall k :: k in body.fields ==> k in keys) && key in body.fields
    ensures var r := Translate(from, to, body, keys, text);
            var told := KeyDiagnostics(keys, PortableKeys(from), WarnedKeys(from));
            r.Translated? ==>
              || (MayHave(from, key) && forall d :: d in told ==> d.path != [Key(key)])
              || (IsWarned(from, key) && exists d :: d in r.diagnostics && d.path == [Key(key)] && d.warning)
  {
    hide PortableKeys, WarnedKeys, KeyDiagnostics, Translate, DecodeMessages, MayHave, IsWarned;
    TranslatedOnlyWarns(from, to, body, keys, text);
    KeysKnown(keys, PortableKeys(from), WarnedKeys(from));
    KeysAreKnown(from, key);
    if MayHave(from, key) {
      PortableIsSilent(keys, PortableKeys(from), WarnedKeys(from), key);
    }
    var ds := KeyDiagnostics(keys, PortableKeys(from), WarnedKeys(from));
    assert forall d :: d in ds ==> d in DecodeRequest(from, body, keys, text).diagnostics;
  }

  // A content block says what a canonical content says.
  predicate Represents(block: Json, c: Content, text: JsonText) {
    var kind := Get(block, "type");
    || (kind == Str("text") && Get(block, "text") == Str(c.text) && c == TextContent(c.text))
    || (kind == Str("tool_use") && Get(block, "id") == Str(c.id) && Get(block, "name") == Str(c.name)
        && Spells(Get(block, "input"), c.arguments, text)
            && c == ToolCallContent(c.id, c.name, c.arguments))
    || (kind == Str("tool_result") && Get(block, "tool_use_id") == Str(c.toolCallID)
        && AnthropicRequest.Says(Get(block, "content"), c.text)
        && c == ToolResultContent(c.toolCallID, c.text, BoolOr(Get(block, "is_error"))))
  }

  predicate IsThinking(block: Json) {
    Get(block, "type") == Str("thinking") || Get(block, "type") == Str("redacted_thinking")
  }

  function WithoutThinking(blocks: seq<Json>): seq<Json> {
    if blocks == [] then []
    else
      var before, b := WithoutThinking(blocks[..|blocks| - 1]), blocks[|blocks| - 1];
      if IsThinking(b) then before else before + [b]
  }

  // One content per block, in order, save for thinking blocks, each of which left a warning.
  ghost predicate Accounted(blocks: seq<Json>, contents: seq<Content>, path: Path, ds: seq<Diagnostic>,
                            text: JsonText) {
    && |WithoutThinking(blocks)| == |contents|
    && (forall i :: 0 <= i < |contents| ==> Represents(WithoutThinking(blocks)[i], contents[i], text))
    && (forall i :: 0 <= i < |blocks| && IsThinking(blocks[i]) ==>
          Warning(path + [At(i)], "extended-thinking history is not portable") in ds)
    && (forall i :: 0 <= i < |blocks| && AsksForCache(blocks[i]) ==>
          Warning(path + [At(i), Key("cache_control")], "prompt cache control is provider-specific") in ds)
  }

  // A text block that asks for a prompt cache.
  predicate AsksForCache(block: Json) {
    Get(block, "type") == Str("text") && Get(block, "cache_control") != Null
  }

  lemma {:induction false} TextAccounted(block: Json, path: Path, text: JsonText)
    requires Get(block, "type") == Str("text")
    ensures var r := AnthropicRequest.DecodeTextBlock(block, path);
            && (OnlyWarnings(r.diagnostics) ==> |r.values| == 1 && Represents(block, r.values[0], text))
            && (AsksForCache(block) ==>
                  Warning(path + [Key("cache_control")], "prompt cache control is provider-specific") in r.diagnostics)
  {
    hide Get, AnthropicRequest.Says, Spells;
    var r := AnthropicRequest.DecodeTextBlock(block, path);
    if OnlyWarnings(r.diagnostics) {
      LastIsNoProblem(r.diagnostics);
    }
  }

  lemma {:induction false} UseAccounted(block: Json, path: Path, text: JsonText)
    requires Get(block, "type") == Str("tool_use")
    ensures var r := AnthropicRequest.DecodeToolUse(block, path, text);
            OnlyWarnings(r.diagnostics) ==> |r.values| == 1 && Represents(block, r.values[0], text)
  {
    hide Get, ParseArguments, AnthropicRequest.Says, Spells;
    var r := AnthropicRequest.DecodeToolUse(block, path, text);
    if OnlyWarnings(r.diagnostics) {
      LastIsNoProblem(r.diagnostics);
      ArgumentsAreSpelled(Get(block, "input"), r.values[0].arguments, text);
    }
  }

  lemma {:induction false} ResultAccounted(block: Json, path: Path, text: JsonText)
    requires Get(block, "type") == Str("tool_result")
    ensures var r := AnthropicRequest.DecodeToolResult(block, path);
            OnlyWarnings(r.diagnostics) ==> |r.values| == 1 && Represents(block, r.values[0], text)
  {
    hide Get, AnthropicRequest.ResultText, AnthropicRequest.Says, Spells;
    var r := AnthropicRequest.DecodeToolResult(block, path);
    if OnlyWarnings(r.diagnostics) {
      LastIsNoProblem(r.diagnostics);
      AnthropicRequest.ResultTextIsSaid(Get(block, "content"));
    }
  }

  lemma {:induction false} BlockAccounted(block: Json, path: Path, text: JsonText)
    ensures var r := AnthropicRequest.DecodeBlock(block, path, text);
            OnlyWarnings(r.diagnostics) ==>
              if IsThinking(block) then r.values == []
                  && Warning(path, "extended-thinking history is not portable") in r.diagnostics
              else
                && |r.values| == 1 && Represents(block, r.values[0], text)
                && (AsksForCache(block) ==>
                      Warning(path + [Key("cache_control")],
                              "prompt cache control is provider-specific") in r.diagnostics)
  {
    hide AnthropicRequest.DecodeTextBlock, AnthropicRequest.DecodeToolUse, AnthropicRequest.DecodeToolResult,
         Represents;
    var r := AnthropicRequest.DecodeBlock(block, path, text);
    if OnlyWarnings(r.diagnostics) {
      LastIsNoProblem(r.diagnostics);
      KindMeans(block);
      hide AnthropicRequest.KindOf, Get;
      if block.Obj? {
        match AnthropicRequest.KindOf(block) {
          case TextBlock => TextAccounted(block, path, text);
          case ToolUseBlock => UseAccounted(block, path, text);
          case ToolResultBlock => ResultAccounted(block, path, text);
          case ThinkingBlock => assert r.diagnostics[0] in r.diagnostics;
          case OtherBlock =>
        }
      }
    }
  }

  lemma {:induction false} LastIsNoProblem(ds: seq<Diagnostic>)
    requires OnlyWarnings(ds)
    ensures ds != [] ==> ds[|ds| - 1].warning
  {
  }

  lemma {:induction false} KindMeans(block: Json)
    ensures match AnthropicRequest.KindOf(block)
            case TextBlock => Get(block, "type") == Str("text")
            case ToolUseBlock => Get(block, "type") == Str("tool_use")
            case ToolResultBlock => Get(block, "type") == Str("tool_result")
            case ThinkingBlock => IsThinking(block)
            case OtherBlock => true
    ensures IsThinking(block) ==> AnthropicRequest.KindOf(block).ThinkingBlock?
  {
  }

  lemma {:induction false} ThinkingAsksNothing(block: Json)
    ensures IsThinking(block) ==> !AsksForCache(block)
  {
  }

  lemma {:induction false} BlocksAccounted(blocks: seq<Json>, path: Path, text: JsonText)
    ensures var r := AnthropicRequest.DecodeBlocks(blocks, path, text);
            OnlyWarnings(r.diagnostics) ==> Accounted(blocks, r.values, path, r.diagnostics, text)
  {
    hide AnthropicRequest.DecodeBlock, IsThinking, Represents, OnlyWarnings, AsksForCache;
    if blocks != [] {
      var n := |blocks| - 1;
      var before, last := AnthropicRequest.DecodeBlocks(blocks[..n], path, text),
                          AnthropicRequest.DecodeBlock(blocks[n], path + [At(n)], text);
      BlocksAccounted(blocks[..n], path, text);
      BlockAccounted(blocks[n], path + [At(n)], text);
      ThinkingAsksNothing(blocks[n]);
      assert path + [At(n)] + [Key("cache_control")] == path + [At(n), Key("cache_control")];
      BothOnlyWarn(before.diagnostics, last.diagnostics);
      if OnlyWarnings(before.diagnostics) && OnlyWarnings(last.diagnostics) {
        hide AnthropicRequest.DecodeBlocks;
        if IsThinking(blocks[n]) {
          assert before.values + last.values == before.values;
        } else {
          assert last.values == [last.values[0]];
        }
      }
    }
  }

  // One canonical message per message, with the same role and its content accounted for.
  ghost predicate MessageAccounted(item: Json, m: Message, index: nat, ds: seq<Diagnostic>, text: JsonText) {
    && Get(item, "role") == Str(m.role)
    && var content, path := Get(item, "content"), AnthropicRequest.MESSAGES + [At(index), Key("content")];
       if content.Str? then m.content == [TextContent(content.s)]
       else content.Arr? && Accounted(content.items, m.content, path, ds, text)
  }

  lemma {:induction false} OneMessageAccounted(item: Json, index: nat, text: JsonText)
    ensures var r := AnthropicRequest.DecodeMessage(item, index, text);
            OnlyWarnings(r.diagnostics) ==>
                |r.values| == 1 && MessageAccounted(item, r.values[0], index, r.diagnostics, text)
  {
    hide Accounted, AnthropicRequest.DecodeBlocks;
    var r := AnthropicRequest.DecodeMessage(item, index, text);
    var path := AnthropicRequest.MESSAGES + [At(index)];
    assert path + [Key("content")] == AnthropicRequest.MESSAGES + [At(index), Key("content")];
    if OnlyWarnings(r.diagnostics) {
      LastIsNoProblem(r.diagnostics);
      var content := Get(item, "content");
      if content.Arr? {
        BlocksAccounted(content.items, path + [Key("content")], text);
      }
    }
  }

  lemma {:induction false} MoreDiagnostics(item: Json, m: Message, index: nat, ds: seq<Diagnostic>, es: seq<Diagnostic>,
                                           text: JsonText)
    requires MessageAccounted(item, m, index, ds, text) && forall d :: d in ds ==> d in es
    ensures MessageAccounted(item, m, index, es, text)
  {
    hide Represents, IsThinking, AsksForCache;
  }

  // Every message became exactly one canonical message, in order.
  ghost predicate AllAccounted(items: seq<Json>, ms: seq<Message>, ds: seq<Diagnostic>, text: JsonText) {
    |ms| == |items| && forall i :: 0 <= i < |items| ==> MessageAccounted(items[i], ms[i], i, ds, text)
  }

  lemma {:induction false} AllWithMore(items: seq<Json>, ms: seq<Message>, ds: seq<Diagnostic>, es: seq<Diagnostic>,
                                       text: JsonText)
    requires AllAccounted(items, ms, ds, text) && forall d :: d in ds ==> d in es
    ensures AllAccounted(items, ms, es, text)
  {
    hide MessageAccounted;
    forall i | 0 <= i < |items|
      ensures MessageAccounted(items[i], ms[i], i, es, text)
    {
      MoreDiagnostics(items[i], ms[i], i, ds, es, text);
    }
  }

  lemma {:induction false} MessagesAccounted(items: seq<Json>, text: JsonText)
    ensures var r := AnthropicRequest.DecodeItems(items, text);
            OnlyWarnings(r.diagnostics) ==> AllAccounted(items, r.values, r.diagnostics, text)
  {
    hide AnthropicRequest.DecodeMessage, MessageAccounted;
    if items != [] {
      var n := |items| - 1;
      var r := AnthropicRequest.DecodeItems(items, text);
      var before, last := AnthropicRequest.DecodeItems(items[..n], text),
          AnthropicRequest.DecodeMessage(items[n], n, text);
      assert r == Both(before, last);
      assert forall d :: d in before.diagnostics ==> d in r.diagnostics;
      assert forall d :: d in last.diagnostics ==> d in r.diagnostics;
      MessagesAccounted(items[..n], text);
      OneMessageAccounted(items[n], n, text);
      if OnlyWarnings(r.diagnostics) {
        AllWithMore(items[..n], before.values, before.diagnostics, r.diagnostics, text);
        MoreDiagnostics(items[n], last.values[0], n, last.diagnostics, r.diagnostics, text);
      }
    }
  }

  // What is decoded: the system message, if any, and the messages.
  lemma {:induction false} RequestAccounted(body: Json, text: JsonText)
    ensures var r, system := AnthropicRequest.Decode(body, text), AnthropicRequest.DecodeSystem(Get(body, "system"));
            OnlyWarnings(r.diagnostics) ==>
              && Get(body, "messages").Arr? && system.values <= r.values
              && AllAccounted(Get(body, "messages").items, r.values[|system.values|..], r.diagnostics, text)
  {
    hide AllAccounted, AnthropicRequest.DecodeItems, OnlyWarnings, AnthropicRequest.DecodeSystem, Get;
    var items := Get(body, "messages");
    var system, rest := AnthropicRequest.DecodeSystem(Get(body, "system")),
        AnthropicRequest.DecodeMessages(items, text);
    var r := AnthropicRequest.Decode(body, text);
    BothOnlyWarn(system.diagnostics, rest.diagnostics);
    NotAnArray(items, text);
    if OnlyWarnings(r.diagnostics) {
      MessagesAccounted(items.items, text);
      assert forall d :: d in rest.diagnostics ==> d in r.diagnostics;
      AllWithMore(items.items, rest.values, rest.diagnostics, r.diagnostics, text);
      assert r.values[|system.values|..] == rest.values;
    }
  }

  ghost predicate BlocksKept(body: Json, ms: seq<Message>, ds: seq<Diagnostic>, text: JsonText) {
    var items, system := Get(body, "messages"), AnthropicRequest.DecodeSystem(Get(body, "system")).values;
    && items.Arr? && |system| <= 1 && system <= ms
    && AllAccounted(items.items, ms[|system|..], ds, text)
  }

  /**
   * If a translation from Anthropic succeeds, after at most one system message there is exactly one
   * canonical message per message, and in each exactly one content per content block, in order, except
   * thinking blocks, each of which left a warning, as did every request for a prompt cache.
   */
  lemma {:induction false} NoBlockIsLost(to: Protocol, body: Json, keys: seq<string>, text: JsonText)
    ensures var r := Translate(Anthropic, to, body, keys, text);
            r.Translated? ==> BlocksKept(body, r.messages, r.diagnostics, text)
  {
    hide AllAccounted, Translate, KeyDiagnostics, PortableKeys, WarnedKeys, OnlyWarnings, Get,
         AnthropicRequest.DecodeSystem, AnthropicRequest.Decode;
    TranslatedOnlyWarns(Anthropic, to, body, keys, text);
    SystemIsOne(Get(body, "system"));
    RequestAccounted(body, text);
    var r, decoded := Translate(Anthropic, to, body, keys, text), AnthropicRequest.Decode(body, text);
    if r.Translated? {
      var system := AnthropicRequest.DecodeSystem(Get(body, "system")).values;
      assert forall d :: d in decoded.diagnostics ==> d in DecodeRequest(Anthropic, body, keys, text).diagnostics;
      AllWithMore(Get(body, "messages").items, r.messages[|system|..], decoded.diagnostics, r.diagnostics, text);
    }
  }

  lemma {:induction false} SystemIsOne(value: Json)
    ensures |AnthropicRequest.DecodeSystem(value).values| <= 1
  {
  }

  lemma {:induction false} BothOnlyWarn(p: seq<Diagnostic>, q: seq<Diagnostic>)
    ensures OnlyWarnings(p + q) <==> OnlyWarnings(p) && OnlyWarnings(q)
  {
    assert forall d :: d in p + q <==> d in p || d in q;
  }

  lemma {:induction false} NotAnArray(items: Json, text: JsonText)
    ensures OnlyWarnings(AnthropicRequest.DecodeMessages(items, text).diagnostics) ==> items.Arr?
  {
    if !items.Arr? {
      assert AnthropicRequest.DecodeMessages(items, text).diagnostics[0] in AnthropicRequest.DecodeMessages(items,
             text).diagnostics;
    }
  }

  // ---- Responses --------------------------------------------------------------------------

  // An input item says what a canonical message says.
  predicate ItemRepresents(item: Json, m: Message, text: JsonText) {
    var kind := StringOr(Get(item, "type"));
    if kind == "function_call" then
      m.role == "assistant" && |m.content| == 1 && m.content[0].kind.ToolCallType?
      && NamesCall(item, m.content[0].id) && Get(item, "name") == Str(m.content[0].name)
      && Spells(Get(item, "arguments"), m.content[0].arguments, text)
    else if kind == "function_call_output" then
      m.role == "user" && |m.content| == 1 && m.content[0].kind.ToolResultType?
      && Get(item, "call_id") == Str(m.content[0].toolCallID)
      && m.content[0].text == (if Get(item, "output").Str? then Get(item, "output").s
                               else text.marshal(Get(item, "output")))
    else
      kind in {"", "message"} && Get(item, "role") == Str(m.role) && PartsRepresent(Get(item, "content"), m.content)
  }

  // The id of a call is its call_id, or its id where that says nothing.
  predicate NamesCall(item: Json, id: string) {
    id != "" &&
    (Get(item, "call_id") == Str(id) || (StringOr(Get(item, "call_id")) == "" && Get(item, "id") == Str(id)))
  }

  predicate PartsRepresent(value: Json, contents: seq<Content>) {
    if value.Str? then contents == [TextContent(value.s)]
    else
      value.Arr? && |contents| == |value.items|
      && forall i :: 0 <= i < |contents| ==>
          contents[i].kind.TextType? && Get(value.items[i], "text") == Str(contents[i].text)
  }

  // The Responses decoder has no warnings of its own: every diagnostic of its items blocks.
  lemma {:induction false} PartsAccounted(items: seq<Json>, path: Path)
    ensures var r := ResponsesRequest.DecodeParts(items, path);
            OnlyWarnings(r.diagnostics) ==> PartsRepresent(Arr(items), r.values)
  {
    hide ResponsesRequest.DecodePart, OnlyWarnings, Get;
    if items != [] {
      var n := |items| - 1;
      var r, before, last := ResponsesRequest.DecodeParts(items, path), ResponsesRequest.DecodeParts(items[..n], path),
                             ResponsesRequest.DecodePart(items[n], path + [At(n)]);
      assert r == Both(before, last);
      PartsAccounted(items[..n], path);
      BothOnlyWarn(before.diagnostics, last.diagnostics);
      PartAccounted(items[n], path + [At(n)]);
    }
  }

  lemma {:induction false} PartAccounted(item: Json, path: Path)
    ensures var r := ResponsesRequest.DecodePart(item, path);
            OnlyWarnings(r.diagnostics) ==>
              |r.values| == 1 && r.values[0].kind.TextType? && Get(item, "text") == Str(r.values[0].text)
  {
    var r := ResponsesRequest.DecodePart(item, path);
    if OnlyWarnings(r.diagnostics) {
      LastIsNoProblem(r.diagnostics);
    }
  }

  lemma {:induction false} MessageItemAccounted(item: Json, path: Path)
    ensures var r := ResponsesRequest.DecodeMessageItem(item, path);
            OnlyWarnings(r.diagnostics) ==>
              && |r.values| == 1 && Get(item, "role") == Str(r.values[0].role)
              && PartsRepresent(Get(item, "content"), r.values[0].content)
  {
    hide ResponsesRequest.DecodeParts, Get;
    var r, content := ResponsesRequest.DecodeMessageItem(item, path), Get(item, "content");
    if OnlyWarnings(r.diagnostics) {
      LastIsNoProblem(r.diagnostics);
      if content.Arr? {
        PartsAccounted(content.items, path + [Key("content")]);
      }
      hide OnlyWarnings, PartsRepresent;
      if content.Str? {
        TextRepresents(content);
      }
    }
  }

  lemma {:induction false} TextRepresents(value: Json)
    requires value.Str?
    ensures PartsRepresent(value, [TextContent(value.s)])
  {
  }

  lemma {:induction false} CallIsNamed(item: Json)
    ensures ResponsesRequest.CallID(item) != "" ==> NamesCall(item, ResponsesRequest.CallID(item))
  {
  }

  lemma {:induction false} CallAccounted(item: Json, path: Path, text: JsonText)
    requires StringOr(Get(item, "type")) == "function_call"
    ensures var r := ResponsesRequest.DecodeCall(item, path, text);
            OnlyWarnings(r.diagnostics) ==> |r.values| == 1 && ItemRepresents(item, r.values[0], text)
  {
    CallIsNamed(item);
    hide Get, ParseArguments, ResponsesRequest.CallID, NamesCall;
    var r := ResponsesRequest.DecodeCall(item, path, text);
    if OnlyWarnings(r.diagnostics) {
      LastIsNoProblem(r.diagnostics);
      ArgumentsAreSpelled(Get(item, "arguments"), r.values[0].content[0].arguments, text);
    }
  }

  lemma {:induction false} OutputAccounted(item: Json, path: Path, text: JsonText)
    requires StringOr(Get(item, "type")) == "function_call_output"
    ensures var r := ResponsesRequest.DecodeOutput(item, path, text);
            OnlyWarnings(r.diagnostics) ==> |r.values| == 1 && ItemRepresents(item, r.values[0], text)
  {
    hide Get;
    var r := ResponsesRequest.DecodeOutput(item, path, text);
    if OnlyWarnings(r.diagnostics) {
      LastIsNoProblem(r.diagnostics);
    }
  }

  lemma {:induction false} ItemAccounted(item: Json, index: nat, text: JsonText)
    ensures var r := ResponsesRequest.DecodeItem(item, index, text);
            OnlyWarnings(r.diagnostics) ==> |r.values| == 1 && ItemRepresents(item, r.values[0], text)
  {
    hide ResponsesRequest.DecodeMessageItem, ResponsesRequest.DecodeCall, ResponsesRequest.DecodeOutput, ParseArguments,
         ResponsesRequest.CallID, Get, PartsRepresent, OnlyWarnings, NamesCall;
    var r, path := ResponsesRequest.DecodeItem(item, index, text), ResponsesRequest.INPUT + [At(index)];
    if OnlyWarnings(r.diagnostics) {
      LastIsNoProblem(r.diagnostics);
      match ResponsesRequest.KindOf(item)
      case MessageItem => MessageItemAccounted(item, path);
      case CallItem => CallAccounted(item, path, text);
      case OutputItem => OutputAccounted(item, path, text);
      case _ =>
    }
  }

  lemma {:induction false} ItemsAccounted(items: seq<Json>, text: JsonText)
    ensures var r := ResponsesRequest.DecodeItems(items, text);
            OnlyWarnings(r.diagnostics) ==>
              |r.values| == |items| && forall i :: 0 <= i < |items| ==> ItemRepresents(items[i], r.values[i], text)
  {
    hide ResponsesRequest.DecodeItem, ItemRepresents, OnlyWarnings;
    if items != [] {
      var n := |items| - 1;
      var r, before, last := ResponsesRequest.DecodeItems(items, text), ResponsesRequest.DecodeItems(items[..n], text),
                             ResponsesRequest.DecodeItem(items[n], n, text);
      assert r == Both(before, last);
      ItemsAccounted(items[..n], text);
      BothOnlyWarn(before.diagnostics, last.diagnostics);
      ItemAccounted(items[n], n, text);
    }
  }

  // The message of the instructions, if they say anything.
  function Instructed(value: Json): seq<Message> {
    if value.Str? && value.s != "" then [Message("developer", [TextContent(value.s)])] else []
  }

  lemma {:induction false} InputIsRead(value: Json, text: JsonText)
    ensures OnlyWarnings(ResponsesRequest.DecodeInput(value, text).diagnostics) ==> value.Str? || value.Arr?
  {
    hide ResponsesRequest.DecodeItems;
    var ds := ResponsesRequest.DecodeInput(value, text).diagnostics;
    if !value.Str? && !value.Arr? {
      assert ds[0] in ds;
    }
  }

  predicate ItemsKept(body: Json, ms: seq<Message>, text: JsonText) {
    var items, told := Get(body, "input"), Instructed(Get(body, "instructions"));
    if items.Str? then ms == told + [Message("user", [TextContent(items.s)])]
    else
      && items.Arr? && told <= ms && |ms| == |told| + |items.items|
      && forall i :: 0 <= i < |items.items| ==> ItemRepresents(items.items[i], ms[|told| + i], text)
  }

  lemma {:induction false} InstructionsAreRead(value: Json)
    ensures ResponsesRequest.DecodeInstructions(value) == Read(Instructed(value), [])
  {
  }

  lemma {:induction false} InputAccounted(body: Json, text: JsonText)
    ensures var r := ResponsesRequest.Decode(body, text);
            OnlyWarnings(r.diagnostics) ==> ItemsKept(body, r.values, text)
  {
    hide ItemRepresents, ResponsesRequest.DecodeItems, OnlyWarnings, Get, ResponsesRequest.DecodeInstructions,
         Instructed;
    var items, r := Get(body, "input"), ResponsesRequest.Decode(body, text);
    InstructionsAreRead(Get(body, "instructions"));
    var told, rest := Instructed(Get(body, "instructions")), ResponsesRequest.DecodeInput(items, text);
    assert r.values == told + rest.values && r.diagnostics == [] + rest.diagnostics == rest.diagnostics;
    if OnlyWarnings(r.diagnostics) {
      InputIsRead(items, text);
      ItemsAccounted(if items.Arr? then items.items else [], text);
    }
  }

  /**
   * If a translation from Responses succeeds, after the message of the instructions a text is one message
   * of the user, and of a list every item became exactly one canonical message, in order.
   */
  lemma {:induction false} NoItemIsLost(to: Protocol, body: Json, keys: seq<string>, text: JsonText)
    ensures var r := Translate(OpenAIResponses, to, body, keys, text);
            r.Translated? ==> ItemsKept(body, r.messages, text)
  {
    hide ItemsKept, Translate, ResponsesRequest.Decode, KeyDiagnostics, PortableKeys, WarnedKeys, OnlyWarnings;
    TranslatedOnlyWarns(OpenAIResponses, to, body, keys, text);
    InputAccounted(body, text);
  }
}
