/** What an encoded Anthropic request decodes to, its normal form, and what a decoded one keeps. */
module AnthropicRequestRoundTrip {
  import opened AnthropicRequest
  import opened Canonical
  import opened Json
  import opened RequestTypes
  import opened Sequences
  import opened Texts

  // ---- The normal form --------------------------------------------------------------------

  // The contents the wire carries, as a decoder builds them.
  function Kept(c: Content): seq<Content> {
    match c.kind
    case TextType => [TextContent(c.text)]
    case ToolCallType => [ToolCallContent(c.id, c.name, c.arguments)]
    case ToolResultType => [ToolResultContent(c.toolCallID, c.text, c.isError)]
    case _ => []
  }

  function KeptAll(contents: seq<Content>): seq<Content> {
    if contents == [] then [] else KeptAll(contents[..|contents| - 1]) + Kept(contents[|contents| - 1])
  }

  function Merge(out: seq<Message>, role: string, contents: seq<Content>): seq<Message> {
    if contents == [] then out
    else if |out| > 0 && out[|out| - 1].role == role then
      out[|out| - 1 := Message(role, out[|out| - 1].content + contents)]
    else out + [Message(role, contents)]
  }

  // A request without its system messages, every run of one side merged into one message.
  function Grouped(ms: seq<Message>): seq<Message> {
    if ms == [] then []
    else
      var before, m := Grouped(ms[..|ms| - 1]), ms[|ms| - 1];
      if IsSystem(m.role) then before else Merge(before, OutRole(m.role), KeptAll(m.content))
  }

  predicate Alternates(roles: seq<string>) {
    forall i :: 0 < i < |roles| ==> roles[i - 1] != roles[i]
  }

  function Roles(out: seq<Turn>): seq<string> {
    seq(|out|, i requires 0 <= i < |out| => out[i].role)
  }

  ghost predicate Normal(ms: seq<Message>) {
    && (forall i :: 0 < i < |ms| ==> ms[i - 1].role != ms[i].role)
    && (forall m :: m in ms ==> NormalMessage(m))
  }

  predicate NormalMessage(m: Message) {
    m.role in {"user", "assistant"} && m.content != [] && KeptAll(m.content) == m.content
  }

  lemma {:induction false} KeptConcat(p: seq<Content>, q: seq<Content>)
    ensures KeptAll(p + q) == KeptAll(p) + KeptAll(q)
    decreases |q|
  {
    hide Kept;
    if q == [] {
      assert p + q == p;
    } else {
      var n, whole := |q| - 1, p + q;
      assert whole[..|whole| - 1] == p + q[..n] && whole[|whole| - 1] == q[n];
      KeptConcat(p, q[..n]);
      Associative(KeptAll(p), KeptAll(q[..n]), Kept(q[n]));
    }
  }

  lemma {:induction false} KeptTwice(contents: seq<Content>)
    ensures KeptAll(KeptAll(contents)) == KeptAll(contents)
  {
    if contents != [] {
      var n := |contents| - 1;
      KeptTwice(contents[..n]);
      KeptConcat(KeptAll(contents[..n]), Kept(contents[n]));
      KeptOnce(contents[n]);
    }
  }

  lemma {:induction false} KeptOnce(c: Content)
    ensures KeptAll(Kept(c)) == Kept(c)
  {
    var k := Kept(c);
    if k != [] {
      assert k[..0] == [] && k == [k[0]];
    }
  }

  lemma {:induction false} MergeIsNormal(out: seq<Message>, role: string, contents: seq<Content>)
    requires Normal(out) && role in {"user", "assistant"} && KeptAll(contents) == contents
    ensures Normal(Merge(out, role, contents))
  {
    hide KeptAll, Normal;
    if contents != [] {
      var n := |out| - 1;
      if |out| > 0 && out[n].role == role {
        NormalLast(out, n);
        NormalPrefix(out, n);
        KeptConcat(out[n].content, contents);
        var last := Message(role, out[n].content + contents);
        assert Merge(out, role, contents) == out[..n] + [last];
        NormalOneMore(out[..n], last);
      } else {
        MergeAppends(out, role, contents);
        NormalOneMore(out, Message(role, contents));
      }
    }
  }

  lemma {:induction false} NormalOneMore(ms: seq<Message>, m: Message)
    requires Normal(ms) && NormalMessage(m) && (ms != [] ==> ms[|ms| - 1].role != m.role)
    ensures Normal(ms + [m])
  {
    hide NormalMessage;
  }

  lemma {:induction false} GroupedIsNormal(ms: seq<Message>)
    ensures Normal(Grouped(ms))
  {
    hide Merge;
    if ms != [] {
      var m := ms[|ms| - 1];
      GroupedIsNormal(ms[..|ms| - 1]);
      if !IsSystem(m.role) {
        KeptTwice(m.content);
        MergeIsNormal(Grouped(ms[..|ms| - 1]), OutRole(m.role), KeptAll(m.content));
      }
    }
  }

  lemma {:induction false} NormalPrefix(ms: seq<Message>, n: nat)
    requires Normal(ms) && n <= |ms|
    ensures Normal(ms[..n])
  {
    hide KeptAll;
    assert forall m :: m in ms[..n] ==> m in ms;
  }

  lemma {:induction false} MergeAppends(out: seq<Message>, role: string, contents: seq<Content>)
    requires contents != [] && (|out| > 0 ==> out[|out| - 1].role != role)
    ensures Merge(out, role, contents) == out + [Message(role, contents)]
  {
  }

  lemma {:induction false} NormalLast(ms: seq<Message>, n: nat)
    requires Normal(ms) && n + 1 == |ms|
    ensures !IsSystem(ms[n].role) && OutRole(ms[n].role) == ms[n].role && ms[n].role in {"user", "assistant"}
    ensures ms[n].content != [] && KeptAll(ms[n].content) == ms[n].content
    ensures n > 0 ==> ms[..n][n - 1].role != ms[n].role
  {
    hide KeptAll;
    assert ms[n] in ms;
  }

  // Grouping a normal form changes nothing.
  lemma {:induction false} GroupedTwice(ms: seq<Message>)
    requires Normal(ms)
    ensures Grouped(ms) == ms
  {
    hide Normal, Merge, KeptAll, OutRole, IsSystem;
    if ms != [] {
      var n := |ms| - 1;
      NormalPrefix(ms, n);
      NormalLast(ms, n);
      GroupedTwice(ms[..n]);
      MergeAppends(ms[..n], ms[n].role, ms[n].content);
      assert ms == ms[..n] + [Message(ms[n].role, ms[n].content)];
    }
  }

  // ---- Encoding prints the normal form ----------------------------------------------------

  function TurnsOf(ms: seq<Message>): (r: seq<Turn>)
    ensures |r| == |ms|
  {
    seq(|ms|, i requires 0 <= i < |ms| => Turn(ms[i].role, EncodeItems(ms[i].content)))
  }

  lemma {:induction false} EncodeItemsConcat(p: seq<Content>, q: seq<Content>)
    ensures EncodeItems(p + q) == EncodeItems(p) + EncodeItems(q)
    decreases |q|
  {
    hide EncodeItem;
    if q == [] {
      assert p + q == p;
    } else {
      assert (p + q)[..|p + q| - 1] == p + q[..|q| - 1];
      EncodeItemsConcat(p, q[..|q| - 1]);
    }
  }

  lemma {:induction false} EncodeKept(contents: seq<Content>)
    ensures EncodeItems(KeptAll(contents)) == EncodeItems(contents) && |EncodeItems(contents)| == |KeptAll(contents)|
  {
    hide EncodeItem, Kept;
    if contents != [] {
      var n := |contents| - 1;
      EncodeKept(contents[..n]);
      EncodeItemsConcat(KeptAll(contents[..n]), Kept(contents[n]));
      EncodeKeptItem(contents[n]);
    }
  }

  lemma {:induction false} EncodeKeptItem(c: Content)
    ensures EncodeItems(Kept(c)) == EncodeItem(c) && |EncodeItem(c)| == |Kept(c)|
  {
    var k := Kept(c);
    if k != [] {
      assert k[..0] == [] && k == [k[0]];
    }
  }

  lemma {:induction false} EncodePrintsGrouped(ms: seq<Message>)
    ensures EncodeTurns(ms) == TurnsOf(Grouped(ms))
  {
    hide EncodeItem, Kept, EncodeItems, KeptAll;
    if ms != [] {
      var before, m := Grouped(ms[..|ms| - 1]), ms[|ms| - 1];
      EncodePrintsGrouped(ms[..|ms| - 1]);
      if !IsSystem(m.role) {
        EncodeKept(m.content);
        if |before| > 0 {
          EncodeItemsConcat(before[|before| - 1].content, KeptAll(m.content));
        }
        assert EncodeTurns(ms) == TurnsOf(Grouped(ms));
      }
    }
  }

  // One block of JSON with the side it is on.
  datatype Tagged = Tagged(role: string, block: Json)

  function Tag(role: string, blocks: seq<Json>): seq<Tagged> {
    seq(|blocks|, i requires 0 <= i < |blocks| => Tagged(role, blocks[i]))
  }

  function FlatTurns(out: seq<Turn>): seq<Tagged> {
    if out == [] then [] else FlatTurns(out[..|out| - 1]) + Tag(out[|out| - 1].role, out[|out| - 1].blocks)
  }

  // The blocks of the input's non-system messages, in order.
  function FlatBlocks(ms: seq<Message>): seq<Tagged> {
    if ms == [] then []
    else
      var before, m := FlatBlocks(ms[..|ms| - 1]), ms[|ms| - 1];
      if IsSystem(m.role) then before else before + Tag(OutRole(m.role), EncodeItems(m.content))
  }

  lemma {:induction false} FlatAppend(out: seq<Turn>, role: string, blocks: seq<Json>)
    ensures FlatTurns(AppendMessage(out, role, blocks)) == FlatTurns(out) + Tag(role, blocks)
  {
    var n, after := |out| - 1, AppendMessage(out, role, blocks);
    if blocks == [] {
      assert FlatTurns(out) + Tag(role, blocks) == FlatTurns(out);
    } else if |out| > 0 && out[n].role == role {
      assert after[..n] == out[..n];
      assert Tag(role, out[n].blocks + blocks) == Tag(role, out[n].blocks) + Tag(role, blocks);
    } else {
      assert after[..|out|] == out;
    }
  }

  lemma {:induction false} FlattenGivesInput(ms: seq<Message>)
    ensures FlatTurns(EncodeTurns(ms)) == FlatBlocks(ms)
  {
    hide EncodeItems, AppendMessage, Tag;
    if ms != [] {
      var m := ms[|ms| - 1];
      FlattenGivesInput(ms[..|ms| - 1]);
      if !IsSystem(m.role) {
        FlatAppend(EncodeTurns(ms[..|ms| - 1]), OutRole(m.role), EncodeItems(m.content));
      }
    }
  }

  /**
   * The encoder reaches a normal form: no two adjacent messages share a role, none is empty, and
   * flattening the output gives the input's non-system blocks in order.
   */
  lemma {:induction false} EncoderNormalizes(ms: seq<Message>)
    ensures var out := EncodeTurns(ms);
            && Alternates(Roles(out))
            && (forall t :: t in out ==> t.blocks != [] && t.role in {"user", "assistant"})
            && FlatTurns(out) == FlatBlocks(ms)
  {
    EncodePrintsGrouped(ms);
    GroupedIsNormal(ms);
    FlattenGivesInput(ms);
    var out, ns := EncodeTurns(ms), Grouped(ms);
    forall t | t in out
      ensures t.blocks != [] && t.role in {"user", "assistant"}
    {
      var i :| 0 <= i < |out| && out[i] == t;
      assert ns[i] in ns;
      EncodeKept(ns[i].content);
    }
  }

  // ---- Decoding reads it back -------------------------------------------------------------

  // Nil arguments print as null, which the decoder refuses.
  predicate IsNil(c: Content) {
    c.kind.ToolCallType? && !c.arguments.Obj?
  }

  ghost predicate ObjectArguments(contents: seq<Content>) {
    forall c :: c in contents ==> !IsNil(c)
  }

  // Every call that is printed has an object for arguments.
  ghost predicate AllObjectArguments(ms: seq<Message>) {
    forall m :: m in ms && !IsSystem(m.role) ==> ObjectArguments(m.content)
  }

  // The contents the decoder takes.
  function Held(c: Content): seq<Content> {
    if IsNil(c) then [] else Kept(c)
  }

  function HeldAll(contents: seq<Content>): seq<Content> {
    if contents == [] then [] else HeldAll(contents[..|contents| - 1]) + Held(contents[|contents| - 1])
  }

  function Thinned(ms: seq<Message>): (r: seq<Message>)
    ensures |r| == |ms|
  {
    seq(|ms|, i requires 0 <= i < |ms| => Message(ms[i].role, HeldAll(ms[i].content)))
  }

  lemma {:induction false} ObjectsOneMore(contents: seq<Content>, c: Content)
    ensures ObjectArguments(contents + [c]) <==> ObjectArguments(contents) && !IsNil(c)
  {
    hide IsNil;
    assert forall x :: x in contents + [c] <==> x in contents || x == c;
  }

  lemma {:induction false} AllObjectsOneMore(ms: seq<Message>, m: Message)
    ensures AllObjectArguments(ms + [m]) <==>
            AllObjectArguments(ms) && (!IsSystem(m.role) ==> ObjectArguments(m.content))
  {
    hide ObjectArguments, IsSystem;
    assert forall x :: x in ms + [m] <==> x in ms || x == m;
  }

  lemma {:induction false} NothingHeld()
    ensures ObjectArguments([]) && AllObjectArguments([]) && HeldAll([]) == []
  {
  }

  // What is printed once is taken whole exactly when no call has nil arguments.
  lemma {:induction false} HeldIsKept(contents: seq<Content>)
    ensures |HeldAll(contents)| <= |KeptAll(contents)|
    ensures |HeldAll(contents)| == |KeptAll(contents)| <==> ObjectArguments(contents)
    ensures ObjectArguments(contents) ==> HeldAll(contents) == KeptAll(contents)
  {
    hide ObjectArguments;
    if contents == [] {
      NothingHeld();
    } else {
      var n := |contents| - 1;
      HeldIsKept(contents[..n]);
      assert contents == contents[..n] + [contents[n]];
      ObjectsOneMore(contents[..n], contents[n]);
    }
  }

  lemma {:induction false} DecodesText(s: string, path: Path, text: JsonText)
    ensures DecodeBlock(TextJson(s), path, text) == Read([TextContent(s)], [])
  {
  }

  lemma {:induction false} ToolUseFields(id: string, name: string, arguments: Arguments)
    ensures var item := ToolUseJson(id, name, arguments);
            && item.Obj? && Get(item, "type") == Str("tool_use") && Get(item, "id") == Str(id)
            && Get(item, "name") == Str(name) && Get(item, "input") == arguments
  {
  }

  lemma {:induction false} DecodesToolUse(id: string, name: string, arguments: Arguments, path: Path, text: JsonText)
    requires arguments.Obj?
    ensures DecodeBlock(ToolUseJson(id, name, arguments), path, text) ==
            Read([ToolCallContent(id, name, arguments)], [])
  {
    ToolUseFields(id, name, arguments);
    var item := ToolUseJson(id, name, arguments);
    hide ToolUseJson, Get;
    assert KindOf(item) == ToolUseBlock;
  }

  lemma {:induction false} DecodesToolResult(callID: string, s: string, isError: bool, path: Path, text: JsonText)
    ensures DecodeBlock(ToolResultJson(callID, s, isError), path, text) ==
            Read([ToolResultContent(callID, s, isError)], [])
  {
    var item := ToolResultJson(callID, s, isError);
    assert Get(item, "type") == Str("tool_result") && Get(item, "tool_use_id") == Str(callID)
           && Get(item, "content") == Str(s);
    assert KindOf(item) == ToolResultBlock;
    assert BoolOr(Get(item, "is_error")) == isError;
  }

  lemma {:induction false} RefusesNil(id: string, name: string, arguments: Arguments, path: Path, text: JsonText)
    requires !arguments.Obj?
    ensures var r := DecodeBlock(ToolUseJson(id, name, arguments), path, text); r.values == [] && r.diagnostics != []
  {
    ToolUseFields(id, name, arguments);
    var item := ToolUseJson(id, name, arguments);
    hide ToolUseJson, Get;
    assert KindOf(item) == ToolUseBlock;
  }

  lemma {:induction false} DecodesItem(c: Content, path: Path, text: JsonText)
    ensures |EncodeItem(c)| == |Kept(c)|
    ensures EncodeItem(c) != [] ==>
              var r := DecodeBlock(EncodeItem(c)[0], path, text);
              |EncodeItem(c)| == 1 && r.values == Held(c) && (r.diagnostics == [] <==> !IsNil(c))
  {
    hide DecodeBlock, TextJson, ToolUseJson, ToolResultJson;
    DecodesText(c.text, path, text);
    if c.kind.ToolCallType? {
      if c.arguments.Obj? {
        DecodesToolUse(c.id, c.name, c.arguments, path, text);
      } else {
        RefusesNil(c.id, c.name, c.arguments, path, text);
      }
    }
    DecodesToolResult(c.toolCallID, c.text, c.isError, path, text);
  }

  lemma {:induction false} NotPrintedNotNil(c: Content)
    requires EncodeItem(c) == []
    ensures Held(c) == [] && !IsNil(c)
  {
  }

  lemma {:induction false} DecodesItems(contents: seq<Content>, path: Path, text: JsonText)
    ensures var r := DecodeBlocks(EncodeItems(contents), path, text);
            r.values == HeldAll(contents) && (r.diagnostics == [] <==> ObjectArguments(contents))
  {
    hide DecodeBlock, EncodeItem, Kept, Held, IsNil, ObjectArguments;
    if contents == [] {
      NothingHeld();
    } else {
      var n := |contents| - 1;
      var blocks := EncodeItems(contents[..n]);
      DecodesItems(contents[..n], path, text);
      DecodesItem(contents[n], path + [At(|blocks|)], text);
      assert contents == contents[..n] + [contents[n]];
      ObjectsOneMore(contents[..n], contents[n]);
      if EncodeItem(contents[n]) == [] {
        NotPrintedNotNil(contents[n]);
        assert blocks + [] == blocks && HeldAll(contents[..n]) + [] == HeldAll(contents[..n]);
      } else {
        var block := EncodeItem(contents[n])[0];
        assert EncodeItem(contents[n]) == [block] && (blocks + [block])[..|blocks|] == blocks;
      }
    }
  }

  lemma {:induction false} DecodesTurn(t: Turn, index: nat, text: JsonText)
    requires t.role in {"user", "assistant"}
    ensures var r := DecodeBlocks(t.blocks, MESSAGES + [At(index)] + [Key("content")], text);
            DecodeMessage(TurnJson(t), index, text) == Read([Message(t.role, r.values)], r.diagnostics)
  {
  }

  lemma {:induction false} DecodesTurns(ms: seq<Message>, text: JsonText)
    requires Normal(ms)
    ensures var r := DecodeItems(TurnsJson(TurnsOf(ms)), text);
            r.values == Thinned(ms) && (r.diagnostics == [] <==> AllObjectArguments(ms))
  {
    hide DecodeBlocks, DecodeMessage, TurnJson, EncodeItems, KeptAll, HeldAll, Normal, ObjectArguments,
         AllObjectArguments;
    if ms == [] {
      NothingHeld();
    } else {
      var n := |ms| - 1;
      NormalPrefix(ms, n);
      NormalLast(ms, n);
      DecodesTurns(ms[..n], text);
      assert TurnsJson(TurnsOf(ms))[..n] == TurnsJson(TurnsOf(ms[..n]));
      DecodesTurn(TurnsOf(ms)[n], n, text);
      DecodesItems(ms[n].content, MESSAGES + [At(n)] + [Key("content")], text);
      assert ms == ms[..n] + [ms[n]];
      AllObjectsOneMore(ms[..n], ms[n]);
      assert Thinned(ms) == Thinned(ms[..n]) + [Message(ms[n].role, HeldAll(ms[n].content))];
    }
  }

  lemma {:induction false} KeptObjects(contents: seq<Content>)
    ensures ObjectArguments(KeptAll(contents)) <==> ObjectArguments(contents)
  {
    hide ObjectArguments;
    if contents == [] {
      NothingHeld();
    } else {
      var n := |contents| - 1;
      KeptObjects(contents[..n]);
      assert contents == contents[..n] + [contents[n]];
      ObjectsOneMore(contents[..n], contents[n]);
      if Kept(contents[n]) == [] {
        assert KeptAll(contents[..n]) + [] == KeptAll(contents[..n]);
      } else {
        ObjectsOneMore(KeptAll(contents[..n]), Kept(contents[n])[0]);
      }
    }
  }

  lemma {:induction false} MergedObjects(out: seq<Message>, role: string, contents: seq<Content>)
    requires !IsSystem(role)
    ensures AllObjectArguments(Merge(out, role, contents)) <==> AllObjectArguments(out) && ObjectArguments(contents)
  {
    hide ObjectArguments, AllObjectArguments, IsSystem;
    var n := |out| - 1;
    if contents == [] {
      NothingHeld();
    } else if |out| > 0 && out[n].role == role {
      var last := Message(role, out[n].content + contents);
      assert Merge(out, role, contents) == out[..n] + [last] && out == out[..n] + [out[n]];
      AllObjectsOneMore(out[..n], last);
      AllObjectsOneMore(out[..n], out[n]);
      ObjectsConcat(out[n].content, contents);
    } else {
      AllObjectsOneMore(out, Message(role, contents));
    }
  }

  lemma {:induction false} ObjectsConcat(p: seq<Content>, q: seq<Content>)
    ensures ObjectArguments(p + q) <==> ObjectArguments(p) && ObjectArguments(q)
  {
    hide IsNil;
    assert forall c :: c in p + q <==> c in p || c in q;
  }

  lemma {:induction false} GroupedObjects(ms: seq<Message>)
    ensures AllObjectArguments(Grouped(ms)) <==> AllObjectArguments(ms)
  {
    hide KeptAll, ObjectArguments, AllObjectArguments, Merge;
    if ms == [] {
      NothingHeld();
    } else {
      var n := |ms| - 1;
      GroupedObjects(ms[..n]);
      assert ms == ms[..n] + [ms[n]];
      AllObjectsOneMore(ms[..n], ms[n]);
      if !IsSystem(ms[n].role) {
        KeptObjects(ms[n].content);
        MergedObjects(Grouped(ms[..n]), OutRole(ms[n].role), KeptAll(ms[n].content));
      }
    }
  }

  // Thinning changes a normal form exactly when a call has nil arguments.
  lemma {:induction false} ThinnedIsExact(ms: seq<Message>)
    requires Normal(ms)
    ensures Thinned(ms) == ms <==> AllObjectArguments(ms)
  {
    hide Normal, KeptAll, HeldAll, ObjectArguments, AllObjectArguments, IsSystem, OutRole;
    if ms == [] {
      NothingHeld();
    } else {
      var n := |ms| - 1;
      NormalPrefix(ms, n);
      NormalLast(ms, n);
      ThinnedIsExact(ms[..n]);
      assert ms == ms[..n] + [ms[n]];
      AllObjectsOneMore(ms[..n], ms[n]);
      HeldIsKept(ms[n].content);
      var last := Message(ms[n].role, HeldAll(ms[n].content));
      assert Thinned(ms) == Thinned(ms[..n]) + [last];
      SameEnds(Thinned(ms[..n]), ms[..n], last, ms[n]);
    }
  }

  lemma {:induction false} SameEnds(p: seq<Message>, q: seq<Message>, a: Message, b: Message)
    requires |p| == |q|
    ensures p + [a] == q + [b] <==> p == q && a == b
  {
    if p + [a] == q + [b] {
      assert (p + [a])[..|p|] == p && (q + [b])[..|q|] == q && (p + [a])[|p|] == a && (q + [b])[|q|] == b;
    }
  }

  // One system message with the joined texts.
  function Hoisted(ms: seq<Message>): seq<Message> {
    if SystemTexts(ms) == [] then [] else [SystemMessage(Join(SystemTexts(ms), "\n\n"))]
  }

  // The normal form: the system message, then the grouped messages.
  function Normalized(ms: seq<Message>): seq<Message> {
    Hoisted(ms) + Grouped(ms)
  }

  lemma {:induction false} EncodedFields(ms: seq<Message>)
    ensures Get(Encode(ms), "messages") == if EncodeTurns(ms) == [] then Null else Arr(TurnsJson(EncodeTurns(ms)))
    ensures Get(Encode(ms), "system") == if SystemTexts(ms) == [] then Null else Str(Join(SystemTexts(ms), "\n\n"))
  {
    hide TurnsJson, EncodeTurns, SystemTexts, Join;
  }

  lemma {:induction false} ItemsAppear(contents: seq<Content>)
    ensures EncodeItems(contents) != [] <==> AnyCarried(contents)
  {
    hide TextJson, ToolUseJson, ToolResultJson, AnyCarried;
    if contents == [] {
      assert !AnyCarried([]) by { NothingCarried(); }
    } else {
      ItemsAppear(contents[..|contents| - 1]);
      AnyCarriedOneMore(contents);
    }
  }

  lemma {:induction false} SomethingPrints(ms: seq<Message>)
    ensures EncodeTurns(ms) != [] <==> HasItem(ms)
  {
    hide EncodeItems, AnyCarried, HasItem;
    if ms == [] {
      assert !HasItem([]) by { NothingCarried(); }
    } else {
      SomethingPrints(ms[..|ms| - 1]);
      ItemsAppear(ms[|ms| - 1].content);
      HasItemOneMore(ms);
    }
  }

  /**
   * Decoding an encoded request gives the normal form of the request exactly when every printed call has
   * an object for arguments, and the normal form without the other calls in any case; there is no
   * diagnostic exactly when, besides, there is a non-system block.
   */
  lemma {:induction false} DecodeGivesNormalForm(ms: seq<Message>, text: JsonText)
    ensures Decode(Encode(ms), text).values == Hoisted(ms) + Thinned(Grouped(ms))
    ensures Decode(Encode(ms), text).values == Normalized(ms) <==> AllObjectArguments(ms)
    ensures Decode(Encode(ms), text).diagnostics == [] <==> HasItem(ms) && AllObjectArguments(ms)
  {
    hide TurnsJson, EncodeTurns, SystemTexts, Join, Encode, Grouped, Normal, AllObjectArguments, HasItem, Thinned;
    EncodedFields(ms);
    EncodePrintsGrouped(ms);
    SomethingPrints(ms);
    GroupedIsNormal(ms);
    GroupedObjects(ms);
    DecodesTurns(Grouped(ms), text);
    ThinnedIsExact(Grouped(ms));
    SameTails(Hoisted(ms), Thinned(Grouped(ms)), Grouped(ms));
  }

  lemma {:induction false} SameTails(p: seq<Message>, a: seq<Message>, b: seq<Message>)
    ensures p + a == p + b <==> a == b
  {
    assert (p + a)[|p|..] == a && (p + b)[|p|..] == b;
  }

  lemma {:induction false} GroupedAfterSystem(m: Message, ms: seq<Message>)
    requires IsSystem(m.role)
    ensures Grouped([m] + ms) == Grouped(ms) && SystemTexts([m] + ms) == TextList(m.content) + SystemTexts(ms)
  {
    hide KeptAll, TextList;
    var whole := [m] + ms;
    if ms == [] {
      assert whole == [m] && whole[..0] == [];
    } else {
      assert whole[..|ms|] == [m] + ms[..|ms| - 1];
      GroupedAfterSystem(m, ms[..|ms| - 1]);
    }
  }

  lemma {:induction false} NormalHasNoSystem(ms: seq<Message>)
    requires Normal(ms)
    ensures SystemTexts(ms) == []
  {
    if ms != [] {
      assert ms[|ms| - 1] in ms && forall m :: m in ms[..|ms| - 1] ==> m in ms;
      NormalHasNoSystem(ms[..|ms| - 1]);
    }
  }

  lemma {:induction false} OneText(s: string)
    ensures TextList([TextContent(s)]) == [s] && Join([s], "\n\n") == s
  {
    assert [TextContent(s)][..0] == [];
  }

  lemma {:induction false} TurnsDecide(p: seq<Turn>, q: seq<Turn>)
    ensures TurnsJson(p) == TurnsJson(q) ==> p == q
  {
    if TurnsJson(p) == TurnsJson(q) {
      assert |p| == |TurnsJson(p)| && |q| == |TurnsJson(q)|;
      forall i | 0 <= i < |p|
        ensures p[i] == q[i]
      {
        assert TurnsJson(p)[i] == TurnsJson(q)[i];
        TurnDecides(p[i], q[i]);
      }
    }
  }

  lemma {:induction false} TurnDecides(t: Turn, u: Turn)
    ensures TurnJson(t) == TurnJson(u) ==> t == u
  {
    assert Get(TurnJson(t), "role") == Str(t.role) && Get(TurnJson(t), "content") == Arr(t.blocks);
    assert Get(TurnJson(u), "role") == Str(u.role) && Get(TurnJson(u), "content") == Arr(u.blocks);
  }

  // Fewer blocks are printed of a thinned request exactly when a call has nil arguments.
  lemma {:induction false} ThinnedBlocks(ms: seq<Message>)
    requires Normal(ms)
    ensures |FlatBlocks(Thinned(ms))| <= |FlatBlocks(ms)|
    ensures |FlatBlocks(Thinned(ms))| == |FlatBlocks(ms)| <==> AllObjectArguments(ms)
  {
    hide Normal, KeptAll, HeldAll, ObjectArguments, AllObjectArguments, IsSystem, OutRole, EncodeItems;
    if ms == [] {
      NothingHeld();
    } else {
      var n := |ms| - 1;
      NormalPrefix(ms, n);
      NormalLast(ms, n);
      ThinnedBlocks(ms[..n]);
      assert ms == ms[..n] + [ms[n]] && Thinned(ms)[..n] == Thinned(ms[..n]);
      AllObjectsOneMore(ms[..n], ms[n]);
      HeldIsKept(ms[n].content);
      EncodeKept(ms[n].content);
      EncodeKept(HeldAll(ms[n].content));
      KeptHeld(ms[n].content);
    }
  }

  lemma {:induction false} KeptHeld(contents: seq<Content>)
    ensures KeptAll(HeldAll(contents)) == HeldAll(contents)
  {
    hide IsNil, Kept;
    if contents != [] {
      var n := |contents| - 1;
      KeptHeld(contents[..n]);
      KeptConcat(HeldAll(contents[..n]), Held(contents[n]));
      KeptOnce(contents[n]);
    }
  }

  lemma {:induction false} FlatAfterSystem(m: Message, ms: seq<Message>)
    requires IsSystem(m.role)
    ensures FlatBlocks([m] + ms) == FlatBlocks(ms)
  {
    hide EncodeItems, Tag;
    var whole := [m] + ms;
    if ms == [] {
      assert whole == [m] && whole[..0] == [];
    } else {
      assert whole[..|ms|] == [m] + ms[..|ms| - 1];
      FlatAfterSystem(m, ms[..|ms| - 1]);
    }
  }

  // A call the decoder refuses is not printed again.
  lemma {:induction false} NilIsNotReprinted(ms: seq<Message>, text: JsonText)
    requires !AllObjectArguments(ms)
    ensures Encode(Decode(Encode(ms), text).values) != Encode(ms)
  {
    hide TurnsJson, TurnsOf, EncodeTurns, SystemTexts, Join, Encode, Decode, Grouped, Normal, AllObjectArguments,
         FlatBlocks, FlatTurns, Thinned, Hoisted;
    var ns, back := Grouped(ms), Decode(Encode(ms), text).values;
    DecodeGivesNormalForm(ms, text);
    FlattenGivesInput(back);
    FlattenGivesInput(ns);
    EncodePrintsGrouped(ms);
    EncodePrintsGrouped(ns);
    GroupedIsNormal(ms);
    GroupedTwice(ns);
    GroupedObjects(ms);
    ThinnedBlocks(ns);
    FlatAfterHoisted(ms, Thinned(ns));
    EncodedFields(ms);
    EncodedFields(back);
    TurnsDecide(EncodeTurns(back), EncodeTurns(ms));
  }

  lemma {:induction false} FlatAfterHoisted(ms: seq<Message>, rest: seq<Message>)
    ensures FlatBlocks(Hoisted(ms) + rest) == FlatBlocks(rest)
  {
    hide SystemTexts, Join, FlatBlocks;
    if SystemTexts(ms) == [] {
      assert Hoisted(ms) + rest == rest;
    } else {
      FlatAfterSystem(SystemMessage(Join(SystemTexts(ms), "\n\n")), rest);
    }
  }

  lemma {:induction false} NormalIsReprinted(ms: seq<Message>)
    ensures Encode(Normalized(ms)) == Encode(ms)
  {
    hide TurnsJson, TurnsOf, EncodeTurns, SystemTexts, Join, Grouped, Normal, TextList;
    var ns, system := Grouped(ms), SystemTexts(ms);
    GroupedIsNormal(ms);
    GroupedTwice(ns);
    NormalHasNoSystem(ns);
    EncodePrintsGrouped(ms);
    EncodePrintsGrouped(Normalized(ms));
    if system == [] {
      assert Normalized(ms) == ns;
    } else {
      OneText(Join(system, "\n\n"));
      GroupedAfterSystem(SystemMessage(Join(system, "\n\n")), ns);
      assert [Join(system, "\n\n")] + [] == [Join(system, "\n\n")];
    }
  }

  /**
   * The encoded request is a fixpoint of decoding and encoding exactly when every printed call has object
   * arguments.
   */
  lemma {:induction false} EncodeIsFixpoint(ms: seq<Message>, text: JsonText)
    ensures Encode(Decode(Encode(ms), text).values) == Encode(ms) <==> AllObjectArguments(ms)
  {
    hide Encode, Decode, Normalized, AllObjectArguments, Hoisted, Thinned, Grouped, HasItem;
    if AllObjectArguments(ms) {
      DecodeGivesNormalForm(ms, text);
      NormalIsReprinted(ms);
    } else {
      NilIsNotReprinted(ms, text);
    }
  }

  // ---- Meaning ----------------------------------------------------------------------------

  lemma {:induction false} KeptMeaning(contents: seq<Content>)
    ensures TraceOf(KeptAll(contents)) == TraceOf(contents) && ContentText(KeptAll(contents)) == ContentText(contents)
  {
    hide Kept;
    if contents != [] {
      var n := |contents| - 1;
      KeptMeaning(contents[..n]);
      TraceOfConcat(KeptAll(contents[..n]), Kept(contents[n]));
      ContentTextConcat(KeptAll(contents[..n]), Kept(contents[n]));
      KeptItemMeaning(contents[n]);
      assert ContentText(contents[..n]) + "" == ContentText(contents[..n]);
    }
  }

  lemma {:induction false} KeptItemMeaning(c: Content)
    ensures TraceOf(Kept(c)) == ToolItemOf(c) && ContentText(Kept(c)) == if c.kind.TextType? then c.text else ""
  {
    if Kept(c) != [] {
      OneContent(Kept(c)[0]);
    }
  }

  lemma {:induction false} MergeMeaning(out: seq<Message>, role: string, contents: seq<Content>, side: string)
    ensures Trace(Merge(out, role, contents)) == Trace(out) + TraceOf(contents)
    ensures RoleText(Merge(out, role, contents), side) ==
            RoleText(out, side) + (if OnSide(role, side) then ContentText(contents) else "")
  {
    var n := |out| - 1;
    NoContent();
    if contents == [] {
      assert Trace(out) + [] == Trace(out) && RoleText(out, side) + "" == RoleText(out, side);
    } else if |out| > 0 && out[n].role == role {
      assert Merge(out, role, contents) == out[..n] + [Message(role, out[n].content + contents)];
      assert out == out[..n] + [Message(role, out[n].content)];
      GrowMeaning(out[..n], role, out[n].content, contents, side);
    } else {
      assert Merge(out, role, contents) == out + [Message(role, contents)];
      MessageMeaning(out, Message(role, contents), side);
    }
  }

  lemma {:induction false} MessageMeaning(ms: seq<Message>, m: Message, side: string)
    ensures Trace(ms + [m]) == Trace(ms) + TraceOf(m.content)
    ensures RoleText(ms + [m], side) == RoleText(ms, side)
            + (if OnSide(m.role, side) then ContentText(m.content) else "")
  {
    hide TraceOf, ContentText, OnSide;
    assert (ms + [m])[..|ms|] == ms;
    assert RoleText(ms, side) + "" == RoleText(ms, side);
  }

  lemma {:induction false} GrowMeaning(ms: seq<Message>, role: string, p: seq<Content>, q: seq<Content>, side: string)
    ensures var before, after := ms + [Message(role, p)], ms + [Message(role, p + q)];
            && Trace(after) == Trace(before) + TraceOf(q)
            && RoleText(after, side) == RoleText(before, side) + (if OnSide(role, side) then ContentText(q) else "")
  {
    MessageMeaning(ms, Message(role, p), side);
    MessageMeaning(ms, Message(role, p + q), side);
    TraceOfConcat(p, q);
    ContentTextConcat(p, q);
    hide Trace, RoleText, TraceOf, ContentText, OnSide;
    Associative(Trace(ms), TraceOf(p), TraceOf(q));
    Associative(RoleText(ms, side), ContentText(p), ContentText(q));
    assert RoleText(ms, side) + "" + "" == RoleText(ms, side) + "";
  }

  lemma {:induction false} GroupedMeaning(ms: seq<Message>, side: string)
    requires Sensible(ms) && side in {"system", "user", "assistant"}
    ensures Trace(Grouped(ms)) == Trace(ms)
    ensures RoleText(Grouped(ms), side) == if side == "system" then "" else RoleText(ms, side)
  {
    hide Merge, TraceOf, ContentText, KeptAll, ContentFits, OnSide;
    if ms != [] {
      var n := |ms| - 1;
      var m := ms[n];
      assert MessageFits(m) by { assert m in ms; }
      assert Sensible(ms[..n]) by { assert forall x :: x in ms[..n] ==> x in ms; }
      GroupedMeaning(ms[..n], side);
      SidesOf(m.role, side);
      if IsSystem(m.role) {
        SystemHasNoTrace(m.role, m.content);
        assert Trace(ms[..n]) + [] == Trace(ms[..n]);
      } else {
        KeptMeaning(m.content);
        MergeMeaning(Grouped(ms[..n]), OutRole(m.role), KeptAll(m.content), side);
        assert OutRole(m.role) == m.role;
        assert RoleText(ms[..n], side) + "" == RoleText(ms[..n], side);
      }
    }
  }

  // The calls and results without the calls that have nil arguments.
  function WithoutNil(trace: seq<ToolItem>): seq<ToolItem> {
    if trace == [] then []
    else
      var before, item := WithoutNil(trace[..|trace| - 1]), trace[|trace| - 1];
      if item.Called? && !item.arguments.Obj? then before else before + [item]
  }

  lemma {:induction false} WithoutNilConcat(p: seq<ToolItem>, q: seq<ToolItem>)
    ensures WithoutNil(p + q) == WithoutNil(p) + WithoutNil(q)
    decreases |q|
  {
    if q == [] {
      assert p + q == p;
    } else {
      var n, whole := |q| - 1, p + q;
      assert whole[..|whole| - 1] == p + q[..n] && whole[|whole| - 1] == q[n];
      WithoutNilConcat(p, q[..n]);
    }
  }

  lemma {:induction false} HeldItem(c: Content)
    ensures TraceOf(Held(c)) == WithoutNil(ToolItemOf(c)) && |WithoutNil(ToolItemOf(c))| <= |ToolItemOf(c)|
    ensures |WithoutNil(ToolItemOf(c))| == |ToolItemOf(c)| <==> !IsNil(c)
    ensures ContentText(Held(c)) == (if c.kind.TextType? then c.text else "") && ErrorsOf(Held(c)) == ErrorOf(c)
  {
    NoContent();
    NoErrorsYet();
    if Held(c) != [] {
      OneContent(Held(c)[0]);
      OneError(Held(c)[0]);
    }
    if ToolItemOf(c) != [] {
      assert ToolItemOf(c)[..0] == [];
    }
  }

  lemma {:induction false} LastOfTrace(contents: seq<Content>)
    requires contents != []
    ensures var n := |contents| - 1;
            && TraceOf(contents) == TraceOf(contents[..n]) + ToolItemOf(contents[n])
            && HeldAll(contents) == HeldAll(contents[..n]) + Held(contents[n])
            && contents == contents[..n] + [contents[n]]
  {
    hide Held, ToolItemOf;
  }

  lemma {:induction false} HeldTrace(contents: seq<Content>)
    ensures TraceOf(HeldAll(contents)) == WithoutNil(TraceOf(contents))
    ensures |WithoutNil(TraceOf(contents))| <= |TraceOf(contents)|
    ensures |WithoutNil(TraceOf(contents))| == |TraceOf(contents)| <==> ObjectArguments(contents)
  {
    hide Held, IsNil, ObjectArguments, WithoutNil, ToolItemOf, TraceOf, HeldAll;
    if contents == [] {
      NothingHeld();
      NoContent();
      assert WithoutNil([]) == [] by { NothingWithoutNil(); }
    } else {
      var n := |contents| - 1;
      HeldTrace(contents[..n]);
      HeldItem(contents[n]);
      LastOfTrace(contents);
      TraceOfConcat(HeldAll(contents[..n]), Held(contents[n]));
      WithoutNilConcat(TraceOf(contents[..n]), ToolItemOf(contents[n]));
      ObjectsOneMore(contents[..n], contents[n]);
    }
  }

  lemma {:induction false} HeldWords(contents: seq<Content>)
    ensures ContentText(HeldAll(contents)) == ContentText(contents) && ErrorsOf(HeldAll(contents)) == ErrorsOf(contents)
  {
    hide Held, WithoutNil, ToolItemOf, ErrorOf, TraceOf;
    if contents == [] {
      NothingHeld();
    } else {
      var n := |contents| - 1;
      HeldWords(contents[..n]);
      HeldItem(contents[n]);
      ContentTextConcat(HeldAll(contents[..n]), Held(contents[n]));
      ErrorsOfConcat(HeldAll(contents[..n]), Held(contents[n]));
      assert ContentText(contents[..n]) + "" == ContentText(contents[..n]);
    }
  }

  lemma {:induction false} NothingWithoutNil()
    ensures WithoutNil([]) == []
  {
  }

  lemma {:induction false} ThinnedTrace(ms: seq<Message>)
    requires Normal(ms)
    ensures Trace(Thinned(ms)) == WithoutNil(Trace(ms)) && |WithoutNil(Trace(ms))| <= |Trace(ms)|
    ensures |WithoutNil(Trace(ms))| == |Trace(ms)| <==> AllObjectArguments(ms)
  {
    hide HeldAll, ObjectArguments, AllObjectArguments, WithoutNil, TraceOf, Normal, IsSystem, OutRole, KeptAll;
    if ms == [] {
      NothingHeld();
      NothingWithoutNil();
    } else {
      var n := |ms| - 1;
      NormalPrefix(ms, n);
      NormalLast(ms, n);
      ThinnedTrace(ms[..n]);
      HeldTrace(ms[n].content);
      assert Thinned(ms)[..n] == Thinned(ms[..n]) && ms == ms[..n] + [ms[n]];
      WithoutNilConcat(Trace(ms[..n]), TraceOf(ms[n].content));
      AllObjectsOneMore(ms[..n], ms[n]);
    }
  }

  lemma {:induction false} ThinnedWords(ms: seq<Message>, side: string)
    requires Normal(ms)
    ensures RoleText(Thinned(ms), side) == RoleText(ms, side) && Errors(Thinned(ms)) == Errors(ms)
  {
    hide HeldAll, ContentText, ErrorsOf, OnSide, Normal, IsSystem, OutRole, KeptAll;
    if ms != [] {
      var n := |ms| - 1;
      NormalPrefix(ms, n);
      ThinnedWords(ms[..n], side);
      HeldWords(ms[n].content);
      assert Thinned(ms)[..n] == Thinned(ms[..n]) && ms == ms[..n] + [ms[n]];
    }
  }

  // The system message in front says nothing but its text.
  lemma {:induction false} HoistedMeaning(ms: seq<Message>, rest: seq<Message>)
    ensures var whole := Hoisted(ms) + rest;
            && Trace(whole) == Trace(rest) && Errors(whole) == Errors(rest)
            && RoleText(whole, "user") == RoleText(rest, "user")
            && RoleText(whole, "assistant") == RoleText(rest, "assistant")
            && RoleText(whole, "system") == Join(SystemTexts(ms), "\n\n") + RoleText(rest, "system")
  {
    hide SystemTexts, Join, Trace, RoleText, Errors, ContentText, TraceOf, ErrorsOf;
    JoinOne("");
    assert "" + RoleText(rest, "system") == RoleText(rest, "system") && [] + Trace(rest) == Trace(rest);
    assert "" + RoleText(rest, "user") == RoleText(rest, "user") && [] + Errors(rest) == Errors(rest);
    assert "" + RoleText(rest, "assistant") == RoleText(rest, "assistant");
    if SystemTexts(ms) == [] {
      assert Hoisted(ms) + rest == rest;
    } else {
      var s := SystemMessage(Join(SystemTexts(ms), "\n\n"));
      TraceConcat([s], rest);
      ErrorsConcat([s], rest);
      RoleTextConcat([s], rest, "user");
      RoleTextConcat([s], rest, "assistant");
      RoleTextConcat([s], rest, "system");
      OneMessage(s, "user");
      OneMessage(s, "assistant");
      OneMessage(s, "system");
      OneMessageErrors(s);
      OneContent(s.content[0]);
      OneError(s.content[0]);
    }
  }

  /**
   * A sensible request through an Anthropic target: the calls and results come back in one order (so every
   * call is still before its result) without the calls that have nil arguments, the text per side comes
   * back and the system texts joined. So the meaning is kept exactly when no call has nil arguments, and
   * the printed request decodes without a diagnostic exactly when there is a non-system block besides.
   */
  lemma {:induction false} AnthropicKeepsMeaning(ms: seq<Message>, text: JsonText)
    requires Sensible(ms)
    ensures var back := Decode(Encode(ms), text);
            && Trace(back.values) == WithoutNil(Trace(ms))
            && RoleText(back.values, "user") == RoleText(ms, "user")
            && RoleText(back.values, "assistant") == RoleText(ms, "assistant")
            && RoleText(back.values, "system") == Join(SystemTexts(ms), "\n\n")
            && (SameMeaning(ms, back.values) <==> AllObjectArguments(ms))
            && (back.diagnostics == [] <==> HasItem(ms) && AllObjectArguments(ms))
  {
    hide Grouped, SystemTexts, Join, Encode, Decode, EncodeTurns, Trace, RoleText, Errors, HasItem, AllObjectArguments,
         WithoutNil, Thinned, Normalized, Hoisted, Normal, Sensible;
    var ns := Grouped(ms);
    DecodeGivesNormalForm(ms, text);
    GroupedIsNormal(ms);
    GroupedObjects(ms);
    GroupedMeaning(ms, "user");
    GroupedMeaning(ms, "assistant");
    GroupedMeaning(ms, "system");
    ThinnedTrace(ns);
    ThinnedWords(ns, "user");
    ThinnedWords(ns, "assistant");
    ThinnedWords(ns, "system");
    HoistedMeaning(ms, Thinned(ns));
    assert Join(SystemTexts(ms), "\n\n") + "" == Join(SystemTexts(ms), "\n\n");
    if AllObjectArguments(ms) {
      ThinnedIsExact(ns);
    }
  }

  // ---- Error flags ------------------------------------------------------------------------

  lemma {:induction false} KeptErrors(contents: seq<Content>)
    ensures ErrorsOf(KeptAll(contents)) == ErrorsOf(contents)
  {
    hide Kept;
    if contents != [] {
      var n := |contents| - 1;
      KeptErrors(contents[..n]);
      ErrorsOfConcat(KeptAll(contents[..n]), Kept(contents[n]));
      KeptError(contents[n]);
    }
  }

  lemma {:induction false} KeptError(c: Content)
    ensures ErrorsOf(Kept(c)) == ErrorOf(c)
  {
    if Kept(c) != [] {
      assert Kept(c)[..0] == [];
    }
  }

  lemma {:induction false} MergeErrors(out: seq<Message>, role: string, contents: seq<Content>)
    ensures Errors(Merge(out, role, contents)) == Errors(out) + ErrorsOf(contents)
  {
    hide ErrorsOf;
    var n := |out| - 1;
    if contents == [] {
      assert ErrorsOf([]) == [] by { NoErrorsYet(); }
      assert Errors(out) + [] == Errors(out);
    } else if |out| > 0 && out[n].role == role {
      assert Merge(out, role, contents) == out[..n] + [Message(role, out[n].content + contents)];
      assert (out[..n] + [Message(role, out[n].content + contents)])[..n] == out[..n];
      ErrorsOfConcat(out[n].content, contents);
      Associative(Errors(out[..n]), ErrorsOf(out[n].content), ErrorsOf(contents));
    } else {
      assert (out + [Message(role, contents)])[..|out|] == out;
    }
  }

  lemma {:induction false} GroupedErrors(ms: seq<Message>)
    requires Sensible(ms)
    ensures Errors(Grouped(ms)) == Errors(ms)
  {
    hide Merge, KeptAll, ErrorsOf, MessageFits;
    if ms != [] {
      var n := |ms| - 1;
      assert ms[n] in ms && forall m :: m in ms[..n] ==> m in ms;
      GroupedErrors(ms[..n]);
      if IsSystem(ms[n].role) {
        SystemErrors(ms[n].role, ms[n].content);
        assert Errors(ms[..n]) + [] == Errors(ms[..n]);
      } else {
        KeptErrors(ms[n].content);
        MergeErrors(Grouped(ms[..n]), OutRole(ms[n].role), KeptAll(ms[n].content));
      }
    }
  }

  /** An Anthropic target also keeps which results are errors, whatever the calls. */
  lemma {:induction false} AnthropicKeepsErrors(ms: seq<Message>, text: JsonText)
    requires Sensible(ms)
    ensures Errors(Decode(Encode(ms), text).values) == Errors(ms)
  {
    hide Grouped, SystemTexts, Join, Encode, Decode, HasItem, Errors, Sensible, AllObjectArguments, Thinned, Hoisted,
         Normal, Trace, RoleText;
    DecodeGivesNormalForm(ms, text);
    GroupedIsNormal(ms);
    GroupedErrors(ms);
    ThinnedWords(Grouped(ms), "user");
    HoistedMeaning(ms, Thinned(Grouped(ms)));
  }
}
