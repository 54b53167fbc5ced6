/** The agent's conversation as an Anthropic request (anthropic/openai.go). */
module AnthropicConversion {
  import opened AnthropicTypes
  import opened ChatTypes
  import opened Texts
  import opened Transcript
  import opened Wrappers
  import AgentRun
  import Sequences

  datatype Converted = Converted(system: seq<string>, messages: seq<AnthropicMessage>)

  const NOTHING := Converted([], [])

  // Empty arguments become an empty object.
  function InputOf(arguments: string): string {
    if arguments == "" then "{}" else arguments
  }

  function UseOf(tc: ToolCall): Block {
    ToolUse(tc.id, tc.name, InputOf(tc.arguments))
  }

  function UsesOf(calls: seq<ToolCall>): (r: seq<Block>)
    ensures |r| == |calls|
  {
    seq(|calls|, i requires 0 <= i < |calls| => UseOf(calls[i]))
  }

  function BlocksOf(m: Message): seq<Block> {
    (if m.content != "" then [TextBlock(m.content)] else []) + UsesOf(m.toolCalls)
  }

  predicate ToolResultsOnly(m: AnthropicMessage) {
    m.role == "user" && m.blocks != [] && forall b :: b in m.blocks ==> b.kind == TOOL_RESULT
  }

  function Append(out: seq<AnthropicMessage>, block: Block): seq<AnthropicMessage> {
    var last := |out| - 1;
    if last >= 0 && ToolResultsOnly(out[last]) then out[last := out[last].(blocks := out[last].blocks + [block])]
    else out + [AnthropicMessage("user", "", [block])]
  }

  function Convert(c: Converted, m: Message): Converted {
    if m.role == ROLE_SYSTEM then c.(system := c.system + [m.content])
    else if m.role == ROLE_USER then c.(messages := c.messages + [AnthropicMessage("user", m.content, [])])
    else if m.role == ROLE_ASSISTANT then
      if BlocksOf(m) == [] then c else c.(messages := c.messages + [AnthropicMessage("assistant", "", BlocksOf(m))])
    else if m.role == ROLE_TOOL then c.(messages := Append(c.messages, ToolResult(m.toolCallID, m.content)))
    else c
  }

  function ConvertAll(ms: seq<Message>): Converted {
    if ms == [] then NOTHING else Convert(ConvertAll(ms[..|ms| - 1]), ms[|ms| - 1])
  }

  // ---- The conversion loop ----------------------------------------------------------------

  method AreToolResults(m: AnthropicMessage) returns (only: bool)
    ensures only == ToolResultsOnly(m)
  {
    if m.role != "user" || |m.blocks| == 0 {
      return false;
    }
    for i := 0 to |m.blocks|
      invariant forall b :: b in m.blocks[..i] ==> b.kind == TOOL_RESULT
    {
      if m.blocks[i].kind != TOOL_RESULT {
        return false;
      }
      assert m.blocks[..i + 1] == m.blocks[..i] + [m.blocks[i]];
    }
    assert m.blocks[..|m.blocks|] == m.blocks;
    return true;
  }

  method AssistantBlocks(m: Message) returns (blocks: seq<Block>)
    ensures blocks == BlocksOf(m)
  {
    blocks := [];
    if m.content != "" {
      blocks := blocks + [TextBlock(m.content)];
    }
    ghost var text := blocks;
    for i := 0 to |m.toolCalls|
      invariant blocks == text + UsesOf(m.toolCalls)[..i]
    {
      var input := m.toolCalls[i].arguments;
      if |input| == 0 {
        input := "{}";
      }
      blocks := blocks + [ToolUse(m.toolCalls[i].id, m.toolCalls[i].name, input)];
      assert UsesOf(m.toolCalls)[..i + 1] == UsesOf(m.toolCalls)[..i] + [UseOf(m.toolCalls[i])];
    }
    assert UsesOf(m.toolCalls)[..|m.toolCalls|] == UsesOf(m.toolCalls);
  }

  /** `NewAnthropicRequestFromChatCompletionRequest`, its messages and system text. */
  method ConvertRequest(ms: seq<Message>) returns (system: string, out: seq<AnthropicMessage>)
    ensures out == ConvertAll(ms).messages && system == Join(ConvertAll(ms).system, "\n\n")
    ensures Pieces(out) == Wanted(ms) && Spoken(out) == WantedSpoken(ms) && ResultsMerged(out)
    ensures Separates(Contents(ms, ROLE_SYSTEM), "\n\n", system)
  {
    var prompts: seq<string> := [];
    out := [];
    for i := 0 to |ms|
      invariant Converted(prompts, out) == ConvertAll(ms[..i])
    {
      assert ms[..i + 1][..i] == ms[..i];
      var m := ms[i];
      if m.role == ROLE_SYSTEM {
        prompts := prompts + [m.content];
      } else if m.role == ROLE_USER {
        out := out + [AnthropicMessage("user", m.content, [])];
      } else if m.role == ROLE_ASSISTANT {
        var blocks := AssistantBlocks(m);
        if |blocks| > 0 {
          out := out + [AnthropicMessage("assistant", "", blocks)];
        }
      } else if m.role == ROLE_TOOL {
        var block, last, only := ToolResult(m.toolCallID, m.content), |out| - 1, false;
        if last >= 0 {
          only := AreToolResults(out[last]);
        }
        if only {
          out := out[last := out[last].(blocks := out[last].blocks + [block])];
        } else {
          out := out + [AnthropicMessage("user", "", [block])];
        }
      }
    }
    assert ms[..|ms|] == ms;
    system := Join(prompts, "\n\n");
    RequestIsWanted(ms);
    ConversionKeepsTexts(ms);
    JoinSeparates(prompts, "\n\n");
  }

  // ---- Pairing survives -------------------------------------------------------------------

  // The ids of a message's tool_use blocks, in order.
  function UseIDs(blocks: seq<Block>): seq<string> {
    if blocks == [] then []
    else
      var before, b := UseIDs(blocks[..|blocks| - 1]), blocks[|blocks| - 1];
      if b.kind == TOOL_USE then before + [b.id] else before
  }

  function ResultIDs(blocks: seq<Block>): (r: seq<string>)
    ensures |r| == |blocks|
  {
    seq(|blocks|, i requires 0 <= i < |blocks| => blocks[i].toolUseID)
  }

  // Message i + 1 is one user message of exactly the results of the calls in message i.
  predicate AnsweredNext(out: seq<AnthropicMessage>, i: nat)
    requires i < |out|
  {
    i + 1 < |out| && ToolResultsOnly(out[i + 1]) && ResultIDs(out[i + 1].blocks) == UseIDs(out[i].blocks)
  }

  predicate HasUses(m: AnthropicMessage) {
    m.role == "assistant" && UseIDs(m.blocks) != []
  }

  // Every message with calls before position n is answered by the next one.
  ghost predicate AnsweredBefore(out: seq<AnthropicMessage>, n: int) {
    forall i :: 0 <= i < n && i < |out| && HasUses(out[i]) ==> AnsweredNext(out, i)
  }

  // While results are awaited, the end of the output is a message with calls and its results so far.
  ghost predicate Pairs(out: seq<AnthropicMessage>, awaited: seq<string>) {
    var n := |out|;
    if awaited == [] then AnsweredBefore(out, n)
    else if n > 0 && HasUses(out[n - 1]) then AnsweredBefore(out, n - 1) && UseIDs(out[n - 1].blocks) == awaited
    else
      && n > 1 && ToolResultsOnly(out[n - 1]) && HasUses(out[n - 2])
      && AnsweredBefore(out, n - 2) && UseIDs(out[n - 2].blocks) == ResultIDs(out[n - 1].blocks) + awaited
  }

  lemma {:induction false} UseIDsConcat(p: seq<Block>, q: seq<Block>)
    ensures UseIDs(p + q) == UseIDs(p) + UseIDs(q)
    decreases |q|
  {
    if q == [] {
      assert p + q == p;
    } else {
      assert (p + q)[..|p + q| - 1] == p + q[..|q| - 1];
      UseIDsConcat(p, q[..|q| - 1]);
    }
  }

  lemma {:induction false} UseIDsOfCalls(calls: seq<ToolCall>)
    ensures |UseIDs(UsesOf(calls))| == |calls|
    ensures forall i :: 0 <= i < |calls| ==> UseIDs(UsesOf(calls))[i] == calls[i].id
  {
    if calls != [] {
      var n := |calls| - 1;
      UseIDsOfCalls(calls[..n]);
      assert UsesOf(calls)[..n] == UsesOf(calls[..n]);
    }
  }

  // The tool_use blocks of a converted assistant message are its calls.
  lemma {:induction false} UseIDsAreCallIDs(m: Message)
    ensures UseIDs(BlocksOf(m)) == CallIDs(m)
  {
    UseIDsConcat(if m.content != "" then [TextBlock(m.content)] else [], UsesOf(m.toolCalls));
    UseIDsOfCalls(m.toolCalls);
    TextHasNoUses(m.content);
  }

  lemma {:induction false} TextHasNoUses(text: string)
    ensures UseIDs([TextBlock(text)]) == []
  {
    assert [TextBlock(text)][..0] == [];
  }

  lemma {:induction false} AppendPairs(out: seq<AnthropicMessage>, awaited: seq<string>, block: Block)
    requires Pairs(out, awaited) && awaited != [] && block.kind == TOOL_RESULT && block.toolUseID == awaited[0]
    ensures Pairs(Append(out, block), awaited[1..])
  {
    var n, after := |out|, Append(out, block);
    if HasUses(out[n - 1]) {
      assert after == out + [AnthropicMessage("user", "", [block])];
      assert ResultIDs([block]) + awaited[1..] == awaited;
      assert awaited[1..] == [] ==> ResultIDs([block]) == awaited;
    } else {
      assert after == out[n - 1 := out[n - 1].(blocks := out[n - 1].blocks + [block])];
      assert ResultIDs(after[n - 1].blocks) == ResultIDs(out[n - 1].blocks) + [awaited[0]];
      assert ResultIDs(after[n - 1].blocks) + awaited[1..] == UseIDs(out[n - 2].blocks);
      assert awaited[1..] == [] ==> ResultIDs(after[n - 1].blocks) == UseIDs(out[n - 2].blocks);
    }
    assert forall i :: 0 <= i < n - 1 ==> after[i] == out[i];
  }

  lemma {:induction false} ConvertPairs(c: Converted, before: seq<string>, m: Message)
    requires Pairs(c.messages, before) && AwaitedAfter(Some(before), m).Some?
    ensures Pairs(Convert(c, m).messages, AwaitedAfter(Some(before), m).value)
  {
    hide UseIDs, BlocksOf, CallIDs;
    if before != [] {
      AppendPairs(c.messages, before, ToolResult(m.toolCallID, m.content));
    } else if m.role == ROLE_ASSISTANT {
      UseIDsAreCallIDs(m);
      NoBlocksNoCalls(m);
    } else {
      UserHasNoUses();
    }
  }

  lemma {:induction false} NoBlocksNoCalls(m: Message)
    ensures BlocksOf(m) == [] ==> CallIDs(m) == []
  {
    UseIDsAreCallIDs(m);
  }

  lemma {:induction false} UserHasNoUses()
    ensures forall content, blocks :: !HasUses(AnthropicMessage("user", content, blocks))
  {
  }

  lemma {:induction false} ConvertAllPairs(ms: seq<Message>)
    requires Awaited(ms).Some?
    ensures Pairs(ConvertAll(ms).messages, Awaited(ms).value)
  {
    hide Pairs, Convert;
    if ms == [] {
      NothingPairs();
    } else {
      ConvertAllPairs(ms[..|ms| - 1]);
      ConvertPairs(ConvertAll(ms[..|ms| - 1]), Awaited(ms[..|ms| - 1]).value, ms[|ms| - 1]);
    }
  }

  lemma {:induction false} NothingPairs()
    ensures Pairs([], [])
  {
  }

  /**
   * From any well-paired transcript, each assistant message with tool_use blocks is followed at once by
   * one user message of exactly its tool_result blocks: same ids, same order.
   */
  lemma {:induction false} PairingSurvives(ms: seq<Message>, i: nat)
    requires WellPaired(ms)
    requires i < |ConvertAll(ms).messages| && HasUses(ConvertAll(ms).messages[i])
    ensures AnsweredNext(ConvertAll(ms).messages, i)
  {
    ConvertAllPairs(ms);
  }

  // ---- Nothing is lost --------------------------------------------------------------------

  function BlocksOfKind(blocks: seq<Block>, kind: string): seq<Block> {
    if blocks == [] then []
    else
      var before, b := BlocksOfKind(blocks[..|blocks| - 1], kind), blocks[|blocks| - 1];
      if b.kind == kind then before + [b] else before
  }

  function OutBlocks(out: seq<AnthropicMessage>, kind: string): seq<Block> {
    if out == [] then [] else OutBlocks(out[..|out| - 1], kind) + BlocksOfKind(out[|out| - 1].blocks, kind)
  }

  // The blocks a message calls for, field by field: arguments that are empty stand for an empty object.
  function WantedUse(tc: ToolCall): Block {
    Block("tool_use", "", "", tc.id, tc.name, if tc.arguments == "" then "{}" else tc.arguments, "", "")
  }

  function WantedUses(calls: seq<ToolCall>): (r: seq<Block>)
    ensures |r| == |calls|
  {
    seq(|calls|, i requires 0 <= i < |calls| => WantedUse(calls[i]))
  }

  function WantedText(content: string): seq<Block> {
    if content == "" then [] else [Block("text", content, "", "", "", "", "", "")]
  }

  function WantedResult(m: Message): Block {
    Block("tool_result", "", "", "", "", "", m.toolCallID, m.content)
  }

  lemma {:induction false} BlocksAreWanted(m: Message)
    ensures UsesOf(m.toolCalls) == WantedUses(m.toolCalls)
    ensures BlocksOf(m) == WantedText(m.content) + WantedUses(m.toolCalls)
    ensures ToolResult(m.toolCallID, m.content) == WantedResult(m)
  {
    forall i | 0 <= i < |m.toolCalls|
      ensures UsesOf(m.toolCalls)[i] == WantedUses(m.toolCalls)[i]
    {
    }
  }

  // Every block of a kind the transcript calls for, in order.
  function Expected(ms: seq<Message>, kind: string): seq<Block> {
    if ms == [] then [] else Expected(ms[..|ms| - 1], kind) + ExpectedOf(ms[|ms| - 1], kind)
  }

  function ExpectedOf(m: Message, kind: string): seq<Block> {
    if m.role == ROLE_ASSISTANT && kind == TOOL_USE then WantedUses(m.toolCalls)
    else if m.role == ROLE_ASSISTANT && kind == TEXT then WantedText(m.content)
    else if m.role == ROLE_TOOL && kind == TOOL_RESULT then [WantedResult(m)]
    else []
  }

  lemma {:induction false} KindConcat(p: seq<Block>, q: seq<Block>, kind: string)
    ensures BlocksOfKind(p + q, kind) == BlocksOfKind(p, kind) + BlocksOfKind(q, kind)
    decreases |q|
  {
    if q == [] {
      assert p + q == p;
    } else {
      assert (p + q)[..|p + q| - 1] == p + q[..|q| - 1];
      KindConcat(p, q[..|q| - 1], kind);
    }
  }

  lemma {:induction false} UsesOfKind(calls: seq<ToolCall>, kind: string)
    ensures BlocksOfKind(UsesOf(calls), kind) == if kind == TOOL_USE then UsesOf(calls) else []
  {
    hide UseOf;
    if calls != [] {
      var n := |calls| - 1;
      UsesOfKind(calls[..n], kind);
      assert UsesOf(calls)[..n] == UsesOf(calls[..n]) && UsesOf(calls) == UsesOf(calls[..n]) + [UseOf(calls[n])];
      assert UseOf(calls[n]).kind == TOOL_USE by { UseIsUse(calls[n]); }
    }
  }

  lemma {:induction false} UseIsUse(tc: ToolCall)
    ensures UseOf(tc).kind == TOOL_USE
  {
  }

  lemma {:induction false} OneOfKind(b: Block, kind: string)
    ensures BlocksOfKind([b], kind) == if b.kind == kind then [b] else []
  {
    assert [b][..0] == [];
  }

  lemma {:induction false} AssistantOfKind(m: Message, kind: string)
    requires kind in {TEXT, TOOL_USE, TOOL_RESULT} && m.role == ROLE_ASSISTANT
    ensures BlocksOfKind(BlocksOf(m), kind) == ExpectedOf(m, kind)
  {
    var text := if m.content != "" then [TextBlock(m.content)] else [];
    KindConcat(text, UsesOf(m.toolCalls), kind);
    UsesOfKind(m.toolCalls, kind);
    OneOfKind(TextBlock(m.content), kind);
    BlocksAreWanted(m);
  }

  lemma {:induction false} OutOneMore(out: seq<AnthropicMessage>, m: AnthropicMessage, kind: string)
    ensures OutBlocks(out + [m], kind) == OutBlocks(out, kind) + BlocksOfKind(m.blocks, kind)
  {
    assert (out + [m])[..|out|] == out;
  }

  lemma {:induction false} AppendKeeps(out: seq<AnthropicMessage>, b: Block, kind: string)
    ensures OutBlocks(Append(out, b), kind) == OutBlocks(out, kind) + (if b.kind == kind then [b] else [])
  {
    hide BlocksOfKind, ToolResultsOnly;
    OneOfKind(b, kind);
    var n, tail := |out| - 1, if b.kind == kind then [b] else [];
    if n >= 0 && ToolResultsOnly(out[n]) {
      var after := Append(out, b);
      assert after[..n] == out[..n] && after[n].blocks == out[n].blocks + [b];
      KindConcat(out[n].blocks, [b], kind);
      assert OutBlocks(out[..n], kind) + (BlocksOfKind(out[n].blocks, kind) + tail) ==
             OutBlocks(out[..n], kind) + BlocksOfKind(out[n].blocks, kind) + tail;
    } else {
      OutOneMore(out, AnthropicMessage("user", "", [b]), kind);
    }
  }

  /**
   * The tool calls, the tool results and the assistant texts all come out, in the transcript's order,
   * whatever was merged, hoisted or skipped.
   */
  lemma {:induction false} ConversionKeepsBlocks(ms: seq<Message>, kind: string)
    requires kind in {TEXT, TOOL_USE, TOOL_RESULT}
    ensures OutBlocks(ConvertAll(ms).messages, kind) == Expected(ms, kind)
  {
    hide BlocksOf, Append, BlocksOfKind;
    if ms != [] {
      var m, before := ms[|ms| - 1], ConvertAll(ms[..|ms| - 1]);
      ConversionKeepsBlocks(ms[..|ms| - 1], kind);
      if m.role == ROLE_ASSISTANT {
        AssistantOfKind(m, kind);
        if BlocksOf(m) != [] {
          OutOneMore(before.messages, AnthropicMessage("assistant", "", BlocksOf(m)), kind);
        } else {
          NoneOfKind(kind);
        }
      } else if m.role == ROLE_TOOL {
        AppendKeeps(before.messages, ToolResult(m.toolCallID, m.content), kind);
        BlocksAreWanted(m);
      } else if m.role == ROLE_USER {
        OutOneMore(before.messages, AnthropicMessage("user", m.content, []), kind);
        NoneOfKind(kind);
      }
    }
  }

  lemma {:induction false} NoneOfKind(kind: string)
    ensures BlocksOfKind([], kind) == []
  {
  }

  // The calls of a transcript, in order.
  function Calls(ms: seq<Message>): seq<ToolCall> {
    if ms == [] then []
    else
      var before, m := Calls(ms[..|ms| - 1]), ms[|ms| - 1];
      if m.role == ROLE_ASSISTANT then before + m.toolCalls else before
  }

  lemma {:induction false} UsesAreWanted(ms: seq<Message>)
    ensures Expected(ms, TOOL_USE) == WantedUses(Calls(ms))
  {
    hide WantedUse;
    if ms != [] {
      var n := |ms| - 1;
      UsesAreWanted(ms[..n]);
      assert WantedUses(Calls(ms[..n]) + ms[n].toolCalls) == WantedUses(Calls(ms[..n])) + WantedUses(ms[n].toolCalls);
      assert Expected(ms[..n], TOOL_USE) + [] == Expected(ms[..n], TOOL_USE);
    }
  }

  /**
   * The k-th tool_use block of the request is the k-th call of the transcript: its id, its name, and its
   * arguments, or an empty object when there are none.
   */
  lemma {:induction false} KthUseIsKthCall(ms: seq<Message>, k: nat)
    ensures |OutBlocks(ConvertAll(ms).messages, TOOL_USE)| == |Calls(ms)|
    ensures k < |Calls(ms)| ==>
              var use, call := OutBlocks(ConvertAll(ms).messages, TOOL_USE)[k], Calls(ms)[k];
              && use.kind == "tool_use" && use.id == call.id && use.name == call.name
              && use.input == if call.arguments == "" then "{}" else call.arguments
  {
    hide OutBlocks, Expected, ConvertAll;
    ConversionKeepsBlocks(ms, TOOL_USE);
    UsesAreWanted(ms);
  }

  // ---- The whole request ------------------------------------------------------------------

  /** What stands in a request, message boundaries aside: plain content or a block, with its role. */
  datatype Piece = Plain(role: string, content: string) | Part(role: string, block: Block)

  function Parts(role: string, blocks: seq<Block>): (r: seq<Piece>)
    ensures |r| == |blocks|
  {
    seq(|blocks|, i requires 0 <= i < |blocks| => Part(role, blocks[i]))
  }

  function PiecesOf(m: AnthropicMessage): seq<Piece> {
    if m.blocks == [] then [Plain(m.role, m.content)] else Parts(m.role, m.blocks)
  }

  function Pieces(out: seq<AnthropicMessage>): seq<Piece> {
    if out == [] then [] else Pieces(out[..|out| - 1]) + PiecesOf(out[|out| - 1])
  }

  function WantedOf(m: Message): seq<Piece> {
    if m.role == "user" then [Plain("user", m.content)]
    else if m.role == "assistant" then Parts("assistant", WantedText(m.content) + WantedUses(m.toolCalls))
    else if m.role == "tool" then [Part("user", WantedResult(m))]
    else []
  }

  // Everything the transcript says that is not a system message, in order.
  function Wanted(ms: seq<Message>): seq<Piece> {
    if ms == [] then [] else Wanted(ms[..|ms| - 1]) + WantedOf(ms[|ms| - 1])
  }

  // The blocks of each assistant message, and those the transcript asks for.
  function Spoken(out: seq<AnthropicMessage>): seq<seq<Block>> {
    if out == [] then []
    else
      var before, m := Spoken(out[..|out| - 1]), out[|out| - 1];
      if m.role == "assistant" then before + [m.blocks] else before
  }

  function WantedSpoken(ms: seq<Message>): seq<seq<Block>> {
    if ms == [] then []
    else
      var before, m := WantedSpoken(ms[..|ms| - 1]), ms[|ms| - 1];
      var blocks := WantedText(m.content) + WantedUses(m.toolCalls);
      if m.role == "assistant" && blocks != [] then before + [blocks] else before
  }

  // Results that follow each other are in one message.
  ghost predicate ResultsMerged(out: seq<AnthropicMessage>) {
    forall i :: 0 <= i < |out| - 1 ==> !(ToolResultsOnly(out[i]) && ToolResultsOnly(out[i + 1]))
  }

  lemma {:induction false} PiecesOneMore(out: seq<AnthropicMessage>, m: AnthropicMessage)
    ensures Pieces(out + [m]) == Pieces(out) + PiecesOf(m)
    ensures Spoken(out + [m]) == if m.role == "assistant" then Spoken(out) + [m.blocks] else Spoken(out)
  {
    hide PiecesOf;
    assert (out + [m])[..|out|] == out;
  }

  lemma {:induction false} GrownPieces(before: seq<AnthropicMessage>, m: AnthropicMessage, b: Block)
    requires m.role == "user" && m.blocks != []
    ensures var last := m.(blocks := m.blocks + [b]);
            && Pieces(before + [last]) == Pieces(before + [m]) + [Part("user", b)]
            && Spoken(before + [last]) == Spoken(before + [m])
  {
    var last := m.(blocks := m.blocks + [b]);
    PiecesOneMore(before, m);
    PiecesOneMore(before, last);
    hide Pieces, Spoken;
    assert Parts("user", m.blocks + [b]) == Parts("user", m.blocks) + [Part("user", b)];
    Sequences.Associative(Pieces(before), Parts("user", m.blocks), [Part("user", b)]);
  }

  lemma {:induction false} AppendedPieces(out: seq<AnthropicMessage>, b: Block)
    ensures Pieces(Append(out, b)) == Pieces(out) + [Part("user", b)] && Spoken(Append(out, b)) == Spoken(out)
  {
    var n := |out| - 1;
    if n >= 0 && ToolResultsOnly(out[n]) {
      assert out == out[..n] + [out[n]];
      assert Append(out, b) == out[..n] + [out[n].(blocks := out[n].blocks + [b])];
      GrownPieces(out[..n], out[n], b);
    } else {
      PiecesOneMore(out, AnthropicMessage("user", "", [b]));
      assert Parts("user", [b]) == [Part("user", b)];
    }
  }

  lemma {:induction false} AppendMerges(out: seq<AnthropicMessage>, b: Block)
    requires ResultsMerged(out) && b.kind == TOOL_RESULT
    ensures ResultsMerged(Append(out, b))
  {
    var n := |out| - 1;
    if n >= 0 && ToolResultsOnly(out[n]) {
      var last := out[n].(blocks := out[n].blocks + [b]);
      assert Append(out, b) == out[n := last] && ToolResultsOnly(last);
    }
  }

  lemma {:induction false} NotResults(content: string, blocks: seq<Block>)
    ensures !ToolResultsOnly(AnthropicMessage("assistant", content, blocks))
    ensures !ToolResultsOnly(AnthropicMessage("user", content, []))
  {
  }

  /**
   * The request says exactly what the transcript says, in its order; each assistant message with something
   * to say is one message, and results that follow each other are one message.
   */
  lemma {:induction false} RequestIsWanted(ms: seq<Message>)
    ensures var out := ConvertAll(ms).messages;
            Pieces(out) == Wanted(ms) && Spoken(out) == WantedSpoken(ms) && ResultsMerged(out)
  {
    hide Append, Pieces, Spoken, ToolResultsOnly, WantedText, WantedUses, WantedResult, BlocksOf, Parts;
    if ms == [] {
      NothingWanted();
    } else {
      var n := |ms| - 1;
      var m, before := ms[n], ConvertAll(ms[..n]).messages;
      RequestIsWanted(ms[..n]);
      BlocksAreWanted(m);
      NotResults(m.content, BlocksOf(m));
      NotResults("", BlocksOf(m));
      if m.role == ROLE_ASSISTANT {
        NoParts("assistant");
        assert Wanted(ms[..n]) + [] == Wanted(ms[..n]);
        PiecesOneMore(before, AnthropicMessage("assistant", "", BlocksOf(m)));
      } else if m.role == ROLE_TOOL {
        AppendedPieces(before, ToolResult(m.toolCallID, m.content));
        ResultIsResult(m.toolCallID, m.content);
        AppendMerges(before, ToolResult(m.toolCallID, m.content));
      } else if m.role == ROLE_USER {
        PiecesOneMore(before, AnthropicMessage("user", m.content, []));
      } else {
        assert Wanted(ms[..n]) + [] == Wanted(ms[..n]);
      }
    }
  }

  lemma {:induction false} ResultIsResult(id: string, content: string)
    ensures ToolResult(id, content).kind == TOOL_RESULT
  {
  }

  lemma {:induction false} NoParts(role: string)
    ensures Parts(role, []) == []
  {
  }

  lemma {:induction false} NothingWanted()
    ensures Pieces([]) == [] && Spoken([]) == []
  {
  }

  // The plain texts of the output, and the contents of a transcript's messages of one role.
  function PlainTexts(out: seq<AnthropicMessage>): seq<string> {
    if out == [] then []
    else
      var before, m := PlainTexts(out[..|out| - 1]), out[|out| - 1];
      if m.blocks == [] then before + [m.content] else before
  }

  function Contents(ms: seq<Message>, role: string): seq<string> {
    if ms == [] then []
    else
      var before, m := Contents(ms[..|ms| - 1], role), ms[|ms| - 1];
      if m.role == role then before + [m.content] else before
  }

  lemma {:induction false} AppendKeepsPlain(out: seq<AnthropicMessage>, b: Block)
    ensures PlainTexts(Append(out, b)) == PlainTexts(out)
  {
    var n, after := |out| - 1, Append(out, b);
    assert after[..|after| - 1] == if n >= 0 && ToolResultsOnly(out[n]) then out[..n] else out;
  }

  /** User texts come out in order as messages of their own, system texts in order in the system field. */
  lemma {:induction false} ConversionKeepsTexts(ms: seq<Message>)
    ensures PlainTexts(ConvertAll(ms).messages) == Contents(ms, ROLE_USER)
    ensures ConvertAll(ms).system == Contents(ms, ROLE_SYSTEM)
  {
    hide Append, BlocksOf;
    if ms != [] {
      var m, before := ms[|ms| - 1], ConvertAll(ms[..|ms| - 1]);
      ConversionKeepsTexts(ms[..|ms| - 1]);
      AppendKeepsPlain(before.messages, ToolResult(m.toolCallID, m.content));
      assert (before.messages + [AnthropicMessage("user", m.content, [])])[..|before.messages|] == before.messages;
      assert (before.messages + [AnthropicMessage("assistant", "", BlocksOf(m))])[..|before.messages|] ==
             before.messages;
    }
  }

  /**
   * Across the agent and the conversion: over any run from a well-paired session, every request the agent
   * sends converts to one in which each message with tool_use blocks is answered by the next message.
   */
  lemma {:induction false} EveryRequestConvertsPaired(w: AgentRun.World, t: AgentRun.Turn, rounds: seq<AgentRun.Round>,
                                                      k: nat, i: nat)
    requires t.end.Running? && t.requests == [] && WellPaired(t.messages)
    requires var sent := AgentRun.AfterRounds(w, t, rounds).requests;
             k < |sent| && i < |ConvertAll(sent[k]).messages| && HasUses(ConvertAll(sent[k]).messages[i])
    ensures AnsweredNext(ConvertAll(AgentRun.AfterRounds(w, t, rounds).requests[k]).messages, i)
  {
    hide ConvertAll, HasUses, AnsweredNext, WellPaired, AgentRun.AfterRounds;
    AgentRun.RunIsSound(w, t, rounds);
    PairingSurvives(AgentRun.AfterRounds(w, t, rounds).requests[k], i);
  }
}
