/** Building a streamed Anthropic answer against converting the same answer whole. */
module AnthropicAgreement {
  import opened AnthropicBridge
  import opened AnthropicTypes
  import opened ChatTypes
  import opened MessageBuilder
  import opened ResponseAssembler
  import opened Sequences
  import opened Wrappers
  import AgentRun

  // ---- The answer a stream carries --------------------------------------------------------

  /** A block under construction, with the index its events carry. */
  datatype Slot = Slot(index: int, block: Block)

  function Find(slots: seq<Slot>, index: int): (p: nat)
    ensures p <= |slots|
    ensures p < |slots| ==> slots[p].index == index
    ensures p == |slots| ==> forall i :: 0 <= i < |slots| ==> slots[i].index != index
  {
    if slots == [] then 0
    else
      var p := Find(slots[..|slots| - 1], index);
      if p < |slots| - 1 then p else if slots[|slots| - 1].index == index then |slots| - 1 else |slots|
  }

  function Grow(b: Block, d: Delta): Block {
    if d.kind == "text_delta" then b.(text := b.text + d.text)
    else if d.kind == "thinking_delta" then b.(thinking := b.thinking + d.thinking)
    else if d.kind == "input_json_delta" then b.(input := b.input + d.partialJSON)
    else b
  }

  function Accumulate(slots: seq<Slot>, e: Event): seq<Slot> {
    if e.kind == "content_block_start" && e.block.Some? then slots + [Slot(IndexOf(e), e.block.value.(input := ""))]
    else if e.kind == "content_block_delta" && e.delta.Some? then
      var p := Find(slots, IndexOf(e));
      if p < |slots| then slots[p := slots[p].(block := Grow(slots[p].block, e.delta.value))] else slots
    else slots
  }

  function Slots(events: seq<Event>): seq<Slot> {
    if events == [] then [] else Accumulate(Slots(events[..|events| - 1]), events[|events| - 1])
  }

  function Blocks(slots: seq<Slot>): (r: seq<Block>)
    ensures |r| == |slots|
  {
    seq(|slots|, i requires 0 <= i < |slots| => slots[i].block)
  }

  // Starts have fresh indexes and, for tools, fresh non-empty ids; deltas suit the block they name.
  predicate Fits(slots: seq<Slot>, e: Event) {
    && e.kind != "error" && e.kind != "message_stop"
    && (e.kind == "content_block_start" ==>
          && e.block.Some? && e.index.Some? && e.block.value.text == "" && e.block.value.thinking == ""
          && (forall i :: 0 <= i < |slots| ==> slots[i].index != e.index.value)
          && (e.block.value.kind == TOOL_USE ==>
                && e.block.value.id != ""
                && forall i :: 0 <= i < |slots| && slots[i].block.kind == TOOL_USE ==>
                    slots[i].block.id != e.block.value.id))
    && (e.kind == "content_block_delta" && e.delta.Some? ==>
          var p := Find(slots, IndexOf(e));
          p < |slots| && Suits(slots[p].block, e.delta.value))
  }

  predicate Suits(b: Block, d: Delta) {
    && (d.kind == "text_delta" ==> b.kind == TEXT)
    && (d.kind == "thinking_delta" ==> b.kind == THINKING)
    && (d.kind == "input_json_delta" ==> b.kind == TOOL_USE)
  }

  predicate WellFormed(events: seq<Event>) {
    events == [] || (WellFormed(events[..|events| - 1]) && Fits(Slots(events[..|events| - 1]), events[|events| - 1]))
  }

  // ---- Tool calls -------------------------------------------------------------------------

  function ToolCalls(slots: seq<Slot>): seq<ToolCall> {
    if slots == [] then []
    else
      var before, s := ToolCalls(slots[..|slots| - 1]), slots[|slots| - 1];
      if s.block.kind != TOOL_USE then before
      else before + [ToolCall(s.index, s.block.id, "function", s.block.name, s.block.input)]
  }

  predicate IsTool(slots: seq<Slot>, p: nat)
    requires p < |slots|
  {
    slots[p].block.kind == TOOL_USE
  }

  // The builder holds the tool blocks so far, in order, and finds each by its index.
  ghost predicate Holds(slots: seq<Slot>, b: Building) {
    && b.calls == ToolCalls(slots)
    && (forall p :: 0 <= p < |slots| && IsTool(slots, p) ==>
          slots[p].index in b.byIndex && b.byIndex[slots[p].index] == |ToolCalls(slots[..p])|)
    && (forall k :: k in b.byID ==> exists p :: 0 <= p < |slots| && IsTool(slots, p) && slots[p].block.id == k)
  }

  lemma {:induction false} ToolCallAt(slots: seq<Slot>, p: nat)
    requires p < |slots| && IsTool(slots, p)
    ensures |ToolCalls(slots[..p])| < |ToolCalls(slots)|
    ensures var b := slots[p].block;
            ToolCalls(slots)[|ToolCalls(slots[..p])|] == ToolCall(slots[p].index, b.id, "function", b.name, b.input)
  {
    var n := |slots| - 1;
    if p < n {
      assert slots[..n][..p] == slots[..p] && IsTool(slots[..n], p);
      ToolCallAt(slots[..n], p);
    }
  }

  lemma {:induction false} ToolCallsUpdate(slots: seq<Slot>, p: nat, input: string)
    requires p < |slots| && IsTool(slots, p)
    ensures |ToolCalls(slots[..p])| < |ToolCalls(slots)|
    ensures var q, calls := |ToolCalls(slots[..p])|, ToolCalls(slots);
            ToolCalls(slots[p := slots[p].(block := slots[p].block.(input := input))]) ==
                calls[q := calls[q].(arguments := input)]
  {
    ToolCallAt(slots, p);
    var n, after := |slots| - 1, slots[p := slots[p].(block := slots[p].block.(input := input))];
    if p < n {
      assert slots[..n][..p] == slots[..p] && IsTool(slots[..n], p);
      assert after[..n] == slots[..n][p := after[p]];
      ToolCallsUpdate(slots[..n], p, input);
    } else {
      assert after[..n] == slots[..n];
    }
  }

  // Blocks that are not tools, or do not change, are invisible to the list of calls.
  lemma {:induction false} ToolCallsIgnore(slots: seq<Slot>, p: nat, b: Block)
    requires p < |slots| && b.kind == slots[p].block.kind
    requires IsTool(slots, p) ==>
               b.id == slots[p].block.id && b.name == slots[p].block.name && b.input == slots[p].block.input
    ensures ToolCalls(slots[p := slots[p].(block := b)]) == ToolCalls(slots)
  {
    var n, after := |slots| - 1, slots[p := slots[p].(block := b)];
    if p < n {
      assert after[..n] == slots[..n][p := after[p]] && IsTool(slots[..n], p) == IsTool(slots, p);
      ToolCallsIgnore(slots[..n], p, b);
    } else {
      assert after[..n] == slots[..n];
    }
  }

  lemma {:induction false} ToolCallsSameLength(slots: seq<Slot>, p: nat, b: Block, q: nat)
    requires p < |slots| && q <= |slots| && b.kind == slots[p].block.kind
    ensures |ToolCalls(slots[p := slots[p].(block := b)][..q])| == |ToolCalls(slots[..q])|
    decreases q
  {
    var after := slots[p := slots[p].(block := b)];
    if q > 0 {
      assert after[..q][..q - 1] == after[..q - 1] && slots[..q][..q - 1] == slots[..q - 1];
      ToolCallsSameLength(slots, p, b, q - 1);
    }
  }

  lemma {:induction false} StartHolds(slots: seq<Slot>, b: Building, e: Event)
    requires InRange(b) && Holds(slots, b) && Fits(slots, e) && e.kind == "content_block_start"
             && e.block.value.kind == TOOL_USE
    ensures Holds(Accumulate(slots, e), Add(b, CallStart(e).toolCalls[0]))
  {
    var tc, after := CallStart(e).toolCalls[0], Accumulate(slots, e);
    assert after[..|slots|] == slots;
    assert tc.id !in b.byID;
    forall p | 0 <= p < |after| && IsTool(after, p)
      ensures |ToolCalls(after[..p])| == if p < |slots| then |ToolCalls(slots[..p])| else |b.calls|
    {
      assert p < |slots| ==> after[..p] == slots[..p] && IsTool(slots, p);
    }
    forall k | k in Add(b, tc).byID
      ensures exists p :: 0 <= p < |after| && IsTool(after, p) && after[p].block.id == k
    {
      if k == tc.id {
        assert IsTool(after, |slots|);
      } else {
        var p :| 0 <= p < |slots| && IsTool(slots, p) && slots[p].block.id == k;
        assert IsTool(after, p);
      }
    }
  }

  lemma {:induction false} ExtendHolds(slots: seq<Slot>, b: Building, after: Building, p: nat, block: Block)
    requires Holds(slots, b) && p < |slots| && block.kind == slots[p].block.kind && block.id == slots[p].block.id
    requires after == b.(calls := ToolCalls(slots[p := slots[p].(block := block)]))
    ensures Holds(slots[p := slots[p].(block := block)], after)
  {
    var grown := slots[p := slots[p].(block := block)];
    forall q | 0 <= q < |grown| && IsTool(grown, q)
      ensures grown[q].index in after.byIndex && after.byIndex[grown[q].index] == |ToolCalls(grown[..q])|
    {
      assert IsTool(slots, q);
      ToolCallsSameLength(slots, p, block, q);
    }
    forall k | k in after.byID
      ensures exists q :: 0 <= q < |grown| && IsTool(grown, q) && grown[q].block.id == k
    {
      var q :| 0 <= q < |slots| && IsTool(slots, q) && slots[q].block.id == k;
      assert IsTool(grown, q);
    }
  }

  lemma {:induction false} InputHolds(slots: seq<Slot>, b: Building, e: Event)
    requires InRange(b) && Holds(slots, b) && Fits(slots, e) && e.kind == "content_block_delta"
    requires e.delta.Some? && e.delta.value.kind == "input_json_delta"
    ensures Holds(Accumulate(slots, e), Add(b, MessageOfDelta(e).toolCalls[0]))
  {
    var p, tc, d := Find(slots, IndexOf(e)), MessageOfDelta(e).toolCalls[0], e.delta.value;
    assert IsTool(slots, p);
    var input := slots[p].block.input + d.partialJSON;
    ToolCallsUpdate(slots, p, input);
    ToolCallAt(slots, p);
    var q := |ToolCalls(slots[..p])|;
    assert Home(b, tc) == q;
    var after := Add(b, tc);
    assert b.calls[q].name + "" == b.calls[q].name;
    assert after.calls == b.calls[q := b.calls[q].(arguments := input)];
    assert after == b.(calls := after.calls);
    var grown := slots[p].block.(input := input);
    ExtendHolds(slots, b, after, p, grown);
  }

  // ---- Text and reasoning -----------------------------------------------------------------

  /** A fragment and the position of the block it belongs to. */
  datatype Piece = Piece(at: nat, text: string)

  function TextIn(d: Delta, kind: string): string {
    if kind == "text_delta" then d.text else d.thinking
  }

  // The fragments of one kind ("text_delta" or "thinking_delta"), in arrival order.
  function Pieces(events: seq<Event>, kind: string): seq<Piece> {
    if events == [] then []
    else
      var before, e := Pieces(events[..|events| - 1], kind), events[|events| - 1];
      if e.kind == "content_block_delta" && e.delta.Some? && e.delta.value.kind == kind
      then before + [Piece(Find(Slots(events[..|events| - 1]), IndexOf(e)), TextIn(e.delta.value, kind))]
      else before
  }

  function Arrival(ps: seq<Piece>): string {
    if ps == [] then "" else Arrival(ps[..|ps| - 1]) + ps[|ps| - 1].text
  }

  // The fragments of one block, and those of the first n blocks one after the other.
  function At(ps: seq<Piece>, k: nat): string {
    if ps == [] then ""
    else if ps[|ps| - 1].at == k then At(ps[..|ps| - 1], k) + ps[|ps| - 1].text
    else At(ps[..|ps| - 1], k)
  }

  function ByBlock(ps: seq<Piece>, n: nat): string {
    if n == 0 then "" else ByBlock(ps, n - 1) + At(ps, n - 1)
  }

  predicate InBlockOrder(ps: seq<Piece>) {
    forall i, j :: 0 <= i < j < |ps| ==> ps[i].at <= ps[j].at
  }

  lemma {:induction false} ByBlockOneMore(ps: seq<Piece>, p: Piece, n: nat)
    requires forall q :: q in ps ==> q.at <= p.at
    ensures ByBlock(ps + [p], n) == if n <= p.at then ByBlock(ps, n) else ByBlock(ps, n) + p.text
  {
    hide At;
    if n > 0 {
      var before, here := ByBlock(ps, n - 1), At(ps, n - 1);
      assert ByBlock(ps, n) == before + here && ByBlock(ps + [p], n) == ByBlock(ps + [p], n - 1) + At(ps + [p], n - 1);
      ByBlockOneMore(ps, p, n - 1);
      hide ByBlock;
      AtOneMore(ps, p, n - 1);
      if n - 1 == p.at {
        Associative(before, here, p.text);
      } else if n - 1 > p.at {
        NothingAt(ps, n - 1);
        assert before + "" == before && before + p.text + "" == before + p.text;
      }
    }
  }

  lemma {:induction false} AtOneMore(ps: seq<Piece>, p: Piece, k: nat)
    ensures At(ps + [p], k) == if p.at == k then At(ps, k) + p.text else At(ps, k)
  {
    assert (ps + [p])[..|ps|] == ps;
  }

  lemma {:induction false} NothingAt(ps: seq<Piece>, k: nat)
    requires forall q :: q in ps ==> q.at != k
    ensures At(ps, k) == ""
  {
    if ps != [] {
      NothingAt(ps[..|ps| - 1], k);
    }
  }

  lemma {:induction false} NothingByBlock(n: nat)
    ensures ByBlock([], n) == ""
  {
    if n > 0 {
      NothingByBlock(n - 1);
    }
  }

  lemma {:induction false} OrderedArrival(ps: seq<Piece>, n: nat)
    requires InBlockOrder(ps) && forall q :: q in ps ==> q.at < n
    ensures Arrival(ps) == ByBlock(ps, n)
  {
    if ps == [] {
      NothingByBlock(n);
    } else {
      var k := |ps| - 1;
      OrderedArrival(ps[..k], n);
      assert ps == ps[..k] + [ps[k]];
      ByBlockOneMore(ps[..k], ps[k], n);
    }
  }

  // Fragments at given positions, all empty but "x" at i and "y" at j.
  function Sparse(at: seq<nat>, i: nat, j: nat): (r: seq<Piece>)
    ensures |r| == |at|
  {
    seq(|at|, k requires 0 <= k < |at| => Piece(at[k], if k == i then "x" else if k == j then "y" else ""))
  }

  lemma {:induction false} SparseArrival(at: seq<nat>, i: nat, j: nat)
    requires i < j
    ensures Arrival(Sparse(at, i, j)) == (if i < |at| then "x" else "") + (if j < |at| then "y" else "")
  {
    if at != [] {
      var n, whole := |at| - 1, Sparse(at, i, j);
      var before := Arrival(Sparse(at[..n], i, j));
      SparseArrival(at[..n], i, j);
      assert whole[..n] == Sparse(at[..n], i, j);
      assert Arrival(whole) == before + whole[n].text;
      hide Arrival, Sparse;
      if n == i {
        assert before + "x" == "x" + "";
      } else if n == j {
        assert before + "y" == "x" + "y";
      } else {
        assert before + "" == before;
      }
    }
  }

  lemma {:induction false} SparseAt(at: seq<nat>, i: nat, j: nat, k: nat)
    requires i < j && (j < |at| ==> at[i] != at[j])
    ensures At(Sparse(at, i, j), k) ==
            if i < |at| && at[i] == k then "x" else if j < |at| && at[j] == k then "y" else ""
  {
    if at != [] {
      var n := |at| - 1;
      SparseAt(at[..n], i, j, k);
      assert Sparse(at, i, j)[..n] == Sparse(at[..n], i, j);
    }
  }

  lemma {:induction false} SparseByBlock(at: seq<nat>, i: nat, j: nat, n: nat)
    requires i < j < |at| && at[i] > at[j]
    ensures ByBlock(Sparse(at, i, j), n) == (if at[j] < n then "y" else "") + (if at[i] < n then "x" else "")
  {
    if n > 0 {
      SparseByBlock(at, i, j, n - 1);
      SparseAt(at, i, j, n - 1);
    }
  }

  function Positions(ps: seq<Piece>): seq<nat> {
    seq(|ps|, i requires 0 <= i < |ps| => ps[i].at)
  }

  /**
   * Arrival order reads the same as block order, whatever the fragments say, exactly when no fragment
   * belongs to a block before that of an earlier fragment.
   */
  lemma {:induction false} ArrivalIsBlockOrder(at: seq<nat>, n: nat)
    requires forall k :: k in at ==> k < n
    ensures (forall i, j :: 0 <= i < j < |at| ==> at[i] <= at[j]) <==>
            (forall ps: seq<Piece> :: Positions(ps) == at ==> Arrival(ps) == ByBlock(ps, n))
  {
    if i, j :| 0 <= i < j < |at| && at[i] > at[j] {
      var ps := Sparse(at, i, j);
      assert Positions(ps) == at;
      SparseArrival(at, i, j);
      SparseByBlock(at, i, j, n);
      assert at[i] in at && at[j] in at;
      assert Arrival(ps) == "xy" && ByBlock(ps, n) == "yx";
      assert "xy"[0] != "yx"[0];
    } else {
      forall ps: seq<Piece> | Positions(ps) == at
        ensures Arrival(ps) == ByBlock(ps, n)
      {
        assert forall k :: 0 <= k < |ps| ==> Positions(ps)[k] == ps[k].at && Positions(ps)[k] in at;
        assert forall q :: q in ps ==> q.at < n;
        OrderedArrival(ps, n);
      }
    }
  }

  // ---- Agreement --------------------------------------------------------------------------

  function Streamed(events: seq<Event>): Building {
    UpdateAll(NEW, AgentRun.Deltas(Run(events).chunks))
  }

  // One more event reaches the builder as at most one message.
  function Given(e: Event): Option<Message> {
    if e.kind == "content_block_start" && e.block.Some? && e.block.value.kind == TOOL_USE then Some(CallStart(e))
    else if e.kind == "content_block_delta" && e.delta.Some? && !IsEmpty(MessageOfDelta(e)) then Some(MessageOfDelta(e))
    else None
  }

  lemma {:induction false} OneMoreChunk(chunks: seq<Chunk>, c: Chunk)
    ensures AgentRun.Deltas(chunks + [c]) ==
            AgentRun.Deltas(chunks) + (if AgentRun.MessageOf(c).Some? then [AgentRun.MessageOf(c).value] else [])
  {
    assert (chunks + [c])[..|chunks|] == chunks;
  }

  lemma {:induction false} StepGives(b: Bridge, slots: seq<Slot>, e: Event)
    requires !b.closed && Fits(slots, e)
    ensures !Step(b, e).closed
    ensures AgentRun.Deltas(Step(b, e).chunks) ==
            AgentRun.Deltas(b.chunks) + (if Given(e).Some? then [Given(e).value] else [])
  {
    hide AgentRun.Deltas, Find;
    var ds := AgentRun.Deltas(b.chunks);
    assert ds + [] == ds;
    if Given(e).Some? {
      OneMoreChunk(b.chunks, ChatDelta(b, Given(e).value));
    }
    if e.delta.Some? {
      OneMoreChunk(b.chunks, FinishChunk(b, e));
    }
  }

  lemma {:induction false} StreamedOneMore(events: seq<Event>)
    requires WellFormed(events)
    ensures !Run(events).closed
    ensures events != [] ==>
              var before, g := Streamed(events[..|events| - 1]), Given(events[|events| - 1]);
              Streamed(events) == if g.Some? then Update(before, g.value) else before
    decreases |events|
  {
    hide Update, AgentRun.Deltas, Step, Given, Fits;
    if events != [] {
      var n := |events| - 1;
      StreamedOneMore(events[..n]);
      var b, g := Run(events[..n]), Given(events[n]);
      StepGives(b, Slots(events[..n]), events[n]);
      var ds := AgentRun.Deltas(b.chunks);
      assert ds + [] == ds;
      if g.Some? {
        assert (ds + [g.value])[..|ds|] == ds;
      }
    }
  }

  // Text and reasoning told so far, and the blocks they went to.
  ghost predicate Spread(slots: seq<Slot>, texts: seq<Piece>, thoughts: seq<Piece>) {
    && (forall q :: q in texts ==> q.at < |slots|) && (forall q :: q in thoughts ==> q.at < |slots|)
    && (forall p :: 0 <= p < |slots| ==>
          slots[p].block.text == At(texts, p) && slots[p].block.thinking == At(thoughts, p))
    && (forall p :: 0 <= p < |slots| && slots[p].block.kind != TEXT ==> slots[p].block.text == "")
    && (forall p :: 0 <= p < |slots| && slots[p].block.kind != THINKING ==> slots[p].block.thinking == "")
  }

  lemma {:induction false} SpreadStays(events: seq<Event>)
    requires WellFormed(events)
    ensures Spread(Slots(events), Pieces(events, "text_delta"), Pieces(events, "thinking_delta"))
  {
    hide Find;
    if events != [] {
      var n := |events| - 1;
      SpreadStays(events[..n]);
      SpreadStep(Slots(events[..n]), Pieces(events[..n], "text_delta"), Pieces(events[..n], "thinking_delta"),
                 events[n]);
    }
  }

  lemma {:induction false} SpreadStep(slots: seq<Slot>, texts: seq<Piece>, thoughts: seq<Piece>, e: Event)
    requires Spread(slots, texts, thoughts) && Fits(slots, e)
    ensures var told := e.kind == "content_block_delta" && e.delta.Some?;
            var p := Find(slots, IndexOf(e));
            Spread(Accumulate(slots, e),
                   if told && e.delta.value.kind == "text_delta" then texts + [Piece(p, e.delta.value.text)] else texts,
                   if told && e.delta.value.kind == "thinking_delta" then thoughts + [Piece(p, e.delta.value.thinking)]
                   else thoughts)
  {
    hide Find;
    if e.kind == "content_block_delta" && e.delta.Some? {
      SpreadDelta(slots, texts, thoughts, Find(slots, IndexOf(e)), e.delta.value);
    } else if e.kind == "content_block_start" {
      NothingAt(texts, |slots|);
      NothingAt(thoughts, |slots|);
    }
  }

  lemma {:induction false} SpreadDelta(slots: seq<Slot>, texts: seq<Piece>, thoughts: seq<Piece>, p: nat, d: Delta)
    requires Spread(slots, texts, thoughts) && p < |slots| && Suits(slots[p].block, d)
    ensures Spread(slots[p := slots[p].(block := Grow(slots[p].block, d))],
                   if d.kind == "text_delta" then texts + [Piece(p, d.text)] else texts,
                   if d.kind == "thinking_delta" then thoughts + [Piece(p, d.thinking)] else thoughts)
  {
    if d.kind == "text_delta" {
      SpreadText(slots, texts, thoughts, p, d.text);
    } else if d.kind == "thinking_delta" {
      SpreadThought(slots, texts, thoughts, p, d.thinking);
    } else {
      hide At;
    }
    hide Spread;
  }

  lemma {:induction false} SpreadText(slots: seq<Slot>, texts: seq<Piece>, thoughts: seq<Piece>, p: nat, t: string)
    requires Spread(slots, texts, thoughts) && p < |slots| && slots[p].block.kind == TEXT
    ensures Spread(slots[p := slots[p].(block := slots[p].block.(text := slots[p].block.text + t))],
                   texts + [Piece(p, t)], thoughts)
  {
    forall k: nat
      ensures At(texts + [Piece(p, t)], k) == if p == k then At(texts, k) + t else At(texts, k)
    {
      AtOneMore(texts, Piece(p, t), k);
    }
    hide At;
  }

  lemma {:induction false} SpreadThought(slots: seq<Slot>, texts: seq<Piece>, thoughts: seq<Piece>, p: nat, t: string)
    requires Spread(slots, texts, thoughts) && p < |slots| && slots[p].block.kind == THINKING
    ensures Spread(slots[p := slots[p].(block := slots[p].block.(thinking := slots[p].block.thinking + t))],
                   texts, thoughts + [Piece(p, t)])
  {
    forall k: nat
      ensures At(thoughts + [Piece(p, t)], k) == if p == k then At(thoughts, k) + t else At(thoughts, k)
    {
      AtOneMore(thoughts, Piece(p, t), k);
    }
    hide At;
  }

  lemma {:induction false} HoldsStep(slots: seq<Slot>, b: Building, e: Event)
    requires InRange(b) && Holds(slots, b) && Fits(slots, e)
    ensures Holds(Accumulate(slots, e), if Given(e).Some? then Update(b, Given(e).value) else b)
  {
    hide Holds, Find;
    if e.kind == "content_block_start" {
      if e.block.value.kind == TOOL_USE {
        StartHolds(slots, b, e);
        GiveCall(b, CallStart(e));
        HoldsIgnoresText(Accumulate(slots, e), Add(b, CallStart(e).toolCalls[0]), Update(b, CallStart(e)));
      } else {
        OtherStartHolds(slots, b, e);
      }
    } else if e.kind == "content_block_delta" && e.delta.Some? {
      var d := e.delta.value;
      if d.kind == "input_json_delta" {
        InputHolds(slots, b, e);
        GiveCall(b, MessageOfDelta(e));
        HoldsIgnoresText(Accumulate(slots, e), Add(b, MessageOfDelta(e).toolCalls[0]), Update(b, MessageOfDelta(e)));
      } else {
        var p := Find(slots, IndexOf(e));
        var block := Grow(slots[p].block, d);
        TextHolds(slots, b, p, block);
        GiveText(b, MessageOfDelta(e));
        HoldsIgnoresText(Accumulate(slots, e), b, Update(b, MessageOfDelta(e)));
      }
    }
  }

  lemma {:induction false} TextHolds(slots: seq<Slot>, b: Building, p: nat, block: Block)
    requires Holds(slots, b) && p < |slots| && block == slots[p].block.(text := block.text, thinking := block.thinking)
    ensures Holds(slots[p := slots[p].(block := block)], b)
  {
    ToolCallsIgnore(slots, p, block);
    assert b == b.(calls := ToolCalls(slots[p := slots[p].(block := block)]));
    ExtendHolds(slots, b, b, p, block);
  }

  lemma {:induction false} OtherStartHolds(slots: seq<Slot>, b: Building, e: Event)
    requires Holds(slots, b) && Fits(slots, e) && e.kind == "content_block_start" && e.block.value.kind != TOOL_USE
    ensures Holds(Accumulate(slots, e), b)
  {
    var after := Accumulate(slots, e);
    assert after[..|slots|] == slots;
    forall p | 0 <= p < |after| && IsTool(after, p)
      ensures after[p].index in b.byIndex && b.byIndex[after[p].index] == |ToolCalls(after[..p])|
    {
      assert IsTool(slots, p) && after[..p] == slots[..p];
    }
    forall k | k in b.byID
      ensures exists p :: 0 <= p < |after| && IsTool(after, p) && after[p].block.id == k
    {
      var p :| 0 <= p < |slots| && IsTool(slots, p) && slots[p].block.id == k;
      assert IsTool(after, p);
    }
  }

  lemma {:induction false} HoldsIgnoresText(slots: seq<Slot>, b: Building, c: Building)
    requires Holds(slots, b) && c.calls == b.calls && c.byIndex == b.byIndex && c.byID == b.byID
    ensures Holds(slots, c)
  {
  }

  // A message of one fragment, and one of none.
  lemma {:induction false} GiveCall(b: Building, m: Message)
    requires InRange(b) && |m.toolCalls| == 1
    ensures var u, a := Update(b, m), Add(b, m.toolCalls[0]);
            u.calls == a.calls && u.byIndex == a.byIndex && u.byID == a.byID
  {
    var c := b.(role := if b.role == "" then ROLE_ASSISTANT else b.role, content := b.content + m.content,
                reasoning := b.reasoning + m.reasoning);
    assert m.toolCalls[..0] == [] && AddAll(c, []) == c;
    assert AddAll(c, m.toolCalls) == Add(c, m.toolCalls[0]);
  }

  lemma {:induction false} GiveText(b: Building, m: Message)
    requires InRange(b) && m.toolCalls == []
    ensures var u := Update(b, m); u.calls == b.calls && u.byIndex == b.byIndex && u.byID == b.byID
  {
  }

  lemma {:induction false} HoldsStays(events: seq<Event>)
    requires WellFormed(events)
    ensures Holds(Slots(events), Streamed(events))
  {
    hide Holds, Accumulate, Fits, Update, Given, UpdateAll, Run;
    if events == [] {
      NothingHolds();
    } else {
      var n := |events| - 1;
      HoldsStays(events[..n]);
      StreamedOneMore(events);
      HoldsStep(Slots(events[..n]), Streamed(events[..n]), events[n]);
    }
  }

  lemma {:induction false} NothingHolds()
    ensures Holds([], Streamed([]))
  {
    assert Run([]).chunks == [] && AgentRun.Deltas([]) == [];
  }

  lemma {:induction false} StreamedText(events: seq<Event>)
    requires WellFormed(events)
    ensures Streamed(events).content == Arrival(Pieces(events, "text_delta"))
    ensures Streamed(events).reasoning == Arrival(Pieces(events, "thinking_delta"))
  {
    hide Find, Accumulate, Fits, Update, UpdateAll, Run;
    if events == [] {
      assert Streamed([]) == NEW by { NothingStreamed(); }
    } else {
      var n := |events| - 1;
      var e := events[n];
      StreamedText(events[..n]);
      StreamedOneMore(events);
      if Given(e).Some? {
        AgentRun.UpdateAddsText(Streamed(events[..n]), Given(e).value);
      }
      GivenText(e);
      var before := Streamed(events[..n]);
      assert before.content + "" == before.content && before.reasoning + "" == before.reasoning;
      PiecesOneMore(events, "text_delta");
      PiecesOneMore(events, "thinking_delta");
    }
  }

  lemma {:induction false} NothingStreamed()
    ensures Streamed([]) == NEW
  {
    assert Run([]).chunks == [] && AgentRun.Deltas([]) == [];
  }

  // The text of one kind an event adds.
  function Told(e: Event, kind: string): string {
    if e.kind == "content_block_delta" && e.delta.Some? && e.delta.value.kind == kind then TextIn(e.delta.value, kind)
    else ""
  }

  lemma {:induction false} PiecesOneMore(events: seq<Event>, kind: string)
    requires events != []
    ensures var n := |events| - 1;
            Arrival(Pieces(events, kind)) == Arrival(Pieces(events[..n], kind)) + Told(events[n], kind)
  {
    hide Find;
    var n := |events| - 1;
    var before := Pieces(events[..n], kind);
    assert Arrival(before) + "" == Arrival(before);
    if Pieces(events, kind) != before {
      assert Pieces(events, kind)[..|before|] == before;
    }
  }

  lemma {:induction false} GivenText(e: Event)
    ensures var g := if Given(e).Some? then Given(e).value else EMPTY_MESSAGE;
            g.content == Told(e, "text_delta") && g.reasoning == Told(e, "thinking_delta")
  {
  }

  // The whole answer, converted.
  lemma {:induction false} WholeText(slots: seq<Slot>, n: nat, texts: seq<Piece>, thoughts: seq<Piece>)
    requires Spread(slots, texts, thoughts) && n <= |slots|
    ensures AddBlocks(Blocks(slots)[..n]).content == ByBlock(texts, n)
    ensures AddBlocks(Blocks(slots)[..n]).reasoning == ByBlock(thoughts, n)
  {
    if n > 0 {
      WholeText(slots, n - 1, texts, thoughts);
      assert Blocks(slots)[..n][..n - 1] == Blocks(slots)[..n - 1];
      assert ByBlock(texts, n - 1) + "" == ByBlock(texts, n - 1)
             && ByBlock(thoughts, n - 1) + "" == ByBlock(thoughts, n - 1);
    }
  }

  // The same calls, up to the stream index they carry.
  predicate SameCalls(p: seq<ToolCall>, q: seq<ToolCall>) {
    |p| == |q| && forall i :: 0 <= i < |p| ==> p[i] == q[i].(index := p[i].index)
  }

  // No tool block is without input.
  predicate AllInputs(slots: seq<Slot>) {
    forall p :: 0 <= p < |slots| && IsTool(slots, p) ==> slots[p].block.input != ""
  }

  lemma {:induction false} InputsOneMore(slots: seq<Slot>)
    requires slots != []
    ensures var n := |slots| - 1;
            AllInputs(slots) <==>
            AllInputs(slots[..n]) && (slots[n].block.kind == TOOL_USE ==> slots[n].block.input != "")
  {
    var n := |slots| - 1;
    assert forall p :: 0 <= p < n ==> IsTool(slots[..n], p) == IsTool(slots, p);
    assert IsTool(slots, n) <==> slots[n].block.kind == TOOL_USE;
  }

  lemma {:induction false} SameCallsOneMore(p: seq<ToolCall>, q: seq<ToolCall>, x: ToolCall, y: ToolCall)
    requires |p| == |q|
    ensures SameCalls(p + [x], q + [y]) <==> SameCalls(p, q) && x == y.(index := x.index)
  {
    if SameCalls(p + [x], q + [y]) {
      assert (p + [x])[|p|] == x && (q + [y])[|p|] == y;
      assert forall i :: 0 <= i < |p| ==> (p + [x])[i] == p[i] && (q + [y])[i] == q[i];
    }
  }

  lemma {:induction false} WholeCalls(slots: seq<Slot>)
    ensures |ToolCalls(slots)| == |AddBlocks(Blocks(slots)).toolCalls|
    ensures SameCalls(ToolCalls(slots), AddBlocks(Blocks(slots)).toolCalls) <==> AllInputs(slots)
  {
    hide SameCalls, AllInputs;
    if slots == [] {
      assert SameCalls([], []) by { NoCalls(); }
      assert AllInputs(slots) by { NoCalls(); }
    } else {
      var n := |slots| - 1;
      WholeCalls(slots[..n]);
      assert Blocks(slots)[..n] == Blocks(slots[..n]);
      InputsOneMore(slots);
      var b, before, after := slots[n].block, ToolCalls(slots[..n]), AddBlocks(Blocks(slots[..n])).toolCalls;
      if b.kind == TOOL_USE {
        SameCallsOneMore(before, after, ToolCall(slots[n].index, b.id, "function", b.name, b.input),
                         CallOf(|after|, b));
      }
    }
  }

  lemma {:induction false} NoCalls()
    ensures SameCalls([], []) && AllInputs([])
  {
  }

  /**
   * Streaming and converting a well-formed run, interleaved or not, agree on the calls exactly when no
   * tool input is empty; and on text and reasoning exactly as far as arrival order reads the same as
   * block order.
   */
  lemma {:induction false} StreamedIsWhole(events: seq<Event>)
    requires WellFormed(events)
    ensures var streamed, whole := Built(Streamed(events)), AddBlocks(Blocks(Slots(events)));
            var texts, thoughts, n := Pieces(events, "text_delta"), Pieces(events, "thinking_delta"), |Slots(events)|;
            && (streamed.content == whole.content <==> Arrival(texts) == ByBlock(texts, n))
            && (streamed.reasoning == whole.reasoning <==> Arrival(thoughts) == ByBlock(thoughts, n))
            && (InBlockOrder(texts) ==> streamed.content == whole.content)
            && (InBlockOrder(thoughts) ==> streamed.reasoning == whole.reasoning)
            && (SameCalls(streamed.toolCalls, whole.toolCalls) <==> AllInputs(Slots(events)))
  {
    hide Slots, Pieces, Streamed, WellFormed, Find;
    var slots, texts, thoughts := Slots(events), Pieces(events, "text_delta"), Pieces(events, "thinking_delta");
    HoldsStays(events);
    StreamedText(events);
    SpreadStays(events);
    WholeText(slots, |slots|, texts, thoughts);
    assert Blocks(slots)[..|slots|] == Blocks(slots);
    if InBlockOrder(texts) {
      OrderedArrival(texts, |slots|);
    }
    if InBlockOrder(thoughts) {
      OrderedArrival(thoughts, |slots|);
    }
    WholeCalls(slots);
  }

  // ---- The same events in other words -----------------------------------------------------

  // An event without the words of its fragment.
  function Wordless(e: Event): Event {
    if e.delta.Some? then e.(delta := Some(e.delta.value.(text := "", thinking := ""))) else e
  }

  // The same events up to the texts of their fragments.
  ghost predicate SameShape(a: seq<Event>, b: seq<Event>) {
    |a| == |b| && forall i :: 0 <= i < |a| ==> Wordless(a[i]) == Wordless(b[i])
  }

  function EmptySlot(s: Slot): Slot {
    s.(block := s.block.(text := "", thinking := ""))
  }

  ghost predicate SameSlots(p: seq<Slot>, q: seq<Slot>) {
    |p| == |q| && forall i :: 0 <= i < |p| ==> EmptySlot(p[i]) == EmptySlot(q[i])
  }

  predicate IsWords(kind: string) {
    kind == "text_delta" || kind == "thinking_delta"
  }

  predicate IsFragment(e: Event, kind: string) {
    e.kind == "content_block_delta" && e.delta.Some? && e.delta.value.kind == kind
  }

  lemma {:induction false} FindSame(p: seq<Slot>, q: seq<Slot>, index: int)
    requires SameSlots(p, q)
    ensures Find(p, index) == Find(q, index)
  {
    if p != [] {
      var n := |p| - 1;
      assert EmptySlot(p[n]) == EmptySlot(q[n]);
      FindSame(p[..n], q[..n], index);
    }
  }

  lemma {:induction false} StepSame(p: seq<Slot>, q: seq<Slot>, a: Event, b: Event)
    requires SameSlots(p, q) && Wordless(a) == Wordless(b)
    ensures SameSlots(Accumulate(p, a), Accumulate(q, b))
  {
    hide Find;
    FindSame(p, q, IndexOf(a));
    var k := Find(p, IndexOf(a));
    if k < |p| {
      assert EmptySlot(p[k]) == EmptySlot(q[k]);
    }
  }

  lemma {:induction false} FitsSame(p: seq<Slot>, q: seq<Slot>, a: Event, b: Event)
    requires SameSlots(p, q) && Wordless(a) == Wordless(b)
    ensures Fits(p, a) ==> Fits(q, b)
  {
    hide Find;
    FindSame(p, q, IndexOf(a));
    assert forall i :: 0 <= i < |p| ==> EmptySlot(p[i]) == EmptySlot(q[i]);
  }

  lemma {:induction false} ShapeStays(a: seq<Event>, b: seq<Event>)
    requires SameShape(a, b)
    ensures SameSlots(Slots(a), Slots(b)) && (WellFormed(a) ==> WellFormed(b))
  {
    hide Accumulate, Fits, Wordless, SameSlots;
    if a == [] {
      assert SameSlots([], []) by { NoSlots(); }
    } else {
      var n := |a| - 1;
      ShapeStays(a[..n], b[..n]);
      assert Wordless(a[n]) == Wordless(b[n]);
      StepSame(Slots(a[..n]), Slots(b[..n]), a[n], b[n]);
      FitsSame(Slots(a[..n]), Slots(b[..n]), a[n], b[n]);
    }
  }

  lemma {:induction false} NoSlots()
    ensures SameSlots([], [])
  {
  }

  // The texts of the fragments do not say where they go.
  lemma {:induction false} PositionsSame(a: seq<Event>, b: seq<Event>, kind: string)
    requires SameShape(a, b) && IsWords(kind)
    ensures Positions(Pieces(a, kind)) == Positions(Pieces(b, kind))
  {
    hide Find, Slots, SameSlots;
    if a != [] {
      var n := |a| - 1;
      PositionsSame(a[..n], b[..n], kind);
      ShapeStays(a[..n], b[..n]);
      assert Wordless(a[n]) == Wordless(b[n]);
      FindSame(Slots(a[..n]), Slots(b[..n]), IndexOf(a[n]));
      PositionsOneMore(a, kind);
      PositionsOneMore(b, kind);
    }
  }

  lemma {:induction false} PositionsOneMore(events: seq<Event>, kind: string)
    requires events != []
    ensures var n := |events| - 1;
            Positions(Pieces(events, kind)) ==
            Positions(Pieces(events[..n], kind)) +
            (if IsFragment(events[n], kind) then [Find(Slots(events[..n]), IndexOf(events[n]))] else [])
  {
    hide Find, Slots;
  }

  // A fragment with another text.
  function Say(e: Event, kind: string, text: string): Event
    requires IsFragment(e, kind)
  {
    e.(delta := Some(if kind == "text_delta" then e.delta.value.(text := text) else e.delta.value.(thinking := text)))
  }

  // The run whose fragments of one kind read as given.
  function Reworded(events: seq<Event>, kind: string, ps: seq<Piece>): seq<Event>
    requires |ps| == |Pieces(events, kind)|
  {
    if events == [] then []
    else
      var n := |events| - 1;
      if IsFragment(events[n], kind)
      then Reworded(events[..n], kind, ps[..|ps| - 1]) + [Say(events[n], kind, ps[|ps| - 1].text)]
      else Reworded(events[..n], kind, ps) + [events[n]]
  }

  lemma {:induction false} RewordedShape(events: seq<Event>, kind: string, ps: seq<Piece>)
    requires |ps| == |Pieces(events, kind)| && IsWords(kind)
    ensures SameShape(events, Reworded(events, kind, ps))
  {
    hide Find, Slots;
    if events != [] {
      var n := |events| - 1;
      RewordedShape(events[..n], kind, if IsFragment(events[n], kind) then ps[..|ps| - 1] else ps);
      assert events == events[..n] + [events[n]];
    }
  }

  lemma {:induction false} RewordedPieces(events: seq<Event>, kind: string, ps: seq<Piece>)
    requires Positions(ps) == Positions(Pieces(events, kind)) && IsWords(kind)
    ensures |ps| == |Pieces(events, kind)| && Pieces(Reworded(events, kind, ps), kind) == ps
  {
    SamePositions(ps, Pieces(events, kind));
    hide Find, Slots, Pieces, Reworded, Positions, IsFragment;
    if events == [] {
      NothingReworded(kind, ps);
    } else {
      var n, m, e := |events| - 1, |ps| - 1, events[|events| - 1];
      var before := Pieces(events[..n], kind);
      PositionsOneMore(events, kind);
      RewordedOneMore(events, kind, ps);
      if IsFragment(e, kind) {
        LastPosition(ps, before, Find(Slots(events[..n]), IndexOf(e)));
        RewordedPieces(events[..n], kind, ps[..m]);
      } else {
        assert Positions(before) + [] == Positions(before);
        RewordedPieces(events[..n], kind, ps);
        assert ps + [] == ps;
      }
    }
  }

  lemma {:induction false} LastPosition(ps: seq<Piece>, before: seq<Piece>, at: nat)
    requires Positions(ps) == Positions(before) + [at]
    ensures var m := |ps| - 1;
            m >= 0 && Positions(ps[..m]) == Positions(before) && ps == ps[..m] + [Piece(at, ps[m].text)]
  {
    var m := |ps| - 1;
    assert |Positions(ps)| == |ps| && |Positions(before)| == |before|;
    assert Positions(ps)[m] == ps[m].at;
    assert Positions(ps)[..m] == Positions(ps[..m]);
  }

  lemma {:induction false} SamePositions(ps: seq<Piece>, qs: seq<Piece>)
    requires Positions(ps) == Positions(qs)
    ensures |ps| == |qs|
  {
    assert |Positions(ps)| == |ps| && |Positions(qs)| == |qs|;
  }

  lemma {:induction false} NothingReworded(kind: string, ps: seq<Piece>)
    requires |ps| == |Pieces([], kind)|
    ensures |ps| == 0 && Pieces(Reworded([], kind, ps), kind) == []
  {
  }

  // The fragments of the reworded run, by those of what precedes its last event.
  lemma {:induction false} RewordedOneMore(events: seq<Event>, kind: string, ps: seq<Piece>)
    requires events != [] && |ps| == |Pieces(events, kind)| && IsWords(kind)
    ensures var n, e := |events| - 1, events[|events| - 1];
            var fits := if IsFragment(e, kind) then ps[..|ps| - 1] else ps;
            && |fits| == |Pieces(events[..n], kind)|
            && Pieces(Reworded(events, kind, ps), kind) ==
               Pieces(Reworded(events[..n], kind, fits), kind) +
               (if IsFragment(e, kind) then [Piece(Find(Slots(events[..n]), IndexOf(e)), ps[|ps| - 1].text)] else [])
  {
    hide Find, Slots, SameSlots, SameShape;
    var n, e := |events| - 1, events[|events| - 1];
    var fits := if IsFragment(e, kind) then ps[..|ps| - 1] else ps;
    RewordedShape(events[..n], kind, fits);
    var before, whole := Reworded(events[..n], kind, fits), Reworded(events, kind, ps);
    ShapeStays(events[..n], before);
    FindSame(Slots(events[..n]), Slots(before), IndexOf(e));
    assert whole != [] && whole[..|whole| - 1] == before;
    assert Pieces(before, kind) + [] == Pieces(before, kind);
  }

  // Streaming and converting agree on the words of one kind.
  predicate Agree(events: seq<Event>, kind: string) {
    var streamed, whole := Built(Streamed(events)), AddBlocks(Blocks(Slots(events)));
    if kind == "text_delta" then streamed.content == whole.content else streamed.reasoning == whole.reasoning
  }

  lemma {:induction false} AgreeIs(events: seq<Event>, kind: string)
    requires WellFormed(events) && IsWords(kind)
    ensures Agree(events, kind) <==> Arrival(Pieces(events, kind)) == ByBlock(Pieces(events, kind), |Slots(events)|)
  {
    hide Slots, Pieces, Streamed, WellFormed, Find, InBlockOrder, AllInputs, SameCalls;
    StreamedIsWhole(events);
  }

  /**
   * Streaming and converting agree on a well-formed run, and on each one with the same events up to their
   * texts, exactly when no fragment belongs to a block before that of an earlier fragment.
   */
  lemma {:induction false} OrderDecidesAgreement(events: seq<Event>, kind: string)
    requires WellFormed(events) && IsWords(kind)
    ensures InBlockOrder(Pieces(events, kind)) <==> forall other :: SameShape(events, other) ==> Agree(other, kind)
  {
    hide Slots, Pieces, WellFormed, Find, Agree, SameShape, SameSlots, Arrival, ByBlock;
    var ps, n := Pieces(events, kind), |Slots(events)|;
    var at := Positions(ps);
    PiecesInside(events, kind);
    ArrivalIsBlockOrder(at, n);
    assert InBlockOrder(ps) <==> forall i, j :: 0 <= i < j < |at| ==> at[i] <= at[j] by {
      assert forall i :: 0 <= i < |ps| ==> at[i] == ps[i].at;
    }
    forall other | SameShape(events, other)
      ensures Agree(other, kind) <==> Arrival(Pieces(other, kind)) == ByBlock(Pieces(other, kind), n)
      ensures Positions(Pieces(other, kind)) == at
    {
      ShapeStays(events, other);
      SlotCount(Slots(events), Slots(other));
      PositionsSame(events, other, kind);
      AgreeIs(other, kind);
    }
    if forall other :: SameShape(events, other) ==> Agree(other, kind) {
      forall qs: seq<Piece> | Positions(qs) == at
        ensures Arrival(qs) == ByBlock(qs, n)
      {
        RewordedPieces(events, kind, qs);
        RewordedShape(events, kind, qs);
        assert SameShape(events, Reworded(events, kind, qs));
      }
    }
  }

  lemma {:induction false} SlotCount(p: seq<Slot>, q: seq<Slot>)
    requires SameSlots(p, q)
    ensures |p| == |q|
  {
  }

  lemma {:induction false} PiecesInside(events: seq<Event>, kind: string)
    requires WellFormed(events) && IsWords(kind)
    ensures forall k :: k in Positions(Pieces(events, kind)) ==> k < |Slots(events)|
  {
    hide Slots, Pieces, WellFormed, Find;
    SpreadStays(events);
    var ps := Pieces(events, kind);
    forall k | k in Positions(ps)
      ensures k < |Slots(events)|
    {
      var i :| 0 <= i < |ps| && Positions(ps)[i] == k;
      assert ps[i] in ps;
    }
  }

  /** The stop ends the stream: it adds nothing, and whatever follows it is not read. */
  lemma {:induction false} NothingAfterTheStop(events: seq<Event>, stop: Event, rest: seq<Event>)
    requires WellFormed(events) && stop.kind == "message_stop"
    ensures Streamed(events + [stop] + rest) == Streamed(events)
  {
    hide UpdateAll, AgentRun.Deltas;
    var n, all := |events|, events + [stop] + rest;
    assert all[..n + 1][..n] == events && all[..n + 1][n] == stop;
    StreamedOneMore(events);
    assert Run(all[..n + 1]) == Run(events).(closed := true);
    ClosedStays(all, n + 1);
  }

  function TextStart(index: int): Event {
    Event("content_block_start", Some(index), None, Some(TextBlock("")), None, None, None)
  }

  function TextDelta(index: int, text: string): Event {
    Event("content_block_delta", Some(index), None, None, Some(Delta("text_delta", text, "", "", "")), None, None)
  }

  const TWO_STARTS := [TextStart(0), TextStart(1)]
  const INTERLEAVED := TWO_STARTS + [TextDelta(1, "x")] + [TextDelta(0, "y")]

  lemma {:induction false} OneMoreEvent(events: seq<Event>, e: Event)
    ensures WellFormed(events + [e]) == (WellFormed(events) && Fits(Slots(events), e))
    ensures Slots(events + [e]) == Accumulate(Slots(events), e)
    ensures e.kind == "content_block_delta" && e.delta.Some? && e.delta.value.kind == "text_delta" ==>
              Pieces(events + [e], "text_delta") ==
              Pieces(events, "text_delta") + [Piece(Find(Slots(events), IndexOf(e)), e.delta.value.text)]
  {
    assert (events + [e])[..|events|] == events;
  }

  lemma {:induction false} TwoStarts()
    ensures WellFormed(TWO_STARTS) && Pieces(TWO_STARTS, "text_delta") == []
    ensures Slots(TWO_STARTS) == [Slot(0, TextBlock("")), Slot(1, TextBlock(""))]
  {
    var one, slot := [TextStart(0)], Slot(0, TextBlock(""));
    assert one == [] + one && TWO_STARTS == one + [TextStart(1)];
    OneMoreEvent([], TextStart(0));
    OneMoreEvent(one, TextStart(1));
    NoPieces(one);
    NoPieces(TWO_STARTS);
    assert WellFormed([]) && Slots([]) == [];
    hide WellFormed, Slots, Pieces, TWO_STARTS, Find;
    assert Slots(one) == [slot];
  }

  lemma {:induction false} NoPieces(events: seq<Event>)
    requires forall e :: e in events ==> e.kind == "content_block_start"
    ensures Pieces(events, "text_delta") == []
  {
    if events != [] {
      NoPieces(events[..|events| - 1]);
    }
  }

  lemma {:induction false} InterleavedRun()
    ensures WellFormed(INTERLEAVED)
    ensures Slots(INTERLEAVED) == [Slot(0, TextBlock("y")), Slot(1, TextBlock("x"))]
    ensures Pieces(INTERLEAVED, "text_delta") == [Piece(1, "x"), Piece(0, "y")]
  {
    hide Slots, Pieces, WellFormed, Find;
    var a, b, x := TextBlock(""), TextDelta(1, "x"), TextDelta(0, "y");
    TwoStarts();
    TwoSlots(Slot(0, a), Slot(1, a));
    assert "" + "x" == "x" && "" + "y" == "y";
    OneMoreEvent(TWO_STARTS, b);
    var three := TWO_STARTS + [b];
    assert Slots(three) == [Slot(0, a), Slot(1, TextBlock("x"))];
    TwoSlots(Slot(0, a), Slot(1, TextBlock("x")));
    OneMoreEvent(three, x);
  }

  /** Two interleaved text blocks read differently streamed and whole. */
  lemma {:induction false} InterleavedTextDiffers()
    ensures WellFormed(INTERLEAVED)
    ensures Built(Streamed(INTERLEAVED)).content == "xy" && AddBlocks(Blocks(Slots(INTERLEAVED))).content == "yx"
  {
    hide Slots, Pieces, WellFormed, Streamed, Find, AddBlocks, ByBlock, Arrival, Accumulate, INTERLEAVED;
    InterleavedRun();
    StreamedText(INTERLEAVED);
    SpreadStays(INTERLEAVED);
    var ps := [Piece(1, "x"), Piece(0, "y")];
    TwoPieces(ps);
    WholeText(Slots(INTERLEAVED), 2, ps, Pieces(INTERLEAVED, "thinking_delta"));
    assert Blocks(Slots(INTERLEAVED))[..2] == Blocks(Slots(INTERLEAVED));
  }

  lemma {:induction false} OnePiece(p: Piece)
    ensures Arrival([p]) == p.text && At([p], p.at) == p.text
  {
    assert [p][..0] == [];
    assert "" + p.text == p.text;
  }

  lemma {:induction false} TwoPieces(ps: seq<Piece>)
    requires ps == [Piece(1, "x"), Piece(0, "y")]
    ensures Arrival(ps) == "xy" && ByBlock(ps, 2) == "yx"
  {
    var one := [Piece(1, "x")];
    assert ps[..1] == one;
    OnePiece(one[0]);
    NothingAt(one, 0);
    assert Arrival(ps) == "x" + "y";
    assert At(ps, 0) == "" + "y" && At(ps, 1) == "x";
    assert ByBlock(ps, 0) == "" && ByBlock(ps, 1) == "" + "y";
  }

  lemma {:induction false} TwoSlots(a: Slot, b: Slot)
    requires a.index == 0 && b.index == 1
    ensures Find([a, b], 0) == 0 && Find([a, b], 1) == 1
  {
    assert [a, b][..1] == [a] && [a][..0] == [];
  }
}
