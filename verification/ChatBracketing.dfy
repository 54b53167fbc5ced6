/**
 * Exactly which chat runs are decoded into bracketed content events. The decoder keeps reasoning under
 * the key -1 of its tool indexes, so a call under that index can meet it there.
 */
module ChatBracketing {
  import opened Bracketing
  import opened Canonical
  import opened ChatStream
  import opened Json
  import opened StreamTypes
  import opened Walks
  import opened Wrappers
  import Streams

  // ---- What frames put under the decoder's keys -------------------------------------------

  /** A piece of reasoning or of a call: its key, its kind, and whether it carries text or arguments. */
  datatype Fragment = Fragment(key: int, kind: ContentType, speaks: bool)

  function ReasoningFragments(reasoning: string): seq<Fragment> {
    if reasoning == "" then [] else [Fragment(REASONING_KEY, ReasoningType, true)]
  }

  function CallFragment(call: Json): Fragment {
    Fragment(IntOr(Get(call, "index")), ToolCallType, StringOr(Get(Get(call, "function"), "arguments")) != "")
  }

  function CallFragments(calls: seq<Json>): seq<Fragment> {
    if calls == [] then [] else CallFragments(calls[..|calls| - 1]) + [CallFragment(calls[|calls| - 1])]
  }

  function TextOf(choice: Json): string {
    StringOr(Get(Get(choice, "delta"), "content"))
  }

  function ReasoningOf(choice: Json): string {
    StringOr(Get(Get(choice, "delta"), "reasoning_content"))
  }

  function CallsOf(choice: Json): seq<Json> {
    Items(Get(Get(choice, "delta"), "tool_calls"))
  }

  function ChoiceFragments(choice: Json): seq<Fragment> {
    ReasoningFragments(ReasoningOf(choice)) + CallFragments(CallsOf(choice))
  }

  function ChoicesFragments(choices: seq<Json>): seq<Fragment> {
    if choices == [] then [] else ChoicesFragments(choices[..|choices| - 1]) + ChoiceFragments(choices[|choices| - 1])
  }

  function ChunkFragments(value: Json): seq<Fragment> {
    ChoicesFragments(Items(Get(value, "choices")))
  }

  function Fragments(frames: seq<Event>): seq<Fragment> {
    if frames == [] then []
    else
      var before, parsed := Fragments(frames[..|frames| - 1]), Unmarshal(frames[|frames| - 1].data);
      if parsed.Some? then before + ChunkFragments(parsed.value) else before
  }

  // The kind of the fragment that opened each key.
  function Opened(fs: seq<Fragment>): map<int, ContentType> {
    if fs == [] then map[]
    else
      var before, f := Opened(fs[..|fs| - 1]), fs[|fs| - 1];
      if f.key in before then before else before[f.key := f.kind]
  }

  // Every fragment that carries anything is of the kind that opened its key.
  predicate OneKindPerKey(fs: seq<Fragment>) {
    forall f :: f in fs && f.speaks ==> f.key in Opened(fs) && Opened(fs)[f.key] == f.kind
  }

  lemma {:induction false} OpenedOneMore(fs: seq<Fragment>, f: Fragment)
    ensures Opened(fs + [f]) == if f.key in Opened(fs) then Opened(fs) else Opened(fs)[f.key := f.kind]
  {
    assert (fs + [f])[..|fs|] == fs;
  }

  lemma {:induction false} KeysAreOpened(fs: seq<Fragment>)
    ensures forall f :: f in fs ==> f.key in Opened(fs)
    ensures forall k :: k in Opened(fs) ==> exists f :: f in fs && f.key == k && Opened(fs)[k] == f.kind
  {
    if fs != [] {
      var n := |fs| - 1;
      KeysAreOpened(fs[..n]);
      assert fs == fs[..n] + [fs[n]];
      forall k | k in Opened(fs)
        ensures exists f :: f in fs && f.key == k && Opened(fs)[k] == f.kind
      {
        if k in Opened(fs[..n]) {
          var f :| f in fs[..n] && f.key == k && Opened(fs[..n])[k] == f.kind;
          assert f in fs;
        } else {
          assert fs[n] in fs;
        }
      }
    }
  }

  lemma {:induction false} OneKindOneMore(fs: seq<Fragment>, f: Fragment)
    ensures OneKindPerKey(fs + [f]) <==>
            OneKindPerKey(fs) && (f.key in Opened(fs) && f.speaks ==> Opened(fs)[f.key] == f.kind)
  {
    OpenedOneMore(fs, f);
    KeysAreOpened(fs);
    hide Opened;
    assert forall g :: g in fs + [f] <==> g in fs || g == f;
  }

  lemma {:induction false} OneKindPrefix(fs: seq<Fragment>, more: seq<Fragment>)
    ensures OneKindPerKey(fs + more) ==> OneKindPerKey(fs)
    decreases |more|
  {
    hide OneKindPerKey;
    if more == [] {
      assert fs + more == fs;
    } else {
      var n := |more| - 1;
      OneKindPrefix(fs, more[..n]);
      assert fs + more == fs + more[..n] + [more[n]];
      OneKindOneMore(fs + more[..n], more[n]);
    }
  }

  // ---- The decoder's books agree with the reader's ----------------------------------------

  ghost predicate Agrees(s: State, t: Track, kinds: map<int, ContentType>) {
    && t.begun == s.started && t.next == s.nextBlock && !t.ended && !s.done && 0 <= s.nextBlock
    && (!s.started ==> s.nextBlock == 0)
    && s.toolIndexes.Keys == kinds.Keys && Injective(s.toolIndexes)
    && (forall k :: k in s.toolIndexes ==> Held(s, t, k) && t.open[s.toolIndexes[k]] == kinds[k])
    && (s.textOpen ==> 0 <= s.textIndex < s.nextBlock && s.textIndex in t.open && t.open[s.textIndex] == TextType)
    && (s.textOpen ==> forall k :: k in s.toolIndexes ==> s.toolIndexes[k] != s.textIndex)
    && (forall i :: i in t.open ==>
          (s.textOpen && i == s.textIndex) || exists k :: k in s.toolIndexes && s.toolIndexes[k] == i)
  }

  // The block of a key is open on both sides.
  ghost predicate Held(s: State, t: Track, k: int)
    requires k in s.toolIndexes
  {
    var i := s.toolIndexes[k];
    0 <= i < s.nextBlock && i in t.open && i in s.open
  }

  // A step that takes some fragments emits bracketed events, keeping the books in agreement, exactly when
  // the fragments still have one kind per key.
  ghost predicate Exact(t: Track, step: Step, fs: seq<Fragment>, more: seq<Fragment>) {
    if OneKindPerKey(fs + more) then
      Bracketed(t, step.events) && Agrees(step.state, AdvanceAll(t, step.events), Opened(fs + more))
          && step.state.started
    else !Bracketed(t, step.events)
  }

  lemma {:induction false} Sequence(t: Track, fs: seq<Fragment>, a: seq<Fragment>, b: seq<Fragment>, first: Step,
                                    second: Step)
    requires Exact(t, first, fs, a)
    requires OneKindPerKey(fs + a) ==> Exact(AdvanceAll(t, first.events), second, fs + a, b)
    ensures Exact(t, Step(second.state, first.events + second.events), fs, a + b)
  {
    hide OneKindPerKey, Agrees, Bracketed, AdvanceAll, Opened;
    BracketedConcat(t, first.events, second.events);
    OneKindPrefix(fs + a, b);
    assert fs + a + b == fs + (a + b);
  }

  // A step that takes no fragment.
  lemma {:induction false} Unfragmented(t: Track, step: Step, fs: seq<Fragment>)
    requires OneKindPerKey(fs) && Bracketed(t, step.events) && step.state.started
    requires Agrees(step.state, AdvanceAll(t, step.events), Opened(fs))
    ensures Exact(t, step, fs, [])
  {
    assert fs + [] == fs;
  }

  lemma {:induction false} TextPartExact(s: State, t: Track, fs: seq<Fragment>, text: string)
    requires OneKindPerKey(fs) && Agrees(s, t, Opened(fs)) && s.started
    ensures Exact(t, TextPart(s, text), fs, [])
  {
    hide OneKindPerKey, Opened;
    if text == "" {
      BracketedNone(t);
    } else {
      var delta := ContentDelta(if s.textOpen then s.textIndex else s.nextBlock, TextContent(text), "");
      if s.textOpen {
        BracketedOne(t, delta);
      } else {
        BracketedTwo(t, ContentStart(s.nextBlock, TextContent("")), delta);
      }
    }
    TextPartAgrees(s, t, Opened(fs), text);
    Unfragmented(t, TextPart(s, text), fs);
  }

  lemma {:induction false} TextPartAgrees(s: State, t: Track, kinds: map<int, ContentType>, text: string)
    requires Agrees(s, t, kinds) && s.started
    ensures Bracketed(t, TextPart(s, text).events) && TextPart(s, text).state.started
    ensures Agrees(TextPart(s, text).state, AdvanceAll(t, TextPart(s, text).events), kinds)
  {
    hide Bracketed, AdvanceAll;
    if text == "" {
      BracketedNone(t);
    } else if s.textOpen {
      BracketedOne(t, ContentDelta(s.textIndex, TextContent(text), ""));
    } else {
      BracketedTwo(t, ContentStart(s.nextBlock, TextContent("")), ContentDelta(s.nextBlock, TextContent(text), ""));
    }
  }

  lemma {:induction false} OpenKeyedAgrees(s: State, t: Track, kinds: map<int, ContentType>, key: int, content: Content)
    requires Agrees(s, t, kinds) && s.started && key !in s.toolIndexes
    ensures var step := OpenKeyed(s, key, content);
            && Bracketed(t, step.events) && AdvanceAll(t, step.events) == Advance(t, ContentStart(s.nextBlock, content))
            && Agrees(step.state, AdvanceAll(t, step.events), kinds[key := content.kind]) && step.state.started
  {
    hide Bracketed, AdvanceAll;
    var u := Advance(t, ContentStart(s.nextBlock, content));
    BracketedOne(t, ContentStart(s.nextBlock, content));
    var after := OpenKeyed(s, key, content).state;
    forall i | i in u.open
      ensures || (after.textOpen && i == after.textIndex)
              || exists k :: k in after.toolIndexes && after.toolIndexes[k] == i
    {
      if i in t.open && !(s.textOpen && i == s.textIndex) && i != s.nextBlock {
        var k :| k in s.toolIndexes && s.toolIndexes[k] == i;
        assert after.toolIndexes[k] == i;
      } else if i == s.nextBlock {
        assert after.toolIndexes[key] == i;
      }
    }
    forall k | k in after.toolIndexes
      ensures Held(after, u, k) && u.open[after.toolIndexes[k]] == kinds[key := content.kind][k]
    {
      assert k != key ==> Held(s, t, k);
    }
  }

  // A fragment: its key is opened when it is new, and whatever it carries goes to the key's block.
  function FragmentStep(s: State, f: Fragment, opening: Content, delta: StreamEvent): Step {
    var started := if f.key in s.toolIndexes then Step(s, []) else OpenKeyed(s, f.key, opening);
    if f.speaks then Step(started.state, started.events + [delta]) else started
  }

  lemma {:induction false} FragmentExact(s: State, t: Track, fs: seq<Fragment>, f: Fragment, opening: Content,
                                         delta: StreamEvent)
    requires OneKindPerKey(fs) && Agrees(s, t, Opened(fs)) && s.started
    requires opening.kind == f.kind && delta.ContentDelta? && delta.content.kind == f.kind
    requires delta.index == if f.key in s.toolIndexes then s.toolIndexes[f.key] else s.nextBlock
    ensures Exact(t, FragmentStep(s, f, opening, delta), fs, [f])
  {
    OpenedOneMore(fs, f);
    OneKindOneMore(fs, f);
    hide OneKindPerKey, Opened;
    if f.key in s.toolIndexes {
      KnownKey(s, t, Opened(fs), f.key, delta);
    } else {
      OpenKeyedAgrees(s, t, Opened(fs), f.key, opening);
      var kinds := OpenKeyed(s, f.key, opening);
      var u := AdvanceAll(t, kinds.events);
      KnownKey(kinds.state, u, Opened(fs + [f]), f.key, delta);
      BracketedConcat(t, kinds.events, [delta]);
    }
    BracketedNone(t);
    hide Agrees, Bracketed, AdvanceAll;
    assert [] + [delta] == [delta];
  }

  // A delta under a known key is bracketed exactly when it is of the kind that opened the key.
  lemma {:induction false} KnownKey(s: State, t: Track, kinds: map<int, ContentType>, key: int, delta: StreamEvent)
    requires Agrees(s, t, kinds) && key in s.toolIndexes && delta.ContentDelta? && delta.index == s.toolIndexes[key]
    ensures key in kinds && (Bracketed(t, [delta]) <==> kinds[key] == delta.content.kind)
    ensures AdvanceAll(t, [delta]) == t
  {
    BracketedOne(t, delta);
    assert Held(s, t, key);
  }

  lemma {:induction false} ReasoningPartExact(s: State, t: Track, fs: seq<Fragment>, reasoning: string)
    requires OneKindPerKey(fs) && Agrees(s, t, Opened(fs)) && s.started
    ensures Exact(t, ReasoningPart(s, reasoning), fs, ReasoningFragments(reasoning))
  {
    hide OneKindPerKey, Opened, Agrees;
    if reasoning == "" {
      BracketedNone(t);
      Unfragmented(t, ReasoningPart(s, reasoning), fs);
    } else {
      var f := ReasoningFragments(reasoning)[0];
      var index := if REASONING_KEY in s.toolIndexes then s.toolIndexes[REASONING_KEY] else s.nextBlock;
      var delta := ContentDelta(index, ReasoningContent(reasoning), "");
      FragmentExact(s, t, fs, f, ReasoningContent(""), delta);
      assert ReasoningPart(s, reasoning) == FragmentStep(s, f, ReasoningContent(""), delta);
    }
  }

  lemma {:induction false} ToolPartExact(s: State, t: Track, fs: seq<Fragment>, call: Json)
    requires OneKindPerKey(fs) && Agrees(s, t, Opened(fs)) && s.started
    ensures Exact(t, ToolPart(s, call), fs, [CallFragment(call)])
  {
    hide OneKindPerKey, Opened, Agrees;
    var f, fn := CallFragment(call), Get(call, "function");
    var opening := ToolCallContent(StringOr(Get(call, "id")), StringOr(Get(fn, "name")), EMPTY_OBJECT);
    var index := if f.key in s.toolIndexes then s.toolIndexes[f.key] else s.nextBlock;
    var delta := ContentDelta(index, ToolCallContent("", "", Null), StringOr(Get(fn, "arguments")));
    FragmentExact(s, t, fs, f, opening, delta);
    assert ToolPart(s, call) == FragmentStep(s, f, opening, delta);
  }

  lemma {:induction false} ToolPartsExact(s: State, t: Track, fs: seq<Fragment>, calls: seq<Json>)
    requires OneKindPerKey(fs) && Agrees(s, t, Opened(fs)) && s.started
    ensures Exact(t, ToolParts(s, calls), fs, CallFragments(calls))
  {
    hide ToolPart, Agrees, OneKindPerKey, Opened, Bracketed, AdvanceAll, CallFragment;
    if calls == [] {
      BracketedNone(t);
      Unfragmented(t, ToolParts(s, calls), fs);
    } else {
      var n := |calls| - 1;
      ToolPartsExact(s, t, fs, calls[..n]);
      var before, earlier := ToolParts(s, calls[..n]), CallFragments(calls[..n]);
      if OneKindPerKey(fs + earlier) {
        ToolPartExact(before.state, AdvanceAll(t, before.events), fs + earlier, calls[n]);
      }
      Sequence(t, fs, earlier, [CallFragment(calls[n])], before, ToolPart(before.state, calls[n]));
    }
  }

  lemma {:induction false} ChoiceExact(s: State, t: Track, fs: seq<Fragment>, choice: Json)
    requires OneKindPerKey(fs) && Agrees(s, t, Opened(fs)) && s.started
    ensures Exact(t, Choice(s, choice), fs, ChoiceFragments(choice))
  {
    hide TextPart, ReasoningPart, ToolParts, Agrees, OneKindPerKey, Opened, Bracketed, AdvanceAll, ReasoningFragments,
         CallFragments;
    var r, cs := ReasoningFragments(ReasoningOf(choice)), CallFragments(CallsOf(choice));
    var a := TextPart(s, TextOf(choice));
    TextPartExact(s, t, fs, TextOf(choice));
    assert fs + [] == fs && [] + r == r;
    var b := ReasoningPart(a.state, ReasoningOf(choice));
    ReasoningPartExact(a.state, AdvanceAll(t, a.events), fs, ReasoningOf(choice));
    Sequence(t, fs, [], r, a, b);
    var c := ToolParts(b.state, CallsOf(choice));
    var ab := Step(b.state, a.events + b.events);
    if OneKindPerKey(fs + r) {
      ToolPartsExact(b.state, AdvanceAll(t, ab.events), fs + r, CallsOf(choice));
    }
    Sequence(t, fs, r, cs, ab, c);
    Forgets(t, Step(c.state, ab.events + c.events), fs, r + cs, Choice(s, choice).state.stopReason);
  }

  // The stop reason is in nobody's books.
  lemma {:induction false} Forgets(t: Track, step: Step, fs: seq<Fragment>, more: seq<Fragment>, reason: string)
    requires Exact(t, step, fs, more)
    ensures Exact(t, Step(step.state.(stopReason := reason), step.events), fs, more)
  {
    hide OneKindPerKey, Opened, Bracketed, AdvanceAll;
    if OneKindPerKey(fs + more) {
      SameBooks(step.state, step.state.(stopReason := reason), AdvanceAll(t, step.events), Opened(fs + more));
    }
  }

  lemma {:induction false} SameBooks(s: State, u: State, t: Track, kinds: map<int, ContentType>)
    requires Agrees(s, t, kinds) && u == s.(id := u.id, model := u.model, stopReason := u.stopReason, usage := u.usage)
    ensures Agrees(u, t, kinds)
  {
    assert forall k :: k in s.toolIndexes ==> Held(s, t, k) && Held(u, t, k);
  }

  lemma {:induction false} ChoicesExact(s: State, t: Track, fs: seq<Fragment>, choices: seq<Json>)
    requires OneKindPerKey(fs) && Agrees(s, t, Opened(fs)) && s.started
    ensures Exact(t, Choices(s, choices), fs, ChoicesFragments(choices))
  {
    hide Choice, Agrees, OneKindPerKey, Opened, Bracketed, AdvanceAll, ChoiceFragments;
    if choices == [] {
      BracketedNone(t);
      Unfragmented(t, Choices(s, choices), fs);
    } else {
      var n := |choices| - 1;
      ChoicesExact(s, t, fs, choices[..n]);
      var before, earlier := Choices(s, choices[..n]), ChoicesFragments(choices[..n]);
      if OneKindPerKey(fs + earlier) {
        ChoiceExact(before.state, AdvanceAll(t, before.events), fs + earlier, choices[n]);
      }
      Sequence(t, fs, earlier, ChoiceFragments(choices[n]), before, Choice(before.state, choices[n]));
    }
  }

  lemma {:induction false} ChunkExact(s: State, t: Track, fs: seq<Fragment>, value: Json)
    requires OneKindPerKey(fs) && Agrees(s, t, Opened(fs))
    ensures Exact(t, Chunk(s, value), fs, ChunkFragments(value))
  {
    hide Choices, OneKindPerKey, Opened, Bracketed, AdvanceAll, ChoicesFragments;
    var u := Header(s, value);
    SameBooks(s, u, t, Opened(fs));
    var started := if u.started then [] else [Start(u.id, u.model, None)];
    var v := u.(started := true);
    Begins(u, t, Opened(fs));
    hide Agrees;
    Unfragmented(t, Step(v, started), fs);
    assert fs + [] == fs;
    ChoicesExact(v, AdvanceAll(t, started), fs, Items(Get(value, "choices")));
    Sequence(t, fs, [], ChunkFragments(value), Step(v, started), Choices(v, Items(Get(value, "choices"))));
    assert [] + ChunkFragments(value) == ChunkFragments(value);
  }

  lemma {:induction false} NoKeysYet(s: State, t: Track, kinds: map<int, ContentType>)
    requires Agrees(s, t, kinds)
    ensures !s.started ==> s.toolIndexes.Keys == {} && t.open == map[] && !s.textOpen
  {
    assert forall k :: k in s.toolIndexes ==> Held(s, t, k);
    if !s.started {
      assert forall k :: k !in s.toolIndexes.Keys;
      assert forall i :: i !in t.open;
      assert t.open.Keys == {};
    }
  }

  lemma {:induction false} Begins(s: State, t: Track, kinds: map<int, ContentType>)
    requires Agrees(s, t, kinds)
    ensures var started := if s.started then [] else [Start(s.id, s.model, None)];
            Bracketed(t, started) && Agrees(s.(started := true), AdvanceAll(t, started), kinds)
  {
    hide Bracketed, AdvanceAll;
    assert forall k :: k in s.toolIndexes ==> Held(s, t, k);
    var v := s.(started := true);
    if s.started {
      BracketedNone(t);
    } else {
      BracketedOne(t, Start(s.id, s.model, None));
      NoKeysYet(s, t, kinds);
    }
  }

  // ---- Closing ----------------------------------------------------------------------------

  // The blocks of the keys a walk visits.
  function Visited(m: map<int, int>, walk: seq<int>): set<int> {
    set k | k in walk && k in m :: m[k]
  }

  predicate Injective(m: map<int, int>) {
    forall k, l :: k in m && l in m && k != l ==> m[k] != m[l]
  }

  lemma {:induction false} VisitedOneMore(m: map<int, int>, walk: seq<int>, n: nat)
    requires Injective(m) && n < |walk| && walk[n] in m
    requires forall i, j :: 0 <= i < j < |walk| ==> walk[i] != walk[j]
    ensures Visited(m, walk[..n + 1]) == Visited(m, walk[..n]) + {m[walk[n]]}
    ensures m[walk[n]] !in Visited(m, walk[..n])
  {
    var a, b := walk[..n], walk[..n + 1];
    assert b == a + [walk[n]] && walk[n] !in a;
    forall i | i in Visited(m, b)
      ensures i in Visited(m, a) + {m[walk[n]]}
    {
      var k :| k in b && k in m && m[k] == i;
      assert k in a || k == walk[n];
    }
    forall i | i in Visited(m, a) + {m[walk[n]]}
      ensures i in Visited(m, b)
    {
      if i == m[walk[n]] {
        assert b[n] == walk[n];
      } else {
        var k :| k in a && k in m && m[k] == i;
        assert k in b;
      }
    }
  }

  lemma {:induction false} NothingVisited(m: map<int, int>, walk: seq<int>)
    ensures walk == [] ==> Visited(m, walk) == {}
  {
  }

  /** Walking the keyed blocks stops each of them once. */
  lemma {:induction false} CloseKeyedBrackets(s: State, t: Track, walk: seq<int>, n: nat)
    requires n <= |walk| && Injective(s.toolIndexes) && !t.ended
    requires forall i, j :: 0 <= i < j < |walk| ==> walk[i] != walk[j]
    requires forall j :: 0 <= j < |walk| ==> walk[j] in s.toolIndexes
    requires forall k :: k in s.toolIndexes ==> s.toolIndexes[k] in s.open && s.toolIndexes[k] in t.open
    ensures var closed := CloseKeyed(s, walk[..n]);
            && closed.state == s.(open := s.open - Visited(s.toolIndexes, walk[..n]))
            && Bracketed(t, closed.events)
            && AdvanceAll(t, closed.events) == t.(open := t.open - Visited(s.toolIndexes, walk[..n]))
    ensures CloseKeyed(s, walk[..n]).events == seq(n, j requires 0 <= j < n => ContentStop(s.toolIndexes[walk[j]]))
  {
    hide Injective, Visited, Bracketed, AdvanceAll;
    if n == 0 {
      NothingVisited(s.toolIndexes, walk[..0]);
      BracketedNone(t);
      assert s.open - {} == s.open && t.open - {} == t.open;
    } else {
      CloseKeyedBrackets(s, t, walk, n - 1);
      VisitedOneMore(s.toolIndexes, walk, n - 1);
      var before, index := CloseKeyed(s, walk[..n - 1]), s.toolIndexes[walk[n - 1]];
      assert walk[..n][..n - 1] == walk[..n - 1];
      var visited := Visited(s.toolIndexes, walk[..n - 1]);
      assert CloseKeyed(s, walk[..n]) ==
             Step(before.state.(open := before.state.open - {index}), before.events + [ContentStop(index)]);
      hide CloseKeyed;
      StopsOneMore(t, before.events, visited, index);
      assert s.open - visited - {index} == s.open - (visited + {index});
    }
  }

  // Stopping one more open block after those already stopped.
  lemma {:induction false} StopsOneMore(t: Track, before: seq<StreamEvent>, visited: set<int>, index: int)
    requires !t.ended && index in t.open && index !in visited
    requires Bracketed(t, before) && AdvanceAll(t, before) == t.(open := t.open - visited)
    ensures Bracketed(t, before + [ContentStop(index)])
    ensures AdvanceAll(t, before + [ContentStop(index)]) == t.(open := t.open - (visited + {index}))
  {
    hide Bracketed, AdvanceAll;
    BracketedConcat(t, before, [ContentStop(index)]);
    BracketedOne(AdvanceAll(t, before), ContentStop(index));
    assert t.open - visited - {index} == t.open - (visited + {index});
  }

  // The reader once the text block is stopped.
  function WithoutText(s: State, t: Track): Track {
    if s.textOpen then t.(open := t.open - {s.textIndex}) else t
  }

  lemma {:induction false} WalkVisitsAll(s: State, t: Track, kinds: map<int, ContentType>, walk: seq<int>)
    requires Agrees(s, t, kinds) && Enumerates(walk, s.toolIndexes.Keys)
    ensures forall j :: 0 <= j < |walk| ==> walk[j] in s.toolIndexes
    ensures forall k :: k in s.toolIndexes ==> s.toolIndexes[k] in s.open && s.toolIndexes[k] in WithoutText(s, t).open
    ensures WithoutText(s, t).open - Visited(s.toolIndexes, walk) == map[]
  {
    forall j | 0 <= j < |walk|
      ensures walk[j] in s.toolIndexes
    {
      WalkElement(walk, s.toolIndexes.Keys, j);
    }
    assert forall k :: k in s.toolIndexes ==> Held(s, t, k);
    var u := WithoutText(s, t);
    forall i | i in u.open
      ensures i in Visited(s.toolIndexes, walk)
    {
      var k :| k in s.toolIndexes && s.toolIndexes[k] == i;
      assert k in walk;
    }
    assert (u.open - Visited(s.toolIndexes, walk)).Keys == {};
  }

  // The stops of every block that is still open.
  lemma {:induction false} ClosingBrackets(s: State, t: Track, kinds: map<int, ContentType>, walk: seq<int>)
    requires Agrees(s, t, kinds) && Enumerates(walk, s.toolIndexes.Keys)
    ensures var es := CloseBlocks(s, walk).events;
            Bracketed(t, es) && AdvanceAll(t, es) == t.(open := map[])
  {
    WalkVisitsAll(s, t, kinds, walk);
    TextStops(s, t, kinds);
    NotEnded(s, t, kinds);
    hide Visited, CloseKeyed, Agrees, Bracketed, AdvanceAll, Enumerates;
    assert walk[..|walk|] == walk;
    DistinctWalk(walk, s.toolIndexes.Keys);
    CloseKeyedBrackets(s.(textOpen := false), WithoutText(s, t), walk, |walk|);
    BracketedConcat(t, if s.textOpen then [ContentStop(s.textIndex)]
                    else [], CloseKeyed(s.(textOpen := false), walk).events);
  }

  lemma {:induction false} DistinctWalk(walk: seq<int>, keys: set<int>)
    requires Enumerates(walk, keys)
    ensures forall i, j :: 0 <= i < j < |walk| ==> walk[i] != walk[j]
  {
  }

  // And done after them.
  lemma {:induction false} EndingBrackets(s: State, t: Track, kinds: map<int, ContentType>, walk: seq<int>,
                                          e: StreamEvent)
    requires Agrees(s, t, kinds) && Enumerates(walk, s.toolIndexes.Keys) && e.Done?
    ensures var es := CloseBlocks(s, walk).events + [e];
            Bracketed(t, es) && AdvanceAll(t, es).ended && AdvanceAll(t, es).open == map[]
  {
    NotEnded(s, t, kinds);
    ClosingBrackets(s, t, kinds, walk);
    hide Bracketed, AdvanceAll, CloseBlocks, Agrees, Enumerates;
    BracketedConcat(t, CloseBlocks(s, walk).events, [e]);
    BracketedOne(t.(open := map[]), e);
  }

  lemma {:induction false} TextStops(s: State, t: Track, kinds: map<int, ContentType>)
    requires Agrees(s, t, kinds)
    ensures var text := if s.textOpen then [ContentStop(s.textIndex)] else [];
            Bracketed(t, text) && AdvanceAll(t, text) == WithoutText(s, t)
  {
    if s.textOpen {
      BracketedOne(t, ContentStop(s.textIndex));
    }
  }

  lemma {:induction false} NotEnded(s: State, t: Track, kinds: map<int, ContentType>)
    requires Agrees(s, t, kinds)
    ensures !t.ended && Injective(s.toolIndexes) && !s.done
  {
  }

  // ---- After the end ----------------------------------------------------------------------

  // A chunk that makes an ended decoder say nothing: no text, no reasoning, and no call but an empty
  // fragment under a key already open.
  predicate SilentCall(keys: set<int>, call: Json) {
    CallFragment(call).key in keys && !CallFragment(call).speaks
  }

  predicate SilentChoice(keys: set<int>, choice: Json) {
    TextOf(choice) == "" && ReasoningOf(choice) == "" && forall c :: c in CallsOf(choice) ==> SilentCall(keys, c)
  }

  predicate SilentChunk(keys: set<int>, value: Json) {
    forall c :: c in Items(Get(value, "choices")) ==> SilentChoice(keys, c)
  }

  lemma {:induction false} ToolPartsSilent(s: State, calls: seq<Json>)
    ensures var step := ToolParts(s, calls);
            && (step.events == [] <==> forall c :: c in calls ==> SilentCall(s.toolIndexes.Keys, c))
            && (step.events == [] ==> step.state == s)
  {
    hide SilentCall;
    if calls != [] {
      var n := |calls| - 1;
      ToolPartsSilent(s, calls[..n]);
      ToolPartSilent(ToolParts(s, calls[..n]).state, calls[n]);
      assert calls == calls[..n] + [calls[n]];
    }
  }

  lemma {:induction false} ToolPartSilent(s: State, call: Json)
    ensures var step := ToolPart(s, call);
            && (step.events == [] <==> SilentCall(s.toolIndexes.Keys, call)) && (step.events == [] ==> step.state == s)
  {
  }

  lemma {:induction false} ChoiceSilent(s: State, choice: Json)
    ensures var step := Choice(s, choice);
            && (step.events == [] <==> SilentChoice(s.toolIndexes.Keys, choice))
            && (step.events == [] ==> step.state == s.(stopReason := step.state.stopReason))
  {
    hide SilentCall, ToolParts;
    var a := TextPart(s, TextOf(choice));
    var b := ReasoningPart(a.state, ReasoningOf(choice));
    ToolPartsSilent(b.state, CallsOf(choice));
    assert a.events == [] <==> TextOf(choice) == "";
    assert b.events == [] <==> ReasoningOf(choice) == "";
  }

  lemma {:induction false} ChoicesSilent(s: State, choices: seq<Json>)
    ensures var step := Choices(s, choices);
            && (step.events == [] <==> forall c :: c in choices ==> SilentChoice(s.toolIndexes.Keys, c))
            && (step.events == [] ==> step.state == s.(stopReason := step.state.stopReason))
  {
    hide SilentChoice, Choice;
    if choices != [] {
      var n := |choices| - 1;
      ChoicesSilent(s, choices[..n]);
      ChoiceSilent(Choices(s, choices[..n]).state, choices[n]);
      assert choices == choices[..n] + [choices[n]];
    }
  }

  lemma {:induction false} ChunkSilent(s: State, value: Json)
    ensures var step := Chunk(s, value);
            && (step.events == [] <==> s.started && SilentChunk(s.toolIndexes.Keys, value))
            && (step.events == [] ==> step.state == s.(id := step.state.id, model := step.state.model,
                                                       stopReason := step.state.stopReason, usage := step.state.usage))
  {
    hide SilentChoice, Choices;
    ChoicesSilent(Header(s, value).(started := true), Items(Get(value, "choices")));
  }

  // ---- Whole runs -------------------------------------------------------------------------

  predicate HasDone(frames: seq<Event>) {
    exists e :: e in frames && e.data.DoneMark?
  }

  // The frames up to the first [DONE].
  function BeforeDone(frames: seq<Event>): seq<Event> {
    if frames == [] then []
    else
      var n := |frames| - 1;
      if HasDone(frames[..n]) || frames[n].data.DoneMark? then BeforeDone(frames[..n]) else frames
  }

  predicate IsChunk(e: Event) {
    Unmarshal(e.data).Some?
  }

  // Whatever follows [DONE] is another [DONE], or a chunk that changes nothing the reader sees.
  predicate SilentAfterDone(frames: seq<Event>) {
    frames == [] ||
    var n := |frames| - 1;
    && SilentAfterDone(frames[..n])
    && (HasDone(frames[..n]) && IsChunk(frames[n]) ==>
          && (exists e :: e in BeforeDone(frames) && IsChunk(e))
          && SilentChunk(Opened(Fragments(BeforeDone(frames))).Keys, Unmarshal(frames[n].data).value))
  }

  // The condition on the frames.
  predicate OneKindUnderEachKey(frames: seq<Event>) {
    OneKindPerKey(Fragments(BeforeDone(frames)))
  }

  // What a decoder that took the frames has told a reader.
  ghost predicate WellRun(s: State, es: seq<StreamEvent>, frames: seq<Event>) {
    if OneKindUnderEachKey(frames) && SilentAfterDone(frames) then
      var t, kinds := AdvanceAll(NOTHING, es), Opened(Fragments(BeforeDone(frames)));
      && Bracketed(NOTHING, es)
      && s.toolIndexes.Keys == kinds.Keys && (s.started <==> exists e :: e in BeforeDone(frames) && IsChunk(e))
      && (s.done <==> HasDone(frames))
      && if s.done then t.ended && t.open == map[] else Agrees(s, t, kinds)
    else !Bracketed(NOTHING, es)
  }

  lemma {:induction false} CloseKeyedDone(s: State, walk: seq<int>)
    ensures CloseKeyed(s.(done := true), walk).events == CloseKeyed(s, walk).events
    ensures CloseKeyed(s.(done := true), walk).state == CloseKeyed(s, walk).state.(done := true)
  {
    if walk != [] {
      CloseKeyedDone(s, walk[..|walk| - 1]);
    }
  }

  lemma {:induction false} ClosingIgnoresDone(s: State, walk: seq<int>)
    ensures CloseBlocks(s.(done := true), walk).events == CloseBlocks(s, walk).events
  {
    assert s.(done := true).(textOpen := false) == s.(textOpen := false).(done := true);
    CloseKeyedDone(s.(textOpen := false), walk);
  }

  lemma {:induction false} ClosingKeeps(s: State, walk: seq<int>)
    ensures var after := CloseBlocks(s.(done := true), walk).state;
            after.done && after.toolIndexes == s.toolIndexes && after.started == s.started
  {
    KeyedClosingKeeps(s.(done := true).(textOpen := false), walk);
  }

  lemma {:induction false} KeyedClosingKeeps(s: State, walk: seq<int>)
    ensures var after := CloseKeyed(s, walk).state; after == s.(open := after.open)
  {
    if walk != [] {
      KeyedClosingKeeps(s, walk[..|walk| - 1]);
    }
  }

  lemma {:induction false} DoneOneMore(frames: seq<Event>, e: Event)
    ensures HasDone(frames + [e]) <==> HasDone(frames) || e.data.DoneMark?
    ensures BeforeDone(frames + [e]) == if HasDone(frames) || e.data.DoneMark? then BeforeDone(frames) else frames + [e]
    ensures !HasDone(frames) ==> BeforeDone(frames) == frames
  {
    assert (frames + [e])[..|frames|] == frames;
    assert forall x :: x in frames + [e] <==> x in frames || x == e;
    if frames != [] {
      assert forall x :: x in frames[..|frames| - 1] ==> x in frames;
      assert frames[|frames| - 1] in frames;
    }
  }

  lemma {:induction false} SilentOneMore(frames: seq<Event>, e: Event)
    ensures SilentAfterDone(frames + [e]) <==>
            && SilentAfterDone(frames)
            && (HasDone(frames) && IsChunk(e) ==>
                  && (exists x :: x in BeforeDone(frames) && IsChunk(x))
                  && SilentChunk(Opened(Fragments(BeforeDone(frames))).Keys, Unmarshal(e.data).value))
  {
    hide SilentChunk, IsChunk, Opened, Fragments, BeforeDone, HasDone;
    DoneOneMore(frames, e);
    assert (frames + [e])[..|frames|] == frames;
  }

  lemma {:induction false} FragmentsOneMore(frames: seq<Event>, e: Event)
    ensures Fragments(frames + [e]) ==
            Fragments(frames) + (if IsChunk(e) then ChunkFragments(Unmarshal(e.data).value) else [])
  {
    hide ChunkFragments;
    assert (frames + [e])[..|frames|] == frames;
  }

  lemma {:induction false} ChunkOneMore(frames: seq<Event>, e: Event)
    ensures (exists x :: x in frames + [e] && IsChunk(x)) <==> (exists x :: x in frames && IsChunk(x)) || IsChunk(e)
  {
    hide IsChunk;
    assert forall x :: x in frames + [e] <==> x in frames || x == e;
  }

  // The condition, once lost, stays lost.
  lemma {:induction false} ConditionIsMonotone(frames: seq<Event>, e: Event)
    ensures OneKindUnderEachKey(frames + [e]) && SilentAfterDone(frames + [e]) ==>
            OneKindUnderEachKey(frames) && SilentAfterDone(frames)
  {
    hide SilentAfterDone, OneKindPerKey, Fragments, BeforeDone, HasDone;
    SilentOneMore(frames, e);
    DoneOneMore(frames, e);
    FragmentsOneMore(frames, e);
    OneKindPrefix(Fragments(frames), if IsChunk(e) then ChunkFragments(Unmarshal(e.data).value) else []);
  }

  lemma {:induction false} StepIsWellRun(s: State, es: seq<StreamEvent>, frames: seq<Event>, d: Delivery)
    requires WellRun(s, es, frames)
    requires Enumerates(d.walk, s.toolIndexes.Keys) && Decode(s, d).Decoded?
    ensures WellRun(Decode(s, d).state, es + Decode(s, d).events, frames + [d.event])
  {
    hide Decode, Agrees, Bracketed, AdvanceAll, SilentAfterDone, OneKindUnderEachKey, HasDone, BeforeDone, IsChunk,
         Enumerates, Opened, Fragments;
    var step := Decode(s, d);
    BracketedConcat(NOTHING, es, step.events);
    ConditionIsMonotone(frames, d.event);
    if OneKindUnderEachKey(frames) && SilentAfterDone(frames) {
      if s.done {
        LateStep(s, es, frames, d);
      } else if d.event.data.DoneMark? {
        DoneStep(s, es, frames, d);
      } else {
        ChunkStep(s, es, frames, d);
      }
    }
  }

  // Frames after [DONE].
  lemma {:induction false} LateStep(s: State, es: seq<StreamEvent>, frames: seq<Event>, d: Delivery)
    requires WellRun(s, es, frames) && OneKindUnderEachKey(frames) && SilentAfterDone(frames) && s.done
             && Decode(s, d).Decoded?
    ensures WellRun(Decode(s, d).state, es + Decode(s, d).events, frames + [d.event])
  {
    hide Chunk, CloseBlocks, Agrees, Bracketed, AdvanceAll, SilentAfterDone, HasDone, BeforeDone, OneKindPerKey, Opened,
         Fragments, SilentChunk;
    DoneOneMore(frames, d.event);
    SilentOneMore(frames, d.event);
    var step, t := Decode(s, d), AdvanceAll(NOTHING, es);
    BracketedConcat(NOTHING, es, step.events);
    BracketedNone(t);
    assert es + [] == es;
    if !d.event.data.DoneMark? {
      var value := Unmarshal(d.event.data).value;
      ChunkSilent(s, value);
      if step.events != [] {
        NothingFollowsTheEnd(t, step.events);
      }
    }
  }

  // The first [DONE].
  lemma {:induction false} DoneStep(s: State, es: seq<StreamEvent>, frames: seq<Event>, d: Delivery)
    requires WellRun(s, es, frames) && OneKindUnderEachKey(frames) && SilentAfterDone(frames) && !s.done
    requires d.event.data.DoneMark? && Enumerates(d.walk, s.toolIndexes.Keys)
    ensures WellRun(Decode(s, d).state, es + Decode(s, d).events, frames + [d.event])
  {
    hide CloseBlocks, Agrees, Bracketed, AdvanceAll, SilentAfterDone, HasDone, BeforeDone, OneKindPerKey, Opened,
         Fragments, Enumerates;
    DoneOneMore(frames, d.event);
    SilentOneMore(frames, d.event);
    NotAChunk(d.event);
    var t := AdvanceAll(NOTHING, es);
    ClosingIgnoresDone(s, d.walk);
    ClosingKeeps(s, d.walk);
    EndingBrackets(s, t, Opened(Fragments(BeforeDone(frames))), d.walk, Ending(s));
    BracketedConcat(NOTHING, es, Decode(s, d).events);
  }

  lemma {:induction false} NotAChunk(e: Event)
    ensures e.data.DoneMark? ==> !IsChunk(e)
  {
  }

  // A chunk before [DONE].
  lemma {:induction false} ChunkStep(s: State, es: seq<StreamEvent>, frames: seq<Event>, d: Delivery)
    requires WellRun(s, es, frames) && OneKindUnderEachKey(frames) && SilentAfterDone(frames) && !s.done
    requires !d.event.data.DoneMark? && Decode(s, d).Decoded?
    ensures WellRun(Decode(s, d).state, es + Decode(s, d).events, frames + [d.event])
  {
    hide Chunk, Agrees, Bracketed, AdvanceAll, SilentAfterDone, HasDone, BeforeDone, OneKindPerKey, Opened, Fragments,
         ChunkFragments;
    DoneOneMore(frames, d.event);
    SilentOneMore(frames, d.event);
    FragmentsOneMore(frames, d.event);
    ChunkOneMore(frames, d.event);
    var value, t, fs := Unmarshal(d.event.data).value, AdvanceAll(NOTHING, es), Fragments(frames);
    ChunkExact(s, t, fs, value);
    BracketedConcat(NOTHING, es, Chunk(s, value).events);
    if OneKindPerKey(fs + ChunkFragments(value)) {
      BooksShow(Chunk(s, value).state, AdvanceAll(t, Chunk(s, value).events), Opened(fs + ChunkFragments(value)));
    }
  }

  lemma {:induction false} BooksShow(s: State, t: Track, kinds: map<int, ContentType>)
    requires Agrees(s, t, kinds)
    ensures !s.done && s.toolIndexes.Keys == kinds.Keys
  {
  }

  lemma {:induction false} RunIsWellRun(ds: seq<Delivery>, text: JsonText)
    requires Streams.WalksFit(Streams.Initial(OpenAIChat), ds, text)
    ensures var run := Streams.Run(Streams.Initial(OpenAIChat), ds, text);
            run.Decoded? ==> run.state.ChatDecoder? && WellRun(run.state.chat, run.events, Events(ds))
  {
    hide Decode, WellRun;
    if ds == [] {
      NothingIsWellRun();
      assert Events(ds) == [];
    } else {
      var n := |ds| - 1;
      RunIsWellRun(ds[..n], text);
      var before := Streams.Run(Streams.Initial(OpenAIChat), ds[..n], text);
      assert Events(ds) == Events(ds[..n]) + [ds[n].event];
      if before.Decoded? && Decode(before.state.chat, ds[n]).Decoded? {
        StepIsWellRun(before.state.chat, before.events, Events(ds[..n]), ds[n]);
      }
    }
  }

  lemma {:induction false} NothingIsWellRun()
    ensures WellRun(INITIAL, [], [])
  {
    assert Opened([]) == map[];
  }

  /**
   * Chat decoder bracketing, exactly: over every run of frames the decoder accepts, the events emitted up
   * to and including the end of the stream, be it [DONE] or Finish, are bracketed if and only if no
   * fragment carries anything under a key that another kind opened, and nothing after [DONE] says
   * anything. Then everything opened is closed, and done comes exactly once, last.
   */
  lemma {:induction false} RunsAreBracketed(ds: seq<Delivery>, last: seq<int>, text: JsonText)
    requires Streams.FitsFrames(OpenAIChat, Events(ds), text, ds, last)
    ensures var run := Streams.Run(Streams.Initial(OpenAIChat), ds, text);
            var es := run.events + Streams.Finish(run.state, last);
            && (Bracketed(NOTHING, es) <==> OneKindUnderEachKey(Events(ds)) && SilentAfterDone(Events(ds)))
            && (Bracketed(NOTHING, es) ==> AdvanceAll(NOTHING, es).ended && AdvanceAll(NOTHING, es).open == map[])
  {
    hide Agrees, CloseBlocks, OneKindUnderEachKey, SilentAfterDone, Streams.WalksFit, Bracketed, AdvanceAll,
         Streams.Run, Enumerates;
    RunIsWellRun(ds, text);
    var run := Streams.Run(Streams.Initial(OpenAIChat), ds, text);
    var s, t := run.state.chat, AdvanceAll(NOTHING, run.events);
    BracketedConcat(NOTHING, run.events, Streams.Finish(run.state, last));
    BracketedNone(t);
    if !s.done && OneKindUnderEachKey(Events(ds)) && SilentAfterDone(Events(ds)) {
      EndingBrackets(s, t, Opened(Fragments(BeforeDone(Events(ds)))), last, Ending(s));
    }
  }

  // ---- Which runs meet the condition ------------------------------------------------------

  // Calls come under indexes that are not negative.
  predicate ProperFragment(f: Fragment) {
    f.kind == if f.key == REASONING_KEY then ReasoningType else ToolCallType
  }

  lemma {:induction false} ProperIsOneKind(fs: seq<Fragment>)
    requires forall f :: f in fs ==> ProperFragment(f)
    ensures OneKindPerKey(fs)
  {
    KeysAreOpened(fs);
  }

  /** Without calls under the key of reasoning, and with nothing but [DONE] after [DONE], every run is bracketed. */
  lemma {:induction false} ProperRunsAreBracketed(ds: seq<Delivery>, last: seq<int>, text: JsonText)
    requires Streams.FitsFrames(OpenAIChat, Events(ds), text, ds, last)
    requires forall f :: f in Fragments(BeforeDone(Events(ds))) ==> ProperFragment(f)
    requires forall i, j :: 0 <= i < j < |ds| && ds[i].event.data.DoneMark? ==> ds[j].event.data.DoneMark?
    ensures var run := Streams.Run(Streams.Initial(OpenAIChat), ds, text);
            Bracketed(NOTHING, run.events + Streams.Finish(run.state, last))
  {
    hide Streams.Run, Streams.Finish, Bracketed, Fragments, BeforeDone;
    RunsAreBracketed(ds, last, text);
    ProperIsOneKind(Fragments(BeforeDone(Events(ds))));
    OnlyDoneIsSilent(Events(ds));
  }

  lemma {:induction false} OnlyDoneIsSilent(frames: seq<Event>)
    requires forall i, j :: 0 <= i < j < |frames| && frames[i].data.DoneMark? ==> frames[j].data.DoneMark?
    ensures SilentAfterDone(frames)
  {
    hide SilentChunk, Fragments, Opened, BeforeDone;
    if frames != [] {
      var n := |frames| - 1;
      OnlyDoneIsSilent(frames[..n]);
      NotAChunk(frames[n]);
      if e :| e in frames[..n] && e.data.DoneMark? {
        var i :| 0 <= i < n && frames[i] == e;
      }
    }
  }

  // Calls under one key are all of one kind, so only the key of reasoning can mix.
  lemma {:induction false} OnlyReasoningKeyMixes(frames: seq<Event>)
    ensures OneKindPerKey(Fragments(frames)) <==>
            forall f :: f in Fragments(frames) && f.key == REASONING_KEY && f.speaks ==>
              REASONING_KEY in Opened(Fragments(frames)) && f.kind == Opened(Fragments(frames))[REASONING_KEY]
  {
    KindsOfFragments(frames);
    KeysAreOpened(Fragments(frames));
    hide Fragments;
  }

  predicate OfFrame(f: Fragment) {
    f.kind == ToolCallType || (f.key == REASONING_KEY && f.kind == ReasoningType)
  }

  lemma {:induction false} KindsOfFragments(frames: seq<Event>)
    ensures forall f :: f in Fragments(frames) ==> OfFrame(f)
  {
    hide ChoicesFragments, OfFrame;
    if frames != [] {
      var n := |frames| - 1;
      KindsOfFragments(frames[..n]);
      if IsChunk(frames[n]) {
        KindsOfChoices(Items(Get(Unmarshal(frames[n].data).value, "choices")));
      }
    }
  }

  lemma {:induction false} KindsOfChoices(choices: seq<Json>)
    ensures forall f :: f in ChoicesFragments(choices) ==> OfFrame(f)
  {
    if choices != [] {
      KindsOfChoices(choices[..|choices| - 1]);
      KindsOfCalls(CallsOf(choices[|choices| - 1]));
    }
  }

  lemma {:induction false} KindsOfCalls(calls: seq<Json>)
    ensures forall f :: f in CallFragments(calls) ==> f.kind == ToolCallType
  {
    if calls != [] {
      KindsOfCalls(calls[..|calls| - 1]);
    }
  }

  // ---- Runs that do not -------------------------------------------------------------------

  function ChunkOf(delta: map<string, Json>): Event {
    Event("", Tree(Obj(map["choices" := Arr([Obj(map["delta" := Obj(delta)])])])))
  }

  const THOUGHT := ChunkOf(map["reasoning_content" := Str("because")])

  const STRAY_CALL := Obj(map["index" := Num(-1), "function" := Obj(map["arguments" := Str("{}")])])

  const STRAY := ChunkOf(map["tool_calls" := Arr([STRAY_CALL])])

  const LATE := ChunkOf(map["content" := Str("late")])

  const END := Event("", DoneMark)

  lemma {:induction false} OneChoice(delta: map<string, Json>)
    ensures IsChunk(ChunkOf(delta))
    ensures var value, choice := Unmarshal(ChunkOf(delta).data).value, Obj(map["delta" := Obj(delta)]);
            && Items(Get(value, "choices")) == [choice] && ChunkFragments(value) == ChoiceFragments(choice)
            && TextOf(choice) == StringOr(Get(Obj(delta), "content"))
            && ReasoningOf(choice) == StringOr(Get(Obj(delta), "reasoning_content"))
            && CallsOf(choice) == Items(Get(Obj(delta), "tool_calls"))
  {
    hide ChoiceFragments;
    var choice := Obj(map["delta" := Obj(delta)]);
    assert [choice][..0] == [] && ChoicesFragments([]) == [] && [] + ChoiceFragments(choice) == ChoiceFragments(choice);
    assert ChoicesFragments([choice]) == ChoiceFragments(choice);
  }

  lemma {:induction false} ThoughtFragments()
    ensures IsChunk(THOUGHT) && ChunkFragments(Unmarshal(THOUGHT.data).value) ==
            [Fragment(REASONING_KEY, ReasoningType, true)]
  {
    OneChoice(map["reasoning_content" := Str("because")]);
  }

  lemma {:induction false} StrayFragments()
    ensures IsChunk(STRAY) && ChunkFragments(Unmarshal(STRAY.data).value) ==
            [Fragment(REASONING_KEY, ToolCallType, true)]
  {
    OneChoice(map["tool_calls" := Arr([STRAY_CALL])]);
    assert [STRAY_CALL][..0] == [] && CallFragments([]) == [];
    var f := CallFragment(STRAY_CALL);
    assert f == Fragment(REASONING_KEY, ToolCallType, true);
    assert CallFragments([STRAY_CALL]) == [] + [f] == [f] && [] + [f] == [f];
  }

  // Chat runs of chunks always decode, whatever the walks.
  lemma {:induction false} ChunksDecode(ds: seq<Delivery>, text: JsonText)
    requires forall d :: d in ds ==> d.event.data.DoneMark? || IsChunk(d.event)
    ensures Streams.Run(Streams.Initial(OpenAIChat), ds, text).Decoded?
    ensures Streams.Run(Streams.Initial(OpenAIChat), ds, text).state.ChatDecoder?
  {
    hide Chunk, CloseBlocks;
    if ds != [] {
      var n := |ds| - 1;
      assert ds[n] in ds && forall d :: d in ds[..n] ==> d in ds;
      ChunksDecode(ds[..n], text);
    }
  }

  // So some order of the walks explains every such run.
  lemma {:induction false} SomeWalksFit(frames: seq<Event>, text: JsonText) returns (ds: seq<Delivery>, last: seq<int>)
    requires forall e :: e in frames ==> e.data.DoneMark? || IsChunk(e)
    ensures Events(ds) == frames && Streams.FitsFrames(OpenAIChat, frames, text, ds, last)
  {
    hide Decode, IsChunk;
    if frames == [] {
      ds := [];
    } else {
      var n := |frames| - 1;
      assert frames[n] in frames && forall e :: e in frames[..n] ==> e in frames;
      var before, walk := SomeWalksFit(frames[..n], text);
      ds := before + [Delivery(frames[n], walk)];
      assert ds[..n] == before;
    }
    assert Events(ds) == frames;
    forall d | d in ds
      ensures d.event.data.DoneMark? || IsChunk(d.event)
    {
      var i :| 0 <= i < |ds| && ds[i] == d;
      assert Events(ds)[i] in frames;
    }
    ChunksDecode(ds, text);
    last := AWalk(Streams.WalkKeys(Streams.Run(Streams.Initial(OpenAIChat), ds, text).state));
  }

  lemma {:induction false} AWalk(keys: set<int>) returns (walk: seq<int>)
    ensures Enumerates(walk, keys)
  {
    walk := [];
    var rest := keys;
    while rest != {}
      invariant rest <= keys && Enumerates(walk, keys - rest)
    {
      HasElement(rest);
      var k :| k in rest;
      rest := rest - {k};
      walk := walk + [k];
    }
  }

  /** Reasoning, then arguments of a call under index -1: the run decodes and is not bracketed. */
  lemma {:induction false} StrayCallBreaksBracketing(text: JsonText) returns (ds: seq<Delivery>, last: seq<int>)
    ensures Events(ds) == [THOUGHT, STRAY] && Streams.FitsFrames(OpenAIChat, Events(ds), text, ds, last)
    ensures var run := Streams.Run(Streams.Initial(OpenAIChat), ds, text);
            !Bracketed(NOTHING, run.events + Streams.Finish(run.state, last))
  {
    hide THOUGHT, STRAY, ChunkFragments, IsChunk, Streams.Run, Streams.WalksFit, Streams.Finish, Bracketed, Opened,
         SilentAfterDone;
    var frames := [THOUGHT, STRAY];
    ThoughtFragments();
    StrayFragments();
    NotAChunk(THOUGHT);
    NotAChunk(STRAY);
    ds, last := SomeWalksFit(frames, text);
    RunsAreBracketed(ds, last, text);
    DoneOneMore([THOUGHT], STRAY);
    DoneOneMore([], THOUGHT);
    FragmentsOneMore([], THOUGHT);
    FragmentsOneMore([THOUGHT], STRAY);
    assert [] + [THOUGHT] == [THOUGHT] && [THOUGHT] + [STRAY] == frames;
    var a, b := Fragment(REASONING_KEY, ReasoningType, true), Fragment(REASONING_KEY, ToolCallType, true);
    assert Fragments(frames) == [a, b];
    OpenedOneMore([], a);
    NothingOpened();
    assert [] + [a] == [a] && [a] + [b] == [a, b];
    OneKindOneMore([a], b);
  }

  lemma {:induction false} NothingOpened()
    ensures Opened([]) == map[] && Fragments([]) == [] && BeforeDone([]) == [] && !HasDone([])
  {
  }

  /** Text after [DONE]: the run decodes and is not bracketed. */
  lemma {:induction false} LateTextBreaksBracketing(text: JsonText) returns (ds: seq<Delivery>, last: seq<int>)
    ensures Events(ds) == [END, LATE] && Streams.FitsFrames(OpenAIChat, Events(ds), text, ds, last)
    ensures var run := Streams.Run(Streams.Initial(OpenAIChat), ds, text);
            !Bracketed(NOTHING, run.events + Streams.Finish(run.state, last))
  {
    hide Streams.Run, Streams.WalksFit, Streams.Finish, Bracketed, Opened, OneKindUnderEachKey;
    OneChoice(map["content" := Str("late")]);
    assert IsChunk(LATE);
    hide LATE, IsChunk;
    ds, last := SomeWalksFit([END, LATE], text);
    RunsAreBracketed(ds, last, text);
    DoneOneMore([], END);
    DoneOneMore([END], LATE);
    NothingOpened();
    assert [] + [END] == [END] && [END] + [LATE] == [END, LATE];
    SilentOneMore([END], LATE);
  }
}
