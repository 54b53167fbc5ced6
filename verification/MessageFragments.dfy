/** What a streamed message is, told by its fragments alone (openai/stream.go). */
module MessageFragments {
  import opened ChatTypes
  import opened MessageBuilder
  import opened Sequences
  import opened Texts
  import opened Wrappers

  // ---- Whose fragment ---------------------------------------------------------------------

  // Where an id first comes, and where an index last comes.
  function FirstOfID(tcs: seq<ToolCall>, id: string): (r: Option<nat>)
    ensures r.Some? ==> r.value < |tcs|
  {
    if tcs == [] then None
    else
      var n := |tcs| - 1;
      var before := FirstOfID(tcs[..n], id);
      if before.None? && tcs[n].id == id then Some(n) else before
  }

  function LastOfIndex(tcs: seq<ToolCall>, index: int): (r: Option<nat>)
    ensures r.Some? ==> r.value < |tcs|
  {
    if tcs == [] then None
    else
      var n := |tcs| - 1;
      if tcs[n].index == index then Some(n) else LastOfIndex(tcs[..n], index)
  }

  // The fragment that started the call the last fragment belongs to: the first with its id; without an id
  // that of the latest fragment with its index; without such a one the latest start of all.
  function Owner(tcs: seq<ToolCall>): (r: nat)
    requires tcs != []
    ensures r < |tcs|
    decreases |tcs|, 0
  {
    var n := |tcs| - 1;
    var tc, same := tcs[n], LastOfIndex(tcs[..n], tcs[n].index);
    if tc.id != "" then
      var first := FirstOfID(tcs, tc.id);
      if first.Some? then first.value else n
    else if same.Some? then Owner(tcs[..same.value + 1])
    else if n > 0 then LatestStart(tcs[..n])
    else n
  }

  function LatestStart(tcs: seq<ToolCall>): (r: nat)
    requires tcs != []
    ensures r < |tcs|
    decreases |tcs|, 1
  {
    var n := |tcs| - 1;
    if Owner(tcs) == n || n == 0 then n else LatestStart(tcs[..n])
  }

  // The fragments that start a call, in order.
  function Starts(tcs: seq<ToolCall>): seq<nat> {
    if tcs == [] then []
    else
      var n := |tcs| - 1;
      Starts(tcs[..n]) + if Owner(tcs) == n then [n] else []
  }

  // The last kind named for a call, and the fragments of one of its fields put together.
  function KindTold(tcs: seq<ToolCall>, start: nat): string {
    if tcs == [] then ""
    else
      var n := |tcs| - 1;
      if Owner(tcs) == start && tcs[n].kind != "" then tcs[n].kind else KindTold(tcs[..n], start)
  }

  function Told(tcs: seq<ToolCall>, start: nat, f: Field): string {
    if tcs == [] then ""
    else
      var n := |tcs| - 1;
      Told(tcs[..n], start, f) + if Owner(tcs) == start then Part(tcs[n], f) else ""
  }

  function CallTold(tcs: seq<ToolCall>, start: nat): ToolCall
    requires start < |tcs|
  {
    ToolCall(tcs[start].index, tcs[start].id, KindTold(tcs, start), Told(tcs, start, NameField),
             Told(tcs, start, ArgumentsField))
  }

  lemma {:induction false} ToldOneMore(tcs: seq<ToolCall>, tc: ToolCall, start: nat, f: Field)
    ensures var more := tcs + [tc];
            && Starts(more) == Starts(tcs) + (if Owner(more) == |tcs| then [|tcs|] else [])
            && KindTold(more, start) ==
               (if Owner(more) == start && tc.kind != "" then tc.kind else KindTold(tcs, start))
            && Told(more, start, f) == Told(tcs, start, f) + (if Owner(more) == start then Part(tc, f) else "")
            && LatestStart(more) == if Owner(more) == |tcs| || tcs == [] then |tcs| else LatestStart(tcs)
  {
    hide Owner;
    assert (tcs + [tc])[..|tcs|] == tcs;
  }

  lemma {:induction false} FoundOneMore(tcs: seq<ToolCall>, tc: ToolCall, id: string, index: int)
    ensures var more, first := tcs + [tc], FirstOfID(tcs, id);
            && FirstOfID(more, id) == (if first.None? && tc.id == id then Some(|tcs|) else first)
            && LastOfIndex(more, index) == if tc.index == index then Some(|tcs|) else LastOfIndex(tcs, index)
  {
    assert (tcs + [tc])[..|tcs|] == tcs;
  }

  lemma {:induction false} NothingTold(tcs: seq<ToolCall>, start: nat, f: Field)
    requires start >= |tcs|
    ensures KindTold(tcs, start) == "" && Told(tcs, start, f) == ""
  {
    hide Owner;
    if tcs != [] {
      NothingTold(tcs[..|tcs| - 1], start, f);
    }
  }

  lemma {:induction false} StartsIncrease(tcs: seq<ToolCall>)
    ensures forall i :: 0 <= i < |Starts(tcs)| ==> Starts(tcs)[i] < |tcs|
    ensures forall i, j :: 0 <= i < j < |Starts(tcs)| ==> Starts(tcs)[i] < Starts(tcs)[j]
  {
    hide Owner;
    if tcs != [] {
      StartsIncrease(tcs[..|tcs| - 1]);
    }
  }

  // ---- The builder ------------------------------------------------------------------------

  ghost predicate IndexTold(b: Building, tcs: seq<ToolCall>, k: int)
    requires |b.calls| == |Starts(tcs)|
  {
    var last := LastOfIndex(tcs, k);
    (k in b.byIndex <==> last.Some?) &&
    (k in b.byIndex ==> b.byIndex[k] < |b.calls| && Starts(tcs)[b.byIndex[k]] == Owner(tcs[..last.value + 1]))
  }

  ghost predicate IDTold(b: Building, tcs: seq<ToolCall>, k: string)
    requires |b.calls| == |Starts(tcs)|
  {
    var first := FirstOfID(tcs, k);
    (k in b.byID <==> k != "" && first.Some?) &&
    (k in b.byID ==> b.byID[k] < |b.calls| && Starts(tcs)[b.byID[k]] == first.value)
  }

  ghost predicate MapsTold(b: Building, tcs: seq<ToolCall>) {
    && InRange(b) && |b.calls| == |Starts(tcs)|
    && (forall k :: IndexTold(b, tcs, k)) && (forall k :: IDTold(b, tcs, k))
    && (tcs != [] ==> Starts(tcs) != [] && Starts(tcs)[|Starts(tcs)| - 1] == LatestStart(tcs))
  }

  ghost predicate CallsTold(b: Building, tcs: seq<ToolCall>) {
    && |b.calls| == |Starts(tcs)|
    && forall i :: 0 <= i < |b.calls| ==> Starts(tcs)[i] < |tcs| && b.calls[i] == CallTold(tcs, Starts(tcs)[i])
  }

  lemma {:induction false} HomeIsOwner(b: Building, tcs: seq<ToolCall>, tc: ToolCall)
    requires MapsTold(b, tcs)
    ensures var home, owner := Home(b, tc), Owner(tcs + [tc]);
            if home < |b.calls| then Starts(tcs)[home] == owner else home == |b.calls| && owner == |tcs|
  {
    var more := tcs + [tc];
    assert more[..|tcs|] == tcs && more[|tcs|] == tc;
    FoundOneMore(tcs, tc, tc.id, tc.index);
    assert IndexTold(b, tcs, tc.index) && IDTold(b, tcs, tc.id);
    var same := LastOfIndex(tcs, tc.index);
    assert same.Some? ==> more[..same.value + 1] == tcs[..same.value + 1];
    hide Starts, FirstOfID, LastOfIndex;
  }

  // Where a fragment lands in the new building, and what it changes there.
  lemma {:induction false} Lands(b: Building, tcs: seq<ToolCall>, tc: ToolCall)
    requires MapsTold(b, tcs)
    ensures var home, c, more := Home(b, tc), Add(b, tc), tcs + [tc];
            && |c.calls| == |Starts(more)| && home < |c.calls| && Starts(more)[home] == Owner(more)
            && Starts(tcs) <= Starts(more)
            && c.byIndex == b.byIndex[tc.index := home]
            && c.byID == (if tc.id == "" then b.byID else b.byID[tc.id := home])
            && Starts(more)[|Starts(more)| - 1] == LatestStart(more)
  {
    HomeIsOwner(b, tcs, tc);
    ToldOneMore(tcs, tc, 0, NameField);
    StartsIncrease(tcs);
    hide Starts, Owner, LatestStart, IndexTold, IDTold, Home;
  }

  lemma {:induction false} AddedMaps(b: Building, tcs: seq<ToolCall>, tc: ToolCall)
    requires MapsTold(b, tcs)
    ensures MapsTold(Add(b, tc), tcs + [tc])
  {
    var more, c := tcs + [tc], Add(b, tc);
    Lands(b, tcs, tc);
    AddInRange(b, tc);
    hide Add, Starts, Owner, LatestStart, FirstOfID, LastOfIndex, IndexTold, IDTold;
    var home := Home(b, tc);
    hide Home;
    forall k
      ensures IndexTold(c, more, k)
    {
      IndexAdded(b, c, tcs, tc, home, k);
    }
    forall k
      ensures IDTold(c, more, k)
    {
      IDAdded(b, c, tcs, tc, home, k);
    }
  }

  lemma {:induction false} IndexAdded(b: Building, c: Building, tcs: seq<ToolCall>, tc: ToolCall, home: nat, k: int)
    requires |b.calls| == |Starts(tcs)| && IndexTold(b, tcs, k)
    requires |c.calls| == |Starts(tcs + [tc])| && c.byIndex == b.byIndex[tc.index := home]
    requires home < |c.calls| && Starts(tcs + [tc])[home] == Owner(tcs + [tc]) && Starts(tcs) <= Starts(tcs + [tc])
    ensures IndexTold(c, tcs + [tc], k)
  {
    var more := tcs + [tc];
    FoundOneMore(tcs, tc, "", k);
    hide Starts, Owner, FirstOfID, LastOfIndex;
    assert more[..|tcs| + 1] == more;
    var last := LastOfIndex(tcs, k);
    assert last.Some? ==> more[..last.value + 1] == tcs[..last.value + 1];
  }

  lemma {:induction false} IDAdded(b: Building, c: Building, tcs: seq<ToolCall>, tc: ToolCall, home: nat, k: string)
    requires |b.calls| == |Starts(tcs)| && IDTold(b, tcs, k)
    requires |c.calls| == |Starts(tcs + [tc])| && c.byID == (if tc.id == "" then b.byID else b.byID[tc.id := home])
    requires home < |c.calls| && Starts(tcs + [tc])[home] == Owner(tcs + [tc]) && Starts(tcs) <= Starts(tcs + [tc])
    ensures IDTold(c, tcs + [tc], k)
  {
    FoundOneMore(tcs, tc, k, 0);
    OwnerOfID(tcs, tc);
    hide Starts, Owner, FirstOfID, LastOfIndex;
  }

  lemma {:induction false} OwnerOfID(tcs: seq<ToolCall>, tc: ToolCall)
    ensures tc.id != "" ==> FirstOfID(tcs + [tc], tc.id) == Some(Owner(tcs + [tc]))
  {
    FoundOneMore(tcs, tc, tc.id, 0);
    hide FirstOfID;
  }

  // A call that was told before, after one more fragment, and one that the fragment starts.
  lemma {:induction false} CallTellsMore(tcs: seq<ToolCall>, tc: ToolCall, start: nat)
    requires start < |tcs|
    ensures CallTold(tcs + [tc], start) ==
            if Owner(tcs + [tc]) == start then Extend(CallTold(tcs, start), tc) else CallTold(tcs, start)
  {
    ToldOneMore(tcs, tc, start, NameField);
    ToldOneMore(tcs, tc, start, ArgumentsField);
    hide Owner, KindTold, Told;
    var call := CallTold(tcs, start);
    assert call.name + "" == call.name && call.arguments + "" == call.arguments;
  }

  lemma {:induction false} CallBegins(tcs: seq<ToolCall>, tc: ToolCall)
    requires Owner(tcs + [tc]) == |tcs|
    ensures CallTold(tcs + [tc], |tcs|) == tc
  {
    ToldOneMore(tcs, tc, |tcs|, NameField);
    ToldOneMore(tcs, tc, |tcs|, ArgumentsField);
    NothingTold(tcs, |tcs|, NameField);
    NothingTold(tcs, |tcs|, ArgumentsField);
    hide Owner, KindTold, Told;
    assert "" + tc.name == tc.name && "" + tc.arguments == tc.arguments;
  }

  lemma {:induction false} AddedCalls(b: Building, tcs: seq<ToolCall>, tc: ToolCall)
    requires MapsTold(b, tcs) && CallsTold(b, tcs)
    ensures CallsTold(Add(b, tc), tcs + [tc])
  {
    var more, c, home := tcs + [tc], Add(b, tc), Home(b, tc);
    Lands(b, tcs, tc);
    HomeIsOwner(b, tcs, tc);
    StartsIncrease(more);
    hide Starts, Owner, MapsTold, Home, CallTold, Extend;
    forall i | 0 <= i < |c.calls|
      ensures Starts(more)[i] < |more| && c.calls[i] == CallTold(more, Starts(more)[i])
    {
      if i < |b.calls| {
        assert Starts(more)[i] == Starts(tcs)[i];
        CallTellsMore(tcs, tc, Starts(tcs)[i]);
        assert i != home ==> Starts(more)[i] != Starts(more)[home];
      } else {
        CallBegins(tcs, tc);
      }
    }
  }

  /** The calls built are those the fragments start, in order, each with what its own fragments tell. */
  lemma {:induction false} FragmentsTellCalls(tcs: seq<ToolCall>)
    ensures MapsTold(AddAll(NEW, tcs), tcs) && CallsTold(AddAll(NEW, tcs), tcs)
  {
    hide Add, CallsTold, MapsTold;
    if tcs == [] {
      NothingBuilt();
    } else {
      var n := |tcs| - 1;
      FragmentsTellCalls(tcs[..n]);
      AddedMaps(AddAll(NEW, tcs[..n]), tcs[..n], tcs[n]);
      AddedCalls(AddAll(NEW, tcs[..n]), tcs[..n], tcs[n]);
      assert tcs == tcs[..n] + [tcs[n]];
    }
  }

  lemma {:induction false} NothingBuilt()
    ensures MapsTold(NEW, []) && CallsTold(NEW, [])
  {
  }

  // ---- Messages ---------------------------------------------------------------------------

  // All fragments of some deltas, in order.
  function Fragments(deltas: seq<Message>): seq<ToolCall> {
    if deltas == [] then [] else Fragments(deltas[..|deltas| - 1]) + deltas[|deltas| - 1].toolCalls
  }

  function ContentsOf(deltas: seq<Message>): (r: seq<string>)
    ensures |r| == |deltas|
  {
    seq(|deltas|, i requires 0 <= i < |deltas| => deltas[i].content)
  }

  function ReasoningsOf(deltas: seq<Message>): (r: seq<string>)
    ensures |r| == |deltas|
  {
    seq(|deltas|, i requires 0 <= i < |deltas| => deltas[i].reasoning)
  }

  // A message as its deltas tell it: it is the assistant's, its texts are theirs put together, and its
  // calls are those their fragments tell.
  ghost predicate IsTold(m: Message, deltas: seq<Message>) {
    var tcs := Fragments(deltas);
    && m == Message(if deltas == [] then "" else "assistant", m.content, m.reasoning, m.toolCalls, "", "")
    && Assembles(ContentsOf(deltas), m.content) && Assembles(ReasoningsOf(deltas), m.reasoning)
    && |m.toolCalls| == |Starts(tcs)|
    && forall i :: 0 <= i < |m.toolCalls| ==>
         Starts(tcs)[i] < |tcs| && m.toolCalls[i] == CallTold(tcs, Starts(tcs)[i])
  }

  lemma {:induction false} DeltasAdd(deltas: seq<Message>)
    ensures var b := UpdateAll(NEW, deltas);
            && b == AddAll(NEW, Fragments(deltas)).(role := b.role, content := b.content, reasoning := b.reasoning)
            && b.role == (if deltas == [] then "" else "assistant")
            && Assembles(ContentsOf(deltas), b.content) && Assembles(ReasoningsOf(deltas), b.reasoning)
  {
    hide Add, AddAll, Assembles;
    if deltas == [] {
      NothingAssembled();
      assert ContentsOf([]) == [] && ReasoningsOf([]) == [];
      AddAllConcat(NEW, [], []);
      NothingAdded();
    } else {
      var n, delta := |deltas| - 1, deltas[|deltas| - 1];
      DeltasAdd(deltas[..n]);
      var before, tcs := UpdateAll(NEW, deltas[..n]), Fragments(deltas[..n]);
      AddAllConcat(NEW, tcs, delta.toolCalls);
      AddAllIgnoresText(AddAll(NEW, tcs), delta.toolCalls, "assistant", before.content + delta.content,
                        before.reasoning + delta.reasoning);
      AssemblesOneMore(ContentsOf(deltas[..n]), delta.content, before.content);
      AssemblesOneMore(ReasoningsOf(deltas[..n]), delta.reasoning, before.reasoning);
      assert ContentsOf(deltas) == ContentsOf(deltas[..n]) + [delta.content];
      assert ReasoningsOf(deltas) == ReasoningsOf(deltas[..n]) + [delta.reasoning];
    }
  }

  lemma {:induction false} NothingAssembled()
    ensures Assembles([], "")
  {
  }

  lemma {:induction false} NothingAdded()
    ensures AddAll(NEW, []) == NEW
  {
  }

  /**
   * The message built is the one its deltas tell: their texts in order, and one call for each fragment that
   * starts one, with the index and id it starts with, the last kind named, and its own fragments in order.
   */
  lemma {:induction false} MessageIsTold(deltas: seq<Message>)
    ensures IsTold(Built(UpdateAll(NEW, deltas)), deltas)
  {
    hide Add, AddAll, Assembles, UpdateAll, Starts, CallTold;
    DeltasAdd(deltas);
    FragmentsTellCalls(Fragments(deltas));
  }
}
