/** Assembling a streamed message whose tool calls are shared between a list and two maps (openai/stream.go). */
module MessageBuilder {
  import opened ChatTypes
  import opened Sequences

  /** The pure view: calls by position, and the positions the two maps point at. */
  datatype Building = Building(
    role: string,
    content: string,
    reasoning: string,
    calls: seq<ToolCall>,
    byIndex: map<int, nat>,
    byID: map<string, nat>)

  const NEW := Building("", "", "", [], map[], map[])

  // A fragment added to a call it belongs to.
  function Extend(call: ToolCall, tc: ToolCall): ToolCall {
    call.(kind := if tc.kind != "" then tc.kind else call.kind,
          name := call.name + tc.name,
          arguments := call.arguments + tc.arguments)
  }

  predicate InRange(b: Building) {
    && (forall k :: k in b.byIndex ==> b.byIndex[k] < |b.calls|)
    && (forall k :: k in b.byID ==> b.byID[k] < |b.calls|)
  }

  // The position a fragment lands at: its id, else its index, else the last call, else a new one.
  function Home(b: Building, tc: ToolCall): nat {
    if tc.id != "" then if tc.id in b.byID then b.byID[tc.id] else |b.calls|
    else if tc.index in b.byIndex then b.byIndex[tc.index]
    else if |b.calls| > 0 then |b.calls| - 1
    else 0
  }

  function Add(b: Building, tc: ToolCall): Building
    requires InRange(b)
  {
    var home := Home(b, tc);
    var calls := if home < |b.calls| then b.calls[home := Extend(b.calls[home], tc)] else b.calls + [tc];
    b.(calls := calls,
       byIndex := b.byIndex[tc.index := home],
       byID := if tc.id == "" then b.byID else b.byID[tc.id := home])
  }

  lemma {:induction false} AddInRange(b: Building, tc: ToolCall)
    requires InRange(b)
    ensures InRange(Add(b, tc))
  {
  }

  function AddAll(b: Building, tcs: seq<ToolCall>): (r: Building)
    requires InRange(b)
    ensures InRange(r)
  {
    if tcs == [] then b
    else
      var before := AddAll(b, tcs[..|tcs| - 1]);
      AddInRange(before, tcs[|tcs| - 1]);
      Add(before, tcs[|tcs| - 1])
  }

  function Update(b: Building, delta: Message): (r: Building)
    requires InRange(b)
    ensures InRange(r)
  {
    AddAll(b.(role := if b.role == "" then ROLE_ASSISTANT else b.role,
              content := b.content + delta.content,
              reasoning := b.reasoning + delta.reasoning), delta.toolCalls)
  }

  function UpdateAll(b: Building, deltas: seq<Message>): (r: Building)
    requires InRange(b)
    ensures InRange(r)
  {
    if deltas == [] then b else Update(UpdateAll(b, deltas[..|deltas| - 1]), deltas[|deltas| - 1])
  }

  function Built(b: Building): Message {
    Message(b.role, b.content, b.reasoning, b.calls, "", "")
  }

  // ---- The heap structure -----------------------------------------------------------------

  class Cell {
    var call: ToolCall

    constructor (tc: ToolCall)
      ensures call == tc
    {
      call := tc;
    }
  }

  /** `MessageBuilder`: every cell is in the list, and the two maps alias cells of the list. */
  class Builder {
    var role: string
    var content: string
    var reasoning: string
    var toolCalls: seq<Cell>
    var idxMap: map<int, Cell>
    var idMap: map<string, Cell>
    ghost var byIndex: map<int, nat>
    ghost var byID: map<string, nat>

    ghost predicate Valid()
      reads this
    {
      && (forall i, j :: 0 <= i < j < |toolCalls| ==> toolCalls[i] != toolCalls[j])
      && idxMap.Keys == byIndex.Keys && idMap.Keys == byID.Keys
      && (forall k :: k in byIndex ==> byIndex[k] < |toolCalls| && idxMap[k] == toolCalls[byIndex[k]])
      && (forall k :: k in byID ==> byID[k] < |toolCalls| && idMap[k] == toolCalls[byID[k]])
    }

    ghost function Cells(): set<Cell>
      reads this
    {
      set c | c in toolCalls
    }

    ghost function Value(): (b: Building)
      requires Valid()
      reads this, toolCalls
      ensures InRange(b)
    {
      Building(role, content, reasoning,
               seq(|toolCalls|, i requires 0 <= i < |toolCalls| reads this, toolCalls => toolCalls[i].call), byIndex,
                   byID)
    }

    constructor ()
      ensures Valid() && Value() == NEW && toolCalls == []
    {
      role, content, reasoning, toolCalls, idxMap, idMap := "", "", "", [], map[], map[];
      byIndex, byID := map[], map[];
    }

    // Writing through a shared pointer changes one call, seen from the list and from both maps.
    method ExtendCell(cell: Cell, tc: ToolCall, ghost home: nat)
      requires Valid() && home < |toolCalls| && toolCalls[home] == cell
      modifies cell
      ensures Valid()
      ensures Value() == old(Value()).(calls := old(Value()).calls[home := Extend(old(Value()).calls[home], tc)])
    {
      if tc.kind != "" {
        cell.call := cell.call.(kind := tc.kind);
      }
      cell.call := cell.call.(name := cell.call.name + tc.name);
      cell.call := cell.call.(arguments := cell.call.arguments + tc.arguments);
    }

    method AppendCell(tc: ToolCall) returns (cell: Cell)
      requires Valid()
      modifies this`toolCalls
      ensures Valid() && fresh(cell) && toolCalls == old(toolCalls) + [cell]
      ensures Value() == old(Value()).(calls := old(Value()).calls + [tc])
    {
      cell := new Cell(tc);
      toolCalls := toolCalls + [cell];
    }

    // Both maps point at the cell a fragment went to.
    method PointAt(tc: ToolCall, cell: Cell, ghost home: nat)
      requires Valid() && home < |toolCalls| && toolCalls[home] == cell
      modifies this`idxMap, this`idMap, this`byIndex, this`byID
      ensures Valid()
      ensures Value() == old(Value()).(byIndex := old(byIndex)[tc.index := home],
                                       byID := if tc.id == "" then old(byID) else old(byID)[tc.id := home])
    {
      idxMap := idxMap[tc.index := cell];
      byIndex := byIndex[tc.index := home];
      if tc.id != "" {
        idMap := idMap[tc.id := cell];
        byID := byID[tc.id := home];
      }
    }

    method AddFragment(tc: ToolCall)
      requires Valid()
      modifies this, Cells()
      ensures Valid() && fresh(Cells() - old(Cells()))
      ensures Value() == Add(old(Value()), tc)
    {
      ghost var home := Home(Value(), tc);
      var found := true;
      var cell;
      if tc.id != "" && tc.id in idMap {
        cell := idMap[tc.id];
      } else if tc.id == "" && tc.index in idxMap {
        cell := idxMap[tc.index];
      } else if tc.id == "" && |toolCalls| > 0 {
        cell := toolCalls[|toolCalls| - 1];
      } else {
        found := false;
        cell := AppendCell(tc);
      }
      if found {
        ExtendCell(cell, tc, home);
      }
      PointAt(tc, cell, home);
    }

    method UpdateWith(delta: Message)
      requires Valid()
      modifies this, Cells()
      ensures Valid() && fresh(Cells() - old(Cells()))
      ensures Value() == Update(old(Value()), delta)
    {
      hide Add;
      if role == "" {
        role := ROLE_ASSISTANT;
      }
      reasoning := reasoning + delta.reasoning;
      content := content + delta.content;
      ghost var begun := Value();
      var tcs := delta.toolCalls;
      assert begun == old(Value()).(role := begun.role, content := begun.content, reasoning := begun.reasoning);
      for i := 0 to |tcs|
        invariant Valid() && fresh(Cells() - old(Cells()))
        invariant Value() == AddAll(begun, tcs[..i])
      {
        assert tcs[..i + 1][..i] == tcs[..i];
        AddFragment(tcs[i]);
      }
      assert tcs[..|tcs|] == tcs;
    }

    method Build() returns (message: Message)
      requires Valid()
      ensures message == Built(Value())
    {
      var calls := [];
      for i := 0 to |toolCalls|
        invariant calls == Value().calls[..i]
      {
        calls := calls + [toolCalls[i].call];
      }
      message := Message(role, content, reasoning, calls, "", "");
    }
  }

  // ---- What is built ----------------------------------------------------------------------

  // Ids are distinct, except that the first call may lack one; the id map is exact.
  ghost predicate DistinctIDs(b: Building) {
    && InRange(b)
    && (forall i :: 0 <= i < |b.calls| && b.calls[i].id == "" ==> i == 0)
    && (forall i :: 0 <= i < |b.calls| && b.calls[i].id != "" ==> b.calls[i].id in b.byID && b.byID[b.calls[i].id] == i)
    && (forall k :: k in b.byID ==> k != "" && b.calls[b.byID[k]].id == k)
  }

  lemma {:induction false} AddKeepsIDs(b: Building, tc: ToolCall)
    requires DistinctIDs(b)
    ensures DistinctIDs(Add(b, tc))
  {
  }

  lemma {:induction false} AddAllKeepsIDs(b: Building, tcs: seq<ToolCall>)
    requires DistinctIDs(b)
    ensures DistinctIDs(AddAll(b, tcs))
  {
    if tcs != [] {
      AddAllKeepsIDs(b, tcs[..|tcs| - 1]);
      AddKeepsIDs(AddAll(b, tcs[..|tcs| - 1]), tcs[|tcs| - 1]);
    }
  }

  lemma {:induction false} UpdateAllKeepsIDs(deltas: seq<Message>)
    ensures DistinctIDs(UpdateAll(NEW, deltas))
  {
    hide AddAll;
    if deltas != [] {
      var n := |deltas| - 1;
      UpdateAllKeepsIDs(deltas[..n]);
      var b := UpdateAll(NEW, deltas[..n]);
      AddAllKeepsIDs(b.(role := if b.role == "" then ROLE_ASSISTANT
                        else b.role, content := b.content + deltas[n].content,
                        reasoning := b.reasoning + deltas[n].reasoning), deltas[n].toolCalls);
    }
  }

  /** Whatever deltas arrive, the ids of the built calls are distinct, and only the first can be empty. */
  lemma {:induction false} BuiltIDsAreDistinct(deltas: seq<Message>)
    ensures var calls := Built(UpdateAll(NEW, deltas)).toolCalls;
            && (forall i, j :: 0 <= i < j < |calls| ==> calls[i].id != calls[j].id)
            && (forall i :: 0 <= i < |calls| && calls[i].id == "" ==> i == 0)
  {
    UpdateAllKeepsIDs(deltas);
  }

  // Where each fragment lands, in arrival order.
  ghost function Homes(b: Building, tcs: seq<ToolCall>): (r: seq<nat>)
    requires InRange(b)
    ensures |r| == |tcs|
  {
    if tcs == [] then []
    else
      var n := |tcs| - 1;
      Homes(b, tcs[..n]) + [Home(AddAll(b, tcs[..n]), tcs[n])]
  }

  // The two fields whose fragments are concatenated.
  datatype Field = NameField | ArgumentsField

  function Part(tc: ToolCall, f: Field): string {
    if f.NameField? then tc.name else tc.arguments
  }

  // The fragments that land at one position, concatenated in arrival order.
  ghost function Gather(tcs: seq<ToolCall>, homes: seq<nat>, at: nat, f: Field): string
    requires |homes| == |tcs|
  {
    if tcs == [] then ""
    else
      var n := |tcs| - 1;
      Gather(tcs[..n], homes[..n], at, f) + (if homes[n] == at then Part(tcs[n], f) else "")
  }

  function PartAt(b: Building, at: nat, f: Field): string {
    if at < |b.calls| then Part(b.calls[at], f) else ""
  }

  lemma {:induction false} HomeIsValid(b: Building, tc: ToolCall)
    requires InRange(b)
    ensures Home(b, tc) <= |b.calls| && Home(b, tc) < |Add(b, tc).calls|
  {
  }

  lemma {:induction false} HomesAreCalls(b: Building, tcs: seq<ToolCall>)
    requires InRange(b)
    ensures |AddAll(b, tcs).calls| >= |b.calls|
    ensures forall i :: 0 <= i < |tcs| ==> Homes(b, tcs)[i] < |AddAll(b, tcs).calls|
  {
    if tcs != [] {
      var n := |tcs| - 1;
      HomesAreCalls(b, tcs[..n]);
      HomeIsValid(AddAll(b, tcs[..n]), tcs[n]);
    }
  }

  /**
   * Every fragment lands in exactly one call, in arrival order: each call's name and arguments are
   * those it had, followed by the fragments whose home it is.
   */
  lemma {:induction false} FragmentsLandInOrder(b: Building, tcs: seq<ToolCall>, at: nat, f: Field)
    requires InRange(b)
    ensures forall i :: 0 <= i < |tcs| ==> Homes(b, tcs)[i] < |AddAll(b, tcs).calls|
    ensures PartAt(AddAll(b, tcs), at, f) == PartAt(b, at, f) + Gather(tcs, Homes(b, tcs), at, f)
  {
    HomesAreCalls(b, tcs);
    if tcs == [] {
      assert PartAt(b, at, f) + "" == PartAt(b, at, f);
    } else {
      var n := |tcs| - 1;
      FragmentsLandInOrder(b, tcs[..n], at, f);
      GatherOneMore(b, tcs, at, f);
      AddExtends(AddAll(b, tcs[..n]), tcs[n], at, f);
      hide Add, Home, PartAt, Homes, Part, Gather;
      var d := if Home(AddAll(b, tcs[..n]), tcs[n]) == at then Part(tcs[n], f) else "";
      Associative(PartAt(b, at, f), Gather(tcs[..n], Homes(b, tcs[..n]), at, f), d);
    }
  }

  lemma {:induction false} GatherOneMore(b: Building, tcs: seq<ToolCall>, at: nat, f: Field)
    requires InRange(b) && tcs != []
    ensures var n := |tcs| - 1;
            Gather(tcs, Homes(b, tcs), at, f) ==
            Gather(tcs[..n], Homes(b, tcs[..n]), at, f)
                + (if Home(AddAll(b, tcs[..n]), tcs[n]) == at then Part(tcs[n], f) else "")
  {
    hide Add, Home, Part;
    var n := |tcs| - 1;
    assert Homes(b, tcs)[..n] == Homes(b, tcs[..n]);
  }

  lemma {:induction false} AddExtends(b: Building, tc: ToolCall, at: nat, f: Field)
    requires InRange(b)
    ensures PartAt(Add(b, tc), at, f) == PartAt(b, at, f) + (if Home(b, tc) == at then Part(tc, f) else "")
  {
    assert PartAt(b, at, f) + "" == PartAt(b, at, f) && "" + Part(tc, f) == Part(tc, f);
  }

  // Characters of names and arguments, over a list of calls or fragments.
  function Size(tcs: seq<ToolCall>): nat {
    if tcs == [] then 0
    else
      var n := |tcs| - 1;
      Size(tcs[..n]) + |tcs[n].name| + |tcs[n].arguments|
  }

  lemma {:induction false} SizeUpdate(tcs: seq<ToolCall>, i: nat, tc: ToolCall)
    requires i < |tcs|
    ensures Size(tcs[i := tc]) == Size(tcs) - |tcs[i].name| - |tcs[i].arguments| + |tc.name| + |tc.arguments|
  {
    var n := |tcs| - 1;
    if i == n {
      assert tcs[i := tc][..n] == tcs[..n];
    } else {
      assert tcs[i := tc][..n] == tcs[..n][i := tc];
      SizeUpdate(tcs[..n], i, tc);
    }
  }

  /** No fragment is lost or doubled: the total length of names and arguments is conserved. */
  lemma {:induction false} FragmentLengthIsConserved(b: Building, tcs: seq<ToolCall>)
    requires InRange(b)
    ensures Size(AddAll(b, tcs).calls) == Size(b.calls) + Size(tcs)
  {
    if tcs != [] {
      var n := |tcs| - 1;
      FragmentLengthIsConserved(b, tcs[..n]);
      var before, tc := AddAll(b, tcs[..n]), tcs[n];
      var home := Home(before, tc);
      HomeIsValid(before, tc);
      if home < |before.calls| {
        SizeUpdate(before.calls, home, Extend(before.calls[home], tc));
      } else {
        assert (before.calls + [tc])[..|before.calls|] == before.calls;
      }
    }
  }

  // ---- Fragmentation ----------------------------------------------------------------------

  /** Cutting a fragment into a head and an id-less tail at the same index builds the same calls, from any state. */
  lemma {:induction false} SplitFragment(b: Building, whole: ToolCall, head: ToolCall, tail: ToolCall)
    requires InRange(b)
    requires head.index == whole.index == tail.index && head.id == whole.id && tail.id == ""
    requires head.kind == whole.kind && tail.kind in {"", whole.kind}
    requires whole.name == head.name + tail.name && whole.arguments == head.arguments + tail.arguments
    ensures InRange(Add(b, head)) && Add(Add(b, head), tail) == Add(b, whole)
  {
    AddInRange(b, head);
    HomeIsValid(b, whole);
    var home := Home(b, whole);
    assert Home(b, head) == home && Home(Add(b, head), tail) == home;
    if home < |b.calls| {
      var call := b.calls[home];
      assert call.name + head.name + tail.name == call.name + (head.name + tail.name);
      assert call.arguments + head.arguments + tail.arguments == call.arguments + (head.arguments + tail.arguments);
      assert Extend(Extend(call, head), tail) == Extend(call, whole);
    } else {
      assert Extend(head, tail) == whole;
    }
    assert Add(Add(b, head), tail).calls == Add(b, whole).calls;
  }

  lemma {:induction false} AddAllConcat(b: Building, p: seq<ToolCall>, q: seq<ToolCall>)
    requires InRange(b)
    ensures AddAll(b, p + q) == AddAll(AddAll(b, p), q)
    decreases |q|
  {
    hide Add, InRange;
    if q == [] {
      assert p + q == p;
    } else {
      var n, whole := |q| - 1, p + q;
      assert whole[..|whole| - 1] == p + q[..n] && whole[|whole| - 1] == q[n];
      AddAllConcat(b, p, q[..n]);
    }
  }

  // The calls added do not depend on role, content or reasoning, nor touch them.
  lemma {:induction false} AddAllIgnoresText(b: Building, tcs: seq<ToolCall>, role: string, content: string,
                                             reasoning: string)
    requires InRange(b)
    ensures AddAll(b.(role := role, content := content, reasoning := reasoning), tcs) ==
            AddAll(b, tcs).(role := role, content := content, reasoning := reasoning)
  {
    if tcs != [] {
      AddAllIgnoresText(b, tcs[..|tcs| - 1], role, content, reasoning);
    }
  }

  /** Cutting one delta into two, anywhere, builds the same message, from any state. */
  lemma {:induction false} SplitUpdate(b: Building, whole: Message, first: Message, second: Message)
    requires InRange(b)
    requires whole.content == first.content + second.content && whole.reasoning == first.reasoning + second.reasoning
    requires whole.toolCalls == first.toolCalls + second.toolCalls
    ensures Update(Update(b, first), second) == Update(b, whole)
  {
    hide Add;
    AddAllConcat(b, first.toolCalls, second.toolCalls);
    var role := if b.role == "" then ROLE_ASSISTANT else b.role;
    AddAllIgnoresText(b, first.toolCalls, role, b.content + first.content, b.reasoning + first.reasoning);
    AddAllIgnoresText(AddAll(b, first.toolCalls), second.toolCalls, role,
                      b.content + first.content + second.content, b.reasoning + first.reasoning + second.reasoning);
    AddAllIgnoresText(b, whole.toolCalls, role, b.content + whole.content, b.reasoning + whole.reasoning);
    assert b.content + first.content + second.content == b.content + whole.content;
    assert b.reasoning + first.reasoning + second.reasoning == b.reasoning + whole.reasoning;
  }
}
