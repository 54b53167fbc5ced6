/** Assembling the choices of a chunked response, one message builder per choice (openai/stream.go). */
module ResponseAssembler {
  import opened Wrappers
  import opened ChatTypes
  import opened MessageBuilder
  import opened Walks

  datatype Choice = Choice(index: int, message: Option<Message>, delta: Option<Message>, finishReason: string)

  datatype CompletionUsage = CompletionUsage(prompt: int, completion: int, total: int)

  datatype Chunk = Chunk(
    id: string,
    model: string,
    error: Option<string>,
    choices: seq<Choice>,
    usage: Option<CompletionUsage>)

  type Builders = m: map<int, Building> | forall i :: i in m ==> InRange(m[i]) witness map[]

  datatype Assembly = Assembly(
    id: string,
    model: string,
    usage: Option<CompletionUsage>,
    builders: Builders,
    finishReasons: map<int, string>)

  const EMPTY := Assembly("", "", None, map[], map[])

  function AddChoice(a: Assembly, choice: Choice): Assembly {
    var builders :=
      if choice.delta.None? then a.builders
      else
        var before := if choice.index in a.builders then a.builders[choice.index] else NEW;
        a.builders[choice.index := Update(before, choice.delta.value)];
    a.(builders := builders,
       finishReasons := if choice.finishReason == "" then a.finishReasons
           else a.finishReasons[choice.index := choice.finishReason])
  }

  function AddChoices(a: Assembly, choices: seq<Choice>): Assembly {
    if choices == [] then a
    else AddChoice(AddChoices(a, choices[..|choices| - 1]), choices[|choices| - 1])
  }

  // The first id and model are kept, and the last usage.
  function AddEnvelope(a: Assembly, chunk: Chunk): Assembly {
    a.(id := if a.id == "" then chunk.id else a.id,
       model := if a.model == "" then chunk.model else a.model,
       usage := if chunk.usage.Some? then chunk.usage else a.usage)
  }

  function AddChunk(a: Assembly, chunk: Chunk): Assembly {
    AddChoices(AddEnvelope(a, chunk), chunk.choices)
  }

  function AddChunks(a: Assembly, chunks: seq<Chunk>): Assembly {
    if chunks == [] then a
    else AddChunk(AddChunks(a, chunks[..|chunks| - 1]), chunks[|chunks| - 1])
  }

  /** `ResponseAssembler`, with its builders kept as values. */
  class Assembler {
    var id: string
    var model: string
    var usage: Option<CompletionUsage>
    var builders: Builders
    var finishReasons: map<int, string>

    constructor ()
      ensures Value() == EMPTY
    {
      id, model, usage, builders, finishReasons := "", "", None, map[], map[];
    }

    function Value(): Assembly
      reads this
    {
      Assembly(id, model, usage, builders, finishReasons)
    }

    method AddOneChoice(choice: Choice)
      modifies this
      ensures Value() == AddChoice(old(Value()), choice)
    {
      hide Update;
      if choice.delta.Some? {
        var builder := NEW;
        if choice.index in builders {
          builder := builders[choice.index];
        }
        builders := builders[choice.index := Update(builder, choice.delta.value)];
      }
      if choice.finishReason != "" {
        finishReasons := finishReasons[choice.index := choice.finishReason];
      }
    }

    method AddOne(chunk: Chunk)
      modifies this
      ensures Value() == AddChunk(old(Value()), chunk)
    {
      hide AddChoice;
      if id == "" && chunk.id != "" {
        id := chunk.id;
      }
      if model == "" && chunk.model != "" {
        model := chunk.model;
      }
      if chunk.usage.Some? {
        usage := chunk.usage;
      }
      ghost var begun := Value();
      var choices := chunk.choices;
      for i := 0 to |choices|
        invariant Value() == AddChoices(begun, choices[..i])
      {
        assert choices[..i + 1][..i] == choices[..i];
        AddOneChoice(choices[i]);
      }
      assert choices[..|choices|] == choices;
    }

    /** `Build`: one choice per builder, in whatever order the map is walked. */
    method Build() returns (choices: seq<Choice>, ghost walk: seq<int>)
      ensures Enumerates(walk, builders.Keys) && |choices| == |walk|
      ensures forall i :: 0 <= i < |walk| ==> walk[i] in builders && choices[i] == Finished(Value(), walk[i])
    {
      choices, walk := [], [];
      var left := builders.Keys;
      while left != {}
        invariant left <= builders.Keys && Enumerates(walk, builders.Keys - left) && |choices| == |walk|
        invariant forall i :: 0 <= i < |walk| ==> walk[i] in builders && choices[i] == Finished(Value(), walk[i])
      {
        HasElement(left);
        var index :| index in left;
        left := left - {index};
        choices, walk := choices + [Finished(Value(), index)], walk + [index];
      }
    }
  }

  // The choice built for an index that has a builder.
  function Finished(a: Assembly, index: int): Choice
    requires index in a.builders
  {
    Choice(index, Some(Built(a.builders[index])), None, if index in a.finishReasons then a.finishReasons[index] else "")
  }

  // The deltas of one choice, in arrival order.
  function DeltasIn(choices: seq<Choice>, index: int): seq<Message> {
    if choices == [] then []
    else
      var last := choices[|choices| - 1];
      var before := DeltasIn(choices[..|choices| - 1], index);
      if last.index == index && last.delta.Some? then before + [last.delta.value] else before
  }

  function DeltasOf(chunks: seq<Chunk>, index: int): seq<Message> {
    if chunks == [] then []
    else DeltasOf(chunks[..|chunks| - 1], index) + DeltasIn(chunks[|chunks| - 1].choices, index)
  }

  // A lone builder of one choice agrees with the assembly.
  ghost predicate Lone(a: Assembly, index: int, deltas: seq<Message>) {
    if deltas == [] then index !in a.builders
    else index in a.builders && a.builders[index] == UpdateAll(NEW, deltas)
  }

  lemma {:induction false} ChoicesAreLone(a: Assembly, choices: seq<Choice>, index: int, deltas: seq<Message>)
    requires Lone(a, index, deltas)
    ensures Lone(AddChoices(a, choices), index, deltas + DeltasIn(choices, index))
  {
    hide AddChoice, Lone;
    if choices == [] {
      assert deltas + [] == deltas;
    } else {
      var n := |choices| - 1;
      ChoicesAreLone(a, choices[..n], index, deltas);
      var before, last := deltas + DeltasIn(choices[..n], index), choices[n];
      ChoiceIsLone(AddChoices(a, choices[..n]), last, index, before);
      if last.index == index && last.delta.Some? {
        assert deltas + DeltasIn(choices, index) == before + [last.delta.value];
      }
    }
  }

  lemma {:induction false} ChoiceIsLone(a: Assembly, choice: Choice, index: int, deltas: seq<Message>)
    requires Lone(a, index, deltas)
    ensures Lone(AddChoice(a, choice), index,
                 if choice.index == index && choice.delta.Some? then deltas + [choice.delta.value] else deltas)
  {
    if choice.delta.Some? {
      OneMoreDelta(deltas, choice.delta.value);
    }
    hide Update, UpdateAll;
  }

  lemma {:induction false} OneMoreDelta(deltas: seq<Message>, delta: Message)
    ensures UpdateAll(NEW, deltas + [delta]) == Update(UpdateAll(NEW, deltas), delta) && UpdateAll(NEW, []) == NEW
  {
    hide Update;
    assert (deltas + [delta])[..|deltas|] == deltas;
  }

  /** The assembler's message for a choice is that of a lone builder fed only that choice's deltas. */
  lemma {:induction false} ChoicesDoNotMix(chunks: seq<Chunk>, index: int)
    ensures Lone(AddChunks(EMPTY, chunks), index, DeltasOf(chunks, index))
  {
    hide AddChoices, Update;
    if chunks != [] {
      var n := |chunks| - 1;
      ChoicesDoNotMix(chunks[..n], index);
      var a, chunk := AddChunks(EMPTY, chunks[..n]), chunks[n];
      ChoicesAreLone(AddEnvelope(a, chunk), chunk.choices, index, DeltasOf(chunks[..n], index));
    }
  }
}
