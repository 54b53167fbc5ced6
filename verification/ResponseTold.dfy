/** What a chunked response is, told by its chunks alone (openai/stream.go). */
module ResponseTold {
  import opened ChatTypes
  import opened MessageBuilder
  import opened MessageFragments
  import opened ResponseAssembler
  import opened Wrappers

  // The first of some texts that is not empty, and the last; "" if there is none.
  ghost predicate FirstSaid(xs: seq<string>, s: string) {
    (s == "" && forall x :: x in xs ==> x == "") ||
    (s != "" && exists k :: 0 <= k < |xs| && xs[k] == s && forall j :: 0 <= j < k ==> xs[j] == "")
  }

  ghost predicate LastSaid(xs: seq<string>, s: string) {
    (s == "" && forall x :: x in xs ==> x == "") ||
    (s != "" && exists k :: 0 <= k < |xs| && xs[k] == s && forall j :: k < j < |xs| ==> xs[j] == "")
  }

  ghost predicate LastTold<T>(xs: seq<Option<T>>, r: Option<T>) {
    (r == None && forall x :: x in xs ==> x == None) ||
    (r != None && exists k :: 0 <= k < |xs| && xs[k] == r && forall j :: k < j < |xs| ==> xs[j] == None)
  }

  lemma {:induction false} FirstOneMore(xs: seq<string>, s: string, x: string)
    requires FirstSaid(xs, s)
    ensures FirstSaid(xs + [x], if s == "" then x else s)
  {
    var more := xs + [x];
    if s != "" {
      var k :| 0 <= k < |xs| && xs[k] == s && forall j :: 0 <= j < k ==> xs[j] == "";
      assert more[k] == s && forall j :: 0 <= j < k ==> more[j] == "";
    } else if x != "" {
      assert more[|xs|] == x && forall j :: 0 <= j < |xs| ==> more[j] == xs[j] && xs[j] in xs;
    }
  }

  lemma {:induction false} LastOneMore(xs: seq<string>, s: string, x: string)
    requires LastSaid(xs, s)
    ensures LastSaid(xs + [x], if x == "" then s else x)
  {
    var more := xs + [x];
    if x != "" {
      assert more[|xs|] == x;
    } else if s != "" {
      var k :| 0 <= k < |xs| && xs[k] == s && forall j :: k < j < |xs| ==> xs[j] == "";
      assert more[k] == s && forall j :: k < j < |more| ==> more[j] == "";
    }
  }

  lemma {:induction false} LastToldOneMore<T>(xs: seq<Option<T>>, r: Option<T>, x: Option<T>)
    requires LastTold(xs, r)
    ensures LastTold(xs + [x], if x == None then r else x)
  {
    var more := xs + [x];
    if x != None {
      assert more[|xs|] == x;
    } else if r != None {
      var k :| 0 <= k < |xs| && xs[k] == r && forall j :: k < j < |xs| ==> xs[j] == None;
      assert more[k] == r && forall j :: k < j < |more| ==> more[j] == None;
    }
  }

  // ---- The envelope -----------------------------------------------------------------------

  function IDs(chunks: seq<Chunk>): seq<string> {
    seq(|chunks|, i requires 0 <= i < |chunks| => chunks[i].id)
  }

  function Models(chunks: seq<Chunk>): seq<string> {
    seq(|chunks|, i requires 0 <= i < |chunks| => chunks[i].model)
  }

  function Usages(chunks: seq<Chunk>): seq<Option<CompletionUsage>> {
    seq(|chunks|, i requires 0 <= i < |chunks| => chunks[i].usage)
  }

  lemma {:induction false} ChoicesKeepEnvelope(a: Assembly, choices: seq<Choice>)
    ensures var b := AddChoices(a, choices); b.id == a.id && b.model == a.model && b.usage == a.usage
  {
    if choices != [] {
      ChoicesKeepEnvelope(a, choices[..|choices| - 1]);
    }
  }

  lemma {:induction false} NothingSaid()
    ensures FirstSaid([], "") && LastSaid([], "") && LastTold<CompletionUsage>([], None)
  {
  }

  lemma {:induction false} ChunkKeepsEnvelope(a: Assembly, chunk: Chunk)
    ensures var b := AddChunk(a, chunk);
            && b.id == (if a.id == "" then chunk.id else a.id)
            && b.model == (if a.model == "" then chunk.model else a.model)
            && b.usage == if chunk.usage == None then a.usage else chunk.usage
  {
    hide AddChoices;
    ChoicesKeepEnvelope(AddEnvelope(a, chunk), chunk.choices);
  }

  /** The response has the first id and the first model that any chunk names, and the last usage any has. */
  lemma {:induction false} EnvelopeIsTold(chunks: seq<Chunk>)
    ensures var a := AddChunks(EMPTY, chunks);
            FirstSaid(IDs(chunks), a.id) && FirstSaid(Models(chunks), a.model) && LastTold(Usages(chunks), a.usage)
  {
    hide FirstSaid, LastTold, AddChunk;
    if chunks == [] {
      NothingSaid();
      assert IDs([]) == [] && Models([]) == [] && Usages([]) == [];
    } else {
      var n := |chunks| - 1;
      var before, chunk := AddChunks(EMPTY, chunks[..n]), chunks[n];
      EnvelopeIsTold(chunks[..n]);
      ChunkKeepsEnvelope(before, chunk);
      FirstOneMore(IDs(chunks[..n]), before.id, chunk.id);
      FirstOneMore(Models(chunks[..n]), before.model, chunk.model);
      LastToldOneMore(Usages(chunks[..n]), before.usage, chunk.usage);
      assert IDs(chunks) == IDs(chunks[..n]) + [chunk.id];
      assert Models(chunks) == Models(chunks[..n]) + [chunk.model];
      assert Usages(chunks) == Usages(chunks[..n]) + [chunk.usage];
    }
  }

  // ---- A choice ---------------------------------------------------------------------------

  // The finish reasons given for one choice, in order.
  function ReasonsIn(choices: seq<Choice>, index: int): seq<string> {
    if choices == [] then []
    else
      var before, last := ReasonsIn(choices[..|choices| - 1], index), choices[|choices| - 1];
      if last.index == index then before + [last.finishReason] else before
  }

  function ReasonsOf(chunks: seq<Chunk>, index: int): seq<string> {
    if chunks == [] then []
    else ReasonsOf(chunks[..|chunks| - 1], index) + ReasonsIn(chunks[|chunks| - 1].choices, index)
  }

  function ReasonAt(a: Assembly, index: int): string {
    if index in a.finishReasons then a.finishReasons[index] else ""
  }

  lemma {:induction false} ReasonsAdd(a: Assembly, choices: seq<Choice>, index: int, reasons: seq<string>)
    requires LastSaid(reasons, ReasonAt(a, index))
    ensures LastSaid(reasons + ReasonsIn(choices, index), ReasonAt(AddChoices(a, choices), index))
  {
    hide LastSaid, Update;
    if choices == [] {
      assert reasons + [] == reasons;
    } else {
      var n := |choices| - 1;
      var before, last := AddChoices(a, choices[..n]), choices[n];
      ReasonsAdd(a, choices[..n], index, reasons);
      if last.index == index {
        var told := reasons + ReasonsIn(choices[..n], index);
        LastOneMore(told, ReasonAt(before, index), last.finishReason);
        assert reasons + ReasonsIn(choices, index) == told + [last.finishReason];
      }
    }
  }

  lemma {:induction false} ReasonIsTold(chunks: seq<Chunk>, index: int)
    ensures LastSaid(ReasonsOf(chunks, index), ReasonAt(AddChunks(EMPTY, chunks), index))
  {
    hide LastSaid, AddChoices, ReasonsIn;
    if chunks == [] {
      NothingSaid();
    } else {
      var n := |chunks| - 1;
      ReasonIsTold(chunks[..n], index);
      ReasonsAdd(AddEnvelope(AddChunks(EMPTY, chunks[..n]), chunks[n]), chunks[n].choices, index,
                 ReasonsOf(chunks[..n], index));
    }
  }

  /**
   * A choice is built exactly for an index that some delta comes under: its message is the one the deltas
   * of that index tell, its finish reason the last given for it.
   */
  lemma {:induction false} ChoiceIsTold(chunks: seq<Chunk>, index: int)
    ensures var a := AddChunks(EMPTY, chunks);
            && (index in a.builders <==> DeltasOf(chunks, index) != [])
            && (index in a.builders ==>
                  var c := Finished(a, index);
                  && c.index == index && c.delta == None && c.message.Some?
                  && IsTold(c.message.value, DeltasOf(chunks, index))
                  && LastSaid(ReasonsOf(chunks, index), c.finishReason))
  {
    hide IsTold, LastSaid, AddChunks, DeltasOf, ReasonsOf, UpdateAll;
    ChoicesDoNotMix(chunks, index);
    ReasonIsTold(chunks, index);
    MessageIsTold(DeltasOf(chunks, index));
  }
}
