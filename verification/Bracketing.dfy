/** Canonical event runs whose content blocks open, grow and stop in order. */
module Bracketing {
  import opened Canonical
  import opened StreamTypes

  /** What a reader of canonical events knows: the next index to start, and the kinds of the open blocks. */
  datatype Track = Track(begun: bool, next: int, open: map<int, ContentType>, ended: bool)

  const NOTHING := Track(false, 0, map[], false)

  // Starts come in index order, deltas go to an open block of their kind, stops close open blocks,
  // and done comes once, with everything closed; nothing follows it.
  predicate Legal(t: Track, e: StreamEvent) {
    !t.ended &&
    match e
    case Start(_, _, _) => !t.begun && t.next == 0
    case ContentStart(index, _) => index == t.next
    case ContentDelta(index, content, _) => index in t.open && t.open[index] == content.kind
    case ContentStop(index) => index in t.open
    case Done(_, _) => t.open == map[]
  }

  function Advance(t: Track, e: StreamEvent): Track {
    match e
    case Start(_, _, _) => t.(begun := true)
    case ContentStart(index, content) => t.(next := t.next + 1, open := t.open[index := content.kind])
    case ContentDelta(_, _, _) => t
    case ContentStop(index) => t.(open := t.open - {index})
    case Done(_, _) => t.(ended := true)
  }

  function AdvanceAll(t: Track, es: seq<StreamEvent>): Track {
    if es == [] then t else Advance(AdvanceAll(t, es[..|es| - 1]), es[|es| - 1])
  }

  predicate Bracketed(t: Track, es: seq<StreamEvent>) {
    es == [] ||
    var n := |es| - 1;
    Bracketed(t, es[..n]) && Legal(AdvanceAll(t, es[..n]), es[n])
  }

  lemma {:induction false} BracketedConcat(t: Track, a: seq<StreamEvent>, b: seq<StreamEvent>)
    ensures AdvanceAll(t, a + b) == AdvanceAll(AdvanceAll(t, a), b)
    ensures Bracketed(t, a + b) <==> Bracketed(t, a) && Bracketed(AdvanceAll(t, a), b)
    decreases |b|
  {
    hide Legal, Advance;
    if b == [] {
      assert a + b == a;
    } else {
      var n := |b| - 1;
      assert (a + b)[..|a| + n] == a + b[..n];
      BracketedConcat(t, a, b[..n]);
    }
  }

  lemma {:induction false} BracketedNone(t: Track)
    ensures Bracketed(t, []) && AdvanceAll(t, []) == t
  {
  }

  lemma {:induction false} BracketedOne(t: Track, e: StreamEvent)
    ensures Bracketed(t, [e]) <==> Legal(t, e)
    ensures AdvanceAll(t, [e]) == Advance(t, e)
  {
    assert [e][..0] == [];
  }

  lemma {:induction false} BracketedTwo(t: Track, d: StreamEvent, e: StreamEvent)
    ensures Bracketed(t, [d, e]) <==> Legal(t, d) && Legal(Advance(t, d), e)
    ensures AdvanceAll(t, [d, e]) == Advance(Advance(t, d), e)
  {
    hide Legal, Advance;
    assert [d, e] == [d] + [e];
    BracketedConcat(t, [d], [e]);
    BracketedOne(t, d);
    BracketedOne(Advance(t, d), e);
  }

  // After the end every event is one too many.
  lemma {:induction false} NothingFollowsTheEnd(t: Track, es: seq<StreamEvent>)
    requires t.ended && es != []
    ensures !Bracketed(t, es)
  {
    BracketedOne(t, es[0]);
    assert es == [es[0]] + es[1..];
    BracketedConcat(t, [es[0]], es[1..]);
  }
}
