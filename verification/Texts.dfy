/** Joining texts (strings.Join and strings.Builder). */
module Texts {
  function Join(parts: seq<string>, separator: string): string {
    if parts == [] then ""
    else if |parts| == 1 then parts[0]
    else Join(parts[..|parts| - 1], separator) + separator + parts[|parts| - 1]
  }

  // Where the n-th part begins when a gap follows each part before it.
  function Offset(parts: seq<string>, n: nat, gap: nat): nat
    requires n <= |parts|
  {
    if n == 0 then 0 else Offset(parts, n - 1, gap) + |parts[n - 1]| + gap
  }

  // The part stands at its place in the whole.
  predicate At(whole: string, at: nat, part: string) {
    at + |part| <= |whole| && whole[at..at + |part|] == part
  }

  // The whole has every part at its place, a separator between two parts, and nothing else.
  predicate Separates(parts: seq<string>, separator: string, whole: string) {
    && (if parts == [] then whole == "" else |whole| + |separator| == Offset(parts, |parts|, |separator|))
    && (forall i :: 0 <= i < |parts| ==> At(whole, Offset(parts, i, |separator|), parts[i]))
    && (forall i :: 0 <= i < |parts| - 1 ==>
          At(whole, Offset(parts, i, |separator|) + |parts[i]|, separator))
  }

  // The whole is the parts put together.
  predicate Assembles(parts: seq<string>, whole: string) {
    Separates(parts, "", whole)
  }

  lemma {:induction false} AtLonger(whole: string, more: string, at: nat, part: string)
    ensures At(whole, at, part) ==> At(whole + more, at, part)
  {
    if At(whole, at, part) {
      assert (whole + more)[at..at + |part|] == whole[at..at + |part|];
    }
  }

  lemma {:induction false} AtEnd(whole: string, part: string)
    ensures At(whole + part, |whole|, part)
  {
  }

  lemma {:induction false} OffsetOfPrefix(parts: seq<string>, part: string, n: nat, gap: nat)
    requires n <= |parts|
    ensures Offset(parts + [part], n, gap) == Offset(parts, n, gap)
  {
    if n > 0 {
      OffsetOfPrefix(parts, part, n - 1, gap);
    }
  }

  lemma {:induction false} OneSeparates(part: string, separator: string)
    ensures Separates([part], separator, part)
  {
    var parts := [part];
    assert Offset(parts, 0, |separator|) == 0;
    assert Offset(parts, 1, |separator|) == |part| + |separator|;
    assert "" + part == part;
    AtEnd("", part);
  }

  lemma {:induction false} OffsetOneMore(parts: seq<string>, part: string, gap: nat)
    ensures Offset(parts + [part], |parts| + 1, gap) == Offset(parts, |parts|, gap) + |part| + gap
  {
    OffsetOfPrefix(parts, part, |parts|, gap);
  }

  lemma {:induction false} PartStands(parts: seq<string>, part: string, separator: string, whole: string, i: nat)
    requires parts != [] && Separates(parts, separator, whole) && i <= |parts|
    ensures At(whole + separator + part, Offset(parts + [part], i, |separator|), (parts + [part])[i])
  {
    hide At, Offset;
    OffsetOfPrefix(parts, part, i, |separator|);
    if i < |parts| {
      var at := Offset(parts, i, |separator|);
      AtLonger(whole, separator, at, parts[i]);
      AtLonger(whole + separator, part, at, parts[i]);
    } else {
      AtEnd(whole + separator, part);
    }
  }

  lemma {:induction false} LastOffset(parts: seq<string>, gap: nat)
    requires parts != []
    ensures var n := |parts| - 1; Offset(parts, n + 1, gap) == Offset(parts, n, gap) + |parts[n]| + gap
  {
  }

  lemma {:induction false} GapStands(parts: seq<string>, part: string, separator: string, whole: string, i: nat)
    requires Separates(parts, separator, whole) && i < |parts|
    ensures At(whole + separator + part, Offset(parts + [part], i, |separator|) + |parts[i]|, separator)
  {
    hide At, Offset;
    OffsetOfPrefix(parts, part, i, |separator|);
    LastOffset(parts, |separator|);
    var end := Offset(parts, i, |separator|) + |parts[i]|;
    if i < |parts| - 1 {
      AtLonger(whole, separator, end, separator);
    } else {
      assert end == |whole|;
      AtEnd(whole, separator);
    }
    AtLonger(whole + separator, part, end, separator);
  }

  lemma {:induction false} SeparatesOneMore(parts: seq<string>, part: string, separator: string, whole: string)
    requires parts != [] && Separates(parts, separator, whole)
    ensures Separates(parts + [part], separator, whole + separator + part)
  {
    hide At, Offset;
    var more, longer := parts + [part], whole + separator + part;
    OffsetOneMore(parts, part, |separator|);
    forall i | 0 <= i < |more|
      ensures At(longer, Offset(more, i, |separator|), more[i])
    {
      PartStands(parts, part, separator, whole, i);
    }
    forall i | 0 <= i < |more| - 1
      ensures At(longer, Offset(more, i, |separator|) + |more[i]|, separator)
    {
      GapStands(parts, part, separator, whole, i);
    }
  }

  /** Joining puts every part at its place, separated. */
  lemma {:induction false} JoinSeparates(parts: seq<string>, separator: string)
    ensures Separates(parts, separator, Join(parts, separator))
  {
    hide Separates;
    if parts == [] {
      NothingSeparates(separator);
    } else if |parts| == 1 {
      OneSeparates(parts[0], separator);
      assert parts == [parts[0]];
    } else {
      var n := |parts| - 1;
      JoinSeparates(parts[..n], separator);
      SeparatesOneMore(parts[..n], parts[n], separator, Join(parts[..n], separator));
      assert parts == parts[..n] + [parts[n]];
    }
  }

  lemma {:induction false} NothingSeparates(separator: string)
    ensures Separates([], separator, "")
  {
  }

  lemma {:induction false} AssemblesOneMore(parts: seq<string>, part: string, whole: string)
    requires Assembles(parts, whole)
    ensures Assembles(parts + [part], whole + part)
  {
    hide At, Offset;
    if parts == [] {
      assert parts + [part] == [part] && whole + part == part;
      OneSeparates(part, "");
    } else {
      assert whole + "" == whole;
      SeparatesOneMore(parts, part, "", whole);
    }
  }
}
