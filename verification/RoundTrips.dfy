/** What the three stream round trips have in common. */
module RoundTrips {
  import opened Json
  import opened Canonical
  import opened StreamTypes
  import opened Collector

  // What the wire carries of a content item: everything that is neither a call nor reasoning is text.
  function Portable(c: Content): Content {
    match c.kind
    case ToolCallType => ToolCallContent(c.id, c.name, c.arguments)
    case ReasoningType => ReasoningContent(c.text)
    case _ => TextContent(c.text)
  }

  function PortableAll(contents: seq<Content>): seq<Content> {
    seq(|contents|, i requires 0 <= i < |contents| => Portable(contents[i]))
  }

  // An item as a decoder builds it: text, reasoning or a call, with no stray fields.
  predicate IsPlain(c: Content) {
    c == Portable(c)
  }

  ghost predicate ArgumentsSurvive(contents: seq<Content>, text: JsonText) {
    forall c :: c in contents && c.kind == ToolCallType ==> Survives(c.arguments, text)
  }

  // The events a decoder makes of one printed item: an empty opening, one delta, one stop.
  function PortableEvents(c: Content, index: int, text: JsonText): seq<StreamEvent> {
    match c.kind
    case ToolCallType =>
      [ContentStart(index, ToolCallContent(c.id, c.name, EMPTY_OBJECT)),
       ContentDelta(index, ToolCallContent("", "", Null), text.marshal(c.arguments)),
       ContentStop(index)]
    case ReasoningType =>
      [ContentStart(index, ReasoningContent("")), ContentDelta(index, ReasoningContent(c.text), ""), ContentStop(index)]
    case _ =>
      [ContentStart(index, TextContent("")), ContentDelta(index, TextContent(c.text), ""), ContentStop(index)]
  }

  // What is printed before the n-th item.
  function PrefixEvents(r: Response, n: nat, text: JsonText): seq<StreamEvent>
    requires n <= |r.content|
  {
    [Start(r.id, r.model, r.usage)] + ContentEvents(r.content, n, text)
  }

  lemma {:induction false} ApplyOne(s: Collected, e: StreamEvent, text: JsonText)
    ensures ApplyAll(s, [e], text) == Apply(s, e, text)
  {
    assert [e][..0] == [];
  }

  lemma {:induction false} ApplyThree(s: Collected, a: StreamEvent, b: StreamEvent, c: StreamEvent, text: JsonText)
    ensures ApplyAll(s, [a, b, c], text) == Apply(Apply(Apply(s, a, text), b, text), c, text)
  {
    hide Apply;
    assert [a, b, c][..2] == [a, b] && [a, b][..1] == [a] && [a][..0] == [];
    assert ApplyAll(s, [a], text) == Apply(s, a, text);
    assert ApplyAll(s, [a, b], text) == Apply(Apply(s, a, text), b, text);
  }

  /** Collecting the events of one item appends exactly the item. */
  lemma {:induction false} CollectsItem(s: Collected, c: Content, index: int, text: JsonText)
    requires c.kind == ToolCallType ==> Survives(c.arguments, text)
    ensures ApplyAll(s, PortableEvents(c, index, text), text).response ==
            s.response.(content := s.response.content + [Portable(c)])
  {
    var es := PortableEvents(c, index, text);
    ApplyThree(s, es[0], es[1], es[2], text);
    assert "" + text.marshal(c.arguments) == text.marshal(c.arguments) && "" + c.text == c.text;
  }

  /** A list of plain items is carried unchanged. */
  lemma {:induction false} PlainContentIsExact(contents: seq<Content>)
    ensures (forall c :: c in contents ==> IsPlain(c)) ==> PortableAll(contents) == contents
  {
    if forall c :: c in contents ==> IsPlain(c) {
      forall i | 0 <= i < |contents|
        ensures PortableAll(contents)[i] == contents[i]
      {
        assert contents[i] in contents;
      }
    }
  }

  /** Content events leave the id, model, stop reason and usage of the collected response alone. */
  lemma {:induction false} ContentKeepsEnvelope(s: Collected, contents: seq<Content>, n: nat, text: JsonText)
    requires n <= |contents|
    ensures ApplyAll(s, ContentEvents(contents, n, text), text).response.(content := []) == s.response.(content := [])
  {
    hide Grow, Closed;
    if n > 0 {
      ContentKeepsEnvelope(s, contents, n - 1, text);
      var before, es := ContentEvents(contents, n - 1, text), ItemEvents(contents[n - 1], n - 1, text);
      ApplyAllConcat(s, before, es, text);
      assert es == [es[0], es[1], es[2]];
      ApplyThree(ApplyAll(s, before, text), es[0], es[1], es[2], text);
    }
  }
}
