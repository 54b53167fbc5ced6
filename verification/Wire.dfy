/** Stream frames as the text on the wire, and read back from it. */
module Wire {
  import opened Json
  import opened StreamTypes
  import opened Wrappers
  import Sse

  const DONE := "[DONE]"

  function TextOf(d: Data, text: JsonText): string {
    match d
    case DoneMark => DONE
    case Tree(j) => text.marshal(j)
    case Garbage => ""
  }

  function DataOf(s: string, text: JsonText): Data {
    if s == DONE then DoneMark
    else
      var parsed := text.parse(s);
      if parsed.Some? then Tree(parsed.value) else Garbage
  }

  /** The mark is the text [DONE] and nothing else is. */
  lemma {:induction false} DoneIsLiteral(s: string, text: JsonText)
    ensures TextOf(DoneMark, text) == "[DONE]" && (DataOf(s, text).DoneMark? <==> s == "[DONE]")
  {
  }

  function FramesOf(es: seq<Event>, text: JsonText): (r: seq<Sse.Frame>)
    ensures |r| == |es|
  {
    seq(|es|, i requires 0 <= i < |es| => Sse.Frame(es[i].name, TextOf(es[i].data, text)))
  }

  function EventsOf(received: seq<Sse.Event>, text: JsonText): (r: seq<Event>)
    ensures |r| == |received|
  {
    seq(|received|, i requires 0 <= i < |received| => Event(received[i].kind, DataOf(received[i].data, text)))
  }

  // A frame an encoder prints: a name on one line, and [DONE] or JSON text on one line that parses back.
  ghost predicate Printable(e: Event, text: JsonText) {
    && Sse.Clean(e.name)
    && match e.data
       case DoneMark => true
       case Tree(j) => var s := text.marshal(j); Sse.Clean(s) && s != DONE && text.parse(s) == Some(j)
       case Garbage => false
  }

  /** Frames written as text and read as server-sent events are the same frames, in order, whatever they hold. */
  lemma {:induction false} FramesSurviveTheWire(es: seq<Event>, text: JsonText, fails: Sse.Consumer)
    requires (forall e :: e in es ==> Printable(e, text)) && (forall n: nat :: !fails(n))
    ensures var (received, outcome) := Sse.Read(Sse.WriteFrames(FramesOf(es, text)), false, fails);
            outcome == Sse.Ended && EventsOf(received, text) == es
  {
    hide Sse.Read, Sse.WriteFrames, Sse.Clean;
    var fs := FramesOf(es, text);
    DoneIsClean();
    forall f | f in fs
      ensures Sse.CleanFrame(f)
    {
      var i :| 0 <= i < |fs| && fs[i] == f;
      assert es[i] in es;
    }
    Sse.ReaderUndoesWriter(fs, fails);
    forall i | 0 <= i < |es|
      ensures EventsOf(Sse.Received(fs), text)[i] == es[i]
    {
      assert es[i] in es;
    }
  }

  lemma {:induction false} DoneIsClean()
    ensures Sse.Clean(DONE)
  {
  }
}
