/**
 * Whole streams: running a decoder over frames, collecting its events, and printing through an
 * encoder (TranslateStream, CollectStream and WriteResponseStream of proxy/codec/stream.go).
 */
module Streams {
  import opened Wrappers
  import opened Json
  import opened Canonical
  import opened StreamTypes
  import opened Collector
  import opened Walks
  import ChatStream
  import ResponsesStream
  import AnthropicStream

  datatype DecoderState =
    | ChatDecoder(chat: ChatStream.State)
    | ResponsesDecoder(responses: ResponsesStream.State)
    | AnthropicDecoder(anthropic: AnthropicStream.State)

  function Initial(p: Protocol): DecoderState {
    match p
    case OpenAIChat => ChatDecoder(ChatStream.INITIAL)
    case OpenAIResponses => ResponsesDecoder(ResponsesStream.INITIAL)
    case Anthropic => AnthropicDecoder(AnthropicStream.INITIAL)
  }

  function Decode(s: DecoderState, d: Delivery, text: JsonText): Decoded<DecoderState> {
    match s
    case ChatDecoder(c) =>
      (match ChatStream.Decode(c, d)
       case Decoded(t, es) => Decoded(ChatDecoder(t), es)
       case Failed(f) => Failed(f))
    case ResponsesDecoder(r) =>
      (match ResponsesStream.Decode(r, d, text)
       case Decoded(t, es) => Decoded(ResponsesDecoder(t), es)
       case Failed(f) => Failed(f))
    case AnthropicDecoder(a) =>
      (match AnthropicStream.Decode(a, d)
       case Decoded(t, es) => Decoded(AnthropicDecoder(t), es)
       case Failed(f) => Failed(f))
  }

  function Finish(s: DecoderState, walk: seq<int>): seq<StreamEvent> {
    match s
    case ChatDecoder(c) => ChatStream.Finish(c, walk)
    case ResponsesDecoder(r) => ResponsesStream.Finish(r)
    case AnthropicDecoder(a) => AnthropicStream.Finish(a)
  }

  // The keys of the map a decoder ranges over when it closes blocks.
  function WalkKeys(s: DecoderState): set<int> {
    match s
    case ChatDecoder(c) => c.toolIndexes.Keys
    case ResponsesDecoder(_) => {}
    case AnthropicDecoder(a) => a.open.Keys
  }

  function Run(s: DecoderState, ds: seq<Delivery>, text: JsonText): Decoded<DecoderState> {
    if ds == [] then Decoded(s, [])
    else
      match Run(s, ds[..|ds| - 1], text)
      case Failed(f) => Failed(f)
      case Decoded(t, before) =>
        match Decode(t, ds[|ds| - 1], text)
        case Failed(f) => Failed(f)
        case Decoded(u, last) => Decoded(u, before + last)
  }

  lemma {:induction false} RunConcat(s: DecoderState, a: seq<Delivery>, b: seq<Delivery>, text: JsonText)
    ensures var first := Run(s, a, text);
            Run(s, a + b, text) ==
              if first.Failed? then first
              else
                var second := Run(first.state, b, text);
                if second.Failed? then second else Decoded(second.state, first.events + second.events)
    decreases |b|
  {
    hide Decode;
    var first := Run(s, a, text);
    if b == [] {
      assert a + b == a;
      assert first.Decoded? ==> first.events + [] == first.events;
    } else {
      var n := |b| - 1;
      assert (a + b)[..|a| + n] == a + b[..n];
      RunConcat(s, a, b[..n], text);
      if first.Decoded? {
        var middle := Run(first.state, b[..n], text);
        if middle.Decoded? && Decode(middle.state, b[n], text).Decoded? {
          var last := Decode(middle.state, b[n], text).events;
          assert first.events + (middle.events + last) == (first.events + middle.events) + last;
        }
      }
    }
  }

  // Every map walk made along the run is a walk of the map it ranges over.
  ghost predicate WalksFit(s: DecoderState, ds: seq<Delivery>, text: JsonText) {
    ds == [] ||
    var n := |ds| - 1;
    var before := Run(s, ds[..n], text);
    WalksFit(s, ds[..n], text) && (before.Decoded? ==> Enumerates(ds[n].walk, WalkKeys(before.state)))
  }

  lemma {:induction false} RunOne(s: DecoderState, d: Delivery, text: JsonText)
    ensures Run(s, [d], text) == Decode(s, d, text)
  {
    hide Decode;
    assert [d][..0] == [];
    var step := Decode(s, d, text);
    assert step.Decoded? ==> [] + step.events == step.events;
  }

  lemma {:induction false} RunTwo(s0: DecoderState, s1: DecoderState, s2: DecoderState, e1: seq<StreamEvent>,
                                  e2: seq<StreamEvent>, ds: seq<Delivery>, text: JsonText)
    requires |ds| == 2
    requires Decode(s0, ds[0], text) == Decoded(s1, e1)
    requires Decode(s1, ds[1], text) == Decoded(s2, e2)
    ensures Run(s0, ds, text) == Decoded(s2, e1 + e2)
  {
    hide Decode;
    assert ds[..1] == [ds[0]];
    RunOne(s0, ds[0], text);
  }

  lemma {:induction false} RunThree(s0: DecoderState, s1: DecoderState, s2: DecoderState, s3: DecoderState,
                                    e1: seq<StreamEvent>, e2: seq<StreamEvent>, e3: seq<StreamEvent>, ds: seq<Delivery>,
                                    text: JsonText)
    requires |ds| == 3
    requires Decode(s0, ds[0], text) == Decoded(s1, e1)
    requires Decode(s1, ds[1], text) == Decoded(s2, e2)
    requires Decode(s2, ds[2], text) == Decoded(s3, e3)
    ensures Run(s0, ds, text) == Decoded(s3, e1 + e2 + e3)
  {
    hide Decode;
    RunTwo(s0, s1, s2, e1, e2, ds[..2], text);
  }

  lemma {:induction false} SplitEvents(ds: seq<Delivery>, a: seq<Event>, b: seq<Event>)
    requires Events(ds) == a + b
    ensures |a| <= |ds| && Events(ds[..|a|]) == a && Events(ds[|a|..]) == b
    ensures ds == ds[..|a|] + ds[|a|..]
  {
    assert |Events(ds)| == |ds|;
    forall i | 0 <= i < |b|
      ensures Events(ds[|a|..])[i] == b[i]
    {
      assert b[i] == (a + b)[|a| + i];
    }
    forall i | 0 <= i < |a|
      ensures Events(ds[..|a|])[i] == a[i]
    {
      assert a[i] == (a + b)[i];
    }
  }

  lemma {:induction false} RunNothing(s: DecoderState, text: JsonText)
    ensures Run(s, [], text) == Decoded(s, []) && WalksFit(s, [], text) && Events([]) == []
  {
  }

  lemma {:induction false} RunSnoc(s: DecoderState, ds: seq<Delivery>, d: Delivery, text: JsonText)
    ensures Events(ds + [d]) == Events(ds) + [d.event]
    ensures var before := Run(s, ds, text);
            before.Decoded? ==>
              var step := Decode(before.state, d, text);
              Run(s, ds + [d], text) == if step.Failed? then step else Decoded(step.state, before.events + step.events)
    ensures var before := Run(s, ds, text);
            WalksFit(s, ds, text) && before.Decoded? && Enumerates(d.walk, WalkKeys(before.state)) ==>
                WalksFit(s, ds + [d], text)
  {
    hide Decode;
    assert (ds + [d])[..|ds|] == ds;
  }

  // CollectStream: all events of the run, then of Finish, folded from an empty response.
  function Collect(p: Protocol, ds: seq<Delivery>, last: seq<int>, text: JsonText): Option<Response> {
    match Run(Initial(p), ds, text)
    case Failed(_) => None
    case Decoded(s, es) => Some(ApplyAll(EMPTY, es + Finish(s, last), text).response)
  }

  // ---- Encoders ---------------------------------------------------------------------------

  // ids(n) is the identifier generated while the frame number n is written, if one is needed.
  datatype Env = Env(text: JsonText, ids: nat -> string)

  datatype EncoderState = EncoderState(collected: Collected, out: seq<Event>, responseID: string)

  const FRESH := EncoderState(EMPTY, [], "")

  function Encode(p: Protocol, s: EncoderState, e: StreamEvent, env: Env): EncoderState {
    var seen := Apply(s.collected, e, env.text);
    var generated := env.ids(|s.out|);
    match p
    case OpenAIChat => EncoderState(seen, s.out + ChatStream.Encode(e, seen.response, env.ids, |s.out|), s.responseID)
    case OpenAIResponses =>
      var responseID := if e.Start? then EnsureID(e.id, "resp", generated) else s.responseID;
      EncoderState(seen, s.out + ResponsesStream.Encode(e, seen, responseID, env.text), responseID)
    case Anthropic => EncoderState(seen, s.out + AnthropicStream.Encode(e, generated), s.responseID)
  }

  function EncodeAll(p: Protocol, s: EncoderState, es: seq<StreamEvent>, env: Env): EncoderState {
    if es == [] then s
    else Encode(p, EncodeAll(p, s, es[..|es| - 1], env), es[|es| - 1], env)
  }

  lemma {:induction false} EncodeAllConcat(p: Protocol, s: EncoderState, a: seq<StreamEvent>, b: seq<StreamEvent>,
                                           env: Env)
    ensures EncodeAll(p, s, a + b, env) == EncodeAll(p, EncodeAll(p, s, a, env), b, env)
    ensures EncodeAll(p, s, [], env) == s
    decreases |b|
  {
    hide Encode;
    if b == [] {
      assert a + b == a;
    } else {
      var n := |b| - 1;
      assert (a + b)[..|a| + n] == a + b[..n];
      EncodeAllConcat(p, s, a, b[..n], env);
    }
  }

  /** Whatever an encoder prints, what it has collected is the plain fold of the events. */
  lemma {:induction false} EncoderCollects(p: Protocol, s: EncoderState, es: seq<StreamEvent>, env: Env)
    ensures EncodeAll(p, s, es, env).collected == ApplyAll(s.collected, es, env.text)
  {
    if es != [] {
      EncoderCollects(p, s, es[..|es| - 1], env);
    }
  }

  // WriteResponseStream: the frames a complete response is printed as.
  function Written(p: Protocol, r: Response, env: Env): seq<Event> {
    EncodeAll(p, FRESH, ResponseEvents(r, env.text), env).out
  }

  // TranslateStream: the frames written and the response returned.
  function Translate(from: Protocol, to: Protocol, ds: seq<Delivery>, last: seq<int>,
                     env: Env): Option<(seq<Event>, Response)> {
    match Run(Initial(from), ds, env.text)
    case Failed(_) => None
    case Decoded(s, es) =>
      var encoded := EncodeAll(to, FRESH, es + Finish(s, last), env);
      Some((encoded.out, encoded.collected.response))
  }

  // ---- The machines at work ---------------------------------------------------------------

  datatype Machine =
    | ChatMachine(chat: ChatStream.StreamDecoder)
    | ResponsesMachine(responses: ResponsesStream.StreamDecoder)
    | AnthropicMachine(anthropic: AnthropicStream.StreamDecoder)
  {
    function Object(): object {
      match this
      case ChatMachine(c) => c
      case ResponsesMachine(r) => r
      case AnthropicMachine(a) => a
    }

    function Value(): DecoderState
      reads Object()
    {
      match this
      case ChatMachine(c) => ChatDecoder(c.Value())
      case ResponsesMachine(r) => ResponsesDecoder(r.Value())
      case AnthropicMachine(a) => AnthropicDecoder(a.Value())
    }

    method DecodeFrame(event: Event, text: JsonText)
      returns (result: Result<seq<StreamEvent>, Failure>, ghost walk: seq<int>)
      modifies Object()
      ensures Enumerates(walk, WalkKeys(old(Value())))
      ensures match Decode(old(Value()), Delivery(event, walk), text)
              case Decoded(s, es) => Value() == s && result == Ok(es)
              case Failed(f) => result == Err(f)
    {
      match this
      case ChatMachine(c) => result, walk := c.DecodeFrame(event);
      case ResponsesMachine(r) =>
        walk := [];
        result := r.DecodeFrame(event, text);
      case AnthropicMachine(a) => result, walk := a.DecodeFrame(event);
    }

    method FinishStream() returns (events: seq<StreamEvent>, ghost walk: seq<int>)
      modifies Object()
      ensures Enumerates(walk, WalkKeys(old(Value())))
      ensures events == Finish(old(Value()), walk)
    {
      match this
      case ChatMachine(c) => events, walk := c.FinishStream();
      case ResponsesMachine(r) =>
        walk := [];
        events := r.FinishStream();
      case AnthropicMachine(a) =>
        walk := AnyWalk(a.open.Keys);
        events := a.FinishStream();
    }
  }

  method NewDecoder(p: Protocol) returns (m: Machine)
    ensures fresh(m.Object()) && m.Value() == Initial(p)
  {
    match p
    case OpenAIChat =>
      var c := new ChatStream.StreamDecoder();
      m := ChatMachine(c);
    case OpenAIResponses =>
      var r := new ResponsesStream.StreamDecoder();
      m := ResponsesMachine(r);
    case Anthropic =>
      var a := new AnthropicStream.StreamDecoder();
      m := AnthropicMachine(a);
  }

  /** A stream encoder of any protocol: the embedded base, and the frames sent so far. */
  class StreamEncoder {
    const protocol: Protocol
    const env: Env
    const base: Base
    var out: seq<Event>
    var responseID: string

    constructor (p: Protocol, env: Env)
      ensures fresh(base) && protocol == p && this.env == env && Value() == FRESH
    {
      protocol, this.env, out, responseID := p, env, [], "";
      base := new Base();
    }

    function Value(): EncoderState
      reads this, base
    {
      EncoderState(base.State(), out, responseID)
    }

    method EncodeEvent(e: StreamEvent)
      modifies this, base
      ensures Value() == Encode(protocol, old(Value()), e, env)
    {
      base.ApplyEvent(e, env.text);
      match protocol
      case OpenAIChat => out := out + ChatStream.Encode(e, base.response, env.ids, |out|);
      case OpenAIResponses =>
        if e.Start? {
          responseID := EnsureID(e.id, "resp", env.ids(|out|));
        }
        out := out + ResponsesStream.Encode(e, base.State(), responseID, env.text);
      case Anthropic => out := out + AnthropicStream.Encode(e, env.ids(|out|));
    }

    method EncodeEvents(es: seq<StreamEvent>)
      modifies this, base
      ensures Value() == EncodeAll(protocol, old(Value()), es, env)
    {
      for i := 0 to |es|
        invariant Value() == EncodeAll(protocol, old(Value()), es[..i], env)
      {
        assert es[..i + 1][..i] == es[..i];
        EncodeEvent(es[i]);
      }
      assert es[..|es|] == es;
    }
  }

  // Some order of the map walks explains the result of collecting the frames.
  ghost predicate Collects(p: Protocol, frames: seq<Event>, text: JsonText, r: Response) {
    exists ds, last :: CollectsBy(p, frames, text, r, ds, last)
  }

  ghost predicate CollectsBy(p: Protocol, frames: seq<Event>, text: JsonText, r: Response, ds: seq<Delivery>,
                             last: seq<int>) {
    && FitsFrames(p, frames, text, ds, last)
    && Collect(p, ds, last, text) == Some(r)
  }

  ghost predicate FitsFrames(p: Protocol, frames: seq<Event>, text: JsonText, ds: seq<Delivery>, last: seq<int>) {
    var run := Run(Initial(p), ds, text);
    && Events(ds) == frames
    && WalksFit(Initial(p), ds, text)
    && run.Decoded?
    && Enumerates(last, WalkKeys(run.state))
  }

  ghost predicate Translates(from: Protocol, to: Protocol, frames: seq<Event>, env: Env, out: seq<Event>, r: Response) {
    exists ds, last ::
      FitsFrames(from, frames, env.text, ds, last) && Translate(from, to, ds, last, env) == Some((out, r))
  }

  /**
   * For every protocol pair TranslateStream returns a response CollectStream can return on the same frames,
   * and conversely.
   */
  lemma {:induction false} TranslateAgreesWithCollect(from: Protocol, to: Protocol, frames: seq<Event>, env: Env,
                                                      r: Response)
    ensures (exists out :: Translates(from, to, frames, env, out, r)) <==> Collects(from, frames, env.text, r)
  {
    hide Decode, Encode, Finish, WalksFit, WalkKeys, Events, Initial, Run;
    forall ds, last
      ensures var t := Translate(from, to, ds, last, env);
              Collect(from, ds, last, env.text) == if t.Some? then Some(t.value.1) else None
    {
      var run := Run(Initial(from), ds, env.text);
      if run.Decoded? {
        EncoderCollects(to, FRESH, run.events + Finish(run.state, last), env);
      }
    }
    if out :| Translates(from, to, frames, env, out, r) {
      var ds, last :| FitsFrames(from, frames, env.text, ds, last)
          && Translate(from, to, ds, last, env) == Some((out, r));
      assert CollectsBy(from, frames, env.text, r, ds, last);
    }
    if ds, last :| CollectsBy(from, frames, env.text, r, ds, last) {
      assert Translates(from, to, frames, env, Translate(from, to, ds, last, env).value.0, r);
    }
  }

  // Some walk of a prefix of the frames makes the decoder fail.
  ghost predicate FailsOn(p: Protocol, frames: seq<Event>, text: JsonText, f: Failure) {
    exists ds :: Events(ds) <= frames && WalksFit(Initial(p), ds, text) && Run(Initial(p), ds, text) == Failed(f)
  }

  // The decoder fails on one frame, after the events of the frames before it were written.
  ghost predicate BreaksOff(from: Protocol, to: Protocol, frames: seq<Event>, env: Env, out: seq<Event>, f: Failure) {
    exists ds, d :: BreaksOffAt(from, to, frames, env, out, f, ds, d)
  }

  ghost predicate BreaksOffAt(from: Protocol, to: Protocol, frames: seq<Event>, env: Env, out: seq<Event>, f: Failure,
                              ds: seq<Delivery>, d: Delivery) {
    var before := Run(Initial(from), ds, env.text);
    && Events(ds + [d]) <= frames && WalksFit(Initial(from), ds + [d], env.text)
    && before.Decoded? && Run(Initial(from), ds + [d], env.text) == Failed(f)
    && out == EncodeAll(to, FRESH, before.events, env).out
  }

  // What CollectStream may return for the frames.
  ghost predicate Outcome(p: Protocol, frames: seq<Event>, text: JsonText, result: Result<Response, Failure>) {
    match result
    case Ok(r) => Collects(p, frames, text, r)
    case Err(f) => FailsOn(p, frames, text, f)
  }

  /** When every run over all the frames decodes, no prefix of them makes the decoder fail. */
  lemma {:induction false} NeverFails(p: Protocol, frames: seq<Event>, text: JsonText, f: Failure)
    requires forall ds :: Events(ds) == frames && WalksFit(Initial(p), ds, text) ==> Run(Initial(p), ds, text).Decoded?
    ensures !FailsOn(p, frames, text, f)
  {
    hide Decode, WalkKeys, Initial;
    if ds: seq<Delivery> :|
      Events(ds) <= frames && WalksFit(Initial(p), ds, text) && Run(Initial(p), ds, text) == Failed(f)
    {
      var n := |Events(ds)|;
      assert n == |ds|;
      assert frames == Events(ds) + frames[n..];
      var whole := ExtendFailed(p, ds, frames[n..], text, f);
    }
  }

  // Deliveries for the frames after a failure, with any walks: they are never looked at.
  lemma {:induction false} ExtendFailed(p: Protocol, ds: seq<Delivery>, more: seq<Event>, text: JsonText, f: Failure)
    returns (whole: seq<Delivery>)
    requires WalksFit(Initial(p), ds, text) && Run(Initial(p), ds, text) == Failed(f)
    ensures Events(whole) == Events(ds) + more
    ensures WalksFit(Initial(p), whole, text) && Run(Initial(p), whole, text) == Failed(f)
    decreases |more|
  {
    hide Decode, WalkKeys, Initial;
    if more == [] {
      whole := ds;
      assert Events(ds) + [] == Events(ds);
    } else {
      var d := Delivery(more[0], []);
      assert (ds + [d])[..|ds|] == ds;
      assert Events(ds + [d]) == Events(ds) + [more[0]];
      whole := ExtendFailed(p, ds + [d], more[1..], text, f);
      assert Events(ds) + more == Events(ds) + [more[0]] + more[1..];
    }
  }

  method TranslateStream(from: Protocol, to: Protocol, frames: seq<Event>, env: Env)
    returns (result: Result<Response, Failure>, out: seq<Event>)
    ensures match result
            case Ok(r) => Translates(from, to, frames, env, out, r)
            case Err(f) => BreaksOff(from, to, frames, env, out, f)
  {
    hide Decode, Encode, Finish, Run, WalksFit, WalkKeys, EncodeAll, Events, Initial, Translates, BreaksOff, Enumerates;
    RunNothing(Initial(from), env.text);
    EncodeAllConcat(to, FRESH, [], [], env);
    var decoder := NewDecoder(from);
    var encoder := new StreamEncoder(to, env);
    ghost var ds, es := [], [];
    for i := 0 to |frames|
      invariant Events(ds) == frames[..i] && WalksFit(Initial(from), ds, env.text)
      invariant Run(Initial(from), ds, env.text) == Decoded(decoder.Value(), es)
      invariant encoder.protocol == to && encoder.env == env && fresh(encoder) && fresh(encoder.base)
                && fresh(decoder.Object())
      invariant decoder.Object() != encoder && decoder.Object() != encoder.base
      invariant encoder.Value() == EncodeAll(to, FRESH, es, env)
    {
      var canonical, walk := decoder.DecodeFrame(frames[i], env.text);
      RunSnoc(Initial(from), ds, Delivery(frames[i], walk), env.text);
      if canonical.Err? {
        BreakFound(from, to, frames, env, ds, Delivery(frames[i], walk), es, canonical.error);
        return Err(canonical.error), encoder.out;
      }
      ds := ds + [Delivery(frames[i], walk)];
      encoder.EncodeEvents(canonical.value);
      EncodeAllConcat(to, FRESH, es, canonical.value, env);
      es := es + canonical.value;
    }
    ghost var s := decoder.Value();
    var tail, last := decoder.FinishStream();
    assert frames[..|frames|] == frames;
    TranslationFound(from, to, frames, env, ds, s, es, last);
    encoder.EncodeEvents(tail);
    EncodeAllConcat(to, FRESH, es, tail, env);
    out := encoder.out;
    result := Ok(encoder.base.response);
  }

  lemma {:induction false} TranslationFound(from: Protocol, to: Protocol, frames: seq<Event>, env: Env,
                                            ds: seq<Delivery>, s: DecoderState, es: seq<StreamEvent>, last: seq<int>)
    requires Events(ds) == frames && WalksFit(Initial(from), ds, env.text) && Enumerates(last, WalkKeys(s))
    requires Run(Initial(from), ds, env.text) == Decoded(s, es)
    ensures var encoded := EncodeAll(to, FRESH, es + Finish(s, last), env);
            Translates(from, to, frames, env, encoded.out, encoded.collected.response)
  {
    hide Run, WalksFit, EncodeAll, Initial, Finish, Enumerates, Events;
    var encoded := EncodeAll(to, FRESH, es + Finish(s, last), env);
    assert Translate(from, to, ds, last, env) == Some((encoded.out, encoded.collected.response));
  }

  lemma {:induction false} BreakFound(from: Protocol, to: Protocol, frames: seq<Event>, env: Env, ds: seq<Delivery>,
                                      d: Delivery, es: seq<StreamEvent>, f: Failure)
    requires Events(ds + [d]) <= frames && WalksFit(Initial(from), ds + [d], env.text)
    requires Run(Initial(from), ds, env.text).Decoded? && Run(Initial(from), ds, env.text).events == es
    requires Run(Initial(from), ds + [d], env.text) == Failed(f)
    ensures BreaksOff(from, to, frames, env, EncodeAll(to, FRESH, es, env).out, f)
  {
    hide Run, WalksFit, EncodeAll, Initial, Events;
    assert BreaksOffAt(from, to, frames, env, EncodeAll(to, FRESH, es, env).out, f, ds, d);
  }

  method CollectStream(p: Protocol, frames: seq<Event>, text: JsonText) returns (result: Result<Response, Failure>)
    ensures Outcome(p, frames, text, result)
  {
    hide Decode, Finish, Run, WalksFit, WalkKeys, ApplyAll, Events, Initial;
    RunNothing(Initial(p), text);
    ApplyAllConcat(EMPTY, [], [], text);
    var decoder := NewDecoder(p);
    var collector := new Base();
    ghost var ds, es := [], [];
    for i := 0 to |frames|
      invariant Events(ds) == frames[..i] && WalksFit(Initial(p), ds, text)
      invariant Run(Initial(p), ds, text) == Decoded(decoder.Value(), es)
      invariant fresh(collector) && fresh(decoder.Object()) && decoder.Object() != collector
      invariant collector.State() == ApplyAll(EMPTY, es, text)
    {
      var canonical, walk := decoder.DecodeFrame(frames[i], text);
      RunSnoc(Initial(p), ds, Delivery(frames[i], walk), text);
      ds := ds + [Delivery(frames[i], walk)];
      if canonical.Err? {
        return Err(canonical.error);
      }
      CollectEvents(collector, canonical.value, text);
      ApplyAllConcat(EMPTY, es, canonical.value, text);
      es := es + canonical.value;
    }
    var tail, last := decoder.FinishStream();
    CollectEvents(collector, tail, text);
    ApplyAllConcat(EMPTY, es, tail, text);
    result := Ok(collector.response);
    assert CollectsBy(p, frames, text, collector.response, ds, last);
  }

  method CollectEvents(collector: Base, es: seq<StreamEvent>, text: JsonText)
    modifies collector
    ensures collector.State() == ApplyAll(old(collector.State()), es, text)
  {
    for i := 0 to |es|
      invariant collector.State() == ApplyAll(old(collector.State()), es[..i], text)
    {
      assert es[..i + 1][..i] == es[..i];
      collector.ApplyEvent(es[i], text);
    }
    assert es[..|es|] == es;
  }

  method WriteResponseStream(p: Protocol, r: Response, env: Env) returns (out: seq<Event>)
    ensures out == Written(p, r, env)
  {
    hide Encode, EncodeAll;
    var encoder := new StreamEncoder(p, env);
    ghost var es := [Start(r.id, r.model, r.usage)];
    encoder.EncodeEvents([Start(r.id, r.model, r.usage)]);
    for i := 0 to |r.content|
      invariant fresh(encoder) && fresh(encoder.base) && encoder.protocol == p && encoder.env == env
      invariant encoder.Value() == EncodeAll(p, FRESH, es, env)
      invariant es == [Start(r.id, r.model, r.usage)] + ContentEvents(r.content, i, env.text)
    {
      var item := ItemOf(r.content[i], i, env.text);
      encoder.EncodeEvents(item);
      EncodeAllConcat(p, FRESH, es, item, env);
      es := es + item;
    }
    encoder.EncodeEvents([Done(r.stopReason, r.usage)]);
    EncodeAllConcat(p, FRESH, es, [Done(r.stopReason, r.usage)], env);
    out := encoder.out;
  }

  // The three events of one item: the text or the arguments travel in the delta only.
  method ItemOf(content: Content, index: int, text: JsonText) returns (events: seq<StreamEvent>)
    ensures events == ItemEvents(content, index, text)
  {
    var start := content.(text := "");
    var delta := ContentDelta(index, content, "");
    if content.kind == ToolCallType {
      start := start.(arguments := EMPTY_OBJECT);
      delta := ContentDelta(index, content.(arguments := Null), text.marshal(content.arguments));
    }
    events := [ContentStart(index, start), delta, ContentStop(index)];
  }
}
