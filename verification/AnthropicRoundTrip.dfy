/** Printing a run as an Anthropic stream, decoding it and collecting it gives the response back. */
module AnthropicRoundTrip {
  import opened Canonical
  import opened Collector
  import opened Json
  import opened OrderlyRuns
  import opened RoundTrips
  import opened StopReasons
  import opened StreamTypes
  import opened Streams
  import opened Walks
  import opened Wrappers
  import AnthropicStream
  import StreamUsage

  // ---- What the stream carries of the usage -----------------------------------------------

  // message_start prints input and cached tokens, and zeros when there is no usage yet.
  function StartTokens(usage: Option<Usage>): Usage {
    match usage
    case None => Usage(0, 0, 0, 0, 0, 0)
    case Some(u) => Usage(u.input, 0, u.input, u.cached, 0, 0)
  }

  // Input and cached tokens come from the start, output tokens from the end; the total is their sum.
  function CarriedUsage(es: seq<StreamEvent>): Usage
    requires es != [] && es[|es| - 1].Done?
  {
    var start, usage := StartTokens(StartUsage(es)), es[|es| - 1].usage;
    var output := if usage.Some? then usage.value.output else 0;
    Usage(start.input, output, start.input + output, start.cached, 0, 0)
  }

  function CarriedStop(stopReason: string): string {
    AnthropicStopReason(EncodeAnthropicStopReason(stopReason))
  }

  // ---- One frame at a time ----------------------------------------------------------------

  lemma {:induction false} OnlyStartUsesIDs()
    ensures forall e: StreamEvent, g: string :: !e.Start? ==>
            AnthropicStream.Encode(e, g) == AnthropicStream.Encode(e, "")
    ensures forall e: StreamEvent :: |AnthropicStream.Encode(e, "")| == if e.Done? then 2 else 1
  {
  }

  lemma {:induction false} DecodesStart(s: AnthropicStream.State, d: Delivery, e: StreamEvent, generated: string)
    requires e.Start? && [d.event] == AnthropicStream.Encode(e, generated)
    ensures var id, usage := EnsureID(e.id, "msg", generated), Some(StartTokens(e.usage));
            AnthropicStream.Decode(s, d) ==
            Decoded(s.(id := id, model := e.model, usage := usage, started := true), [Start(id, e.model, usage)])
  {
    hide EnsureID;
  }

  lemma {:induction false} DecodesOpening(s: AnthropicStream.State, d: Delivery, e: StreamEvent)
    requires e.ContentStart? && [d.event] == AnthropicStream.Encode(e, "")
    ensures AnthropicStream.Decode(s, d) == Decoded(s.(open := s.open[e.index := Portable(e.content).kind]), [Image(e)])
  {
  }

  lemma {:induction false} DecodesDelta(s: AnthropicStream.State, d: Delivery, e: StreamEvent)
    requires e.ContentDelta? && [d.event] == AnthropicStream.Encode(e, "") && e.index in s.open
    ensures AnthropicStream.Decode(s, d) == Decoded(s, [Image(e)])
  {
  }

  lemma {:induction false} DecodesStop(s: AnthropicStream.State, d: Delivery, e: StreamEvent)
    requires e.ContentStop? && [d.event] == AnthropicStream.Encode(e, "")
    ensures AnthropicStream.Decode(s, d) == Decoded(s.(open := s.open - {e.index}), [e])
  {
  }

  // ---- The run up to its end --------------------------------------------------------------

  // The usage the decoder holds.
  function PrintedUsage(es: seq<StreamEvent>): Option<Usage> {
    if Noted(es).begun then Some(StartTokens(StartUsage(es))) else None
  }

  // The decoder has the same blocks open, and its events collect to the same blocks and content.
  ghost predicate InStep(es: seq<StreamEvent>, s: AnthropicStream.State, fs: seq<StreamEvent>, text: JsonText) {
    var whole, seen := Whole(es, text), ApplyAll(EMPTY, fs, text);
    && s.open.Keys == Noted(es).open.Keys && !s.done && s.usage == PrintedUsage(es)
    && seen.blocks == whole.blocks && seen.response.content == whole.response.content
    && seen.response.model == whole.response.model
    && ("msg_" <= whole.response.id ==> seen.response.id == whole.response.id)
  }

  // A content event comes back as the wire carries it.
  lemma {:induction false} ContentInStep(es: seq<StreamEvent>, s: AnthropicStream.State, fs: seq<StreamEvent>,
                                         e: StreamEvent, t: AnthropicStream.State, text: JsonText)
    requires InStep(es, s, fs, text) && !e.Start? && !e.Done?
    requires t == s.(open := t.open) && t.open.Keys == Note(Noted(es), e).open.Keys
    ensures InStep(es + [e], t, fs + [Image(e)], text)
  {
    hide Whole, ApplyAll, Noted, StartUsage, Grow, Collector.Closed;
    WholeOneMore(es, e, text);
    CollectedOneMore(fs, Image(e), text);
    OrderlyOneMore(es, e);
    StartUsageOneMore(es, e);
  }

  lemma {:induction false} StartInStep(es: seq<StreamEvent>, s: AnthropicStream.State, fs: seq<StreamEvent>,
                                       e: StreamEvent, generated: string, text: JsonText)
    requires InStep(es, s, fs, text) && e.Start?
    ensures var id, usage := EnsureID(e.id, "msg", generated), Some(StartTokens(e.usage));
            InStep(es + [e], s.(id := id, model := e.model, usage := usage, started := true),
                   fs + [Start(id, e.model, usage)], text)
  {
    hide Whole, ApplyAll, Noted, StartUsage, StartTokens;
    WholeOneMore(es, e, text);
    CollectedOneMore(fs, Start(EnsureID(e.id, "msg", generated), e.model, Some(StartTokens(e.usage))), text);
    OrderlyOneMore(es, e);
    StartUsageOneMore(es, e);
    assert "msg" + "_" == "msg_";
  }

  lemma {:induction false} EventInStep(es: seq<StreamEvent>, s: AnthropicStream.State, fs: seq<StreamEvent>,
                                       e: StreamEvent, d: Delivery, generated: string, text: JsonText)
    requires InStep(es, s, fs, text) && Allowed(Noted(es), e) && !e.Done?
    requires [d.event] == AnthropicStream.Encode(e, generated)
    ensures var step := AnthropicStream.Decode(s, d);
            step.Decoded? && InStep(es + [e], step.state, fs + step.events, text)
  {
    OnlyStartUsesIDs();
    hide Whole, ApplyAll, Noted, StartUsage, StartTokens, AnthropicStream.Decode, AnthropicStream.Encode, EnsureID,
         Image;
    match e
    case Start(_, _, _) =>
      DecodesStart(s, d, e, generated);
      StartInStep(es, s, fs, e, generated, text);
    case ContentStart(index, content) =>
      DecodesOpening(s, d, e);
      ContentInStep(es, s, fs, e, s.(open := s.open[index := Portable(content).kind]), text);
    case ContentDelta(_, _, _) =>
      DecodesDelta(s, d, e);
      ContentInStep(es, s, fs, e, s, text);
    case ContentStop(index) =>
      DecodesStop(s, d, e);
      StopImage(e);
      ContentInStep(es, s, fs, e, s.(open := s.open - {index}), text);
    case Done(_, _) =>
  }

  lemma {:induction false} StopImage(e: StreamEvent)
    requires e.ContentStop?
    ensures Image(e) == e
  {
  }

  // The same of a whole run over the one frame.
  lemma {:induction false} EventKeepsStep(es: seq<StreamEvent>, s: AnthropicStream.State, fs: seq<StreamEvent>,
                                          e: StreamEvent, ds: seq<Delivery>, generated: string, text: JsonText)
    requires InStep(es, s, fs, text) && Allowed(Noted(es), e) && !e.Done?
    requires Events(ds) == AnthropicStream.Encode(e, generated) && |AnthropicStream.Encode(e, generated)| == 1
    ensures var run := Run(AnthropicDecoder(s), ds, text);
            && run.Decoded? && run.state.AnthropicDecoder?
            && InStep(es + [e], run.state.anthropic, fs + run.events, text)
  {
    hide InStep, Allowed, Noted, AnthropicStream.Decode, AnthropicStream.Encode, Run, Events;
    OneDelivery(ds, Events(ds));
    EventInStep(es, s, fs, e, ds[0], generated, text);
    RunOne(AnthropicDecoder(s), ds[0], text);
  }

  lemma {:induction false} EncodesOneMore(es: seq<StreamEvent>, e: StreamEvent, env: Env)
    ensures var before := EncodeAll(Anthropic, FRESH, es, env);
            EncodeAll(Anthropic, FRESH, es + [e], env).out ==
            before.out + AnthropicStream.Encode(e, env.ids(|before.out|))
    ensures !e.Done? ==> forall g :: |AnthropicStream.Encode(e, g)| == 1
  {
    assert (es + [e])[..|es|] == es;
  }

  /**
   * Wherever a run is cut before its end, the frames printed so far decode, and collect to the same blocks
   * and content.
   */
  lemma {:induction false} DecodesPrefix(es: seq<StreamEvent>, ds: seq<Delivery>, env: Env)
    requires Orderly(es) && !Noted(es).ended
    requires Events(ds) == EncodeAll(Anthropic, FRESH, es, env).out
    ensures var run := Run(Initial(Anthropic), ds, env.text);
            && run.Decoded? && run.state.AnthropicDecoder?
            && InStep(es, run.state.anthropic, run.events, env.text)
  {
    hide Streams.Decode, AnthropicStream.Encode, Run, EncodeAll, Events, InStep, Allowed;
    if es == [] {
      assert EncodeAll(Anthropic, FRESH, es, env).out == [] && ds == [] by { NothingPrinted(Anthropic, ds, env); }
      RunNothing(Initial(Anthropic), env.text);
      NothingInStep(env.text);
    } else {
      var n, e := |es| - 1, es[|es| - 1];
      assert es == es[..n] + [e];
      var before := EncodeAll(Anthropic, FRESH, es[..n], env).out;
      var generated := env.ids(|before|);
      EncodesOneMore(es[..n], e, env);
      var frames := AnthropicStream.Encode(e, generated);
      SplitEvents(ds, before, frames);
      DecodesPrefix(es[..n], ds[..|before|], env);
      var d := ds[|before|..];
      var run := Run(Initial(Anthropic), ds[..|before|], env.text);
      EventKeepsStep(es[..n], run.state.anthropic, run.events, e, d, generated, env.text);
      RunConcat(Initial(Anthropic), ds[..|before|], d, env.text);
    }
  }

  lemma {:induction false} NothingInStep(text: JsonText)
    ensures InStep([], AnthropicStream.INITIAL, [], text)
  {
  }

  // ---- The end of the run -----------------------------------------------------------------

  // The state between the two closing frames.
  function Closing(s: AnthropicStream.State, e: StreamEvent): AnthropicStream.State
    requires e.Done?
  {
    var output := if e.usage.Some? then e.usage.value.output else 0;
    s.(stopReason := CarriedStop(e.stopReason),
       usage := Some(AnthropicStream.MergeUsage(s.usage, Usage(0, output, output, 0, 0, 0))))
  }

  lemma {:induction false} DecodesMessageDelta(s: AnthropicStream.State, d: Delivery, e: StreamEvent)
    requires e.Done? && d.event == AnthropicStream.Encode(e, "")[0]
    ensures AnthropicStream.Decode(s, d) == Decoded(Closing(s, e), [])
  {
    hide AnthropicStopReason, EncodeAnthropicStopReason, AnthropicStream.MergeUsage;
  }

  lemma {:induction false} DecodesMessageStop(s: AnthropicStream.State, d: Delivery, e: StreamEvent)
    requires e.Done? && |AnthropicStream.Encode(e, "")| == 2
    requires d == Delivery(AnthropicStream.Encode(e, "")[1], [])
    ensures AnthropicStream.Decode(s, d) == Decoded(s.(done := true, open := map[]), [Done(s.stopReason, s.usage)])
  {
    var done := [Done(s.stopReason, s.usage)];
    assert AnthropicStream.StopEvents([]) + done == done;
  }

  // No block is open when message_stop comes, so its map walk visits nothing.
  lemma {:induction false} DecodesDone(before: seq<Delivery>, s: AnthropicStream.State, fs: seq<StreamEvent>,
                                       ds: seq<Delivery>, e: StreamEvent, text: JsonText)
    requires Run(Initial(Anthropic), before, text) == Decoded(AnthropicDecoder(s), fs) && s.open == map[]
    requires e.Done? && Events(ds) == AnthropicStream.Encode(e, "")
    requires WalksFit(Initial(Anthropic), before + ds, text)
    ensures var t := Closing(s, e);
            Run(Initial(Anthropic), before + ds, text) ==
            Decoded(AnthropicDecoder(t.(done := true, open := map[])), fs + [Done(t.stopReason, t.usage)])
  {
    OnlyStartUsesIDs();
    hide AnthropicStream.Decode, AnthropicStream.Encode, Closing;
    assert |Events(ds)| == |ds| == 2 && ds[0].event == Events(ds)[0] && ds[1].event == Events(ds)[1];
    var whole, t, done := before + ds, Closing(s, e), [Done(Closing(s, e).stopReason, Closing(s, e).usage)];
    assert whole[..|whole| - 1] == before + [ds[0]] && whole == before + [ds[0]] + [ds[1]];
    DecodesMessageDelta(s, ds[0], e);
    ClosingKeepsOpen(s, e);
    RunSnoc(Initial(Anthropic), before, ds[0], text);
    assert fs + [] == fs;
    assert Enumerates(ds[1].walk, {});
    EmptyWalk(ds[1].walk);
    DecodesMessageStop(t, ds[1], e);
    RunSnoc(Initial(Anthropic), before + [ds[0]], ds[1], text);
  }

  lemma {:induction false} ClosingKeepsOpen(s: AnthropicStream.State, e: StreamEvent)
    requires e.Done?
    ensures Closing(s, e).open == s.open
  {
  }

  // ---- The whole run ----------------------------------------------------------------------

  /** What collecting the printed frames of a complete run gives. */
  ghost predicate Carries(es: seq<StreamEvent>, got: Response, text: JsonText)
    requires Complete(es)
  {
    CompleteEnds(es);
    var r := Whole(es, text).response;
    && got.content == r.content && got.model == r.model && ("msg_" <= r.id ==> got.id == r.id)
    && got.stopReason == CarriedStop(r.stopReason)
    && got.usage == Some(CarriedUsage(es))
  }

  lemma {:induction false} DecodesAll(es: seq<StreamEvent>, env: Env, ds: seq<Delivery>, last: seq<int>)
    requires Complete(es)
    requires Events(ds) == EncodeAll(Anthropic, FRESH, es, env).out && WalksFit(Initial(Anthropic), ds, env.text)
    ensures Run(Initial(Anthropic), ds, env.text).Decoded?
    ensures var got := Collect(Anthropic, ds, last, env.text);
            got.Some? && Carries(es, got.value, env.text)
  {
    hide Run, EncodeAll, Events, AnthropicStream.Encode, Orderly, Noted, WalksFit, ApplyAll, Whole, StartUsage, Closing,
         CarriedStop;
    CompleteEnds(es);
    var n, e := |es| - 1, es[|es| - 1];
    var before := EncodeAll(Anthropic, FRESH, es[..n], env).out;
    EncodesOneMore(es[..n], e, env);
    OnlyStartUsesIDs();
    var frames := AnthropicStream.Encode(e, "");
    SplitEvents(ds, before, frames);
    var m := |before|;
    DecodesPrefix(es[..n], ds[..m], env);
    var run := Run(Initial(Anthropic), ds[..m], env.text);
    var s := run.state.anthropic;
    assert s.open == map[];
    DecodesDone(ds[..m], s, run.events, ds[m..], e, env.text);
    var done := Done(Closing(s, e).stopReason, Closing(s, e).usage);
    var none: seq<StreamEvent> := [];
    assert (run.events + [done]) + none == run.events + [done];
    CollectedOneMore(run.events, done, env.text);
    WholeOneMore(es[..n], e, env.text);
    StartUsageOneMore(es[..n], e);
    CollectedUsage(es[..n], env.text);
    ClosingCarries(es, s, e);
  }

  lemma {:induction false} ClosingCarries(es: seq<StreamEvent>, s: AnthropicStream.State, e: StreamEvent)
    requires e.Done? && es != [] && es[|es| - 1] == e
    requires s.usage == None ==> StartUsage(es) == None
    requires s.usage.Some? ==> s.usage == Some(StartTokens(StartUsage(es)))
    ensures var t := Closing(s, e);
            && t.usage == Some(CarriedUsage(es))
            && DefaultStopReason(t.stopReason) == CarriedStop(DefaultStopReason(e.stopReason))
            && Image(e) == e
  {
    hide StartUsage;
  }

  /**
   * A complete run printed as an Anthropic stream: collecting the frames never fails and gives the
   * content, the model and the tokens the stream carries, however the blocks interleave.
   */
  lemma {:induction false} RunCollects(es: seq<StreamEvent>, env: Env, result: Result<Response, Failure>)
    requires Complete(es)
    requires Outcome(Anthropic, EncodeAll(Anthropic, FRESH, es, env).out, env.text, result)
    ensures result.Ok? && Carries(es, result.value, env.text)
  {
    hide Run, WalksFit, EncodeAll, Orderly, Noted, Carries;
    var frames := EncodeAll(Anthropic, FRESH, es, env).out;
    forall ds | Events(ds) == frames && WalksFit(Initial(Anthropic), ds, env.text)
      ensures Run(Initial(Anthropic), ds, env.text).Decoded?
    {
      DecodesAll(es, env, ds, []);
    }
    match result
    case Err(f) => NeverFails(Anthropic, frames, env.text, f);
    case Ok(got) =>
      var ds, last :| CollectsBy(Anthropic, frames, env.text, got, ds, last);
      DecodesAll(es, env, ds, last);
  }

  lemma {:induction false} StopReasonSurvivesIff(value: string)
    ensures CarriedStop(value) == value <==> value in {"stop", "length", "tool_use"}
  {
  }

  // ---- A response printed and read --------------------------------------------------------

  // What is left of the usage: input, cached and output tokens, and their sum as the total.
  function SurvivingUsage(usage: Option<Usage>): Usage {
    match usage
    case None => Usage(0, 0, 0, 0, 0, 0)
    case Some(u) => Usage(u.input, u.output, u.input + u.output, u.cached, 0, 0)
  }

  lemma {:induction false} ContentHasNoStart(es: seq<StreamEvent>, contents: seq<Content>, n: nat, text: JsonText)
    requires n <= |contents|
    ensures StartUsage(es + ContentEvents(contents, n, text)) == StartUsage(es)
  {
    hide ItemEvents, StartUsage;
    if n == 0 {
      assert es + [] == es;
    } else {
      ContentHasNoStart(es, contents, n - 1, text);
      var item := ItemEvents(contents[n - 1], n - 1, text);
      ItemShape(contents[n - 1], n - 1, text);
      ContentOneMore(contents, n, text);
      var before := es + ContentEvents(contents, n - 1, text);
      hide ContentEvents;
      StartUsageOneMore(before, item[0]);
      StartUsageOneMore(before + [item[0]], item[1]);
      StartUsageOneMore(before + [item[0]] + [item[1]], item[2]);
      assert before + [item[0]] + [item[1]] + [item[2]] == es + (ContentEvents(contents, n - 1, text) + item);
    }
  }

  lemma {:induction false} ContentOneMore(contents: seq<Content>, n: nat, text: JsonText)
    requires 0 < n <= |contents|
    ensures ContentEvents(contents, n, text) ==
            ContentEvents(contents, n - 1, text) + ItemEvents(contents[n - 1], n - 1, text)
  {
  }

  lemma {:induction false} ItemShape(c: Content, index: int, text: JsonText)
    ensures var item := ItemEvents(c, index, text);
            |item| == 3 && item[0].ContentStart? && item[1].ContentDelta? && item[2].ContentStop?
  {
  }

  lemma {:induction false} ResponseUsage(r: Response, text: JsonText)
    ensures CarriedUsage(ResponseEvents(r, text)) == SurvivingUsage(r.usage)
  {
    hide ContentEvents;
    var start, n, done := Start(r.id, r.model, r.usage), |r.content|, Done(r.stopReason, r.usage);
    StartUsageOneMore([], start);
    assert [] + [start] == [start];
    ContentHasNoStart([start], r.content, n, text);
    StartUsageOneMore([start] + ContentEvents(r.content, n, text), done);
    hide StartUsage;
  }

  /**
   * The Anthropic stream round trip. Collecting the printed stream never fails; the content list comes
   * back in order, each item as the wire carries it, and a list of plain items exactly; the stop reason
   * survives exactly when it is stop, length or tool_use; with usage, the input, cached and output
   * tokens survive and the total becomes input plus output.
   */
  lemma {:induction false} RoundTrip(r: Response, env: Env, result: Result<Response, Failure>)
    requires ArgumentsSurvive(r.content, env.text)
    requires Outcome(Anthropic, Written(Anthropic, r, env), env.text, result)
    ensures result.Ok?
    ensures var got := result.value;
            && got.content == PortableAll(r.content)
            && ((forall c :: c in r.content ==> IsPlain(c)) ==> got.content == r.content)
            && (got.stopReason == r.stopReason <==> r.stopReason in {"stop", "length", "tool_use"})
            && got.model == r.model
            && ("msg_" <= r.id ==> got.id == r.id)
            && got.usage == Some(SurvivingUsage(r.usage))
  {
    hide EncodeAll, Complete, Outcome, ResponseEvents, Whole, CarriedUsage, PortableAll;
    var es := ResponseEvents(r, env.text);
    ResponseIsComplete(r, env.text);
    RunCollects(es, env, result);
    ResponseCollects(r, env.text);
    ResponseUsage(r, env.text);
    PlainContentIsExact(r.content);
    StopReasonSurvivesIff(r.stopReason);
    StopReasonOfEmpty(r.stopReason);
  }

  lemma {:induction false} StopReasonOfEmpty(value: string)
    ensures CarriedStop(DefaultStopReason(value)) == CarriedStop(value)
  {
  }

  // ---- A stream translated and read -------------------------------------------------------

  /**
   * Translating to an Anthropic stream. When the decoder's run is orderly, collecting the written frames
   * never fails and gives the content and the model of the response returned, calls with the arguments
   * their fragments add up to, however the blocks interleave; the stop reason exactly when it is stop,
   * length or tool_use; and the usage exactly when it is what the stream carries.
   */
  lemma {:induction false} TranslationKeeps(from: Protocol, ds: seq<Delivery>, last: seq<int>, env: Env,
                                            result: Result<Response, Failure>)
    requires Run(Initial(from), ds, env.text).Decoded? && Complete(StreamEvents(from, ds, last, env.text))
    requires Outcome(Anthropic, Translate(from, Anthropic, ds, last, env).value.0, env.text, result)
    ensures result.Ok?
    ensures var r, got := Translate(from, Anthropic, ds, last, env).value.1, result.value;
            var es := StreamEvents(from, ds, last, env.text);
            && got.content == r.content && got.model == r.model && ("msg_" <= r.id ==> got.id == r.id)
            && (got.stopReason == r.stopReason <==> r.stopReason in {"stop", "length", "tool_use"})
            && es != [] && es[|es| - 1].Done? && got.usage == Some(CarriedUsage(es))
  {
    hide Run, EncodeAll, Orderly, Noted, Outcome, Finish, AllPlain, Whole, CarriedUsage, CarriedStop;
    var es := StreamEvents(from, ds, last, env.text);
    CompleteEnds(es);
    StreamIsPlain(from, ds, last, env.text);
    RunCollects(es, env, result);
    EncoderCollects(Anthropic, FRESH, es, env);
    WholeOfPlain(es, env.text);
    StopReasonSurvivesIff(Whole(es, env.text).response.stopReason);
  }

  /**
   * From a Chat or a Responses stream only the output tokens arrive: their decoders know no usage at the
   * start, where the input tokens are printed. So the usage the frames tell, which is the one returned,
   * survives exactly when it counts nothing but output tokens.
   */
  lemma {:induction false} OpenAIUsageSurvives(from: Protocol, ds: seq<Delivery>, last: seq<int>, env: Env,
                                               result: Result<Response, Failure>)
    requires from != Anthropic
    requires Run(Initial(from), ds, env.text).Decoded? && Complete(StreamEvents(from, ds, last, env.text))
    requires Outcome(Anthropic, Translate(from, Anthropic, ds, last, env).value.0, env.text, result)
    ensures var told := StreamUsage.UsageIn(from, Events(ds));
            var output := if told.Some? then told.value.output else 0;
            && Translate(from, Anthropic, ds, last, env).value.1.usage == told
            && result.Ok? && result.value.usage == Some(Usage(0, output, output, 0, 0, 0))
            && (result.value.usage == told <==> told.Some? && told.value == Usage(0, output, output, 0, 0, 0))
  {
    hide Run, EncodeAll, Orderly, Noted, Finish, Outcome, StartUsage, Translate, AllPlain, AllBare, StreamUsage.UsageIn,
         Events;
    var es := StreamEvents(from, ds, last, env.text);
    TranslationKeeps(from, ds, last, env, result);
    UsageIsTheLast(from, Anthropic, ds, last, env);
    StreamUsage.ReturnedUsageIsTold(from, Anthropic, ds, last, env);
    StreamIsPlain(from, ds, last, env.text);
    BareStart(es);
  }

  /**
   * From an Anthropic stream the usage the frames tell, which is the one returned, survives exactly when
   * there is some, no tokens were written to the cache, and message_start had told a usage, unless there
   * are no input tokens.
   */
  lemma {:induction false} AnthropicUsageSurvives(ds: seq<Delivery>, last: seq<int>, env: Env,
                                                  result: Result<Response, Failure>)
    requires Run(Initial(Anthropic), ds, env.text).Decoded? && Complete(StreamEvents(Anthropic, ds, last, env.text))
    requires Outcome(Anthropic, Translate(Anthropic, Anthropic, ds, last, env).value.0, env.text, result)
    ensures var told := StreamUsage.UsageIn(Anthropic, Events(ds));
            && Translate(Anthropic, Anthropic, ds, last, env).value.1.usage == told && result.Ok?
            && (result.value.usage == told <==>
                  && told.Some? && told.value.cacheWrite == 0
                  && (StreamUsage.StartTold(Events(ds)).Some? || (told.value.input == 0 && told.value.cached == 0)))
  {
    hide Run, EncodeAll, Orderly, Noted, Outcome, StartUsage, Translate, StreamUsage.UsageIn, StreamUsage.StartTold,
         Events, StreamUsage.DoneUsage;
    var es := StreamEvents(Anthropic, ds, last, env.text);
    TranslationKeeps(Anthropic, ds, last, env, result);
    UsageIsTheLast(Anthropic, Anthropic, ds, last, env);
    AnthropicDone(ds, last, env.text);
    StreamUsage.ReturnedUsageIsTold(Anthropic, Anthropic, ds, last, env);
    StreamUsage.AnthropicStreamTells(ds, last, env.text);
  }
}
