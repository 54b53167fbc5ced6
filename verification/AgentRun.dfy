/** The agent's tool loop: one request per round until an answer without tool calls (agent/agent.go). */
module AgentRun {
  import opened ChatTypes
  import opened MessageBuilder
  import opened ResponseAssembler
  import opened Sequences
  import opened Transcript
  import opened Wrappers

  /** A file found in a tool's result: `bare` has neither data nor URI, `summary` replaces the result. */
  datatype Attachment = Attachment(bare: bool, summary: string)

  /** What reaches the sink, and the runs of tools between. */
  datatype Act =
    | Thought(text: string)
    | Text(text: string)
    | Started(call: ToolCall)
    | Ran(call: ToolCall)
    | File(file: Attachment)
    | Reported(call: ToolCall, result: string, completed: bool)
    | Usage
    | Done

  datatype Failure =
    | StreamRefused
    | StreamError(message: string)
    | SinkError(message: string)
    | Cancelled
    | NoResponse
    | MissingID(name: string)

  datatype End = Running | Finished | Failed(failure: Failure)

  /** The world around a run; tool results and sink errors are given by position among the acts. */
  datatype World = World(
    tools: seq<string>,
    toolResult: nat -> string,
    attachment: string -> Option<Attachment>,
    sinkError: nat -> Option<string>,
    profile: Option<Profile>,
    sessionID: string)

  /** What one model call yields: no stream, or chunks and whether the context was cancelled by then. */
  datatype Round = Refused | Streamed(chunks: seq<Chunk>, cancelled: bool)

  datatype Turn = Turn(messages: seq<Message>, acts: seq<Act>, requests: seq<seq<Message>>, end: End)

  function Stop(t: Turn, failure: Failure): Turn {
    t.(end := Failed(failure))
  }

  // A sink call; its error ends the run.
  function Emit(w: World, t: Turn, act: Act): Turn {
    var e := w.sinkError(|t.acts|);
    t.(acts := t.acts + [act], end := if e.Some? then Failed(SinkError(e.value)) else t.end)
  }

  // GetMessage: the first choice's delta, unless absent or empty, else its message.
  function MessageOf(chunk: Chunk): Option<Message> {
    if chunk.choices == [] then None
    else
      var c := chunk.choices[0];
      if c.delta.Some? && !IsEmpty(c.delta.value) then c.delta else c.message
  }

  datatype Streaming = Streaming(turn: Turn, building: Building)

  function TellThought(w: World, t: Turn, m: Message): Turn {
    if m.reasoning != "" then Emit(w, t, Thought(m.reasoning)) else t
  }

  function TellText(w: World, t: Turn, m: Message): Turn {
    if t.end.Running? && m.content != "" then Emit(w, t, Text(m.content)) else t
  }

  type Feed = s: Streaming | InRange(s.building) witness Streaming(Turn([], [], [], Running), NEW)

  function AfterChunk(w: World, s: Feed, chunk: Chunk): Feed {
    if chunk.error.Some? then s.(turn := Stop(s.turn, StreamError(chunk.error.value)))
    else
      var m := MessageOf(chunk);
      if m.None? then s
      else Streaming(TellText(w, TellThought(w, s.turn, m.value), m.value), Update(s.building, m.value))
  }

  function AfterChunks(w: World, s: Feed, chunks: seq<Chunk>): Feed {
    if chunks == [] then s
    else
      var before := AfterChunks(w, s, chunks[..|chunks| - 1]);
      if before.turn.end.Running? then AfterChunk(w, before, chunks[|chunks| - 1]) else before
  }

  function UnknownTool(name: string): string {
    "Error: unknown tool '" + name + "'"
  }

  // emitAttachedFileResult: a sink error here becomes the result, it does not end the run.
  function Attach(w: World, t: Turn, result: string): (Turn, string) {
    var file := w.attachment(result);
    if file.None? then (t, result)
    else if file.value.bare then (t, "Error: attachment has neither inline data nor URI")
    else
      var e := w.sinkError(|t.acts|);
      (t.(acts := t.acts + [File(file.value)]), if e.Some? then "Error: " + e.value else file.value.summary)
  }

  function RunTool(w: World, t: Turn, tc: ToolCall): (Turn, string) {
    var after, result := t.(acts := t.acts + [Ran(tc)]), w.toolResult(|t.acts|);
    if tc.name == "attach_file" then Attach(w, after, result) else (after, result)
  }

  // What running a known tool at a position among the acts does, and the result it leaves.
  predicate RunLog(w: World, at: nat, log: seq<Act>, tc: ToolCall, result: string) {
    var told := w.toolResult(at);
    var file := if tc.name == "attach_file" then w.attachment(told) else None;
    if file.None? then log == [Ran(tc)] && result == told
    else if file.value.bare then log == [Ran(tc)] && result == "Error: attachment has neither inline data nor URI"
    else
      log == [Ran(tc), File(file.value)]
      && result == if w.sinkError(at + 1).Some? then "Error: " + w.sinkError(at + 1).value else file.value.summary
  }

  function Report(w: World, t: Turn, tc: ToolCall, result: string, completed: bool): Turn {
    var after := Emit(w, t, Reported(tc, result, completed));
    if after.end.Running? then after.(messages := after.messages + [ToolResultMessage(tc.id, tc.name, result)])
    else after
  }

  function AfterCall(w: World, t: Turn, tc: ToolCall): Turn {
    if tc.id == "" then Stop(t, MissingID(tc.name))
    else
      var started := Emit(w, t, Started(tc));
      if !started.end.Running? then started
      else if tc.name in w.tools then
        var (after, result) := RunTool(w, started, tc);
        Report(w, after, tc, result, true)
      else Report(w, started, tc, UnknownTool(tc.name), false)
  }

  function AfterCalls(w: World, t: Turn, calls: seq<ToolCall>): Turn {
    if calls == [] then t
    else
      var before := AfterCalls(w, t, calls[..|calls| - 1]);
      if before.end.Running? then AfterCall(w, before, calls[|calls| - 1]) else before
  }

  function Conclude(w: World, t: Turn): Turn {
    var told := Emit(w, t, Usage);
    if !told.end.Running? then told
    else
      var noticed := told.(messages := NoticePass(told.messages, w.profile, w.sessionID));
      var done := Emit(w, noticed, Done);
      if done.end.Running? then done.(end := Finished) else done
  }

  function Answer(w: World, t: Turn, m: Message): Turn {
    if IsEmpty(m) then Stop(t, NoResponse)
    else
      var after := t.(messages := t.messages + [m]);
      if m.toolCalls == [] then Conclude(w, after) else AfterCalls(w, after, m.toolCalls)
  }

  function Request(t: Turn): Turn {
    t.(requests := t.requests + [t.messages])
  }

  function AfterRound(w: World, t: Turn, round: Round): Turn {
    if round.Refused? then Stop(Request(t), StreamRefused)
    else
      var s := AfterChunks(w, Streaming(Request(t), NEW), round.chunks);
      if !s.turn.end.Running? then s.turn
      else if round.cancelled then Stop(s.turn, Cancelled)
      else Answer(w, s.turn, Built(s.building))
  }

  function AfterRounds(w: World, t: Turn, rounds: seq<Round>): Turn {
    if rounds == [] then t
    else
      var before := AfterRounds(w, t, rounds[..|rounds| - 1]);
      if before.end.Running? then AfterRound(w, before, rounds[|rounds| - 1]) else before
  }

  // ---- The loop ---------------------------------------------------------------------------

  /** A session and what its runs did to the outside: the requests made and the acts, in order. */
  class Session {
    var messages: seq<Message>
    var acts: seq<Act>
    var requests: seq<seq<Message>>
    var end: End

    constructor (history: seq<Message>)
      ensures Value() == Turn(history, [], [], Running)
    {
      messages, acts, requests, end := history, [], [], Running;
    }

    function Value(): Turn
      reads this
    {
      Turn(messages, acts, requests, end)
    }

    method Tell(w: World, act: Act)
      modifies this`acts, this`end
      ensures Value() == Emit(w, old(Value()), act)
    {
      var e := w.sinkError(|acts|);
      acts := acts + [act];
      if e.Some? {
        end := Failed(SinkError(e.value));
      }
    }

    method RunOneTool(w: World, tc: ToolCall) returns (result: string)
      modifies this`acts
      ensures (Value(), result) == RunTool(w, old(Value()), tc)
      ensures old(acts) <= acts && RunLog(w, |old(acts)|, acts[|old(acts)|..], tc, result)
    {
      result := w.toolResult(|acts|);
      acts := acts + [Ran(tc)];
      if tc.name == "attach_file" {
        var file := w.attachment(result);
        if file.Some? {
          if file.value.bare {
            result := "Error: attachment has neither inline data nor URI";
          } else {
            var e := w.sinkError(|acts|);
            acts := acts + [File(file.value)];
            result := if e.Some? then "Error: " + e.value else file.value.summary;
          }
        }
      }
    }

    method Call(w: World, tc: ToolCall)
      requires end == Running
      modifies this
      ensures Value() == AfterCall(w, old(Value()), tc)
    {
      if tc.id == "" {
        end := Failed(MissingID(tc.name));
        return;
      }
      var known := false;
      for i := 0 to |w.tools|
        invariant known <==> tc.name in w.tools[..i]
        invariant Value() == old(Value())
      {
        known := known || w.tools[i] == tc.name;
      }
      assert w.tools[..|w.tools|] == w.tools;
      Tell(w, Started(tc));
      if end != Running {
        return;
      }
      var result, completed := UnknownTool(tc.name), false;
      if known {
        result := RunOneTool(w, tc);
        completed := true;
      }
      Tell(w, Reported(tc, result, completed));
      if end == Running {
        messages := messages + [ToolResultMessage(tc.id, tc.name, result)];
      }
    }

    // AppendContextMaintenanceNotice, compacting a copy of the slice in place.
    method AppendNotice(w: World)
      modifies this`messages
      ensures Value() == old(Value()).(messages := NoticePass(old(messages), w.profile, w.sessionID))
    {
      var ms := messages;
      var slice := new Message[|ms|](i requires 0 <= i < |ms| => ms[i]);
      assert slice[..] == ms;
      var kept := RemoveNotices(slice);
      messages := slice[..kept];
      var due := Due(messages, w.profile, w.sessionID);
      if due.Some? {
        messages := messages + [due.value];
      }
    }

    method OneChunk(w: World, chunk: Chunk, builder: Builder)
      requires end == Running && builder.Valid()
      modifies this`acts, this`end, builder, builder.Cells()
      ensures builder.Valid() && fresh(builder.Cells() - old(builder.Cells()))
      ensures Streaming(Value(), builder.Value()) == AfterChunk(w, Streaming(old(Value()), old(builder.Value())), chunk)
    {
      hide Update;
      if chunk.error.Some? {
        end := Failed(StreamError(chunk.error.value));
        return;
      }
      var m := MessageOf(chunk);
      if m.Some? {
        builder.UpdateWith(m.value);
        if m.value.reasoning != "" {
          Tell(w, Thought(m.value.reasoning));
          if end != Running {
            return;
          }
        }
        if m.value.content != "" {
          Tell(w, Text(m.value.content));
        }
      }
    }

    method Stream(w: World, chunks: seq<Chunk>, builder: Builder)
      requires end == Running && builder.Valid()
      modifies this`acts, this`end, builder, builder.Cells()
      ensures builder.Valid()
      ensures Streaming(Value(), builder.Value()) ==
              AfterChunks(w, Streaming(old(Value()), old(builder.Value())), chunks)
    {
      hide AfterChunk;
      ghost var start: Feed := Streaming(Value(), builder.Value());
      for i := 0 to |chunks|
        invariant end == Running && builder.Valid() && fresh(builder.Cells() - old(builder.Cells()))
        invariant Streaming(Value(), builder.Value()) == AfterChunks(w, start, chunks[..i])
      {
        assert chunks[..i + 1][..i] == chunks[..i];
        PrefixDecides(w, start, chunks, i + 1);
        OneChunk(w, chunks[i], builder);
        if end != Running {
          return;
        }
      }
      assert chunks[..|chunks|] == chunks;
    }

    method OneRound(w: World, round: Round)
      requires end == Running
      modifies this
      ensures Value() == AfterRound(w, old(Value()), round)
    {
      hide AfterChunks, AfterCall, NoticePass, Built;
      requests := requests + [messages];
      if round.Refused? {
        end := Failed(StreamRefused);
        return;
      }
      var builder := new Builder();
      Stream(w, round.chunks, builder);
      if end != Running {
        return;
      }
      if round.cancelled {
        end := Failed(Cancelled);
        return;
      }
      var m := builder.Build();
      if IsEmpty(m) {
        end := Failed(NoResponse);
        return;
      }
      messages := messages + [m];
      if m.toolCalls == [] {
        Tell(w, Usage);
        if end == Running {
          AppendNotice(w);
          Tell(w, Done);
          if end == Running {
            end := Finished;
          }
        }
        return;
      }
      ghost var before := Value();
      for i := 0 to |m.toolCalls|
        invariant end == Running
        invariant Value() == AfterCalls(w, before, m.toolCalls[..i])
      {
        assert m.toolCalls[..i + 1][..i] == m.toolCalls[..i];
        CallsDecide(w, before, m.toolCalls, i + 1);
        Call(w, m.toolCalls[i]);
        if end != Running {
          return;
        }
      }
      assert m.toolCalls[..|m.toolCalls|] == m.toolCalls;
    }

    /** `Agent.Run`, for the rounds the model has answered so far. */
    method Run(w: World, rounds: seq<Round>)
      requires end == Running
      modifies this
      ensures Value() == AfterRounds(w, old(Value()), rounds)
    {
      hide AfterRound;
      for i := 0 to |rounds|
        invariant end == Running
        invariant Value() == AfterRounds(w, old(Value()), rounds[..i])
      {
        assert rounds[..i + 1][..i] == rounds[..i];
        RoundsDecide(w, old(Value()), rounds, i + 1);
        OneRound(w, rounds[i]);
        if end != Running {
          return;
        }
      }
      assert rounds[..|rounds|] == rounds;
    }
  }

  // A run that has ended stays as it is.
  lemma {:induction false} PrefixDecides(w: World, s: Feed, chunks: seq<Chunk>, n: nat)
    requires n <= |chunks|
    ensures var t := AfterChunks(w, s, chunks[..n]); !t.turn.end.Running? ==> AfterChunks(w, s, chunks) == t
    decreases |chunks|
  {
    hide AfterChunk;
    if n == |chunks| {
      assert chunks[..n] == chunks;
    } else {
      assert chunks[..|chunks| - 1][..n] == chunks[..n];
      PrefixDecides(w, s, chunks[..|chunks| - 1], n);
    }
  }

  lemma {:induction false} CallsDecide(w: World, t: Turn, calls: seq<ToolCall>, n: nat)
    requires n <= |calls|
    ensures var u := AfterCalls(w, t, calls[..n]); !u.end.Running? ==> AfterCalls(w, t, calls) == u
    decreases |calls|
  {
    hide AfterCall;
    if n == |calls| {
      assert calls[..n] == calls;
    } else {
      assert calls[..|calls| - 1][..n] == calls[..n];
      CallsDecide(w, t, calls[..|calls| - 1], n);
    }
  }

  lemma {:induction false} RoundsDecide(w: World, t: Turn, rounds: seq<Round>, n: nat)
    requires n <= |rounds|
    ensures var u := AfterRounds(w, t, rounds[..n]); !u.end.Running? ==> AfterRounds(w, t, rounds) == u
    decreases |rounds|
  {
    hide AfterRound;
    if n == |rounds| {
      assert rounds[..n] == rounds;
    } else {
      assert rounds[..|rounds| - 1][..n] == rounds[..n];
      RoundsDecide(w, t, rounds[..|rounds| - 1], n);
    }
  }

  // ---- Pairing ----------------------------------------------------------------------------

  // Chunks only add to the acts and may stop the turn.
  lemma {:induction false} ChunksKeepMessages(w: World, s: Feed, chunks: seq<Chunk>)
    ensures var t := AfterChunks(w, s, chunks).turn;
            t.messages == s.turn.messages && t.requests == s.turn.requests
                && (s.turn.end != Finished ==> t.end != Finished)
  {
    hide Update, MessageOf;
    if chunks != [] {
      ChunksKeepMessages(w, s, chunks[..|chunks| - 1]);
    }
  }

  // One tool message per call that got through, with the call's id and name.
  lemma {:induction false} CallAnswers(w: World, t: Turn, tc: ToolCall)
    requires t.end.Running?
    ensures var u := AfterCall(w, t, tc);
            && u.requests == t.requests && u.end != Finished
            && (u.end.Running? ==> tc.id != "" && |u.messages| == |t.messages| + 1 && t.messages <= u.messages
                                   && u.messages[|t.messages|].role == ROLE_TOOL
                                   && u.messages[|t.messages|].toolCallID == tc.id
                                   && u.messages[|t.messages|].name == tc.name)
  {
  }

  lemma {:induction false} CallsAnswer(w: World, t: Turn, calls: seq<ToolCall>)
    requires t.end.Running? && t.messages != []
    requires var m := t.messages[|t.messages| - 1]; m.role == ROLE_ASSISTANT && calls <= m.toolCalls
    requires WellPaired(t.messages[..|t.messages| - 1])
    ensures var u := AfterCalls(w, t, calls);
            && u.requests == t.requests && u.end != Finished
            && (u.end.Running? ==> t.messages <= u.messages && |u.messages| == |t.messages| + |calls|
                                   && Awaited(u.messages) == Some(CallIDs(t.messages[|t.messages| - 1])[|calls|..]))
  {
    hide AfterCall;
    var ids := CallIDs(t.messages[|t.messages| - 1]);
    if calls == [] {
      assert ids[0..] == ids;
    } else {
      var n := |calls| - 1;
      CallsAnswer(w, t, calls[..n]);
      var before := AfterCalls(w, t, calls[..n]);
      if before.end.Running? {
        CallAnswers(w, before, calls[n]);
        var u := AfterCall(w, before, calls[n]);
        if u.end.Running? {
          assert u.messages[..|before.messages|] == before.messages;
          assert ids[n..][0] == calls[n].id && ids[n..][1..] == ids[n + 1..];
        }
      }
    }
  }

  ghost predicate AllWellPaired(requests: seq<seq<Message>>) {
    forall i :: 0 <= i < |requests| ==> WellPaired(requests[i])
  }

  // Each request is well paired and extends the session's messages and the requests before it.
  ghost predicate RequestsSound(requests: seq<seq<Message>>, began: seq<Message>) {
    && AllWellPaired(requests)
    && (forall i :: 0 <= i < |requests| ==> began <= requests[i])
    && (forall i, j :: 0 <= i < j < |requests| ==> requests[i] <= requests[j])
  }

  ghost predicate Extends(ms: seq<Message>, requests: seq<seq<Message>>, began: seq<Message>) {
    began <= ms && forall i :: 0 <= i < |requests| ==> requests[i] <= ms
  }

  // Everything but notices is kept, in order.
  predicate Keeps(ms: seq<Message>, earlier: seq<Message>) {
    WithoutNotices(earlier) <= WithoutNotices(ms)
  }

  ghost predicate TidyEnd(ms: seq<Message>) {
    forall i :: 0 <= i < |ms| && IsNotice(ms[i]) ==> i == |ms| - 1
  }

  // What holds of a turn that began with these messages.
  ghost predicate Sound(t: Turn, began: seq<Message>) {
    && RequestsSound(t.requests, began)
    && (t.end.Running? ==> WellPaired(t.messages) && Extends(t.messages, t.requests, began))
    && (t.end.Finished? ==>
          && WellPaired(t.messages) && TidyEnd(t.messages) && Keeps(t.messages, began)
          && forall i :: 0 <= i < |t.requests| ==> Keeps(t.messages, t.requests[i]))
  }

  // Filtering keeps prefixes.
  lemma {:induction false} FilterIsMonotone(p: seq<Message>, q: seq<Message>)
    requires p <= q
    ensures WithoutNotices(p) <= WithoutNotices(q)
    decreases |q|
  {
    hide IsNotice;
    if |p| < |q| {
      FilterIsMonotone(p, q[..|q| - 1]);
    } else {
      assert p == q;
    }
  }

  lemma {:induction false} RoleIsAssistant(deltas: seq<Message>)
    ensures UpdateAll(NEW, deltas).role == if deltas == [] then "" else ROLE_ASSISTANT
  {
    if deltas != [] {
      RoleIsAssistant(deltas[..|deltas| - 1]);
      UpdateSetsRole(UpdateAll(NEW, deltas[..|deltas| - 1]), deltas[|deltas| - 1]);
    }
  }

  lemma {:induction false} UpdateSetsRole(b: Building, delta: Message)
    requires InRange(b) && b.role in {"", ROLE_ASSISTANT}
    ensures Update(b, delta).role == ROLE_ASSISTANT
  {
    AddAllIgnoresText(b, delta.toolCalls, ROLE_ASSISTANT, b.content + delta.content, b.reasoning + delta.reasoning);
  }

  // The messages a stream carries, in order.
  function Deltas(chunks: seq<Chunk>): seq<Message> {
    if chunks == [] then []
    else
      var before, m := Deltas(chunks[..|chunks| - 1]), MessageOf(chunks[|chunks| - 1]);
      if m.Some? then before + [m.value] else before
  }

  // A stream that ran to its end built the fold of its messages.
  lemma {:induction false} StreamBuilds(w: World, t: Turn, chunks: seq<Chunk>)
    ensures var s := AfterChunks(w, Streaming(t, NEW), chunks);
            s.turn.end.Running? ==> s.building == UpdateAll(NEW, Deltas(chunks))
  {
    hide Update, MessageOf, Emit;
    if chunks != [] {
      var n := |chunks| - 1;
      StreamBuilds(w, t, chunks[..n]);
      var m := MessageOf(chunks[n]);
      if m.Some? {
        assert (Deltas(chunks[..n]) + [m.value])[..|Deltas(chunks[..n])|] == Deltas(chunks[..n]);
      }
    }
  }

  lemma {:induction false} ConcludeIsSound(w: World, t: Turn, began: seq<Message>)
    requires t.end.Running? && WellPaired(t.messages) && Extends(t.messages, t.requests, began)
             && RequestsSound(t.requests, began)
    ensures Sound(Conclude(w, t), began) && !Conclude(w, t).end.Running?
  {
    hide NoticePass, IsNotice, Awaited, WithoutNotices, RequestsSound;
    NoticePassIsTidy(t.messages, w.profile, w.sessionID);
    FilterIsMonotone(began, t.messages);
    forall i | 0 <= i < |t.requests|
      ensures Keeps(t.messages, t.requests[i])
    {
      FilterIsMonotone(t.requests[i], t.messages);
    }
  }

  // An answer is accepted, and its calls are awaited.
  lemma {:induction false} AnswerAwaits(ms: seq<Message>, m: Message)
    requires WellPaired(ms) && m.role == ROLE_ASSISTANT
    ensures Awaited(ms + [m]) == Some(CallIDs(m)) && (m.toolCalls == [] ==> WellPaired(ms + [m]))
    ensures CallIDs(m)[|m.toolCalls|..] == []
  {
    AwaitedOneMore(ms, m);
  }

  lemma {:induction false} ExtendsOneMore(ms: seq<Message>, more: seq<Message>, requests: seq<seq<Message>>,
                                          began: seq<Message>)
    requires Extends(ms, requests, began) && ms <= more
    ensures Extends(more, requests, began)
  {
  }

  lemma {:induction false} AnswerIsSound(w: World, t: Turn, m: Message, began: seq<Message>)
    requires t.end.Running? && Sound(t, began)
    requires IsEmpty(m) || m.role == ROLE_ASSISTANT
    ensures Sound(Answer(w, t, m), began)
  {
    hide AfterCalls, Conclude, WellPaired, Awaited, Extends, RequestsSound;
    if !IsEmpty(m) {
      var after := t.(messages := t.messages + [m]);
      AnswerAwaits(t.messages, m);
      ExtendsOneMore(t.messages, after.messages, t.requests, began);
      if m.toolCalls == [] {
        ConcludeIsSound(w, after, began);
      } else {
        CallsAreSound(w, after, m, began);
      }
    }
  }

  lemma {:induction false} CallsAreSound(w: World, t: Turn, m: Message, began: seq<Message>)
    requires t.end.Running? && t.messages != [] && m == t.messages[|t.messages| - 1] && m.role == ROLE_ASSISTANT
    requires WellPaired(t.messages[..|t.messages| - 1])
    requires Extends(t.messages, t.requests, began) && RequestsSound(t.requests, began)
    ensures Sound(AfterCalls(w, t, m.toolCalls), began)
  {
    hide AfterCalls, Awaited, Extends, RequestsSound;
    CallsAnswer(w, t, m.toolCalls);
    var u := AfterCalls(w, t, m.toolCalls);
    if u.end.Running? {
      assert CallIDs(m)[|m.toolCalls|..] == [];
      ExtendsOneMore(t.messages, u.messages, t.requests, began);
    }
  }

  lemma {:induction false} RequestIsSound(t: Turn, began: seq<Message>)
    requires t.end.Running? && Sound(t, began)
    ensures Sound(Request(t), began)
  {
    hide WellPaired;
  }

  lemma {:induction false} StoppedIsSound(t: Turn, u: Turn, began: seq<Message>)
    requires Sound(t, began) && u.requests == t.requests && u.end.Failed?
    ensures Sound(u, began)
  {
    hide WellPaired;
  }

  lemma {:induction false} StreamIsSound(t: Turn, u: Turn, began: seq<Message>)
    requires Sound(t, began) && t.end.Running? && u.messages == t.messages && u.requests == t.requests && u.end.Running?
    ensures Sound(u, began)
  {
    hide WellPaired;
  }

  lemma {:induction false} RoundIsSound(w: World, t: Turn, round: Round, began: seq<Message>)
    requires t.end.Running? && Sound(t, began)
    ensures Sound(AfterRound(w, t, round), began)
  {
    hide AfterChunks, Answer, Sound, WellPaired;
    RequestIsSound(t, began);
    if round.Refused? {
      StoppedIsSound(Request(t), AfterRound(w, t, round), began);
    } else {
      ChunksKeepMessages(w, Streaming(Request(t), NEW), round.chunks);
      StreamBuilds(w, Request(t), round.chunks);
      RoleIsAssistant(Deltas(round.chunks));
      var s := AfterChunks(w, Streaming(Request(t), NEW), round.chunks);
      if s.turn.end.Running? {
        NothingBuilt(Deltas(round.chunks));
        StreamIsSound(Request(t), s.turn, began);
        if round.cancelled {
          StoppedIsSound(s.turn, Stop(s.turn, Cancelled), began);
        } else {
          AnswerIsSound(w, s.turn, Built(s.building), began);
        }
      } else {
        StoppedIsSound(Request(t), s.turn, began);
      }
    }
  }

  lemma {:induction false} NothingBuilt(deltas: seq<Message>)
    ensures deltas == [] ==> IsEmpty(Built(UpdateAll(NEW, deltas)))
  {
  }

  /**
   * Over any run from a well-paired session: every request sent is well paired and extends the
   * session's messages and the requests before it; when `Run` returns without error the transcript is
   * still well paired, has at most one notice, in last place, and kept every other message of the
   * session and of every request, in order.
   */
  lemma {:induction false} RunIsSound(w: World, t: Turn, rounds: seq<Round>)
    requires t.end.Running? && t.requests == [] && WellPaired(t.messages)
    ensures Sound(AfterRounds(w, t, rounds), t.messages)
  {
    hide AfterRound, Awaited, WithoutNotices;
    if rounds != [] {
      var n := |rounds| - 1;
      RunIsSound(w, t, rounds[..n]);
      var before := AfterRounds(w, t, rounds[..n]);
      if before.end.Running? {
        RoundIsSound(w, before, rounds[n], t.messages);
      }
    }
  }

  // The message a round's stream builds.
  function AnswerOf(round: Round): Message
    requires round.Streamed?
  {
    Built(UpdateAll(NEW, Deltas(round.chunks)))
  }

  lemma {:induction false} RoundKeepsAnswer(w: World, t: Turn, round: Round)
    requires t.end.Running?
    ensures var u := AfterRound(w, t, round);
            && u.requests == t.requests + [t.messages]
            && (u.end.Finished? ==> round.Streamed? && AnswerOf(round).toolCalls == [] && !IsEmpty(AnswerOf(round))
                                    && u.messages == NoticePass(t.messages + [AnswerOf(round)], w.profile, w.sessionID))
  {
    hide AfterChunks, AfterCalls, NoticePass, UpdateAll, Deltas;
    if round.Streamed? {
      ChunksKeepMessages(w, Streaming(Request(t), NEW), round.chunks);
      StreamBuilds(w, Request(t), round.chunks);
      var s := AfterChunks(w, Streaming(Request(t), NEW), round.chunks);
      if s.turn.end.Running? && !round.cancelled && !IsEmpty(Built(s.building)) {
        CallsKeepRequests(w, s.turn.(messages := t.messages + [Built(s.building)]), Built(s.building).toolCalls);
      }
    }
  }

  lemma {:induction false} CallsKeepRequests(w: World, t: Turn, calls: seq<ToolCall>)
    requires t.end.Running?
    ensures AfterCalls(w, t, calls).requests == t.requests && AfterCalls(w, t, calls).end != Finished
  {
    hide AfterCall;
    if calls != [] {
      CallsKeepRequests(w, t, calls[..|calls| - 1]);
      if AfterCalls(w, t, calls[..|calls| - 1]).end.Running? {
        CallAnswers(w, AfterCalls(w, t, calls[..|calls| - 1]), calls[|calls| - 1]);
      }
    }
  }

  /**
   * A run that returns without error ends with the notice pass over exactly the last request followed by
   * the answer built from the last round, which holds no call.
   */
  lemma {:induction false} RunEndsWithAnswer(w: World, t: Turn, rounds: seq<Round>)
    requires t.end.Running? && t.requests == []
    ensures var u := AfterRounds(w, t, rounds);
            && |u.requests| <= |rounds| && (u.end.Running? ==> |u.requests| == |rounds|)
            && (u.end.Finished? ==>
                  var k := |u.requests| - 1;
                  && k >= 0 && rounds[k].Streamed? && AnswerOf(rounds[k]).toolCalls == []
                      && !IsEmpty(AnswerOf(rounds[k]))
                  && u.messages == NoticePass(u.requests[k] + [AnswerOf(rounds[k])], w.profile, w.sessionID)
                  && WithoutNotices(u.messages) == WithoutNotices(u.requests[k] + [AnswerOf(rounds[k])]))
  {
    hide AfterRound, NoticePass, WithoutNotices, AnswerOf;
    if rounds != [] {
      var n := |rounds| - 1;
      RunEndsWithAnswer(w, t, rounds[..n]);
      var before := AfterRounds(w, t, rounds[..n]);
      if before.end.Running? {
        RoundKeepsAnswer(w, before, rounds[n]);
        if AfterRound(w, before, rounds[n]).end.Finished? {
          NoticePassIsTidy(before.messages + [AnswerOf(rounds[n])], w.profile, w.sessionID);
        }
      }
    }
  }

  // ---- Acts -------------------------------------------------------------------------------

  predicate IsToolAct(a: Act) {
    a.Started? || a.Ran? || a.File? || a.Reported?
  }

  function ToolActs(acts: seq<Act>): seq<Act> {
    if acts == [] then []
    else
      var before := ToolActs(acts[..|acts| - 1]);
      if IsToolAct(acts[|acts| - 1]) then before + [acts[|acts| - 1]] else before
  }

  lemma {:induction false} EmitToolActs(w: World, t: Turn, act: Act)
    ensures ToolActs(Emit(w, t, act).acts) == if IsToolAct(act) then ToolActs(t.acts) + [act] else ToolActs(t.acts)
  {
    assert (t.acts + [act])[..|t.acts|] == t.acts;
  }

  lemma {:induction false} ChunksRunNoTool(w: World, s: Feed, chunks: seq<Chunk>)
    ensures ToolActs(AfterChunks(w, s, chunks).turn.acts) == ToolActs(s.turn.acts)
  {
    hide Update, MessageOf, Emit;
    if chunks != [] {
      var n := |chunks| - 1;
      ChunksRunNoTool(w, s, chunks[..n]);
      var before, m := AfterChunks(w, s, chunks[..n]), MessageOf(chunks[n]);
      if m.Some? {
        EmitToolActs(w, before.turn, Thought(m.value.reasoning));
        EmitToolActs(w, TellThought(w, before.turn, m.value), Text(m.value.content));
      }
    }
  }

  /**
   * Whatever a round streams, if any call built from it lacks an id the run fails, and that round
   * started, ran and reported no tool.
   */
  lemma {:induction false} MissingIDRunsNoTool(w: World, t: Turn, round: Round)
    requires t.end.Running? && round.Streamed?
    requires exists tc :: tc in Built(UpdateAll(NEW, Deltas(round.chunks))).toolCalls && tc.id == ""
    ensures AfterRound(w, t, round).end.Failed?
    ensures ToolActs(AfterRound(w, t, round).acts) == ToolActs(t.acts)
    ensures AfterRound(w, t, round).messages <= t.messages + [Built(UpdateAll(NEW, Deltas(round.chunks)))]
  {
    hide AfterChunks, ToolActs, UpdateAll, Deltas;
    var start: Feed := Streaming(Request(t), NEW);
    ChunksKeepMessages(w, start, round.chunks);
    ChunksRunNoTool(w, start, round.chunks);
    StreamBuilds(w, Request(t), round.chunks);
    BuiltIDsAreDistinct(Deltas(round.chunks));
    var m := Built(UpdateAll(NEW, Deltas(round.chunks)));
    assert m.toolCalls != [] && m.toolCalls[0].id == "";
    FirstCallStops(w, AfterChunks(w, start, round.chunks).turn.(messages := t.messages + [m]), m.toolCalls);
  }

  lemma {:induction false} FirstCallStops(w: World, t: Turn, calls: seq<ToolCall>)
    requires calls != [] && calls[0].id == ""
    ensures t.end.Running? ==> AfterCalls(w, t, calls) == Stop(t, MissingID(calls[0].name))
  {
    CallsDecide(w, t, calls, 1);
    assert calls[..1][..0] == [] && AfterCalls(w, t, []) == t;
  }

  // What the sink was told, concatenated.
  function Texts(acts: seq<Act>): string {
    if acts == [] then "" else Texts(acts[..|acts| - 1]) + (match acts[|acts| - 1] case Text(s) => s case _ => "")
  }

  function Thoughts(acts: seq<Act>): string {
    if acts == [] then "" else Thoughts(acts[..|acts| - 1]) + (match acts[|acts| - 1] case Thought(s) => s case _ => "")
  }

  lemma {:induction false} TellTells(w: World, t: Turn, m: Message)
    ensures Texts(TellThought(w, t, m).acts) == Texts(t.acts)
            && Thoughts(TellThought(w, t, m).acts) == Thoughts(t.acts) + m.reasoning
    ensures Thoughts(TellText(w, t, m).acts) == Thoughts(t.acts)
    ensures t.end.Running? ==> Texts(TellText(w, t, m).acts) == Texts(t.acts) + m.content
  {
    assert (t.acts + [Thought(m.reasoning)])[..|t.acts|] == t.acts;
    assert (t.acts + [Text(m.content)])[..|t.acts|] == t.acts;
    assert Texts(t.acts) + "" == Texts(t.acts) && Thoughts(t.acts) + "" == Thoughts(t.acts);
  }

  lemma {:induction false} UpdateAddsText(b: Building, m: Message)
    requires InRange(b)
    ensures Update(b, m).content == b.content + m.content && Update(b, m).reasoning == b.reasoning + m.reasoning
  {
    var role := if b.role == "" then ROLE_ASSISTANT else b.role;
    AddAllIgnoresText(b, m.toolCalls, role, b.content + m.content, b.reasoning + m.reasoning);
  }

  /**
   * A stream that runs to its end tells the sink exactly the text and reasoning it adds to the message,
   * after whatever was told before.
   */
  lemma {:induction false} SinkHearsTheMessage(w: World, s: Feed, chunks: seq<Chunk>, text: string, thought: string)
    requires s.turn.end.Running?
    requires Texts(s.turn.acts) == text + s.building.content && Thoughts(s.turn.acts) == thought + s.building.reasoning
    ensures var after := AfterChunks(w, s, chunks);
            after.turn.end.Running? ==>
              Texts(after.turn.acts) == text + after.building.content
                  && Thoughts(after.turn.acts) == thought + after.building.reasoning
  {
    hide Update, MessageOf, Emit, Texts, Thoughts;
    if chunks != [] {
      var n := |chunks| - 1;
      SinkHearsTheMessage(w, s, chunks[..n], text, thought);
      var before, m := AfterChunks(w, s, chunks[..n]), MessageOf(chunks[n]);
      if before.turn.end.Running? && m.Some? {
        TellTells(w, before.turn, m.value);
        TellTells(w, TellThought(w, before.turn, m.value), m.value);
        UpdateAddsText(before.building, m.value);
        TellStops(w, before.turn, m.value);
        Associative(text, before.building.content, m.value.content);
        Associative(thought, before.building.reasoning, m.value.reasoning);
      }
    }
  }

  lemma {:induction false} TellStops(w: World, t: Turn, m: Message)
    ensures !TellThought(w, t, m).end.Running? ==> !TellText(w, TellThought(w, t, m), m).end.Running?
  {
  }

  function Starts(acts: seq<Act>): seq<ToolCall> {
    if acts == [] then []
    else
      var before := Starts(acts[..|acts| - 1]);
      match acts[|acts| - 1] case Started(tc) => before + [tc] case _ => before
  }

  function Runs(acts: seq<Act>): seq<ToolCall> {
    if acts == [] then []
    else
      var before := Runs(acts[..|acts| - 1]);
      match acts[|acts| - 1] case Ran(tc) => before + [tc] case _ => before
  }

  // The reported results, as the tool messages that should carry them.
  function Reports(acts: seq<Act>): seq<Message> {
    if acts == [] then []
    else
      var before := Reports(acts[..|acts| - 1]);
      match acts[|acts| - 1]
      case Reported(tc, result, _) => before + [ToolResultMessage(tc.id, tc.name, result)]
      case _ => before
  }

  function Known(w: World, calls: seq<ToolCall>): seq<ToolCall> {
    if calls == [] then []
    else
      var before := Known(w, calls[..|calls| - 1]);
      if calls[|calls| - 1].name in w.tools then before + [calls[|calls| - 1]] else before
  }

  lemma {:induction false} OneMoreAct(acts: seq<Act>, a: Act)
    ensures Starts(acts + [a]) == if a.Started? then Starts(acts) + [a.call] else Starts(acts)
    ensures Runs(acts + [a]) == if a.Ran? then Runs(acts) + [a.call] else Runs(acts)
    ensures Reports(acts + [a]) ==
            if a.Reported? then Reports(acts) + [ToolResultMessage(a.call.id, a.call.name, a.result)] else Reports(acts)
  {
    assert (acts + [a])[..|acts|] == acts;
  }

  lemma {:induction false} RunToolActs(w: World, t: Turn, tc: ToolCall)
    ensures var u := RunTool(w, t, tc).0;
            && u == t.(acts := u.acts) && Starts(u.acts) == Starts(t.acts) && Reports(u.acts) == Reports(t.acts)
            && Runs(u.acts) == Runs(t.acts) + [tc]
  {
    hide Starts, Runs, Reports;
    OneMoreAct(t.acts, Ran(tc));
    var file := w.attachment(w.toolResult(|t.acts|));
    if file.Some? {
      OneMoreAct(t.acts + [Ran(tc)], File(file.value));
    }
  }

  lemma {:induction false} CallActs(w: World, t: Turn, tc: ToolCall)
    requires t.end.Running?
    ensures var u := AfterCall(w, t, tc);
            u.end.Running? ==>
              && Starts(u.acts) == Starts(t.acts) + [tc]
              && Runs(u.acts) == (if tc.name in w.tools then Runs(t.acts) + [tc] else Runs(t.acts))
              && exists reply :: u.messages == t.messages + [reply] && Reports(u.acts) == Reports(t.acts) + [reply]
  {
    hide Starts, Runs, Reports, RunTool;
    var started := Emit(w, t, Started(tc));
    OneMoreAct(t.acts, Started(tc));
    RunToolActs(w, started, tc);
    var known := tc.name in w.tools;
    var after := if known then RunTool(w, started, tc).0 else started;
    var result := if known then RunTool(w, started, tc).1 else UnknownTool(tc.name);
    OneMoreAct(after.acts, Reported(tc, result, known));
    if tc.id != "" && started.end.Running? {
      assert AfterCall(w, t, tc) == Report(w, after, tc, result, known);
    }
  }

  /**
   * When a round's calls all get through, each was started once, in order, exactly those naming a known
   * tool ran, in order, and the messages appended are exactly the results the sink was shown.
   */
  lemma {:induction false} CallsRunOnceInOrder(w: World, t: Turn, calls: seq<ToolCall>)
    requires t.end.Running?
    ensures var u := AfterCalls(w, t, calls);
            u.end.Running? ==>
              && Starts(u.acts) == Starts(t.acts) + calls
              && Runs(u.acts) == Runs(t.acts) + Known(w, calls)
              && exists replies :: u.messages == t.messages + replies && Reports(u.acts) == Reports(t.acts) + replies
                                   && |replies| == |calls|
  {
    hide AfterCall, Starts, Runs, Reports;
    if calls == [] {
      assert t.messages == t.messages + [] && Reports(t.acts) == Reports(t.acts) + [];
      assert Starts(t.acts) == Starts(t.acts) + calls && Runs(t.acts) == Runs(t.acts) + Known(w, calls);
    } else {
      var n := |calls| - 1;
      CallsRunOnceInOrder(w, t, calls[..n]);
      var before := AfterCalls(w, t, calls[..n]);
      var u := AfterCalls(w, t, calls);
      if before.end.Running? {
        CallActs(w, before, calls[n]);
        if u.end.Running? {
          var replies: seq<Message> :| before.messages == t.messages + replies
              && Reports(before.acts) == Reports(t.acts) + replies
                                       && |replies| == n;
          var reply: Message :| u.messages == before.messages + [reply]
              && Reports(u.acts) == Reports(before.acts) + [reply];
          assert u.messages == t.messages + (replies + [reply])
                 && Reports(u.acts) == Reports(t.acts) + (replies + [reply]);
          assert Starts(t.acts) + calls == Starts(t.acts) + calls[..n] + [calls[n]];
        }
      }
    }
  }
}
