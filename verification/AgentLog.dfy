/** What a run of the agent reports of each tool call, told by the acts and the world around it (agent/agent.go). */
module AgentLog {
  import opened AgentRun
  import opened ChatTypes
  import opened MessageBuilder
  import opened ResponseAssembler
  import opened Sequences
  import opened Wrappers
  import Transcript

  // ---- One call ---------------------------------------------------------------------------

  // A call got through: it was started, its tool ran if it is known, and the result was reported and is
  // the content of the reply.
  ghost predicate CallLog(w: World, at: nat, log: seq<Act>, tc: ToolCall, reply: Message) {
    var n := |log| - 1;
    && n >= 1 && tc.id != "" && log[0] == Started(tc) && w.sinkError(at).None? && w.sinkError(at + n).None?
    && reply == Message(ROLE_TOOL, reply.content, "", [], tc.id, tc.name)
    && if tc.name in w.tools
       then log[n] == Reported(tc, reply.content, true) && RunLog(w, at + 1, log[1..n], tc, reply.content)
       else n == 1 && log[n] == Reported(tc, reply.content, false)
            && reply.content == "Error: unknown tool '" + tc.name + "'"
  }

  lemma {:induction false} RunIsLogged(w: World, t: Turn, tc: ToolCall) returns (log: seq<Act>)
    ensures var (u, result) := RunTool(w, t, tc);
            u == t.(acts := t.acts + log) && RunLog(w, |t.acts|, log, tc, result)
  {
    log := RunTool(w, t, tc).0.acts[|t.acts|..];
  }

  /** A call fails for want of an id before any act, by a sink error at its start or its report, or is logged. */
  lemma {:induction false} CallIsLogged(w: World, t: Turn, tc: ToolCall) returns (log: seq<Act>, reply: Message)
    requires t.end.Running?
    ensures var u := AfterCall(w, t, tc);
            && u.acts == t.acts + log && u.requests == t.requests
            && match u.end
               case Running => CallLog(w, |t.acts|, log, tc, reply) && u.messages == t.messages + [reply]
               case Failed(MissingID(name)) => tc.id == "" && name == tc.name && log == [] && u.messages == t.messages
               case Failed(SinkError(message)) =>
                 && log != [] && w.sinkError(|u.acts| - 1) == Some(message) && u.messages == t.messages
                 && (log[|log| - 1].Reported? || log == [Started(tc)])
               case _ => false
  {
    hide RunTool, RunLog;
    log, reply := [], ToolResultMessage(tc.id, tc.name, "");
    assert t.acts + [] == t.acts;
    if tc.id != "" {
      var started := Emit(w, t, Started(tc));
      log := [Started(tc)];
      if started.end.Running? {
        var ran, result, known := [], UnknownTool(tc.name), tc.name in w.tools;
        if known {
          ran := RunIsLogged(w, started, tc);
          result := RunTool(w, started, tc).1;
        }
        log := [Started(tc)] + ran + [Reported(tc, result, known)];
        reply := ToolResultMessage(tc.id, tc.name, result);
        assert log[1..|log| - 1] == ran;
        Associative(t.acts, [Started(tc)], ran);
        Associative(t.acts, [Started(tc)] + ran, [Reported(tc, result, known)]);
        assert started.acts + [] == started.acts;
      }
    }
  }

  // ---- The calls of a round ---------------------------------------------------------------

  function Flat(logs: seq<seq<Act>>): seq<Act> {
    if logs == [] then [] else Flat(logs[..|logs| - 1]) + logs[|logs| - 1]
  }

  // The logs follow each other from a position on, one for each call, in order.
  ghost predicate AllLogged(w: World, at: nat, logs: seq<seq<Act>>, calls: seq<ToolCall>, replies: seq<Message>) {
    && |logs| == |calls| == |replies|
    && forall i :: 0 <= i < |calls| ==> CallLog(w, at + |Flat(logs[..i])|, logs[i], calls[i], replies[i])
  }

  lemma {:induction false} OneMoreLogged(w: World, at: nat, logs: seq<seq<Act>>, calls: seq<ToolCall>,
                                         replies: seq<Message>, log: seq<Act>, call: ToolCall, reply: Message)
    requires AllLogged(w, at, logs, calls, replies) && CallLog(w, at + |Flat(logs)|, log, call, reply)
    ensures AllLogged(w, at, logs + [log], calls + [call], replies + [reply])
    ensures Flat(logs + [log]) == Flat(logs) + log
  {
    hide CallLog, Flat;
    var more := logs + [log];
    forall i | 0 <= i < |more|
      ensures CallLog(w, at + |Flat(more[..i])|, more[i], (calls + [call])[i], (replies + [reply])[i])
    {
      assert i < |logs| ==> more[..i] == logs[..i];
      assert more[..|logs|] == logs;
    }
    FlatOneMore(logs, log);
  }

  lemma {:induction false} FlatOneMore(logs: seq<seq<Act>>, log: seq<Act>)
    ensures Flat(logs + [log]) == Flat(logs) + log
  {
    assert (logs + [log])[..|logs|] == logs;
  }

  /**
   * When a round's calls all get through, the acts are their logs one after the other, and the messages
   * appended are their replies: for each call, in order, what its tool returned, or the file it attached,
   * or that the tool is unknown.
   */
  lemma {:induction false} CallsAreLogged(w: World, t: Turn, calls: seq<ToolCall>)
    returns (logs: seq<seq<Act>>, replies: seq<Message>)
    requires t.end.Running?
    ensures var u := AfterCalls(w, t, calls);
            && t.acts <= u.acts && u.requests == t.requests && u.end != Finished
            && (u.end.Running? ==>
                  && u.acts == t.acts + Flat(logs) && u.messages == t.messages + replies
                  && AllLogged(w, |t.acts|, logs, calls, replies))
  {
    hide AfterCall, CallLog;
    logs, replies := [], [];
    if calls == [] {
      assert t.acts + [] == t.acts && t.messages + [] == t.messages;
    } else {
      var n := |calls| - 1;
      logs, replies := CallsAreLogged(w, t, calls[..n]);
      var before := AfterCalls(w, t, calls[..n]);
      if before.end.Running? {
        var log, reply := CallIsLogged(w, before, calls[n]);
        if AfterCall(w, before, calls[n]).end.Running? {
          OneMoreLogged(w, |t.acts|, logs, calls[..n], replies, log, calls[n], reply);
          Associative(t.acts, Flat(logs), log);
          Associative(t.messages, replies, [reply]);
          assert calls == calls[..n] + [calls[n]];
          logs, replies := logs + [log], replies + [reply];
        }
      }
    }
  }

  // ---- The stream of a round --------------------------------------------------------------

  // What the sink is told of some messages: the reasoning and then the text of each, where there is any.
  function Heard(deltas: seq<Message>): seq<Act> {
    if deltas == [] then []
    else
      var before, m := Heard(deltas[..|deltas| - 1]), deltas[|deltas| - 1];
      before + (if m.reasoning == "" then [] else [Thought(m.reasoning)])
          + (if m.content == "" then [] else [Text(m.content)])
  }

  lemma {:induction false} HeardOneMore(deltas: seq<Message>, m: Message)
    ensures Heard(deltas + [m]) ==
            Heard(deltas) + (if m.reasoning == "" then [] else [Thought(m.reasoning)])
            + (if m.content == "" then [] else [Text(m.content)])
  {
    assert (deltas + [m])[..|deltas|] == deltas;
  }

  lemma {:induction false} ChunkIsHeard(w: World, t: Turn, m: Message)
    ensures var u := TellText(w, TellThought(w, t, m), m);
            && t.acts <= u.acts
            && (u.end.Running? ==>
                  u.acts == t.acts + (if m.reasoning == "" then [] else [Thought(m.reasoning)])
                            + (if m.content == "" then [] else [Text(m.content)]))
  {
    assert t.acts + [] == t.acts;
  }

  /** A stream that runs to its end told the sink the reasoning and the text of each of its messages, in order. */
  lemma {:induction false} StreamIsHeard(w: World, s: Feed, chunks: seq<Chunk>)
    ensures var u := AfterChunks(w, s, chunks).turn;
            && s.turn.acts <= u.acts && (u.end.Running? ==> u.acts == s.turn.acts + Heard(Deltas(chunks)))
  {
    hide TellText, TellThought, MessageOf, Update, Heard;
    if chunks == [] {
      assert s.turn.acts + [] == s.turn.acts && Heard([]) == [] by { NothingHeard(); }
    } else {
      var n := |chunks| - 1;
      StreamIsHeard(w, s, chunks[..n]);
      var before, m := AfterChunks(w, s, chunks[..n]), MessageOf(chunks[n]);
      if before.turn.end.Running? && chunks[n].error.None? && m.Some? {
        ChunkIsHeard(w, before.turn, m.value);
        HeardOneMore(Deltas(chunks[..n]), m.value);
      }
    }
  }

  lemma {:induction false} NothingHeard()
    ensures Heard([]) == []
  {
  }

  // ---- How a round ends -------------------------------------------------------------------

  ghost predicate NoSinkError(w: World, from: nat, to: nat) {
    forall p :: from <= p < to ==> w.sinkError(p).None?
  }

  ghost predicate NoErrorBefore(chunks: seq<Chunk>, k: nat) {
    forall j :: 0 <= j < k && j < |chunks| ==> chunks[j].error.None?
  }

  // A stream ends in order, at the first chunk that is an error, or where the sink refused what it was told.
  ghost predicate StreamEndsWell(w: World, t: Turn, u: Turn, chunks: seq<Chunk>) {
    var from := |t.acts|;
    match u.end
    case Running => NoErrorBefore(chunks, |chunks|) && NoSinkError(w, from, |u.acts|)
    case Failed(StreamError(message)) =>
      exists k :: 0 <= k < |chunks| && chunks[k].error == Some(message) && NoErrorBefore(chunks, k)
                  && u.acts == t.acts + Heard(Deltas(chunks[..k])) && NoSinkError(w, from, |u.acts|)
    case Failed(SinkError(message)) =>
      |u.acts| > from && w.sinkError(|u.acts| - 1) == Some(message) && NoSinkError(w, from, |u.acts| - 1)
    case _ => false
  }

  lemma {:induction false} ToldEnds(w: World, t: Turn, m: Message)
    requires t.end.Running?
    ensures var u := TellText(w, TellThought(w, t, m), m);
            match u.end
            case Running => NoSinkError(w, |t.acts|, |u.acts|)
            case Failed(SinkError(message)) =>
              |u.acts| > |t.acts| && w.sinkError(|u.acts| - 1) == Some(message)
                  && NoSinkError(w, |t.acts|, |u.acts| - 1)
            case _ => false
  {
  }

  lemma {:induction false} StreamEnds(w: World, s: Feed, chunks: seq<Chunk>)
    requires s.turn.end.Running?
    ensures StreamEndsWell(w, s.turn, AfterChunks(w, s, chunks).turn, chunks)
  {
    hide TellText, TellThought, MessageOf, Update, Heard, Deltas;
    if chunks != [] {
      var n := |chunks| - 1;
      StreamEnds(w, s, chunks[..n]);
      StreamIsHeard(w, s, chunks[..n]);
      var before, m, u := AfterChunks(w, s, chunks[..n]).turn, MessageOf(chunks[n]), AfterChunks(w, s, chunks).turn;
      if before.end.Running? {
        if chunks[n].error.None? && m.Some? {
          ToldEnds(w, before, m.value);
          ChunkIsHeard(w, before, m.value);
        }
      } else if before.end.failure.StreamError? {
        var k :| 0 <= k < n && chunks[..n][k].error == Some(before.end.failure.message) && NoErrorBefore(chunks[..n], k)
                 && before.acts == s.turn.acts + Heard(Deltas(chunks[..n][..k]))
                 && NoSinkError(w, |s.turn.acts|, |before.acts|);
        assert chunks[..n][..k] == chunks[..k];
        assert NoErrorBefore(chunks, k) by {
          assert forall j :: 0 <= j < k ==> chunks[..n][j] == chunks[j];
        }
      }
    }
  }

  /** The message of a chunk: the first choice's delta if it says anything, else that choice's whole message. */
  lemma {:induction false} ChunksMean(chunk: Chunk)
    ensures chunk.choices == [] ==> MessageOf(chunk) == None
    ensures chunk.choices != [] ==>
              var c := chunk.choices[0];
              MessageOf(chunk) ==
              if c.delta.Some? && (c.delta.value.role != "" || c.delta.value.content != ""
                                   || c.delta.value.reasoning != ""
                                   || c.delta.value.toolCalls != [])
              then c.delta else c.message
  {
  }

  // A turn that told its usage, made the notice pass and said it is done, or failed at either.
  ghost predicate Concludes(w: World, t: Turn, u: Turn) {
    var at := |t.acts|;
    if w.sinkError(at).Some? then
      u.acts == t.acts + [Usage] && u.end == Failed(SinkError(w.sinkError(at).value)) && u.messages == t.messages
    else
      && u.acts == t.acts + [Usage, Done] && u.messages == Transcript.NoticePass(t.messages, w.profile, w.sessionID)
      && u.end == if w.sinkError(at + 1).Some? then Failed(SinkError(w.sinkError(at + 1).value)) else Finished
  }

  lemma {:induction false} ConcludesWell(w: World, t: Turn)
    requires t.end.Running?
    ensures Concludes(w, t, Conclude(w, t))
  {
    hide Transcript.NoticePass;
    assert t.acts + [Usage] + [Done] == t.acts + [Usage, Done];
  }

  /**
   * How a round ends: refused; as its stream ended; cancelled; without a response; concluded after an
   * answer without calls; or with the calls of the answer, which was appended, under way.
   */
  lemma {:induction false} RoundEnds(w: World, t: Turn, round: Round)
    requires t.end.Running?
    ensures var u, began := AfterRound(w, t, round), t.(requests := t.requests + [t.messages]);
            if round.Refused? then u == began.(end := Failed(StreamRefused))
            else
              var s := AfterChunks(w, Streaming(began, NEW), round.chunks).turn;
              && StreamEndsWell(w, began, s, round.chunks)
              && s == began.(acts := s.acts, end := s.end)
              && if !s.end.Running? then u == s
                 else if round.cancelled then u == s.(end := Failed(Cancelled))
                 else if IsEmpty(AnswerOf(round)) then u == s.(end := Failed(NoResponse))
                 else
                   var answered := s.(messages := s.messages + [AnswerOf(round)]);
                   if AnswerOf(round).toolCalls == [] then Concludes(w, answered, u)
                   else u == AfterCalls(w, answered, AnswerOf(round).toolCalls)
  {
    hide AfterChunks, AfterCalls, UpdateAll, Deltas, Conclude, Heard, StreamEndsWell, Concludes;
    var began := t.(requests := t.requests + [t.messages]);
    if round.Streamed? {
      ChunksKeepMessages(w, Streaming(began, NEW), round.chunks);
      StreamBuilds(w, began, round.chunks);
      StreamEnds(w, Streaming(began, NEW), round.chunks);
      var s := AfterChunks(w, Streaming(began, NEW), round.chunks).turn;
      if s.end.Running? && !round.cancelled && !IsEmpty(AnswerOf(round)) {
        ConcludesWell(w, s.(messages := s.messages + [AnswerOf(round)]));
      }
    }
  }

  // ---- The rounds of a run ----------------------------------------------------------------

  // One request follows from the one before it: the answer the model streamed, then the replies to its calls.
  ghost predicate Follows(w: World, acts: seq<Act>, request: seq<Message>, next: seq<Message>, round: Round) {
    exists at: nat, logs, replies :: FollowsBy(w, acts, request, next, round, at, logs, replies)
  }

  ghost predicate FollowsBy(w: World, acts: seq<Act>, request: seq<Message>, next: seq<Message>, round: Round, at: nat,
                            logs: seq<seq<Act>>, replies: seq<Message>) {
    && round.Streamed? && !round.cancelled && !IsEmpty(AnswerOf(round)) && AnswerOf(round).toolCalls != []
    && next == request + [AnswerOf(round)] + replies
    && AllLogged(w, at, logs, AnswerOf(round).toolCalls, replies)
    && at + |Flat(logs)| <= |acts| && acts[at..at + |Flat(logs)|] == Flat(logs)
    && at >= |Heard(Deltas(round.chunks))|
    && acts[at - |Heard(Deltas(round.chunks))|..at] == Heard(Deltas(round.chunks))
  }

  lemma {:induction false} FollowsLater(w: World, acts: seq<Act>, more: seq<Act>, request: seq<Message>,
                                        next: seq<Message>, round: Round)
    requires Follows(w, acts, request, next, round) && acts <= more
    ensures Follows(w, more, request, next, round)
  {
    hide AllLogged, Heard, Deltas, UpdateAll;
    var at: nat, logs, replies :| FollowsBy(w, acts, request, next, round, at, logs, replies);
    var k := at + |Flat(logs)|;
    assert more[at..k] == acts[at..k];
    assert more[at - |Heard(Deltas(round.chunks))|..at] == acts[at - |Heard(Deltas(round.chunks))|..at];
    assert FollowsBy(w, more, request, next, round, at, logs, replies);
  }

  lemma {:induction false} RoundFollows(w: World, t: Turn, round: Round)
    requires t.end.Running?
    ensures var u := AfterRound(w, t, round);
            && t.acts <= u.acts && u.requests == t.requests + [t.messages]
            && (u.end.Running? ==> Follows(w, u.acts, t.messages, u.messages, round))
  {
    hide AfterChunks, AfterCalls, UpdateAll, Deltas, Conclude, AllLogged, Heard, Flat;
    if round.Streamed? {
      var start: Feed := Streaming(Request(t), NEW);
      ChunksKeepMessages(w, start, round.chunks);
      StreamBuilds(w, Request(t), round.chunks);
      StreamIsHeard(w, start, round.chunks);
      var s := AfterChunks(w, start, round.chunks);
      if s.turn.end.Running? && !round.cancelled && !IsEmpty(Built(s.building)) {
        var m := Built(s.building);
        var after := s.turn.(messages := t.messages + [m]);
        if m.toolCalls == [] {
          ConcludeAdds(w, after);
        } else {
          var logs, replies := CallsAreLogged(w, after, m.toolCalls);
          var u := AfterCalls(w, after, m.toolCalls);
          if u.end.Running? {
            var at, n := |s.turn.acts|, |Heard(Deltas(round.chunks))|;
            assert u.acts[at..at + |Flat(logs)|] == Flat(logs);
            assert u.acts[at - n..at] == s.turn.acts[at - n..];
            assert FollowsBy(w, u.acts, t.messages, u.messages, round, at, logs, replies);
          }
        }
      }
    }
  }

  lemma {:induction false} ConcludeAdds(w: World, t: Turn)
    requires t.end.Running?
    ensures t.acts <= Conclude(w, t).acts && Conclude(w, t).requests == t.requests && !Conclude(w, t).end.Running?
  {
    hide Transcript.NoticePass;
  }

  /**
   * Over any run, each request but the first is the one before it, the answer streamed to that, and the
   * replies to its calls; the acts tell the same: what the stream said, then for each call its start, what
   * its tool did, and the result reported, which is what the tool returned.
   */
  lemma {:induction false} RequestsFollow(w: World, t: Turn, rounds: seq<Round>)
    requires t.end.Running? && t.requests == []
    ensures var u := AfterRounds(w, t, rounds);
            && |u.requests| <= |rounds| && (u.requests != [] ==> u.requests[0] == t.messages)
            && (u.end.Running? ==> |u.requests| == |rounds|)
            && (forall i :: 0 <= i < |u.requests| - 1 ==>
                  Follows(w, u.acts, u.requests[i], u.requests[i + 1], rounds[i]))
            && (u.end.Running? && rounds != [] ==>
                  var n := |rounds| - 1; Follows(w, u.acts, u.requests[n], u.messages, rounds[n]))
            && (rounds == [] ==> u == t)
  {
    hide AfterRound, Follows;
    if rounds != [] {
      var n := |rounds| - 1;
      RequestsFollow(w, t, rounds[..n]);
      var before, u := AfterRounds(w, t, rounds[..n]), AfterRounds(w, t, rounds);
      if before.end.Running? {
        RoundFollows(w, before, rounds[n]);
        forall i | 0 <= i < |u.requests| - 1
          ensures Follows(w, u.acts, u.requests[i], u.requests[i + 1], rounds[i])
        {
          assert rounds[i] == rounds[..n][i];
          if i == n - 1 {
            assert u.requests[i + 1] == before.messages;
          }
          FollowsLater(w, before.acts, u.acts, u.requests[i], u.requests[i + 1], rounds[i]);
        }
      }
    }
  }
}
