/** No call of an ACP session is forgotten, and none gives up without a reason (acp/client.go, acp/server.go). */
module AcpDelivery {
  import opened AcpCorrelation
  import opened AcpSession
  import opened Wrappers

  // ---- No call is forgotten ---------------------------------------------------------------

  // The request of a call is on the wire or handled, or a reply is on the wire or looked up, or was lost.
  ghost predicate OnTheWay(a: Peer, b: Peer, ab: seq<Frame>, ba: seq<Frame>, id: int)
    requires id in a.calls
  {
    || Request(id, a.calls[id].body) in ab
    || Running(id, a.calls[id].body) in b.running
    || (exists reply :: Response(id, reply) in ba)
    || (a.delivering.Some? && a.delivering.value.0 == id)
    || id in b.lost
  }

  // A call that has not returned holds an item in its channel, or its channel is pending and, once the
  // request is sent, something is on the way.
  ghost predicate Remembered(a: Peer, b: Peer, ab: seq<Frame>, ba: seq<Frame>, id: int)
    requires id in a.calls
  {
    id in a.slots &&
    (a.slots[id] != [] || (id in a.pending && (a.calls[id].phase == Waiting ==> OnTheWay(a, b, ab, ba, id))))
  }

  ghost predicate AllRemembered(a: Peer, b: Peer, ab: seq<Frame>, ba: seq<Frame>) {
    forall id :: id in a.calls && !a.calls[id].phase.Returned? ==> Remembered(a, b, ab, ba, id)
  }

  lemma {:induction false} OtherFramesStay(frames: seq<Frame>, f: Frame)
    requires frames != [] && f != frames[0] && f in frames
    ensures f in frames[1..]
  {
    assert frames == [frames[0]] + frames[1..];
  }

  lemma {:induction false} CallerRemembers(l: Local, act: Action, b: Peer, id: int)
    requires Enabled(l, act) && l.peer.lastID + 1 !in l.peer.calls
    requires AllRemembered(l.peer, b, l.outbox, l.inbox)
    requires id in Step(l, act).peer.calls && !Step(l, act).peer.calls[id].phase.Returned?
    ensures Remembered(Step(l, act).peer, b, Step(l, act).outbox, Step(l, act).inbox, id)
  {
    var p, m := l.peer, Step(l, act);
    if id in p.calls {
      assert Remembered(p, b, l.outbox, l.inbox, id);
      if act.Receive? {
        ReadingRemembers(l, b, id);
      } else if act.Send? && act.id == id {
        assert m.outbox[|l.outbox|] == Request(id, p.calls[id].body);
      }
    }
  }

  lemma {:induction false} ReadingRemembers(l: Local, b: Peer, id: int)
    requires Enabled(l, Receive) && id in l.peer.calls && Remembered(l.peer, b, l.outbox, l.inbox, id)
    ensures var m := Step(l, Receive); id in m.peer.calls && Remembered(m.peer, b, m.outbox, m.inbox, id)
  {
    if reply :| Response(id, reply) in l.inbox {
      if l.inbox[0] != Response(id, reply) {
        OtherFramesStay(l.inbox, Response(id, reply));
      }
    }
  }

  lemma {:induction false} CalleeRemembers(l: Local, act: Action, a: Peer, id: int)
    requires Enabled(l, act) && id in a.calls && Remembered(a, l.peer, l.inbox, l.outbox, id)
    ensures Remembered(a, Step(l, act).peer, Step(l, act).inbox, Step(l, act).outbox, id)
  {
    var m, body := Step(l, act), a.calls[id].body;
    if Request(id, body) in l.inbox && act.Receive? {
      if l.inbox[0] == Request(id, body) {
        assert m.peer.running[|l.peer.running|] == Running(id, body);
      } else {
        OtherFramesStay(l.inbox, Request(id, body));
      }
    }
    if Running(id, body) in l.peer.running && (act.Finish? || act.FinishLost?) {
      var i :| 0 <= i < |l.peer.running| && l.peer.running[i] == Running(id, body);
      if act.at == i {
        assert act.Finish? ==> m.outbox[|l.outbox|] == Response(id, act.reply);
      } else if i < act.at {
        assert m.peer.running[i] == Running(id, body);
      } else {
        assert m.peer.running[i - 1] == Running(id, body);
      }
    }
    if reply :| Response(id, reply) in l.outbox {
      assert Response(id, reply) in m.outbox;
    }
  }

  ghost predicate Delivered(s: System) {
    AllRemembered(s.client, s.server, s.toServer, s.toClient)
        && AllRemembered(s.server, s.client, s.toClient, s.toServer)
  }

  lemma {:induction false} CallerRemembersAll(l: Local, act: Action, b: Peer, stage: map<int, Stage>)
    requires Enabled(l, act) && Half(l.peer, b, l.outbox, l.inbox, stage)
    requires AllRemembered(l.peer, b, l.outbox, l.inbox)
    ensures AllRemembered(Step(l, act).peer, b, Step(l, act).outbox, Step(l, act).inbox)
  {
    NextIDIsFresh(l.peer, b, l.outbox, l.inbox, stage);
    hide Half, Step, Remembered;
    var m := Step(l, act);
    forall id | id in m.peer.calls && !m.peer.calls[id].phase.Returned?
      ensures Remembered(m.peer, b, m.outbox, m.inbox, id)
    {
      CallerRemembers(l, act, b, id);
    }
  }

  lemma {:induction false} CalleeRemembersAll(l: Local, act: Action, a: Peer)
    requires Enabled(l, act) && AllRemembered(a, l.peer, l.inbox, l.outbox)
    ensures AllRemembered(a, Step(l, act).peer, Step(l, act).inbox, Step(l, act).outbox)
  {
    hide Step, Remembered, Enabled;
    var m := Step(l, act);
    forall id | id in a.calls && !a.calls[id].phase.Returned?
      ensures Remembered(a, m.peer, m.inbox, m.outbox, id)
    {
      CalleeRemembers(l, act, a, id);
    }
  }

  lemma {:induction false} NextRemembers(s: System, t: System)
    requires Invariant(s) && Delivered(s) && Next(s, t)
    ensures Delivered(t)
  {
    hide Half, Step, Enabled, AllRemembered;
    var asCaller :| Half(s.client, s.server, s.toServer, s.toClient, asCaller);
    var asCallee :| Half(s.server, s.client, s.toClient, s.toServer, asCallee);
    var c, v := Local(s.client, s.toClient, s.toServer), Local(s.server, s.toServer, s.toClient);
    if act :| Enabled(c, act) && t == System(Step(c, act).peer, s.server, Step(c, act).outbox, Step(c, act).inbox) {
      CallerRemembersAll(c, act, s.server, asCaller);
      CalleeRemembersAll(c, act, s.server);
    } else {
      var act :| Enabled(v, act) && t == System(s.client, Step(v, act).peer, Step(v, act).inbox, Step(v, act).outbox);
      CallerRemembersAll(v, act, s.client, asCallee);
      CalleeRemembersAll(v, act, s.client);
    }
  }

  /**
   * No call is forgotten: in every reachable state a call that waits holds an item in its channel, or its
   * request is on the wire or handled, or a reply to it is on the wire or looked up, or the other side could
   * not write the reply.
   */
  lemma {:induction false} NoCallIsForgotten(states: seq<System>, i: nat)
    requires Run(states) && i < |states|
    ensures Delivered(states[i])
  {
    hide Invariant, Next, Delivered;
    if i == 0 {
      assert Delivered(START) by { NobodyWaits(); }
    } else {
      NoCallIsForgotten(states, i - 1);
      ReachableIsInvariant(states, i - 1);
      NextRemembers(states[i - 1], states[i]);
    }
  }

  lemma {:induction false} NobodyWaits()
    ensures Delivered(START)
  {
  }

  // ---- What a call returns ----------------------------------------------------------------

  // What a waiting call may return with: the one reply its channel holds, when it takes from it; nothing
  // when it is told that the connection closed, or gives up, which leaves its channel alone.
  ghost predicate Justified(p: Peer, q: Peer, id: int)
    requires id in p.calls && id in q.calls && q.calls[id].phase.Returned? && id in p.slots && id in q.slots
  {
    var outcome := q.calls[id].phase.outcome;
    && (outcome.Got? ==> p.slots[id] == [FromPeer(outcome.reply)] && q.slots[id] == [])
    && (outcome.GaveUp? ==>
          && (p.closed || !p.isClient)
          && (p.slots[id] == [ConnectionClosed] || q.slots[id] == p.slots[id]))
  }

  lemma {:induction false} StepJustifies(l: Local, act: Action, b: Peer, stage: map<int, Stage>, id: int)
    requires Enabled(l, act) && Half(l.peer, b, l.outbox, l.inbox, stage)
    requires InPhase(l.peer, id, Waiting)
    requires id in Step(l, act).peer.calls && Step(l, act).peer.calls[id].phase.Returned?
    ensures id in l.peer.slots && id in Step(l, act).peer.slots && Justified(l.peer, Step(l, act).peer, id)
  {
    hide RequestsOnTheWay, HandlersRunning, RepliesOnTheWay;
    NextIDIsFresh(l.peer, b, l.outbox, l.inbox, stage);
    assert SlotHolds(l.peer, b, id, stage);
  }

  ghost predicate AllJustified(p: Peer, q: Peer) {
    forall id :: InPhase(p, id, Waiting) && id in q.calls && q.calls[id].phase.Returned? ==>
      id in p.slots && id in q.slots && Justified(p, q, id)
  }

  lemma {:induction false} StepJustifiesAll(l: Local, act: Action, b: Peer, stage: map<int, Stage>)
    requires Enabled(l, act) && Half(l.peer, b, l.outbox, l.inbox, stage)
    ensures AllJustified(l.peer, Step(l, act).peer)
  {
    hide Half, Step, Enabled, Justified;
    forall id | InPhase(l.peer, id, Waiting) && id in Step(l, act).peer.calls
                && Step(l, act).peer.calls[id].phase.Returned?
      ensures id in l.peer.slots && id in Step(l, act).peer.slots && Justified(l.peer, Step(l, act).peer, id)
    {
      StepJustifies(l, act, b, stage, id);
    }
  }

  lemma {:induction false} NothingReturns(p: Peer)
    ensures AllJustified(p, p)
  {
  }

  /**
   * A call returns for a reason: over every step of a run, a waiting call that returns a reply took the one
   * its channel held, and one that gives up was told so by its channel or left it alone; on the client
   * only once the connection is closed.
   */
  lemma {:induction false} CallsReturnForAReason(states: seq<System>, i: nat)
    requires Run(states) && i + 1 < |states|
    ensures AllJustified(states[i].client, states[i + 1].client) && AllJustified(states[i].server, states[i + 1].server)
  {
    hide Half, Step, Enabled, AllJustified;
    ReachableIsInvariant(states, i);
    var s, t := states[i], states[i + 1];
    assert Next(s, t);
    var asCaller :| Half(s.client, s.server, s.toServer, s.toClient, asCaller);
    var asCallee :| Half(s.server, s.client, s.toClient, s.toServer, asCallee);
    var c, v := Local(s.client, s.toClient, s.toServer), Local(s.server, s.toServer, s.toClient);
    NothingReturns(s.client);
    NothingReturns(s.server);
    if act :| Enabled(c, act) && t == System(Step(c, act).peer, s.server, Step(c, act).outbox, Step(c, act).inbox) {
      StepJustifiesAll(c, act, s.server, asCaller);
    } else {
      var act :| Enabled(v, act) && t == System(s.client, Step(v, act).peer, Step(v, act).inbox, Step(v, act).outbox);
      StepJustifiesAll(v, act, s.client, asCallee);
    }
  }

  // A call begins registered, and a closed connection stays closed.
  ghost predicate Grows(p: Peer, q: Peer) {
    && (p.closed ==> q.closed)
    && forall id :: id in q.calls && id !in p.calls ==> q.calls[id].phase == Registered
  }

  lemma {:induction false} StepGrows(l: Local, act: Action)
    requires Enabled(l, act)
    ensures Grows(l.peer, Step(l, act).peer)
  {
  }

  lemma {:induction false} ClientGrows(s: System, t: System)
    requires Next(s, t)
    ensures Grows(s.client, t.client)
  {
    hide Step, Enabled;
    var c := Local(s.client, s.toClient, s.toServer);
    if act :| Enabled(c, act) && t == System(Step(c, act).peer, s.server, Step(c, act).outbox, Step(c, act).inbox) {
      StepGrows(c, act);
    }
  }

  /**
   * While the connection is open, a client's call that returned without a reply is one whose request could
   * not be written: it went from registered to returned and never waited.
   */
  lemma {:induction false} OpenClientsGiveUpUnsent(states: seq<System>, i: nat, id: int) returns (j: nat)
    requires Run(states) && i < |states| && !states[i].client.closed && InPhase(states[i].client, id, Returned(GaveUp))
    ensures j < i && InPhase(states[j].client, id, Registered) && InPhase(states[j + 1].client, id, Returned(GaveUp))
  {
    hide Next, Settled, AllJustified;
    j := 0;
    if i > 0 {
      assert Next(states[i - 1], states[i]);
      ClientGrows(states[i - 1], states[i]);
      OutcomesAreFinal(states, i - 1, i);
      CallsReturnForAReason(states, i - 1);
      ReachableIsInvariant(states, i - 1);
      FateOfOne(states[i - 1].client, states[i].client, id);
      if InPhase(states[i - 1].client, id, Registered) {
        j := i - 1;
      } else {
        j := OpenClientsGiveUpUnsent(states, i - 1, id);
      }
    }
  }

  lemma {:induction false} FateOfOne(p: Peer, q: Peer, id: int)
    requires Settled(p, q) && AllJustified(p, q) && InPhase(q, id, Returned(GaveUp))
    requires id in p.calls && p.isClient && !p.closed
    ensures InPhase(p, id, Registered) || InPhase(p, id, Returned(GaveUp))
  {
  }

  // ---- The way of a call ------------------------------------------------------------------

  /** A registered call is sent; the other side, reading its request, runs it, and its answer is written. */
  lemma {:induction false} RequestsAreAnswered(l: Local, id: int, m: Local, rest: seq<Frame>, reply: Reply)
    requires InPhase(l.peer, id, Registered)
    requires m.inbox == [Request(id, l.peer.calls[id].body)] + rest && m.peer.delivering.None?
    ensures Enabled(l, Send(id)) && Step(l, Send(id)).outbox == l.outbox + [Request(id, l.peer.calls[id].body)]
    ensures InPhase(Step(l, Send(id)).peer, id, Waiting)
    ensures Enabled(m, Receive) && Step(m, Receive).inbox == rest
    ensures var n := Step(m, Receive);
            && Enabled(n, Finish(|m.peer.running|, reply))
            && Step(n, Finish(|m.peer.running|, reply)).outbox == m.outbox + [Response(id, reply)]
            && Step(n, Finish(|m.peer.running|, reply)).peer.running == m.peer.running
  {
  }

  /** A waiting call whose reply is read, delivered and taken returns that reply. */
  lemma {:induction false} RepliesAreReturned(l: Local, id: int, reply: Reply, rest: seq<Frame>)
    requires InPhase(l.peer, id, Waiting) && id in l.peer.pending && id in l.peer.slots && l.peer.slots[id] == []
    requires l.inbox == [Response(id, reply)] + rest && l.peer.delivering.None?
    ensures Enabled(l, Receive)
    ensures var read := Step(l, Receive);
            && read.inbox == rest && Enabled(read, Deliver)
            && var delivered := Step(read, Deliver);
               && Enabled(delivered, Take(id))
               && InPhase(Step(delivered, Take(id)).peer, id, Returned(Got(reply)))
  {
  }
}
