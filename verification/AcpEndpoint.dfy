/** One endpoint of an ACP session: the locked sections of acp/client.go and acp/server.go as methods. */
module AcpEndpoint {
  import opened Wrappers
  import opened AcpCorrelation
  import opened AcpDelivery
  import opened AcpSession

  class Endpoint {
    const isClient: bool
    var lastID: int
    var pending: set<int>
    var slots: map<int, seq<Item>>
    var calls: map<int, Call>
    var delivering: Option<(int, Reply)>
    var running: seq<Running>
    var answers: map<int, Answer>
    var lost: set<int>
    var closed: bool
    var outbox: seq<Frame>

    constructor (isClient: bool)
      ensures Value() == NewPeer(isClient) && outbox == []
    {
      this.isClient, lastID, pending, slots, calls := isClient, 0, {}, map[], map[];
      delivering, running, answers, lost, closed, outbox := None, [], map[], {}, false, [];
    }

    function Value(): Peer
      reads this
    {
      Peer(isClient, lastID, pending, slots, calls, delivering, running, answers, lost, closed)
    }

    function Around(inbox: seq<Frame>): Local
      reads this
    {
      Local(Value(), inbox, outbox)
    }

    // The counter, the channel and its entry in the pending map.
    method BeginCall(body: string) returns (id: int)
      modifies this
      ensures Around([]) == Step(old(Around([])), Begin(body))
      ensures id == lastID == old(lastID) + 1 && calls == old(calls)[id := Call(body, Registered)]
      ensures slots == old(slots)[id := []] && pending == old(pending) + {id} && outbox == old(outbox)
    {
      lastID := lastID + 1;
      id := lastID;
      slots := slots[id := []];
      pending := pending + {id};
      calls := calls[id := Call(body, Registered)];
    }

    // The write under the write lock: the frame goes out, or the call returns the write error.
    method WriteRequest(id: int, succeeds: bool)
      requires InPhase(Value(), id, Registered)
      modifies this
      ensures Around([]) == Step(old(Around([])), if succeeds then Send(id) else SendFails(id))
      ensures calls == old(calls)[id := old(calls[id]).(phase := if succeeds then Waiting else Returned(GaveUp))]
      ensures outbox == old(outbox) + if succeeds then [Request(id, old(calls[id].body))] else []
    {
      if succeeds {
        outbox := outbox + [Request(id, calls[id].body)];
        calls := calls[id := calls[id].(phase := Waiting)];
      } else {
        calls := calls[id := calls[id].(phase := Returned(GaveUp))];
      }
    }

    // The reader's dispatch of one frame; a reply without a pending channel is dropped.
    method HandleOne(f: Frame, ghost rest: seq<Frame>)
      requires delivering.None?
      modifies this
      ensures Around(rest) == Step(old(Around([f] + rest)), Action.Receive)
      ensures running == old(running) + if f.Request? then [Running(f.id, f.body)] else []
      ensures delivering == if f.Response? && f.id in old(pending) then Some((f.id, f.reply)) else None
      ensures slots == old(slots) && calls == old(calls) && pending == old(pending) && outbox == old(outbox)
    {
      assert ([f] + rest)[1..] == rest;
      match f
      case Notification(_) =>
      case Request(id, body) => running := running + [Running(id, body)];
      case Response(id, reply) =>
        if id in pending {
          delivering := Some((id, reply));
        }
    }

    // The send into the looked-up channel, outside the lock; `blocked` says the buffer was full.
    method SendToChannel() returns (blocked: bool)
      requires delivering.Some? && delivering.value.0 in slots
      modifies this
      ensures blocked <==> old(slots[delivering.value.0]) != []
      ensures !blocked ==> Around([]) == Step(old(Around([])), Action.Deliver)
      ensures !blocked ==>
                && slots == old(slots)[old(delivering.value.0) := [FromPeer(old(delivering.value.1))]]
                && delivering == None && calls == old(calls) && pending == old(pending)
      ensures blocked ==> Around([]) == old(Around([]))
    {
      var (id, reply) := delivering.value;
      blocked := slots[id] != [];
      if !blocked {
        assert slots[id] + [FromPeer(reply)] == [FromPeer(reply)];
        slots := slots[id := slots[id] + [FromPeer(reply)]];
        delivering := None;
      }
    }

    // A handler, whichever finishes, writes its one reply, or loses it to a write error.
    method FinishHandler(at: nat, reply: Reply, succeeds: bool)
      requires at < |running|
      modifies this
      ensures Around([]) == Step(old(Around([])), if succeeds then Finish(at, reply) else FinishLost(at))
      ensures running == old(running[..at]) + old(running[at + 1..])
      ensures outbox == old(outbox) + if succeeds then [Response(old(running[at].id), reply)] else []
      ensures answers == if succeeds then old(answers)[old(running[at].id) := Answer(old(running[at].body), reply)]
                         else old(answers)
      ensures lost == if succeeds then old(lost) else old(lost) + {old(running[at].id)}
    {
      var h := running[at];
      running := running[..at] + running[at + 1..];
      if succeeds {
        answers := answers[h.id := Answer(h.body, reply)];
        outbox := outbox + [Response(h.id, reply)];
      } else {
        lost := lost + {h.id};
      }
    }

    // The select of a waiting call: it takes what its channel holds, or gives up when it may; when both
    // branches are ready the runtime chooses.
    method Select(id: int, givesUp: bool) returns (outcome: Outcome)
      requires InPhase(Value(), id, Waiting) && id in slots
      requires if givesUp then closed || !isClient else slots[id] != []
      modifies this
      ensures Around([]) == Step(old(Around([])), if givesUp then Abandon(id) else Take(id))
      ensures calls == old(calls)[id := old(calls[id]).(phase := Returned(outcome))] && outbox == old(outbox)
      ensures outcome == if !givesUp && old(slots[id][0]).FromPeer? then Got(old(slots[id][0]).reply) else GaveUp
      ensures slots == if givesUp then old(slots) else old(slots)[id := old(slots[id][1..])]
    {
      if givesUp {
        outcome := GaveUp;
      } else {
        outcome := match slots[id][0] case FromPeer(reply) => Got(reply) case ConnectionClosed => GaveUp;
        slots := slots[id := slots[id][1..]];
      }
      calls := calls[id := calls[id].(phase := Returned(outcome))];
    }

    method RemovePending(id: int)
      requires id in pending && id in calls && calls[id].phase.Returned?
      modifies this
      ensures Around([]) == Step(old(Around([])), Deregister(id))
      ensures pending == old(pending) - {id} && calls == old(calls) && slots == old(slots)
    {
      pending := pending - {id};
    }

    // One turn of closePending's loop over the pending channels.
    method ClosePendingOne(id: int)
      requires closed && id in pending && id in slots && slots[id] == []
      modifies this
      ensures Around([]) == Step(old(Around([])), CloseOne(id))
      ensures slots == old(slots)[id := [ConnectionClosed]] && pending == old(pending) - {id} && calls == old(calls)
    {
      assert slots[id] + [ConnectionClosed] == [ConnectionClosed];
      slots := slots[id := slots[id] + [ConnectionClosed]];
      pending := pending - {id};
    }

    // closePending marks the connection closed first.
    method MarkClosed()
      requires isClient && !closed
      modifies this
      ensures Around([]) == Step(old(Around([])), Close)
      ensures closed && calls == old(calls) && slots == old(slots) && pending == old(pending)
    {
      closed := true;
    }

    method SendNotification(body: string)
      modifies this
      ensures Around([]) == Step(old(Around([])), Notify(body))
      ensures outbox == old(outbox) + [Notification(body)] && calls == old(calls)
    {
      outbox := outbox + [Notification(body)];
    }
  }

  // An action changes an endpoint and its outbox alike, whatever waits in its inbox, unless it reads it.
  lemma {:induction false} InboxIsApart(l: Local, a: Action)
    requires Enabled(l, a) && !a.Receive?
    ensures Enabled(l.(inbox := []), a) && Step(l, a) == Step(l.(inbox := []), a).(inbox := l.inbox)
  {
  }

  /** One action of one endpoint; its inbox is the other's outbox. */
  method Perform(me: Endpoint, other: Endpoint, a: Action)
    requires me != other && Enabled(me.Around(other.outbox), a)
    requires WaitingHaveSlots(me.Value())
    modifies me, other`outbox
    ensures me.Around(other.outbox) == Step(old(me.Around(other.outbox)), a)
    ensures other.Value() == old(other.Value())
  {
    if !a.Receive? {
      InboxIsApart(me.Around(other.outbox), a);
    }
    match a {
      case Begin(body) => var _ := me.BeginCall(body);
      case Send(id) => me.WriteRequest(id, true);
      case SendFails(id) => me.WriteRequest(id, false);
      case Receive =>
        var f := other.outbox[0];
        ghost var rest := other.outbox[1..];
        assert [f] + rest == other.outbox;
        me.HandleOne(f, rest);
        other.outbox := other.outbox[1..];
      case Deliver => var _ := me.SendToChannel();
      case Finish(at, reply) => me.FinishHandler(at, reply, true);
      case FinishLost(at) => me.FinishHandler(at, Reply.Error(""), false);
      case Take(id) => var _ := me.Select(id, false);
      case Abandon(id) => var _ := me.Select(id, true);
      case Deregister(id) => me.RemovePending(id);
      case Close => me.MarkClosed();
      case CloseOne(id) => me.ClosePendingOne(id);
      case Notify(body) => me.SendNotification(body);
    }
  }

  // A call that waits has its channel.
  predicate WaitingHaveSlots(p: Peer) {
    forall id :: id in p.calls ==> id in p.slots
  }

  lemma {:induction false} ReachableHaveSlots(states: seq<System>)
    requires AcpSession.Run(states)
    ensures var s := states[|states| - 1]; WaitingHaveSlots(s.client) && WaitingHaveSlots(s.server)
  {
    hide Next;
    ReachableIsInvariant(states, |states| - 1);
    var s := states[|states| - 1];
    var asCaller :| Half(s.client, s.server, s.toServer, s.toClient, asCaller);
    var asCallee :| Half(s.server, s.client, s.toClient, s.toServer, asCallee);
    hide RequestsOnTheWay, HandlersRunning, RepliesOnTheWay, AtTheCaller;
  }

  /**
   * Two endpoints driven by any script, in which an action that is not enabled is passed over: their
   * values and outboxes form a run of the session, so replies reach their calls, no call is forgotten and
   * the readers never block.
   */
  method Drive(script: seq<(bool, Action)>) returns (client: Endpoint, server: Endpoint, ghost states: seq<System>)
    ensures fresh(client) && fresh(server) && client != server
    ensures AcpSession.Run(states)
    ensures states[|states| - 1] == System(client.Value(), server.Value(), client.outbox, server.outbox)
    ensures Correlated(client.Value(), server.Value()) && Correlated(server.Value(), client.Value())
    ensures NeverBlocks(client.Value()) && NeverBlocks(server.Value())
    ensures AllRemembered(client.Value(), server.Value(), client.outbox, server.outbox)
            && AllRemembered(server.Value(), client.Value(), server.outbox, client.outbox)
  {
    hide Step, Enabled, Next;
    client := new Endpoint(true);
    server := new Endpoint(false);
    states := [START];
    for i := 0 to |script|
      invariant client != server && fresh(client) && fresh(server)
      invariant AcpSession.Run(states)
      invariant states[|states| - 1] == System(client.Value(), server.Value(), client.outbox, server.outbox)
    {
      var (byClient, a) := script[i];
      ReachableHaveSlots(states);
      ghost var s := states[|states| - 1];
      if byClient && Enabled(client.Around(server.outbox), a) {
        Perform(client, server, a);
        ClientStep(s, a);
        states := states + [System(client.Value(), server.Value(), client.outbox, server.outbox)];
      } else if !byClient && Enabled(server.Around(client.outbox), a) {
        Perform(server, client, a);
        ServerStep(s, a);
        states := states + [System(client.Value(), server.Value(), client.outbox, server.outbox)];
      }
    }
    RepliesReachTheirCalls(states, |states| - 1);
    NoCallIsForgotten(states, |states| - 1);
    hide AllRemembered;
  }

  lemma {:induction false} ClientStep(s: System, a: Action)
    requires Enabled(Local(s.client, s.toClient, s.toServer), a)
    ensures var l := Step(Local(s.client, s.toClient, s.toServer), a);
            Next(s, System(l.peer, s.server, l.outbox, l.inbox))
  {
    hide Step, Enabled;
  }

  lemma {:induction false} ServerStep(s: System, a: Action)
    requires Enabled(Local(s.server, s.toServer, s.toClient), a)
    ensures var l := Step(Local(s.server, s.toServer, s.toClient), a);
            Next(s, System(s.client, l.peer, l.inbox, l.outbox))
  {
    hide Step, Enabled;
  }
}
