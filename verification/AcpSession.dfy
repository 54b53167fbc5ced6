/**
 * The ACP session as a transition system: two JSON-RPC peers over two FIFO frame channels, both
 * issuing calls, with handlers finishing in any order (acp/client.go, acp/server.go; sections 4 and 5
 * of the JSON-RPC 2.0 Specification).
 */
module AcpSession {
  import opened Wrappers

  datatype Reply = Result(value: string) | Error(message: string)

  // The three kinds of frames; params and results are opaque.
  datatype Frame = Request(id: int, body: string) | Response(id: int, reply: Reply) | Notification(body: string)

  // What a reply channel can hold.
  datatype Item = FromPeer(reply: Reply) | ConnectionClosed

  datatype Outcome = Got(reply: Reply) | GaveUp

  datatype Phase = Registered | Waiting | Returned(outcome: Outcome)

  datatype Call = Call(body: string, phase: Phase)

  datatype Running = Running(id: int, body: string)

  // An answer a handler computed, with the request it computed it from.
  datatype Answer = Answer(body: string, reply: Reply)

  /**
   * One endpoint. `pending` maps an id to its reply channel, named here by the id of the call that
   * made it; `slots` holds what each channel buffers. `delivering` is the reader between looking a
   * channel up and sending into it. `answers` records what the handlers replied, and to what, and `lost`
   * the requests whose reply could not be written.
   */
  datatype Peer = Peer(
    isClient: bool,
    lastID: int,
    pending: set<int>,
    slots: map<int, seq<Item>>,
    calls: map<int, Call>,
    delivering: Option<(int, Reply)>,
    running: seq<Running>,
    answers: map<int, Answer>,
    lost: set<int>,
    closed: bool)

  function NewPeer(isClient: bool): Peer {
    Peer(isClient, 0, {}, map[], map[], None, [], map[], {}, false)
  }

  datatype Local = Local(peer: Peer, inbox: seq<Frame>, outbox: seq<Frame>)

  datatype Action =
    | Begin(body: string)            // take an id, register a reply channel
    | Send(id: int)                  // write the request frame
    | SendFails(id: int)             // the write fails, the call returns
    | Receive                        // the reader takes one frame
    | Deliver                        // the reader sends into the channel it looked up
    | Finish(at: nat, reply: Reply)  // any running handler writes its reply
    | FinishLost(at: nat)            // the reply could not be written
    | Take(id: int)                  // a waiting call receives from its channel
    | Abandon(id: int)               // a waiting call gives up: closed connection, or cancelled context
    | Deregister(id: int)            // the deferred removal of a returned call
    | Close                          // the client's connection closes
    | CloseOne(id: int)              // closePending reaches one pending channel
    | Notify(body: string)           // write a notification

  predicate InPhase(p: Peer, id: int, phase: Phase) {
    id in p.calls && p.calls[id].phase == phase
  }

  predicate Enabled(l: Local, a: Action) {
    var p := l.peer;
    match a
    case Begin(_) => true
    case Send(id) => InPhase(p, id, Registered)
    case SendFails(id) => InPhase(p, id, Registered)
    case Receive => l.inbox != [] && p.delivering.None?
    case Deliver => p.delivering.Some? && p.delivering.value.0 in p.slots && p.slots[p.delivering.value.0] == []
    case Finish(at, _) => at < |p.running|
    case FinishLost(at) => at < |p.running|
    case Take(id) => InPhase(p, id, Waiting) && id in p.slots && p.slots[id] != []
    case Abandon(id) => InPhase(p, id, Waiting) && (p.closed || !p.isClient)
    case Deregister(id) => id in p.pending && id in p.calls && p.calls[id].phase.Returned?
    case Close => p.isClient && !p.closed
    case CloseOne(id) => p.closed && id in p.pending && id in p.slots && p.slots[id] == []
    case Notify(_) => true
  }

  function SetPhase(p: Peer, id: int, phase: Phase): Peer
    requires id in p.calls
  {
    p.(calls := p.calls[id := p.calls[id].(phase := phase)])
  }

  function HandleFrame(p: Peer, f: Frame): Peer {
    match f
    case Notification(_) => p
    case Request(id, body) => p.(running := p.running + [Running(id, body)])
    case Response(id, reply) => if id in p.pending then p.(delivering := Some((id, reply))) else p
  }

  function Step(l: Local, a: Action): Local
    requires Enabled(l, a)
  {
    var p := l.peer;
    match a
    case Begin(body) =>
      var id := p.lastID + 1;
      l.(peer := p.(lastID := id, pending := p.pending + {id}, slots := p.slots[id := []],
                    calls := p.calls[id := Call(body, Registered)]))
    case Send(id) =>
      Local(SetPhase(p, id, Waiting), l.inbox, l.outbox + [Request(id, p.calls[id].body)])
    case SendFails(id) => l.(peer := SetPhase(p, id, Returned(GaveUp)))
    case Receive => Local(HandleFrame(p, l.inbox[0]), l.inbox[1..], l.outbox)
    case Deliver =>
      var (id, reply) := p.delivering.value;
      l.(peer := p.(delivering := None, slots := p.slots[id := p.slots[id] + [FromPeer(reply)]]))
    case Finish(at, reply) =>
      var h := p.running[at];
      Local(p.(running := p.running[..at] + p.running[at + 1..], answers := p.answers[h.id := Answer(h.body, reply)]),
            l.inbox, l.outbox + [Response(h.id, reply)])
    case FinishLost(at) =>
      l.(peer := p.(running := p.running[..at] + p.running[at + 1..], lost := p.lost + {p.running[at].id}))
    case Take(id) =>
      var outcome := match p.slots[id][0] case FromPeer(reply) => Got(reply) case ConnectionClosed => GaveUp;
      l.(peer := SetPhase(p, id, Returned(outcome)).(slots := p.slots[id := p.slots[id][1..]]))
    case Abandon(id) => l.(peer := SetPhase(p, id, Returned(GaveUp)))
    case Deregister(id) => l.(peer := p.(pending := p.pending - {id}))
    case Close => l.(peer := p.(closed := true))
    case CloseOne(id) => l.(peer := p.(pending := p.pending - {id},
                                       slots := p.slots[id := p.slots[id] + [ConnectionClosed]]))
    case Notify(body) => l.(outbox := l.outbox + [Notification(body)])
  }

  datatype System = System(client: Peer, server: Peer, toServer: seq<Frame>, toClient: seq<Frame>)

  const START := System(NewPeer(true), NewPeer(false), [], [])

  // One step of either side.
  ghost predicate Next(s: System, t: System) {
    || (exists a :: Enabled(Local(s.client, s.toClient, s.toServer), a) &&
         var l := Step(Local(s.client, s.toClient, s.toServer), a);
         t == System(l.peer, s.server, l.outbox, l.inbox))
    || (exists a :: Enabled(Local(s.server, s.toServer, s.toClient), a) &&
         var l := Step(Local(s.server, s.toServer, s.toClient), a);
         t == System(s.client, l.peer, l.inbox, l.outbox))
  }

  ghost predicate Run(states: seq<System>) {
    states != [] && states[0] == START && forall i :: 0 <= i < |states| - 1 ==> Next(states[i], states[i + 1])
  }

  // ---- The invariant ----------------------------------------------------------------------

  // Where the single token of a call is: its request, its handler, its reply, or gone.
  datatype Stage = Unsent | InFlight | Handling | Replying | Delivering | Slotted | Gone

  // The callee answered this call, from the call's own request, with this reply.
  ghost predicate Answered(caller: Peer, callee: Peer, id: int, reply: Reply) {
    id in caller.calls && id in callee.answers && callee.answers[id] == Answer(caller.calls[id].body, reply)
  }

  // The half of the session in which one peer calls and the other answers.
  ghost predicate Half(a: Peer, b: Peer, ab: seq<Frame>, ba: seq<Frame>, stage: map<int, Stage>) {
    && Books(a, stage)
    && RequestsOnTheWay(a, ab, stage)
    && HandlersRunning(a, b, stage)
    && RepliesOnTheWay(a, b, ba, stage)
    && AtTheCaller(a, b, stage)
    && (forall id :: id in b.answers ==> id in stage && stage[id] !in {Unsent, InFlight, Handling})
  }

  ghost predicate Books(a: Peer, stage: map<int, Stage>) {
    && 0 <= a.lastID && (forall id :: id in a.calls ==> 1 <= id <= a.lastID)
    && a.slots.Keys == a.calls.Keys && a.pending <= a.calls.Keys && stage.Keys == a.calls.Keys
    && (forall id :: id in a.calls && a.calls[id].phase == Registered ==> stage[id] == Unsent)
  }

  ghost predicate RequestsOnTheWay(a: Peer, ab: seq<Frame>, stage: map<int, Stage>) {
    && (forall i :: 0 <= i < |ab| && ab[i].Request? ==>
          ab[i].id in stage && stage[ab[i].id] == InFlight && ab[i].id in a.calls
              && a.calls[ab[i].id].body == ab[i].body)
    && (forall i, j :: 0 <= i < j < |ab| && ab[i].Request? && ab[j].Request? ==> ab[i].id != ab[j].id)
  }

  ghost predicate HandlersRunning(a: Peer, b: Peer, stage: map<int, Stage>) {
    && (forall i :: 0 <= i < |b.running| ==>
          var h := b.running[i];
          h.id in stage && stage[h.id] == Handling && h.id in a.calls && a.calls[h.id].body == h.body)
    && (forall i, j :: 0 <= i < j < |b.running| ==> b.running[i].id != b.running[j].id)
  }

  ghost predicate RepliesOnTheWay(a: Peer, b: Peer, ba: seq<Frame>, stage: map<int, Stage>) {
    && (forall i :: 0 <= i < |ba| && ba[i].Response? ==>
          ba[i].id in stage && stage[ba[i].id] == Replying && Answered(a, b, ba[i].id, ba[i].reply))
    && (forall i, j :: 0 <= i < j < |ba| && ba[i].Response? && ba[j].Response? ==> ba[i].id != ba[j].id)
  }

  ghost predicate AtTheCaller(a: Peer, b: Peer, stage: map<int, Stage>) {
    && (a.delivering.Some? ==>
          var (id, reply) := a.delivering.value;
          id in stage && stage[id] == Delivering && Answered(a, b, id, reply))
    && (forall id :: id in a.slots ==> SlotHolds(a, b, id, stage))
    && (forall id :: id in a.calls && a.calls[id].phase.Returned? && a.calls[id].phase.outcome.Got? ==>
          id in stage && stage[id] == Gone && Answered(a, b, id, a.calls[id].phase.outcome.reply))
  }

  ghost predicate SlotHolds(a: Peer, b: Peer, id: int, stage: map<int, Stage>)
    requires id in a.slots
  {
    || a.slots[id] == []
    || (|a.slots[id]| == 1 &&
        match a.slots[id][0]
        case FromPeer(reply) => id in stage && stage[id] == Slotted && Answered(a, b, id, reply)
        case ConnectionClosed => a.closed)
  }

  // How a step of the caller moves a token.
  function CallerStage(l: Local, a: Action, stage: map<int, Stage>): map<int, Stage>
    requires Enabled(l, a)
  {
    match a
    case Begin(_) => stage[l.peer.lastID + 1 := Unsent]
    case Send(id) => stage[id := InFlight]
    case Receive =>
      if l.inbox[0].Response? then stage[l.inbox[0].id := if l.inbox[0].id in l.peer.pending then Delivering else Gone]
      else stage
    case Deliver => stage[l.peer.delivering.value.0 := Slotted]
    case Take(id) => if l.peer.slots[id][0].FromPeer? then stage[id := Gone] else stage
    case _ => stage
  }

  // How a step of the callee moves a token.
  function CalleeStage(l: Local, a: Action, stage: map<int, Stage>): map<int, Stage>
    requires Enabled(l, a)
  {
    match a
    case Receive => if l.inbox[0].Request? then stage[l.inbox[0].id := Handling] else stage
    case Finish(at, _) => stage[l.peer.running[at].id := Replying]
    case FinishLost(at) => stage[l.peer.running[at].id := Gone]
    case _ => stage
  }
}
