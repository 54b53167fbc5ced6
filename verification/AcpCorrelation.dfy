/** Every reachable state of an ACP session keeps replies with their calls. */
module AcpCorrelation {
  import opened Wrappers
  import opened AcpSession

  // A fresh id has no token yet.
  lemma {:induction false} CallerBeginsKeepingSlots(l: Local, act: Action, b: Peer, stage: map<int, Stage>)
    requires act.Begin?
    requires Enabled(l, act) && Half(l.peer, b, l.outbox, l.inbox, stage)
    ensures AtTheCaller(Step(l, act).peer, b, CallerStage(l, act, stage))
  {
    hide RequestsOnTheWay, RepliesOnTheWay;
  }

  lemma {:induction false} CallerBeginsKeepingWires(l: Local, act: Action, b: Peer, stage: map<int, Stage>)
    requires act.Begin?
    requires Enabled(l, act) && Half(l.peer, b, l.outbox, l.inbox, stage)
    ensures RequestsOnTheWay(Step(l, act).peer, Step(l, act).outbox, CallerStage(l, act, stage))
    ensures RepliesOnTheWay(Step(l, act).peer, b, Step(l, act).inbox, CallerStage(l, act, stage))
  {
    hide AtTheCaller, HandlersRunning;
  }

  lemma {:induction false} CallerBegins(l: Local, act: Action, b: Peer, stage: map<int, Stage>)
    requires act.Begin?
    requires Enabled(l, act) && Half(l.peer, b, l.outbox, l.inbox, stage)
    ensures Half(Step(l, act).peer, b, Step(l, act).outbox, Step(l, act).inbox, CallerStage(l, act, stage))
  {
    CallerBeginsKeepingSlots(l, act, b, stage);
    CallerBeginsKeepingWires(l, act, b, stage);
    hide AtTheCaller, RequestsOnTheWay, RepliesOnTheWay;
  }

  // The token becomes the request on the wire.
  lemma {:induction false} CallerSendsKeepingSlots(l: Local, act: Action, b: Peer, stage: map<int, Stage>)
    requires act.Send?
    requires Enabled(l, act) && Half(l.peer, b, l.outbox, l.inbox, stage)
    ensures AtTheCaller(Step(l, act).peer, b, CallerStage(l, act, stage))
  {
    hide RequestsOnTheWay, RepliesOnTheWay;
  }

  lemma {:induction false} CallerSendsKeepingWires(l: Local, act: Action, b: Peer, stage: map<int, Stage>)
    requires act.Send?
    requires Enabled(l, act) && Half(l.peer, b, l.outbox, l.inbox, stage)
    ensures RequestsOnTheWay(Step(l, act).peer, Step(l, act).outbox, CallerStage(l, act, stage))
    ensures RepliesOnTheWay(Step(l, act).peer, b, Step(l, act).inbox, CallerStage(l, act, stage))
  {
    hide AtTheCaller, HandlersRunning;
  }

  lemma {:induction false} CallerSends(l: Local, act: Action, b: Peer, stage: map<int, Stage>)
    requires act.Send?
    requires Enabled(l, act) && Half(l.peer, b, l.outbox, l.inbox, stage)
    ensures Half(Step(l, act).peer, b, Step(l, act).outbox, Step(l, act).inbox, CallerStage(l, act, stage))
  {
    CallerSendsKeepingSlots(l, act, b, stage);
    CallerSendsKeepingWires(l, act, b, stage);
    hide AtTheCaller, RequestsOnTheWay, RepliesOnTheWay;
  }

  // What the reader holds is an answer to the call of its id.
  lemma {:induction false} ReadReplyIsAnswered(l: Local, act: Action, b: Peer, stage: map<int, Stage>)
    requires act.Receive? && l.inbox != [] && l.inbox[0].Response?
    requires Enabled(l, act) && Half(l.peer, b, l.outbox, l.inbox, stage)
    ensures AtTheCaller(Step(l, act).peer, b, CallerStage(l, act, stage))
  {
  }

  // A reply is taken off the wire; without a pending channel its token is gone.
  lemma {:induction false} CallerReadsReplyKeepingWires(l: Local, act: Action, b: Peer, stage: map<int, Stage>)
    requires act.Receive? && l.inbox != [] && l.inbox[0].Response?
    requires Enabled(l, act) && Half(l.peer, b, l.outbox, l.inbox, stage)
    ensures RequestsOnTheWay(Step(l, act).peer, Step(l, act).outbox, CallerStage(l, act, stage))
    ensures RepliesOnTheWay(Step(l, act).peer, b, Step(l, act).inbox, CallerStage(l, act, stage))
  {
    hide AtTheCaller, HandlersRunning;
  }

  lemma {:induction false} CallerReadsReply(l: Local, act: Action, b: Peer, stage: map<int, Stage>)
    requires act.Receive? && l.inbox != [] && l.inbox[0].Response?
    requires Enabled(l, act) && Half(l.peer, b, l.outbox, l.inbox, stage)
    ensures Half(Step(l, act).peer, b, Step(l, act).outbox, Step(l, act).inbox, CallerStage(l, act, stage))
  {
    ReadReplyIsAnswered(l, act, b, stage);
    CallerReadsReplyKeepingWires(l, act, b, stage);
    hide AtTheCaller, RequestsOnTheWay, RepliesOnTheWay;
  }

  // Requests and notifications concern the other half.
  lemma {:induction false} CallerReadsOtherKeepingSlots(l: Local, act: Action, b: Peer, stage: map<int, Stage>)
    requires act.Receive? && l.inbox != [] && !l.inbox[0].Response?
    requires Enabled(l, act) && Half(l.peer, b, l.outbox, l.inbox, stage)
    ensures AtTheCaller(Step(l, act).peer, b, CallerStage(l, act, stage))
  {
    hide RequestsOnTheWay, RepliesOnTheWay;
  }

  lemma {:induction false} CallerReadsOther(l: Local, act: Action, b: Peer, stage: map<int, Stage>)
    requires act.Receive? && l.inbox != [] && !l.inbox[0].Response?
    requires Enabled(l, act) && Half(l.peer, b, l.outbox, l.inbox, stage)
    ensures Half(Step(l, act).peer, b, Step(l, act).outbox, Step(l, act).inbox, CallerStage(l, act, stage))
  {
    CallerReadsOtherKeepingSlots(l, act, b, stage);
    hide AtTheCaller;
  }

  // The reply enters the channel of its call.
  lemma {:induction false} CallerDeliversKeepingSlots(l: Local, act: Action, b: Peer, stage: map<int, Stage>)
    requires act.Deliver?
    requires Enabled(l, act) && Half(l.peer, b, l.outbox, l.inbox, stage)
    ensures AtTheCaller(Step(l, act).peer, b, CallerStage(l, act, stage))
  {
    hide RequestsOnTheWay, RepliesOnTheWay;
  }

  lemma {:induction false} CallerDelivers(l: Local, act: Action, b: Peer, stage: map<int, Stage>)
    requires act.Deliver?
    requires Enabled(l, act) && Half(l.peer, b, l.outbox, l.inbox, stage)
    ensures Half(Step(l, act).peer, b, Step(l, act).outbox, Step(l, act).inbox, CallerStage(l, act, stage))
  {
    CallerDeliversKeepingSlots(l, act, b, stage);
    hide AtTheCaller;
  }

  // What the call takes is the answer to it, and the other channels are as they were.
  lemma {:induction false} TakenReplyIsAnswered(l: Local, act: Action, b: Peer, stage: map<int, Stage>)
    requires act.Take? && act.id in l.peer.slots && l.peer.slots[act.id] != [] && l.peer.slots[act.id][0].FromPeer?
    requires Enabled(l, act) && Half(l.peer, b, l.outbox, l.inbox, stage)
    ensures AtTheCaller(Step(l, act).peer, b, CallerStage(l, act, stage))
  {
    assert SlotHolds(l.peer, b, act.id, stage);
  }

  // The call returns with the reply its channel held; the token is spent.
  lemma {:induction false} CallerTakesReplyKeepingWires(l: Local, act: Action, b: Peer, stage: map<int, Stage>)
    requires act.Take? && act.id in l.peer.slots && l.peer.slots[act.id] != [] && l.peer.slots[act.id][0].FromPeer?
    requires Enabled(l, act) && Half(l.peer, b, l.outbox, l.inbox, stage)
    ensures RequestsOnTheWay(Step(l, act).peer, Step(l, act).outbox, CallerStage(l, act, stage))
    ensures RepliesOnTheWay(Step(l, act).peer, b, Step(l, act).inbox, CallerStage(l, act, stage))
  {
    hide HandlersRunning;
    assert SlotHolds(l.peer, b, act.id, stage);
  }

  lemma {:induction false} CallerTakesReply(l: Local, act: Action, b: Peer, stage: map<int, Stage>)
    requires act.Take? && act.id in l.peer.slots && l.peer.slots[act.id] != [] && l.peer.slots[act.id][0].FromPeer?
    requires Enabled(l, act) && Half(l.peer, b, l.outbox, l.inbox, stage)
    ensures Half(Step(l, act).peer, b, Step(l, act).outbox, Step(l, act).inbox, CallerStage(l, act, stage))
  {
    assert SlotHolds(l.peer, b, act.id, stage);
    TakenReplyIsAnswered(l, act, b, stage);
    CallerTakesReplyKeepingWires(l, act, b, stage);
    hide AtTheCaller, RequestsOnTheWay, RepliesOnTheWay;
  }

  // The call learns from its channel that the connection is closed.
  lemma {:induction false} CallerTakesClosingKeepingSlots(l: Local, act: Action, b: Peer, stage: map<int, Stage>)
    requires act.Take? && act.id in l.peer.slots && l.peer.slots[act.id] != []
             && l.peer.slots[act.id][0].ConnectionClosed?
    requires Enabled(l, act) && Half(l.peer, b, l.outbox, l.inbox, stage)
    ensures AtTheCaller(Step(l, act).peer, b, CallerStage(l, act, stage))
  {
    hide RequestsOnTheWay, RepliesOnTheWay;
    assert SlotHolds(l.peer, b, act.id, stage);
  }

  lemma {:induction false} CallerTakesClosingKeepingWires(l: Local, act: Action, b: Peer, stage: map<int, Stage>)
    requires act.Take? && act.id in l.peer.slots && l.peer.slots[act.id] != []
             && l.peer.slots[act.id][0].ConnectionClosed?
    requires Enabled(l, act) && Half(l.peer, b, l.outbox, l.inbox, stage)
    ensures RequestsOnTheWay(Step(l, act).peer, Step(l, act).outbox, CallerStage(l, act, stage))
    ensures RepliesOnTheWay(Step(l, act).peer, b, Step(l, act).inbox, CallerStage(l, act, stage))
  {
    hide AtTheCaller, HandlersRunning;
  }

  lemma {:induction false} CallerTakesClosing(l: Local, act: Action, b: Peer, stage: map<int, Stage>)
    requires act.Take? && act.id in l.peer.slots && l.peer.slots[act.id] != []
             && l.peer.slots[act.id][0].ConnectionClosed?
    requires Enabled(l, act) && Half(l.peer, b, l.outbox, l.inbox, stage)
    ensures Half(Step(l, act).peer, b, Step(l, act).outbox, Step(l, act).inbox, CallerStage(l, act, stage))
  {
    CallerTakesClosingKeepingSlots(l, act, b, stage);
    CallerTakesClosingKeepingWires(l, act, b, stage);
    hide AtTheCaller, RequestsOnTheWay, RepliesOnTheWay;
  }

  // The request could not be written: the call returns without a reply.
  lemma {:induction false} CallerSendFailsKeepingSlots(l: Local, act: Action, b: Peer, stage: map<int, Stage>)
    requires act.SendFails?
    requires Enabled(l, act) && Half(l.peer, b, l.outbox, l.inbox, stage)
    ensures AtTheCaller(Step(l, act).peer, b, CallerStage(l, act, stage))
  {
    hide RequestsOnTheWay, RepliesOnTheWay;
  }

  lemma {:induction false} CallerSendFailsKeepingWires(l: Local, act: Action, b: Peer, stage: map<int, Stage>)
    requires act.SendFails?
    requires Enabled(l, act) && Half(l.peer, b, l.outbox, l.inbox, stage)
    ensures RequestsOnTheWay(Step(l, act).peer, Step(l, act).outbox, CallerStage(l, act, stage))
    ensures RepliesOnTheWay(Step(l, act).peer, b, Step(l, act).inbox, CallerStage(l, act, stage))
  {
    hide AtTheCaller, HandlersRunning;
  }

  lemma {:induction false} CallerSendFails(l: Local, act: Action, b: Peer, stage: map<int, Stage>)
    requires act.SendFails?
    requires Enabled(l, act) && Half(l.peer, b, l.outbox, l.inbox, stage)
    ensures Half(Step(l, act).peer, b, Step(l, act).outbox, Step(l, act).inbox, CallerStage(l, act, stage))
  {
    CallerSendFailsKeepingSlots(l, act, b, stage);
    CallerSendFailsKeepingWires(l, act, b, stage);
    hide AtTheCaller, RequestsOnTheWay, RepliesOnTheWay;
  }

  // The call returns without waiting for its reply.
  lemma {:induction false} CallerAbandonsKeepingSlots(l: Local, act: Action, b: Peer, stage: map<int, Stage>)
    requires act.Abandon?
    requires Enabled(l, act) && Half(l.peer, b, l.outbox, l.inbox, stage)
    ensures AtTheCaller(Step(l, act).peer, b, CallerStage(l, act, stage))
  {
    hide RequestsOnTheWay, RepliesOnTheWay;
  }

  lemma {:induction false} CallerAbandonsKeepingWires(l: Local, act: Action, b: Peer, stage: map<int, Stage>)
    requires act.Abandon?
    requires Enabled(l, act) && Half(l.peer, b, l.outbox, l.inbox, stage)
    ensures RequestsOnTheWay(Step(l, act).peer, Step(l, act).outbox, CallerStage(l, act, stage))
    ensures RepliesOnTheWay(Step(l, act).peer, b, Step(l, act).inbox, CallerStage(l, act, stage))
  {
    hide AtTheCaller, HandlersRunning;
  }

  lemma {:induction false} CallerAbandons(l: Local, act: Action, b: Peer, stage: map<int, Stage>)
    requires act.Abandon?
    requires Enabled(l, act) && Half(l.peer, b, l.outbox, l.inbox, stage)
    ensures Half(Step(l, act).peer, b, Step(l, act).outbox, Step(l, act).inbox, CallerStage(l, act, stage))
  {
    CallerAbandonsKeepingSlots(l, act, b, stage);
    CallerAbandonsKeepingWires(l, act, b, stage);
    hide AtTheCaller, RequestsOnTheWay, RepliesOnTheWay;
  }

  // Channels are unregistered, or told that the connection is closed.
  lemma {:induction false} CallerTidiesKeepingSlots(l: Local, act: Action, b: Peer, stage: map<int, Stage>)
    requires act.Deregister? || act.Close? || act.CloseOne?
    requires Enabled(l, act) && Half(l.peer, b, l.outbox, l.inbox, stage)
    ensures AtTheCaller(Step(l, act).peer, b, CallerStage(l, act, stage))
  {
    hide RequestsOnTheWay, RepliesOnTheWay;
  }

  lemma {:induction false} CallerTidiesKeepingWires(l: Local, act: Action, b: Peer, stage: map<int, Stage>)
    requires act.Deregister? || act.Close? || act.CloseOne?
    requires Enabled(l, act) && Half(l.peer, b, l.outbox, l.inbox, stage)
    ensures RequestsOnTheWay(Step(l, act).peer, Step(l, act).outbox, CallerStage(l, act, stage))
    ensures RepliesOnTheWay(Step(l, act).peer, b, Step(l, act).inbox, CallerStage(l, act, stage))
  {
    hide AtTheCaller, HandlersRunning;
  }

  lemma {:induction false} CallerTidies(l: Local, act: Action, b: Peer, stage: map<int, Stage>)
    requires act.Deregister? || act.Close? || act.CloseOne?
    requires Enabled(l, act) && Half(l.peer, b, l.outbox, l.inbox, stage)
    ensures Half(Step(l, act).peer, b, Step(l, act).outbox, Step(l, act).inbox, CallerStage(l, act, stage))
  {
    CallerTidiesKeepingSlots(l, act, b, stage);
    CallerTidiesKeepingWires(l, act, b, stage);
    hide AtTheCaller, RequestsOnTheWay, RepliesOnTheWay;
  }

  // What a peer does as a callee leaves its own calls alone.
  lemma {:induction false} CallerAnswersKeepingSlots(l: Local, act: Action, b: Peer, stage: map<int, Stage>)
    requires act.Finish? || act.FinishLost? || act.Notify?
    requires Enabled(l, act) && Half(l.peer, b, l.outbox, l.inbox, stage)
    ensures AtTheCaller(Step(l, act).peer, b, CallerStage(l, act, stage))
  {
    hide RequestsOnTheWay, RepliesOnTheWay;
  }

  lemma {:induction false} CallerAnswers(l: Local, act: Action, b: Peer, stage: map<int, Stage>)
    requires act.Finish? || act.FinishLost? || act.Notify?
    requires Enabled(l, act) && Half(l.peer, b, l.outbox, l.inbox, stage)
    ensures Half(Step(l, act).peer, b, Step(l, act).outbox, Step(l, act).inbox, CallerStage(l, act, stage))
  {
    CallerAnswersKeepingSlots(l, act, b, stage);
    hide AtTheCaller;
  }

  lemma {:induction false} TakeHasItem(l: Local, act: Action)
    requires Enabled(l, act) && act.Take?
    ensures act.id in l.peer.slots && l.peer.slots[act.id] != []
  {
  }

  lemma {:induction false} ReceiveHasFrame(l: Local, act: Action)
    requires Enabled(l, act) && act.Receive?
    ensures l.inbox != []
  {
  }

  lemma {:induction false} CallerKeepsHalf(l: Local, act: Action, b: Peer, stage: map<int, Stage>)
    requires Enabled(l, act) && Half(l.peer, b, l.outbox, l.inbox, stage)
    ensures Half(Step(l, act).peer, b, Step(l, act).outbox, Step(l, act).inbox, CallerStage(l, act, stage))
  {
    hide Half, Step, Enabled, CallerStage;
    match act
    case Begin(_) => CallerBegins(l, act, b, stage);
    case Send(_) => CallerSends(l, act, b, stage);
    case Receive =>
      ReceiveHasFrame(l, act);
      if l.inbox[0].Response? {
        CallerReadsReply(l, act, b, stage);
      } else {
        CallerReadsOther(l, act, b, stage);
      }
    case Deliver => CallerDelivers(l, act, b, stage);
    case Take(id) =>
      TakeHasItem(l, act);
      if l.peer.slots[id][0].FromPeer? {
        CallerTakesReply(l, act, b, stage);
      } else {
        CallerTakesClosing(l, act, b, stage);
      }
    case SendFails(_) => CallerSendFails(l, act, b, stage);
    case Abandon(_) => CallerAbandons(l, act, b, stage);
    case Deregister(_) => CallerTidies(l, act, b, stage);
    case Close => CallerTidies(l, act, b, stage);
    case CloseOne(_) => CallerTidies(l, act, b, stage);
    case Finish(_, _) => CallerAnswers(l, act, b, stage);
    case FinishLost(_) => CallerAnswers(l, act, b, stage);
    case Notify(_) => CallerAnswers(l, act, b, stage);
  }

  // A request is taken off the wire and handled.
  lemma {:induction false} CalleeReadsRequestKeepingSlots(l: Local, act: Action, a: Peer, stage: map<int, Stage>)
    requires act.Receive? && l.inbox != [] && l.inbox[0].Request?
    requires Enabled(l, act) && Half(a, l.peer, l.inbox, l.outbox, stage)
    ensures AtTheCaller(a, Step(l, act).peer, CalleeStage(l, act, stage))
  {
    hide RepliesOnTheWay;
  }

  lemma {:induction false} CalleeReadsRequest(l: Local, act: Action, a: Peer, stage: map<int, Stage>)
    requires act.Receive? && l.inbox != [] && l.inbox[0].Request?
    requires Enabled(l, act) && Half(a, l.peer, l.inbox, l.outbox, stage)
    ensures Half(a, Step(l, act).peer, Step(l, act).inbox, Step(l, act).outbox, CalleeStage(l, act, stage))
  {
    CalleeReadsRequestKeepingSlots(l, act, a, stage);
    hide AtTheCaller;
  }

  // Replies and notifications concern the other half.
  lemma {:induction false} CalleeReadsOtherKeepingSlots(l: Local, act: Action, a: Peer, stage: map<int, Stage>)
    requires act.Receive? && l.inbox != [] && !l.inbox[0].Request?
    requires Enabled(l, act) && Half(a, l.peer, l.inbox, l.outbox, stage)
    ensures AtTheCaller(a, Step(l, act).peer, CalleeStage(l, act, stage))
  {
    hide RequestsOnTheWay, RepliesOnTheWay;
  }

  lemma {:induction false} CalleeReadsOther(l: Local, act: Action, a: Peer, stage: map<int, Stage>)
    requires act.Receive? && l.inbox != [] && !l.inbox[0].Request?
    requires Enabled(l, act) && Half(a, l.peer, l.inbox, l.outbox, stage)
    ensures Half(a, Step(l, act).peer, Step(l, act).inbox, Step(l, act).outbox, CalleeStage(l, act, stage))
  {
    CalleeReadsOtherKeepingSlots(l, act, a, stage);
    hide AtTheCaller;
  }

  // A handler, in any order, replies to its own request.
  lemma {:induction false} CalleeFinishesKeepingSlots(l: Local, act: Action, a: Peer, stage: map<int, Stage>)
    requires act.Finish?
    requires Enabled(l, act) && Half(a, l.peer, l.inbox, l.outbox, stage)
    ensures AtTheCaller(a, Step(l, act).peer, CalleeStage(l, act, stage))
  {
    hide RequestsOnTheWay, RepliesOnTheWay;
  }

  lemma {:induction false} CalleeFinishes(l: Local, act: Action, a: Peer, stage: map<int, Stage>)
    requires act.Finish?
    requires Enabled(l, act) && Half(a, l.peer, l.inbox, l.outbox, stage)
    ensures Half(a, Step(l, act).peer, Step(l, act).inbox, Step(l, act).outbox, CalleeStage(l, act, stage))
  {
    CalleeFinishesKeepingSlots(l, act, a, stage);
    hide AtTheCaller;
  }

  // A reply that cannot be written is gone.
  lemma {:induction false} CalleeLosesReplyKeepingSlots(l: Local, act: Action, a: Peer, stage: map<int, Stage>)
    requires act.FinishLost?
    requires Enabled(l, act) && Half(a, l.peer, l.inbox, l.outbox, stage)
    ensures AtTheCaller(a, Step(l, act).peer, CalleeStage(l, act, stage))
  {
    hide RequestsOnTheWay, RepliesOnTheWay;
  }

  lemma {:induction false} CalleeLosesReply(l: Local, act: Action, a: Peer, stage: map<int, Stage>)
    requires act.FinishLost?
    requires Enabled(l, act) && Half(a, l.peer, l.inbox, l.outbox, stage)
    ensures Half(a, Step(l, act).peer, Step(l, act).inbox, Step(l, act).outbox, CalleeStage(l, act, stage))
  {
    CalleeLosesReplyKeepingSlots(l, act, a, stage);
    hide AtTheCaller;
  }

  // What a peer does as a caller leaves the other's calls alone.
  lemma {:induction false} CalleeCallsKeepingSlots(l: Local, act: Action, a: Peer, stage: map<int, Stage>)
    requires !act.Receive? && !act.Finish? && !act.FinishLost?
    requires Enabled(l, act) && Half(a, l.peer, l.inbox, l.outbox, stage)
    ensures AtTheCaller(a, Step(l, act).peer, CalleeStage(l, act, stage))
  {
    hide RequestsOnTheWay, RepliesOnTheWay;
  }

  lemma {:induction false} CalleeCalls(l: Local, act: Action, a: Peer, stage: map<int, Stage>)
    requires !act.Receive? && !act.Finish? && !act.FinishLost?
    requires Enabled(l, act) && Half(a, l.peer, l.inbox, l.outbox, stage)
    ensures Half(a, Step(l, act).peer, Step(l, act).inbox, Step(l, act).outbox, CalleeStage(l, act, stage))
  {
    CalleeCallsKeepingSlots(l, act, a, stage);
    hide AtTheCaller;
  }

  lemma {:induction false} CalleeKeepsHalf(l: Local, act: Action, a: Peer, stage: map<int, Stage>)
    requires Enabled(l, act) && Half(a, l.peer, l.inbox, l.outbox, stage)
    ensures Half(a, Step(l, act).peer, Step(l, act).inbox, Step(l, act).outbox, CalleeStage(l, act, stage))
  {
    hide Half, Step, Enabled, CalleeStage;
    match act
    case Receive =>
      ReceiveHasFrame(l, act);
      if l.inbox[0].Request? {
        CalleeReadsRequest(l, act, a, stage);
      } else {
        CalleeReadsOther(l, act, a, stage);
      }
    case Finish(_, _) => CalleeFinishes(l, act, a, stage);
    case FinishLost(_) => CalleeLosesReply(l, act, a, stage);
    case _ => CalleeCalls(l, act, a, stage);
  }

  ghost predicate Invariant(s: System) {
    && (exists stage :: Half(s.client, s.server, s.toServer, s.toClient, stage))
    && (exists stage :: Half(s.server, s.client, s.toClient, s.toServer, stage))
    && s.client.isClient && !s.server.isClient && !s.server.closed
  }

  lemma {:induction false} StartIsInvariant()
    ensures Invariant(START)
  {
    assert Half(START.client, START.server, [], [], map[]);
    assert Half(START.server, START.client, [], [], map[]);
  }

  lemma {:induction false} StepKeepsRole(l: Local, act: Action)
    requires Enabled(l, act)
    ensures Step(l, act).peer.isClient == l.peer.isClient
    ensures Step(l, act).peer.closed == (l.peer.closed || act.Close?)
    ensures act.Close? ==> l.peer.isClient
  {
  }

  lemma {:induction false} NextKeepsInvariant(s: System, t: System)
    requires Invariant(s) && Next(s, t)
    ensures Invariant(t)
  {
    hide Half, Step, Enabled, CallerStage, CalleeStage;
    var asCaller :| Half(s.client, s.server, s.toServer, s.toClient, asCaller);
    var asCallee :| Half(s.server, s.client, s.toClient, s.toServer, asCallee);
    var c, v := Local(s.client, s.toClient, s.toServer), Local(s.server, s.toServer, s.toClient);
    if act :| Enabled(c, act) && t == System(Step(c, act).peer, s.server, Step(c, act).outbox, Step(c, act).inbox) {
      CallerKeepsHalf(c, act, s.server, asCaller);
      CalleeKeepsHalf(c, act, s.server, asCallee);
      StepKeepsRole(c, act);
    } else {
      var act :| Enabled(v, act) && t == System(s.client, Step(v, act).peer, Step(v, act).inbox, Step(v, act).outbox);
      CallerKeepsHalf(v, act, s.client, asCallee);
      CalleeKeepsHalf(v, act, s.client, asCaller);
      StepKeepsRole(v, act);
    }
  }

  lemma {:induction false} ReachableIsInvariant(states: seq<System>, i: nat)
    requires Run(states) && i < |states|
    ensures Invariant(states[i])
  {
    hide Invariant, Next;
    if i == 0 {
      StartIsInvariant();
    } else {
      ReachableIsInvariant(states, i - 1);
      NextKeepsInvariant(states[i - 1], states[i]);
    }
  }

  // Every call of `a` that returned a result returned the one `b` computed from that call's own request.
  ghost predicate Correlated(a: Peer, b: Peer) {
    forall id :: id in a.calls && a.calls[id].phase.Returned? && a.calls[id].phase.outcome.Got? ==>
      id in b.answers && b.answers[id] == Answer(a.calls[id].body, a.calls[id].phase.outcome.reply)
  }

  // Until the connection closes no reply channel holds more than one reply, and the reader can deliver.
  ghost predicate NeverBlocks(p: Peer) {
    && (forall id :: id in p.slots ==> |p.slots[id]| <= 1)
    && (p.delivering.Some? && !p.closed ==> p.delivering.value.0 in p.slots && p.slots[p.delivering.value.0] == [])
  }

  // A reply frame on the wire is the only one with its id, and its call has no result yet.
  ghost predicate OnceOnTheWire(a: Peer, ba: seq<Frame>) {
    && (forall i, j :: 0 <= i < j < |ba| && ba[i].Response? && ba[j].Response? ==> ba[i].id != ba[j].id)
    && (forall i :: 0 <= i < |ba| && ba[i].Response? ==>
          ba[i].id in a.calls && (a.calls[ba[i].id].phase.Returned? ==> a.calls[ba[i].id].phase.outcome.GaveUp?))
  }

  lemma {:induction false} HalfMeans(a: Peer, b: Peer, ab: seq<Frame>, ba: seq<Frame>, stage: map<int, Stage>)
    requires Half(a, b, ab, ba, stage)
    ensures Correlated(a, b) && NeverBlocks(a) && OnceOnTheWire(a, ba)
  {
    forall id | id in a.slots
      ensures |a.slots[id]| <= 1
    {
      assert SlotHolds(a, b, id, stage);
    }
  }

  /**
   * ACP correlation: in every reachable state, whatever order handlers finish in and both sides calling,
   * a call that returned a result returned the one computed from the request with its own id, and the
   * readers never block on delivery.
   */
  lemma {:induction false} RepliesReachTheirCalls(states: seq<System>, i: nat)
    requires Run(states) && i < |states|
    ensures var s := states[i];
            && Correlated(s.client, s.server) && Correlated(s.server, s.client)
            && NeverBlocks(s.client) && NeverBlocks(s.server)
            && OnceOnTheWire(s.client, s.toClient) && OnceOnTheWire(s.server, s.toServer)
  {
    hide Half, Next;
    ReachableIsInvariant(states, i);
    var s := states[i];
    var asCaller :| Half(s.client, s.server, s.toServer, s.toClient, asCaller);
    var asCallee :| Half(s.server, s.client, s.toClient, s.toServer, asCallee);
    HalfMeans(s.client, s.server, s.toServer, s.toClient, asCaller);
    HalfMeans(s.server, s.client, s.toClient, s.toServer, asCallee);
  }

  // A call that has returned, and an answer that was given, stay as they are.
  ghost predicate Settled(p: Peer, q: Peer) {
    && (forall id :: id in p.calls ==> id in q.calls && q.calls[id].body == p.calls[id].body)
    && (forall id :: id in p.calls && p.calls[id].phase.Returned? ==> q.calls[id].phase == p.calls[id].phase)
    && (forall id :: id in p.answers ==> id in q.answers && q.answers[id] == p.answers[id])
  }

  // No running handler has answered yet, and no slot waits for a call that returned a result.
  lemma {:induction false} HandlersAreFresh(p: Peer, a: Peer, ab: seq<Frame>, ba: seq<Frame>, stage: map<int, Stage>)
    requires Half(a, p, ab, ba, stage)
    ensures forall i :: 0 <= i < |p.running| ==> p.running[i].id !in p.answers
  {
    hide Books, RequestsOnTheWay, RepliesOnTheWay, AtTheCaller;
  }

  lemma {:induction false} NextIDIsFresh(p: Peer, b: Peer, ab: seq<Frame>, ba: seq<Frame>, stage: map<int, Stage>)
    requires Half(p, b, ab, ba, stage)
    ensures p.lastID + 1 !in p.calls
  {
    hide RequestsOnTheWay, RepliesOnTheWay, AtTheCaller, HandlersRunning;
  }

  lemma {:induction false} CallsSettle(l: Local, act: Action)
    requires Enabled(l, act) && l.peer.lastID + 1 !in l.peer.calls
    ensures var p, q := l.peer, Step(l, act).peer;
            && (forall id :: id in p.calls ==> id in q.calls && q.calls[id].body == p.calls[id].body)
            && (forall id :: id in p.calls && p.calls[id].phase.Returned? ==> q.calls[id].phase == p.calls[id].phase)
  {
  }

  lemma {:induction false} AnswersSettle(l: Local, act: Action)
    requires Enabled(l, act) && forall i :: 0 <= i < |l.peer.running| ==> l.peer.running[i].id !in l.peer.answers
    ensures var p, q := l.peer, Step(l, act).peer;
            forall id :: id in p.answers ==> id in q.answers && q.answers[id] == p.answers[id]
  {
  }

  lemma {:induction false} StepSettles(l: Local, act: Action, a: Peer, mine: map<int, Stage>, theirs: map<int, Stage>)
    requires Enabled(l, act)
    requires Half(l.peer, a, l.outbox, l.inbox, mine) && Half(a, l.peer, l.inbox, l.outbox, theirs)
    ensures Settled(l.peer, Step(l, act).peer)
  {
    HandlersAreFresh(l.peer, a, l.inbox, l.outbox, theirs);
    NextIDIsFresh(l.peer, a, l.outbox, l.inbox, mine);
    hide Half, Step, Enabled;
    CallsSettle(l, act);
    AnswersSettle(l, act);
  }

  lemma {:induction false} NextSettles(s: System, t: System)
    requires Invariant(s) && Next(s, t)
    ensures Settled(s.client, t.client) && Settled(s.server, t.server)
  {
    hide Half, Step, Enabled;
    var asCaller :| Half(s.client, s.server, s.toServer, s.toClient, asCaller);
    var asCallee :| Half(s.server, s.client, s.toClient, s.toServer, asCallee);
    var c, v := Local(s.client, s.toClient, s.toServer), Local(s.server, s.toServer, s.toClient);
    if act :| Enabled(c, act) && t == System(Step(c, act).peer, s.server, Step(c, act).outbox, Step(c, act).inbox) {
      StepSettles(c, act, s.server, asCaller, asCallee);
    } else {
      var act :| Enabled(v, act) && t == System(s.client, Step(v, act).peer, Step(v, act).inbox, Step(v, act).outbox);
      StepSettles(v, act, s.client, asCallee, asCaller);
    }
  }

  /**
   * Each reply frame completes at most one call, and for good: over a run, a call that has returned
   * keeps its outcome and an answer, once given, is never replaced.
   */
  lemma {:induction false} OutcomesAreFinal(states: seq<System>, i: nat, j: nat)
    requires Run(states) && i <= j < |states|
    ensures Settled(states[i].client, states[j].client) && Settled(states[i].server, states[j].server)
    decreases j
  {
    hide Invariant, Next;
    if i < j {
      OutcomesAreFinal(states, i, j - 1);
      ReachableIsInvariant(states, j - 1);
      NextSettles(states[j - 1], states[j]);
    }
  }
}
