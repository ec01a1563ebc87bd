/** A recorded ACK exists only in the Accepted window of a client INVITE. */
module AckHistory {
  import opened Prelude
  import opened SipMessages
  import opened TransactionKey
  import opened EndpointSpec
  import opened TransactionSpec
  import opened TransactionSanity
  import opened TransactionInvariant
  import opened TransactionHandlers
  import opened NeverStuck
  import opened TableSteps
  import opened StateOrder
  import opened System
  import opened SystemSteps
  import opened RunTheorems
  import opened ForkedAcks
  import opened LateMessages
  import LocalEvents

  predicate AckOk(tx: Tx) {
    tx.lastAck.Some? ==> tx.kind.ClientInvite? && tx.state.Accepted? && tx.lastAck.value.verb == Ack
  }

  lemma TransitionAckOk(s: TE, target: State, env: Env)
    requires AckOk(s.tx) && Forward(s.tx.state, target) && (s.tx.cleanedUp ==> s.tx.state.Terminated?)
    ensures AckOk(Transition(s, target, env).s.tx)
  {
    if target.Terminated? {
      if !s.tx.state.Terminated? {
        TransitionEnds(s, env);
        hide Transition, LastMessage, Detach;
      }
    } else {
      TransitionFacts(s, target, env);
      hide Transition;
    }
  }

  lemma RespondAckOk(s: TE, r: Response, env: Env)
    requires AckOk(s.tx) && (s.tx.cleanedUp ==> s.tx.state.Terminated?)
    ensures AckOk(DoRespond(s, r, env).s.tx)
  {
    hide Transition, CanTransition;
    var s1 := WriteMsg(s.(tx := s.tx.(lastResponse := Some(r))), Resp(r), true);
    if CanTransition(s.tx.state, RespondState(s.tx.kind, r)) {
      TransitionAckOk(s1, RespondState(s.tx.kind, r), env);
    }
  }

  lemma OnRequestAckOk(s0: TE, r: Request, conn: Option<Conn>, env: Env)
    requires AckOk(s0.tx) && (s0.tx.cleanedUp ==> s0.tx.state.Terminated?)
    ensures AckOk(OnRequest(s0, r, conn, env).s.tx)
  {
    var s := if s0.tx.conn.None? then s0.(tx := s0.tx.(conn := conn)) else s0;
    hide Transition, DoRespond, MakeResponse;
    if s.tx.state.Completed? || s.tx.state.Confirmed? { TransitionAckOk(s, Confirmed, env); }
    if s.tx.state.Accepted? { TransitionAckOk(s, Terminated, env); }
    if s.tx.lastResponse.Some? { RespondAckOk(s, s.tx.lastResponse.value, env); }
  }

  lemma ChosenVerb(tx: Tx, branch: string)
    requires AckOk(tx)
    ensures ChooseAck(tx, branch).Some? ==> ChooseAck(tx, branch).value.verb == Ack
  {
    hide AckTarget, Reverse;
  }

  lemma SendAckAckOk(s: TE, conn: Option<Conn>, env: Env)
    requires AckOk(s.tx) && (s.tx.cleanedUp ==> s.tx.state.Terminated?)
    ensures AckOk(SendAck(s, conn, env).s.tx)
  {
    ChosenVerb(s.tx, env.branch);
    hide ChooseAck, Transition;
    var chosen := ChooseAck(s.tx, env.branch);
    if s.tx.kind.ClientInvite? && s.tx.state.Completed? && chosen.Some? {
      var s1 := PutAck(s, chosen.value, conn, env);
      TransitionEnds(s1, env);
      hide LastMessage, Detach;
    }
  }

  lemma OnResponseAckOk(s: TE, r: Response, conn: Option<Conn>, env: Env)
    requires AckOk(s.tx) && (s.tx.cleanedUp <==> s.tx.state.Terminated?)
    ensures AckOk(OnResponse(s, r, conn, env).s.tx)
  {
    hide Transition, SendAck, Duplicate;
    if IsClient(s.tx.kind) {
      if s.tx.kind.ClientInvite? && Successful(r) && MultipleVias(r) {
        if !s.tx.state.Accepted? && CanTransition(s.tx.state, Accepted) { TransitionAckOk(s, Accepted, env); }
      } else {
        var target := ResponseState(s.tx.kind, r, s.ep.opt);
        if CanTransition(s.tx.state, target) {
          var s0 := s.(tx := s.tx.(lastResponse := Some(r)));
          TransitionAckOk(s0, target, env);
          if !target.Terminated? {
            TransitionFacts(s0, target, env);
            SendAckAckOk(Transition(s0, target, env).s, conn, env);
          }
        }
      }
    }
  }

  lemma OnTimerAckOk(s: TE, t: TxTimer, env: Env)
    requires AckOk(s.tx) && (s.tx.cleanedUp ==> s.tx.state.Terminated?)
    ensures AckOk(OnTimer(s, t, env).tx)
  {
    hide Transition, TimersOf;
    if !s.tx.state.Terminated? && CanTransition(s.tx.state, Terminated) { TransitionAckOk(s, Terminated, env); }
  }

  lemma CallAckOk(s: TE, e: Event)
    requires IsCall(e) && (e.CallReceive? ==> s.tx.queue != []) && (e.FireTimer? ==> e.slot in s.tx.pending)
    requires e.CallSend? && IsClient(s.tx.kind) ==> s.tx.state.Nothing? || s.tx.state.Calling?
    requires AckOk(s.tx) && (s.tx.cleanedUp <==> s.tx.state.Terminated?)
    ensures AckOk(Called(s, e).tx)
  {
    hide Transition, OnRequest, OnResponse, OnTimer, DoRespond, SendAck;
    match e
    case CallSend(_, env) => if IsClient(s.tx.kind) { TransitionAckOk(Written(s, env), Calling, env); }
    case CallReceive(_, env) =>
      var s1, head := Pop(s), s.tx.queue[0];
      if head.Received? {
        if head.msg.Req? { OnRequestAckOk(s1, head.msg.request, head.conn, env); }
        else { OnResponseAckOk(s1, head.msg.response, head.conn, env); }
      } else if head.Fired? {
        OnTimerAckOk(s1, head.timer, env);
      } else if head.Respond? {
        RespondAckOk(s1, head.response, env);
      }
    case CallRespond(_, r, env) => RespondAckOk(s, r, env);
    case CallSendAck(_, conn, env) => SendAckAckOk(s, conn, env);
    case _ =>
  }

  ghost predicate AcksOk(sys: Sys) {
    forall id :: id in sys.txs ==> AckOk(sys.txs[id])
  }

  lemma StepAcksOk(sys: Sys, e: Event)
    requires Consistent(sys) && Possible(sys, e) && AcksOk(sys)
    ensures AcksOk(Step(sys, e))
  {
    if IsCall(e) {
      hide Consistent, Called, Possible, AckOk;
      CallPossible(sys, e);
      HealthyAt(sys, e.id, TimeOf(e));
      CallAckOk(At(sys, e.id), e);
    } else {
      hide Consistent, Route, DoCleanup, RunCleanup;
    }
  }

  lemma {:induction false} RunAcksOk(sys: Sys, es: seq<Event>)
    requires Consistent(sys) && Run(sys, es) && AcksOk(sys)
    ensures AcksOk(After(sys, es))
    decreases |es|
  {
    if es != [] {
      StepAcksOk(sys, es[0]);
      StepConsistent(sys, es[0]);
      hide Consistent, Step, Possible, AcksOk;
      RunAcksOk(Step(sys, es[0]), es[1..]);
    }
  }

  /** On every run: when a client INVITE that still waits handles a failure, the failure goes up
      once, its ACK is written, and the endpoint is in the RFC's Completed state with that ACK. */
  lemma FailureEntersCompleted(opt: EndpointOption, es: seq<Event>, id: nat, env: Env, r: Response, conn: Option<Conn>)
    requires Run(Start(opt), es) && Possible(Reached(opt, es), CallReceive(id, env))
    requires var tx := Reached(opt, es).txs[id];
             && tx.kind.ClientInvite? && (tx.state.Calling? || tx.state.Trying? || tx.state.Proceeding?)
             && tx.queue[0] == Received(Resp(r), conn)
    requires !Provisional(r) && !Successful(r)
    ensures var sys := Reached(opt, es);
            var sys' := Step(sys, CallReceive(id, env));
            var tx, ack := sys.txs[id], MakeAck(sys.txs[id].original, r, env.branch).value;
            && sys'.txs[id].state.Terminated? && sys'.txs[id].log.delivered == tx.log.delivered + [Resp(r)]
            && sys'.ep.wire == sys.ep.wire + (if conn.Some? && env.sendOk then [Req(ack)] else [])
            && RfcOf(sys', tx.key) == RfcCompleted(ack, env.now + sys.ep.opt.t1x64)
  {
    hide Run, Consistent, Inv, Alive, Possible, Step, MakeAck, RfcOf;
    var sys := Reached(opt, es);
    StartConsistent(opt);
    RunAcksOk(Start(opt), es);
    CallPossible(sys, CallReceive(id, env));
    HealthyAt(sys, id, env.now);
    assert AckOk(sys.txs[id]);
    FailureReceived(sys, id, env, r, conn);
  }

  lemma FailureReceived(sys: Sys, id: nat, env: Env, r: Response, conn: Option<Conn>)
    requires Possible(sys, CallReceive(id, env)) && AckOk(sys.txs[id]) && !sys.txs[id].cleanedUp
    requires var tx := sys.txs[id];
             && tx.kind.ClientInvite? && (tx.state.Calling? || tx.state.Trying? || tx.state.Proceeding?)
             && tx.queue[0] == Received(Resp(r), conn)
    requires !Provisional(r) && !Successful(r)
    ensures var sys' := Step(sys, CallReceive(id, env));
            var tx, ack := sys.txs[id], MakeAck(sys.txs[id].original, r, env.branch).value;
            && sys'.txs[id].state.Terminated? && sys'.txs[id].log.delivered == tx.log.delivered + [Resp(r)]
            && sys'.ep.wire == sys.ep.wire + (if conn.Some? && env.sendOk then [Req(ack)] else [])
            && RfcOf(sys', tx.key) == RfcCompleted(ack, env.now + sys.ep.opt.t1x64)
  {
    var s := At(sys, id);
    FailureIsAcked(Pop(s), r, conn, env);
    ReceiveDelivers(s, r, conn, env);
    hide OnResponse, MakeAck, Receive;
  }

  lemma ReceiveDelivers(s: TE, r: Response, conn: Option<Conn>, env: Env)
    requires s.tx.queue != [] && s.tx.queue[0] == Received(Resp(r), conn)
    requires OnResponse(Pop(s), r, conn, env).up == Some(Resp(r))
    ensures var h := OnResponse(Pop(s), r, conn, env).s;
            var s' := Receive(s, env);
            s'.ep == h.ep && s'.tx.state == h.tx.state && s'.tx.log.delivered == s.tx.log.delivered + [Resp(r)]
  {
    LocalEvents.OnResponseInward(Pop(s), r, conn, env);
    hide OnResponse, LocalEvents.Grows;
  }
}
