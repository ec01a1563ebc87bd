/**
 When a client stops retransmitting its request: for good once it has left
 Calling with no Timer A armed or in flight, and only then.
 */
module Retransmissions {
  import opened Prelude
  import opened SipMessages
  import opened TransactionKey
  import opened EndpointSpec
  import opened TransactionSpec
  import opened TransactionSanity
  import opened TimerDiscipline
  import opened NeverStuck
  import opened StateOrder
  import opened LocalEvents
  import opened System
  import opened SystemSteps

  /** Beyond Calling, and Timer A neither pending nor in flight. */
  ghost predicate Settled(tx: Tx) {
    IsClient(tx.kind) && !tx.state.Nothing? && !tx.state.Calling? && A !in TimersOf(tx)
  }

  /** Timer A is not armed anew, and the request is not sent again. */
  predicate Slower(t: Tx, t': Tx) {
    (A in t'.pending ==> A in t.pending) && t'.log.resentRequests == t.log.resentRequests
  }

  // ---- Handlers ------------------------------------------------------------------------

  lemma EnterSlower(s: TE, target: State, env: Env)
    requires !target.Calling? && !target.Terminated?
    ensures Slower(s.tx, Enter(s, target, env).s.tx)
  {
    hide EnterAccepted, EnterCompleted, TimersOf, ResponseDialog, ForgetWaitingAck, EnterCalling;
    AcceptedSlower(s, env.now);
    CompletedSlower(s, env.now);
  }

  lemma AcceptedSlower(s: TE, now: nat)
    ensures Slower(s.tx, EnterAccepted(s, now).s.tx)
  {
    hide TimersOf, ResponseDialog;
  }

  lemma CompletedSlower(s: TE, now: nat)
    ensures Slower(s.tx, EnterCompleted(s, now).s.tx)
  {
    hide TimersOf, ResponseDialog;
  }

  lemma TransitionSlower(s: TE, target: State, env: Env)
    requires target.Calling? ==> s.tx.state.Calling?
    ensures Slower(s.tx, Transition(s, target, env).s.tx)
  {
    if s.tx.state != target {
      if target.Terminated? {
        if !s.tx.cleanedUp { DoCleanupFacts(s, env); }
        hide DoCleanup;
      } else {
        EnterSlower(s, target, env);
        hide Enter;
      }
    }
  }

  lemma SendAckSlower(s: TE, conn: Option<Conn>, env: Env)
    ensures Slower(s.tx, SendAck(s, conn, env).s.tx)
  {
    hide Transition, ChooseAck;
    var chosen := ChooseAck(s.tx, env.branch);
    if chosen.Some? { TransitionSlower(PutAck(s, chosen.value, conn, env), Terminated, env); }
  }

  lemma OnResponseSlower(s: TE, r: Response, conn: Option<Conn>, env: Env)
    ensures Slower(s.tx, OnResponse(s, r, conn, env).s.tx)
  {
    hide Transition, SendAck, Duplicate, CanTransition;
    var target := ResponseState(s.tx.kind, r, s.ep.opt);
    var s0 := s.(tx := s.tx.(lastResponse := Some(r)));
    TransitionSlower(s, Accepted, env);
    TransitionSlower(s0, target, env);
    SendAckSlower(Transition(s0, target, env).s, conn, env);
  }

  lemma OnTimerSlower(s: TE, t: TxTimer, env: Env)
    requires t.TxTimer? ==> !t.slot.A?
    ensures Slower(s.tx, OnTimer(s, t, env).tx)
  {
    hide Transition, TimersOf;
    TransitionSlower(s, Terminated, env);
  }

  lemma HandleSlower(s: TE, e: TxEvent, env: Env)
    requires IsClient(s.tx.kind) && (e.Fired? && e.timer.TxTimer? ==> !e.timer.slot.A?)
    ensures Slower(s.tx, Handle(s, e, env).s.tx)
  {
    hide OnResponse, OnTimer, CanTransition, Transition;
    match e
    case Received(msg, conn) => if msg.Resp? { OnResponseSlower(s, msg.response, conn, env); }
    case Fired(t) => OnTimerSlower(s, t, env);
    case _ =>
  }

  // ---- The queue -----------------------------------------------------------------------

  lemma {:induction false} LocalFires(q: seq<TxEvent>, q': seq<TxEvent>)
    requires Grows(q, q')
    ensures FiredSlots(q') == FiredSlots(q)
    decreases |q'|
  {
    if |q| < |q'| {
      var shorter := q'[..|q'| - 1];
      assert shorter[..|q|] == q'[..|q|];
      LocalFires(q, shorter);
      FiredSlotsAppend(shorter, q'[|q'| - 1]);
      assert q' == shorter + [q'[|q'| - 1]];
      assert FiredSlots([q'[|q'| - 1]]) == [] by { assert Local(q'[|q'| - 1]); }
    } else {
      assert q' == q;
    }
  }

  lemma PopSettled(tx: Tx)
    requires Settled(tx) && tx.queue != []
    ensures Settled(tx.(queue := tx.queue[1..]))
    ensures tx.queue[0].Fired? && tx.queue[0].timer.TxTimer? ==> !tx.queue[0].timer.slot.A?
  {
    FiredSlotsPop(tx.queue);
    hide FiredSlots;
  }

  lemma SlowerSettled(t: Tx, t': Tx)
    requires Settled(t) && Slower(t, t') && t'.kind == t.kind && Forward(t.state, t'.state)
    requires FiredSlots(t'.queue) == FiredSlots(t.queue)
    ensures Settled(t')
  {
    hide FiredSlots;
  }

  lemma ReceiveSettled(s: TE, env: Env)
    requires Settled(s.tx) && s.tx.queue != []
    ensures Settled(Receive(s, env).tx) && Receive(s, env).tx.log.resentRequests == s.tx.log.resentRequests
  {
    hide Settled, Handle, Grows, Forward;
    PopSettled(s.tx);
    assert IsClient(s.tx.kind) by { SettledClient(s.tx); }
    var p, e := Pop(s), s.tx.queue[0];
    HandleSlower(p, e, env);
    HandleInward(p, e, env);
    LocalFires(p.tx.queue, Handle(p, e, env).s.tx.queue);
    ReceiveForward(s, env);
    SlowerSettled(p.tx, Receive(s, env).tx);
  }

  lemma SettledClient(tx: Tx)
    requires Settled(tx)
    ensures IsClient(tx.kind) && !tx.state.Nothing? && !tx.state.Calling? && A !in tx.pending
  {
  }

  lemma CallSettled(s: TE, e: Event)
    requires IsCall(e) && (e.CallReceive? ==> s.tx.queue != []) && (e.FireTimer? ==> e.slot in s.tx.pending)
    requires e.CallSend? && IsClient(s.tx.kind) ==> s.tx.state.Nothing? || s.tx.state.Calling?
    requires Settled(s.tx)
    ensures Settled(Called(s, e).tx) && Called(s, e).tx.log.resentRequests == s.tx.log.resentRequests
  {
    hide Receive, DoRespond, SendAck, Forward, Grows, FiredSlots;
    SettledClient(s.tx);
    match e
    case CallReceive(_, env) => ReceiveSettled(s, env);
    case CallRespond(_, r, env) => ClientIgnores(s, r, env);
    case CallSendAck(_, conn, env) =>
      var t := SendAck(s, conn, env).s.tx;
      SendAckSlower(s, conn, env);
      SendAckInward(s, conn, env);
      LocalFires(s.tx.queue, t.queue);
      SendAckForward(s, conn, env);
      StillForward(s, t.state);
      SlowerSettled(s.tx, t);
    case QueueRespond(_, r, _) =>
      FiredSlotsAppend(s.tx.queue, Respond(r));
      OneFired(Respond(r));
    case FireTimer(_, slot, _) =>
      FiredSlotsAppend(s.tx.queue, Fired(TxTimer(slot, s.tx.key, s.tx.pending[slot].span)));
      OneFired(Fired(TxTimer(slot, s.tx.key, s.tx.pending[slot].span)));
    case _ =>
  }

  lemma OneFired(e: TxEvent)
    ensures FiredSlots([e]) == if e.Fired? && e.timer.TxTimer? then [e.timer.slot] else []
  {
    assert [e][1..] == [];
  }

  lemma StillForward(s: TE, state: State)
    requires state == s.tx.state || (s.tx.state.Completed? && state.Terminated?)
    ensures Forward(s.tx.state, state)
  {
  }

  lemma ClientIgnores(s: TE, r: Response, env: Env)
    requires IsClient(s.tx.kind)
    ensures DoRespond(s, r, env).s == s
  {
    hide CanTransition, Transition;
  }

  // ---- Runs ---------------------------------------------------------------------------------

  lemma StepSettled(sys: Sys, e: Event, id: nat)
    requires Consistent(sys) && Possible(sys, e) && id in sys.txs && Settled(sys.txs[id]) && id in Step(sys, e).txs
    ensures var t, t' := sys.txs[id], Step(sys, e).txs[id];
            Settled(t') && t'.log.resentRequests == t.log.resentRequests
  {
    hide Consistent, Settled, Called, DoCleanup, RunCleanup, Route, System.Earliest;
    NextIsFree(sys);
    if IsCall(e) {
      CallPossible(sys, e);
      if e.id == id { CallSettled(At(sys, id), e); }
    } else if e.Incoming? {
      var tx := sys.txs[id];
      DeliverySettled(tx, Received(e.msg, Some(e.from)));
      RouteAction(sys.ep, e.msg, e.from, e.env.sendOk);
    }
  }

  lemma DeliverySettled(tx: Tx, e: TxEvent)
    requires Settled(tx) && !e.Fired?
    ensures Settled(tx.(queue := tx.queue + [e]))
  {
    FiredSlotsAppend(tx.queue, e);
    OneFired(e);
    hide FiredSlots;
  }

  /** On every run from there, however long: the request is never sent again. */
  lemma {:induction false} NeverSentAgain(sys: Sys, es: seq<Event>, id: nat)
    requires Consistent(sys) && Run(sys, es) && id in sys.txs && Settled(sys.txs[id]) && id in After(sys, es).txs
    ensures var t, t' := sys.txs[id], After(sys, es).txs[id];
            Settled(t') && t'.log.resentRequests == t.log.resentRequests
    decreases |es|
  {
    hide Consistent, Settled, Step, Possible;
    if es != [] {
      StepConsistent(sys, es[0]);
      NextNumber(sys, es[0]);
      RunAdvances(Step(sys, es[0]), es[1..]);
      StepSettled(sys, es[0], id);
      NeverSentAgain(Step(sys, es[0]), es[1..], id);
    }
  }

  /** A provisional response settles a client in Calling exactly when no fired Timer A waits
      behind it in the queue. */
  lemma SettledExactlyWhen(s: TE, r: Response, conn: Option<Conn>, env: Env)
    requires IsClient(s.tx.kind) && s.tx.state.Calling? && Provisional(r)
    requires s.tx.queue != [] && s.tx.queue[0] == Received(Resp(r), conn)
    ensures Settled(Receive(s, env).tx) <==> A !in Flying(s.tx.queue[1..])
  {
    var p := Pop(s);
    var s0 := p.(tx := p.tx.(lastResponse := Some(r)));
    var target := ResponseState(s.tx.kind, r, s.ep.opt);
    ProvisionalStopsA(s0, target, env);
    hide Transition, FiredSlots;
  }

  lemma ProvisionalStopsA(s: TE, target: State, env: Env)
    requires target.Trying? || target.Proceeding?
    requires s.tx.state != target
    ensures var t := Transition(s, target, env).s.tx;
            t.state == target && t.kind == s.tx.kind && t.queue == s.tx.queue && A !in t.pending
  {
    hide TimersOf;
  }

  /** In Trying, one event sends the request again exactly when it is a Timer A and
      retransmission was not stopped. */
  lemma SentAgainExactlyWhen(s: TE, env: Env)
    requires IsClient(s.tx.kind) && s.tx.state.Trying? && s.tx.queue != []
    ensures Receive(s, env).tx.log.resentRequests ==
            s.tx.log.resentRequests +
            if s.tx.retransmission && s.tx.queue[0].Fired? && s.tx.queue[0].timer.TxTimer? && s.tx.queue[0].timer.slot.A? then 1 else 0
  {
    var p, e := Pop(s), s.tx.queue[0];
    if e.Fired? && e.timer.TxTimer? && e.timer.slot.A? {
      hide TimersOf, MakeResponse;
    } else {
      HandleSlower(p, e, env);
      hide Handle;
    }
  }
}
