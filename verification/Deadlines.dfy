/**
 When the timers are due: on every run each pending timer that ends a wait is
 due its configured delay after the event that began the wait, no sooner and no
 later, whatever was armed, stopped and handled in between.
 */
module Deadlines {
  import opened Prelude
  import opened SipMessages
  import opened TransactionKey
  import opened EndpointSpec
  import opened TransactionSpec
  import opened TransactionSanity
  import opened TimerDiscipline
  import opened TransactionInvariant
  import opened NeverStuck
  import opened TableSteps
  import opened StateOrder
  import opened System
  import opened SystemSteps
  import opened RunTheorems

  /** A pending timer of this kind is due at `at`. */
  predicate DueAt(t: Tx, slot: Slot, at: nat) {
    slot in t.pending ==> t.pending[slot].due == at
  }

  /** B counts from the first request, C from the first provisional response, D, L and M from the final
      one, K from the ACK; and a client INVITE that had a provisional response has its Timer C. */
  predicate OnTime(t: Tx, opt: EndpointOption) {
    && DueAt(t, B, t.log.callingSince + opt.t1x64)
    && DueAt(t, C, t.log.provisionalSince + opt.timerC)
    && DueAt(t, D, t.log.finalSince + opt.t1x64)
    && DueAt(t, L, t.log.finalSince + opt.t1x64)
    && DueAt(t, M, t.log.finalSince + opt.t1x64)
    && DueAt(t, K, t.log.confirmedSince + opt.t4)
    && (t.kind.ClientInvite? && (t.state.Trying? || t.state.Proceeding?) ==> C in t.held)
  }

  /** What a step at time `now` notes: the time of the event that began each wait. */
  predicate Noted(t: Tx, t': Tx, now: nat) {
    && (InSetup(t'.state) && !t'.state.Nothing? ==> t'.log.callingSince == if t.state.Nothing? && t'.state.Calling? then now else t.log.callingSince)
    && (t'.state.Trying? || t'.state.Proceeding? ==>
          t'.log.provisionalSince == if t.state.Nothing? || t.state.Calling? then now else t.log.provisionalSince)
    && (t'.state.Accepted? || t'.state.Completed? ==> t'.log.finalSince == if InSetup(t.state) then now else t.log.finalSince)
    && (t'.state.Confirmed? ==> t'.log.confirmedSince == if t.state.Confirmed? then t.log.confirmedSince else now)
  }

  predicate Held(t: Tx) { t.pending.Keys <= MayHold(t.state) }

  lemma NotedTrans(t: Tx, m: Tx, t': Tx, now: nat)
    requires Noted(t, m, now) && Noted(m, t', now) && (t'.state == m.state || t'.state.Terminated?)
    ensures Noted(t, t', now)
  {
  }

  // ---- Entering a state -----------------------------------------------------------------------

  /** What arming changes. */
  lemma Arms(s: TE, slot: Slot, now: nat, delay: nat)
    ensures var t := Arm(s, slot, now, delay).tx;
            && t.pending == s.tx.pending[slot := Shot(now + delay, delay)] && t.held == s.tx.held + {slot}
            && t.kind == s.tx.kind && t.state == s.tx.state && t.log == s.tx.log.(clash := t.log.clash)
            && t.lastResponse == s.tx.lastResponse && Arm(s, slot, now, delay).ep == s.ep
  {
    hide TimersOf;
  }

  /** Entering `target` leaves these timers and notes this time. */
  predicate Enters(s: TE, t: Tx, target: State, now: nat) {
    OnTime(t.(state := target), s.ep.opt) && Noted(s.tx, t.(state := target), now)
  }

  lemma CallingOnTime(s: TE, now: nat)
    requires OnTime(s.tx, s.ep.opt) && Held(s.tx) && s.tx.state.Nothing? && IsClient(s.tx.kind)
    ensures Enters(s, EnterCalling(s, now).tx, Calling, now)
  {
    hide TimersOf, Arm;
    assert s.tx.pending == map[];
    var s1 := s.(tx := s.tx.(log := s.tx.log.(callingSince := now)));
    Arms(s1, A, now, s.ep.opt.t1);
    var s2 := if s.tx.conn.Some? && Reliable(s.tx.conn.value) then s1 else Arm(s1, A, now, s.ep.opt.t1);
    Arms(s2, B, now, s.ep.opt.t1x64);
  }

  /** Stopping timers, and noting the first provisional response. */
  lemma ProvisionalEnters(s: TE, t: Tx, now: nat, target: State)
    requires OnTime(s.tx, s.ep.opt) && Held(s.tx) && InSetup(s.tx.state) && (target.Trying? || target.Proceeding?)
    requires t.kind == s.tx.kind
    requires t.log == s.tx.log.(provisionalSince := if s.tx.state.Nothing? || s.tx.state.Calling? then now else s.tx.log.provisionalSince,
                                clash := t.log.clash)
    requires forall x :: x in t.pending ==>
               (x in s.tx.pending && t.pending[x] == s.tx.pending[x])
               || (x.C? && t.kind.ClientInvite? && C !in s.tx.held && t.pending[x].due == now + s.ep.opt.timerC)
    requires t.kind.ClientInvite? ==> C in t.held
    ensures Enters(s, t, target, now)
  {
  }

  lemma ProvisionalOnTime(s: TE, now: nat, target: State)
    requires OnTime(s.tx, s.ep.opt) && Held(s.tx) && InSetup(s.tx.state) && (target.Trying? || target.Proceeding?)
    ensures Enters(s, EnterProvisional(s, now).tx, target, now)
  {
    hide TimersOf, Arm, Enters, OnTime, Held;
    Arms(Disarm(NoteProvisional(s, now), {A, B}), C, now, s.ep.opt.timerC);
    ProvisionalEnters(s, EnterProvisional(s, now).tx, now, target);
  }

  lemma LeavesSetup(s: TE, now: nat)
    requires OnTime(s.tx, s.ep.opt) && Held(s.tx) && InSetup(s.tx.state)
    ensures var t := Disarm(s.(tx := s.tx.(log := s.tx.log.(finalSince := now))), {A, B, C}).tx;
            t.pending == map[] && t.log == s.tx.log.(finalSince := now) && t.kind == s.tx.kind && t.state == s.tx.state
  {
    assert s.tx.pending - {A, B, C} == map[];
  }

  lemma FinalEnters(s: TE, t: Tx, target: State, now: nat)
    requires InSetup(s.tx.state) && (target.Accepted? || target.Completed?)
    requires t.kind == s.tx.kind && t.log == s.tx.log.(finalSince := now, clash := t.log.clash)
    requires forall x :: x in t.pending ==> x.G? || ((x.D? || x.L? || x.M?) && t.pending[x].due == now + s.ep.opt.t1x64)
    ensures Enters(s, t, target, now)
  {
  }

  lemma AcceptedOnTime(s: TE, now: nat)
    requires OnTime(s.tx, s.ep.opt) && Held(s.tx) && InSetup(s.tx.state)
    ensures Enters(s, EnterAccepted(s, now).s.tx, Accepted, now)
  {
    hide TimersOf, Arm, Disarm, ResponseDialog, Enters, Held;
    LeavesSetup(s, now);
    var s1 := Disarm(s.(tx := s.tx.(log := s.tx.log.(finalSince := now))), {A, B, C});
    Arms(s1, L, now, s.ep.opt.t1x64);
    Arms(Arm(s1, L, now, s.ep.opt.t1x64), G, now, s.ep.opt.t1);
    Arms(s1, M, now, s.ep.opt.t1x64);
    FinalEnters(s, EnterAccepted(s, now).s.tx, Accepted, now);
  }

  lemma CompletedOnTime(s: TE, now: nat)
    requires OnTime(s.tx, s.ep.opt) && Held(s.tx) && InSetup(s.tx.state)
    ensures Enters(s, EnterCompleted(s, now).s.tx, Completed, now)
  {
    hide TimersOf, Arm, Disarm, ResponseDialog, Enters, Held, OnTime, Reliable;
    LeavesSetup(s, now);
    var s1 := Disarm(s.(tx := s.tx.(log := s.tx.log.(finalSince := now))), {A, B, C});
    Arms(s1, D, now, s.ep.opt.t1x64);
    Arms(s1, G, now, s.ep.opt.t1);
    Arms(Arm(s1, G, now, s.ep.opt.t1), D, now, s.ep.opt.t1x64);
    FinalEnters(s, EnterCompleted(s, now).s.tx, Completed, now);
  }

  lemma ConfirmedOnTime(s: TE, now: nat)
    requires !s.tx.state.Confirmed?
    ensures Enters(s, EnterConfirmed(s, now).tx, Confirmed, now)
  {
    hide TimersOf, Arm, Disarm, ResponseDialog, ForgetWaitingAck;
    var s0 := s.(tx := s.tx.(log := s.tx.log.(confirmedSince := now)));
    var s1 := Disarm(s0, ALL_SLOTS);
    var s2 := if s.tx.kind.ServerInvite? then ForgetRoutes(s1) else s1;
    NothingPending(s0);
    Arms(s2, K, now, s.ep.opt.t4);
  }

  lemma NothingPending(s: TE)
    ensures Disarm(s, ALL_SLOTS).tx.pending.Keys == {} && Disarm(s, ALL_SLOTS).tx == s.tx.(held := s.tx.held - ALL_SLOTS, pending := map[])
  {
    assert forall x: Slot :: x in ALL_SLOTS by {
      forall x: Slot ensures x in ALL_SLOTS { AllSlots(x); }
    }
  }

  lemma EnterOnTime(s: TE, target: State, env: Env)
    requires OnTime(s.tx, s.ep.opt) && Held(s.tx) && s.tx.state != target && CanTransition(s.tx.state, target)
    requires !target.Terminated? && (target.Calling? ==> s.tx.state.Nothing? && IsClient(s.tx.kind))
    ensures OnTime(Transition(s, target, env).s.tx, s.ep.opt) && Noted(s.tx, Transition(s, target, env).s.tx, env.now)
  {
    hide EnterCalling, EnterProvisional, EnterAccepted, EnterCompleted, EnterConfirmed, EnterTerminated, MayHold, OnTime, Noted;
    TransitionFacts(s, target, env);
    if target.Calling? { CallingOnTime(s, env.now); }
    if target.Trying? || target.Proceeding? { ProvisionalOnTime(s, env.now, target); }
    if target.Accepted? { AcceptedOnTime(s, env.now); }
    if target.Completed? { CompletedOnTime(s, env.now); }
    if target.Confirmed? { ConfirmedOnTime(s, env.now); }
    if !Transition(s, target, env).ok { NotEntered(s, target, env); }
  }

  /** An entry that fails leaves a server in setup. */
  lemma NotEntered(s: TE, target: State, env: Env)
    requires CanTransition(s.tx.state, target) && Enters(s, Enter(s, target, env).s.tx, target, env.now)
    requires s.tx.state != target && !Transition(s, target, env).ok && !target.Terminated?
    ensures OnTime(Transition(s, target, env).s.tx, s.ep.opt) && Noted(s.tx, Transition(s, target, env).s.tx, env.now)
  {
  }

  /** Any move the state machine allows. */
  lemma MoveOnTime(s: TE, target: State, env: Env)
    requires OnTime(s.tx, s.ep.opt) && Held(s.tx) && (s.tx.state == target || CanTransition(s.tx.state, target))
    requires target.Calling? ==> IsClient(s.tx.kind) && (s.tx.state.Nothing? || s.tx.state.Calling?)
    ensures OnTime(Transition(s, target, env).s.tx, s.ep.opt) && Noted(s.tx, Transition(s, target, env).s.tx, env.now)
  {
    if s.tx.state != target {
      if target.Terminated? {
        EndOnTime(s, env);
      } else {
        hide Transition, OnTime;
        EnterOnTime(s, target, env);
      }
    }
  }

  lemma EndOnTime(s: TE, env: Env)
    requires OnTime(s.tx, s.ep.opt) && !s.tx.state.Terminated?
    ensures OnTime(Transition(s, Terminated, env).s.tx, s.ep.opt) && Noted(s.tx, Transition(s, Terminated, env).s.tx, env.now)
  {
    if !s.tx.cleanedUp { DoCleanupFacts(s, env); }
    hide DoCleanup;
  }

  lemma SameTimes(t: Tx, t': Tx, opt: EndpointOption, now: nat)
    requires OnTime(t, opt) && t'.pending == t.pending && t'.log == t.log.(delivered := t'.log.delivered)
    requires t'.kind == t.kind && t'.state == t.state && t'.held == t.held
    ensures OnTime(t', opt) && (Held(t) ==> Held(t')) && Noted(t, t', now)
  {
  }

  lemma LoggedTimes(t: Tx, m: Tx, t': Tx, now: nat)
    requires Noted(t, m, now) && t'.state == m.state && t'.log == m.log.(delivered := t'.log.delivered)
    ensures Noted(t, t', now)
  {
  }

  // ---- Handlers --------------------------------------------------------------------------------

  lemma RespondOnTime(s: TE, r: Response, env: Env)
    requires OnTime(s.tx, s.ep.opt) && Held(s.tx)
    ensures OnTime(DoRespond(s, r, env).s.tx, s.ep.opt) && Noted(s.tx, DoRespond(s, r, env).s.tx, env.now)
  {
    hide Transition, CanTransition, MayHold;
    var target := RespondState(s.tx.kind, r);
    var s1 := WriteMsg(s.(tx := s.tx.(lastResponse := Some(r))), Resp(r), true);
    if CanTransition(s.tx.state, target) { MoveOnTime(s1, target, env); }
  }

  lemma OnRequestOnTime(s0: TE, r: Request, conn: Option<Conn>, env: Env)
    requires OnTime(s0.tx, s0.ep.opt) && Held(s0.tx)
    ensures OnTime(OnRequest(s0, r, conn, env).s.tx, s0.ep.opt) && Noted(s0.tx, OnRequest(s0, r, conn, env).s.tx, env.now)
  {
    hide Transition, DoRespond, MakeResponse, MayHold;
    var s := if s0.tx.conn.None? then s0.(tx := s0.tx.(conn := conn)) else s0;
    assert OnTime(s.tx, s.ep.opt) && Held(s.tx);
    if s.tx.state.Completed? || s.tx.state.Confirmed? { MoveOnTime(s, Confirmed, env); }
    if s.tx.state.Accepted? { MoveOnTime(s, Terminated, env); }
    if s.tx.lastResponse.Some? { RespondOnTime(s, s.tx.lastResponse.value, env); }
  }

  lemma SendAckOnTime(s: TE, conn: Option<Conn>, env: Env)
    requires OnTime(s.tx, s.ep.opt)
    ensures OnTime(SendAck(s, conn, env).s.tx, s.ep.opt) && Noted(s.tx, SendAck(s, conn, env).s.tx, env.now)
  {
    hide Transition, ChooseAck;
    var chosen := ChooseAck(s.tx, env.branch);
    if s.tx.state.Completed? && chosen.Some? { EndOnTime(PutAck(s, chosen.value, conn, env), env); }
  }

  lemma OnResponseOnTime(s: TE, r: Response, conn: Option<Conn>, env: Env)
    requires OnTime(s.tx, s.ep.opt) && Held(s.tx)
    ensures OnTime(OnResponse(s, r, conn, env).s.tx, s.ep.opt) && Noted(s.tx, OnResponse(s, r, conn, env).s.tx, env.now)
  {
    hide Transition, SendAck, Duplicate, CanTransition, MayHold;
    var target := ResponseState(s.tx.kind, r, s.ep.opt);
    var s0 := s.(tx := s.tx.(lastResponse := Some(r)));
    assert OnTime(s0.tx, s0.ep.opt) && Held(s0.tx);
    if s.tx.state.Accepted? || CanTransition(s.tx.state, Accepted) { MoveOnTime(s, Accepted, env); }
    if CanTransition(s.tx.state, target) {
      var s1 := Transition(s0, target, env).s;
      MoveOnTime(s0, target, env);
      SameOptions(s0, target, env);
      SendAckOnTime(s1, conn, env);
      SendAckForward(s1, conn, env);
      NotedTrans(s.tx, s1.tx, SendAck(s1, conn, env).s.tx, env.now);
    }
  }

  lemma SameOptions(s: TE, target: State, env: Env)
    ensures Transition(s, target, env).s.ep.opt == s.ep.opt
  {
    if target.Terminated? {
      if !s.tx.cleanedUp { DoCleanupFacts(s, env); }
      hide DoCleanup;
    } else {
      TransitionFacts(s, target, env);
      hide Transition;
    }
  }

  /** Timers A and G do not end a wait. */
  lemma RearmOnTime(t: Tx, s: TE, slot: Slot, now: nat, delay: nat)
    requires OnTime(s.tx, s.ep.opt) && Noted(t, s.tx, now) && (slot.A? || slot.G?)
    ensures OnTime(Arm(s, slot, now, delay).tx, s.ep.opt) && Noted(t, Arm(s, slot, now, delay).tx, now)
  {
    hide Arm;
    Arms(s, slot, now, delay);
  }

  /** The number of retransmissions is no time. */
  lemma CountedOnTime(t: Tx, t': Tx, opt: EndpointOption, now: nat)
    requires OnTime(t, opt) && t'.pending == t.pending && t'.held == t.held && t'.kind == t.kind && t'.state == t.state
    requires t'.log == t.log.(resentRequests := t'.log.resentRequests, resentResponses := t'.log.resentResponses)
    ensures OnTime(t', opt) && Noted(t, t', now)
  {
  }

  lemma ResendOnTime(s: TE, span: nat, env: Env)
    requires OnTime(s.tx, s.ep.opt)
    ensures OnTime(ResendRequest(s, span, env).tx, s.ep.opt) && Noted(s.tx, ResendRequest(s, span, env).tx, env.now)
  {
    hide Arm, MakeResponse, OnTime, Noted;
    var conn := if s.tx.conn.None? && env.resolved then env.found else s.tx.conn;
    var s1 := s.(tx := s.tx.(conn := conn, log := s.tx.log.(resentRequests := s.tx.log.resentRequests + 1)));
    var s2 := WriteMsg(s1, Req(s.tx.original), conn.Some? && env.sendOk);
    CountedOnTime(s.tx, s.tx, s.ep.opt, env.now);
    CountedOnTime(s.tx, s2.tx, s.ep.opt, env.now);
    CountedOnTime(s.tx, Enqueue(s2, Synthetic(s.tx, 503)).tx, s.ep.opt, env.now);
    RearmOnTime(s.tx, s2, A, env.now, Min(span * 2, s.ep.opt.t1x64));
  }

  lemma RetransmitOnTime(s: TE, span: nat, env: Env)
    requires OnTime(s.tx, s.ep.opt)
    ensures var t := RetransmitLastResponse(s, span, env).s.tx; OnTime(t, s.ep.opt) && Noted(s.tx, t, env.now)
  {
    hide Arm, OnTime, Noted;
    var s1 := s.(tx := s.tx.(log := s.tx.log.(resentResponses := s.tx.log.resentResponses + 1)));
    CountedOnTime(s.tx, s1.tx, s.ep.opt, env.now);
    RearmOnTime(s.tx, s1, G, env.now, Min(span * 2, s.ep.opt.t2));
    if s.tx.lastResponse.Some? { RearmOnTime(s.tx, WriteMsg(s1, Resp(s.tx.lastResponse.value), true), G, env.now, Min(span * 2, s.ep.opt.t2)); }
  }

  lemma OnTimerOnTime(s: TE, t: TxTimer, env: Env)
    requires OnTime(s.tx, s.ep.opt)
    ensures OnTime(OnTimer(s, t, env).tx, s.ep.opt) && Noted(s.tx, OnTimer(s, t, env).tx, env.now)
  {
    hide Transition, TimersOf, MakeResponse, ResendRequest, RetransmitLastResponse, OnTime, Noted;
    if !s.tx.state.Terminated? { EndOnTime(s, env); }
    if t.TxTimer? {
      ResendOnTime(s, t.span, env);
      RetransmitOnTime(s, t.span, env);
      SameTimes(s.tx, Enqueue(s, Synthetic(s.tx, 408)).tx, s.ep.opt, env.now);
      SameTimes(s.tx, s.tx, s.ep.opt, env.now);
    }
    SameTimes(s.tx, s.tx, s.ep.opt, env.now);
  }

  lemma CallOnTime(s: TE, e: Event)
    requires IsCall(e) && (e.CallReceive? ==> s.tx.queue != []) && (e.FireTimer? ==> e.slot in s.tx.pending)
    requires e.CallSend? && IsClient(s.tx.kind) ==> s.tx.state.Nothing? || s.tx.state.Calling?
    requires OnTime(s.tx, s.ep.opt) && Held(s.tx)
    ensures OnTime(Called(s, e).tx, s.ep.opt) && Noted(s.tx, Called(s, e).tx, TimeOf(e))
  {
    hide Transition, OnRequest, OnResponse, OnTimer, DoRespond, SendAck, MayHold, MakeResponse, OnTime, Held;
    match e
    case CallSend(_, env) => SendOnTime(s, env);
    case CallReceive(_, env) => ReceiveOnTime(s, env);
    case CallRespond(_, r, env) => RespondOnTime(s, r, env);
    case CallSendAck(_, conn, env) => SendAckOnTime(s, conn, env);
    case QueueRespond(_, _, _) => SameTimes(s.tx, Called(s, e).tx, s.ep.opt, TimeOf(e));
    case CallStop(_, _) => FewerTimes(s, Called(s, e), TimeOf(e));
    case FireTimer(_, _, _) => FewerTimes(s, Called(s, e), TimeOf(e));
  }

  lemma FewerTimes(s: TE, s': TE, now: nat)
    requires OnTime(s.tx, s.ep.opt) && s'.tx.log == s.tx.log && s'.tx.kind == s.tx.kind && s'.tx.state == s.tx.state
    requires forall x :: x in s'.tx.pending ==> x in s.tx.pending && s'.tx.pending[x] == s.tx.pending[x]
    requires C in s.tx.held ==> C in s'.tx.held
    ensures OnTime(s'.tx, s.ep.opt) && Noted(s.tx, s'.tx, now)
  {
  }

  lemma SendOnTime(s: TE, env: Env)
    requires OnTime(s.tx, s.ep.opt) && Held(s.tx) && (IsClient(s.tx.kind) ==> s.tx.state.Nothing? || s.tx.state.Calling?)
    ensures OnTime(Send(s, env).s.tx, s.ep.opt) && Noted(s.tx, Send(s, env).s.tx, env.now)
  {
      hide Transition, MayHold, MakeResponse;
    if IsClient(s.tx.kind) {
      var w := Written(s, env);
      assert OnTime(w.tx, s.ep.opt) && Held(w.tx);
      MoveOnTime(w, Calling, env);
    }
  }

  lemma ReceiveOnTime(s: TE, env: Env)
    requires OnTime(s.tx, s.ep.opt) && Held(s.tx) && s.tx.queue != []
    ensures OnTime(Receive(s, env).tx, s.ep.opt) && Noted(s.tx, Receive(s, env).tx, env.now)
  {
    hide OnRequest, OnResponse, OnTimer, DoRespond, MayHold, OnTime, Held;
    var p := Pop(s);
    SameTimes(s.tx, p.tx, s.ep.opt, env.now);
    match s.tx.queue[0]
    case Received(msg, conn) =>
      match msg {
        case Req(req) => OnRequestOnTime(p, req, conn, env);
        case Resp(resp) => OnResponseOnTime(p, resp, conn, env);
      }
      SameTimes(Handle(p, s.tx.queue[0], env).s.tx, Receive(s, env).tx, s.ep.opt, env.now);
      LoggedTimes(p.tx, Handle(p, s.tx.queue[0], env).s.tx, Receive(s, env).tx, env.now);
    case Fired(t) => OnTimerOnTime(p, t, env);
    case Respond(r) => RespondOnTime(p, r, env);
    case Terminate(_) =>
  }

  // ---- Runs ---------------------------------------------------------------------------------------

  ghost predicate AllOnTime(sys: Sys) {
    forall id :: id in sys.txs ==> OnTime(sys.txs[id], sys.ep.opt)
  }

  lemma HoldsTimers(sys: Sys, id: nat)
    requires Consistent(sys) && id in sys.txs
    ensures Held(sys.txs[id])
  {
    HealthyAt(sys, id, sys.now);
    hide Consistent, Sane, Single, Paced, Alive;
  }

  lemma NewOnTime(kind: TxType, key: Key, original: Request, conn: Option<Conn>, opt: EndpointOption)
    ensures OnTime(NewTx(kind, key, original, conn), opt)
  {
  }

  /** Other steps queue an event, or start a transaction. */
  lemma OtherStep(sys: Sys, e: Event, id: nat)
    requires Consistent(sys) && Possible(sys, e) && !IsCall(e) && AllOnTime(sys) && id in Step(sys, e).txs
    ensures OnTime(Step(sys, e).txs[id], sys.ep.opt)
    ensures id in sys.txs ==> Noted(sys.txs[id], Step(sys, e).txs[id], TimeOf(e))
  {
    hide Consistent, Route, DoCleanup, RunCleanup, OnTime, Noted, Held, System.Earliest, RequestKey;
    NextIsFree(sys);
    if id in sys.txs {
      SameTimes(sys.txs[id], Step(sys, e).txs[id], sys.ep.opt, TimeOf(e));
    } else {
      var t := Step(sys, e).txs[id];
      NewOnTime(t.kind, t.key, t.original, t.conn, sys.ep.opt);
    }
  }

  /** Every step notes the times as they are, and leaves every timer due when it should be. */
  lemma StepOnTime(sys: Sys, e: Event, id: nat)
    requires Consistent(sys) && Possible(sys, e) && AllOnTime(sys) && id in Step(sys, e).txs
    ensures OnTime(Step(sys, e).txs[id], sys.ep.opt)
    ensures id in sys.txs ==> Noted(sys.txs[id], Step(sys, e).txs[id], TimeOf(e))
  {
    hide Consistent, Called, Possible, OnTime, Noted, Held;
    if IsCall(e) {
      CallPossible(sys, e);
      HoldsTimers(sys, e.id);
      CallOnTime(At(sys, e.id), e);
      SameTimes(sys.txs[id], sys.txs[id], sys.ep.opt, TimeOf(e));
    } else {
      OtherStep(sys, e, id);
    }
  }

  lemma {:induction false} RunOnTime(sys: Sys, es: seq<Event>)
    requires Consistent(sys) && Run(sys, es) && AllOnTime(sys)
    ensures AllOnTime(After(sys, es))
    decreases |es|
  {
    if es != [] {
      StepOptions(sys, es[0]);
      forall id | id in Step(sys, es[0]).txs ensures OnTime(Step(sys, es[0]).txs[id], sys.ep.opt) {
        StepOnTime(sys, es[0], id);
      }
      StepConsistent(sys, es[0]);
      hide Consistent, Step, Possible, OnTime;
      RunOnTime(Step(sys, es[0]), es[1..]);
    }
  }

  /** On every run: a pending timer that ends a wait is due its delay after the wait began, and a client
      INVITE that had a provisional response and no final one has its Timer C, pending or fired. */
  lemma DueOnTime(opt: EndpointOption, es: seq<Event>, id: nat)
    requires Run(Start(opt), es) && id in Reached(opt, es).txs
    ensures OnTime(Reached(opt, es).txs[id], opt)
  {
    StartConsistent(opt);
    OptionsStay(Start(opt), es);
    RunOnTime(Start(opt), es);
    hide Run, OnTime;
  }

  /** And the times it counts from are those of the events that began the waits. */
  lemma NotedOnTime(opt: EndpointOption, es: seq<Event>, e: Event, id: nat)
    requires Run(Start(opt), es) && Possible(Reached(opt, es), e)
    requires id in Reached(opt, es).txs && id in Step(Reached(opt, es), e).txs
    ensures Noted(Reached(opt, es).txs[id], Step(Reached(opt, es), e).txs[id], TimeOf(e))
  {
    StartConsistent(opt);
    RunOnTime(Start(opt), es);
    StepOnTime(Reached(opt, es), e, id);
    hide Run, Noted, Step, Possible, OnTime;
  }
}
