/**
 No transaction waits forever: in each waiting state the timer that ends the
 wait is pending or in flight, or the local final response it caused is queued.
 */
module NeverStuck {
  import opened Prelude
  import opened SipMessages
  import opened TransactionKey
  import opened EndpointSpec
  import opened TransactionSpec
  import opened TransactionSanity
  import opened TimerDiscipline
  import opened Pacing
  import opened TransactionInvariant
  import opened TransactionHandlers

  /** The timer that bounds the stay in a state. */
  function Guard(kind: TxType, state: State): Option<Slot> {
    match kind
    case ClientInvite => if state.Calling? then Some(B) else if state.Accepted? then Some(M) else None
    case ClientNonInvite => if state.Calling? || state.Trying? || state.Proceeding? then Some(B) else None
    case ServerInvite =>
      if state.Accepted? then Some(L) else if state.Completed? then Some(D) else if state.Confirmed? then Some(K) else None
    case ServerNonInvite => None
  }

  predicate IsSynthetic(e: TxEvent) {
    e.Received? && e.msg.Resp? && e.msg.response.synthetic
  }

  predicate SyntheticQueued(q: seq<TxEvent>) {
    exists i :: 0 <= i < |q| && IsSynthetic(q[i])
  }

  predicate Guarded(tx: Tx, g: Slot) {
    g in TimersOf(tx) || (g.B? && SyntheticQueued(tx.queue))
  }

  predicate Alive(tx: Tx) {
    && (tx.kind.ClientInvite? ==> !tx.state.Completed?)
    && (Guard(tx.kind, tx.state).Some? ==> Guarded(tx, Guard(tx.kind, tx.state).value))
  }

  /** After event `e` was taken from the queue, before it is handled. */
  predicate AliveBut(tx: Tx, e: TxEvent) {
    && (tx.kind.ClientInvite? ==> !tx.state.Completed?)
    && (Guard(tx.kind, tx.state).Some? ==>
          var g := Guard(tx.kind, tx.state).value;
          Guarded(tx, g) || IsTimer(e, g) || (g.B? && IsSynthetic(e)))
  }

  lemma PopAlive(tx: Tx)
    requires Alive(tx) && Distinct(FiredSlots(tx.queue)) && tx.queue != []
    ensures AliveBut(tx.(queue := tx.queue[1..]), tx.queue[0])
  {
    FlyingPop(tx.queue);
    if SyntheticQueued(tx.queue) && !IsSynthetic(tx.queue[0]) {
      var i :| 0 <= i < |tx.queue| && IsSynthetic(tx.queue[i]);
      assert IsSynthetic(tx.queue[1..][i - 1]);
    }
    hide FiredSlots, Distinct, Flying;
  }

  lemma AppendGuarded(tx: Tx, e: TxEvent, g: Slot)
    requires !e.Fired?
    ensures Guarded(tx, g) || (g.B? && IsSynthetic(e)) ==> Guarded(tx.(queue := tx.queue + [e]), g)
  {
    FiredSlotsAppend(tx.queue, e);
    assert FiredSlots(tx.queue + [e]) == FiredSlots(tx.queue) by { assert [e][1..] == []; }
    if IsSynthetic(e) {
      assert IsSynthetic((tx.queue + [e])[|tx.queue|]);
    }
    if SyntheticQueued(tx.queue) {
      var i :| 0 <= i < |tx.queue| && IsSynthetic(tx.queue[i]);
      assert IsSynthetic((tx.queue + [e])[i]);
    }
    hide FiredSlots;
  }

  // ---- State entries arm their guard -----------------------------------------------

  lemma EnterCallingGuard(s: TE, now: nat)
    requires IsClient(s.tx.kind)
    ensures B in EnterCalling(s, now).tx.pending
  {
    hide TimersOf;
  }

  lemma EnterProvisionalGuard(s: TE, now: nat)
    requires !s.tx.kind.ClientInvite?
    ensures B in s.tx.pending ==> B in EnterProvisional(s, now).tx.pending
  {
    hide TimersOf;
  }

  lemma EnterAcceptedGuard(s: TE, now: nat)
    requires s.tx.kind.ClientInvite? || s.tx.kind.ServerInvite?
    ensures Guard(s.tx.kind, Accepted).value in EnterAccepted(s, now).s.tx.pending
  {
    hide TimersOf, ResponseDialog;
  }

  lemma EnterCompletedGuard(s: TE, now: nat)
    requires s.tx.kind.ServerInvite? && EnterCompleted(s, now).ok
    ensures D in EnterCompleted(s, now).s.tx.pending
  {
    hide TimersOf, ResponseDialog;
  }

  lemma EnterConfirmedGuard(s: TE, now: nat)
    ensures K in EnterConfirmed(s, now).tx.pending
  {
    hide TimersOf, ForgetRoutes;
    ForgetRoutesFacts(Disarm(s, ALL_SLOTS));
  }

  /** A transition out of `s.tx.state` leaves the transaction guarded, given that a
      non-INVITE client that goes on waiting still has its Timer B. */
  lemma TransitionGuard(s: TE, target: State, env: Env)
    requires s.tx.state != target && !target.Terminated? && Reaches(s.tx.kind, target) && Transition(s, target, env).ok
    ensures var tx := Transition(s, target, env).s.tx;
            Guard(s.tx.kind, target).Some? ==>
              var g := Guard(s.tx.kind, target).value;
              g in tx.pending || (g.B? && (target.Trying? || target.Proceeding?) && tx.queue == s.tx.queue
                                  && (B in s.tx.pending ==> B in tx.pending))
  {
    EnterFacts(s, target, env);
    hide EnterCalling, EnterProvisional, EnterAccepted, EnterCompleted, EnterConfirmed, EnterTerminated, KeepsTables, CanEnter;
    match target
    case Calling => if IsClient(s.tx.kind) { EnterCallingGuard(s, env.now); }
    case Trying => if !s.tx.kind.ClientInvite? { EnterProvisionalGuard(s, env.now); }
    case Proceeding => if !s.tx.kind.ClientInvite? { EnterProvisionalGuard(s, env.now); }
    case Accepted => if s.tx.kind.ClientInvite? || s.tx.kind.ServerInvite? { EnterAcceptedGuard(s, env.now); }
    case Completed => if s.tx.kind.ServerInvite? { EnterCompletedGuard(s, env.now); }
    case Confirmed => EnterConfirmedGuard(s, env.now);
    case Nothing =>
  }

  lemma EndAlive(s: TE, env: Env)
    ensures Alive(Transition(s, Terminated, env).s.tx)
  {
    hide EnterTerminated;
    TransitionEndState(s, env);
  }

  lemma TransitionAlive(s: TE, target: State, env: Env)
    requires !target.Terminated? && Reaches(s.tx.kind, target) && Transition(s, target, env).ok
    requires !(s.tx.kind.ClientInvite? && target.Completed?)
    requires s.tx.state == target || (s.tx.kind.ClientNonInvite? && (target.Trying? || target.Proceeding?)) ==> Alive(s.tx)
    requires s.tx.kind.ClientNonInvite? && (target.Trying? || target.Proceeding?) ==> s.tx.state.Calling? || s.tx.state.Trying? || s.tx.state.Proceeding?
    ensures Alive(Transition(s, target, env).s.tx)
  {
    TransitionFacts(s, target, env);
    if s.tx.state != target {
      TransitionGuard(s, target, env);
    }
    hide Transition, KeepsTables, CanEnter, FiredSlots;
  }

  // ---- Handlers ----------------------------------------------------------------------

  /** The same state, queue and timers, or more of them. */
  predicate NoLess(t: Tx, t': Tx) {
    t'.kind == t.kind && t'.state == t.state && t'.queue == t.queue && t.pending.Keys <= t'.pending.Keys
  }

  lemma NoLessAlive(t: Tx, t': Tx)
    requires Alive(t) && NoLess(t, t')
    ensures Alive(t')
  {
    hide FiredSlots;
  }

  lemma RespondAlive(s: TE, r: Response, env: Env)
    requires Inv(s.tx, s.ep.opt, env.now) && Alive(s.tx) && (!IsClient(s.tx.kind) ==> Answers(s.tx.original, r))
    ensures Alive(DoRespond(s, r, env).s.tx)
  {
    var target := RespondState(s.tx.kind, r);
    if !IsClient(s.tx.kind) && CanTransition(s.tx.state, target) && s.tx.conn.Some? {
      StoreInv(s, r, env);
      var s1 := WriteMsg(s.(tx := s.tx.(lastResponse := Some(r))), Resp(r), true);
      NoLessAlive(s.tx, s1.tx);
      assert Sane(s.tx);
      hide Inv, Transition, Alive;
      if env.sendOk {
        if target.Terminated? {
          EndAlive(s1, env);
        } else {
          TransitionInv(s1, target, env);
          TransitionAlive(s1, target, env);
        }
      }
    }
  }

  lemma ConfirmAlive(s: TE, env: Env)
    requires Inv(s.tx, s.ep.opt, env.now) && Alive(s.tx)
    requires (s.tx.state.Completed? || s.tx.state.Confirmed?) && s.tx.kind.ServerInvite?
    ensures Alive(Transition(s, Confirmed, env).s.tx)
  {
    assert Sane(s.tx);
    hide Inv, Transition, Alive;
    TransitionAlive(s, Confirmed, env) by { if s.tx.state.Completed? { TransitionInv(s, Confirmed, env); } else { TransitionFacts(s, Confirmed, env); } }
  }

  lemma ConnectedAlive(s0: TE, conn: Option<Conn>)
    requires Alive(s0.tx)
    ensures Alive(Connected(s0, conn).tx)
  {
    NoLessAlive(s0.tx, Connected(s0, conn).tx);
    hide Alive;
  }

  lemma OnRequestAlive(s0: TE, r: Request, conn: Option<Conn>, env: Env)
    requires Inv(s0.tx, s0.ep.opt, env.now) && Alive(s0.tx)
    ensures Alive(OnRequest(s0, r, conn, env).s.tx)
  {
    hide OnRequest, Inv, Transition, DoRespond, OnCancel, Answers, Alive;
    RequestCases(s0, r, conn, env);
    if !IsClient(s0.tx.kind) {
      var s := Connected(s0, conn);
      ConnectedInv(s0, conn, env.now);
      ConnectedAlive(s0, conn);
      OnCancelKeeps(s, r, env);
      if s.tx.state.Accepted? {
        EndAlive(s, env);
      } else if s.tx.state.Completed? || s.tx.state.Confirmed? {
        ConfirmAlive(s, env);
      } else if s.tx.lastResponse.Some? {
        RespondAlive(s, s.tx.lastResponse.value, env);
      }
    }
  }

  lemma OnForwarded2xxAlive(s: TE, r: Response, env: Env)
    requires Inv(s.tx, s.ep.opt, env.now) && s.tx.kind.ClientInvite? && Alive(s.tx)
    ensures Alive(OnForwarded2xx(s, r, env).s.tx)
  {
    if s.tx.state.Accepted? {
      NoLessAlive(s.tx, s.tx.(lastResponse := Some(r)));
    } else if CanTransition(s.tx.state, Accepted) {
      hide Inv, Transition, Alive;
      TransitionInv(s, Accepted, env);
      TransitionAlive(s, Accepted, env);
      var m := Transition(s, Accepted, env);
      NoLessAlive(m.s.tx, m.s.tx.(lastResponse := Some(r)));
    }
  }

  lemma SendAckAlive(s: TE, conn: Option<Conn>, env: Env)
    requires Inv(s.tx, s.ep.opt, env.now) && s.tx.kind.ClientInvite?
    requires s.tx.state.Completed? ==> s.tx.lastResponse.Some? && !Successful(s.tx.lastResponse.value)
    requires !s.tx.state.Completed? ==> Alive(s.tx)
    ensures Alive(SendAck(s, conn, env).s.tx)
  {
    assert s.tx.state.Completed? ==> ChooseAck(s.tx, env.branch).Some?;
    SendAckInv(s, conn, env);
    hide SendAck, Inv, Alive;
    if s.tx.state.Completed? {
      assert Guard(SendAck(s, conn, env).s.tx.kind, Terminated).None?;
      assert Alive(SendAck(s, conn, env).s.tx) by { TerminatedAlive(SendAck(s, conn, env).s.tx); }
    } else {
      NoLessAlive(s.tx, SendAck(s, conn, env).s.tx);
    }
  }

  lemma TerminatedAlive(tx: Tx)
    requires tx.state.Terminated?
    ensures Alive(tx)
  {
    hide TimersOf, SyntheticQueued;
  }

  /** The client has sent its request, so a waiting state has its timer. */
  lemma OnResponseAlive(s: TE, r: Response, conn: Option<Conn>, env: Env, e: TxEvent)
    requires Inv(s.tx, s.ep.opt, env.now) && AliveBut(s.tx, e) && e == Received(Resp(r), conn) && OkEvent(s.tx, e)
    requires !s.tx.state.Nothing?
    ensures Alive(OnResponse(s, r, conn, env).s.tx)
  {
    if IsClient(s.tx.kind) {
      assert Reaches(s.tx.kind, s.tx.state);
      var target := ResponseState(s.tx.kind, r, s.ep.opt);
      var s0 := s.(tx := s.tx.(lastResponse := Some(r)));
      if r.synthetic && Guard(s.tx.kind, s.tx.state) == Some(B) {
        assert CanTransition(s.tx.state, target) && !Duplicate(s.tx, r, target);
      } else {
        assert Alive(s.tx);
        NoLessAlive(s.tx, s0.tx);
      }
      if s.tx.kind.ClientInvite? && Successful(r) && MultipleVias(r) {
        OnForwarded2xxAlive(s, r, env);
      } else if CanTransition(s.tx.state, target) && !Duplicate(s.tx, r, target) {
        StoreInv(s, r, env);
        hide Inv, Transition, SendAck, OnForwarded2xx, Duplicate, AliveBut, Alive, OkEvent;
        var s1 := Transition(s0, target, env).s;
        if target.Terminated? {
          EndAlive(s0, env);
        } else {
          TransitionInv(s0, target, env);
          TransitionFacts(s0, target, env);
          if target.Completed? {
            SendAckAlive(s1, conn, env);
          } else {
            TransitionAlive(s0, target, env);
            if s.tx.kind.ClientInvite? { SendAckAlive(s1, conn, env); }
          }
        }
      } else {
        hide OnForwarded2xx, Transition, SendAck;
      }
    } else {
      hide OnForwarded2xx, Transition, SendAck, Duplicate;
    }
  }

  // ---- Timer events ---------------------------------------------------------------------

  /** What is known before a timer event is handled, `s` being without it. */
  ghost predicate TimerReady(s: TE, t: TxTimer, now: nat) {
    && t.TxTimer? && Inv(s.tx, s.ep.opt, now) && AliveBut(s.tx, Fired(t)) && t.slot !in TimersOf(s.tx)
    && (IsClient(s.tx.kind) && t.slot.A? && !s.tx.state.Nothing? ==>
          HandlingSeries(s.tx, A, B, s.tx.log.resentRequests, s.tx.log.callingSince, RequestPace(s.ep.opt), t.span, now))
    && (s.tx.kind.ServerInvite? && t.slot.G? && (s.tx.state.Accepted? || s.tx.state.Completed?) ==>
          HandlingSeries(s.tx, G, StopOfG(s.tx.state), s.tx.log.resentResponses, s.tx.log.finalSince, ResponsePace(s.ep.opt), t.span, now))
  }

  lemma PopTimerReady(s: TE, now: nat)
    requires s.tx.queue != [] && s.tx.queue[0].Fired? && s.tx.queue[0].timer.TxTimer?
    requires Inv(s.tx, s.ep.opt, now) && Alive(s.tx)
    ensures TimerReady(Pop(s), s.tx.queue[0].timer, now)
  {
    var t := s.tx.queue[0].timer;
    PopInv(s.tx, s.ep.opt, now);
    PopDisciplined(s.tx);
    PopAlive(s.tx);
    hide Sane, Series, Handling, FiredSlots, Distinct, Earliest, Span, Phased, Alive, AliveBut;
    if IsClient(s.tx.kind) && t.slot.A? && !s.tx.state.Nothing? {
      PopSelf(s.tx.pending, s.tx.queue, A, B, s.tx.log.resentRequests, s.tx.log.callingSince, RequestPace(s.ep.opt), now);
    }
    if s.tx.kind.ServerInvite? && t.slot.G? && (s.tx.state.Accepted? || s.tx.state.Completed?) {
      PopSelf(s.tx.pending, s.tx.queue, G, StopOfG(s.tx.state), s.tx.log.resentResponses, s.tx.log.finalSince, ResponsePace(s.ep.opt), now);
    }
  }

  lemma OnSetupTimerGood(s: TE, t: TxTimer, env: Env)
    requires TimerReady(s, t, env.now) && (s.tx.state.Calling? || s.tx.state.Trying?)
    ensures Inv(OnSetupTimer(s, t, env).tx, s.ep.opt, env.now)
    ensures Alive(OnSetupTimer(s, t, env).tx)
  {
    var e := Synthetic(s.tx, 408);
    if IsClient(s.tx.kind) && t.slot.A? {
      ResendInv(s, t.span, env);
      ResendAlive(s, t.span, env);
    } else if IsClient(s.tx.kind) && t.slot.B? {
      AppendInv(s.tx, e, s.ep.opt, env.now);
      SyntheticAlive(s.tx, e, Fired(t));
      hide Inv;
    } else {
      hide Inv, FiredSlots;
    }
  }

  lemma SyntheticAlive(tx: Tx, e: TxEvent, gone: TxEvent)
    requires AliveBut(tx, gone) && IsSynthetic(e) && IsTimer(gone, B)
    ensures Alive(tx.(queue := tx.queue + [e]))
  {
    AppendGuarded(tx, e, if Guard(tx.kind, tx.state).Some? then Guard(tx.kind, tx.state).value else B);
    hide TimersOf, SyntheticQueued;
  }

  lemma ResendAlive(s: TE, span: nat, env: Env)
    requires Alive(s.tx)
    ensures Alive(ResendRequest(s, span, env).tx)
  {
    var conn := if s.tx.conn.None? && env.resolved then env.found else s.tx.conn;
    var s1 := s.(tx := s.tx.(conn := conn, log := s.tx.log.(resentRequests := s.tx.log.resentRequests + 1)));
    if Guard(s.tx.kind, s.tx.state).Some? {
      AppendGuarded(s1.tx, Synthetic(s.tx, 503), Guard(s.tx.kind, s.tx.state).value);
    }
    hide FiredSlots, SyntheticQueued;
  }

  lemma RetransmitAlive(s: TE, span: nat, env: Env)
    requires Alive(s.tx)
    ensures Alive(RetransmitLastResponse(s, span, env).s.tx)
  {
    hide FiredSlots, SyntheticQueued;
  }

  lemma OnTimerGood(s: TE, t: TxTimer, env: Env)
    requires TimerReady(s, t, env.now)
    ensures Inv(OnTimer(s, t, env).tx, s.ep.opt, env.now)
    ensures Alive(OnTimer(s, t, env).tx)
  {
    assert Reaches(s.tx.kind, s.tx.state);
    hide Inv, Transition, OnSetupTimer, RetransmitLastResponse, HandlingSeries, TimersOf;
    match s.tx.state
    case Calling => OnSetupTimerGood(s, t, env);
    case Trying => OnSetupTimerGood(s, t, env);
    case Proceeding =>
      if t.slot.C? || (t.slot.B? && s.tx.kind.ClientNonInvite?) {
        var e := Synthetic(s.tx, 408);
        AppendInv(s.tx, e, s.ep.opt, env.now);
        if t.slot.B? { SyntheticAlive(s.tx, e, Fired(t)); }
        else {
          if s.tx.kind.ClientNonInvite? { AppendGuarded(s.tx, e, B); }
        }
      }
    case Completed =>
      if t.slot.D? || t.slot.K? {
        EndInv(s, env);
        EndAlive(s, env);
      } else if t.slot.G? {
        if s.tx.kind.ServerInvite? {
          RetransmitInv(s, t.span, env);
          RetransmitAlive(s, t.span, env);
        }
      }
    case Accepted =>
      if (t.slot.L? && s.tx.kind.ServerInvite?) || (t.slot.M? && s.tx.kind.ClientInvite?) {
        EndInv(s, env);
        EndAlive(s, env);
      } else if t.slot.G? && s.tx.kind.ServerInvite? {
        RetransmitInv(s, t.span, env);
        RetransmitAlive(s, t.span, env);
      }
    case Confirmed =>
      if t.slot.K? {
        EndInv(s, env);
        EndAlive(s, env);
      }
    case _ =>
  }

  // ---- One iteration of `receive`, and the other entry points ------------------------------

  lemma HandleGood(s0: TE, env: Env)
    requires s0.tx.queue != [] && Inv(s0.tx, s0.ep.opt, env.now) && Alive(s0.tx)
    requires IsClient(s0.tx.kind) ==> !s0.tx.state.Nothing?
    ensures var h := Handle(Pop(s0), s0.tx.queue[0], env);
            Inv(h.s.tx, s0.ep.opt, env.now) && Alive(h.s.tx)
  {
    var s, e := Pop(s0), s0.tx.queue[0];
    PopInv(s0.tx, s0.ep.opt, env.now);
    PopAlive(s0.tx) by { assert Disciplined(s0.tx); }
    hide Inv, OnRequest, OnResponse, OnTimer, DoRespond, TimersOf, SyntheticQueued;
    match e
    case Received(msg, conn) =>
      match msg {
        case Req(req) => OnRequestInv(s, req, conn, env); OnRequestAlive(s, req, conn, env);
        case Resp(resp) => OnResponseInv(s, resp, conn, env); OnResponseAlive(s, resp, conn, env, e);
      }
    case Fired(t) => PopTimerReady(s0, env.now); OnTimerGood(s, t, env);
    case Respond(r) => RespondInv(s, r, env); RespondAlive(s, r, env);
    case Terminate(_) =>
  }

  lemma ReceiveGood(s: TE, env: Env)
    requires s.tx.queue != [] && Inv(s.tx, s.ep.opt, env.now) && Alive(s.tx)
    requires IsClient(s.tx.kind) ==> !s.tx.state.Nothing?
    ensures Inv(Receive(s, env).tx, s.ep.opt, env.now) && Alive(Receive(s, env).tx)
  {
    hide Inv, Alive, Handle;
    HandleGood(s, env);
    var h := Handle(Pop(s), s.tx.queue[0], env);
    SameCoreInv(h.s.tx, NoteDelivery(h).tx, s.ep.opt, env.now);
    NoLessAlive(h.s.tx, NoteDelivery(h).tx);
  }

  /** A message or a `Respond` event reaches the queue. */
  lemma EnqueueGood(tx: Tx, e: TxEvent, opt: EndpointOption, now: nat)
    requires Inv(tx, opt, now) && Alive(tx) && OkEvent(tx, e) && !e.Fired?
    ensures Inv(tx.(queue := tx.queue + [e]), opt, now) && Alive(tx.(queue := tx.queue + [e]))
  {
    AppendInv(tx, e, opt, now);
    if Guard(tx.kind, tx.state).Some? {
      AppendGuarded(tx, e, Guard(tx.kind, tx.state).value);
    }
    hide Inv, TimersOf, SyntheticQueued;
  }

  lemma CallingGood(s: TE, env: Env)
    requires Inv(s.tx, s.ep.opt, env.now) && Alive(s.tx) && IsClient(s.tx.kind)
    requires s.tx.state.Nothing? || s.tx.state.Calling?
    ensures var m := Transition(s, Calling, env);
            m.ok && Inv(m.s.tx, s.ep.opt, env.now) && Alive(m.s.tx) && SameIdentity(s.tx, m.s.tx)
  {
    hide Inv, Alive, Transition, KeepsTables;
    TransitionInv(s, Calling, env);
    TransitionFacts(s, Calling, env);
    TransitionAlive(s, Calling, env);
  }

  /** `s` with its request written, before the transition to Calling. */
  function Written(s: TE, env: Env): TE {
    var conn := if s.tx.conn.None? then env.found else s.tx.conn;
    WriteMsg(s.(tx := s.tx.(conn := conn)), Req(s.tx.original), conn.Some? && env.sendOk)
  }

  lemma WrittenGood(s: TE, env: Env)
    requires Inv(s.tx, s.ep.opt, env.now) && Alive(s.tx)
    ensures Inv(Written(s, env).tx, s.ep.opt, env.now) && Alive(Written(s, env).tx)
  {
    SameCoreInv(s.tx, Written(s, env).tx, s.ep.opt, env.now);
    NoLessAlive(s.tx, Written(s, env).tx);
    hide Inv, Alive;
  }

  lemma SendGood(s: TE, env: Env)
    requires Inv(s.tx, s.ep.opt, env.now) && Alive(s.tx)
    requires s.tx.state.Nothing? || s.tx.state.Calling?
    ensures Inv(Send(s, env).s.tx, s.ep.opt, env.now) && Alive(Send(s, env).s.tx)
  {
    hide Inv, Alive, Transition, OkEvent;
    if IsClient(s.tx.kind) {
      var s2 := Written(s, env);
      WrittenGood(s, env);
      CallingGood(s2, env);
      var tx, e := Transition(s2, Calling, env).s.tx, Synthetic(s.tx, 503);
      assert OkEvent(tx, e) by { SyntheticOk(tx, s.tx); }
      EnqueueGood(tx, e, s.ep.opt, env.now);
    }
  }

  lemma SyntheticOk(tx: Tx, from: Tx)
    ensures OkEvent(tx, Synthetic(from, 503))
  {
  }

  lemma StopGood(s: TE, now: nat)
    requires Inv(s.tx, s.ep.opt, now) && Alive(s.tx)
    ensures Inv(StopRetransmissions(s).tx, s.ep.opt, now) && Alive(StopRetransmissions(s).tx)
  {
    var tx' := StopRetransmissions(s).tx;
    SameSane(s.tx, tx');
    assert Disciplined(tx') by { hide FiredSlots, Distinct; }
    StopPaced(s, now);
    hide Sane, Disciplined, Paced, FiredSlots, SyntheticQueued;
  }

  lemma StopPaced(s: TE, now: nat)
    requires Paced(s.tx, s.ep.opt, now)
    ensures Paced(StopRetransmissions(s).tx, s.ep.opt, now)
  {
    var t, t' := s.tx, StopRetransmissions(s).tx;
    hide Series, Earliest, Flying;
    if IsClient(t.kind) && !t.state.Nothing? {
      KeepSeries(t.pending, t'.pending, t.queue, A, B, t.log.resentRequests, t.log.callingSince, RequestPace(s.ep.opt), now);
    }
    if t.kind.ServerInvite? && (t.state.Accepted? || t.state.Completed?) {
      KeepSeries(t.pending, t'.pending, t.queue, G, StopOfG(t.state), t.log.resentResponses, t.log.finalSince, ResponsePace(s.ep.opt), now);
    }
  }

  /** The wheel releases a timer of this transaction: its earliest, due by `now`. */
  lemma FireGood(tx: Tx, slot: Slot, opt: EndpointOption, now: nat)
    requires Inv(tx, opt, now) && Alive(tx) && slot in tx.pending && tx.pending[slot].due <= now
    requires forall x :: x in tx.pending ==> tx.pending[slot].due <= tx.pending[x].due
    ensures var tx' := tx.(pending := tx.pending - {slot},
                           queue := tx.queue + [Fired(TxTimer(slot, tx.key, tx.pending[slot].span))]);
            Inv(tx', opt, now) && Alive(tx')
  {
    var e := Fired(TxTimer(slot, tx.key, tx.pending[slot].span));
    var tx' := tx.(pending := tx.pending - {slot}, queue := tx.queue + [e]);
    assert Sane(tx') by {
      forall i | 0 <= i < |tx'.queue| ensures OkEvent(tx', tx'.queue[i]) {
        assert i < |tx.queue| ==> OkEvent(tx, tx.queue[i]);
      }
    }
    FireDisciplined(tx, slot);
    FirePaced(tx, slot, opt, now);
    FireAlive(tx, slot);
    hide Sane, Disciplined, Paced, Alive;
  }

  lemma FireDisciplined(tx: Tx, slot: Slot)
    requires Disciplined(tx) && slot in tx.pending
    ensures var tx' := tx.(pending := tx.pending - {slot},
                           queue := tx.queue + [Fired(TxTimer(slot, tx.key, tx.pending[slot].span))]);
            Disciplined(tx') && TimersOf(tx') == TimersOf(tx)
  {
    FiringFacts(tx.queue, slot, Fired(TxTimer(slot, tx.key, tx.pending[slot].span)));
    assert slot !in tx.pending.Keys * Flying(tx.queue);
    hide FiredSlots, Flying;
  }

  lemma FirePaced(tx: Tx, slot: Slot, opt: EndpointOption, now: nat)
    requires Disciplined(tx) && Paced(tx, opt, now) && slot in tx.pending && tx.pending[slot].due <= now
    requires forall x :: x in tx.pending ==> tx.pending[slot].due <= tx.pending[x].due
    ensures Paced(tx.(pending := tx.pending - {slot},
                      queue := tx.queue + [Fired(TxTimer(slot, tx.key, tx.pending[slot].span))]), opt, now)
  {
    hide Series, Earliest, Flying, FiredSlots, Phased, Distinct;
    if IsClient(tx.kind) && !tx.state.Nothing? {
      FireSeries(tx.pending, tx.queue, slot, tx.key, A, B, tx.log.resentRequests, tx.log.callingSince, RequestPace(opt), now);
    }
    if tx.kind.ServerInvite? && (tx.state.Accepted? || tx.state.Completed?) {
      FireSeries(tx.pending, tx.queue, slot, tx.key, G, StopOfG(tx.state), tx.log.resentResponses, tx.log.finalSince, ResponsePace(opt), now);
    }
  }

  lemma FireAlive(tx: Tx, slot: Slot)
    requires Disciplined(tx) && Alive(tx) && slot in tx.pending
    ensures Alive(tx.(pending := tx.pending - {slot},
                      queue := tx.queue + [Fired(TxTimer(slot, tx.key, tx.pending[slot].span))]))
  {
    var e := Fired(TxTimer(slot, tx.key, tx.pending[slot].span));
    FireDisciplined(tx, slot);
    if SyntheticQueued(tx.queue) {
      var i :| 0 <= i < |tx.queue| && IsSynthetic(tx.queue[i]);
      assert IsSynthetic((tx.queue + [e])[i]);
    }
    hide Disciplined, TimersOf;
  }

  lemma NewGood(kind: TxType, key: Key, original: Request, conn: Option<Conn>, opt: EndpointOption, now: nat)
    requires kind.ServerInvite? ==> original.verb == Invite
    ensures Inv(NewTx(kind, key, original, conn), opt, now) && Alive(NewTx(kind, key, original, conn))
  {
    var tx := NewTx(kind, key, original, conn);
    hide Earliest;
  }
}
