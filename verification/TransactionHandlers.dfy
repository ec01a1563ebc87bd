/** Every event a transaction handles keeps its invariant. */
module TransactionHandlers {
  import opened Prelude
  import opened SipMessages
  import opened TransactionKey
  import opened EndpointSpec
  import opened TransactionSpec
  import opened TransactionSanity
  import opened TimerDiscipline
  import opened Pacing
  import opened TransactionInvariant

  /** Storing a response the state already stands for. */
  lemma StoreInv(s: TE, r: Response, env: Env)
    requires Inv(s.tx, s.ep.opt, env.now)
    requires !IsClient(s.tx.kind) ==> Answers(s.tx.original, r) && CanTransition(s.tx.state, RespondState(s.tx.kind, r))
    ensures Inv(s.tx.(lastResponse := Some(r)), s.ep.opt, env.now)
  {
    var tx' := s.tx.(lastResponse := Some(r));
    assert Sane(tx') by {
      forall i | 0 <= i < |tx'.queue| ensures OkEvent(tx', tx'.queue[i]) { assert OkEvent(s.tx, s.tx.queue[i]); }
    }
    hide Sane, Distinct, Flying, FiredSlots, Series, Earliest;
  }

  lemma RespondInv(s: TE, r: Response, env: Env)
    requires Inv(s.tx, s.ep.opt, env.now) && (!IsClient(s.tx.kind) ==> Answers(s.tx.original, r))
    ensures Inv(DoRespond(s, r, env).s.tx, s.ep.opt, env.now)
  {
    var target := RespondState(s.tx.kind, r);
    if !IsClient(s.tx.kind) && CanTransition(s.tx.state, target) && s.tx.conn.Some? {
      StoreInv(s, r, env);
      var s1 := WriteMsg(s.(tx := s.tx.(lastResponse := Some(r))), Resp(r), true);
      hide Inv, Transition;
      if env.sendOk {
        if target.Terminated? {
          EndInv(s1, env);
        } else {
          TransitionInv(s1, target, env);
        }
      }
    }
  }

  lemma ConfirmInv(s: TE, env: Env)
    requires Inv(s.tx, s.ep.opt, env.now) && (s.tx.state.Completed? || s.tx.state.Confirmed?) && s.tx.kind.ServerInvite?
    ensures Inv(Transition(s, Confirmed, env).s.tx, s.ep.opt, env.now)
  {
    if s.tx.state.Completed? {
      assert Sane(s.tx);
      hide Inv, Transition;
      TransitionInv(s, Confirmed, env);
    }
  }

  lemma ConnectedInv(s0: TE, conn: Option<Conn>, now: nat)
    requires Inv(s0.tx, s0.ep.opt, now) && !IsClient(s0.tx.kind)
    ensures var tx := Connected(s0, conn).tx;
            && Inv(tx, s0.ep.opt, now) && Reaches(tx.kind, tx.state)
            && (tx.lastResponse.Some? ==> Answers(tx.original, tx.lastResponse.value))
  {
    SameCoreInv(s0.tx, Connected(s0, conn).tx, s0.ep.opt, now);
    hide Answers, Series, Distinct, FiredSlots;
  }

  lemma OnRequestInv(s0: TE, r: Request, conn: Option<Conn>, env: Env)
    requires Inv(s0.tx, s0.ep.opt, env.now)
    ensures Inv(OnRequest(s0, r, conn, env).s.tx, s0.ep.opt, env.now)
  {
    hide OnRequest, Inv, Transition, DoRespond, OnCancel, Answers;
    RequestCases(s0, r, conn, env);
    if !IsClient(s0.tx.kind) {
      var s := Connected(s0, conn);
      ConnectedInv(s0, conn, env.now);
      OnCancelKeeps(s, r, env);
      if s.tx.state.Accepted? {
        EndInv(s, env);
      } else if s.tx.state.Completed? || s.tx.state.Confirmed? {
        ConfirmInv(s, env);
      } else if s.tx.lastResponse.Some? {
        RespondInv(s, s.tx.lastResponse.value, env);
      }
    }
  }

  lemma SendAckInv(s: TE, conn: Option<Conn>, env: Env)
    requires Inv(s.tx, s.ep.opt, env.now)
    ensures Inv(SendAck(s, conn, env).s.tx, s.ep.opt, env.now)
    ensures s.tx.kind.ClientInvite? && s.tx.state.Completed? && ChooseAck(s.tx, env.branch).Some? ==>
              SendAck(s, conn, env).s.tx.state.Terminated?
    ensures !s.tx.state.Completed? ==> SameCore(s.tx, SendAck(s, conn, env).s.tx)
    ensures !s.tx.state.Completed? ==> SendAck(s, conn, env).s.tx.lastResponse == s.tx.lastResponse
  {
    hide ChooseAck, Inv, Transition, Ended;
    var chosen := ChooseAck(s.tx, env.branch);
    if s.tx.kind.ClientInvite? && (s.tx.state.Completed? || s.tx.state.Accepted?) && chosen.Some? {
      var s1 := PutAck(s, chosen.value, conn, env);
      SameCoreInv(s.tx, s1.tx, s.ep.opt, env.now);
      if s.tx.state.Completed? {
        EndInv(s1, env);
        assert Transition(s1, Terminated, env).s.tx.state.Terminated? by { TransitionEndState(s1, env); }
      }
    }
  }

  lemma TransitionEndState(s: TE, env: Env)
    ensures Transition(s, Terminated, env).s.tx.state.Terminated?
  {
    hide EnterTerminated;
  }

  lemma OnForwarded2xxInv(s: TE, r: Response, env: Env)
    requires Inv(s.tx, s.ep.opt, env.now) && s.tx.kind.ClientInvite?
    ensures Inv(OnForwarded2xx(s, r, env).s.tx, s.ep.opt, env.now)
  {
    hide Inv, Transition;
    if s.tx.state.Accepted? {
      StoreInv(s, r, env);
    } else if CanTransition(s.tx.state, Accepted) {
      TransitionInv(s, Accepted, env);
      var m := Transition(s, Accepted, env);
      assert m.s.tx.kind == s.tx.kind && m.s.ep.opt == s.ep.opt by { TransitionFacts(s, Accepted, env); }
      StoreInv(m.s, r, env);
    }
  }

  lemma OnResponseInv(s: TE, r: Response, conn: Option<Conn>, env: Env)
    requires Inv(s.tx, s.ep.opt, env.now)
    ensures Inv(OnResponse(s, r, conn, env).s.tx, s.ep.opt, env.now)
  {
    if IsClient(s.tx.kind) {
      if s.tx.kind.ClientInvite? && Successful(r) && MultipleVias(r) {
        OnForwarded2xxInv(s, r, env);
      } else {
        var target := ResponseState(s.tx.kind, r, s.ep.opt);
        if CanTransition(s.tx.state, target) {
          StoreInv(s, r, env);
          assert Reaches(s.tx.kind, s.tx.state);
          var s0 := s.(tx := s.tx.(lastResponse := Some(r)));
          hide Inv, Transition, SendAck, OnForwarded2xx, Duplicate;
          var s1 := Transition(s0, target, env).s;
          if target.Terminated? {
            EndInv(s0, env);
          } else {
            TransitionInv(s0, target, env);
            assert s1.ep.opt == s.ep.opt by { TransitionFacts(s0, target, env); }
            SendAckInv(s1, conn, env);
          }
        }
      }
    }
  }

  // ---- Timers --------------------------------------------------------------------

  /** What the head of the queue being `slot`'s event tells about the rest. */
  ghost predicate HandlingSeries(tx: Tx, slot: Slot, stop: Slot, n: nat, since: nat, p: Pace, span: nat, now: nat) {
    && slot !in TimersOf(tx)
    && Handling(tx.pending, tx.queue, stop, n, since, p, now)
    && span == Span(n, p.t1, p.cap)
  }

  lemma RearmDisciplined(s: TE, slot: Slot, now: nat, delay: nat)
    requires Disciplined(s.tx) && slot !in TimersOf(s.tx) && slot in MayHold(s.tx.state) && slot != C && !s.tx.state.Terminated?
    ensures Disciplined(Arm(s, slot, now, delay).tx)
  {
    hide FiredSlots, Distinct, Flying;
  }

  lemma ResendInv(s: TE, span: nat, env: Env)
    requires Inv(s.tx, s.ep.opt, env.now) && IsClient(s.tx.kind) && (s.tx.state.Calling? || s.tx.state.Trying?)
    requires HandlingSeries(s.tx, A, B, s.tx.log.resentRequests, s.tx.log.callingSince, RequestPace(s.ep.opt), span, env.now)
    ensures Inv(ResendRequest(s, span, env).tx, s.ep.opt, env.now)
  {
    var n, since, p, q := s.tx.log.resentRequests, s.tx.log.callingSince, RequestPace(s.ep.opt), s.tx.queue;
    var conn := if s.tx.conn.None? && env.resolved then env.found else s.tx.conn;
    var s1 := s.(tx := s.tx.(conn := conn, log := s.tx.log.(resentRequests := n + 1)));
    var s2 := WriteMsg(s1, Req(s.tx.original), conn.Some? && env.sendOk);
    if s.tx.retransmission {
      assert A !in Flying(q) && A !in s.tx.pending;
      SameSane(s.tx, s2.tx);
      NoRearm(s.tx.pending, q, A, B, n, since, p, env.now);
      Rearm(s.tx.pending, q, A, B, n, since, p, env.now, span);
      assert Inv(s2.tx, s.ep.opt, env.now) by {
        hide FiredSlots, Distinct, Flying, Series, Earliest, Sane;
      }
      hide FiredSlots, Distinct, Flying, Series, Earliest, Span;
      if conn == Some(Stream) && !env.sendOk {
        hide Inv;
        AppendInv(s2.tx, Synthetic(s.tx, 503), s.ep.opt, env.now);
      } else {
        RearmDisciplined(s2, A, env.now, Min(span * 2, s.ep.opt.t1x64));
        SameSane(s2.tx, Arm(s2, A, env.now, Min(span * 2, s.ep.opt.t1x64)).tx);
        hide Disciplined, Sane;
      }
    }
  }

  /** The premises under which a server handles Timer G. */
  ghost predicate HandlingG(s: TE, span: nat, now: nat) {
    && s.tx.kind.ServerInvite? && (s.tx.state.Accepted? || s.tx.state.Completed?)
    && HandlingSeries(s.tx, G, StopOfG(s.tx.state), s.tx.log.resentResponses, s.tx.log.finalSince, ResponsePace(s.ep.opt), span, now)
    && StopOfG(s.tx.state) in TimersOf(s.tx)
  }

  lemma RetransmitLogged(s: TE, span: nat, env: Env)
    requires Inv(s.tx, s.ep.opt, env.now) && HandlingG(s, span, env.now)
    ensures Inv(s.tx.(log := s.tx.log.(resentResponses := s.tx.log.resentResponses + 1)), s.ep.opt, env.now)
  {
    var stop, p := StopOfG(s.tx.state), ResponsePace(s.ep.opt);
    var tx' := s.tx.(log := s.tx.log.(resentResponses := s.tx.log.resentResponses + 1));
    assert G !in Flying(s.tx.queue) && G !in s.tx.pending && Running(s.tx.pending, s.tx.queue, stop);
    SameSane(s.tx, tx');
    NoRearm(s.tx.pending, s.tx.queue, G, stop, s.tx.log.resentResponses, s.tx.log.finalSince, p, env.now);
    hide FiredSlots, Distinct, Flying, Series, Earliest, Sane;
  }

  lemma RetransmitRearmed(s: TE, span: nat, env: Env)
    requires Inv(s.tx, s.ep.opt, env.now) && HandlingG(s, span, env.now)
    ensures var tx := s.tx.(log := s.tx.log.(resentResponses := s.tx.log.resentResponses + 1));
            Inv(Arm(s.(tx := tx), G, env.now, Min(span * 2, s.ep.opt.t2)).tx, s.ep.opt, env.now)
  {
    hide FiredSlots, Distinct, Series, Earliest, Span;
    RetransmitLogged(s, span, env);
    var tx := s.tx.(log := s.tx.log.(resentResponses := s.tx.log.resentResponses + 1));
    var next := Min(span * 2, s.ep.opt.t2);
    var tx' := Arm(s.(tx := tx), G, env.now, next).tx;
    assert G !in Flying(s.tx.queue);
    Rearm(s.tx.pending, s.tx.queue, G, StopOfG(s.tx.state), s.tx.log.resentResponses, s.tx.log.finalSince,
          ResponsePace(s.ep.opt), env.now, span);
    RearmDisciplined(s.(tx := tx), G, env.now, next);
    SameSane(tx, tx');
    hide FiredSlots, Distinct, Flying, Series, Earliest, Span, Disciplined, Sane, HandlingG;
  }

  lemma RetransmitInv(s: TE, span: nat, env: Env)
    requires Inv(s.tx, s.ep.opt, env.now) && HandlingG(s, span, env.now)
    ensures Inv(RetransmitLastResponse(s, span, env).s.tx, s.ep.opt, env.now)
  {
    hide Inv, HandlingG, TimersOf;
    RetransmitLogged(s, span, env);
    RetransmitRearmed(s, span, env);
  }
}
