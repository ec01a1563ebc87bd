/**
 What one transaction does to the endpoint's tables: nothing but its own ACK
 routes while it lives, and its own entries when it ends.
 */
module TableSteps {
  import opened Prelude
  import opened SipMessages
  import opened TransactionKey
  import opened EndpointSpec
  import opened TransactionSpec
  import opened TransactionSanity

  /** A route in `ep'` was there before, or is a new one to `key` with its CSeq number. */
  ghost predicate RoutesStep(ep: Ep, ep': Ep, key: Key, cseq: nat, mayRoute: bool) {
    && (forall d :: d in ep'.waitingAck ==>
          (d in ep.waitingAck && ep.waitingAck[d] == ep'.waitingAck[d]) || (mayRoute && ep'.waitingAck[d] == key))
    && (forall d :: d in ep'.waitingAckCseq ==>
          (d in ep.waitingAckCseq && ep.waitingAckCseq[d] == ep'.waitingAckCseq[d])
          || (mayRoute && ep'.waitingAckCseq[d] == key && d.1 == cseq))
  }

  predicate SameTables(ep: Ep, ep': Ep) {
    ep'.opt == ep.opt && ep'.table == ep.table && ep'.finished == ep.finished && ep'.cleanups == ep.cleanups
  }

  /** A server INVITE keeps its last response for late messages; `None` only when it never had one. */
  predicate LeftBehind(tx': Tx, last: Option<SipMessage>) {
    tx'.kind.ServerInvite? ==> last == if tx'.lastResponse.Some? then Some(Resp(tx'.lastResponse.value)) else None
  }

  ghost predicate EndedTables(ep: Ep, ep': Ep, key: Key, last: Option<SipMessage>, now: nat) {
    && ep'.opt == ep.opt && ep'.table == ep.table - {key}
    && ep'.finished == (if last.Some? then ep.finished[key := last.value] else ep.finished)
    && ep'.cleanups == (if last.Some? then ep.cleanups[key := now + ep.opt.t1x64] else ep.cleanups)
  }

  predicate IsPrefix<T(==)>(a: seq<T>, b: seq<T>) { a <= b }

  ghost predicate TablesStep(s: TE, s': TE, now: nat) {
    && SameIdentity(s.tx, s'.tx)
    && RoutesStep(s.ep, s'.ep, s.tx.key, s.tx.original.ids.cseq,
                  s.tx.kind.ServerInvite? && !s.tx.cleanedUp && s'.tx.lastResponse.Some?)
    && (s.tx.kind.ServerInvite? && s.tx.lastResponse.Some? ==> s'.tx.lastResponse.Some?)
    && IsPrefix(s.ep.wire, s'.ep.wire)
    && (s'.tx.cleanedUp == s.tx.cleanedUp ==> SameTables(s.ep, s'.ep))
    && (s'.tx.cleanedUp != s.tx.cleanedUp ==>
          && s'.tx.cleanedUp
          && exists last :: LeftBehind(s'.tx, last) && EndedTables(s.ep, s'.ep, s.tx.key, last, now))
  }

  lemma TablesTrans(a: TE, b: TE, c: TE, now: nat)
    requires TablesStep(a, b, now) && TablesStep(b, c, now) && b.tx.cleanedUp == a.tx.cleanedUp
    ensures TablesStep(a, c, now)
  {
    RoutesTrans(a.ep, b.ep, c.ep, a.tx.key, a.tx.original.ids.cseq,
                a.tx.kind.ServerInvite? && !a.tx.cleanedUp && b.tx.lastResponse.Some?,
                a.tx.kind.ServerInvite? && !a.tx.cleanedUp && c.tx.lastResponse.Some?);
    hide RoutesStep, LeftBehind;
    if c.tx.cleanedUp != b.tx.cleanedUp {
      var last :| LeftBehind(c.tx, last) && EndedTables(b.ep, c.ep, b.tx.key, last, now);
      assert EndedTables(a.ep, c.ep, a.tx.key, last, now);
    }
  }

  lemma RoutesTrans(a: Ep, b: Ep, c: Ep, key: Key, cseq: nat, m: bool, n: bool)
    requires RoutesStep(a, b, key, cseq, m) && RoutesStep(b, c, key, cseq, n) && (m ==> n)
    ensures RoutesStep(a, c, key, cseq, n)
  {
  }

  /** Nothing but the transaction changed, and not what it leaves behind. */
  lemma TablesAfter(a: TE, b: TE, c: TE, now: nat)
    requires TablesStep(a, b, now) && c.ep == b.ep && SameIdentity(b.tx, c.tx)
    requires c.tx.cleanedUp == b.tx.cleanedUp && c.tx.lastResponse == b.tx.lastResponse
    ensures TablesStep(a, c, now)
  {
    hide RoutesStep;
    if b.tx.cleanedUp != a.tx.cleanedUp {
      var last :| LeftBehind(b.tx, last) && EndedTables(a.ep, b.ep, a.tx.key, last, now);
      assert LeftBehind(c.tx, last);
    }
  }

  /** Nothing but the transaction's messages changed. */
  lemma SameTablesStep(s: TE, s': TE, now: nat)
    requires SameIdentity(s.tx, s'.tx) && s'.tx.cleanedUp == s.tx.cleanedUp
    requires s.tx.kind.ServerInvite? && s.tx.lastResponse.Some? ==> s'.tx.lastResponse.Some?
    requires s'.ep == s.ep.(wire := s'.ep.wire) && IsPrefix(s.ep.wire, s'.ep.wire)
    ensures TablesStep(s, s', now)
  {
  }

  lemma ForgetTables(s: TE, now: nat)
    ensures TablesStep(s, ForgetRoutes(s), now)
  {
  }

  lemma RouteAcksTables(s: TE, dialog: DialogId, byCseq: bool, now: nat)
    requires s.tx.kind.ServerInvite? && s.tx.lastResponse.Some? && !s.tx.cleanedUp
    ensures TablesStep(s, RouteAcks(s, dialog, byCseq), now)
  {
  }

  // ---- State entries ---------------------------------------------------------

  /** `s` with the timers and the log of `s'`. */
  lemma RoutedTables(s: TE, s': TE, dialog: DialogId, byCseq: bool, now: nat)
    requires KeepsMessages(s.tx, s'.tx) && s'.tx.lastResponse.Some? && s.tx.kind.ServerInvite? && !s.tx.cleanedUp
    requires s'.ep == RouteAcks(s, dialog, byCseq).ep
    ensures TablesStep(s, s', now)
  {
    hide RoutesStep;
    RouteAcksTables(s, dialog, byCseq, now);
    TablesAfter(s, RouteAcks(s, dialog, byCseq), s', now);
  }

  lemma EnterAcceptedEp(s: TE, now: nat)
    ensures var ep := EnterAccepted(s, now).s.ep;
            ep == s.ep || (s.tx.kind.ServerInvite? && s.tx.lastResponse.Some?
                           && exists d :: ep == RouteAcks(s, d, true).ep)
  {
    hide TimersOf, ResponseDialog;
    if EnterAccepted(s, now).s.ep != s.ep {
      var d := ResponseDialog(s.tx.lastResponse.value, Server).value;
      assert EnterAccepted(s, now).s.ep == RouteAcks(s, d, true).ep;
    }
  }

  lemma EnterCompletedEp(s: TE, now: nat)
    ensures var ep := EnterCompleted(s, now).s.ep;
            ep == s.ep || (s.tx.kind.ServerInvite? && s.tx.lastResponse.Some?
                           && exists d :: ep == RouteAcks(s, d, false).ep)
  {
    hide TimersOf, ResponseDialog;
    if EnterCompleted(s, now).s.ep != s.ep {
      var d := ResponseDialog(s.tx.lastResponse.value, Server).value;
      assert EnterCompleted(s, now).s.ep == RouteAcks(s, d, false).ep;
    }
  }

  lemma EnterAcceptedTables(s: TE, now: nat)
    requires !s.tx.cleanedUp
    ensures TablesStep(s, EnterAccepted(s, now).s, now)
  {
    var s' := EnterAccepted(s, now).s;
    EnterAcceptedQuiet(s, now);
    EnterAcceptedEp(s, now);
    hide EnterAccepted, RouteAcks, TablesStep;
    if s'.ep == s.ep {
      SameTablesStep(s, s', now);
    } else {
      var d :| s'.ep == RouteAcks(s, d, true).ep;
      RoutedTables(s, s', d, true, now);
    }
  }

  lemma EnterCompletedTables(s: TE, now: nat)
    requires !s.tx.cleanedUp
    ensures TablesStep(s, EnterCompleted(s, now).s, now)
  {
    var s' := EnterCompleted(s, now).s;
    EnterCompletedQuiet(s, now);
    EnterCompletedEp(s, now);
    hide EnterCompleted, RouteAcks, TablesStep;
    if s'.ep == s.ep {
      SameTablesStep(s, s', now);
    } else {
      var d :| s'.ep == RouteAcks(s, d, false).ep;
      RoutedTables(s, s', d, false, now);
    }
  }

  lemma EnterConfirmedTables(s: TE, now: nat)
    ensures TablesStep(s, EnterConfirmed(s, now), now)
  {
    var s1 := Disarm(s, ALL_SLOTS);
    var s2 := if s.tx.kind.ServerInvite? then ForgetRoutes(s1) else s1;
    ForgetTables(s1, now);
    ForgetRoutesFacts(s1);
    SameTablesStep(s, s1, now);
    hide ForgetRoutes, TablesStep, TimersOf;
    SameTablesStep(s1, s1, now);
    TablesTrans(s, s1, s2, now);
    TablesAfter(s, s2, EnterConfirmed(s, now), now);
  }

  /** A transition to a state other than Terminated. */
  lemma TransitionTables(s: TE, target: State, env: Env)
    requires !target.Terminated? && (target.Accepted? || target.Completed? ==> !s.tx.cleanedUp)
    ensures TablesStep(s, Transition(s, target, env).s, env.now)
  {
    var s' := Transition(s, target, env).s;
    var m := Enter(s, target, env);
    hide EnterCalling, EnterProvisional, EnterAccepted, EnterCompleted, EnterConfirmed, EnterTerminated, TablesStep;
    SameTablesStep(s, s, env.now);
    if s.tx.state != target {
      assert TablesStep(s, m.s, env.now) by {
        match target {
          case Nothing =>
          case Calling => EnterSimpleTables(s, target, env);
          case Trying => EnterSimpleTables(s, target, env);
          case Proceeding => EnterSimpleTables(s, target, env);
          case Accepted => EnterAcceptedTables(s, env.now);
          case Completed => EnterCompletedTables(s, env.now);
          case Confirmed => EnterConfirmedTables(s, env.now);
        }
      }
      hide Enter;
      TablesAfter(s, m.s, s', env.now);
    }
  }

  lemma EnterSimpleTables(s: TE, target: State, env: Env)
    requires target.Calling? || target.Trying? || target.Proceeding?
    ensures TablesStep(s, Enter(s, target, env).s, env.now)
  {
    var s' := Enter(s, target, env).s;
    assert s'.ep == s.ep by { hide TimersOf; }
    EnterFacts(s, target, env);
    hide EnterCalling, EnterProvisional, TablesStep, CanEnter;
    SameTablesStep(s, s', env.now);
  }

  // ---- Ending ------------------------------------------------------------------

  lemma DetachTables(s: TE, key: Key, last: Option<SipMessage>, now: nat)
    ensures EndedTables(s.ep, Detach(s.ep, key, last, now), key, last, now)
    ensures var ep' := Detach(s.ep, key, last, now);
            ep'.waitingAck == s.ep.waitingAck && ep'.waitingAckCseq == s.ep.waitingAckCseq && ep'.wire == s.ep.wire
  {
  }

  lemma CleanupTables(s: TE, env: Env)
    requires !s.tx.cleanedUp
    ensures TablesStep(s, DoCleanup(s, env), env.now)
  {
    hide Detach, TablesStep, MakeAck;
    var s1 := Disarm(s.(tx := s.tx.(cleanedUp := true)), ALL_SLOTS);
    var s2 := if s.tx.kind.ServerInvite? && s.tx.state.Completed? then s1 else ForgetRoutes(s1);
    ForgetTables(s1, env.now);
    SameTablesStep(s1, s1, env.now);
    ForgetRoutesFacts(s1);
    var last := LastMessage(s2.tx, s.ep.opt, env.branch);
    DetachTables(s2, s.tx.key, last, env.now);
    DoCleanupFacts(s, env);
    var s' := DoCleanup(s, env);
    assert s'.ep == Detach(s2.ep, s.tx.key, last, env.now);
    assert LeftBehind(s'.tx, last);
    hide DoCleanup, ForgetRoutes, LastMessage;
    DetachedTables(s, s1, s2, s', last, env.now);
  }

  lemma DetachedTables(s: TE, s1: TE, s2: TE, s': TE, last: Option<SipMessage>, now: nat)
    requires s1.ep == s.ep && SameIdentity(s.tx, s1.tx) && s1.tx.lastResponse == s.tx.lastResponse && s2.tx == s1.tx
    requires !s.tx.cleanedUp && s1.tx.cleanedUp && s'.tx.cleanedUp && SameIdentity(s.tx, s'.tx)
    requires s.tx.kind.ServerInvite? ==> s'.tx.lastResponse == s.tx.lastResponse
    requires TablesStep(s1, s2, now) && s'.ep == Detach(s2.ep, s.tx.key, last, now) && LeftBehind(s'.tx, last)
    ensures TablesStep(s, s', now)
  {
    DetachTables(s2, s.tx.key, last, now);
    assert EndedTables(s.ep, s'.ep, s.tx.key, last, now);
    hide Detach, LeftBehind, EndedTables;
  }

  lemma EndTables(s: TE, env: Env)
    requires !s.tx.cleanedUp && !s.tx.state.Terminated?
    ensures TablesStep(s, Transition(s, Terminated, env).s, env.now)
  {
    CleanupTables(s, env);
    hide DoCleanup, TablesStep;
    TablesAfter(s, DoCleanup(s, env), Transition(s, Terminated, env).s, env.now);
  }

  /** Any transition the code makes from a live state. */
  lemma MoveTables(s: TE, target: State, env: Env)
    requires s.tx.cleanedUp <==> s.tx.state.Terminated?
    requires target.Accepted? || target.Completed? ==> !s.tx.state.Terminated?
    ensures TablesStep(s, Transition(s, target, env).s, env.now)
  {
    hide TablesStep, Enter;
    if target.Terminated? && !s.tx.state.Terminated? {
      EndTables(s, env);
    } else if target.Terminated? {
      SameTablesStep(s, s, env.now);
    } else {
      TransitionTables(s, target, env);
    }
  }

  // ---- Handlers ------------------------------------------------------------------

  /** A message written, then a transition. */
  lemma WriteThenMove(s: TE, s1: TE, target: State, env: Env)
    requires s.tx.cleanedUp <==> s.tx.state.Terminated?
    requires SameIdentity(s.tx, s1.tx) && s1.tx.cleanedUp == s.tx.cleanedUp && s1.tx.state == s.tx.state
    requires s.tx.kind.ServerInvite? && s.tx.lastResponse.Some? ==> s1.tx.lastResponse.Some?
    requires s1.ep == s.ep.(wire := s1.ep.wire) && IsPrefix(s.ep.wire, s1.ep.wire)
    requires target.Accepted? || target.Completed? ==> !s.tx.state.Terminated?
    ensures TablesStep(s, Transition(s1, target, env).s, env.now)
  {
    hide TablesStep, Transition;
    SameTablesStep(s, s1, env.now);
    MoveTables(s1, target, env);
    TablesTrans(s, s1, Transition(s1, target, env).s, env.now) by { assert s1.tx.cleanedUp == s.tx.cleanedUp; }
  }

  lemma RespondTables(s: TE, r: Response, env: Env)
    requires s.tx.cleanedUp <==> s.tx.state.Terminated?
    ensures TablesStep(s, DoRespond(s, r, env).s, env.now)
  {
    hide TablesStep, Transition;
    var s1 := s.(tx := s.tx.(lastResponse := Some(r)));
    SameTablesStep(s, s, env.now);
    SameTablesStep(s, s1, env.now);
    if CanTransition(s.tx.state, RespondState(s.tx.kind, r)) {
      WriteThenMove(s, WriteMsg(s1, Resp(r), true), RespondState(s.tx.kind, r), env);
    }
  }

  lemma RepeatTables(s: TE, env: Env)
    requires s.tx.cleanedUp <==> s.tx.state.Terminated?
    ensures TablesStep(s, Repeat(s, env), env.now)
  {
    hide TablesStep, DoRespond;
    SameTablesStep(s, s, env.now);
    if s.tx.lastResponse.Some? { RespondTables(s, s.tx.lastResponse.value, env); }
  }

  lemma OnCancelTables(s: TE, r: Request, env: Env)
    ensures TablesStep(s, OnCancel(s, r, env).s, env.now)
  {
    hide TablesStep;
    SameTablesStep(s, OnCancel(s, r, env).s, env.now);
  }

  lemma OnRequestTables(s0: TE, r: Request, conn: Option<Conn>, env: Env)
    requires s0.tx.cleanedUp <==> s0.tx.state.Terminated?
    ensures TablesStep(s0, OnRequest(s0, r, conn, env).s, env.now)
  {
    hide TablesStep, Transition, Repeat, OnCancel;
    SameTablesStep(s0, s0, env.now);
    if !IsClient(s0.tx.kind) {
      var s := if s0.tx.conn.None? then s0.(tx := s0.tx.(conn := conn)) else s0;
      SameTablesStep(s0, s, env.now);
      assert TablesStep(s, OnRequest(s0, r, conn, env).s, env.now) by {
        SameTablesStep(s, s, env.now);
        OnCancelTables(s, r, env);
        RepeatTables(s, env);
        MoveTables(s, Confirmed, env);
        MoveTables(s, Terminated, env);
      }
      TablesTrans(s0, s, OnRequest(s0, r, conn, env).s, env.now) by { hide OnRequest; }
    }
  }

  lemma SendAckTables(s: TE, conn: Option<Conn>, env: Env)
    requires s.tx.cleanedUp <==> s.tx.state.Terminated?
    ensures TablesStep(s, SendAck(s, conn, env).s, env.now)
  {
    hide TablesStep, Transition, ChooseAck;
    SameTablesStep(s, s, env.now);
    var chosen := ChooseAck(s.tx, env.branch);
    if s.tx.kind.ClientInvite? && (s.tx.state.Completed? || s.tx.state.Accepted?) && chosen.Some? {
      var s1 := PutAck(s, chosen.value, conn, env);
      SameTablesStep(s, s1, env.now);
      if s.tx.state.Completed? { WriteThenMove(s, s1, Terminated, env); }
    }
  }

  lemma OnForwarded2xxTables(s: TE, r: Response, env: Env)
    requires s.tx.cleanedUp <==> s.tx.state.Terminated?
    requires s.tx.kind.ClientInvite?
    ensures TablesStep(s, OnForwarded2xx(s, r, env).s, env.now)
  {
    hide TablesStep, Transition;
    SameTablesStep(s, s, env.now);
    SameTablesStep(s, s.(tx := s.tx.(lastResponse := Some(r))), env.now);
    if CanTransition(s.tx.state, Accepted) {
      var m := Transition(s, Accepted, env);
      TransitionFacts(s, Accepted, env);
      MoveTables(s, Accepted, env);
      var s' := m.s.(tx := m.s.tx.(lastResponse := Some(r)));
      SameTablesStep(m.s, s', env.now);
      TablesTrans(s, m.s, s', env.now);
    }
  }

  lemma OnResponseTables(s: TE, r: Response, conn: Option<Conn>, env: Env)
    requires s.tx.cleanedUp <==> s.tx.state.Terminated?
    ensures TablesStep(s, OnResponse(s, r, conn, env).s, env.now)
  {
    hide TablesStep, Transition, SendAck, OnForwarded2xx, Duplicate;
    SameTablesStep(s, s, env.now);
    if IsClient(s.tx.kind) {
      if s.tx.kind.ClientInvite? && Successful(r) && MultipleVias(r) {
        OnForwarded2xxTables(s, r, env);
      } else {
        var target := ResponseState(s.tx.kind, r, s.ep.opt);
        var s0 := s.(tx := s.tx.(lastResponse := Some(r)));
        var s1 := Transition(s0, target, env).s;
        if CanTransition(s.tx.state, target) {
          WriteThenMove(s, s0, target, env);
          if !target.Terminated? {
            TransitionFacts(s0, target, env);
            assert s1.tx.cleanedUp <==> s1.tx.state.Terminated?;
            SendAckTables(s1, conn, env);
            TablesTrans(s, s1, SendAck(s1, conn, env).s, env.now);
          }
        }
      }
    }
  }

  lemma RetransmitTables(s: TE, span: nat, env: Env)
    ensures TablesStep(s, RetransmitLastResponse(s, span, env).s, env.now)
  {
    hide TablesStep, TimersOf;
    SameTablesStep(s, RetransmitLastResponse(s, span, env).s, env.now);
  }

  lemma OnSetupTimerTables(s: TE, t: TxTimer, env: Env)
    requires t.TxTimer?
    ensures TablesStep(s, OnSetupTimer(s, t, env), env.now)
  {
    hide TablesStep, TimersOf;
    SameTablesStep(s, OnSetupTimer(s, t, env), env.now);
  }

  lemma OnTimerTables(s: TE, t: TxTimer, env: Env)
    requires s.tx.cleanedUp <==> s.tx.state.Terminated?
    ensures TablesStep(s, OnTimer(s, t, env), env.now)
  {
    hide TablesStep, Transition, RetransmitLastResponse, OnSetupTimer;
    SameTablesStep(s, s, env.now);
    SameTablesStep(s, Enqueue(s, Synthetic(s.tx, 408)), env.now);
    if t.TxTimer? {
      OnSetupTimerTables(s, t, env);
      RetransmitTables(s, t.span, env);
      MoveTables(s, Terminated, env);
    }
  }

  lemma ReceiveTables(s0: TE, env: Env)
    requires s0.tx.queue != [] && (s0.tx.cleanedUp <==> s0.tx.state.Terminated?)
    ensures TablesStep(s0, Receive(s0, env), env.now)
  {
    var s, e := Pop(s0), s0.tx.queue[0];
    var h := Handle(s, e, env);
    hide TablesStep, OnRequest, OnResponse, OnTimer, DoRespond;
    assert TablesStep(s, h.s, env.now) by {
      match e {
        case Received(msg, conn) =>
          match msg {
            case Req(req) => OnRequestTables(s, req, conn, env);
            case Resp(resp) => OnResponseTables(s, resp, conn, env);
          }
        case Fired(t) => OnTimerTables(s, t, env);
        case Respond(r) => RespondTables(s, r, env);
        case Terminate(_) => SameTablesStep(s, s, env.now);
      }
    }
    hide Handle;
    SameTablesStep(s0, s, env.now);
    TablesTrans(s0, s, h.s, env.now);
    TablesAfter(s0, h.s, Receive(s0, env), env.now);
  }

  lemma SendTables(s: TE, env: Env)
    requires s.tx.cleanedUp <==> s.tx.state.Terminated?
    ensures TablesStep(s, Send(s, env).s, env.now)
  {
    hide TablesStep, Transition;
    SameTablesStep(s, s, env.now);
    var conn := if s.tx.conn.None? then env.found else s.tx.conn;
    var s1 := s.(tx := s.tx.(conn := conn));
    var s2 := WriteMsg(s1, Req(s.tx.original), conn.Some? && env.sendOk);
    WriteThenMove(s, s2, Calling, env);
    var m := Transition(s2, Calling, env);
    TablesAfter(s, m.s, Enqueue(m.s, Synthetic(s.tx, 503)), env.now);
  }
}
