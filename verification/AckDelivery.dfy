/**
 The ACK of a success reaches the INVITE it acknowledges, and ends it: an answered
 server INVITE keeps the route it registered for as long as it waits, unless another
 INVITE with its CSeq number is answered in the same dialog.
 */
module AckDelivery {
  import opened Prelude
  import opened SipMessages
  import opened TransactionKey
  import opened EndpointSpec
  import opened TransactionSpec
  import opened TransactionSanity
  import opened TransactionInvariant
  import opened NeverStuck
  import opened TableSteps
  import opened StateOrder
  import opened System
  import opened SystemSteps
  import opened RunTheorems
  import opened LateMessages
  import opened LocalEvents
  import opened AckRouting

  // ---- What one transaction may do to the routes ----------------------------------------------

  /** Routes to other keys stay, but the one of the dialog this transaction answers. */
  ghost predicate Spares(s: TE, s': TE) {
    forall d :: d in s.ep.waitingAckCseq && s.ep.waitingAckCseq[d] != s.tx.key && !Overwrites(s'.tx, d) ==>
      d in s'.ep.waitingAckCseq && s'.ep.waitingAckCseq[d] == s.ep.waitingAckCseq[d]
  }

  /** `d` is the dialog and CSeq number of the success this server INVITE was answered with. */
  predicate Overwrites(tx: Tx, d: (DialogId, nat)) {
    tx.kind.ServerInvite? && tx.state.Accepted? && tx.lastResponse.Some? && d.1 == tx.original.ids.cseq
    && ResponseDialog(tx.lastResponse.value, Server) == Some(d.0)
  }

  predicate SameRoutes(ep: Ep, ep': Ep) { ep'.waitingAckCseq == ep.waitingAckCseq }

  lemma EnterSpares(s: TE, target: State, env: Env)
    requires !target.Terminated?
    ensures Spares(s, TE(s.tx.(state := target), Enter(s, target, env).s.ep))
    ensures !Enter(s, target, env).ok ==> SameRoutes(s.ep, Enter(s, target, env).s.ep)
  {
    hide TimersOf, EnterAccepted, EnterCompleted, EnterConfirmed, ResponseDialog;
    AcceptedSpares(s, env.now);
    CompletedSpares(s, env.now);
    ConfirmedSpares(s, env.now);
  }

  lemma AcceptedSpares(s: TE, now: nat)
    ensures Spares(s, TE(s.tx.(state := Accepted), EnterAccepted(s, now).s.ep))
    ensures !EnterAccepted(s, now).ok ==> SameRoutes(s.ep, EnterAccepted(s, now).s.ep)
  {
    hide TimersOf, ResponseDialog;
  }

  lemma CompletedSpares(s: TE, now: nat)
    ensures SameRoutes(s.ep, EnterCompleted(s, now).s.ep)
  {
    hide TimersOf, ResponseDialog;
  }

  lemma ConfirmedSpares(s: TE, now: nat)
    ensures Spares(s, TE(s.tx.(state := Confirmed), EnterConfirmed(s, now).ep))
  {
    hide TimersOf, ResponseDialog;
  }

  lemma CleanupSpares(s: TE, env: Env)
    ensures forall d :: d in s.ep.waitingAckCseq && s.ep.waitingAckCseq[d] != s.tx.key ==>
              d in DoCleanup(s, env).ep.waitingAckCseq && DoCleanup(s, env).ep.waitingAckCseq[d] == s.ep.waitingAckCseq[d]
  {
    hide LastMessage, ResponseDialog;
  }

  lemma MoveSpares(s: TE, target: State, env: Env)
    ensures Spares(s, Transition(s, target, env).s)
  {
    if s.tx.state != target {
      if target.Terminated? {
        CleanupSpares(s, env);
        hide DoCleanup;
      } else {
        EnterSpares(s, target, env);
        TransitionFacts(s, target, env);
        hide Enter, ResponseDialog, CanEnter;
      }
    }
  }

  lemma RespondSpares(s: TE, r: Response, env: Env)
    ensures Spares(s, DoRespond(s, r, env).s)
  {
    hide Transition, CanTransition, Overwrites;
    var s1 := s.(tx := s.tx.(lastResponse := Some(r)));
    MoveSpares(WriteMsg(s1, Resp(r), true), RespondState(s.tx.kind, r), env);
  }

  lemma OnRequestSpares(s0: TE, r: Request, conn: Option<Conn>, env: Env)
    ensures Spares(s0, OnRequest(s0, r, conn, env).s)
  {
    hide Transition, DoRespond, OnCancel, Overwrites;
    var s := if s0.tx.conn.None? then s0.(tx := s0.tx.(conn := conn)) else s0;
    OnCancelKeeps(s, r, env);
    MoveSpares(s, Confirmed, env);
    MoveSpares(s, Terminated, env);
    if s.tx.lastResponse.Some? { RespondSpares(s, s.tx.lastResponse.value, env); }
  }

  lemma SendAckSpares(s: TE, conn: Option<Conn>, env: Env)
    ensures Spares(s, SendAck(s, conn, env).s)
  {
    hide Transition, ChooseAck, Overwrites;
    var chosen := ChooseAck(s.tx, env.branch);
    if chosen.Some? { MoveSpares(PutAck(s, chosen.value, conn, env), Terminated, env); }
  }

  lemma OnResponseSpares(s: TE, r: Response, conn: Option<Conn>, env: Env)
    ensures Spares(s, OnResponse(s, r, conn, env).s)
  {
    hide Transition, SendAck, Duplicate, CanTransition, ResponseDialog;
    var target := ResponseState(s.tx.kind, r, s.ep.opt);
    var s0 := s.(tx := s.tx.(lastResponse := Some(r)));
    var s1 := Transition(s0, target, env).s;
    MoveSpares(s, Accepted, env);
    MoveSpares(s0, target, env);
    SendAckSpares(s1, conn, env);
    TransitionState(s0, target, env);
    TransitionState(s, Accepted, env);
    SendAckInward(s1, conn, env);
  }

  lemma OnTimerSpares(s: TE, t: TxTimer, env: Env)
    ensures Spares(s, OnTimer(s, t, env))
  {
    hide Transition, TimersOf, Overwrites;
    MoveSpares(s, Terminated, env);
  }

  lemma ReceiveSpares(s: TE, env: Env)
    requires s.tx.queue != []
    ensures Spares(s, Receive(s, env))
  {
    hide OnRequest, OnTimer, DoRespond, OnResponse, ResponseDialog;
    var p := Pop(s);
    match s.tx.queue[0]
    case Received(msg, conn) =>
      match msg {
        case Req(req) => OnRequestSpares(p, req, conn, env);
        case Resp(resp) => OnResponseSpares(p, resp, conn, env);
      }
    case Fired(t) => OnTimerSpares(p, t, env);
    case Respond(r) => RespondSpares(p, r, env);
    case Terminate(_) =>
  }

  lemma SendSpares(s: TE, env: Env)
    ensures Spares(s, Send(s, env).s)
  {
    hide Transition, ResponseDialog;
    MoveSpares(Written(s, env), Calling, env);
    TransitionState(Written(s, env), Calling, env);
  }

  lemma CallSpares(s: TE, e: Event)
    requires IsCall(e) && (e.CallReceive? ==> s.tx.queue != []) && (e.FireTimer? ==> e.slot in s.tx.pending)
    ensures Spares(s, Called(s, e))
  {
    hide Send, Receive, DoRespond, SendAck, ResponseDialog;
    match e
    case CallSend(_, env) => SendSpares(s, env);
    case CallReceive(_, env) => ReceiveSpares(s, env);
    case CallRespond(_, r, env) => RespondSpares(s, r, env);
    case CallSendAck(_, conn, env) => SendAckSpares(s, conn, env);
    case _ =>
  }

  /** A server INVITE that waits for its ACK touches no route as long as it waits. */
  lemma WaitingRoutes(s: TE, e: Event)
    requires IsCall(e) && (e.CallReceive? ==> s.tx.queue != []) && (e.FireTimer? ==> e.slot in s.tx.pending)
    requires s.tx.kind.ServerInvite? && s.tx.state.Accepted? && Called(s, e).tx.state.Accepted?
    ensures SameRoutes(s.ep, Called(s, e).ep)
  {
    hide Send, Receive, DoRespond, SendAck;
    match e
    case CallSend(_, env) => NoClient(s, None, env);
    case CallReceive(_, env) => WaitingReceives(s, env);
    case CallRespond(_, r, env) => WaitingResponds(s, r, env);
    case CallSendAck(_, conn, env) => NoClient(s, conn, env);
    case _ =>
  }

  lemma WaitingResponds(s: TE, r: Response, env: Env)
    requires s.tx.kind.ServerInvite? && s.tx.state.Accepted?
    ensures SameRoutes(s.ep, DoRespond(s, r, env).s.ep)
  {
    hide Enter;
  }

  lemma WaitingReceives(s: TE, env: Env)
    requires s.tx.kind.ServerInvite? && s.tx.state.Accepted?
    requires s.tx.queue != [] && Receive(s, env).tx.state.Accepted?
    ensures SameRoutes(s.ep, Receive(s, env).ep)
  {
    var p := Pop(s);
    if s.tx.queue[0].Respond? { WaitingResponds(p, s.tx.queue[0].response, env); }
    WaitingHandles(p, s.tx.queue[0], env);
    hide Handle;
  }

  lemma WaitingHandles(s: TE, e: TxEvent, env: Env)
    requires s.tx.kind.ServerInvite? && s.tx.state.Accepted? && Handle(s, e, env).s.tx.state.Accepted?
    requires e.Respond? ==> SameRoutes(s.ep, DoRespond(s, e.response, env).s.ep)
    ensures SameRoutes(s.ep, Handle(s, e, env).s.ep)
  {
    hide DoRespond, DoCleanup, TimersOf, MakeResponse;
  }

  /** One that has ended touches none at all. */
  lemma EndedRoutes(s: TE, e: Event)
    requires IsCall(e) && (e.CallReceive? ==> s.tx.queue != []) && (e.FireTimer? ==> e.slot in s.tx.pending)
    requires e.CallSend? && IsClient(s.tx.kind) ==> s.tx.state.Nothing? || s.tx.state.Calling?
    requires s.tx.state.Terminated?
    ensures SameRoutes(s.ep, Called(s, e).ep)
  {
    hide Send, DoRespond, SendAck, Transition, TimersOf, MakeResponse, ResponseState, RespondState;
    match e
    case CallSend(_, env) => NoClient(s, None, env);
    case CallReceive(_, env) =>
      if s.tx.queue[0].Respond? { EndedIgnores(Pop(s), s.tx.queue[0].response, None, env); }
    case CallRespond(_, r, env) => EndedIgnores(s, r, None, env);
    case CallSendAck(_, conn, env) => EndedSendsNoAck(s, conn, env);
    case _ =>
  }

  lemma EndedIgnores(s: TE, r: Response, conn: Option<Conn>, env: Env)
    requires s.tx.state.Terminated?
    ensures DoRespond(s, r, env).s == s
  {
    hide Transition;
  }

  lemma EndedSendsNoAck(s: TE, conn: Option<Conn>, env: Env)
    requires s.tx.state.Terminated?
    ensures SendAck(s, conn, env).s == s
  {
    hide Transition;
  }

  // ---- Registering it ------------------------------------------------------------------------------

  /** The response a server transaction is told to send by event `e`. */
  function ToSend(tx: Tx, e: Event): Option<Response> {
    if e.CallRespond? then Some(e.response)
    else if e.CallReceive? && tx.queue != [] && tx.queue[0].Respond? then Some(tx.queue[0].response)
    else if e.CallReceive? && tx.queue != [] && tx.queue[0].Received? && tx.queue[0].msg.Req? then tx.lastResponse
    else None
  }

  /** Entering Accepted registers the route of the answer. */
  lemma MoveRegisters(s: TE, target: State, env: Env)
    requires s.tx.kind.ServerInvite? && !s.tx.state.Accepted? && Transition(s, target, env).s.tx.state.Accepted?
    requires s.tx.lastResponse.Some?
    ensures var m := Transition(s, target, env).s;
            var d := ResponseDialog(s.tx.lastResponse.value, Server);
            && m.tx.lastResponse == s.tx.lastResponse && d.Some? && (d.value, s.tx.original.ids.cseq) in m.ep.waitingAckCseq
            && m.ep.waitingAckCseq[(d.value, s.tx.original.ids.cseq)] == s.tx.key
  {
    TransitionState(s, target, env);
    hide TimersOf, ResponseDialog, EnterCompleted, EnterConfirmed, EnterTerminated, EnterProvisional, EnterCalling;
  }

  lemma RespondRegisters(s: TE, r: Response, env: Env)
    requires s.tx.kind.ServerInvite? && !s.tx.state.Accepted? && DoRespond(s, r, env).s.tx.state.Accepted?
    ensures var m := DoRespond(s, r, env).s;
            var d := ResponseDialog(r, Server);
            && d.Some? && (d.value, s.tx.original.ids.cseq) in m.ep.waitingAckCseq
            && m.ep.waitingAckCseq[(d.value, s.tx.original.ids.cseq)] == s.tx.key
            && m.tx.lastResponse == Some(r)
  {
    hide Transition, ResponseDialog, CanTransition;
    var s1 := s.(tx := s.tx.(lastResponse := Some(r)));
    MoveRegisters(WriteMsg(s1, Resp(r), true), RespondState(s.tx.kind, r), env);
  }

  lemma ReceiveRegisters(s: TE, env: Env)
    requires s.tx.kind.ServerInvite? && !s.tx.state.Accepted? && s.tx.queue != [] && Receive(s, env).tx.state.Accepted?
    ensures var r := ToSend(s.tx, CallReceive(0, env));
            r.Some? &&
            var m := Receive(s, env);
            var d := ResponseDialog(r.value, Server);
            && d.Some? && (d.value, s.tx.original.ids.cseq) in m.ep.waitingAckCseq
            && m.ep.waitingAckCseq[(d.value, s.tx.original.ids.cseq)] == s.tx.key
            && m.tx.lastResponse == r
  {
    hide OnTimer, DoRespond, OnCancel, Transition, ResponseDialog, OnResponse, CanTransition;
    var p := Pop(s);
    match s.tx.queue[0]
    case Received(msg, conn) =>
      if msg.Req? {
        var s1 := if p.tx.conn.None? then p.(tx := p.tx.(conn := conn)) else p;
        OnCancelKeeps(s1, msg.request, env);
        TransitionState(s1, Confirmed, env);
        TransitionState(s1, Terminated, env);
        if p.tx.lastResponse.Some? && Repeat(s1, env).tx.state.Accepted? { RespondRegisters(s1, p.tx.lastResponse.value, env); }
      } else {
        ServerIgnoresResponses(p, msg.response, conn, env);
      }
    case Fired(t) => OnTimerNotAccepted(p, t, env);
    case Respond(r) => RespondRegisters(p, r, env);
    case Terminate(_) =>
  }

  lemma ServerIgnoresResponses(s: TE, r: Response, conn: Option<Conn>, env: Env)
    requires !IsClient(s.tx.kind)
    ensures OnResponse(s, r, conn, env).s == s
  {
  }

  lemma OnTimerNotAccepted(s: TE, t: TxTimer, env: Env)
    requires !s.tx.state.Accepted?
    ensures !OnTimer(s, t, env).tx.state.Accepted?
  {
    hide Transition, TimersOf;
    TransitionState(s, Terminated, env);
  }

  lemma CallRegisters(s: TE, e: Event)
    requires IsCall(e) && (e.CallReceive? ==> s.tx.queue != []) && (e.FireTimer? ==> e.slot in s.tx.pending)
    requires s.tx.kind.ServerInvite? && !s.tx.state.Accepted? && Called(s, e).tx.state.Accepted?
    ensures ToSend(s.tx, e).Some?
    ensures var r := ToSend(s.tx, e).value;
            var m, d := Called(s, e), ResponseDialog(r, Server);
            && d.Some? && (d.value, s.tx.original.ids.cseq) in m.ep.waitingAckCseq
            && m.ep.waitingAckCseq[(d.value, s.tx.original.ids.cseq)] == s.tx.key
            && m.tx.lastResponse == Some(r)
  {
    hide Send, Receive, DoRespond, SendAck, ResponseDialog;
    match e
    case CallSend(_, env) => NoClient(s, None, env);
    case CallReceive(_, env) => ReceiveRegisters(s, env);
    case CallRespond(_, r, env) => RespondRegisters(s, r, env);
    case CallSendAck(_, conn, env) => NoClient(s, conn, env);
    case _ =>
  }

  // ---- The route of an answered INVITE -----------------------------------------------------------

  /** `id` is a server INVITE that waits for its ACK, and ACKs of dialog `d` go to it. */
  ghost predicate Held(sys: Sys, id: nat, d: DialogId) {
    && Waits(sys, id)
    && var o := sys.txs[id].original;
       && d.callId == o.ids.callId && o.ids.fromTag == Some(d.remoteTag)
       && (d, o.ids.cseq) in sys.ep.waitingAckCseq && sys.ep.waitingAckCseq[(d, o.ids.cseq)] == sys.txs[id].key
  }

  predicate Waits(sys: Sys, id: nat) {
    id in sys.txs && sys.txs[id].kind.ServerInvite? && sys.txs[id].state.Accepted?
  }

  /** Event `e` answers another server INVITE of the CSeq number of `id` with a success of dialog `d`,
      the same Call-ID and the same tags. */
  ghost predicate TakesRoute(sys: Sys, e: Event, id: nat, d: DialogId)
    requires Possible(sys, e)
  {
    && IsCall(e) && e.id != id && id in sys.txs && e.id in sys.txs
    && sys.txs[e.id].original.ids.cseq == sys.txs[id].original.ids.cseq
    && !Waits(sys, e.id) && Waits(Step(sys, e), e.id)
    && ToSend(sys.txs[e.id], e).Some? && ResponseDialog(ToSend(sys.txs[e.id], e).value, Server) == Some(d)
  }

  /** Another transaction's call. */
  lemma OtherCallHolds(sys: Sys, e: Event, id: nat, d: DialogId)
    requires Consistent(sys) && Possible(sys, e) && IsCall(e) && e.id != id && Held(sys, id, d) && !TakesRoute(sys, e, id, d)
    ensures Held(Step(sys, e), id, d)
  {
    hide Consistent, Possible, Called, ResponseDialog, TakesRoute;
    CallPossible(sys, e);
    OtherCallSpares(sys, e, id, (d, sys.txs[id].original.ids.cseq));
  }

  lemma OtherCallSpares(sys: Sys, e: Event, id: nat, k: (DialogId, nat))
    requires Consistent(sys) && Possible(sys, e) && IsCall(e) && e.id != id && Held(sys, id, k.0) && !TakesRoute(sys, e, id, k.0)
    requires e.id in sys.txs && k.1 == sys.txs[id].original.ids.cseq
    requires (e.CallReceive? ==> sys.txs[e.id].queue != []) && (e.FireTimer? ==> e.slot in sys.txs[e.id].pending)
    ensures var ep := Called(At(sys, e.id), e).ep;
            k in ep.waitingAckCseq && ep.waitingAckCseq[k] == sys.txs[id].key
  {
    hide Consistent, Possible, Called, Spares, Overwrites, TakesRoute, Inv, Alive, RequestKey, KindOk;
    CallPossible(sys, e);
    HealthyAt(sys, e.id, TimeOf(e));
    HealthyAt(sys, id, TimeOf(e));
    var s, s' := At(sys, e.id), Called(At(sys, e.id), e);
    if sys.txs[e.id].cleanedUp {
      EndedRoutes(s, e);
    } else {
      CallSpares(s, e);
      OtherKey(sys, e.id, id);
      if Overwrites(s'.tx, k) {
        if s.tx.kind.ServerInvite? && s.tx.state.Accepted? { StillRoutes(s, e, k); } else { OverwriterTakes(sys, e, id, k); }
      } else {
        SparedAt(s, s', k);
      }
    }
  }

  lemma StillRoutes(s: TE, e: Event, k: (DialogId, nat))
    requires IsCall(e) && (e.CallReceive? ==> s.tx.queue != []) && (e.FireTimer? ==> e.slot in s.tx.pending)
    requires s.tx.kind.ServerInvite? && s.tx.state.Accepted? && Overwrites(Called(s, e).tx, k)
    ensures SameRoutes(s.ep, Called(s, e).ep)
  {
    WaitingRoutes(s, e);
    hide Called, SameRoutes;
  }

  lemma OverwriterTakes(sys: Sys, e: Event, id: nat, k: (DialogId, nat))
    requires Consistent(sys) && Possible(sys, e) && IsCall(e) && e.id != id && Held(sys, id, k.0) && k.1 == sys.txs[id].original.ids.cseq
    requires e.id in sys.txs && (e.CallReceive? ==> sys.txs[e.id].queue != []) && (e.FireTimer? ==> e.slot in sys.txs[e.id].pending)
    requires !Waits(sys, e.id) && Overwrites(Called(At(sys, e.id), e).tx, k)
    ensures TakesRoute(sys, e, id, k.0)
  {
    hide Consistent, Possible, Called, ToSend, ResponseDialog, Inv, Alive, RequestKey, KindOk;
    CallPossible(sys, e);
    HealthyAt(sys, e.id, TimeOf(e));
    CallKeeps(At(sys, e.id), e);
    CallRegisters(At(sys, e.id), e);
  }

  /** Such a call takes the route away. */
  lemma OtherCallTakes(sys: Sys, e: Event, id: nat, d: DialogId)
    requires Consistent(sys) && Possible(sys, e) && TakesRoute(sys, e, id, d) && Waits(Step(sys, e), id)
    ensures !Held(Step(sys, e), id, d)
  {
    hide Consistent, Possible, Called, ToSend, ResponseDialog, Inv, Alive, RequestKey, KindOk;
    CallPossible(sys, e);
    HealthyAt(sys, e.id, TimeOf(e));
    CallKeeps(At(sys, e.id), e);
    CallRegisters(At(sys, e.id), e);
    StepConsistent(sys, e);
    HealthyAt(Step(sys, e), e.id, TimeOf(e));
    HealthyAt(Step(sys, e), id, TimeOf(e));
    OtherKey(Step(sys, e), e.id, id);
  }

  lemma SparedAt(s: TE, s': TE, k: (DialogId, nat))
    requires Spares(s, s') && k in s.ep.waitingAckCseq && s.ep.waitingAckCseq[k] != s.tx.key && !Overwrites(s'.tx, k)
    ensures k in s'.ep.waitingAckCseq && s'.ep.waitingAckCseq[k] == s.ep.waitingAckCseq[k]
  {
    hide Overwrites;
  }

  lemma OtherKey(sys: Sys, i: nat, j: nat)
    requires Consistent(sys) && i in sys.txs && j in sys.txs && i != j && !sys.txs[i].cleanedUp && !sys.txs[j].cleanedUp
    ensures sys.txs[i].key != sys.txs[j].key
  {
    hide TxsOk, RoutesOk;
  }

  /** The waiting transaction's own call. */
  lemma OwnCallHolds(sys: Sys, e: Event, id: nat, d: DialogId)
    requires Consistent(sys) && Possible(sys, e) && IsCall(e) && e.id == id && Held(sys, id, d)
    requires Step(sys, e).txs[id].state.Accepted?
    ensures Held(Step(sys, e), id, d)
  {
    hide Consistent, Possible, Called;
    CallPossible(sys, e);
    HealthyAt(sys, id, TimeOf(e));
    CallKeeps(At(sys, id), e);
    WaitingRoutes(At(sys, id), e);
    hide Inv, Alive;
  }

  /** An answered INVITE keeps its route through a step exactly when the step does not take it. */
  lemma StepHoldsExactlyWhen(sys: Sys, e: Event, id: nat, d: DialogId)
    requires Consistent(sys) && Possible(sys, e) && Held(sys, id, d) && Waits(Step(sys, e), id)
    ensures Held(Step(sys, e), id, d) <==> !TakesRoute(sys, e, id, d)
  {
    hide Consistent, Possible, Step, Held;
    HeldWaits(sys, id, d);
    if TakesRoute(sys, e, id, d) {
      OtherCallTakes(sys, e, id, d);
    } else {
      hide TakesRoute;
      StepHolds(sys, e, id, d);
    }
  }

  lemma StepHolds(sys: Sys, e: Event, id: nat, d: DialogId)
    requires Consistent(sys) && Possible(sys, e) && Held(sys, id, d) && Waits(Step(sys, e), id) && !TakesRoute(sys, e, id, d)
    ensures Held(Step(sys, e), id, d)
  {
    hide Consistent, Inv, Alive, DoCleanup, StepIncoming, RunCleanup, System.Earliest, Called, TakesRoute, RequestKey, KindOk;
    HealthyAt(sys, id, sys.now);
    if IsCall(e) {
      CallPossible(sys, e);
      if e.id == id { OwnCallHolds(sys, e, id, d); } else { OtherCallHolds(sys, e, id, d); }
    } else if e.Drop? {
      DropHolds(sys, e.id, e.env, id, d);
    } else if e.Incoming? {
      IncomingHolds(sys, e.msg, e.from, e.env, id, d);
    } else if e.FireCleanup? {
      CleanupHolds(sys, e.key, e.at, id, d);
    } else {
      NextIsFree(sys);
    }
  }

  lemma CleanupHolds(sys: Sys, key: Key, at: nat, id: nat, d: DialogId)
    requires Consistent(sys) && Possible(sys, FireCleanup(key, at)) && Held(sys, id, d) && !sys.txs[id].cleanedUp
    ensures Held(Step(sys, FireCleanup(key, at)), id, d)
  {
    hide Consistent, RunCleanup, System.Earliest;
    LiveIsNotCached(sys, id);
    CleanupIsCached(sys, key);
    CleanupEp(sys.ep, key);
  }

  lemma CleanupIsCached(sys: Sys, key: Key)
    requires Consistent(sys) && key in sys.ep.cleanups
    ensures key in sys.ep.finished
  {
    hide TxsOk, RoutesOk;
    assert key in sys.ep.finished.Keys;
  }

  lemma DropHolds(sys: Sys, j: nat, env: Env, id: nat, d: DialogId)
    requires Consistent(sys) && j in sys.txs && j != id && Held(sys, id, d) && !sys.txs[id].cleanedUp
    ensures var k := (d, sys.txs[id].original.ids.cseq);
            var ep := DoCleanup(At(sys, j), env).ep;
            k in ep.waitingAckCseq && ep.waitingAckCseq[k] == sys.txs[id].key
  {
    hide Consistent, DoCleanup;
    if sys.txs[j].cleanedUp {
      DropDeadEp(At(sys, j), env);
    } else {
      OtherKey(sys, j, id);
      CleanupSpares(At(sys, j), env);
    }
  }

  lemma IncomingHolds(sys: Sys, msg: SipMessage, conn: Conn, env: Env, id: nat, d: DialogId)
    requires Consistent(sys) && Possible(sys, Incoming(msg, conn, env)) && Held(sys, id, d) && !sys.txs[id].cleanedUp
    requires Waits(StepIncoming(sys, msg, conn, env), id)
    ensures Held(StepIncoming(sys, msg, conn, env), id, d)
  {
    hide Consistent, Route;
    NextIsFree(sys);
    LiveIsNotCached(sys, id);
    RouteSpares(sys.ep, msg, conn, env.sendOk, sys.txs[id].key);
  }

  lemma LiveIsNotCached(sys: Sys, id: nat)
    requires Consistent(sys) && id in sys.txs && !sys.txs[id].cleanedUp
    ensures sys.txs[id].key !in sys.ep.finished && sys.txs[id].key in sys.ep.table
  {
    assert sys.txs[id].key in LiveKeys(sys.txs);
    assert sys.txs[id].key !in sys.ep.finished.Keys * sys.ep.table;
    hide TxsOk, RoutesOk;
  }

  /** Routing a message forgets routes of cached keys only. */
  lemma RouteSpares(ep: Ep, msg: SipMessage, conn: Conn, sendOk: bool, key: Key)
    requires key !in ep.finished
    ensures var ep' := Route(ep, msg, conn, sendOk).ep;
            forall d :: d in ep.waitingAckCseq && ep.waitingAckCseq[d] == key ==> d in ep'.waitingAckCseq && ep'.waitingAckCseq[d] == key
  {
    hide RequestDialog, RequestKey, ResponseKey, ReplayedAck;
  }

  /** The event by which a server INVITE enters Accepted sends a response, and the route of that
      response's dialog is the transaction's. */
  lemma AcceptingRegisters(sys: Sys, e: Event, id: nat)
    requires Consistent(sys) && Possible(sys, e) && id in sys.txs && !Waits(sys, id) && Waits(Step(sys, e), id)
    ensures IsCall(e) && e.id == id && ToSend(sys.txs[id], e).Some?
    ensures var d := ResponseDialog(ToSend(sys.txs[id], e).value, Server); d.Some? && Held(Step(sys, e), id, d.value)
  {
    hide Consistent, Called, Receive, DoRespond, Send, SendAck, Inv, Alive, DoCleanup, System.Earliest, StepIncoming, Route, Answers;
    NextIsFree(sys);
    HealthyAt(sys, id, TimeOf(e));
    if IsCall(e) && e.id == id {
      CallKeeps(At(sys, id), e);
      CallRegisters(At(sys, id), e);
      DialogOfAnswer(sys, e, id);
    } else if e.Incoming? {
      SameStates(sys, e, id);
    }
  }

  lemma SameStates(sys: Sys, e: Event, id: nat)
    requires Consistent(sys) && Possible(sys, e) && e.Incoming? && id in sys.txs && id in Step(sys, e).txs
    ensures Step(sys, e).txs[id].state == sys.txs[id].state && Step(sys, e).txs[id].kind == sys.txs[id].kind
  {
    hide Consistent, Route, RequestKey;
    NextIsFree(sys);
  }

  /** The answer is one to the INVITE: its dialog has the INVITE's Call-ID and From tag. */
  lemma DialogOfAnswer(sys: Sys, e: Event, id: nat)
    requires Consistent(sys) && Possible(sys, e) && id in sys.txs && !IsClient(sys.txs[id].kind) && IsCall(e) && e.id == id
    requires ToSend(sys.txs[id], e).Some? && ResponseDialog(ToSend(sys.txs[id], e).value, Server).Some?
    ensures var d, o := ResponseDialog(ToSend(sys.txs[id], e).value, Server).value, sys.txs[id].original;
            d.callId == o.ids.callId && o.ids.fromTag == Some(d.remoteTag)
  {
    HealthyAt(sys, id, TimeOf(e));
    var tx := sys.txs[id];
    assert Sane(tx);
    if e.CallReceive? { assert OkEvent(tx, tx.queue[0]); }
    hide Consistent, Inv, Alive;
  }

  // ---- A route once lost is lost ---------------------------------------------------------------------

  ghost predicate NoNewRoute(ep: Ep, ep': Ep, key: Key) {
    forall k :: k in ep'.waitingAckCseq && ep'.waitingAckCseq[k] == key ==> k in ep.waitingAckCseq && ep.waitingAckCseq[k] == key
  }

  lemma CallAddsNone(sys: Sys, e: Event, id: nat)
    requires Consistent(sys) && Possible(sys, e) && IsCall(e) && Waits(sys, id) && Waits(Step(sys, e), id)
    ensures NoNewRoute(sys.ep, Step(sys, e).ep, sys.txs[id].key)
  {
    hide Consistent, Possible, Called, Inv, Alive, RequestKey, KindOk;
    CallPossible(sys, e);
    HealthyAt(sys, e.id, TimeOf(e));
    HealthyAt(sys, id, TimeOf(e));
    if e.id == id {
      WaitingRoutes(At(sys, id), e);
    } else {
      CallTables(At(sys, e.id), e);
      if !sys.txs[e.id].cleanedUp { OtherKey(sys, e.id, id); }
    }
  }

  lemma RouteAddsNone(ep: Ep, msg: SipMessage, conn: Conn, sendOk: bool, key: Key)
    ensures NoNewRoute(ep, Route(ep, msg, conn, sendOk).ep, key)
  {
    hide RequestDialog, RequestKey, ResponseKey, ReplayedAck;
  }

  lemma IncomingAddsNone(sys: Sys, msg: SipMessage, conn: Conn, env: Env, key: Key)
    ensures NoNewRoute(sys.ep, StepIncoming(sys, msg, conn, env).ep, key)
  {
    RouteAddsNone(sys.ep, msg, conn, env.sendOk, key);
    hide Route;
  }

  lemma CleanupAddsNone(s: TE, env: Env, key: Key)
    ensures NoNewRoute(s.ep, DoCleanup(s, env).ep, key)
  {
    hide LastMessage, ResponseDialog;
  }

  lemma StepAddsNone(sys: Sys, e: Event, id: nat)
    requires Consistent(sys) && Possible(sys, e) && Waits(sys, id) && Waits(Step(sys, e), id)
    ensures NoNewRoute(sys.ep, Step(sys, e).ep, sys.txs[id].key)
  {
    hide Consistent, NoNewRoute, DoCleanup, Route, RunCleanup, Called, System.Earliest, RequestKey;
    if IsCall(e) {
      CallAddsNone(sys, e, id);
    } else if e.Drop? {
      CleanupAddsNone(At(sys, e.id), e.env, sys.txs[id].key);
    } else if e.Incoming? {
      IncomingAddsNone(sys, e.msg, e.from, e.env, sys.txs[id].key);
    } else {
      ReleaseAddsNone(sys.ep, e.key, sys.txs[id].key);
    }
  }

  lemma ReleaseAddsNone(ep: Ep, other: Key, key: Key)
    ensures NoNewRoute(ep, RunCleanup(ep, other), key) && NoNewRoute(ep, ep.(table := ep.table + {other}), key)
  {
  }

  lemma LostStays(sys: Sys, e: Event, id: nat, d: DialogId)
    requires Consistent(sys) && Possible(sys, e) && Waits(sys, id) && !Held(sys, id, d) && Waits(Step(sys, e), id)
    ensures !Held(Step(sys, e), id, d)
  {
    hide Consistent, Possible, Step;
    StepAddsNone(sys, e, id);
    StepAdvances(sys, e);
  }

  // ---- On every run ------------------------------------------------------------------------------------

  /** No event of the run takes the route. */
  ghost predicate NeverTaken(sys: Sys, es: seq<Event>, id: nat, d: DialogId)
    requires Run(sys, es)
    decreases |es|
  {
    es != [] ==> !TakesRoute(sys, es[0], id, d) && NeverTaken(Step(sys, es[0]), es[1..], id, d)
  }

  /** One that waits at the end of a run waited throughout. */
  lemma StillWaits(sys: Sys, es: seq<Event>, id: nat)
    requires Consistent(sys) && Run(sys, es) && es != [] && Waits(sys, id) && Waits(After(sys, es), id)
    ensures Waits(Step(sys, es[0]), id)
  {
    hide Consistent, Possible, Step;
    StepConsistent(sys, es[0]);
    NextNumber(sys, es[0]);
    StepAdvances(sys, es[0]);
    RunAdvances(Step(sys, es[0]), es[1..]);
    var t, t1, t2 := sys.txs[id], Step(sys, es[0]).txs[id], After(sys, es).txs[id];
    ForwardRank(t.state, t1.state);
    RankFour(t1.state, t2.state);
    hide Rank, Forward;
  }

  lemma RankFour(a: State, b: State)
    requires b.Accepted? && Rank(a) <= Rank(b) && (Rank(a) == Rank(b) ==> b == a) && Rank(a) >= Rank(Accepted)
    ensures a.Accepted?
  {
  }

  /** On every run, an INVITE that waits throughout holds the route at the end exactly when it held it at
      the start and no other INVITE was answered in its dialog under its CSeq number. */
  lemma {:induction false} RunHoldsExactlyWhen(sys: Sys, es: seq<Event>, id: nat, d: DialogId)
    requires Consistent(sys) && Run(sys, es) && Waits(sys, id) && Waits(After(sys, es), id)
    ensures Held(After(sys, es), id, d) <==> Held(sys, id, d) && NeverTaken(sys, es, id, d)
    decreases |es|
  {
    hide Consistent, Possible, Step, Held, Waits, TakesRoute;
    if es != [] {
      StillWaits(sys, es, id);
      StepConsistent(sys, es[0]);
      RunHoldsExactlyWhen(Step(sys, es[0]), es[1..], id, d);
      if Held(sys, id, d) { StepHoldsExactlyWhen(sys, es[0], id, d); } else { LostStays(sys, es[0], id, d); }
    }
  }

  /** On every run, from the answer `r` (event `e`) on: ACKs of that answer's dialog and CSeq number have a
      route to the transaction exactly when no other INVITE took it. */
  lemma RouteExactlyWhen(opt: EndpointOption, es: seq<Event>, sys: Sys, e: Event, answered: Sys,
                         later: seq<Event>, late: Sys, id: nat, r: Response)
    requires RunsTo(Start(opt), es, sys) && StepsTo(sys, e, answered)
    requires id in sys.txs && !Waits(sys, id) && Waits(answered, id) && ToSend(sys.txs[id], e) == Some(r)
    requires RunsTo(answered, later, late) && Waits(late, id)
    ensures ResponseDialog(r, Server).Some?
    ensures Held(late, id, ResponseDialog(r, Server).value)
            <==> NeverTaken(answered, later, id, ResponseDialog(r, Server).value)
  {
    hide Run, Step, Possible, Consistent, Held, ToSend, NeverTaken, After, ResponseDialog;
    StartConsistent(opt);
    RunConsistent(Start(opt), es);
    AcceptingRegisters(sys, e, id);
    StepConsistent(sys, e);
    RunHoldsExactlyWhen(answered, later, id, ResponseDialog(r, Server).value);
  }

  // ---- From the incoming ACK to the ended transaction ------------------------------------------------------

  /** `ack` acknowledges the answer `r` to the INVITE with these identifiers: same dialog, same CSeq
      number.  Its branch is its own. */
  predicate Acknowledges(ack: Request, r: Response, cseq: nat) {
    && ack.verb == Ack && ack.ids.callId == r.ids.callId && ack.ids.fromTag == r.ids.fromTag && ack.toTag == r.toTag
    && ack.ids.cseq == cseq
  }

  /** What `make_ack` makes does, and it goes back the way the answer came. */
  lemma MadeAckAcknowledges(invite: Request, r: Response, branch: string)
    requires Successful(r) && r.contact.Some? && r.ids.cseq == invite.ids.cseq
    ensures MakeAck(invite, r, branch).Some? && Acknowledges(MakeAck(invite, r, branch).value, r, invite.ids.cseq)
    ensures var ack := MakeAck(invite, r, branch).value; FollowsRecordRoute(ack.uri, ack.routes, r.contact.value, r.recordRoute)
  {
    AckFollowsRecordRoute(invite, r, branch);
    hide AckTarget, Reverse, FollowsRecordRoute;
  }

  lemma StepKeeps(sys: Sys, e: Event, sys': Sys)
    requires Consistent(sys) && StepsTo(sys, e, sys')
    ensures Consistent(sys')
  {
    hide Consistent, Step, Possible;
    StepConsistent(sys, e);
  }

  /** An ACK of the dialog goes to the queue of the transaction that holds the route. */
  lemma AckIsDelivered(sys: Sys, id: nat, d: DialogId, ack: Request, conn: Conn, env: Env, got: Sys)
    requires Consistent(sys) && StepsTo(sys, Incoming(Req(ack), conn, env), got) && Held(sys, id, d)
    requires ack.verb == Ack && RequestDialog(ack, Server) == Some(d) && ack.ids.cseq == sys.txs[id].original.ids.cseq
    ensures got.txs == sys.txs[id := sys.txs[id].(queue := sys.txs[id].queue + [Received(Req(ack), Some(conn))])]
  {
    hide Consistent, RequestKey, RequestDialog, Inv, Alive;
    HealthyAt(sys, id, sys.now);
    LiveIsNotCached(sys, id);
    assert TargetKey(sys.ep, ack) == Some(sys.txs[id].key);
    OneOwner(sys, id);
  }

  lemma OneOwner(sys: Sys, id: nat)
    requires Consistent(sys) && id in sys.txs && !sys.txs[id].cleanedUp
    ensures Owner(sys, sys.txs[id].key) == Some(id)
  {
    assert Owns(sys, id, sys.txs[id].key);
    var o := Owner(sys, sys.txs[id].key);
    hide Consistent;
  }

  /** How many events of its queue the transaction handles. */
  function Handled(es: seq<Event>, id: nat): nat {
    if es == [] then 0 else (if es[0].CallReceive? && es[0].id == id then 1 else 0) + Handled(es[1..], id)
  }

  /** Its user does not drop it. */
  ghost predicate NotDropped(es: seq<Event>, id: nat) {
    forall i :: 0 <= i < |es| ==> !(es[i].Drop? && es[i].id == id)
  }

  /** A server INVITE that waits for its ACK or has ended, with the ACK at place `n` of its queue. */
  predicate AckQueued(sys: Sys, id: nat, n: nat, ack: Request, conn: Option<Conn>) {
    && id in sys.txs && sys.txs[id].kind.ServerInvite? && (sys.txs[id].state.Accepted? || sys.txs[id].state.Terminated?)
    && n < |sys.txs[id].queue| && sys.txs[id].queue[n] == Received(Req(ack), conn)
    && ack.verb == Ack && ack.ids.cseq == sys.txs[id].original.ids.cseq
  }

  /** The transaction has ended; and if it waited still, the ACK ended it, and went up. */
  predicate EndedBy(before: Sys, after: Sys, id: nat, ack: Request) {
    && id in before.txs && id in after.txs && after.txs[id].state.Terminated?
    && (before.txs[id].state.Accepted? ==> after.txs[id].log.delivered == before.txs[id].log.delivered + [Req(ack)])
  }

  /** When the queue up to the ACK has been handled, the transaction has ended, by the ACK or by
      something before it, whatever else happened in between. */
  lemma {:induction false} HandledAckEnds(sys: Sys, es: seq<Event>, before: Sys, last: Event, after: Sys,
                                          id: nat, ack: Request, conn: Option<Conn>)
    requires Consistent(sys) && RunsTo(sys, es, before) && StepsTo(before, last, after)
    requires NotDropped(es, id) && last.CallReceive? && last.id == id
    requires AckQueued(sys, id, Handled(es, id), ack, conn)
    ensures EndedBy(before, after, id, ack)
    decreases |es|
  {
    hide Consistent, AckQueued, Step, Possible, EndedBy;
    if es == [] {
      HeadAckEnds(sys, last, after, id, ack, conn);
    } else {
      StepConsistent(sys, es[0]);
      if es[0].CallReceive? && es[0].id == id {
        AckMovesUp(sys, es[0], Step(sys, es[0]), id, Handled(es[1..], id), ack, conn);
      } else {
        AckStaysQueued(sys, es[0], id, Handled(es, id), ack, conn);
      }
      assert NotDropped(es[1..], id);
      HandledAckEnds(Step(sys, es[0]), es[1..], before, last, after, id, ack, conn);
    }
  }

  lemma AckMovesUp(sys: Sys, e: Event, sys': Sys, id: nat, n: nat, ack: Request, conn: Option<Conn>)
    requires Consistent(sys) && StepsTo(sys, e, sys') && e.CallReceive? && e.id == id
    requires AckQueued(sys, id, n + 1, ack, conn)
    ensures AckQueued(sys', id, n, ack, conn)
  {
    hide Consistent, Step, Possible;
    ReceivedNext(sys, e, sys', id);
    var q, q' := sys.txs[id].queue, sys'.txs[id].queue;
    assert q'[n] == q'[..|q| - 1][n] == q[1..][n];
  }

  /** Every other step leaves the ACK where it is. */
  lemma AckStaysQueued(sys: Sys, e: Event, id: nat, n: nat, ack: Request, conn: Option<Conn>)
    requires Consistent(sys) && Possible(sys, e) && AckQueued(sys, id, n, ack, conn)
    requires !(e.CallReceive? && e.id == id) && !(e.Drop? && e.id == id)
    ensures AckQueued(Step(sys, e), id, n, ack, conn)
  {
    hide Consistent, Called, Route, DoCleanup, RunCleanup, System.Earliest, RequestKey, Inv, Alive;
    NextIsFree(sys);
    if IsCall(e) && e.id == id {
      CallPossible(sys, e);
      HealthyAt(sys, id, TimeOf(e));
      CallKeeps(At(sys, id), e);
      CallForward(At(sys, id), e);
      CallQueues(At(sys, id), e);
    }
  }

  /** A call that does not handle the queue only adds to it. */
  lemma CallQueues(s: TE, e: Event)
    requires IsCall(e) && !e.CallReceive? && (e.FireTimer? ==> e.slot in s.tx.pending)
    ensures s.tx.queue <= Called(s, e).tx.queue
  {
    hide Send, DoRespond, SendAck;
    match e
    case CallSend(_, env) => SendInward(s, env);
    case CallRespond(_, r, env) => RespondInward(s, r, env);
    case CallSendAck(_, conn, env) => SendAckInward(s, conn, env);
    case _ =>
  }

  /** One event handled: the head is gone, the rest moves up. */
  lemma ReceivedNext(sys: Sys, e: Event, sys': Sys, id: nat)
    requires Consistent(sys) && StepsTo(sys, e, sys') && e.CallReceive? && e.id == id && id in sys.txs
    requires sys.txs[id].kind.ServerInvite? && (sys.txs[id].state.Accepted? || sys.txs[id].state.Terminated?)
    ensures id in sys'.txs
    ensures var t, t' := sys.txs[id], sys'.txs[id];
            && t'.kind == t.kind && t'.original == t.original
            && (t'.state.Accepted? || t'.state.Terminated?)
            && |t.queue| - 1 <= |t'.queue| && t'.queue[..|t.queue| - 1] == t.queue[1..]
  {
    hide Consistent, Receive, Handle, Inv, Alive;
    HealthyAt(sys, id, TimeOf(e));
    var s := At(sys, id);
    CallKeeps(s, e);
    ReceiveForward(s, e.env);
    ReceivedQueue(s, e.env);
  }

  lemma ReceivedQueue(s: TE, env: Env)
    requires s.tx.queue != []
    ensures Grows(s.tx.queue[1..], Receive(s, env).tx.queue)
  {
    HandleInward(Pop(s), s.tx.queue[0], env);
    hide Handle, Grows;
  }

  lemma HeadAckEnds(sys: Sys, e: Event, sys': Sys, id: nat, ack: Request, conn: Option<Conn>)
    requires Consistent(sys) && StepsTo(sys, e, sys') && e.CallReceive? && e.id == id
    requires AckQueued(sys, id, 0, ack, conn)
    ensures EndedBy(sys, sys', id, ack)
  {
    hide Consistent, Inv, Alive, Transition, OnRequest;
    HealthyAt(sys, id, TimeOf(e));
    var s := Pop(At(sys, id));
    if s.tx.state.Accepted? {
      AckEndsItsInvite(s, ack, conn, e.env);
      OnRequestInward(s, ack, conn, e.env);
    } else {
      OnRequestForward(s, ack, conn, e.env);
    }
    hide Grows;
  }

  /** An ACK of the dialog over a branch of its own does not touch a transaction without the route. */
  lemma AckGoesElsewhere(sys: Sys, id: nat, d: DialogId, ack: Request, conn: Conn, env: Env, got: Sys)
    requires Consistent(sys) && StepsTo(sys, Incoming(Req(ack), conn, env), got) && Waits(sys, id) && !Held(sys, id, d)
    requires d.callId == sys.txs[id].original.ids.callId && sys.txs[id].original.ids.fromTag == Some(d.remoteTag)
    requires ack.verb == Ack && RequestDialog(ack, Server) == Some(d) && ack.ids.cseq == sys.txs[id].original.ids.cseq
    requires RequestKey(ack, Server) != Some(sys.txs[id].key)
    ensures id in got.txs && got.txs[id] == sys.txs[id]
  {
    hide Consistent, RequestKey, RequestDialog, Route;
    assert TargetKey(sys.ep, ack) != Some(sys.txs[id].key);
    AckStartsNothing(sys.ep, ack, conn, env.sendOk);
  }

  lemma AckStartsNothing(ep: Ep, ack: Request, conn: Conn, sendOk: bool)
    requires ack.verb == Ack
    ensures var action := Route(ep, Req(ack), conn, sendOk).action;
            action.Ignore? || (action.Deliver? && TargetKey(ep, ack) == Some(action.key))
  {
    hide RequestKey, RequestDialog;
  }

  /** The way to the transaction, on every run, from the answer `r` (event `e`) on: an ACK of `r`, over a
      branch of its own, is queued at the transaction exactly when no other INVITE with its CSeq number
      was answered in the same dialog meanwhile. */
  lemma AckArrivesExactlyWhen(opt: EndpointOption, es: seq<Event>, sys: Sys, e: Event, answered: Sys,
                              later: seq<Event>, late: Sys, id: nat, r: Response,
                              ack: Request, conn: Conn, env: Env, got: Sys)
    requires RunsTo(Start(opt), es, sys) && StepsTo(sys, e, answered)
    requires id in sys.txs && !Waits(sys, id) && Waits(answered, id) && ToSend(sys.txs[id], e) == Some(r)
    requires RunsTo(answered, later, late) && Waits(late, id)
    requires StepsTo(late, Incoming(Req(ack), conn, env), got) && Acknowledges(ack, r, sys.txs[id].original.ids.cseq)
    requires RequestKey(ack, Server) != Some(late.txs[id].key)
    ensures ResponseDialog(r, Server).Some? && id in got.txs
    ensures got.txs[id].queue == late.txs[id].queue + [Received(Req(ack), Some(conn))]
            <==> NeverTaken(answered, later, id, ResponseDialog(r, Server).value)
  {
    hide Run, Step, Possible, Consistent, Held, ToSend, NeverTaken, After, ResponseDialog, RequestKey;
    StartConsistent(opt);
    RunConsistent(Start(opt), es);
    RouteExactlyWhen(opt, es, sys, e, answered, later, late, id, r);
    AnswerFits(sys, e, id);
    StepConsistent(sys, e);
    RunConsistent(answered, later);
    SameInvite(sys, e, later, id);
    AckDialog(ack, r);
    var d := ResponseDialog(r, Server).value;
    if Held(late, id, d) { AckIsDelivered(late, id, d, ack, conn, env, got); } else { AckGoesElsewhere(late, id, d, ack, conn, env, got); }
  }

  lemma AnswerFits(sys: Sys, e: Event, id: nat)
    requires Consistent(sys) && Possible(sys, e) && id in sys.txs && !Waits(sys, id) && Waits(Step(sys, e), id)
    ensures ToSend(sys.txs[id], e).Some? && ResponseDialog(ToSend(sys.txs[id], e).value, Server).Some?
    ensures var d, o := ResponseDialog(ToSend(sys.txs[id], e).value, Server).value, sys.txs[id].original;
            d.callId == o.ids.callId && o.ids.fromTag == Some(d.remoteTag)
  {
    hide Consistent, Possible, Step, ToSend, ResponseDialog;
    AcceptingRegisters(sys, e, id);
    StepAdvances(sys, e);
  }

  /** The whole way, on every run: a server INVITE is answered with the success `r` (event `e`); much
      later it still waits, no other having taken its route; an ACK of `r` arrives, over whatever branch.
      It goes to this transaction alone; and whatever happens in the whole system meanwhile, once the
      queue up to it is handled the transaction has ended, unless its user dropped it.  The ACK went up if
      it was the ACK that ended it. */
  lemma AckEndsWhatItAcknowledges(opt: EndpointOption, es: seq<Event>, sys: Sys, e: Event, answered: Sys,
                                  later: seq<Event>, late: Sys, id: nat, r: Response, d: DialogId,
                                  ack: Request, conn: Conn, env: Env, got: Sys,
                                  meanwhile: seq<Event>, before: Sys, last: Event, after: Sys)
    requires RunsTo(Start(opt), es, sys) && StepsTo(sys, e, answered)
    requires id in sys.txs && !Waits(sys, id) && Waits(answered, id) && ToSend(sys.txs[id], e) == Some(r)
    requires RunsTo(answered, later, late) && Waits(late, id)
    requires ResponseDialog(r, Server) == Some(d) && NeverTaken(answered, later, id, d)
    requires StepsTo(late, Incoming(Req(ack), conn, env), got) && Acknowledges(ack, r, sys.txs[id].original.ids.cseq)
    requires RunsTo(got, meanwhile, before) && StepsTo(before, last, after) && NotDropped(meanwhile, id)
    requires last.CallReceive? && last.id == id && Handled(meanwhile, id) == |late.txs[id].queue|
    ensures got.txs == late.txs[id := late.txs[id].(queue := late.txs[id].queue + [Received(Req(ack), Some(conn))])]
    ensures EndedBy(before, after, id, ack)
  {
    hide Run, Step, Possible, Consistent, Held, ToSend, NeverTaken, NotDropped, Handled, After, ResponseDialog, EndedBy;
    StartConsistent(opt);
    RunConsistent(Start(opt), es);
    RouteExactlyWhen(opt, es, sys, e, answered, later, late, id, r);
    StepConsistent(sys, e);
    RunConsistent(answered, later);
    SameInvite(sys, e, later, id);
    AckDialog(ack, r);
    HeldWaits(late, id, d);
    AckIsDelivered(late, id, d, ack, conn, env, got);
    StepKeeps(late, Incoming(Req(ack), conn, env), got);
    HandledAckEnds(got, meanwhile, before, last, after, id, ack, Some(conn));
  }

  lemma AckDialog(ack: Request, r: Response)
    requires ResponseDialog(r, Server).Some? && Acknowledges(ack, r, ack.ids.cseq)
    ensures RequestDialog(ack, Server) == ResponseDialog(r, Server)
  {
  }

  lemma HeldWaits(sys: Sys, id: nat, d: DialogId)
    requires Held(sys, id, d)
    ensures Waits(sys, id)
  {
  }

  lemma SameInvite(sys: Sys, e: Event, later: seq<Event>, id: nat)
    requires Consistent(sys) && Possible(sys, e) && id in sys.txs && Run(Step(sys, e), later)
    requires Waits(Step(sys, e), id) && Waits(After(Step(sys, e), later), id)
    ensures After(Step(sys, e), later).txs[id].original == sys.txs[id].original
  {
    hide Consistent, Possible, Step;
    StepConsistent(sys, e);
    StepAdvances(sys, e);
    RunSameInvite(Step(sys, e), later, id);
  }

  lemma {:induction false} RunSameInvite(sys: Sys, es: seq<Event>, id: nat)
    requires Consistent(sys) && Run(sys, es) && id in sys.txs && id in After(sys, es).txs
    ensures After(sys, es).txs[id].original == sys.txs[id].original
    decreases |es|
  {
    hide Consistent, Possible, Step;
    if es != [] {
      StepConsistent(sys, es[0]);
      NextNumber(sys, es[0]);
      StepAdvances(sys, es[0]);
      RunAdvances(Step(sys, es[0]), es[1..]);
      RunSameInvite(Step(sys, es[0]), es[1..], id);
    }
  }
}
