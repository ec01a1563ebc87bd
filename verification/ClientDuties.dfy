/**
 What a client transaction does, event by event, as one table (RFC 3261
 sections 17.1.1 and 17.1.2, RFC 6026 section 7.2): its next state, what it writes, what it hands
 up, the local final response it makes itself, when Timer A is due next.
 */
module ClientDuties {
  import opened Prelude
  import opened SipMessages
  import opened TransactionKey
  import opened EndpointSpec
  import opened TransactionSpec
  import opened TransactionSanity
  import opened TransactionInvariant
  import opened TransactionHandlers
  import opened NeverStuck
  import opened TableSteps
  import opened StateOrder
  import opened LocalEvents
  import opened System
  import opened SystemSteps
  import opened RunTheorems
  import opened ClientStory
  import opened ForkedAcks
  import opened AckHistory
  import opened AckRuns
  import opened Heeding
  import S = ServerDuties

  /** What is written: nothing, the request, or an ACK of the last response. */
  datatype Output = Silent | TheRequest | AckFor(response: Response)

  /** The outcome of one event.  `local` is the code of the final response the transaction queues for
      itself, `resent` counts a retransmission, `rearmed` is Timer A if it is armed now, `conn` the
      connection found, `resends` whether Timer A may still send. */
  datatype Duty = Duty(state: State, out: Output, up: Option<SipMessage>, last: Option<Response>,
                       local: Option<nat>, resent: nat, rearmed: Option<Shot>, conn: Option<Conn>, resends: bool)

  function Stay(tx: Tx): Duty { Duty(tx.state, Silent, None, tx.lastResponse, None, 0, None, tx.conn, tx.retransmission) }

  // ---- The table -----------------------------------------------------------------------------------

  /** `send`: the request goes out over the transaction's connection or the one found for it. */
  function SendDuty(tx: Tx, env: Env, opt: EndpointOption): Duty {
    if tx.conn.None? && !env.resolved then Stay(tx)
    else
      var conn := if tx.conn.None? then env.found else tx.conn;
      Stay(tx).(state := Calling, conn := conn,
                out := if conn.Some? && env.sendOk then TheRequest else Silent,
                local := if conn == Some(Stream) && !env.sendOk then Some(503) else None,
                rearmed := if tx.state.Nothing? && conn != Some(Stream) && conn != Some(Conn.Channel) then Some(Shot(env.now + opt.t1, opt.t1)) else None)
  }

  /** Timer A: the request again, and the timer again with twice its span. */
  function ResendDuty(tx: Tx, span: nat, env: Env, opt: EndpointOption): Duty {
    if !tx.retransmission then Stay(tx)
    else
      var conn := if tx.conn.None? && env.resolved then env.found else tx.conn;
      var next := Min(2 * span, opt.t1x64);
      var broken := conn == Some(Stream) && !env.sendOk;
      Stay(tx).(out := if conn.Some? && env.sendOk then TheRequest else Silent, conn := conn,
                local := if broken then Some(503) else None, resent := 1,
                rearmed := if broken then None else Some(Shot(env.now + next, next)))
  }

  function TimerDuty(tx: Tx, t: TxTimer, env: Env, opt: EndpointOption): Duty
    requires t.TxTimer?
  {
    var early := tx.state.Calling? || tx.state.Trying?;
    if early && t.slot.A? then ResendDuty(tx, t.span, env, opt)
    else if (early && t.slot.B?) || (tx.state.Proceeding? && (t.slot.C? || (t.slot.B? && tx.kind.ClientNonInvite?))) then
      Stay(tx).(local := Some(408))
    else if tx.state.Accepted? && t.slot.M? then Stay(tx).(state := Terminated)
    else Stay(tx)
  }

  /** A response: provisional ones move to Trying or Proceeding; a failure ends the transaction, with its
      ACK for an INVITE; a success of an INVITE opens the Accepted window, acknowledged unless it is for
      another hop, and ends the transaction where the user acknowledges itself. */
  function ResponseDuty(tx: Tx, r: Response, conn: Option<Conn>, env: Env, opt: EndpointOption): Duty {
    var waiting := tx.state.Calling? || tx.state.Trying? || tx.state.Proceeding?;
    if waiting && Provisional(r) then
      if (r.code == 100 && tx.state.Proceeding?) || Repeats(tx, r) then Stay(tx)
      else Stay(tx).(state := if r.code == 100 then Trying else Proceeding, up := Some(Resp(r)), last := Some(r))
    else if waiting && tx.kind.ClientNonInvite? then Stay(tx).(state := Terminated, up := Some(Resp(r)), last := Some(r))
    else if (waiting || tx.state.Accepted?) && Successful(r) then
      var acked := !MultipleVias(r) && opt.autoAck2xx && AckConn(conn, env).Some? && env.sendOk;
      Stay(tx).(state := if MultipleVias(r) || opt.autoAck2xx then Accepted else Terminated,
                out := if acked then AckFor(r) else Silent, up := Some(Resp(r)), last := Some(r))
    else if waiting then
      Stay(tx).(state := Terminated, out := if conn.Some? && env.sendOk then AckFor(r) else Silent, up := Some(Resp(r)), last := Some(r))
    else Stay(tx)
  }

  function SendAckDuty(tx: Tx, conn: Option<Conn>, env: Env): Duty {
    if tx.state.Accepted? && tx.lastResponse.Some? && AckConn(conn, env).Some? && env.sendOk
    then Stay(tx).(out := AckFor(tx.lastResponse.value)) else Stay(tx)
  }

  function Row(tx: Tx, e: Event, opt: EndpointOption): Duty {
    if e.CallSend? then SendDuty(tx, e.env, opt)
    else if e.CallStop? then Stay(tx).(resends := false)
    else if e.CallSendAck? then SendAckDuty(tx, e.conn, e.env)
    else if e.CallReceive? && tx.queue != [] then
      match tx.queue[0]
      case Received(msg, conn) => if msg.Resp? then ResponseDuty(tx, msg.response, conn, e.env, opt) else Stay(tx)
      case Fired(t) => if t.TxTimer? then TimerDuty(tx, t, e.env, opt) else Stay(tx)
      case _ => Stay(tx)
    else Stay(tx)
  }

  /** The event a client queues when it gives up. */
  function LocalFinal(tx: Tx, code: nat): TxEvent {
    Received(Resp(Response(code, tx.original.verb, tx.original.ids, tx.original.toTag, None, [], [], true)), None)
  }

  /** The queue that is left to handle. */
  function Rest(tx: Tx, e: Event): seq<TxEvent> {
    if e.CallReceive? && tx.queue != [] then tx.queue[1..] else tx.queue
  }

  ghost predicate Outputs(tx: Tx, out: Output, w: seq<SipMessage>) {
    match out
    case Silent => w == []
    case TheRequest => w == [Req(tx.original)]
    case AckFor(r) =>
      && |w| == 1 && w[0].Req? && w[0].request.verb == Ack && w[0].request.toTag == r.toTag
      && (!Successful(r) ==> w[0].request == Request(Ack, tx.original.uri, r.ids, r.toTag, tx.original.routes, []))
  }

  /** `s'` is what the row `d` says of `s` after event `e`. */
  ghost predicate Done(s: TE, e: Event, s': TE, d: Duty) {
    && s'.tx.state == d.state && s'.tx.lastResponse == d.last && s'.tx.conn == d.conn && s'.tx.retransmission == d.resends
    && (e.CallStop? ==> A !in s'.tx.pending)
    && |s.ep.wire| <= |s'.ep.wire| && s'.ep.wire[..|s.ep.wire|] == s.ep.wire && Outputs(s.tx, d.out, s'.ep.wire[|s.ep.wire|..])
    && s'.tx.log.delivered == s.tx.log.delivered + (if d.up.Some? then [d.up.value] else [])
    && (e.CallSend? || e.CallReceive? || e.CallSendAck? ==>
          s'.tx.queue == Rest(s.tx, e) + (if d.local.Some? then [LocalFinal(s.tx, d.local.value)] else [])
                         + (if d.state.Terminated? && !s.tx.state.Terminated? then [Terminate(s.tx.key)] else []))
    && s'.tx.log.resentRequests == s.tx.log.resentRequests + d.resent
    && (d.rearmed.Some? ==> A in s'.tx.pending && s'.tx.pending[A] == d.rearmed.value)
  }

  // ---- The handlers against it ------------------------------------------------------------------------

  /** A client transaction on a run, whose successes are well-formed. */
  ghost predicate Asking(tx: Tx) {
    && IsClient(tx.kind) && Reaches(tx.kind, tx.state) && !tx.state.Completed? && (tx.cleanedUp <==> tx.state.Terminated?)
    && AckOk(tx) && TagKept(tx)
  }

  lemma NothingWritten(s: TE, s': TE)
    requires s'.ep.wire == s.ep.wire
    ensures s'.ep.wire[..|s.ep.wire|] == s.ep.wire && s'.ep.wire[|s.ep.wire|..] == []
  {
  }

  lemma OneWritten(s: TE, s': TE, m: SipMessage)
    requires s'.ep.wire == s.ep.wire + [m]
    ensures s'.ep.wire[..|s.ep.wire|] == s.ep.wire && s'.ep.wire[|s.ep.wire|..] == [m]
  {
  }

  lemma Ends(s: TE, env: Env)
    requires !s.tx.cleanedUp && !s.tx.state.Terminated? && IsClient(s.tx.kind)
    ensures var s' := Transition(s, Terminated, env).s;
            && s'.tx.state.Terminated? && s'.ep.wire == s.ep.wire && s'.tx.log == s.tx.log
            && s'.tx.conn == s.tx.conn && s'.tx.retransmission == s.tx.retransmission
            && s'.tx.lastResponse == s.tx.lastResponse && s'.tx.queue == s.tx.queue + [Terminate(s.tx.key)]
  {
    TransitionEnds(s, env);
    hide Transition, LastMessage;
  }

  lemma StartsCalling(s: TE, env: Env)
    requires IsClient(s.tx.kind) && (s.tx.state.Nothing? || s.tx.state.Calling?)
    ensures var s' := Transition(s, Calling, env).s;
            && Transition(s, Calling, env).ok && s'.tx.state.Calling? && s'.ep.wire == s.ep.wire
            && s'.tx.conn == s.tx.conn && s'.tx.retransmission == s.tx.retransmission
            && s'.tx.lastResponse == s.tx.lastResponse && s'.tx.queue == s.tx.queue
            && s'.tx.log.delivered == s.tx.log.delivered && s'.tx.log.resentRequests == s.tx.log.resentRequests
            && (s.tx.state.Nothing? && (s.tx.conn.Some? ==> !Reliable(s.tx.conn.value)) ==>
                  A in s'.tx.pending && s'.tx.pending[A] == Shot(env.now + s.ep.opt.t1, s.ep.opt.t1))
  {
    hide TimersOf;
  }

  lemma SendDone(s: TE, id: nat, env: Env)
    requires Asking(s.tx) && (s.tx.state.Nothing? || s.tx.state.Calling?)
    ensures Done(s, CallSend(id, env), Send(s, env).s, Row(s.tx, CallSend(id, env), s.ep.opt))
  {
    StartsCalling(Written(s, env), env);
    OneWritten(s, s.(ep := s.ep.(wire := s.ep.wire + [Req(s.tx.original)])), Req(s.tx.original));
    NothingWritten(s, s);
    hide Transition, Asking;
  }

  lemma ResendDone(s: TE, span: nat, env: Env)
    requires Asking(s.tx)
    ensures var s', d := ResendRequest(s, span, env), ResendDuty(s.tx, span, env, s.ep.opt);
            && s'.tx.state == d.state && s'.tx.conn == d.conn && s'.tx.retransmission == d.resends && s'.tx.lastResponse == d.last && s'.tx.log.delivered == s.tx.log.delivered
            && s'.ep.wire == s.ep.wire + (if d.out.TheRequest? then [Req(s.tx.original)] else [])
            && s'.tx.queue == s.tx.queue + (if d.local.Some? then [LocalFinal(s.tx, d.local.value)] else [])
            && s'.tx.log.resentRequests == s.tx.log.resentRequests + d.resent
            && (d.rearmed.Some? ==> A in s'.tx.pending && s'.tx.pending[A] == d.rearmed.value)
            && !d.out.AckFor? && d.up.None? && (d.state == s.tx.state)
  {
    hide TimersOf, Asking;
  }

  /** What handling an event does, before the delivery is noted. */
  ghost predicate Does(s: TE, h: Handled, d: Duty) {
    && h.up == d.up
    && h.s.tx.state == d.state && h.s.tx.lastResponse == d.last && h.s.tx.conn == d.conn && h.s.tx.retransmission == d.resends
    && |s.ep.wire| <= |h.s.ep.wire| && h.s.ep.wire[..|s.ep.wire|] == s.ep.wire && Outputs(s.tx, d.out, h.s.ep.wire[|s.ep.wire|..])
    && h.s.tx.log.delivered == s.tx.log.delivered
    && h.s.tx.queue == s.tx.queue + (if d.local.Some? then [LocalFinal(s.tx, d.local.value)] else [])
                       + (if d.state.Terminated? && !s.tx.state.Terminated? then [Terminate(s.tx.key)] else [])
    && h.s.tx.log.resentRequests == s.tx.log.resentRequests + d.resent
    && (d.rearmed.Some? ==> A in h.s.tx.pending && h.s.tx.pending[A] == d.rearmed.value)
  }

  lemma Unmoved(s: TE)
    ensures Does(s, Handled(s, None), Stay(s.tx))
  {
  }

  lemma TimerDone(s: TE, t: TxTimer, env: Env)
    requires Asking(s.tx) && t.TxTimer?
    ensures Does(s, Handled(OnTimer(s, t, env), None), TimerDuty(s.tx, t, env, s.ep.opt))
  {
    hide Transition, ResendRequest, ResendDuty, AckOk, TagKept;
    if (s.tx.state.Calling? || s.tx.state.Trying?) && t.slot.A? {
      ResendDone(s, t.span, env);
      AgainDone(s, t, env);
    } else if s.tx.state.Accepted? && t.slot.M? {
      Ends(s, env);
    }
  }

  lemma AgainDone(s: TE, t: TxTimer, env: Env)
    requires Asking(s.tx) && t.TxTimer? && t.slot.A? && (s.tx.state.Calling? || s.tx.state.Trying?)
    ensures Does(s, Handled(OnTimer(s, t, env), None), ResendDuty(s.tx, t.span, env, s.ep.opt))
  {
    ResendDone(s, t.span, env);
    OneWritten(s, s.(ep := s.ep.(wire := s.ep.wire + [Req(s.tx.original)])), Req(s.tx.original));
    NothingWritten(s, s);
    StillHere(s.tx, ResendDuty(s.tx, t.span, env, s.ep.opt));
    hide ResendRequest, Asking;
  }

  lemma StillHere(tx: Tx, d: Duty)
    requires d.state == tx.state
    ensures !(d.state.Terminated? && !tx.state.Terminated?)
  {
  }

  // Responses

  lemma ProvisionalDone(s: TE, r: Response, conn: Option<Conn>, env: Env)
    requires Asking(s.tx) && (s.tx.state.Calling? || s.tx.state.Trying? || s.tx.state.Proceeding?) && Provisional(r)
    ensures Does(s, OnResponse(s, r, conn, env), ResponseDuty(s.tx, r, conn, env, s.ep.opt))
  {
    hide AckOk, TagKept;
    HandsUpExactlyWhen(s, r, conn, env);
    ProvisionalMoves(s, r, conn, env);
    hide OnResponse;
  }

  lemma ProvisionalMoves(s: TE, r: Response, conn: Option<Conn>, env: Env)
    requires IsClient(s.tx.kind) && InSetup(s.tx.state) && Provisional(r)
    ensures var t := OnResponse(s, r, conn, env).s;
            && t.tx.conn == s.tx.conn && t.tx.retransmission == s.tx.retransmission
            && t.ep.wire == s.ep.wire && t.tx.queue == s.tx.queue && t.tx.log.delivered == s.tx.log.delivered
            && t.tx.log.resentRequests == s.tx.log.resentRequests
  {
    TransitionFacts(s.(tx := s.tx.(lastResponse := Some(r))), ResponseState(s.tx.kind, r, s.ep.opt), env);
    hide Transition, SendAck;
  }

  lemma NonInviteDone(s: TE, r: Response, conn: Option<Conn>, env: Env)
    requires Asking(s.tx) && (s.tx.state.Calling? || s.tx.state.Trying? || s.tx.state.Proceeding?) && !Provisional(r)
    requires s.tx.kind.ClientNonInvite?
    ensures Does(s, OnResponse(s, r, conn, env), ResponseDuty(s.tx, r, conn, env, s.ep.opt))
  {
    Ends(s.(tx := s.tx.(lastResponse := Some(r))), env);
    hide Transition, AckOk, TagKept;
  }

  lemma FailureDone(s: TE, r: Response, conn: Option<Conn>, env: Env)
    requires Asking(s.tx) && (s.tx.state.Calling? || s.tx.state.Trying? || s.tx.state.Proceeding?) && !Provisional(r) && !Successful(r)
    requires s.tx.kind.ClientInvite?
    ensures Does(s, OnResponse(s, r, conn, env), ResponseDuty(s.tx, r, conn, env, s.ep.opt))
  {
    FailureIsAcked(s, r, conn, env);
    FailureAck(s.tx.original, r, env.branch);
    FailureMoves(s, r, conn, env);
    OneWritten(s, OnResponse(s, r, conn, env).s.(ep := s.ep.(wire := s.ep.wire + [Req(MakeAck(s.tx.original, r, env.branch).value)])),
               Req(MakeAck(s.tx.original, r, env.branch).value));
    NothingWritten(s, s);
    hide OnResponse, MakeAck, AckOk, TagKept;
  }

  lemma FailureMoves(s: TE, r: Response, conn: Option<Conn>, env: Env)
    requires Asking(s.tx) && InSetup(s.tx.state) && !s.tx.state.Nothing? && !Provisional(r) && !Successful(r) && s.tx.kind.ClientInvite?
    ensures var t := OnResponse(s, r, conn, env).s.tx;
            && t.conn == s.tx.conn && t.retransmission == s.tx.retransmission && t.lastResponse == Some(r) && t.queue == s.tx.queue + [Terminate(s.tx.key)]
            && t.log.delivered == s.tx.log.delivered && t.log.resentRequests == s.tx.log.resentRequests
  {
    FailureAck(s.tx.original, r, env.branch);
    var s0 := s.(tx := s.tx.(lastResponse := Some(r)));
    var s1 := Transition(s0, Completed, env).s;
    TransitionFacts(s0, Completed, env);
    var s2 := PutAck(s1, MakeAck(s.tx.original, r, env.branch).value, conn, env);
    Ends(s2, env);
    hide Transition, MakeAck, TagKept;
  }

  lemma OwnSuccessDone(s: TE, r: Response, conn: Option<Conn>, env: Env)
    requires Asking(s.tx) && (s.tx.state.Calling? || s.tx.state.Trying? || s.tx.state.Proceeding? || s.tx.state.Accepted?)
    requires s.tx.kind.ClientInvite? && ProperSuccess(r) && !MultipleVias(r) && s.ep.opt.autoAck2xx
    ensures Does(s, OnResponse(s, r, conn, env), ResponseDuty(s.tx, r, conn, env, s.ep.opt))
  {
    SuccessIsAcked(s, r, conn, env);
    SuccessMoves(s, r, conn, env);
    var t := OnResponse(s, r, conn, env).s;
    if AckConn(conn, env).Some? && env.sendOk { OneWritten(s, t, Req(t.tx.lastAck.value)); } else { NothingWritten(s, t); }
    hide OnResponse, MakeAck;
  }

  lemma SuccessMoves(s: TE, r: Response, conn: Option<Conn>, env: Env)
    requires s.tx.kind.ClientInvite? && Successful(r) && !MultipleVias(r) && s.ep.opt.autoAck2xx && CanTransition(s.tx.state, Accepted)
    ensures var t := OnResponse(s, r, conn, env).s.tx;
            && t.conn == s.tx.conn && t.retransmission == s.tx.retransmission && t.lastResponse == Some(r) && t.queue == s.tx.queue
            && t.log.delivered == s.tx.log.delivered && t.log.resentRequests == s.tx.log.resentRequests
  {
    TransitionFacts(s.(tx := s.tx.(lastResponse := Some(r))), Accepted, env);
    hide Transition, ChooseAck;
  }

  lemma LastSuccessDone(s: TE, r: Response, conn: Option<Conn>, env: Env)
    requires Asking(s.tx) && (s.tx.state.Calling? || s.tx.state.Trying? || s.tx.state.Proceeding? || s.tx.state.Accepted?)
    requires s.tx.kind.ClientInvite? && Successful(r) && !MultipleVias(r) && !s.ep.opt.autoAck2xx
    ensures Does(s, OnResponse(s, r, conn, env), ResponseDuty(s.tx, r, conn, env, s.ep.opt))
  {
    Ends(s.(tx := s.tx.(lastResponse := Some(r))), env);
    hide Transition, AckOk, TagKept;
  }

  lemma ForwardedDone(s: TE, r: Response, conn: Option<Conn>, env: Env)
    requires Asking(s.tx) && (s.tx.state.Calling? || s.tx.state.Trying? || s.tx.state.Proceeding? || s.tx.state.Accepted?)
    requires s.tx.kind.ClientInvite? && Successful(r) && MultipleVias(r)
    ensures Does(s, OnResponse(s, r, conn, env), ResponseDuty(s.tx, r, conn, env, s.ep.opt))
  {
    TransitionFacts(s, Accepted, env);
    hide Transition, AckOk, TagKept;
  }

  lemma DroppedDone(s: TE, r: Response, conn: Option<Conn>, env: Env)
    requires Asking(s.tx) && (s.tx.state.Terminated? || (s.tx.state.Accepted? && !Successful(r)))
    ensures Does(s, OnResponse(s, r, conn, env), ResponseDuty(s.tx, r, conn, env, s.ep.opt))
  {
    hide AckOk, TagKept;
  }

  lemma ResponseDone(s: TE, r: Response, conn: Option<Conn>, env: Env)
    requires Asking(s.tx) && !s.tx.state.Nothing? && (Successful(r) && !MultipleVias(r) ==> ProperSuccess(r))
    ensures Does(s, OnResponse(s, r, conn, env), ResponseDuty(s.tx, r, conn, env, s.ep.opt))
  {
    hide OnResponse, Does, ResponseDuty, AckOk, TagKept;
    if s.tx.state.Terminated? || (s.tx.state.Accepted? && !Successful(r)) {
      DroppedDone(s, r, conn, env);
    } else if Provisional(r) {
      ProvisionalDone(s, r, conn, env);
    } else if s.tx.kind.ClientNonInvite? {
      NonInviteDone(s, r, conn, env);
    } else if !Successful(r) {
      FailureDone(s, r, conn, env);
    } else if MultipleVias(r) {
      ForwardedDone(s, r, conn, env);
    } else if s.ep.opt.autoAck2xx {
      OwnSuccessDone(s, r, conn, env);
    } else {
      LastSuccessDone(s, r, conn, env);
    }
  }

  // Calls

  lemma SendAckDone(s: TE, id: nat, conn: Option<Conn>, env: Env)
    requires Asking(s.tx) && (s.tx.state.Accepted? ==> s.tx.lastResponse.Some? && ProperSuccess(s.tx.lastResponse.value))
    ensures Done(s, CallSendAck(id, conn, env), SendAck(s, conn, env).s, SendAckDuty(s.tx, conn, env))
  {
    if s.tx.state.Accepted? && s.tx.kind.ClientInvite? {
      ChosenAck(s.tx, env.branch);
      PutSuccessAck(s, ChooseAck(s.tx, env.branch).value, conn, env);
      var t := SendAck(s, conn, env).s;
      if AckConn(conn, env).Some? && env.sendOk { OneWritten(s, t, Req(t.tx.lastAck.value)); } else { NothingWritten(s, t); }
      hide ChooseAck, PutAck, Transition;
    }
  }

  /** From one event handled to the whole `receive`. */
  lemma Received1(s: TE, id: nat, env: Env, d: Duty)
    requires s.tx.queue != [] && d == Row(s.tx, CallReceive(id, env), s.ep.opt)
    requires Does(Pop(s), Handle(Pop(s), s.tx.queue[0], env), d)
    ensures Done(s, CallReceive(id, env), Receive(s, env), d)
  {
    hide Handle, Row;
    SameOutputs(s.tx, Pop(s).tx, d.out);
    hide Outputs;
  }

  lemma SameOutputs(t: Tx, p: Tx, out: Output)
    requires p == t.(queue := p.queue)
    ensures forall w :: Outputs(p, out, w) <==> Outputs(t, out, w)
  {
  }

  lemma HandledDone(s: TE, id: nat, env: Env)
    requires Asking(s.tx) && s.tx.queue != [] && !s.tx.state.Nothing? && Proper(s.tx, CallReceive(id, env))
    ensures Done(s, CallReceive(id, env), Receive(s, env), Row(s.tx, CallReceive(id, env), s.ep.opt))
  {
    hide OnResponse, OnTimer, Asking, ResponseDuty, TimerDuty, Outputs, Does, Done, Stay, Receive;
    var p, q := Pop(s), s.tx.queue[0];
    StillAsking(s.tx, p.tx);
    SameRows(s.tx, p.tx, q, env, s.ep.opt);
    if q.Received? && q.msg.Resp? {
      ResponseDone(p, q.msg.response, q.conn, env);
    } else if q.Fired? && q.timer.TxTimer? {
      TimerDone(p, q.timer, env);
    } else {
      IsAsking(s.tx);
      OtherIgnored(p, q, env);
      Unmoved(p);
    }
    Received1(s, id, env, Row(s.tx, CallReceive(id, env), s.ep.opt));
  }

  lemma StillAsking(t: Tx, p: Tx)
    requires Asking(t) && p == t.(queue := p.queue)
    ensures Asking(p) && Stay(p) == Stay(t)
  {
  }

  lemma OtherIgnored(s: TE, q: TxEvent, env: Env)
    requires IsClient(s.tx.kind) && !(q.Received? && q.msg.Resp?) && !(q.Fired? && q.timer.TxTimer?)
    ensures Handle(s, q, env) == Handled(s, None)
  {
    hide CanTransition, Transition;
  }

  /** The table does not read the queue. */
  lemma SameRows(t: Tx, p: Tx, q: TxEvent, env: Env, opt: EndpointOption)
    requires p == t.(queue := p.queue)
    ensures q.Received? && q.msg.Resp? ==> ResponseDuty(p, q.msg.response, q.conn, env, opt) == ResponseDuty(t, q.msg.response, q.conn, env, opt)
    ensures q.Fired? && q.timer.TxTimer? ==> TimerDuty(p, q.timer, env, opt) == TimerDuty(t, q.timer, env, opt)
  {
  }

  lemma CallDone(s: TE, e: Event)
    requires IsCall(e) && (e.CallReceive? ==> s.tx.queue != [] && !s.tx.state.Nothing?) && (e.FireTimer? ==> e.slot in s.tx.pending)
    requires e.CallSend? ==> s.tx.state.Nothing? || s.tx.state.Calling?
    requires Asking(s.tx) && Proper(s.tx, e)
    ensures Done(s, e, Called(s, e), Row(s.tx, e, s.ep.opt))
  {
    hide Send, Receive, DoRespond, SendAck, Asking, SendDuty, SendAckDuty;
    NothingWritten(s, s);
    match e
    case CallSend(id, env) => SendDone(s, id, env);
    case CallReceive(id, env) => HandledDone(s, id, env);
    case CallSendAck(id, conn, env) => SendAckDone(s, id, conn, env);
    case CallRespond(_, r, env) => IsAsking(s.tx); ClientRespond(s, r, env);
    case _ =>
  }

  lemma IsAsking(tx: Tx)
    requires Asking(tx)
    ensures IsClient(tx.kind)
  {
  }

  // ---- Runs ---------------------------------------------------------------------------------------------

  /** A recorded ACK has its To tag, on every run whose successes are well-formed. */
  lemma {:induction false} RunTagKept(sys: Sys, es: seq<Event>, id: nat)
    requires Consistent(sys) && Run(sys, es) && AcksOk(sys) && ProperOn(sys, es, id)
    requires id in After(sys, es).txs && !Over(After(sys, es), id) && After(sys, es).txs[id].kind.ClientInvite?
    requires id in sys.txs ==> TagKept(sys.txs[id])
    ensures TagKept(After(sys, es).txs[id])
    decreases |es|
  {
    hide Consistent, Possible, Step, TagKept, Over, Proper, Owed, Heard, AcksOk, AcksOf, Acks, Added, AckRuns.Told;
    if es != [] {
      HeadAcknowledged(sys, es, id);
      StepConsistent(sys, es[0]);
      StepAcksOk(sys, es[0]);
      RunTagKept(Step(sys, es[0]), es[1..], id);
    }
  }

  lemma AsksOnRuns(opt: EndpointOption, es: seq<Event>, id: nat)
    requires Run(Start(opt), es) && ProperOn(Start(opt), es, id)
    requires id in Reached(opt, es).txs && IsClient(Reached(opt, es).txs[id].kind)
    ensures Asking(Reached(opt, es).txs[id])
  {
    StartConsistent(opt);
    RunAcksOk(Start(opt), es);
    var sys := Reached(opt, es);
    HealthyAt(sys, id, sys.now);
    assert AckOk(sys.txs[id]);
    if sys.txs[id].kind.ClientInvite? && !Over(sys, id) { RunTagKept(Start(opt), es, id); }
    AsksNow(sys.txs[id], sys.ep.opt, sys.now);
    hide Run, ProperOn, Inv, Alive;
  }

  lemma AsksNow(tx: Tx, opt: EndpointOption, now: nat)
    requires Inv(tx, opt, now) && Alive(tx) && AckOk(tx) && IsClient(tx.kind)
    requires tx.kind.ClientInvite? && !tx.cleanedUp ==> TagKept(tx)
    ensures Asking(tx)
  {
    assert Sane(tx);
    hide Paced;
  }

  /** On every run, whatever the order of events: a client transaction takes every event as the table
      says, in its next state, on the wire, towards its user, in its local final response, in its Timer A;
      the successes it acknowledges have a To tag and a Contact. */
  lemma ClientFollowsTable(opt: EndpointOption, es: seq<Event>, e: Event, id: nat)
    requires Run(Start(opt), es) && Possible(Reached(opt, es), e) && IsCall(e) && e.id == id
    requires id in Reached(opt, es).txs && IsClient(Reached(opt, es).txs[id].kind)
    requires ProperOn(Start(opt), es, id) && Proper(Reached(opt, es).txs[id], e)
    ensures var sys, sys' := Reached(opt, es), Step(Reached(opt, es), e);
            id in sys'.txs && Done(At(sys, id), e, At(sys', id), Row(sys.txs[id], e, opt))
  {
    hide Done, Row, Asking, Proper, Consistent, Possible, Called;
    StartConsistent(opt);
    OptionsStay(Start(opt), es);
    AsksOnRuns(opt, es, id);
    CallPossible(Reached(opt, es), e);
    IsAsking(Reached(opt, es).txs[id]);
    CallDone(At(Reached(opt, es), id), e);
    hide Run, ProperOn;
  }

  lemma KeepsTag(sys: Sys, e: Event, id: nat)
    requires Consistent(sys) && Possible(sys, e) && AcksOk(sys) && id in Step(sys, e).txs
    requires (id in sys.txs ==> TagKept(sys.txs[id])) && (CallsOn(sys, e, id) ==> Proper(sys.txs[id], e))
    ensures TagKept(Step(sys, e).txs[id])
  {
    hide Consistent, Possible, Step, TagKept, Proper, Inv, Alive, RequestKey, KindOk;
    var next := Step(sys, e);
    StepConsistent(sys, e);
    StepAcksOk(sys, e);
    if next.txs[id].kind.ClientInvite? && !Over(next, id) {
      StepAcknowledged(sys, e, id);
    } else {
      HealthyAt(next, id, next.now);
      assert AckOk(next.txs[id]);
      NoAck(next.txs[id]);
    }
  }

  lemma NoAck(tx: Tx)
    requires AckOk(tx) && (!tx.kind.ClientInvite? || tx.state.Terminated?)
    ensures TagKept(tx)
  {
  }

  /** What the table asks `id` to write on a run. */
  ghost function DueOn(sys: Sys, es: seq<Event>, id: nat): seq<Output>
    requires Run(sys, es)
    decreases |es|
  {
    if es == [] then []
    else
      var rest := DueOn(Step(sys, es[0]), es[1..], id);
      if CallsOn(sys, es[0], id) && !Row(sys.txs[id], es[0], sys.ep.opt).out.Silent?
      then [Row(sys.txs[id], es[0], sys.ep.opt).out] + rest else rest
  }

  /** The retransmissions the table asks for that put the request on the wire, or those that do not. */
  ghost function ResentOn(sys: Sys, es: seq<Event>, id: nat, copied: bool): nat
    requires Run(sys, es)
    decreases |es|
  {
    if es == [] then 0
    else (if CallsOn(sys, es[0], id) && Row(sys.txs[id], es[0], sys.ep.opt).out.TheRequest? == copied then Row(sys.txs[id], es[0], sys.ep.opt).resent else 0)
         + ResentOn(Step(sys, es[0]), es[1..], id, copied)
  }

  ghost predicate AllOutputs(tx: Tx, outs: seq<Output>, w: seq<SipMessage>) {
    |outs| == |w| && forall i :: 0 <= i < |w| ==> Outputs(tx, outs[i], [w[i]])
  }

  lemma OneMessage(tx: Tx, t: Tx, out: Output, w: seq<SipMessage>)
    requires Outputs(t, out, w) && t.original == tx.original && !out.Silent?
    ensures |w| == 1 && w == [w[0]] && Outputs(tx, out, [w[0]])
  {
  }

  lemma OneOutput(tx: Tx, t: Tx, out: Output, w: seq<SipMessage>, outs: seq<Output>, v: seq<SipMessage>)
    requires Outputs(t, out, w) && t.original == tx.original && AllOutputs(tx, outs, v)
    ensures AllOutputs(tx, if out.Silent? then outs else [out] + outs, w + v)
  {
    if out.Silent? {
      assert w + v == v;
    } else {
      OneMessage(tx, t, out, w);
      hide Outputs;
    }
  }

  function Resent(sys: Sys, id: nat): nat { if id in sys.txs then sys.txs[id].log.resentRequests else 0 }

  predicate Resends(sys: Sys, id: nat) { id in sys.txs && sys.txs[id].retransmission }

  lemma OtherResent(sys: Sys, e: Event, id: nat)
    requires Consistent(sys) && Possible(sys, e) && !CallsOn(sys, e, id) && id in Step(sys, e).txs
    ensures Resent(Step(sys, e), id) == Resent(sys, id) && (id in sys.txs ==> Resends(Step(sys, e), id) == Resends(sys, id))
  {
    hide Consistent, Called, Route, DoCleanup, RunCleanup, System.Earliest, RequestKey;
    NextIsFree(sys);
  }

  /** The first event of a run, as the table says. */
  lemma HeadFollowsTable(sys: Sys, es: seq<Event>, id: nat)
    requires Consistent(sys) && Run(sys, es) && es != [] && AcksOk(sys) && id in After(sys, es).txs
    requires id in sys.txs ==> TagKept(sys.txs[id]) && IsClient(sys.txs[id].kind)
    requires CallsOn(sys, es[0], id) ==> Proper(sys.txs[id], es[0])
    ensures CallsOn(sys, es[0], id) ==>
              && Outputs(sys.txs[id], Row(sys.txs[id], es[0], sys.ep.opt).out, Added(sys.ep.wire, Step(sys, es[0]).ep.wire))
              && Resent(Step(sys, es[0]), id) == Resent(sys, id) + Row(sys.txs[id], es[0], sys.ep.opt).resent
              && Resends(Step(sys, es[0]), id) == Row(sys.txs[id], es[0], sys.ep.opt).resends
    ensures !CallsOn(sys, es[0], id) ==>
              Resent(Step(sys, es[0]), id) == Resent(sys, id) && (id in sys.txs ==> Resends(Step(sys, es[0]), id) == Resends(sys, id))
  {
    hide Consistent, Possible, Called, Row, Proper, Inv, Alive, Asking, Outputs;
    var e := es[0];
    if CallsOn(sys, e, id) {
      CallPossible(sys, e);
      HealthyAt(sys, id, sys.now);
      assert AckOk(sys.txs[id]);
      AsksNow(sys.txs[id], sys.ep.opt, sys.now);
      CallDone(At(sys, id), e);
    } else {
      S.ThereSince(sys, es, id);
      if id in Step(sys, e).txs { OtherResent(sys, e, id); }
    }
  }

  lemma {:induction false} RunFollowsTable(sys: Sys, es: seq<Event>, id: nat)
    requires Consistent(sys) && Run(sys, es) && AcksOk(sys) && ProperOn(sys, es, id)
    requires id in After(sys, es).txs && IsClient(After(sys, es).txs[id].kind) && (id in sys.txs ==> TagKept(sys.txs[id]))
    ensures id in sys.txs ==> IsClient(sys.txs[id].kind) && sys.txs[id].original == After(sys, es).txs[id].original
    ensures AllOutputs(After(sys, es).txs[id], DueOn(sys, es, id), S.WroteOn(sys, es, id))
    ensures Resent(After(sys, es), id) == Resent(sys, id) + ResentOn(sys, es, id, true) + ResentOn(sys, es, id, false)
    decreases |es|
  {
    hide Consistent, Possible, Step, Row, Added, Proper, TagKept, Outputs, AcksOk, AllOutputs;
    if es == [] {
      NoOutput(After(sys, es).txs[id]);
    } else {
      var next := Step(sys, es[0]);
      StepConsistent(sys, es[0]);
      StepAcksOk(sys, es[0]);
      S.ThereSince(sys, es, id);
      if id in next.txs { KeepsTag(sys, es[0], id); }
      RunFollowsTable(next, es[1..], id);
      if id in sys.txs { SameOriginal(sys, es[0], id); }
      HeadFollowsTable(sys, es, id);
      if CallsOn(sys, es[0], id) {
        OneOutput(After(sys, es).txs[id], sys.txs[id], Row(sys.txs[id], es[0], sys.ep.opt).out,
                  Added(sys.ep.wire, next.ep.wire), DueOn(next, es[1..], id), S.WroteOn(next, es[1..], id));
      } else {
        assert [] + S.WroteOn(next, es[1..], id) == S.WroteOn(next, es[1..], id);
      }
    }
  }

  lemma NoOutput(tx: Tx)
    ensures AllOutputs(tx, [], [])
  {
  }

  lemma SameOriginal(sys: Sys, e: Event, id: nat)
    requires Consistent(sys) && Possible(sys, e) && id in sys.txs && id in Step(sys, e).txs
    ensures sys.txs[id].original == Step(sys, e).txs[id].original && sys.txs[id].kind == Step(sys, e).txs[id].kind
  {
    hide Consistent, Possible, Step;
    StepAdvances(sys, e);
  }

  /** On every run: what a client transaction wrote is what the table asks for, message by message, its
      request as often as it was sent and sent again, and its ACKs; and each retransmission it counts put
      one copy of the request on the wire, or there was no connection, or the write failed. */
  lemma ClientWritesWhatIsDue(opt: EndpointOption, es: seq<Event>, id: nat)
    requires Run(Start(opt), es) && ProperOn(Start(opt), es, id)
    requires id in Reached(opt, es).txs && IsClient(Reached(opt, es).txs[id].kind)
    ensures AllOutputs(Reached(opt, es).txs[id], DueOn(Start(opt), es, id), S.WroteOn(Start(opt), es, id))
    ensures Reached(opt, es).txs[id].log.resentRequests
            == ResentOn(Start(opt), es, id, true) + ResentOn(Start(opt), es, id, false)
  {
    StartConsistent(opt);
    RunFollowsTable(Start(opt), es, id);
    hide Run, S.WroteOn, DueOn, ResentOn, ProperOn;
  }

  lemma RowStopped(tx: Tx, e: Event, opt: EndpointOption)
    requires !tx.retransmission
    ensures !Row(tx, e, opt).resends && Row(tx, e, opt).resent == 0
  {
  }

  /** Retransmission once stopped is stopped for good: on every run from there the request is not sent
      again by a timer, however many were in flight. */
  lemma {:induction false} StoppedForGood(sys: Sys, es: seq<Event>, id: nat)
    requires Consistent(sys) && Run(sys, es) && AcksOk(sys) && ProperOn(sys, es, id)
    requires id in sys.txs && id in After(sys, es).txs && IsClient(sys.txs[id].kind) && TagKept(sys.txs[id]) && !Resends(sys, id)
    ensures !Resends(After(sys, es), id) && Resent(After(sys, es), id) == Resent(sys, id)
    decreases |es|
  {
    hide Consistent, Possible, Step, Row, Proper, TagKept, AcksOk, Added, Outputs;
    if es != [] {
      StepConsistent(sys, es[0]);
      StepAcksOk(sys, es[0]);
      S.ThereSince(sys, es, id);
      KeepsTag(sys, es[0], id);
      HeadFollowsTable(sys, es, id);
      RowStopped(sys.txs[id], es[0], sys.ep.opt);
      StoppedForGood(Step(sys, es[0]), es[1..], id);
    }
  }

  // ---- A client given up by its user ----------------------------------------------------------------------

  /** What is left for late final responses of a dropped client INVITE: the recorded ACK, or one made
      ready from the last provisional response. */
  function LeftAck(tx: Tx): Option<Request> {
    if !tx.kind.ClientInvite? then None
    else if tx.state.Accepted? then tx.lastAck
    else if (tx.state.Trying? || tx.state.Proceeding?) && tx.lastResponse.Some? then
      Some(Request(Ack, tx.original.uri, tx.lastResponse.value.ids, tx.lastResponse.value.toTag, tx.original.routes, []))
    else None
  }

  lemma LeftBehindOf(s: TE, env: Env)
    requires IsClient(s.tx.kind) && !s.tx.cleanedUp && !s.tx.state.Completed? && AckOk(s.tx)
    requires (s.tx.state.Trying? || s.tx.state.Proceeding?) && s.tx.lastResponse.Some? ==> Provisional(s.tx.lastResponse.value)
    ensures LastMessage(s.tx, s.ep.opt, env.branch) == match LeftAck(s.tx) case Some(ack) => Some(Req(ack)) case None => None
  {
  }

  /** On every run: a client dropped before its end leaves just that behind, for 64*T1, and no longer
      gets messages. */
  lemma DroppedClientLeavesAck(opt: EndpointOption, es: seq<Event>, id: nat, env: Env)
    requires Run(Start(opt), es) && Possible(Reached(opt, es), Drop(id, env))
    requires IsClient(Reached(opt, es).txs[id].kind) && !Reached(opt, es).txs[id].cleanedUp
    ensures var sys, ep' := Reached(opt, es), Step(Reached(opt, es), Drop(id, env)).ep;
            var tx := sys.txs[id];
            && ep'.table == sys.ep.table - {tx.key} && ep'.wire == sys.ep.wire
            && ep'.finished == (if LeftAck(tx).Some? then sys.ep.finished[tx.key := Req(LeftAck(tx).value)] else sys.ep.finished)
            && ep'.cleanups == (if LeftAck(tx).Some? then sys.ep.cleanups[tx.key := env.now + opt.t1x64] else sys.ep.cleanups)
  {
    hide Run, Step, System.Earliest, Inv, Alive, Live, Consistent, LeftAck, AckOk;
    var sys := Reached(opt, es);
    StartConsistent(opt);
    OptionsStay(Start(opt), es);
    CanBeDropped(opt, es, id, env);
    DroppedNow(sys, id, env);
  }

  lemma CanBeDropped(opt: EndpointOption, es: seq<Event>, id: nat, env: Env)
    requires Run(Start(opt), es) && Possible(Reached(opt, es), Drop(id, env)) && id in Reached(opt, es).txs
    requires IsClient(Reached(opt, es).txs[id].kind) && !Reached(opt, es).txs[id].cleanedUp
    ensures Droppable(Reached(opt, es).txs[id])
  {
    hide Run, Step, Possible, Inv, Alive, Consistent, Live, AckOk, Remembers, Further, HandledOn;
    var sys := Reached(opt, es);
    StartConsistent(opt);
    RunAcksOk(Start(opt), es);
    RunHeeds(Start(opt), es, id, []);
    HealthyAt(sys, id, sys.now);
    LiveStates(sys.txs[id], sys.ep.opt, sys.now);
    IsLive(sys.txs[id]);
    assert AckOk(sys.txs[id]);
    RemembersProvisional(sys.txs[id], Further(sys.txs[id].kind, [], HandledOn(Start(opt), es, id)));
  }

  ghost predicate Droppable(tx: Tx) {
    && IsClient(tx.kind) && !tx.cleanedUp && !tx.state.Completed? && AckOk(tx)
    && ((tx.state.Trying? || tx.state.Proceeding?) && tx.lastResponse.Some? ==> Provisional(tx.lastResponse.value))
  }

  lemma DroppedNow(sys: Sys, id: nat, env: Env)
    requires Possible(sys, Drop(id, env)) && Droppable(sys.txs[id])
    ensures var ep', tx := Step(sys, Drop(id, env)).ep, sys.txs[id];
            && ep'.table == sys.ep.table - {tx.key} && ep'.wire == sys.ep.wire
            && ep'.finished == (if LeftAck(tx).Some? then sys.ep.finished[tx.key := Req(LeftAck(tx).value)] else sys.ep.finished)
            && ep'.cleanups == (if LeftAck(tx).Some? then sys.ep.cleanups[tx.key := env.now + sys.ep.opt.t1x64] else sys.ep.cleanups)
  {
    hide DoCleanup, LeftAck, AckOk, LastMessage;
    LeftBehindOf(At(sys, id), env);
    DroppedTables(At(sys, id), env);
  }

  lemma RemembersProvisional(tx: Tx, told: seq<Response>)
    requires Remembers(tx, told)
    ensures (tx.state.Trying? || tx.state.Proceeding?) && tx.lastResponse.Some? ==> Provisional(tx.lastResponse.value)
  {
  }

  lemma DroppedTables(s: TE, env: Env)
    requires !s.tx.cleanedUp
    ensures var ep', last := DoCleanup(s, env).ep, LastMessage(s.tx, s.ep.opt, env.branch);
            && ep'.table == s.ep.table - {s.tx.key} && ep'.wire == s.ep.wire
            && ep'.finished == (if last.Some? then s.ep.finished[s.tx.key := last.value] else s.ep.finished)
            && ep'.cleanups == (if last.Some? then s.ep.cleanups[s.tx.key := env.now + s.ep.opt.t1x64] else s.ep.cleanups)
  {
    DoCleanupFacts(s, env);
    hide DoCleanup, LastMessage;
  }
}
