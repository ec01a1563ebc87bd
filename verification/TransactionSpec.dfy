/**
 The transaction state machine as functions on values
 (src/transaction/transaction.rs).  `TE` pairs one transaction with the
 endpoint it runs against.  Timers appear as the slots that are pending; the
 ids that name them in the wheel are the business of the classes.
 */
module TransactionSpec {
  import opened Prelude
  import opened SipMessages
  import opened TransactionKey
  import opened EndpointSpec

  datatype TxType = ClientInvite | ClientNonInvite | ServerInvite | ServerNonInvite

  datatype State = Nothing | Calling | Trying | Proceeding | Accepted | Completed | Confirmed | Terminated

  /** Before any final response. */
  predicate InSetup(state: State) {
    state.Nothing? || state.Calling? || state.Trying? || state.Proceeding?
  }

  predicate IsClient(t: TxType) { t.ClientInvite? || t.ClientNonInvite? }

  function RoleOf(t: TxType): Role { if IsClient(t) then Client else Server }

  /** History kept for the properties; no decision reads it.  `clash`: a timer was
      armed while another instance of its kind was pending or in flight. */
  datatype Log = Log(resentRequests: nat, resentResponses: nat, callingSince: nat, provisionalSince: nat,
                     finalSince: nat, confirmedSince: nat, delivered: seq<SipMessage>, clash: bool)

  /** `held` are the `timer_x` fields that are `Some`; `pending` the timers still in the wheel. */
  datatype Tx = Tx(
    kind: TxType, key: Key, original: Request, state: State, conn: Option<Conn>,
    lastResponse: Option<Response>, lastAck: Option<Request>, ackBody: Option<Bytes>,
    held: set<Slot>, pending: map<Slot, Shot>, retransmission: bool, cleanedUp: bool,
    queue: seq<TxEvent>, log: Log)

  datatype TE = TE(tx: Tx, ep: Ep)

  /** What the surroundings answer during one step: the clock, the transport lookup
      (`None`: it failed), whether a write succeeds, the random branch of a 2xx ACK. */
  datatype Env = Env(now: nat, resolved: bool, found: Option<Conn>, sendOk: bool, branch: string)

  function NewTx(kind: TxType, key: Key, original: Request, conn: Option<Conn>): Tx {
    Tx(kind, key, original, if IsClient(kind) then Nothing else Trying, conn, None, None, None,
       {}, map[], true, false, [], Log(0, 0, 0, 0, 0, 0, [], false))
  }

  // ---- Timers --------------------------------------------------------------

  /** The timer events in a queue, oldest first. */
  function FiredSlots(q: seq<TxEvent>): seq<Slot> {
    if q == [] then []
    else (if q[0].Fired? && q[0].timer.TxTimer? then [q[0].timer.slot] else []) + FiredSlots(q[1..])
  }

  /** The kinds of timer in flight: fired, still queued. */
  function Flying(q: seq<TxEvent>): set<Slot> {
    set x | x in FiredSlots(q)
  }

  function TimersOf(tx: Tx): set<Slot> {
    tx.pending.Keys + Flying(tx.queue)
  }

  function Arm(s: TE, slot: Slot, now: nat, delay: nat): TE {
    s.(tx := s.tx.(held := s.tx.held + {slot},
                   pending := s.tx.pending[slot := Shot(now + delay, delay)],
                   log := s.tx.log.(clash := s.tx.log.clash || slot in TimersOf(s.tx))))
  }

  function Disarm(s: TE, slots: set<Slot>): TE {
    s.(tx := s.tx.(held := s.tx.held - slots, pending := s.tx.pending - slots))
  }

  const ALL_SLOTS := {A, B, C, D, K, G, L, M}

  // ---- Transitions ---------------------------------------------------------

  predicate CanTransition(from: State, to: State) {
    match from
    case Nothing => to.Calling? || to.Trying? || to.Proceeding? || to.Terminated?
    case Calling => to.Calling? || to.Trying? || to.Proceeding? || to.Accepted? || to.Completed? || to.Terminated?
    case Trying => to.Trying? || to.Proceeding? || to.Accepted? || to.Completed? || to.Confirmed? || to.Terminated?
    case Proceeding => to.Proceeding? || to.Accepted? || to.Completed? || to.Confirmed? || to.Terminated?
    case Accepted => to.Accepted? || to.Terminated?
    case Completed => to.Confirmed? || to.Terminated?
    case Confirmed => to.Terminated?
    case Terminated => false
  }

  /** The result of a step that can fail: `ok` is false where the source returns `Err`. */
  datatype Moved = Moved(s: TE, ok: bool)

  /** What `cleanup` leaves behind for late messages. */
  function LastMessage(tx: Tx, opt: EndpointOption, branch: string): Option<SipMessage> {
    match tx.kind
    case ClientInvite =>
      if tx.lastAck.Some? then Some(Req(tx.lastAck.value))
      else if (tx.state.Proceeding? || tx.state.Trying?) && tx.lastResponse.Some?
              && (opt.autoAck2xx || !Successful(tx.lastResponse.value)) then
        var ack := MakeAck(tx.original, tx.lastResponse.value, branch);
        if ack.Some? then Some(Req(ack.value)) else None
      else None
    case ClientNonInvite => None
    case _ => if tx.lastResponse.Some? then Some(Resp(tx.lastResponse.value)) else None
  }

  function ForgetRoutes(s: TE): TE {
    var dialog := if s.tx.lastResponse.Some? then ResponseDialog(s.tx.lastResponse.value, RoleOf(s.tx.kind)) else None;
    if dialog.Some?
    then s.(ep := ForgetWaitingAck(s.ep, dialog.value, s.tx.original.ids.cseq, s.tx.key))
    else s
  }

  function DoCleanup(s: TE, env: Env): TE {
    if s.tx.cleanedUp then s
    else
      var s1 := Disarm(s.(tx := s.tx.(cleanedUp := true)), ALL_SLOTS);
      var s2 := if s.tx.kind.ServerInvite? && s.tx.state.Completed? then s1 else ForgetRoutes(s1);
      var last := LastMessage(s2.tx, s.ep.opt, env.branch);
      var tx := s2.tx.(lastAck := if s.tx.kind.ClientInvite? then None else s.tx.lastAck,
                       lastResponse := if s.tx.kind.ServerNonInvite? then None else s.tx.lastResponse);
      TE(tx, Detach(s2.ep, s.tx.key, last, env.now))
  }

  function EnterCalling(s: TE, now: nat): TE {
    if !IsClient(s.tx.kind) then s
    else
      var s1 := s.(tx := s.tx.(log := s.tx.log.(callingSince := now)));
      var s2 := if s.tx.conn.Some? && Reliable(s.tx.conn.value) then s1 else Arm(s1, A, now, s.ep.opt.t1);
      Arm(s2, B, now, s.ep.opt.t1x64)
  }

  /** The time of the first provisional response is noted. */
  function NoteProvisional(s: TE, now: nat): TE {
    if s.tx.state.Nothing? || s.tx.state.Calling? then s.(tx := s.tx.(log := s.tx.log.(provisionalSince := now))) else s
  }

  function EnterProvisional(s: TE, now: nat): TE {
    var s1 := NoteProvisional(s, now);
    if !s.tx.kind.ClientInvite? then Disarm(s1, {A})
    else if C in s.tx.held then Disarm(s1, {A, B})
    else Arm(Disarm(s1, {A, B}), C, now, s.ep.opt.timerC)
  }

  function RouteAcks(s: TE, dialog: DialogId, byCseq: bool): TE {
    s.(ep := s.ep.(waitingAck := s.ep.waitingAck[dialog := s.tx.key],
                   waitingAckCseq := if byCseq then s.ep.waitingAckCseq[(dialog, s.tx.original.ids.cseq) := s.tx.key]
                                     else s.ep.waitingAckCseq))
  }

  function EnterAccepted(s: TE, now: nat): Moved {
    var s1 := Disarm(s.(tx := s.tx.(log := s.tx.log.(finalSince := now))), {A, B, C});
    match s.tx.kind
    case ServerInvite =>
      var s2 := Arm(Arm(s1, L, now, s.ep.opt.t1x64), G, now, s.ep.opt.t1);
      if s.tx.lastResponse.None? then Moved(s2, true)
      else
        var dialog := ResponseDialog(s.tx.lastResponse.value, Server);
        if dialog.None? then Moved(s2, false) else Moved(RouteAcks(s2, dialog.value, true), true)
    case ClientInvite => Moved(Arm(s1, M, now, s.ep.opt.t1x64), true)
    case _ => Moved(s1, false)
  }

  function EnterCompleted(s: TE, now: nat): Moved {
    var s1 := Disarm(s.(tx := s.tx.(log := s.tx.log.(finalSince := now))), {A, B, C});
    if !s.tx.kind.ServerInvite? then Moved(Arm(s1, D, now, s.ep.opt.t1x64), true)
    else if s.tx.conn.None? then Moved(s1, false)
    else
      var s2 := if Reliable(s.tx.conn.value) then s1 else Arm(s1, G, now, s.ep.opt.t1);
      if s.tx.lastResponse.None? then Moved(Arm(s2, D, now, s.ep.opt.t1x64), true)
      else
        var dialog := ResponseDialog(s.tx.lastResponse.value, Server);
        if dialog.None? then Moved(s2, false)
        else Moved(RouteAcks(Arm(s2, D, now, s.ep.opt.t1x64), dialog.value, false), true)
  }

  function EnterConfirmed(s: TE, now: nat): TE {
    var s1 := Disarm(s.(tx := s.tx.(log := s.tx.log.(confirmedSince := now))), ALL_SLOTS);
    var s2 := if s.tx.kind.ServerInvite? then ForgetRoutes(s1) else s1;
    Arm(s2, K, now, s.ep.opt.t4)
  }

  function EnterTerminated(s: TE, env: Env): TE {
    var s1 := DoCleanup(s, env);
    s1.(tx := s1.tx.(queue := s1.tx.queue + [Terminate(s.tx.key)]))
  }

  function Enter(s: TE, target: State, env: Env): Moved {
    match target
    case Nothing => Moved(s, true)
    case Calling => Moved(EnterCalling(s, env.now), true)
    case Trying => Moved(EnterProvisional(s, env.now), true)
    case Proceeding => Moved(EnterProvisional(s, env.now), true)
    case Accepted => EnterAccepted(s, env.now)
    case Completed => EnterCompleted(s, env.now)
    case Confirmed => Moved(EnterConfirmed(s, env.now), true)
    case Terminated => Moved(EnterTerminated(s, env), true)
  }

  function Transition(s: TE, target: State, env: Env): Moved {
    if s.tx.state == target then Moved(s, true)
    else
      var m := Enter(s, target, env);
      if m.ok then Moved(m.s.(tx := m.s.tx.(state := target)), true) else m
  }

  // ---- Client: send --------------------------------------------------------

  function Synthetic(tx: Tx, code: nat): TxEvent {
    Received(Resp(MakeResponse(tx.original, code).(synthetic := true)), None)
  }

  function Enqueue(s: TE, e: TxEvent): TE {
    s.(tx := s.tx.(queue := s.tx.queue + [e]))
  }

  function WriteMsg(s: TE, msg: SipMessage, sendOk: bool): TE {
    s.(ep := Write(s.ep, msg, sendOk))
  }

  function Send(s: TE, env: Env): Moved {
    if !IsClient(s.tx.kind) || (s.tx.conn.None? && !env.resolved) then Moved(s, false)
    else
      var conn := if s.tx.conn.None? then env.found else s.tx.conn;
      var s1 := s.(tx := s.tx.(conn := conn));
      var s2 := WriteMsg(s1, Req(s.tx.original), conn.Some? && env.sendOk);
      var m := Transition(s2, Calling, env);
      if m.ok && conn == Some(Stream) && !env.sendOk
      then Moved(Enqueue(m.s, Synthetic(s.tx, 503)), true)
      else m
  }

  function StopRetransmissions(s: TE): TE {
    Disarm(s.(tx := s.tx.(retransmission := false)), {A})
  }

  // ---- Server: respond -----------------------------------------------------

  function RespondState(kind: TxType, r: Response): State {
    if Provisional(r) then (if r.code == 100 then Trying else Proceeding)
    else if kind.ServerInvite? then (if Successful(r) then Accepted else Completed)
    else Terminated
  }

  function DoRespond(s: TE, r: Response, env: Env): Moved {
    var target := RespondState(s.tx.kind, r);
    if IsClient(s.tx.kind) || !CanTransition(s.tx.state, target) || s.tx.conn.None? then Moved(s, false)
    else
      var s1 := s.(tx := s.tx.(lastResponse := Some(r)));
      if !env.sendOk then Moved(s1, false)
      else Transition(WriteMsg(s1, Resp(r), true), target, env)
  }

  // ---- Client: ACK ---------------------------------------------------------

  predicate CachedAckMatches(ack: Request, r: Option<Response>) {
    r.Some? && ack.toTag.Some? && r.value.toTag.Some? ==> ack.toTag == r.value.toTag
  }

  function ChooseAck(tx: Tx, branch: string): Option<Request> {
    if tx.lastAck.Some? && CachedAckMatches(tx.lastAck.value, tx.lastResponse) then tx.lastAck
    else if tx.lastResponse.None? then None
    else MakeAck(tx.original, tx.lastResponse.value, branch)
  }

  /** The ACK takes the armed body (a 2xx ACK only), is recorded and written. */
  function PutAck(s: TE, chosen: Request, conn: Option<Conn>, env: Env): TE {
    var is2xx := s.tx.lastResponse.Some? && Successful(s.tx.lastResponse.value);
    var armed := is2xx && chosen.body == [] && s.tx.ackBody.Some?;
    var ack := if armed then chosen.(body := s.tx.ackBody.value) else chosen;
    var reuse := conn.Some? && Reliable(conn.value);
    var via := if is2xx && !reuse && env.found.Some? then env.found else conn;
    WriteMsg(s.(tx := s.tx.(ackBody := if armed then None else s.tx.ackBody, lastAck := Some(ack))),
             Req(ack), via.Some? && env.sendOk)
  }

  function SendAck(s: TE, conn: Option<Conn>, env: Env): Moved {
    if !s.tx.kind.ClientInvite? || !(s.tx.state.Completed? || s.tx.state.Accepted?) then Moved(s, false)
    else
      var chosen := ChooseAck(s.tx, env.branch);
      if chosen.None? then Moved(s, false)
      else
        var s1 := PutAck(s, chosen.value, conn, env);
        if s.tx.state.Completed? then Transition(s1, Terminated, env) else Moved(s1, true)
  }

  // ---- Events --------------------------------------------------------------

  /** A handler's outcome: `up` is what `receive` returns to the transaction user. */
  datatype Handled = Handled(s: TE, up: Option<SipMessage>)

  function OnCancel(s: TE, req: Request, env: Env): Handled {
    if s.tx.state.Proceeding? || s.tx.state.Trying? then
      Handled(WriteMsg(s, Resp(MakeResponse(req, 200)), s.tx.conn.Some? && env.sendOk), Some(Req(req)))
    else if s.tx.state.Completed? then
      Handled(WriteMsg(s, Resp(MakeResponse(req, 200)), s.tx.conn.Some? && env.sendOk), None)
    else
      Handled(WriteMsg(s, Resp(MakeResponse(req, 481)), s.tx.conn.Some? && env.sendOk), None)
  }

  function OnRequest(s0: TE, req: Request, conn: Option<Conn>, env: Env): Handled {
    if IsClient(s0.tx.kind) then Handled(s0, None)
    else
      var s := if s0.tx.conn.None? then s0.(tx := s0.tx.(conn := conn)) else s0;
      if req.verb == Cancel then OnCancel(s, req, env)
      else
        match s.tx.state
        case Trying => Handled(Repeat(s, env), None)
        case Proceeding => Handled(Repeat(s, env), None)
        case Accepted =>
          if req.verb == Ack && req.ids.cseq == s.tx.original.ids.cseq
          then Handled(Transition(s, Terminated, env).s, Some(Req(req)))
          else Handled(s, None)
        case Completed => OnAck(s, req, env)
        case Confirmed => OnAck(s, req, env)
        case _ => Handled(s, None)
  }

  /** Retransmission of the last response to a retransmitted request. */
  function Repeat(s: TE, env: Env): TE {
    if s.tx.lastResponse.Some? then DoRespond(s, s.tx.lastResponse.value, env).s else s
  }

  function OnAck(s: TE, req: Request, env: Env): Handled {
    if req.verb == Ack && req.ids.cseq == s.tx.original.ids.cseq
    then Handled(Transition(s, Confirmed, env).s, Some(Req(req)))
    else Handled(s, None)
  }

  function ResponseState(kind: TxType, r: Response, opt: EndpointOption): State {
    if Provisional(r) then (if r.code == 100 then Trying else Proceeding)
    else if !kind.ClientInvite? then Terminated
    else if !Successful(r) then Completed
    else if opt.autoAck2xx then Accepted
    else Terminated
  }

  predicate Duplicate(tx: Tx, r: Response, target: State) {
    && !(tx.kind.ClientInvite? && target.Accepted?)
    && tx.state == target
    && tx.lastResponse.Some? && tx.lastResponse.value.code == r.code && tx.lastResponse.value.body == r.body
  }

  function OnForwarded2xx(s: TE, r: Response, env: Env): Handled {
    if !s.tx.state.Accepted? && !CanTransition(s.tx.state, Accepted) then Handled(s, None)
    else
      var m := if s.tx.state.Accepted? then Moved(s, true) else Transition(s, Accepted, env);
      if !m.ok then Handled(m.s, None)
      else Handled(m.s.(tx := m.s.tx.(lastResponse := Some(r))), Some(Resp(r)))
  }

  function OnResponse(s: TE, r: Response, conn: Option<Conn>, env: Env): Handled {
    if !IsClient(s.tx.kind) then Handled(s, None)
    else if s.tx.kind.ClientInvite? && Successful(r) && MultipleVias(r) then OnForwarded2xx(s, r, env)
    else
      var target := ResponseState(s.tx.kind, r, s.ep.opt);
      if !CanTransition(s.tx.state, target) || Duplicate(s.tx, r, target) then Handled(s, None)
      else
        var s1 := Transition(s.(tx := s.tx.(lastResponse := Some(r))), target, env).s;
        var autoAck := s.tx.kind.ClientInvite? && (target.Completed? || target.Accepted?);
        Handled(if autoAck then SendAck(s1, conn, env).s else s1, Some(Resp(r)))
  }

  function RetransmitLastResponse(s: TE, span: nat, env: Env): Moved {
    var logged := s.(tx := s.tx.(log := s.tx.log.(resentResponses := s.tx.log.resentResponses + 1)));
    if s.tx.lastResponse.Some? && s.tx.conn.Some? && !env.sendOk then Moved(logged, false)
    else
      var s1 := if s.tx.lastResponse.Some? && s.tx.conn.Some?
                then WriteMsg(logged, Resp(s.tx.lastResponse.value), true) else logged;
      Moved(Arm(s1, G, env.now, Min(span * 2, s.ep.opt.t2)), true)
  }

  function ResendRequest(s: TE, span: nat, env: Env): TE {
    if !s.tx.retransmission then s
    else
      var conn := if s.tx.conn.None? && env.resolved then env.found else s.tx.conn;
      var s1 := s.(tx := s.tx.(conn := conn, log := s.tx.log.(resentRequests := s.tx.log.resentRequests + 1)));
      var s2 := WriteMsg(s1, Req(s.tx.original), conn.Some? && env.sendOk);
      if conn == Some(Stream) && !env.sendOk then Enqueue(s2, Synthetic(s.tx, 503))
      else Arm(s2, A, env.now, Min(span * 2, s.ep.opt.t1x64))
  }

  function OnTimer(s: TE, t: TxTimer, env: Env): TE {
    if t.Cleanup? then s
    else
      match s.tx.state
      case Calling => OnSetupTimer(s, t, env)
      case Trying => OnSetupTimer(s, t, env)
      case Proceeding =>
        if t.slot.C? || (t.slot.B? && s.tx.kind.ClientNonInvite?) then Enqueue(s, Synthetic(s.tx, 408)) else s
      case Completed =>
        if t.slot.G? then RetransmitLastResponse(s, t.span, env).s
        else if t.slot.D? || t.slot.K? then Transition(s, Terminated, env).s
        else s
      case Accepted =>
        if (t.slot.L? && s.tx.kind.ServerInvite?) || (t.slot.M? && s.tx.kind.ClientInvite?)
        then Transition(s, Terminated, env).s
        else if t.slot.G? && s.tx.kind.ServerInvite? then RetransmitLastResponse(s, t.span, env).s
        else s
      case Confirmed => if t.slot.K? then Transition(s, Terminated, env).s else s
      case _ => s
  }

  function OnSetupTimer(s: TE, t: TxTimer, env: Env): TE
    requires t.TxTimer?
  {
    if !IsClient(s.tx.kind) then s
    else if t.slot.A? then ResendRequest(s, t.span, env)
    else if t.slot.B? then Enqueue(s, Synthetic(s.tx, 408))
    else s
  }

  /** One iteration of `receive`: the head of the queue. */
  function Handle(s: TE, e: TxEvent, env: Env): Handled {
    match e
    case Received(msg, conn) =>
      (match msg
       case Req(req) => OnRequest(s, req, conn, env)
       case Resp(resp) => OnResponse(s, resp, conn, env))
    case Fired(t) => Handled(OnTimer(s, t, env), None)
    case Respond(r) => Handled(DoRespond(s, r, env).s, None)
    case Terminate(_) => Handled(s, None)
  }

  function Pop(s: TE): TE
    requires s.tx.queue != []
  {
    s.(tx := s.tx.(queue := s.tx.queue[1..]))
  }

  function NoteDelivery(h: Handled): TE {
    if h.up.None? then h.s
    else h.s.(tx := h.s.tx.(log := h.s.tx.log.(delivered := h.s.tx.log.delivered + [h.up.value])))
  }

  function Receive(s: TE, env: Env): TE
    requires s.tx.queue != []
  {
    NoteDelivery(Handle(Pop(s), s.tx.queue[0], env))
  }
}
