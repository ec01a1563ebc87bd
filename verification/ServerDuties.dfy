/**
 What a server transaction does, event by event, as one table (RFC 3261
 sections 17.2.1 and 17.2.2, RFC 6026 section 7.1): its next state, what it writes, what it hands
 up, when Timer G is due next.  Every event of every run is one of its rows.
 */
module ServerDuties {
  import opened Prelude
  import opened SipMessages
  import opened TransactionKey
  import opened EndpointSpec
  import opened TransactionSpec
  import opened TransactionSanity
  import opened TransactionInvariant
  import opened TransactionHandlers
  import opened NeverStuck
  import opened TableSteps
  import opened StateOrder
  import opened LocalEvents
  import opened System
  import opened SystemSteps
  import opened RunTheorems
  import opened AckRuns
  import opened Deadlines

  /** The outcome of one event.  `resent` counts a retransmission, `rearmed` is Timer G if it is armed now,
      `conn` the connection answers go over, the first request's. */
  datatype Duty = Duty(state: State, wire: seq<SipMessage>, up: Option<SipMessage>, last: Option<Response>,
                       resent: nat, rearmed: Option<Shot>, conn: Option<Conn>)

  function Stay(tx: Tx): Duty { Duty(tx.state, [], None, tx.lastResponse, 0, None, tx.conn) }

  // ---- The table ---------------------------------------------------------------------------------

  /** When the user's response is taken: before a final one, a 100 only before another provisional one;
      after a 2xx to an INVITE, another 2xx. */
  predicate MayAnswer(tx: Tx, r: Response) {
    if Provisional(r) then tx.state.Trying? || (tx.state.Proceeding? && r.code != 100)
    else tx.state.Trying? || tx.state.Proceeding? || (tx.state.Accepted? && Successful(r))
  }

  function AnswerDuty(tx: Tx, r: Response, env: Env, opt: EndpointOption): Duty {
    if tx.conn.None? || !MayAnswer(tx, r) then Stay(tx)
    else if !env.sendOk then Stay(tx).(last := Some(r))
    else if Provisional(r) then Duty(if r.code == 100 then Trying else Proceeding, [Resp(r)], None, Some(r), 0, None, tx.conn)
    else if tx.kind.ServerNonInvite? then Duty(Terminated, [Resp(r)], None, None, 0, None, tx.conn)
    else
      var repeated := Some(Shot(env.now + opt.t1, opt.t1));
      if Successful(r) then Duty(Accepted, [Resp(r)], None, Some(r), 0, if tx.state.Accepted? then None else repeated, tx.conn)
      else Duty(Completed, [Resp(r)], None, Some(r), 0, if tx.conn == Some(Udp) then repeated else None, tx.conn)
  }

  /** A CANCEL is answered for itself: 200 while there is or was something to cancel, else 481. */
  function CancelAnswer(tx: Tx, q: Request): Response {
    Response(if tx.state.Trying? || tx.state.Proceeding? || tx.state.Completed? then 200 else 481,
             q.verb, q.ids, q.toTag, None, [], [], false)
  }

  function RequestDuty(tx: Tx, q: Request, env: Env, opt: EndpointOption): Duty {
    var pending := tx.state.Trying? || tx.state.Proceeding?;
    if q.verb == Cancel then
      Stay(tx).(wire := if tx.conn.Some? && env.sendOk then [Resp(CancelAnswer(tx, q))] else [],
                up := if pending then Some(Req(q)) else None)
    else if pending then
      if tx.lastResponse.Some? then AnswerDuty(tx, tx.lastResponse.value, env, opt) else Stay(tx)
    else if q.verb == Ack && q.ids.cseq == tx.original.ids.cseq && !tx.state.Terminated? then
      Stay(tx).(state := if tx.state.Accepted? then Terminated else Confirmed, up := Some(Req(q)))
    else Stay(tx)
  }

  function TimerDuty(tx: Tx, t: TxTimer, env: Env, opt: EndpointOption): Duty
    requires t.TxTimer?
  {
    if (tx.state.Accepted? || tx.state.Completed?) && t.slot.G? then
      var written := tx.lastResponse.Some? && tx.conn.Some?;
      var span := Min(2 * t.span, opt.t2);
      Stay(tx).(resent := 1,
                wire := if written && env.sendOk then [Resp(tx.lastResponse.value)] else [],
                rearmed := if written && !env.sendOk then None else Some(Shot(env.now + span, span)))
    else if (tx.state.Accepted? && t.slot.L?) || (tx.state.Completed? && (t.slot.D? || t.slot.K?)) || (tx.state.Confirmed? && t.slot.K?) then
      Stay(tx).(state := Terminated)
    else Stay(tx)
  }

  /** The row of one call. */
  function Row(tx: Tx, e: Event, opt: EndpointOption): Duty {
    if e.CallRespond? then AnswerDuty(tx, e.response, e.env, opt)
    else if e.CallReceive? && tx.queue != [] then
      match tx.queue[0]
      case Received(msg, conn) =>
        if msg.Req? then RequestDuty(if tx.conn.None? then tx.(conn := conn) else tx, msg.request, e.env, opt) else Stay(tx)
      case Fired(t) => if t.TxTimer? then TimerDuty(tx, t, e.env, opt) else Stay(tx)
      case Respond(r) => AnswerDuty(tx, r, e.env, opt)
      case Terminate(_) => Stay(tx)
    else Stay(tx)
  }

  /** `s'` is what the row `d` says of `s`. */
  ghost predicate Done(s: TE, s': TE, d: Duty) {
    && s'.tx.state == d.state && s'.tx.lastResponse == d.last && s'.tx.conn == d.conn
    && s'.ep.wire == s.ep.wire + d.wire
    && s'.tx.log.delivered == s.tx.log.delivered + (if d.up.Some? then [d.up.value] else [])
    && s'.tx.log.resentResponses == s.tx.log.resentResponses + d.resent
    && (d.rearmed.Some? ==> G in s'.tx.pending && s'.tx.pending[G] == d.rearmed.value)
    && (d.state.Terminated? && !s.tx.state.Terminated? ==>
          s'.tx.queue != [] && s'.tx.queue[|s'.tx.queue| - 1] == Terminate(s.tx.key))
  }

  // ---- The handlers against it -----------------------------------------------------------------------

  /** A server transaction on a run. */
  ghost predicate Serving(tx: Tx) {
    && !IsClient(tx.kind) && Reaches(tx.kind, tx.state) && (tx.cleanedUp <==> tx.state.Terminated?)
    && (tx.lastResponse.Some? ==> Answers(tx.original, tx.lastResponse.value))
  }

  lemma Unmoved(s: TE, s': TE)
    requires s'.tx.state == s.tx.state && s'.tx.lastResponse == s.tx.lastResponse && s'.ep.wire == s.ep.wire && s'.tx.log == s.tx.log && s'.tx.conn == s.tx.conn
    ensures Done(s, s', Stay(s.tx))
  {
  }

  lemma AcceptedArmsG(s: TE, now: nat)
    requires s.tx.kind.ServerInvite?
    ensures var p := EnterAccepted(s, now).s.tx.pending; G in p && p[G] == Shot(now + s.ep.opt.t1, s.ep.opt.t1)
  {
    hide Arm, Disarm, TimersOf, ResponseDialog;
    var s1 := Disarm(s.(tx := s.tx.(log := s.tx.log.(finalSince := now))), {A, B, C});
    Arms(s1, L, now, s.ep.opt.t1x64);
    Arms(Arm(s1, L, now, s.ep.opt.t1x64), G, now, s.ep.opt.t1);
    SameOpt(s, now);
  }

  lemma SameOpt(s: TE, now: nat)
    ensures Disarm(s.(tx := s.tx.(log := s.tx.log.(finalSince := now))), {A, B, C}).ep == s.ep
  {
  }

  lemma CompletedArmsG(s: TE, now: nat)
    requires s.tx.kind.ServerInvite? && s.tx.conn == Some(Udp)
    ensures var p := EnterCompleted(s, now).s.tx.pending; G in p && p[G] == Shot(now + s.ep.opt.t1, s.ep.opt.t1)
  {
    hide Arm, Disarm, TimersOf, ResponseDialog;
    var s1 := Disarm(s.(tx := s.tx.(log := s.tx.log.(finalSince := now))), {A, B, C});
    Arms(s1, G, now, s.ep.opt.t1);
    Arms(Arm(s1, G, now, s.ep.opt.t1), D, now, s.ep.opt.t1x64);
    SameOpt(s, now);
    SameConn(s, now);
  }

  lemma SameConn(s: TE, now: nat)
    ensures var t := Disarm(s.(tx := s.tx.(log := s.tx.log.(finalSince := now))), {A, B, C}).tx;
            t.kind == s.tx.kind && t.conn == s.tx.conn && t.lastResponse == s.tx.lastResponse
  {
  }

  lemma EntersAccepted(s: TE, env: Env)
    requires s.tx.kind.ServerInvite? && InSetup(s.tx.state) && KnowsDialog(s.tx)
    ensures var s' := Transition(s, Accepted, env).s;
            && s'.tx.state.Accepted? && s'.tx.conn == s.tx.conn && s'.tx.lastResponse == s.tx.lastResponse && s'.ep.wire == s.ep.wire
            && s'.tx.log.delivered == s.tx.log.delivered && s'.tx.log.resentResponses == s.tx.log.resentResponses
            && G in s'.tx.pending && s'.tx.pending[G] == Shot(env.now + s.ep.opt.t1, s.ep.opt.t1)
  {
    hide EnterAccepted, ResponseDialog;
    AcceptedArmsG(s, env.now);
    TransitionFacts(s, Accepted, env);
  }

  lemma EntersCompleted(s: TE, env: Env)
    requires s.tx.kind.ServerInvite? && InSetup(s.tx.state) && KnowsDialog(s.tx) && s.tx.conn.Some?
    ensures var s' := Transition(s, Completed, env).s;
            && s'.tx.state.Completed? && s'.tx.conn == s.tx.conn && s'.tx.lastResponse == s.tx.lastResponse && s'.ep.wire == s.ep.wire
            && s'.tx.log.delivered == s.tx.log.delivered && s'.tx.log.resentResponses == s.tx.log.resentResponses
            && (s.tx.conn == Some(Udp) ==> G in s'.tx.pending && s'.tx.pending[G] == Shot(env.now + s.ep.opt.t1, s.ep.opt.t1))
  {
    hide EnterCompleted, ResponseDialog;
    if s.tx.conn == Some(Udp) { CompletedArmsG(s, env.now); }
    TransitionFacts(s, Completed, env);
  }

  lemma Ends(s: TE, env: Env)
    requires !s.tx.cleanedUp && !s.tx.state.Terminated? && !IsClient(s.tx.kind)
    ensures var s' := Transition(s, Terminated, env).s;
            && s'.tx.state.Terminated? && s'.ep.wire == s.ep.wire && s'.tx.log == s.tx.log && s'.tx.conn == s.tx.conn
            && s'.tx.lastResponse == (if s.tx.kind.ServerNonInvite? then None else s.tx.lastResponse)
            && s'.tx.queue == s.tx.queue + [Terminate(s.tx.key)]
  {
    TransitionEnds(s, env);
    hide Transition, LastMessage;
  }

  /** Timers A to C stop on the way; nothing else is said of them. */
  lemma MovesProvisional(s: TE, target: State, env: Env)
    requires !IsClient(s.tx.kind) && (target.Trying? || target.Proceeding?) && CanTransition(s.tx.state, target) && InSetup(s.tx.state)
    ensures var s' := Transition(s, target, env).s;
            && s'.tx.state == target && s'.tx.conn == s.tx.conn && s'.tx.lastResponse == s.tx.lastResponse && s'.ep.wire == s.ep.wire
            && s'.tx.log.delivered == s.tx.log.delivered && s'.tx.log.resentResponses == s.tx.log.resentResponses
  {
    TransitionFacts(s, target, env);
    hide Transition;
  }

  /** What is taken is what the state machine lets through. */
  lemma TakenExactlyWhen(tx: Tx, r: Response)
    requires Serving(tx)
    ensures CanTransition(tx.state, RespondState(tx.kind, r)) <==> MayAnswer(tx, r)
  {
  }

  lemma AnswerDone(s: TE, r: Response, env: Env)
    requires Serving(s.tx) && Answers(s.tx.original, r)
    ensures Done(s, DoRespond(s, r, env).s, AnswerDuty(s.tx, r, env, s.ep.opt))
  {
    hide Transition, CanTransition, MayAnswer, Done, AnswerDuty, Answers, ResponseDialog, Stay;
    TakenExactlyWhen(s.tx, r);
    var s1 := s.(tx := s.tx.(lastResponse := Some(r)));
    var w := WriteMsg(s1, Resp(r), true);
    if !MayAnswer(s.tx, r) || s.tx.conn.None? || !env.sendOk {
      Untaken(s, r, env);
    } else if Provisional(r) {
      TakenProvisional(s, r, env);
    } else {
      TakenFinal(s, r, env);
    }
  }

  lemma Untaken(s: TE, r: Response, env: Env)
    requires Serving(s.tx) && (!MayAnswer(s.tx, r) || s.tx.conn.None? || !env.sendOk)
    ensures Done(s, DoRespond(s, r, env).s, AnswerDuty(s.tx, r, env, s.ep.opt))
  {
    hide Transition, CanTransition, MayAnswer, Answers;
    TakenExactlyWhen(s.tx, r);
  }

  lemma TakenProvisional(s: TE, r: Response, env: Env)
    requires Serving(s.tx) && Answers(s.tx.original, r) && MayAnswer(s.tx, r) && s.tx.conn.Some? && env.sendOk && Provisional(r)
    ensures Done(s, DoRespond(s, r, env).s, AnswerDuty(s.tx, r, env, s.ep.opt))
  {
    hide Transition;
    MovesProvisional(WriteMsg(s.(tx := s.tx.(lastResponse := Some(r))), Resp(r), true), RespondState(s.tx.kind, r), env);
  }

  lemma TakenFinal(s: TE, r: Response, env: Env)
    requires Serving(s.tx) && Answers(s.tx.original, r) && MayAnswer(s.tx, r) && s.tx.conn.Some? && env.sendOk && !Provisional(r)
    ensures Done(s, DoRespond(s, r, env).s, AnswerDuty(s.tx, r, env, s.ep.opt))
  {
    hide Transition, ResponseDialog;
    TakenExactlyWhen(s.tx, r);
    var w := WriteMsg(s.(tx := s.tx.(lastResponse := Some(r))), Resp(r), true);
    if s.tx.kind.ServerNonInvite? {
      Ends(w, env);
    } else if s.tx.state.Accepted? {
      SameStateMove(w, env);
    } else if Successful(r) {
      EntersAccepted(w, env);
    } else {
      EntersCompleted(w, env);
    }
  }

  lemma SameStateMove(s: TE, env: Env)
    ensures Transition(s, s.tx.state, env) == Moved(s, true)
  {
  }

  lemma CancelDone(s: TE, q: Request, env: Env)
    requires Serving(s.tx) && q.verb == Cancel
    ensures var h := OnCancel(s, q, env); Done(s, NoteDelivery(h), RequestDuty(s.tx, q, env, s.ep.opt))
  {
  }

  lemma AckDone(s: TE, q: Request, env: Env)
    requires Serving(s.tx) && q.verb != Cancel && (s.tx.state.Accepted? || s.tx.state.Completed? || s.tx.state.Confirmed?)
    ensures var h := OnRequest(s, q, s.tx.conn, env); Done(s, NoteDelivery(h), RequestDuty(s.tx, q, env, s.ep.opt))
  {
    if s.tx.state.Accepted? { Ends(s, env); } else { TransitionFacts(s, Confirmed, env); }
    hide Transition, Answers;
  }

  lemma RequestDone(s: TE, q: Request, env: Env)
    requires Serving(s.tx)
    ensures var h := OnRequest(s, q, s.tx.conn, env); Done(s, NoteDelivery(h), RequestDuty(s.tx, q, env, s.ep.opt))
  {
    hide Transition, DoRespond, OnCancel, Done, AnswerDuty, Answers, Stay;
    Unmoved(s, s);
    if q.verb == Cancel {
      CancelDone(s, q, env);
    } else if s.tx.state.Trying? || s.tx.state.Proceeding? {
      if s.tx.lastResponse.Some? {
        AnswerDone(s, s.tx.lastResponse.value, env);
      }
    } else if !s.tx.state.Terminated? {
      AckDone(s, q, env);
    }
  }

  lemma AgainDone(s: TE, t: TxTimer, env: Env)
    requires Serving(s.tx) && t.TxTimer? && t.slot.G? && (s.tx.state.Accepted? || s.tx.state.Completed?)
    ensures Done(s, OnTimer(s, t, env), TimerDuty(s.tx, t, env, s.ep.opt))
  {
    hide TimersOf, Answers;
  }

  lemma TimerDone(s: TE, t: TxTimer, env: Env)
    requires Serving(s.tx) && t.TxTimer?
    ensures Done(s, OnTimer(s, t, env), TimerDuty(s.tx, t, env, s.ep.opt))
  {
    hide Transition, Answers, RetransmitLastResponse;
    if (s.tx.state.Accepted? || s.tx.state.Completed?) && t.slot.G? {
      AgainDone(s, t, env);
    } else if !s.tx.state.Terminated? {
      Ends(s, env);
    }
  }

  /** An event taken from the queue, handled. */
  lemma HandledDone(s: TE, id: nat, env: Env)
    requires Serving(s.tx) && s.tx.queue != [] && (s.tx.queue[0].Respond? ==> Answers(s.tx.original, s.tx.queue[0].response))
    ensures Done(s, Receive(s, env), Row(s.tx, CallReceive(id, env), s.ep.opt))
  {
    hide OnRequest, OnTimer, DoRespond, Answers, TimerDuty, AnswerDuty, RequestDuty;
    var p := Pop(s);
    match s.tx.queue[0]
    case Received(msg, conn) =>
      if msg.Req? {
        var c := if p.tx.conn.None? then p.(tx := p.tx.(conn := conn)) else p;
        RequestDone(c, msg.request, env);
        ConnFirst(p, msg.request, conn, env);
        SameRow(s.tx, c.tx, msg.request, conn, env, s.ep.opt);
      }
    case Fired(t) =>
      if t.TxTimer? {
        TimerDone(p, t, env);
        SameTimerRow(s.tx, p.tx, t, env, s.ep.opt);
      } else {
        CleanupIgnored(p, t, env);
      }
    case Respond(r) =>
      AnswerDone(p, r, env);
      SameAnswerRow(s.tx, p.tx, r, env, s.ep.opt);
    case Terminate(_) =>
  }

  lemma ConnFirst(s: TE, q: Request, conn: Option<Conn>, env: Env)
    requires !IsClient(s.tx.kind)
    ensures var c := if s.tx.conn.None? then s.(tx := s.tx.(conn := conn)) else s;
            OnRequest(s, q, conn, env) == OnRequest(c, q, c.tx.conn, env)
  {
    hide Transition, DoRespond, OnCancel, OnAck;
  }

  lemma CleanupIgnored(s: TE, t: TxTimer, env: Env)
    ensures t.Cleanup? ==> OnTimer(s, t, env) == s
  {
  }

  /** The table does not read the queue. */
  lemma SameRow(t: Tx, c: Tx, q: Request, conn: Option<Conn>, env: Env, opt: EndpointOption)
    requires c == t.(queue := c.queue, conn := if t.conn.None? then conn else t.conn)
    ensures RequestDuty(c, q, env, opt) == RequestDuty(if t.conn.None? then t.(conn := conn) else t, q, env, opt)
  {
  }

  lemma SameTimerRow(t: Tx, c: Tx, timer: TxTimer, env: Env, opt: EndpointOption)
    requires c == t.(queue := c.queue) && timer.TxTimer?
    ensures TimerDuty(c, timer, env, opt) == TimerDuty(t, timer, env, opt)
  {
  }

  lemma SameAnswerRow(t: Tx, c: Tx, r: Response, env: Env, opt: EndpointOption)
    requires c == t.(queue := c.queue)
    ensures AnswerDuty(c, r, env, opt) == AnswerDuty(t, r, env, opt)
  {
  }

  lemma CallDone(s: TE, e: Event)
    requires IsCall(e) && (e.CallReceive? ==> s.tx.queue != []) && (e.FireTimer? ==> e.slot in s.tx.pending)
    requires Serving(s.tx) && (e.CallRespond? ==> Answers(s.tx.original, e.response))
    requires e.CallReceive? && s.tx.queue[0].Respond? ==> Answers(s.tx.original, s.tx.queue[0].response)
    ensures Done(s, Called(s, e), Row(s.tx, e, s.ep.opt))
  {
    hide Receive, DoRespond, Answers, AnswerDuty;
    match e
    case CallReceive(id, env) => HandledDone(s, id, env);
    case CallRespond(_, r, env) => AnswerDone(s, r, env);
    case _ =>
  }

  // ---- Runs ---------------------------------------------------------------------------------------------

  lemma ServesOnRuns(sys: Sys, e: Event, id: nat)
    requires Consistent(sys) && Possible(sys, e) && IsCall(e) && e.id == id && id in sys.txs && !IsClient(sys.txs[id].kind)
    ensures Serving(sys.txs[id]) && (e.CallRespond? ==> Answers(sys.txs[id].original, e.response))
    ensures e.CallReceive? && sys.txs[id].queue != [] && sys.txs[id].queue[0].Respond? ==>
              Answers(sys.txs[id].original, sys.txs[id].queue[0].response)
  {
    HealthyAt(sys, id, sys.now);
    var tx := sys.txs[id];
    assert Sane(tx);
    if tx.queue != [] { assert OkEvent(tx, tx.queue[0]); }
    hide Consistent, Inv, Alive, Answers;
  }

  /** On every run, whatever the order of events: a server transaction takes every event as the table
      says, in its next state, on the wire, towards its user, in its Timer G. */
  lemma ServerFollowsTable(opt: EndpointOption, es: seq<Event>, e: Event, id: nat)
    requires Run(Start(opt), es) && Possible(Reached(opt, es), e) && IsCall(e) && e.id == id
    requires id in Reached(opt, es).txs && !IsClient(Reached(opt, es).txs[id].kind)
    ensures var sys, sys' := Reached(opt, es), Step(Reached(opt, es), e);
            id in sys'.txs && Done(At(sys, id), At(sys', id), Row(sys.txs[id], e, opt))
  {
    StartConsistent(opt);
    OptionsStay(Start(opt), es);
    StepFollowsTable(Reached(opt, es), e, id);
    hide Run, Done, Row;
  }

  lemma StepFollowsTable(sys: Sys, e: Event, id: nat)
    requires Consistent(sys) && Possible(sys, e) && IsCall(e) && e.id == id && id in sys.txs && !IsClient(sys.txs[id].kind)
    ensures var sys' := Step(sys, e); id in sys'.txs && Done(At(sys, id), At(sys', id), Row(sys.txs[id], e, sys.ep.opt))
  {
    hide Consistent, Possible, Called, Done, Row, Serving, Answers;
    CallPossible(sys, e);
    ServesOnRuns(sys, e, id);
    CallDone(At(sys, id), e);
  }

  /** What the calls of `id` wrote on a run. */
  ghost function WroteOn(sys: Sys, es: seq<Event>, id: nat): seq<SipMessage>
    requires Run(sys, es)
    decreases |es|
  {
    if es == [] then []
    else (if CallsOn(sys, es[0], id) then Added(sys.ep.wire, Step(sys, es[0]).ep.wire) else []) + WroteOn(Step(sys, es[0]), es[1..], id)
  }

  /** What the table asks for. */
  ghost function DueOn(sys: Sys, es: seq<Event>, id: nat): seq<SipMessage>
    requires Run(sys, es)
    decreases |es|
  {
    if es == [] then []
    else (if CallsOn(sys, es[0], id) then Row(sys.txs[id], es[0], sys.ep.opt).wire else []) + DueOn(Step(sys, es[0]), es[1..], id)
  }

  /** The retransmissions the table asks for that put a copy on the wire, or those that do not. */
  ghost function ResentOn(sys: Sys, es: seq<Event>, id: nat, copied: bool): nat
    requires Run(sys, es)
    decreases |es|
  {
    if es == [] then 0
    else (if CallsOn(sys, es[0], id) && (Row(sys.txs[id], es[0], sys.ep.opt).wire != []) == copied then Row(sys.txs[id], es[0], sys.ep.opt).resent else 0)
         + ResentOn(Step(sys, es[0]), es[1..], id, copied)
  }

  /** A transaction there at the end was there since it started. */
  lemma ThereSince(sys: Sys, es: seq<Event>, id: nat)
    requires Consistent(sys) && Run(sys, es) && es != [] && id in After(sys, es).txs
    ensures id in sys.txs ==> id in Step(sys, es[0]).txs && Step(sys, es[0]).txs[id].kind == sys.txs[id].kind
  {
    hide Consistent, Possible, Step;
    StepConsistent(sys, es[0]);
    NextNumber(sys, es[0]);
    StepAdvances(sys, es[0]);
    RunAdvances(Step(sys, es[0]), es[1..]);
    hide Rank;
  }

  function Resent(sys: Sys, id: nat): nat { if id in sys.txs then sys.txs[id].log.resentResponses else 0 }

  lemma OtherResent(sys: Sys, e: Event, id: nat)
    requires Consistent(sys) && Possible(sys, e) && !CallsOn(sys, e, id) && id in Step(sys, e).txs
    ensures Resent(Step(sys, e), id) == Resent(sys, id)
  {
    hide Consistent, Called, Route, DoCleanup, RunCleanup, System.Earliest, RequestKey;
    NextIsFree(sys);
  }

  lemma {:induction false} RunFollowsTable(sys: Sys, es: seq<Event>, id: nat)
    requires Consistent(sys) && Run(sys, es) && id in After(sys, es).txs && !IsClient(After(sys, es).txs[id].kind)
    ensures id in sys.txs ==> !IsClient(sys.txs[id].kind)
    ensures WroteOn(sys, es, id) == DueOn(sys, es, id)
    ensures Resent(After(sys, es), id) == Resent(sys, id) + ResentOn(sys, es, id, true) + ResentOn(sys, es, id, false)
    decreases |es|
  {
    hide Consistent, Possible, Step, Row, Added;
    if es != [] {
      StepConsistent(sys, es[0]);
      ThereSince(sys, es, id);
      RunFollowsTable(Step(sys, es[0]), es[1..], id);
      HeadFollowsTable(sys, es, id);
    }
  }

  lemma HeadFollowsTable(sys: Sys, es: seq<Event>, id: nat)
    requires Consistent(sys) && Run(sys, es) && es != [] && id in After(sys, es).txs && (id in sys.txs ==> !IsClient(sys.txs[id].kind))
    ensures CallsOn(sys, es[0], id) ==>
              var d := Row(sys.txs[id], es[0], sys.ep.opt);
              Added(sys.ep.wire, Step(sys, es[0]).ep.wire) == d.wire && Resent(Step(sys, es[0]), id) == Resent(sys, id) + d.resent
    ensures !CallsOn(sys, es[0], id) ==> Resent(Step(sys, es[0]), id) == Resent(sys, id)
  {
    hide Consistent, Possible, Step, Row;
    if CallsOn(sys, es[0], id) {
      StepFollowsTable(sys, es[0], id);
    } else if id in Step(sys, es[0]).txs {
      OtherResent(sys, es[0], id);
    } else {
      ThereSince(sys, es, id);
    }
  }

  /** On every run: what a server transaction wrote is what the table asks for, message by message; and
      each retransmission it counts put one copy of its last response on the wire, or its write failed. */
  lemma ServerWritesWhatIsDue(opt: EndpointOption, es: seq<Event>, id: nat)
    requires Run(Start(opt), es) && id in Reached(opt, es).txs && !IsClient(Reached(opt, es).txs[id].kind)
    ensures WroteOn(Start(opt), es, id) == DueOn(Start(opt), es, id)
    ensures Reached(opt, es).txs[id].log.resentResponses
            == ResentOn(Start(opt), es, id, true) + ResentOn(Start(opt), es, id, false)
  {
    StartConsistent(opt);
    RunFollowsTable(Start(opt), es, id);
    hide Run, WroteOn, DueOn, ResentOn;
  }
}
