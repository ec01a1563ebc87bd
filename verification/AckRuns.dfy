/**
 The ACKs of a client INVITE over whole runs: one for every success it handles
 for this hop, with that success's To tag, whatever else happens in between.
 */
module AckRuns {
  import opened Prelude
  import opened SipMessages
  import opened TransactionKey
  import opened EndpointSpec
  import opened TransactionSpec
  import opened TransactionSanity
  import opened TransactionInvariant
  import opened TransactionHandlers
  import opened NeverStuck
  import opened TableSteps
  import opened StateOrder
  import opened LocalEvents
  import opened System
  import opened SystemSteps
  import opened RunTheorems
  import opened ClientStory
  import opened ForkedAcks
  import opened AckHistory

  // ---- What an event hears, owes and writes --------------------------------------------------------

  /** The success that `e` makes the transaction handle. */
  function Heard(tx: Tx, e: Event): Option<Response> {
    if e.CallReceive? && tx.queue != [] && tx.queue[0].Received? && tx.queue[0].msg.Resp? && Successful(tx.queue[0].msg.response)
    then Some(tx.queue[0].msg.response) else None
  }

  /** The To tags of the ACKs it owes: one for a success meant for this hop, or one the user asks for
      again, if there is a connection and the write succeeds. */
  function Owed(tx: Tx, e: Event): seq<Option<string>> {
    if e.CallReceive? && Heard(tx, e).Some? && !MultipleVias(Heard(tx, e).value)
       && AckConn(tx.queue[0].conn, e.env).Some? && e.env.sendOk
    then [Heard(tx, e).value.toTag]
    else if e.CallSendAck? && tx.state.Accepted? && tx.lastResponse.Some? && AckConn(e.conn, e.env).Some? && e.env.sendOk
    then [tx.lastResponse.value.toTag]
    else []
  }

  /** The successes acknowledged have a To tag and a Contact. */
  predicate Proper(tx: Tx, e: Event) {
    && (Heard(tx, e).Some? && !MultipleVias(Heard(tx, e).value) ==> ProperSuccess(Heard(tx, e).value))
    && (e.CallSendAck? && tx.state.Accepted? ==> tx.lastResponse.Some? && ProperSuccess(tx.lastResponse.value))
  }

  predicate IsAck(m: SipMessage) { m.Req? && m.request.verb == Ack }

  function Acks(w: seq<SipMessage>): seq<SipMessage> {
    if w == [] then [] else (if IsAck(w[0]) then [w[0]] else []) + Acks(w[1..])
  }

  function Successes(w: seq<SipMessage>): seq<SipMessage> {
    if w == [] then [] else Successes(w[..|w| - 1]) + (if IsSuccess(w[|w| - 1]) then [w[|w| - 1]] else [])
  }

  /** What was written between two states of the wire. */
  function Added(w: seq<SipMessage>, w': seq<SipMessage>): seq<SipMessage> {
    if |w| <= |w'| then w'[|w|..] else []
  }

  /** ACKs with these To tags, in this order. */
  ghost predicate AcksOf(w: seq<SipMessage>, tags: seq<Option<string>>) {
    |w| == |tags| && forall i :: 0 <= i < |w| ==> IsAck(w[i]) && w[i].request.toTag == tags[i]
  }

  predicate TagKept(tx: Tx) {
    tx.lastAck.Some? ==> tx.lastAck.value.toTag.Some?
  }

  /** The effect of one call: the ACKs owed are written and no others, and the success heard goes up. */
  ghost predicate Acknowledged(s: TE, e: Event, s': TE) {
    && TagKept(s'.tx)
    && AcksOf(Acks(Added(s.ep.wire, s'.ep.wire)), Owed(s.tx, e))
    && Successes(s'.tx.log.delivered) == Successes(s.tx.log.delivered) + if Heard(s.tx, e).Some? then [Resp(Heard(s.tx, e).value)] else []
  }

  lemma OneAdded(w: seq<SipMessage>, m: SipMessage)
    ensures Added(w, w) == [] && Added(w, w + [m]) == [m]
    ensures Acks([]) == [] && Acks([m]) == if IsAck(m) then [m] else []
    ensures Successes(w + [m]) == Successes(w) + if IsSuccess(m) then [m] else []
  {
    assert [m][1..] == [] && (w + [m])[..|w|] == w;
  }

  // ---- Calls ---------------------------------------------------------------------------------------------

  /** A client INVITE that has not ended. */
  ghost predicate Waiting(s: TE) {
    && s.tx.kind.ClientInvite? && s.tx.original.verb == Invite && !s.tx.cleanedUp
    && !s.tx.state.Completed? && !s.tx.state.Confirmed? && !s.tx.state.Terminated?
    && AckOk(s.tx) && TagKept(s.tx)
  }

  /** Nothing is written but the INVITE, if anything, and nothing goes up. */
  ghost predicate Quiet(s: TE, s': TE) {
    && s'.tx.lastAck == s.tx.lastAck && s'.tx.log.delivered == s.tx.log.delivered
    && (s'.ep.wire == s.ep.wire || s'.ep.wire == s.ep.wire + [Req(s.tx.original)])
  }

  lemma QuietAcknowledged(s: TE, e: Event, s': TE)
    requires Waiting(s) && Quiet(s, s') && Owed(s.tx, e) == [] && Heard(s.tx, e).None?
    ensures Acknowledged(s, e, s')
  {
    OneAdded(s.ep.wire, Req(s.tx.original));
    hide Acks, Successes, Added, Owed, Heard;
  }

  lemma SendQuiet(s: TE, env: Env)
    ensures Quiet(s, Send(s, env).s)
  {
    SendInward(s, env);
    TransitionFacts(Written(s, env), Calling, env);
    hide Transition, Grows;
  }

  lemma OnTimerQuiet(s: TE, t: TxTimer, env: Env)
    requires Waiting(s) && !OnTimer(s, t, env).tx.state.Terminated?
    ensures Quiet(s, OnTimer(s, t, env))
  {
    if s.tx.state.Accepted? && t.TxTimer? && t.slot.M? {
      TransitionEndState(s, env);
    }
    hide Transition, TimersOf;
  }

  /** A response that is no success: provisional, or too late. */
  lemma OtherResponseQuiet(s: TE, r: Response, conn: Option<Conn>, env: Env)
    requires Waiting(s) && !s.tx.state.Nothing? && !Successful(r) && !OnResponse(s, r, conn, env).s.tx.state.Terminated?
    ensures var h := OnResponse(s, r, conn, env);
            Quiet(s, h.s) && (h.up.None? || (h.up == Some(Resp(r)) && !IsSuccess(Resp(r))))
  {
    OnResponseInward(s, r, conn, env);
    var target := ResponseState(s.tx.kind, r, s.ep.opt);
    if CanTransition(s.tx.state, target) && !Duplicate(s.tx, r, target) {
      var s0 := s.(tx := s.tx.(lastResponse := Some(r)));
      TransitionFacts(s0, target, env);
      if target.Completed? { SendAckEnds(Transition(s0, target, env).s, conn, env); }
    }
    hide Transition, SendAck, Duplicate, Grows;
  }

  lemma SuccessHandled(s: TE, r: Response, conn: Option<Conn>, env: Env)
    requires Waiting(s) && !s.tx.state.Nothing? && Successful(r) && (MultipleVias(r) || ProperSuccess(r))
    requires !OnResponse(s, r, conn, env).s.tx.state.Terminated?
    ensures var h := OnResponse(s, r, conn, env);
            && h.up == Some(Resp(r)) && TagKept(h.s.tx) && h.s.tx.log.delivered == s.tx.log.delivered
            && if !MultipleVias(r) && AckConn(conn, env).Some? && env.sendOk
               then h.s.tx.lastAck.Some? && IsAck(Req(h.s.tx.lastAck.value)) && h.s.tx.lastAck.value.toTag == r.toTag
                    && h.s.ep.wire == s.ep.wire + [Req(h.s.tx.lastAck.value)]
               else h.s.ep.wire == s.ep.wire
  {
    OnResponseInward(s, r, conn, env);
    if MultipleVias(r) {
      TransitionFacts(s, Accepted, env);
      hide Transition, SendAck, Grows;
    } else if s.ep.opt.autoAck2xx {
      SuccessIsAcked(s, r, conn, env);
      hide OnResponse, Grows;
    } else {
      ResponseTransition(s.(tx := s.tx.(lastResponse := Some(r))), Terminated, env);
      hide Transition, SendAck, Grows;
    }
  }

  lemma UserAckWritten(s: TE, conn: Option<Conn>, env: Env)
    requires Waiting(s) && (s.tx.state.Accepted? ==> s.tx.lastResponse.Some? && ProperSuccess(s.tx.lastResponse.value))
    ensures var s' := SendAck(s, conn, env).s;
            && TagKept(s'.tx) && s'.tx.log.delivered == s.tx.log.delivered
            && if s.tx.state.Accepted? && AckConn(conn, env).Some? && env.sendOk
               then s'.tx.lastAck.Some? && IsAck(Req(s'.tx.lastAck.value)) && s'.tx.lastAck.value.toTag == s.tx.lastResponse.value.toTag
                    && s'.ep.wire == s.ep.wire + [Req(s'.tx.lastAck.value)]
               else s'.ep.wire == s.ep.wire
  {
    if s.tx.state.Accepted? {
      ChosenAck(s.tx, env.branch);
      PutSuccessAck(s, ChooseAck(s.tx, env.branch).value, conn, env);
      hide ChooseAck, PutAck, Transition;
    }
  }

  /** From one response handled to the whole `receive`. */
  lemma ResponseReceived(s: TE, r: Response, conn: Option<Conn>, id: nat, env: Env)
    requires s.tx.queue != [] && s.tx.queue[0] == Received(Resp(r), conn)
    requires var h := OnResponse(Pop(s), r, conn, env);
             && TagKept(h.s.tx) && h.s.tx.log.delivered == s.tx.log.delivered
             && AcksOf(Acks(Added(s.ep.wire, h.s.ep.wire)), Owed(s.tx, CallReceive(id, env)))
             && (if Successful(r) then h.up == Some(Resp(r)) else h.up.None? || (h.up == Some(Resp(r)) && !IsSuccess(Resp(r))))
    ensures Acknowledged(s, CallReceive(id, env), Receive(s, env))
  {
    OneAdded(s.tx.log.delivered, Resp(r));
    hide OnResponse, Acks, Successes, Added, AcksOf, Owed;
  }

  lemma StillWaiting(s: TE)
    requires Waiting(s) && s.tx.queue != []
    ensures Waiting(Pop(s))
  {
  }

  lemma SuccessReceived(s: TE, r: Response, conn: Option<Conn>, id: nat, env: Env)
    requires Waiting(s) && !s.tx.state.Nothing? && s.tx.queue != [] && Proper(s.tx, CallReceive(id, env))
    requires s.tx.queue[0] == Received(Resp(r), conn) && Successful(r) && !Receive(s, env).tx.state.Terminated?
    ensures Acknowledged(s, CallReceive(id, env), Receive(s, env))
  {
    var h := OnResponse(Pop(s), r, conn, env);
    StillWaiting(s);
    SuccessHandled(Pop(s), r, conn, env);
    if h.s.tx.lastAck.Some? { OneAdded(s.ep.wire, Req(h.s.tx.lastAck.value)); }
    OneAdded(s.ep.wire, Req(s.tx.original));
    hide OnResponse, Acks, Successes, Added, Waiting, TagKept, Acknowledged, Receive, AckOk, MultipleVias, AckConn;
    ResponseReceived(s, r, conn, id, env);
  }

  lemma OtherReceived(s: TE, r: Response, conn: Option<Conn>, id: nat, env: Env)
    requires Waiting(s) && !s.tx.state.Nothing? && s.tx.queue != []
    requires s.tx.queue[0] == Received(Resp(r), conn) && !Successful(r) && !Receive(s, env).tx.state.Terminated?
    ensures Acknowledged(s, CallReceive(id, env), Receive(s, env))
  {
    var h := OnResponse(Pop(s), r, conn, env);
    assert Waiting(Pop(s));
    OtherResponseQuiet(Pop(s), r, conn, env);
    OneAdded(s.ep.wire, Req(s.tx.original));
    hide OnResponse, Acks, Successes, Added, Acknowledged, Receive;
    ResponseReceived(s, r, conn, id, env);
  }

  lemma OthersReceived(s: TE, id: nat, env: Env)
    requires Waiting(s) && s.tx.queue != [] && !(s.tx.queue[0].Received? && s.tx.queue[0].msg.Resp?)
    requires !Receive(s, env).tx.state.Terminated?
    ensures Acknowledged(s, CallReceive(id, env), Receive(s, env))
  {
    assert Waiting(Pop(s));
    if s.tx.queue[0].Fired? { OnTimerQuiet(Pop(s), s.tx.queue[0].timer, env); }
    hide OnTimer, CanTransition, Transition;
    assert Quiet(s, Receive(s, env));
    QuietAcknowledged(s, CallReceive(id, env), Receive(s, env));
  }

  lemma ReceiveAcknowledged(s: TE, id: nat, env: Env)
    requires Waiting(s) && !s.tx.state.Nothing? && s.tx.queue != [] && Proper(s.tx, CallReceive(id, env))
    requires !Receive(s, env).tx.state.Terminated?
    ensures Acknowledged(s, CallReceive(id, env), Receive(s, env))
  {
    hide Waiting, Proper, Receive, Acknowledged;
    var q := s.tx.queue[0];
    if q.Received? && q.msg.Resp? {
      if Successful(q.msg.response) { SuccessReceived(s, q.msg.response, q.conn, id, env); }
      else { OtherReceived(s, q.msg.response, q.conn, id, env); }
    } else {
      OthersReceived(s, id, env);
    }
  }

  lemma CallAcknowledged(s: TE, e: Event)
    requires IsCall(e) && (e.CallReceive? ==> s.tx.queue != [] && !s.tx.state.Nothing?) && (e.FireTimer? ==> e.slot in s.tx.pending)
    requires Waiting(s) && Proper(s.tx, e) && !Called(s, e).tx.state.Terminated?
    ensures Acknowledged(s, e, Called(s, e))
  {
    hide Send, Receive, DoRespond, SendAck, Acks, Successes, Added, AckOk, TagKept;
    match e
    case CallSend(_, env) =>
      SendQuiet(s, env);
      QuietAcknowledged(s, e, Called(s, e));
    case CallReceive(id, env) => ReceiveAcknowledged(s, id, env);
    case CallRespond(_, r, env) =>
      ClientRespond(s, r, env);
      QuietAcknowledged(s, e, Called(s, e));
    case CallSendAck(_, conn, env) =>
      UserAckWritten(s, conn, env);
      var s' := SendAck(s, conn, env).s;
      if s'.tx.lastAck.Some? { OneAdded(s.ep.wire, Req(s'.tx.lastAck.value)); }
      OneAdded(s.ep.wire, Req(s.tx.original));
    case QueueRespond(_, _, _) => QuietAcknowledged(s, e, Called(s, e));
    case CallStop(_, _) => QuietAcknowledged(s, e, Called(s, e));
    case FireTimer(_, _, _) => QuietAcknowledged(s, e, Called(s, e));
  }

  // ---- Runs ------------------------------------------------------------------------------------------------

  /** A call of transaction `id`. */
  predicate CallsOn(sys: Sys, e: Event, id: nat) { IsCall(e) && e.id == id && id in sys.txs }

  /** The successes `id` handles on a run. */
  ghost function HeardOn(sys: Sys, es: seq<Event>, id: nat): seq<SipMessage>
    requires Run(sys, es)
    decreases |es|
  {
    if es == [] then []
    else (if CallsOn(sys, es[0], id) && Heard(sys.txs[id], es[0]).Some? then [Resp(Heard(sys.txs[id], es[0]).value)] else [])
         + HeardOn(Step(sys, es[0]), es[1..], id)
  }

  /** The To tags of the ACKs it owes. */
  ghost function OwedOn(sys: Sys, es: seq<Event>, id: nat): seq<Option<string>>
    requires Run(sys, es)
    decreases |es|
  {
    if es == [] then []
    else (if CallsOn(sys, es[0], id) then Owed(sys.txs[id], es[0]) else []) + OwedOn(Step(sys, es[0]), es[1..], id)
  }

  /** The ACKs it writes. */
  ghost function WrittenOn(sys: Sys, es: seq<Event>, id: nat): seq<SipMessage>
    requires Run(sys, es)
    decreases |es|
  {
    if es == [] then []
    else (if CallsOn(sys, es[0], id) then Acks(Added(sys.ep.wire, Step(sys, es[0]).ep.wire)) else [])
         + WrittenOn(Step(sys, es[0]), es[1..], id)
  }

  ghost predicate ProperOn(sys: Sys, es: seq<Event>, id: nat)
    requires Run(sys, es)
    decreases |es|
  {
    es != [] ==> (CallsOn(sys, es[0], id) ==> Proper(sys.txs[id], es[0])) && ProperOn(Step(sys, es[0]), es[1..], id)
  }

  lemma AcksAppend(w: seq<SipMessage>, v: seq<SipMessage>, tags: seq<Option<string>>, more: seq<Option<string>>)
    requires AcksOf(w, tags) && AcksOf(v, more)
    ensures AcksOf(w + v, tags + more)
  {
  }

  /** What has gone up so far. */
  function Told(sys: Sys, id: nat): seq<SipMessage> {
    if id in sys.txs then Successes(sys.txs[id].log.delivered) else []
  }

  /** A step that is no call of `id` leaves what it told and its ACK, and a new transaction has none. */
  lemma OtherStep(sys: Sys, e: Event, id: nat)
    requires Consistent(sys) && Possible(sys, e) && !CallsOn(sys, e, id) && id in Step(sys, e).txs
    ensures Told(Step(sys, e), id) == Told(sys, id)
    ensures (id in sys.txs ==> TagKept(sys.txs[id])) ==> TagKept(Step(sys, e).txs[id])
  {
    hide Consistent, Called, Route, DoCleanup, RunCleanup, System.Earliest, RequestKey;
    NextIsFree(sys);
    assert Successes([]) == [];
  }

  lemma OwnStep(sys: Sys, e: Event, id: nat)
    requires Consistent(sys) && Possible(sys, e) && CallsOn(sys, e, id) && Proper(sys.txs[id], e)
    requires sys.txs[id].kind.ClientInvite? && AckOk(sys.txs[id]) && TagKept(sys.txs[id]) && !Over(Step(sys, e), id)
    ensures Acknowledged(At(sys, id), e, Called(At(sys, id), e))
    ensures Step(sys, e) == Put(sys, id, Called(At(sys, id), e), TimeOf(e))
  {
    hide Consistent, Possible, Called, Proper, Acknowledged, AckOk, TagKept, Inv;
    CallPossible(sys, e);
    HealthyAt(sys, id, TimeOf(e));
    CallKeeps(At(sys, id), e);
    StepConsistent(sys, e);
    HealthyAt(Step(sys, e), id, TimeOf(e));
    ClientStates(sys.txs[id], sys.ep.opt, TimeOf(e));
    CallAcknowledged(At(sys, id), e);
  }

  lemma ClientStates(tx: Tx, opt: EndpointOption, now: nat)
    requires Inv(tx, opt, now) && Alive(tx) && tx.kind.ClientInvite? && !tx.cleanedUp
    ensures !tx.state.Completed? && !tx.state.Confirmed? && !tx.state.Terminated?
  {
    assert Sane(tx);
    hide Paced;
  }

  /** One that is over stays so. */
  lemma OverAtTheEnd(sys: Sys, es: seq<Event>, id: nat)
    requires Consistent(sys) && Run(sys, es) && id < sys.next && Over(sys, id)
    ensures Over(After(sys, es), id)
  {
    hide Consistent, Possible, Step, Over;
    if es != [] {
      OverStays(sys, es[0], id);
      StaysOver(sys, es, id);
    }
  }

  lemma SameKind(sys: Sys, e: Event, id: nat)
    requires Consistent(sys) && Possible(sys, e) && id in sys.txs && id in Step(sys, e).txs
    ensures sys.txs[id].kind == Step(sys, e).txs[id].kind
  {
    hide Consistent, Possible, Step;
    StepAdvances(sys, e);
  }

  /** One step of such a run. */
  lemma StepAcknowledged(sys: Sys, e: Event, id: nat)
    requires Consistent(sys) && Possible(sys, e) && AcksOk(sys) && (CallsOn(sys, e, id) ==> Proper(sys.txs[id], e))
    requires id in Step(sys, e).txs && !Over(Step(sys, e), id) && Step(sys, e).txs[id].kind.ClientInvite?
    requires id in sys.txs ==> TagKept(sys.txs[id])
    ensures TagKept(Step(sys, e).txs[id])
    ensures if CallsOn(sys, e, id) then
              && AcksOf(Acks(Added(sys.ep.wire, Step(sys, e).ep.wire)), Owed(sys.txs[id], e))
              && Told(Step(sys, e), id) == Told(sys, id) + if Heard(sys.txs[id], e).Some? then [Resp(Heard(sys.txs[id], e).value)] else []
            else Told(Step(sys, e), id) == Told(sys, id)
  {
    hide Consistent, Possible, Step, Called, TagKept, Over, Proper, Owed, Heard, AcksOf, Acks, Added, Successes, AckOk;
    if CallsOn(sys, e, id) {
      SameKind(sys, e, id);
      OwnStep(sys, e, id);
    } else {
      OtherStep(sys, e, id);
    }
  }

  /** What is alive at the end of a run is there throughout, from its start on. */
  lemma AliveThroughout(sys: Sys, es: seq<Event>, id: nat)
    requires Consistent(sys) && Run(sys, es) && es != [] && id in After(sys, es).txs && !Over(After(sys, es), id)
    ensures var next := Step(sys, es[0]);
            if id in next.txs then !Over(next, id) else next.next <= id && id !in sys.txs
  {
    hide Consistent, Possible, Step;
    var next := Step(sys, es[0]);
    StepConsistent(sys, es[0]);
    NextNumber(sys, es[0]);
    if id in next.txs && Over(next, id) { Numbered(next, id); }
    if id < next.next && Over(next, id) { OverAtTheEnd(next, es[1..], id); }
  }

  lemma Numbered(sys: Sys, id: nat)
    requires Consistent(sys) && id in sys.txs
    ensures id < sys.next
  {
    assert TxsOk(sys);
    hide TablesOk, RoutesOk, Healthy;
  }

  lemma {:induction false} RunKind(sys: Sys, es: seq<Event>, id: nat)
    requires Consistent(sys) && Run(sys, es) && id in sys.txs && id in After(sys, es).txs && !Over(After(sys, es), id)
    ensures sys.txs[id].kind == After(sys, es).txs[id].kind
    decreases |es|
  {
    hide Consistent, Possible, Step, Over;
    if es != [] {
      AliveThroughout(sys, es, id);
      StepConsistent(sys, es[0]);
      SameKind(sys, es[0], id);
      RunKind(Step(sys, es[0]), es[1..], id);
    }
  }

  /** The first step of a run. */
  lemma HeadAcknowledged(sys: Sys, es: seq<Event>, id: nat)
    requires Consistent(sys) && Run(sys, es) && es != [] && AcksOk(sys) && (CallsOn(sys, es[0], id) ==> Proper(sys.txs[id], es[0]))
    requires id in After(sys, es).txs && !Over(After(sys, es), id) && After(sys, es).txs[id].kind.ClientInvite?
    requires id in sys.txs ==> TagKept(sys.txs[id])
    ensures var e, next := es[0], Step(sys, es[0]);
            && (id in next.txs ==> TagKept(next.txs[id]))
            && (CallsOn(sys, e, id) ==> AcksOf(Acks(Added(sys.ep.wire, next.ep.wire)), Owed(sys.txs[id], e)))
            && Told(next, id) == Told(sys, id)
                 + if CallsOn(sys, e, id) && Heard(sys.txs[id], e).Some? then [Resp(Heard(sys.txs[id], e).value)] else []
  {
    hide Consistent, Possible, Step, TagKept, Over, Proper, Owed, Heard, AcksOk, AcksOf, Acks, Added, Successes;
    AliveThroughout(sys, es, id);
    if id in Step(sys, es[0]).txs {
      StepConsistent(sys, es[0]);
      RunKind(Step(sys, es[0]), es[1..], id);
      StepAcknowledged(sys, es[0], id);
    }
  }

  /** On every run, for a client INVITE that has not ended at its end. */
  lemma {:induction false} RunAcknowledged(sys: Sys, es: seq<Event>, id: nat)
    requires Consistent(sys) && Run(sys, es) && AcksOk(sys) && ProperOn(sys, es, id)
    requires id in After(sys, es).txs && !Over(After(sys, es), id) && After(sys, es).txs[id].kind.ClientInvite?
    requires id in sys.txs ==> TagKept(sys.txs[id])
    ensures AcksOf(WrittenOn(sys, es, id), OwedOn(sys, es, id))
    ensures Told(After(sys, es), id) == Told(sys, id) + HeardOn(sys, es, id)
    decreases |es|
  {
    hide Consistent, Possible, Step, TagKept, Over, Proper, Owed, Heard, AcksOk, AcksOf, Acks, Added, Told, WrittenOn, OwedOn;
    if es == [] {
      NothingOwed(sys, id);
    } else {
      var e, next := es[0], Step(sys, es[0]);
      StepConsistent(sys, e);
      StepAcksOk(sys, e);
      HeadAcknowledged(sys, es, id);
      RunAcknowledged(next, es[1..], id);
      AppendStep(sys, es, id);
    }
  }

  lemma NothingOwed(sys: Sys, id: nat)
    ensures AcksOf(WrittenOn(sys, [], id), OwedOn(sys, [], id))
  {
  }

  lemma AppendStep(sys: Sys, es: seq<Event>, id: nat)
    requires Run(sys, es) && es != []
    requires CallsOn(sys, es[0], id) ==> AcksOf(Acks(Added(sys.ep.wire, Step(sys, es[0]).ep.wire)), Owed(sys.txs[id], es[0]))
    requires AcksOf(WrittenOn(Step(sys, es[0]), es[1..], id), OwedOn(Step(sys, es[0]), es[1..], id))
    ensures AcksOf(WrittenOn(sys, es, id), OwedOn(sys, es, id))
  {
    hide Possible, Step, Acks, Added, Owed;
    var w, tags := WrittenOn(Step(sys, es[0]), es[1..], id), OwedOn(Step(sys, es[0]), es[1..], id);
    if CallsOn(sys, es[0], id) {
      AcksAppend(Acks(Added(sys.ep.wire, Step(sys, es[0]).ep.wire)), w, Owed(sys.txs[id], es[0]), tags);
    } else {
      assert [] + w == w && [] + tags == tags;
    }
  }

  /** On every run, whatever else happens: of a client INVITE that has not ended, the ACKs written are
      exactly those owed, one for each success for this hop (retransmitted or of a new branch) and each
      the user asks for again, in order, with that success's To tag; and the successes handled have all
      gone up, in order. */
  lemma EachForkAcknowledged(opt: EndpointOption, es: seq<Event>, id: nat)
    requires Run(Start(opt), es) && ProperOn(Start(opt), es, id)
    requires var sys := Reached(opt, es); id in sys.txs && !sys.txs[id].cleanedUp && sys.txs[id].kind.ClientInvite?
    ensures AcksOf(WrittenOn(Start(opt), es, id), OwedOn(Start(opt), es, id))
    ensures Successes(Reached(opt, es).txs[id].log.delivered) == HeardOn(Start(opt), es, id)
  {
    StartConsistent(opt);
    RunAcknowledged(Start(opt), es, id);
    hide Run, ProperOn, WrittenOn, OwedOn, HeardOn, Successes, AcksOf;
  }
}
