/**
 What arrives late: retransmitted requests are answered from the cache and
 reach no user a second time, retransmitted finals are acknowledged from it.
 */
module LateMessages {
  import opened Prelude
  import opened SipMessages
  import opened TransactionKey
  import opened EndpointSpec
  import opened TransactionSpec
  import opened TransactionSanity
  import opened TransactionInvariant
  import opened NeverStuck
  import opened TableSteps
  import opened StateOrder
  import opened System
  import opened SystemSteps

  // ---- The cache lasts 64*T1 --------------------------------------------------------

  /** The same cached message under `key`, with the same deadline. */
  predicate SameCached(ep: Ep, ep': Ep, key: Key) {
    && key in ep.finished && key in ep'.finished && ep'.finished[key] == ep.finished[key]
    && key in ep.cleanups && key in ep'.cleanups && ep'.cleanups[key] == ep.cleanups[key]
  }

  lemma EndKeepsCached(s: TE, s': TE, now: nat, key: Key)
    requires TablesStep(s, s', now)
    requires key in s.ep.finished && key in s.ep.cleanups && (!s.tx.cleanedUp ==> s.tx.key != key)
    ensures SameCached(s.ep, s'.ep, key)
  {
    hide RoutesStep, LeftBehind;
  }

  lemma CachedIsNotLive(sys: Sys, key: Key)
    requires Consistent(sys) && key in sys.ep.finished
    ensures forall id :: id in sys.txs && !sys.txs[id].cleanedUp ==> sys.txs[id].key != key
    ensures key in sys.ep.cleanups && key !in sys.ep.table
  {
    assert key !in sys.ep.finished.Keys * sys.ep.table by { assert key in sys.ep.finished.Keys; }
    forall id | id in sys.txs && !sys.txs[id].cleanedUp ensures sys.txs[id].key != key {
      assert sys.txs[id].key in LiveKeys(sys.txs);
    }
    hide TxsOk, RoutesOk;
  }

  lemma CallKeepsCached(sys: Sys, e: Event, key: Key)
    requires Consistent(sys) && Possible(sys, e) && IsCall(e) && key in sys.ep.finished && key in sys.ep.cleanups
    ensures SameCached(sys.ep, Step(sys, e).ep, key)
  {
    hide Consistent, Called, Possible, TablesStep;
    CachedIsNotLive(sys, key);
    CallPossible(sys, e);
    HealthyAt(sys, e.id, TimeOf(e));
    CallTables(At(sys, e.id), e);
    EndKeepsCached(At(sys, e.id), Called(At(sys, e.id), e), TimeOf(e), key);
  }

  lemma DropKeepsCached(sys: Sys, id: nat, env: Env, key: Key)
    requires Consistent(sys) && id in sys.txs && key in sys.ep.finished && key in sys.ep.cleanups
    ensures SameCached(sys.ep, DoCleanup(At(sys, id), env).ep, key)
  {
    hide Consistent, DoCleanup, TablesStep;
    CachedIsNotLive(sys, key);
    if !sys.txs[id].cleanedUp {
      CleanupTables(At(sys, id), env);
      EndKeepsCached(At(sys, id), DoCleanup(At(sys, id), env), env.now, key);
    } else {
      DropDeadEp(At(sys, id), env);
    }
  }

  lemma StepKeepsCached(sys: Sys, e: Event, key: Key)
    requires Consistent(sys) && Possible(sys, e) && key in sys.ep.finished && key in sys.ep.cleanups
    requires !(e.FireCleanup? && e.key == key)
    ensures SameCached(sys.ep, Step(sys, e).ep, key)
  {
    if IsCall(e) {
      hide Consistent, Possible, Step;
      CallKeepsCached(sys, e, key);
    } else {
      hide Consistent, DoCleanup, Route, RunCleanup, System.Earliest, RoutesStep;
      if e.Drop? {
        DropKeepsCached(sys, e.id, e.env, key);
      } else if e.Incoming? {
        RouteEp(sys.ep, e.msg, e.from, e.env.sendOk);
      } else if e.FireCleanup? {
        CleanupEp(sys.ep, e.key);
      }
    }
  }

  /** The cleanup timer of `key` is not among these events. */
  ghost predicate NotCleaned(es: seq<Event>, key: Key) {
    forall i :: 0 <= i < |es| ==> !(es[i].FireCleanup? && es[i].key == key)
  }

  /** Until its cleanup timer fires, however late, a cached message stays as it is. */
  lemma {:induction false} CacheLasts(sys: Sys, es: seq<Event>, key: Key)
    requires Consistent(sys) && Run(sys, es) && key in sys.ep.finished && key in sys.ep.cleanups
    requires NotCleaned(es, key)
    ensures Consistent(After(sys, es)) && SameCached(sys.ep, After(sys, es).ep, key)
    decreases |es|
  {
    if es != [] {
      StepKeepsCached(sys, es[0], key);
      StepConsistent(sys, es[0]);
      hide Consistent, Step, Possible;
      CacheLasts(Step(sys, es[0]), es[1..], key);
    }
  }

  ghost predicate AllBefore(es: seq<Event>, time: nat) {
    forall i :: 0 <= i < |es| ==> TimeOf(es[i]) < time
  }

  /** It does not fire before it is due: for 64*T1 the message is there. */
  lemma {:induction false} NotCleanedBefore(sys: Sys, es: seq<Event>, key: Key)
    requires Consistent(sys) && Run(sys, es) && key in sys.ep.finished && key in sys.ep.cleanups
    requires AllBefore(es, sys.ep.cleanups[key])
    ensures NotCleaned(es, key)
    decreases |es|
  {
    if es != [] {
      assert !(es[0].FireCleanup? && es[0].key == key) by { hide Step, Consistent, System.Earliest; }
      StepKeepsCached(sys, es[0], key);
      StepConsistent(sys, es[0]);
      hide Consistent, Step, Possible;
      NotCleanedBefore(Step(sys, es[0]), es[1..], key);
    }
  }

  // ---- A request is handed up once ----------------------------------------------------

  /** A server transaction hands up nothing but ACK and CANCEL: the request itself went up when it was made. */
  lemma ServerHandsUp(s: TE, r: Request, conn: Option<Conn>, env: Env)
    ensures var up := OnRequest(s, r, conn, env).up;
            up.Some? ==> up == Some(Req(r)) && (r.verb == Ack || r.verb == Cancel)
  {
    hide Transition, DoRespond, MakeResponse;
  }

  /** ACK and CANCEL never start a transaction; nor does a request whose transaction lives or is cached. */
  lemma NoSecondTransaction(sys: Sys, r: Request, conn: Conn, env: Env)
    requires Consistent(sys) && Possible(sys, Incoming(Req(r), conn, env))
    requires r.verb == Ack || r.verb == Cancel
             || (RequestKey(r, Server).Some? && (RequestKey(r, Server).value in sys.ep.table || RequestKey(r, Server).value in sys.ep.finished))
    ensures Step(sys, Incoming(Req(r), conn, env)).txs.Keys == sys.txs.Keys
    ensures Step(sys, Incoming(Req(r), conn, env)).ep.table == sys.ep.table
  {
    RouteAction(sys.ep, Req(r), conn, env.sendOk);
    RouteEp(sys.ep, Req(r), conn, env.sendOk);
    hide Consistent, Route, RoutesStep, TargetKey, RequestKey;
  }

  /** What a cached transaction does with a retransmitted request: it answers again, and nobody sees it. */
  lemma AnsweredFromCache(sys: Sys, r: Request, conn: Conn, env: Env, key: Key)
    requires Possible(sys, Incoming(Req(r), conn, env)) && RequestKey(r, Server) == Some(key)
    requires r.verb != Ack && key in sys.ep.finished
    ensures var sys' := Step(sys, Incoming(Req(r), conn, env));
            && sys'.txs == sys.txs && sys'.next == sys.next
            && sys'.ep.wire == sys.ep.wire + (if env.sendOk then [sys.ep.finished[key]] else [])
  {
    hide RequestKey, RequestDialog;
  }

  /** The response a server transaction holds when event `e` ends it: the one it is told to send, or
      the last one it has. */
  function LastAnswer(tx: Tx, e: Event): Option<Response> {
    if e.CallRespond? then Some(e.response)
    else if e.CallReceive? && tx.queue != [] && tx.queue[0].Respond? then Some(tx.queue[0].response)
    else tx.lastResponse
  }

  /** Transaction `id` lives before `e` and has ended after it. */
  ghost predicate EndsBy(sys: Sys, e: Event, id: nat)
    requires Possible(sys, e)
  {
    id in sys.txs && !sys.txs[id].cleanedUp
    && ((IsCall(e) && e.id == id && Step(sys, e).txs[id].cleanedUp) || (e.Drop? && e.id == id))
  }

  /** `ep` with the answer cached, and its cleanup armed. */
  predicate Keeps(ep: Ep, ep': Ep, key: Key, answer: Option<Response>, now: nat) {
    answer.Some? ==>
      && key in ep'.finished && ep'.finished[key] == Resp(answer.value)
      && key in ep'.cleanups && ep'.cleanups[key] == now + ep.opt.t1x64
  }

  lemma DropKeeps(s: TE, env: Env)
    requires !s.tx.cleanedUp && !IsClient(s.tx.kind)
    ensures Keeps(s.ep, DoCleanup(s, env).ep, s.tx.key, s.tx.lastResponse, env.now)
  {
    DoCleanupFacts(s, env);
    hide DoCleanup;
  }

  lemma MoveKeeps(s: TE, target: State, env: Env)
    requires !s.tx.cleanedUp && !IsClient(s.tx.kind)
    ensures Transition(s, target, env).s.tx.cleanedUp ==>
              Keeps(s.ep, Transition(s, target, env).s.ep, s.tx.key, s.tx.lastResponse, env.now)
  {
    if target.Terminated? {
      DropKeeps(s, env);
      hide DoCleanup;
    } else {
      TransitionFacts(s, target, env);
      hide Transition;
    }
  }

  lemma RespondKeeps(s: TE, r: Response, env: Env)
    requires !s.tx.cleanedUp && !IsClient(s.tx.kind)
    ensures DoRespond(s, r, env).s.tx.cleanedUp ==> Keeps(s.ep, DoRespond(s, r, env).s.ep, s.tx.key, Some(r), env.now)
  {
    hide Transition, CanTransition;
    var s1 := s.(tx := s.tx.(lastResponse := Some(r)));
    MoveKeeps(WriteMsg(s1, Resp(r), true), RespondState(s.tx.kind, r), env);
  }

  lemma OnRequestKeeps(s0: TE, r: Request, conn: Option<Conn>, env: Env)
    requires !s0.tx.cleanedUp && !IsClient(s0.tx.kind)
    ensures var s' := OnRequest(s0, r, conn, env).s;
            s'.tx.cleanedUp ==> Keeps(s0.ep, s'.ep, s0.tx.key, s0.tx.lastResponse, env.now)
  {
    hide Transition, DoRespond, OnCancel, Keeps;
    var s := if s0.tx.conn.None? then s0.(tx := s0.tx.(conn := conn)) else s0;
    OnCancelKeeps(s, r, env);
    MoveKeeps(s, Confirmed, env);
    MoveKeeps(s, Terminated, env);
    if s.tx.lastResponse.Some? { RespondKeeps(s, s.tx.lastResponse.value, env); }
  }

  lemma OnTimerKeeps(s: TE, t: TxTimer, env: Env)
    requires !s.tx.cleanedUp && !IsClient(s.tx.kind)
    ensures OnTimer(s, t, env).tx.cleanedUp ==> Keeps(s.ep, OnTimer(s, t, env).ep, s.tx.key, s.tx.lastResponse, env.now)
  {
    hide Transition, TimersOf, Keeps;
    MoveKeeps(s, Terminated, env);
  }

  lemma ReceiveKeeps(s: TE, env: Env)
    requires !s.tx.cleanedUp && !IsClient(s.tx.kind) && s.tx.queue != []
    ensures var answer := if s.tx.queue[0].Respond? then Some(s.tx.queue[0].response) else s.tx.lastResponse;
            Receive(s, env).tx.cleanedUp ==> Keeps(s.ep, Receive(s, env).ep, s.tx.key, answer, env.now)
  {
    hide OnRequest, OnTimer, DoRespond, OnForwarded2xx, Keeps, CanTransition, Transition, SendAck;
    var p := Pop(s);
    match s.tx.queue[0]
    case Received(msg, conn) => if msg.Req? { OnRequestKeeps(p, msg.request, conn, env); }
    case Fired(t) => OnTimerKeeps(p, t, env);
    case Respond(r) => RespondKeeps(p, r, env);
    case Terminate(_) =>
  }

  /** A server transaction of any kind that ends holding a response leaves exactly that response
      behind, for 64*T1. */
  lemma AnswerLeftBehind(sys: Sys, e: Event, id: nat)
    requires Consistent(sys) && Possible(sys, e) && EndsBy(sys, e, id) && !IsClient(sys.txs[id].kind)
    ensures Keeps(sys.ep, Step(sys, e).ep, sys.txs[id].key, LastAnswer(sys.txs[id], e), TimeOf(e))
  {
    hide Consistent, System.Earliest, Answers, Send, Receive, DoRespond, SendAck, DoCleanup, Keeps;
    var s := At(sys, id);
    match e
    case CallSend(_, env) => NoClient(s, None, env);
    case CallReceive(_, env) => ReceiveKeeps(s, env);
    case CallRespond(_, r, env) => RespondKeeps(s, r, env);
    case CallSendAck(_, conn, env) => NoClient(s, conn, env);
    case Drop(_, env) => DropKeeps(s, env);
    case _ =>
  }

  lemma NoClient(s: TE, conn: Option<Conn>, env: Env)
    requires !IsClient(s.tx.kind)
    ensures Send(s, env).s == s && SendAck(s, conn, env).s == s
  {
    hide Transition;
  }

  /** At most once, on every run: from the event that ends a server transaction of any kind to the
      event that cleans its key up, no request with its key creates a transaction or goes up; each is
      answered with the last response, octet for octet. */
  lemma AtMostOnceUpward(opt: EndpointOption, es: seq<Event>, e: Event, later: seq<Event>, id: nat, answer: Response,
                         r: Request, conn: Conn, env: Env)
    requires Run(Start(opt), es) && Possible(After(Start(opt), es), e) && Run(Step(After(Start(opt), es), e), later)
    requires var sys := After(Start(opt), es);
             && EndsBy(sys, e, id) && !IsClient(sys.txs[id].kind) && LastAnswer(sys.txs[id], e) == Some(answer)
             && NotCleaned(later, sys.txs[id].key)
             && RequestKey(r, Server) == Some(sys.txs[id].key) && r.verb != Ack
             && Possible(After(Step(sys, e), later), Incoming(Req(r), conn, env))
    ensures var late := After(Step(After(Start(opt), es), e), later);
            var sys' := Step(late, Incoming(Req(r), conn, env));
            && sys'.txs == late.txs && sys'.next == late.next
            && sys'.ep.wire == late.ep.wire + (if env.sendOk then [Resp(answer)] else [])
  {
    hide Run, Step, Possible, Consistent, EndsBy, LastAnswer, RequestKey;
    StartConsistent(opt);
    RunConsistent(Start(opt), es);
    var sys := After(Start(opt), es);
    EndedIn(sys, e, id);
    StepConsistent(sys, e);
    AnswerLeftBehind(sys, e, id);
    AnsweredLate(Step(sys, e), later, sys.txs[id].key, r, conn, env);
  }

  lemma EndedIn(sys: Sys, e: Event, id: nat)
    requires Possible(sys, e) && EndsBy(sys, e, id)
    ensures id in sys.txs
  {
  }

  lemma AnsweredLate(sys: Sys, es: seq<Event>, key: Key, r: Request, conn: Conn, env: Env)
    requires Consistent(sys) && Run(sys, es) && key in sys.ep.finished && key in sys.ep.cleanups
    requires NotCleaned(es, key) && RequestKey(r, Server) == Some(key) && r.verb != Ack
    requires Possible(After(sys, es), Incoming(Req(r), conn, env))
    ensures var late := After(sys, es);
            var sys' := Step(late, Incoming(Req(r), conn, env));
            && sys'.txs == late.txs && sys'.next == late.next
            && sys'.ep.wire == late.ep.wire + (if env.sendOk then [sys.ep.finished[key]] else [])
  {
    CacheLasts(sys, es, key);
    hide Consistent, Step, Possible, RequestKey;
    AnsweredFromCache(After(sys, es), r, conn, env, key);
  }

  /** In particular for 64*T1: the cleanup is not among events before it is due. */
  lemma AtMostOnceFor64T1(sys: Sys, e: Event, later: seq<Event>, id: nat, answer: Response)
    requires Consistent(sys) && Possible(sys, e) && EndsBy(sys, e, id) && !IsClient(sys.txs[id].kind)
    requires LastAnswer(sys.txs[id], e) == Some(answer) && Run(Step(sys, e), later)
    requires AllBefore(later, TimeOf(e) + sys.ep.opt.t1x64)
    ensures NotCleaned(later, sys.txs[id].key)
  {
    hide Run, Step, Possible, Consistent, EndsBy, LastAnswer;
    EndedIn(sys, e, id);
    StepConsistent(sys, e);
    AnswerLeftBehind(sys, e, id);
    NotCleanedBefore(Step(sys, e), later, sys.txs[id].key);
  }

  // ---- Client: the Completed state of RFC 3261 section 17.1.1.2 -------------------------------

  /** The state machine the RFC describes: in Completed it acknowledges every
      retransmitted final, hands none up, and ends when Timer D fires. */
  datatype Rfc = RfcCompleted(ack: Request, timerD: nat) | RfcTerminated

  datatype RfcEvent = FinalAgain(response: Response, sendOk: bool) | TimerDFires | Other

  function RfcStep(q: Rfc, e: RfcEvent): (Rfc, seq<SipMessage>) {
    match e
    case FinalAgain(r, sendOk) =>
      if q.RfcCompleted? && sendOk then (q, [Req(ReplayedAck(q.ack, r))]) else (q, [])
    case TimerDFires => (RfcTerminated, [])
    case Other => (q, [])
  }

  /** How the endpoint represents it, for the client transaction `key`. */
  function RfcOf(sys: Sys, key: Key): Rfc {
    if key in sys.ep.finished && sys.ep.finished[key].Req? && key in sys.ep.cleanups
    then RfcCompleted(sys.ep.finished[key].request, sys.ep.cleanups[key])
    else RfcTerminated
  }

  /** Which of its events a step is. */
  function RfcView(e: Event, key: Key): RfcEvent {
    if e.Incoming? && e.msg.Resp? && ResponseKey(e.msg.response, Client) == Some(key) && !Provisional(e.msg.response)
       && !(Successful(e.msg.response) && MultipleVias(e.msg.response))
    then FinalAgain(e.msg.response, e.env.sendOk)
    else if e.FireCleanup? && e.key == key then TimerDFires
    else Other
  }

  /** Every step of the endpoint is a step of the RFC's Completed state: retransmitted
      finals are acknowledged and seen by no transaction until Timer D fires, however late. */
  lemma CompletedRefines(sys: Sys, e: Event, key: Key)
    requires Consistent(sys) && Possible(sys, e)
    requires key in sys.ep.finished && sys.ep.finished[key].Req? && sys.ep.finished[key].request.verb == Ack
    ensures var (q, sent) := RfcStep(RfcOf(sys, key), RfcView(e, key));
            && RfcOf(Step(sys, e), key) == q
            && (RfcView(e, key).FinalAgain? ==> Step(sys, e).txs == sys.txs && Step(sys, e).ep.wire == sys.ep.wire + sent)
  {
    hide Consistent, Possible, Step, ResponseKey, ReplayedAck;
    CachedIsNotLive(sys, key);
    if e.FireCleanup? && e.key == key {
      TimerDEnds(sys, key, e.at);
    } else {
      StepKeepsCached(sys, e, key);
      if RfcView(e, key).FinalAgain? { ReplaysAck(sys, e.msg.response, e.from, e.env, key); }
    }
  }

  lemma TimerDEnds(sys: Sys, key: Key, at: nat)
    requires Possible(sys, FireCleanup(key, at))
    ensures RfcOf(Step(sys, FireCleanup(key, at)), key) == RfcTerminated
  {
    CleanupEp(sys.ep, key);
    hide RunCleanup, System.Earliest;
  }

  lemma ReplaysAck(sys: Sys, r: Response, conn: Conn, env: Env, key: Key)
    requires Possible(sys, Incoming(Resp(r), conn, env)) && ResponseKey(r, Client) == Some(key)
    requires key in sys.ep.finished && sys.ep.finished[key].Req? && sys.ep.finished[key].request.verb == Ack
    requires !Provisional(r) && !(Successful(r) && MultipleVias(r))
    ensures var sys' := Step(sys, Incoming(Resp(r), conn, env));
            && sys'.txs == sys.txs
            && sys'.ep.wire == sys.ep.wire + (if env.sendOk then [Req(ReplayedAck(sys.ep.finished[key].request, r))] else [])
  {
    hide ResponseKey, ReplayedAck;
  }

  /** And a run of them, until Timer D. */
  lemma AcknowledgedUntilTimerD(sys: Sys, es: seq<Event>, key: Key, r: Response, conn: Conn, env: Env)
    requires Consistent(sys) && Run(sys, es)
    requires key in sys.ep.finished && sys.ep.finished[key].Req? && sys.ep.finished[key].request.verb == Ack
    requires key in sys.ep.cleanups && NotCleaned(es, key)
    requires Possible(After(sys, es), Incoming(Resp(r), conn, env)) && ResponseKey(r, Client) == Some(key)
    requires !Provisional(r) && !Successful(r)
    ensures var late := After(sys, es);
            var sys' := Step(late, Incoming(Resp(r), conn, env));
            && sys'.txs == late.txs
            && sys'.ep.wire == late.ep.wire + (if env.sendOk then [Req(ReplayedAck(sys.ep.finished[key].request, r))] else [])
  {
    CacheLasts(sys, es, key);
    hide Consistent, Step, Possible, ResponseKey, ReplayedAck;
    ReplaysAck(After(sys, es), r, conn, env, key);
  }
}
