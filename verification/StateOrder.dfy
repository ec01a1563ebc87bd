/**
 States only move forward, and a transaction ends once.
 */
module StateOrder {
  import opened Prelude
  import opened SipMessages
  import opened TransactionKey
  import opened EndpointSpec
  import opened TransactionSpec
  import opened TransactionSanity
  import opened TransactionInvariant
  import opened NeverStuck
  import opened TableSteps
  import opened System
  import opened SystemSteps

  function Rank(state: State): nat {
    match state
    case Nothing => 0
    case Calling => 1
    case Trying => 2
    case Proceeding => 3
    case Accepted => 4
    case Completed => 4
    case Confirmed => 5
    case Terminated => 6
  }

  /** No move, or one the transition table allows. */
  predicate Forward(from: State, to: State) {
    from == to || CanTransition(from, to)
  }

  lemma ForwardRank(from: State, to: State)
    requires Forward(from, to)
    ensures Rank(from) <= Rank(to) && (Rank(from) == Rank(to) ==> from == to)
    ensures from.Terminated? ==> to.Terminated?
  {
  }

  lemma TransitionState(s: TE, target: State, env: Env)
    ensures var s' := Transition(s, target, env).s;
            s'.tx.state == s.tx.state || s'.tx.state == target
    ensures SameIdentity(s.tx, Transition(s, target, env).s.tx)
  {
    if target.Terminated? {
      hide Detach, LastMessage, ForgetRoutes;
      EndsIdentity(s, env);
    } else {
      TransitionFacts(s, target, env);
      hide Transition;
    }
  }

  lemma EndsIdentity(s: TE, env: Env)
    ensures SameIdentity(s.tx, DoCleanup(s, env).tx) && DoCleanup(s, env).tx.state == s.tx.state
  {
    hide Detach, LastMessage;
    if !s.tx.cleanedUp { DoCleanupFacts(s, env); }
  }

  lemma RespondForward(s: TE, r: Response, env: Env)
    ensures Forward(s.tx.state, DoRespond(s, r, env).s.tx.state)
  {
    hide Transition, CanTransition;
    TransitionState(WriteMsg(s.(tx := s.tx.(lastResponse := Some(r))), Resp(r), true), RespondState(s.tx.kind, r), env);
  }

  lemma OnRequestForward(s0: TE, r: Request, conn: Option<Conn>, env: Env)
    ensures Forward(s0.tx.state, OnRequest(s0, r, conn, env).s.tx.state)
  {
    var s := if s0.tx.conn.None? then s0.(tx := s0.tx.(conn := conn)) else s0;
    hide Transition, DoRespond, MakeResponse;
    TransitionState(s, Confirmed, env);
    TransitionState(s, Terminated, env);
    if s.tx.lastResponse.Some? { RespondForward(s, s.tx.lastResponse.value, env); }
  }

  lemma SendAckForward(s: TE, conn: Option<Conn>, env: Env)
    ensures SendAck(s, conn, env).s.tx.state == s.tx.state
            || (s.tx.state.Completed? && SendAck(s, conn, env).s.tx.state.Terminated?)
  {
    hide Transition, ChooseAck;
    var chosen := ChooseAck(s.tx, env.branch);
    if s.tx.state.Completed? && chosen.Some? {
      var s1 := PutAck(s, chosen.value, conn, env);
      TransitionState(s1, Terminated, env);
    }
  }

  lemma OnResponseForward(s: TE, r: Response, conn: Option<Conn>, env: Env)
    ensures Forward(s.tx.state, OnResponse(s, r, conn, env).s.tx.state)
  {
    hide Transition, SendAck, Duplicate;
    var target := ResponseState(s.tx.kind, r, s.ep.opt);
    var s0 := s.(tx := s.tx.(lastResponse := Some(r)));
    TransitionState(s, Accepted, env);
    TransitionState(s0, target, env);
    SendAckForward(Transition(s0, target, env).s, conn, env);
  }

  lemma OnTimerForward(s: TE, t: TxTimer, env: Env)
    ensures Forward(s.tx.state, OnTimer(s, t, env).tx.state)
  {
    hide Transition, TimersOf;
    TransitionState(s, Terminated, env);
  }

  lemma ReceiveForward(s: TE, env: Env)
    requires s.tx.queue != []
    ensures Forward(s.tx.state, Receive(s, env).tx.state)
  {
    var s1, e := Pop(s), s.tx.queue[0];
    hide OnRequest, OnResponse, OnTimer, DoRespond, Forward;
    match e
    case Received(msg, conn) =>
      match msg {
        case Req(req) => OnRequestForward(s1, req, conn, env);
        case Resp(resp) => OnResponseForward(s1, resp, conn, env);
      }
    case Fired(t) => OnTimerForward(s1, t, env);
    case Respond(r) => RespondForward(s1, r, env);
    case Terminate(_) => assert Forward(s1.tx.state, s1.tx.state) by { Same(s1.tx.state); }
  }

  lemma Same(state: State)
    ensures Forward(state, state)
  {
  }

  lemma SendForward(s: TE, env: Env)
    requires IsClient(s.tx.kind) ==> s.tx.state.Nothing? || s.tx.state.Calling?
    ensures Forward(s.tx.state, Send(s, env).s.tx.state)
  {
    hide Transition;
    TransitionState(Written(s, env), Calling, env);
  }

  // ---- Over the system -------------------------------------------------------------

  /** Each object that is still there moved forward, under the same identity. */
  ghost predicate Advanced(txs: map<nat, Tx>, txs': map<nat, Tx>) {
    forall id :: id in txs && id in txs' ==>
      && txs'[id].kind == txs[id].kind && txs'[id].key == txs[id].key && txs'[id].original == txs[id].original
      && Rank(txs[id].state) <= Rank(txs'[id].state)
      && (Rank(txs[id].state) == Rank(txs'[id].state) ==> txs'[id].state == txs[id].state)
      && (txs[id].cleanedUp ==> txs'[id].cleanedUp)
  }

  lemma CallForward(s: TE, e: Event)
    requires IsCall(e) && (e.CallReceive? ==> s.tx.queue != []) && (e.FireTimer? ==> e.slot in s.tx.pending)
    requires e.CallSend? && IsClient(s.tx.kind) ==> s.tx.state.Nothing? || s.tx.state.Calling?
    ensures Forward(s.tx.state, Called(s, e).tx.state)
  {
    Same(s.tx.state);
    hide Send, Receive, DoRespond, SendAck;
    match e
    case CallSend(_, env) => SendForward(s, env);
    case CallReceive(_, env) => ReceiveForward(s, env);
    case CallRespond(_, r, env) => RespondForward(s, r, env);
    case CallSendAck(_, conn, env) => SendAckForward(s, conn, env);
    case _ =>
  }

  lemma CallAdvances(sys: Sys, e: Event)
    requires Consistent(sys) && Possible(sys, e) && IsCall(e)
    ensures Step(sys, e).next == sys.next && Step(sys, e).txs.Keys == sys.txs.Keys
    ensures Advanced(sys.txs, Step(sys, e).txs)
  {
    hide Called, Consistent, Possible, Advanced;
    CallPossible(sys, e);
    var s := At(sys, e.id);
    HealthyAt(sys, e.id, TimeOf(e));
    CallForward(s, e);
    CallKeeps(s, e);
    PutAdvanced(sys, e.id, Called(s, e), TimeOf(e));
  }

  lemma CallPossible(sys: Sys, e: Event)
    requires Possible(sys, e) && IsCall(e)
    ensures e.id in sys.txs && sys.now <= TimeOf(e)
    ensures (e.CallReceive? ==> sys.txs[e.id].queue != []) && (e.FireTimer? ==> e.slot in sys.txs[e.id].pending)
    ensures e.CallSend? && IsClient(sys.txs[e.id].kind) ==> sys.txs[e.id].state.Nothing? || sys.txs[e.id].state.Calling?
    ensures e.CallReceive? && IsClient(sys.txs[e.id].kind) ==> !sys.txs[e.id].state.Nothing?
  {
    hide System.Earliest, Answers;
  }

  lemma PutAdvanced(sys: Sys, id: nat, s': TE, now: nat)
    requires id in sys.txs && SameIdentity(sys.txs[id], s'.tx)
    requires Forward(sys.txs[id].state, s'.tx.state)
    requires sys.txs[id].cleanedUp ==> s'.tx.cleanedUp
    ensures Advanced(sys.txs, Put(sys, id, s', now).txs)
  {
    ForwardRank(sys.txs[id].state, s'.tx.state);
    hide Forward, Rank;
  }

  lemma CallKeeps(s: TE, e: Event)
    requires IsCall(e) && (e.CallReceive? ==> s.tx.queue != []) && (e.FireTimer? ==> e.slot in s.tx.pending)
    requires s.tx.cleanedUp <==> s.tx.state.Terminated?
    ensures SameIdentity(s.tx, Called(s, e).tx) && (s.tx.cleanedUp ==> Called(s, e).tx.cleanedUp)
  {
    CallTables(s, e);
    hide RoutesStep, Called;
  }

  lemma IncomingAdvances(sys: Sys, msg: SipMessage, conn: Conn, env: Env)
    requires Consistent(sys) && Possible(sys, Incoming(msg, conn, env))
    ensures Advanced(sys.txs, StepIncoming(sys, msg, conn, env).txs)
    ensures sys.next <= StepIncoming(sys, msg, conn, env).next
    ensures forall id :: id in StepIncoming(sys, msg, conn, env).txs && id < sys.next ==> id in sys.txs
  {
    hide Consistent, Route, Rank;
    NextIsFree(sys);
  }

  lemma StepAdvances(sys: Sys, e: Event)
    requires Consistent(sys) && Possible(sys, e)
    ensures Advanced(sys.txs, Step(sys, e).txs)
    ensures sys.next <= Step(sys, e).next
    ensures forall id :: id in Step(sys, e).txs && id < sys.next ==> id in sys.txs
  {
    hide Consistent, DoCleanup, RunCleanup, Rank, StepIncoming, Called, System.Earliest;
    NextIsFree(sys);
    if IsCall(e) {
      CallAdvances(sys, e);
    } else if e.Incoming? {
      IncomingAdvances(sys, e.msg, e.from, e.env);
    }
  }

  /** On every run: states only move forward, Terminated is absorbing, `cleanup` happens
      once, exactly when the transaction terminates. */
  lemma {:induction false} RunAdvances(sys: Sys, es: seq<Event>)
    requires Consistent(sys) && Run(sys, es)
    ensures forall id :: id in sys.txs && id in After(sys, es).txs ==>
              var t, t' := sys.txs[id], After(sys, es).txs[id];
              && Rank(t.state) <= Rank(t'.state)
              && (Rank(t.state) == Rank(t'.state) ==> t'.state == t.state)
              && (t.state.Terminated? ==> t'.state.Terminated?)
              && (t'.cleanedUp <==> t'.state.Terminated?)
    ensures forall id :: id in After(sys, es).txs && id < sys.next ==> id in sys.txs
    decreases |es|
  {
    if es == [] {
      forall id | id in sys.txs ensures sys.txs[id].cleanedUp <==> sys.txs[id].state.Terminated? {
        HealthyAt(sys, id, sys.now);
      }
    } else {
      StepAdvances(sys, es[0]);
      StepConsistent(sys, es[0]);
      RunAdvances(Step(sys, es[0]), es[1..]);
      assert forall id :: id in sys.txs ==> id < sys.next by { assert TxsOk(sys); }
      hide Consistent, Step, Possible, Rank;
    }
  }

  /** Numbers are given out once. */
  lemma NextNumber(sys: Sys, e: Event)
    requires Consistent(sys) && Possible(sys, e)
    ensures sys.next <= Step(sys, e).next
    ensures forall id :: id in sys.txs ==> id < sys.next
  {
    StepAdvances(sys, e);
    hide Step, Healthy, TablesOk, RoutesOk, Possible, Advanced;
    assert TxsOk(sys);
  }
}
