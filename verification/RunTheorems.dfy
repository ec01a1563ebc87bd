/** What holds on every run of an endpoint, whatever users, network and clock do. */
module RunTheorems {
  import opened Prelude
  import opened SipMessages
  import opened TransactionKey
  import opened EndpointSpec
  import opened TransactionSpec
  import opened TransactionSanity
  import opened TimerDiscipline
  import opened Pacing
  import opened TransactionInvariant
  import opened NeverStuck
  import opened TableSteps
  import opened System
  import opened SystemSteps
  import opened StateOrder

  /** The state after a run from an empty endpoint. */
  ghost function Reached(opt: EndpointOption, es: seq<Event>): (sys: Sys)
    requires Run(Start(opt), es)
    ensures Consistent(sys)
  {
    StartConsistent(opt);
    RunConsistent(Start(opt), es);
    After(Start(opt), es)
  }

  lemma {:induction false} OptionsStay(sys: Sys, es: seq<Event>)
    requires Consistent(sys) && Run(sys, es)
    ensures After(sys, es).ep.opt == sys.ep.opt
    decreases |es|
  {
    if es != [] {
      StepConsistent(sys, es[0]);
      StepOptions(sys, es[0]);
      hide Consistent, Step, Possible;
      OptionsStay(Step(sys, es[0]), es[1..]);
    }
  }

  lemma StepOptions(sys: Sys, e: Event)
    requires Consistent(sys) && Possible(sys, e)
    ensures Step(sys, e).ep.opt == sys.ep.opt
  {
    hide Consistent, Called, DoCleanup, Route, RunCleanup, System.Earliest, Answers;
    if IsCall(e) {
      HealthyAt(sys, e.id, TimeOf(e));
      CallTables(At(sys, e.id), e);
      hide RoutesStep, LeftBehind;
    } else if e.Drop? {
      HealthyAt(sys, e.id, TimeOf(e));
      DropOptions(At(sys, e.id), e.env);
    } else if e.Incoming? {
      RouteEp(sys.ep, e.msg, e.from, e.env.sendOk);
    } else if e.FireCleanup? {
      CleanupEp(sys.ep, e.key);
    }
  }

  lemma DropOptions(s: TE, env: Env)
    ensures DoCleanup(s, env).ep.opt == s.ep.opt
  {
    if !s.tx.cleanedUp { CleanupTables(s, env); hide RoutesStep, LeftBehind, DoCleanup; }
  }

  // ---- Timers --------------------------------------------------------------------

  /** Each kind of timer has at most one instance, pending or in flight; a pending one is recorded
      in its `timer_x` field and belongs to the state; an ended transaction has none pending. */
  lemma TimersOwned(opt: EndpointOption, es: seq<Event>, id: nat)
    requires Run(Start(opt), es) && id in Reached(opt, es).txs
    ensures var tx := Reached(opt, es).txs[id];
            && !tx.log.clash
            && Distinct(FiredSlots(tx.queue)) && tx.pending.Keys * Flying(tx.queue) == {}
            && tx.pending.Keys <= tx.held
            && TimersOf(tx) <= MayHold(tx.state)
            && (tx.state.Terminated? || tx.cleanedUp ==> tx.pending == map[])
  {
    var sys := Reached(opt, es);
    HealthyAt(sys, id, sys.now);
    assert Disciplined(sys.txs[id]);
    hide Consistent;
  }

  /** Waiting states have the timer that ends them, or the local final response it caused. */
  lemma NobodyStuck(opt: EndpointOption, es: seq<Event>, id: nat)
    requires Run(Start(opt), es) && id in Reached(opt, es).txs
    ensures var tx := Reached(opt, es).txs[id];
            && (IsClient(tx.kind) && tx.state.Calling? ==> B in TimersOf(tx) || SyntheticQueued(tx.queue))
            && (tx.kind.ClientNonInvite? && (tx.state.Trying? || tx.state.Proceeding?) ==> B in TimersOf(tx) || SyntheticQueued(tx.queue))
            && (tx.kind.ClientInvite? && tx.state.Accepted? ==> M in TimersOf(tx))
            && (tx.kind.ServerInvite? && tx.state.Accepted? ==> L in TimersOf(tx))
            && (tx.kind.ServerInvite? && tx.state.Completed? ==> D in TimersOf(tx))
            && (tx.kind.ServerInvite? && tx.state.Confirmed? ==> K in TimersOf(tx))
  {
    var sys := Reached(opt, es);
    HealthyAt(sys, id, sys.now);
    hide Consistent, Inv, TimersOf, SyntheticQueued;
  }

  /** So once the wheel and the queues are drained, nobody is left in such a state. */
  lemma DrainedMeansDone(opt: EndpointOption, es: seq<Event>, id: nat)
    requires Run(Start(opt), es) && id in Reached(opt, es).txs
    requires Reached(opt, es).txs[id].pending == map[] && Reached(opt, es).txs[id].queue == []
    ensures var tx := Reached(opt, es).txs[id];
            match tx.kind
            case ClientInvite => tx.state.Nothing? || tx.state.Trying? || tx.state.Proceeding? || tx.state.Terminated?
            case ClientNonInvite => tx.state.Nothing? || tx.state.Terminated?
            case ServerInvite => tx.state.Trying? || tx.state.Proceeding? || tx.state.Terminated?
            case ServerNonInvite => tx.state.Trying? || tx.state.Proceeding? || tx.state.Terminated?
  {
    hide Consistent, Run, Healthy;
    var sys := Reached(opt, es);
    HealthyAt(sys, id, sys.now);
    DrainedAlive(sys.txs[id], sys.ep.opt, sys.now);
  }

  lemma DrainedAlive(tx: Tx, opt: EndpointOption, now: nat)
    requires Inv(tx, opt, now) && Alive(tx) && tx.pending == map[] && tx.queue == []
    ensures Guard(tx.kind, tx.state).None? && Reaches(tx.kind, tx.state) && (tx.kind.ClientInvite? ==> !tx.state.Completed?)
  {
    assert Sane(tx);
    hide Disciplined, Paced;
  }

  // ---- Retransmissions ---------------------------------------------------------------

  /** At most six Timer A events before Timer B (RFC 3261 section 17.1.1.2). */
  lemma RequestsBounded(opt: EndpointOption, es: seq<Event>, id: nat)
    requires Run(Start(opt), es) && id in Reached(opt, es).txs
    requires opt.t1 > 0 && opt.t1x64 == 64 * opt.t1
    ensures var tx := Reached(opt, es).txs[id];
            IsClient(tx.kind) && B in TimersOf(tx) ==> tx.log.resentRequests <= 6
  {
    var sys := Reached(opt, es);
    var tx := sys.txs[id];
    StartConsistent(opt);
    OptionsStay(Start(opt), es);
    HealthyAt(sys, id, sys.now);
    if IsClient(tx.kind) && B in TimersOf(tx) && tx.log.resentRequests > 0 {
      assert Running(tx.pending, tx.queue, B);
      AtMostSixA(tx.log.resentRequests, opt.t1);
    }
    hide Consistent, Sane, Disciplined, Pacing.Earliest, Flying;
  }

  /** With T2 = 8*T1, at most ten retransmissions of a final response. */
  lemma ResponsesBounded(opt: EndpointOption, es: seq<Event>, id: nat)
    requires Run(Start(opt), es) && id in Reached(opt, es).txs
    requires opt.t1 > 0 && opt.t1x64 == 64 * opt.t1 && opt.t2 == 8 * opt.t1
    ensures var tx := Reached(opt, es).txs[id];
            tx.kind.ServerInvite? ==> tx.log.resentResponses <= 10
  {
    var sys := Reached(opt, es);
    var tx := sys.txs[id];
    StartConsistent(opt);
    OptionsStay(Start(opt), es);
    HealthyAt(sys, id, sys.now);
    if tx.kind.ServerInvite? && tx.log.resentResponses > 0 {
      AtMostTenG(tx.log.resentResponses, opt.t1);
    }
    hide Consistent, Sane, Disciplined, Pacing.Earliest, Series;
  }

  // ---- Tables --------------------------------------------------------------------------

  /** Every cached message has its cleanup timer, every ACK route a live answered
      INVITE or a cached message; so nothing outlives the transactions and the wheel. */
  lemma TablesAnchored(opt: EndpointOption, es: seq<Event>)
    requires Run(Start(opt), es)
    ensures var sys := Reached(opt, es);
            && sys.ep.finished.Keys == sys.ep.cleanups.Keys
            && (forall key :: key in sys.ep.table <==> exists id :: Owns(sys, id, key))
            && (forall d :: d in sys.ep.waitingAck ==> Routed1(sys, sys.ep.waitingAck[d]))
            && (forall d :: d in sys.ep.waitingAckCseq ==> Routed1(sys, sys.ep.waitingAckCseq[d]))
  {
    var sys := Reached(opt, es);
    forall key | key in sys.ep.table ensures exists id :: Owns(sys, id, key) {
      var id :| id in sys.txs && !sys.txs[id].cleanedUp && sys.txs[id].key == key;
      assert Owns(sys, id, key);
    }
    forall key, id | Owns(sys, id, key) ensures key in sys.ep.table { assert key in LiveKeys(sys.txs); }
    forall key | key in Anchors(sys) ensures Routed1(sys, key) {
      if key !in sys.ep.finished {
        var id :| id in sys.txs && Awaits(sys.txs[id]) && sys.txs[id].key == key;
        assert Owns(sys, id, key);
      }
    }
    hide Anchors, LiveKeys, TxsOk;
  }

  /** A live server INVITE that answered, or a cached message with its cleanup pending. */
  ghost predicate Routed1(sys: Sys, key: Key) {
    (key in sys.ep.finished && key in sys.ep.cleanups)
    || exists id :: Owns(sys, id, key) && sys.txs[id].kind.ServerInvite? && sys.txs[id].lastResponse.Some?
  }

  lemma NothingLeaks(opt: EndpointOption, es: seq<Event>)
    requires Run(Start(opt), es)
    requires forall id :: id in Reached(opt, es).txs ==> Reached(opt, es).txs[id].cleanedUp
    requires Reached(opt, es).ep.cleanups == map[]
    ensures var ep := Reached(opt, es).ep;
            ep.table == {} && ep.finished == map[] && ep.waitingAck == map[] && ep.waitingAckCseq == map[]
  {
    var sys := Reached(opt, es);
    assert Anchors(sys) == {};
    hide InviteKey, TxsOk;
  }

  // ---- A transaction is detached once ------------------------------------------------------

  /** Event `e` takes the key of the live transaction `id` out of the table. */
  ghost predicate Detaches(sys: Sys, e: Event, id: nat) {
    && Possible(sys, e) && id in sys.txs && !sys.txs[id].cleanedUp
    && sys.txs[id].key in sys.ep.table && sys.txs[id].key !in Step(sys, e).ep.table
  }

  ghost function Detachings(sys: Sys, es: seq<Event>, id: nat): nat
    requires Run(sys, es)
    decreases |es|
  {
    if es == [] then 0 else (if Detaches(sys, es[0], id) then 1 else 0) + Detachings(Step(sys, es[0]), es[1..], id)
  }

  /** It was dropped, or has been cleaned up. */
  predicate Over(sys: Sys, id: nat) { id !in sys.txs || sys.txs[id].cleanedUp }

  /** A live transaction is over after a step exactly when the step detached it. */
  lemma DetachedWhenOver(sys: Sys, e: Event, id: nat)
    requires Consistent(sys) && Possible(sys, e) && !Over(sys, id)
    ensures Detaches(sys, e, id) <==> Over(Step(sys, e), id)
  {
    hide Consistent, Called, DoCleanup, StepIncoming, RunCleanup, System.Earliest, RoutesStep, LeftBehind, EndedTables;
    LiveInTable(sys, id);
    NextIsFree(sys);
    if IsCall(e) {
      CallPossible(sys, e);
      HealthyAt(sys, e.id, TimeOf(e));
      CallDetaches(sys, e, id);
    } else if e.Drop? {
      DropDetaches(sys, e.id, e.env, id);
    } else if e.Incoming? {
      IncomingDetaches(sys, e.msg, e.from, e.env, id);
    } else if e.FireCleanup? {
      CleanupEp(sys.ep, e.key);
      CleanupNotLive(sys, e.key, id);
    }
    hide Inv, Alive;
  }

  lemma LiveInTable(sys: Sys, id: nat)
    requires Consistent(sys) && id in sys.txs && !sys.txs[id].cleanedUp
    ensures sys.txs[id].key in sys.ep.table
    ensures forall j :: j in sys.txs && j != id && !sys.txs[j].cleanedUp ==> sys.txs[j].key != sys.txs[id].key
  {
    hide TxsOk, RoutesOk;
    assert sys.txs[id].key in LiveKeys(sys.txs);
  }

  lemma CleanupNotLive(sys: Sys, key: Key, id: nat)
    requires Consistent(sys) && key in sys.ep.cleanups && id in sys.txs && !sys.txs[id].cleanedUp
    ensures sys.txs[id].key != key
  {
    hide TxsOk, RoutesOk;
    assert key in sys.ep.finished.Keys;
    assert key !in sys.ep.finished.Keys * sys.ep.table;
    LiveInTable(sys, id);
  }

  lemma CallDetaches(sys: Sys, e: Event, id: nat)
    requires Consistent(sys) && Possible(sys, e) && IsCall(e) && !Over(sys, id) && e.id in sys.txs
    requires (e.CallReceive? ==> sys.txs[e.id].queue != []) && (e.FireTimer? ==> e.slot in sys.txs[e.id].pending)
    requires sys.txs[e.id].cleanedUp <==> sys.txs[e.id].state.Terminated?
    ensures sys.txs[id].key !in Step(sys, e).ep.table <==> Over(Step(sys, e), id)
  {
    hide Consistent, Called, RoutesStep, LeftBehind, System.Earliest, Answers;
    LiveInTable(sys, id);
    var s, s' := At(sys, e.id), Called(At(sys, e.id), e);
    CallTables(s, e);
    if e.id != id && s'.tx.cleanedUp != s.tx.cleanedUp { assert s.tx.key != sys.txs[id].key; }
  }

  lemma DropDetaches(sys: Sys, j: nat, env: Env, id: nat)
    requires Consistent(sys) && j in sys.txs && !Over(sys, id)
    ensures sys.txs[id].key !in DoCleanup(At(sys, j), env).ep.table <==> j == id
  {
    hide Consistent, DoCleanup, RoutesStep, LeftBehind;
    LiveInTable(sys, id);
    if !sys.txs[j].cleanedUp {
      CleanupTables(At(sys, j), env);
      DoCleanupFacts(At(sys, j), env);
    } else {
      DropDeadEp(At(sys, j), env);
    }
  }

  lemma IncomingDetaches(sys: Sys, msg: SipMessage, conn: Conn, env: Env, id: nat)
    requires Consistent(sys) && Possible(sys, Incoming(msg, conn, env)) && !Over(sys, id)
    ensures sys.txs[id].key in StepIncoming(sys, msg, conn, env).ep.table && !Over(StepIncoming(sys, msg, conn, env), id)
  {
    hide Consistent, Route, RoutesStep;
    NextIsFree(sys);
    LiveInTable(sys, id);
    RouteEp(sys.ep, msg, conn, env.sendOk);
  }

  lemma OverStays(sys: Sys, e: Event, id: nat)
    requires Consistent(sys) && Possible(sys, e) && Over(sys, id) && id < sys.next
    ensures Over(Step(sys, e), id) && !Detaches(sys, e, id)
  {
    StepAdvances(sys, e);
    hide Consistent, Possible, Step, Forward;
  }

  /** On every run a transaction is detached at most once, and exactly once when it is over at the end. */
  lemma {:induction false} DetachedOnce(sys: Sys, es: seq<Event>, id: nat)
    requires Consistent(sys) && Run(sys, es) && id < sys.next
    ensures Detachings(sys, es, id) == if !Over(sys, id) && Over(After(sys, es), id) then 1 else 0
    decreases |es|
  {
    hide Consistent, Possible, Step, Detaches, Over;
    if es != [] {
      StepConsistent(sys, es[0]);
      NextNumber(sys, es[0]);
      DetachedOnce(Step(sys, es[0]), es[1..], id);
      if Over(sys, id) { OverStays(sys, es[0], id); StaysOver(sys, es, id); } else { DetachedWhenOver(sys, es[0], id); StaysOver(sys, es, id); }
    }
  }

  lemma {:induction false} StaysOver(sys: Sys, es: seq<Event>, id: nat)
    requires Consistent(sys) && Run(sys, es) && es != [] && id < sys.next
    ensures Over(Step(sys, es[0]), id) ==> Over(After(sys, es), id)
    decreases |es|
  {
    hide Consistent, Possible, Step, Over;
    var next := Step(sys, es[0]);
    StepConsistent(sys, es[0]);
    NextNumber(sys, es[0]);
    if |es| > 1 && Over(next, id) {
      OverStays(next, es[1], id);
      StaysOver(next, es[1..], id);
      assert After(next, es[1..]) == After(sys, es);
    }
  }
}
