/** On every run, all the final answers an endpoint writes to one INVITE have one class. */
module OneAnswer {
  import opened Prelude
  import opened SipMessages
  import opened TransactionKey
  import opened EndpointSpec
  import opened TransactionSpec
  import opened TransactionSanity
  import opened TransactionInvariant
  import opened NeverStuck
  import opened TableSteps
  import opened StateOrder
  import opened System
  import opened SystemSteps
  import opened LateMessages
  import opened ServerAnswers

  /** A second transaction for an INVITE that was answered: possible only after 64*T1. */
  ghost predicate Reborn(sys: Sys, e: Event, key: Key) {
    && e.Incoming?
    && var action := Route(sys.ep, e.msg, e.from, e.env.sendOk).action;
       action.NewServer? && action.key == key && exists m :: m in sys.ep.wire && AnswerTo(m, key)
  }

  // ---- Steps of one transaction --------------------------------------------------------------

  /** What is on the wire after the step: an old message, or one this transaction may write. */
  lemma OldOrNew(s: TE, s': TE, m: SipMessage)
    requires Writes(s, s') && m in s'.ep.wire
    ensures m in s.ep.wire || OkWrite(s'.tx, m)
  {
    var i :| 0 <= i < |s'.ep.wire| && s'.ep.wire[i] == m;
    if i < |s.ep.wire| { assert s.ep.wire[i] == m; }
  }

  lemma AnswerAgrees(sys: Sys, id: nat, s': TE, sys': Sys, key: Key, m: SipMessage)
    requires TxStep(sys, id, s', sys') && Writes(At(sys, id), s') && Forward(sys.txs[id].state, s'.tx.state)
    requires id !in sys'.txs ==> s'.ep.wire == sys.ep.wire
    requires OneClass(sys, key) && m in s'.ep.wire && AnswerTo(m, key)
    ensures Agrees(sys', key, Successful(m.response))
    ensures m !in sys.ep.wire ==> Owns(sys', id, key)
  {
    OldOrNew(At(sys, id), s', m);
    if m in sys.ep.wire {
      hide TxStep, Agrees, AnswerTo;
      OldAnswer(sys, id, s', sys', key, m);
    } else {
      NewAnswer(sys, id, s', sys', m);
      HealthyAt(sys', id, sys'.now);
      hide Consistent, Agrees, Inv, Alive, Leaves;
    }
  }

  lemma TxStepEp(sys: Sys, id: nat, s': TE, sys': Sys)
    requires TxStep(sys, id, s', sys')
    ensures sys'.ep == s'.ep
  {
    hide Consistent;
  }

  lemma BothAgree(sys: Sys, id: nat, s': TE, sys': Sys, key: Key, m: SipMessage, n: SipMessage)
    requires TxStep(sys, id, s', sys') && Writes(At(sys, id), s') && Forward(sys.txs[id].state, s'.tx.state)
    requires id !in sys'.txs ==> s'.ep.wire == sys.ep.wire
    requires OneClass(sys, key) && m in s'.ep.wire && n in s'.ep.wire && AnswerTo(m, key) && AnswerTo(n, key)
    ensures Successful(m.response) == Successful(n.response)
  {
    hide TxStep, Writes, Forward;
    AnswerAgrees(sys, id, s', sys', key, m);
    AnswerAgrees(sys, id, s', sys', key, n);
    if m !in sys.ep.wire || n !in sys.ep.wire {
      assert Owns(sys', id, key);
    }
  }

  lemma TxStepOneClass(sys: Sys, id: nat, s': TE, sys': Sys, key: Key)
    requires TxStep(sys, id, s', sys') && Writes(At(sys, id), s') && Forward(sys.txs[id].state, s'.tx.state)
    requires id !in sys'.txs ==> s'.ep.wire == sys.ep.wire
    requires OneClass(sys, key)
    ensures OneClass(sys', key)
  {
    hide TxStep, Writes, Forward, Agrees;
    TxStepEp(sys, id, s', sys');
    forall m | m in s'.ep.wire && AnswerTo(m, key) ensures Agrees(sys', key, Successful(m.response)) {
      AnswerAgrees(sys, id, s', sys', key, m);
    }
    forall m, n | m in s'.ep.wire && n in s'.ep.wire && AnswerTo(m, key) && AnswerTo(n, key)
      ensures Successful(m.response) == Successful(n.response)
    {
      BothAgree(sys, id, s', sys', key, m, n);
    }
  }

  lemma TxStepCache(sys: Sys, id: nat, s': TE, sys': Sys)
    requires TxStep(sys, id, s', sys') && CacheOk(sys)
    ensures CacheOk(sys')
  {
    HealthyAt(sys, id, sys.now);
    var tx := sys.txs[id];
    assert tx.kind.ServerInvite? ==> tx.original.verb == Invite;
    forall k | k in sys'.ep.finished && FinalToInvite(sys'.ep.finished[k]) ensures AnswerTo(sys'.ep.finished[k], k) {
      if k == tx.key && s'.tx.cleanedUp && !tx.cleanedUp {
        if tx.kind.ServerInvite? { AnswersItsKey(tx, sys'.ep.finished[k].response); }
      } else {
        assert sys'.ep.finished[k] == sys.ep.finished[k];
      }
    }
    hide Consistent, Inv, Alive, ResponseKey;
  }

  lemma EndedFinished(s: TE, s': TE, now: nat)
    requires TablesStep(s, s', now)
    ensures forall k :: k in s'.ep.finished && k != s.tx.key ==> k in s.ep.finished && s'.ep.finished[k] == s.ep.finished[k]
    ensures s'.tx.cleanedUp == s.tx.cleanedUp ==> s'.ep.finished == s.ep.finished
    ensures s.tx.cleanedUp ==> s'.tx.cleanedUp
    ensures SameIdentity(s.tx, s'.tx)
  {
    hide RoutesStep, LeftBehind;
  }

  /** `Leaves` also when the transaction ended before. */
  lemma CallLeft(sys: Sys, e: Event)
    requires Consistent(sys) && Possible(sys, e) && IsCall(e)
    ensures Leaves(At(sys, e.id), Called(At(sys, e.id), e))
    ensures Writes(At(sys, e.id), Called(At(sys, e.id), e))
  {
    hide Consistent, Called, Possible, Leaves, Writes, Answers;
    CallAnswers(sys, e);
    CallPossible(sys, e);
    HealthyAt(sys, e.id, TimeOf(e));
    var s := At(sys, e.id);
    assert Sane(s.tx);
    hide Inv, Alive, Sane;
    CallWrites(s, e);
    if s.tx.key in sys.ep.finished {
      CachedIsNotLive(sys, s.tx.key);
      CleanLeaves(s, Called(s, e));
    } else {
      CallLeaves(s, e);
    }
  }

  lemma PutTxStep(sys: Sys, id: nat, s': TE, now: nat)
    requires Consistent(sys) && id in sys.txs && Consistent(Put(sys, id, s', now))
    requires TablesStep(At(sys, id), s', now) && Leaves(At(sys, id), s')
    ensures TxStep(sys, id, s', Put(sys, id, s', now))
  {
    hide Consistent, TablesStep, Leaves;
    EndedFinished(At(sys, id), s', now);
  }

  lemma CallTxStep(sys: Sys, e: Event)
    requires Consistent(sys) && Possible(sys, e) && IsCall(e)
    ensures TxStep(sys, e.id, Called(At(sys, e.id), e), Step(sys, e))
    ensures Writes(At(sys, e.id), Called(At(sys, e.id), e)) && Forward(sys.txs[e.id].state, Called(At(sys, e.id), e).tx.state)
  {
    hide Consistent, Called, Possible, Leaves, Writes, TablesStep, TxStep, Forward;
    CallPossible(sys, e);
    StepConsistent(sys, e);
    HealthyAt(sys, e.id, TimeOf(e));
    hide Inv, Alive;
    CallForward(At(sys, e.id), e);
    CallLeft(sys, e);
    CallTables(At(sys, e.id), e);
    PutTxStep(sys, e.id, Called(At(sys, e.id), e), TimeOf(e));
  }

  lemma CleanLeaves(s: TE, s': TE)
    requires s.tx.cleanedUp
    ensures Leaves(s, s')
  {
  }

  lemma CallAnswers(sys: Sys, e: Event)
    requires Possible(sys, e)
    ensures e.CallRespond? ==> e.id in sys.txs
    ensures e.CallRespond? && !IsClient(sys.txs[e.id].kind) ==> Answers(sys.txs[e.id].original, e.response)
  {
  }

  lemma CleanupEffects(s: TE, env: Env, now: nat)
    requires Sane(s.tx) && s.tx.key !in s.ep.finished && !s.tx.cleanedUp && now == env.now
    ensures var s' := DoCleanup(s, env);
            TablesStep(s, s', now) && Leaves(s, s') && s'.tx.cleanedUp && s'.tx.state == s.tx.state && s'.ep.wire == s.ep.wire
  {
    CleanupLeaves(s, env);
    CleanupTables(s, env);
    DoCleanupFacts(s, env);
    hide DoCleanup, Leaves, TablesStep, LastMessage;
  }

  lemma DropIsTxStep(sys: Sys, id: nat, s': TE, now: nat)
    requires Consistent(sys) && id in sys.txs && Consistent(sys.(ep := s'.ep, txs := sys.txs - {id}, now := now))
    requires s'.tx.cleanedUp && TablesStep(At(sys, id), s', now) && Leaves(At(sys, id), s')
    ensures TxStep(sys, id, s', sys.(ep := s'.ep, txs := sys.txs - {id}, now := now))
  {
    hide Consistent, TablesStep, Leaves;
    EndedFinished(At(sys, id), s', now);
  }

  lemma DropTxStep(sys: Sys, id: nat, env: Env)
    requires Consistent(sys) && Possible(sys, Drop(id, env))
    ensures var s' := DoCleanup(At(sys, id), env);
            && TxStep(sys, id, s', Step(sys, Drop(id, env))) && Forward(sys.txs[id].state, s'.tx.state)
            && s'.ep.wire == sys.ep.wire
  {
    var s := At(sys, id);
    StepConsistent(sys, Drop(id, env));
    HealthyAt(sys, id, env.now);
    assert Sane(s.tx);
    hide Consistent, DoCleanup, Leaves, TablesStep, TxStep, Inv, Alive, Sane;
    if s.tx.cleanedUp {
      DropDeadEp(s, env);
      CleanLeaves(s, s);
      SameTablesStep(s, s, env.now);
    } else {
      if s.tx.key in sys.ep.finished { CachedIsNotLive(sys, s.tx.key); }
      CleanupEffects(s, env, env.now);
    }
    DropIsTxStep(sys, id, DoCleanup(s, env), env.now);
  }

  // ---- Messages and cleanup ---------------------------------------------------------------------

  /** What routing may write: a cached message, or an answer that is not to an INVITE. */
  ghost predicate MayWrite(ep: Ep, m: SipMessage, k: Key) {
    !FinalToInvite(m) || (k in ep.finished && ep.finished[k] == m)
  }

  lemma RequestWrites(ep: Ep, r: Request, conn: Conn, sendOk: bool) returns (m: SipMessage, k: Key)
    ensures var ep' := RouteRequest(ep, r, conn, sendOk).ep;
            ep'.wire == ep.wire || (ep'.wire == ep.wire + [m] && MayWrite(ep, m, k))
  {
    var target := TargetKey(ep, r);
    k := if target.Some? then target.value else "";
    m := if k in ep.finished then ep.finished[k] else Resp(MakeResponse(r, 481));
    hide TargetKey, RequestDialog;
  }

  lemma ResponseWrites(ep: Ep, r: Response, conn: Conn, sendOk: bool) returns (m: SipMessage)
    ensures var ep' := RouteResponse(ep, r, conn, sendOk).ep;
            ep'.wire == ep.wire || (ep'.wire == ep.wire + [m] && !FinalToInvite(m))
  {
    var target := ResponseKey(r, Client);
    m := if target.Some? && target.value in ep.finished && ep.finished[target.value].Req?
         then Req(ReplayedAck(ep.finished[target.value].request, r)) else Resp(r);
    hide ResponseKey, ReplayedAck;
  }

  lemma RouteWrites(ep: Ep, msg: SipMessage, conn: Conn, sendOk: bool) returns (m: SipMessage, k: Key)
    ensures var ep' := Route(ep, msg, conn, sendOk).ep;
            ep'.wire == ep.wire || (ep'.wire == ep.wire + [m] && MayWrite(ep, m, k))
  {
    hide RouteRequest, RouteResponse;
    match msg
    case Req(r) => m, k := RequestWrites(ep, r, conn, sendOk);
    case Resp(r) => m := ResponseWrites(ep, r, conn, sendOk); k := "";
  }

  lemma RoutedOneClass(sys: Sys, ep: Ep, now: nat, key: Key, m: SipMessage, k: Key)
    requires OneClass(sys, key) && CacheOk(sys) && Consistent(sys)
    requires SameTables(sys.ep, ep)
    requires ep.wire == sys.ep.wire || (ep.wire == sys.ep.wire + [m] && MayWrite(sys.ep, m, k))
    ensures OneClass(sys.(ep := ep, now := now), key)
  {
    var sys' := sys.(ep := ep, now := now);
    assert forall success: bool :: Agrees(sys, key, success) ==> Agrees(sys', key, success) by {
      assert forall id :: Owns(sys', id, key) ==> Owns(sys, id, key);
    }
    if ep.wire != sys.ep.wire && AnswerTo(m, key) {
      assert AnswerTo(sys.ep.finished[k], k);
      assert k == key;
      CachedIsNotLive(sys, k);
      assert Agrees(sys', key, Successful(m.response));
    }
    hide Agrees, AnswerTo, Consistent;
  }

  lemma IncomingOneClass(sys: Sys, msg: SipMessage, conn: Conn, env: Env, key: Key)
    requires Consistent(sys) && OneClass(sys, key) && CacheOk(sys)
    requires !Reborn(sys, Incoming(msg, conn, env), key)
    ensures OneClass(StepIncoming(sys, msg, conn, env), key) && CacheOk(StepIncoming(sys, msg, conn, env))
  {
    var routed := Route(sys.ep, msg, conn, env.sendOk);
    var sys1 := sys.(ep := routed.ep, now := env.now);
    RoutingOneClass(sys, msg, conn, env, key);
    NotReborn(sys, msg, conn, env, key);
    hide Consistent, Route, OneClass, Reborn, DeliverTo, AnswerTo, FinalToInvite;
    match routed.action {
      case Ignore =>
      case Deliver(k, e) => DeliverOneClass(sys, sys1, k, e, key);
      case NewServer(newKey, original) => BornOneClass(sys1, NewTx(ServerKind(original), newKey, original, Some(conn)), env.now, key);
    }
  }

  lemma DeliverOneClass(sys: Sys, sys1: Sys, k: Key, e: TxEvent, key: Key)
    requires OneClass(sys1, key) && sys1.txs == sys.txs
    ensures OneClass(sys1.(txs := DeliverTo(sys, k, e)), key)
  {
    hide OneClass;
    SameOwners(sys1, sys1.(txs := DeliverTo(sys, k, e)), key);
  }

  lemma RoutingOneClass(sys: Sys, msg: SipMessage, conn: Conn, env: Env, key: Key)
    requires Consistent(sys) && OneClass(sys, key) && CacheOk(sys)
    ensures var ep := Route(sys.ep, msg, conn, env.sendOk).ep;
            SameTables(sys.ep, ep) && OneClass(sys.(ep := ep, now := env.now), key)
  {
    hide Consistent, Route, OneClass, CacheOk, MayWrite, RoutesStep;
    var ep := Route(sys.ep, msg, conn, env.sendOk).ep;
    RouteEp(sys.ep, msg, conn, env.sendOk);
    var m, k := RouteWrites(sys.ep, msg, conn, env.sendOk);
    RoutedOneClass(sys, ep, env.now, key, m, k);
  }

  lemma NotReborn(sys: Sys, msg: SipMessage, conn: Conn, env: Env, key: Key)
    requires !Reborn(sys, Incoming(msg, conn, env), key)
    ensures var r := Route(sys.ep, msg, conn, env.sendOk);
            r.action.NewServer? && r.action.key == key ==> forall m :: m in r.ep.wire ==> !AnswerTo(m, key)
  {
    RouteEp(sys.ep, msg, conn, env.sendOk);
    hide Route, AnswerTo, RoutesStep;
  }

  /** The same keys, states and messages. */
  lemma SameOwners(sys: Sys, sys': Sys, key: Key)
    requires OneClass(sys, key) && sys'.ep == sys.ep && sys'.txs.Keys == sys.txs.Keys
    requires forall id :: id in sys.txs ==>
               sys'.txs[id].key == sys.txs[id].key && sys'.txs[id].cleanedUp == sys.txs[id].cleanedUp && sys'.txs[id].state == sys.txs[id].state
    ensures OneClass(sys', key)
  {
    assert forall id :: Owns(sys', id, key) ==> Owns(sys, id, key);
    hide AnswerTo;
  }

  lemma BornOneClass(sys: Sys, tx: Tx, now: nat, key: Key)
    requires OneClass(sys, key)
    requires tx.key == key ==> forall m :: m in sys.ep.wire ==> !AnswerTo(m, key)
    ensures OneClass(Spawn(sys, tx, now), key)
  {
    var sys' := Spawn(sys, tx, now);
    assert forall id :: Owns(sys', id, key) && id != sys.next ==> Owns(sys, id, key);
    assert tx.key != key ==> !Owns(sys', sys.next, key);
    hide AnswerTo;
  }

  // ---- Runs ---------------------------------------------------------------------------------------

  lemma CleanupOneClass(sys: Sys, key: Key, k: Key, at: nat)
    requires OneClass(sys, key) && CacheOk(sys)
    ensures OneClass(sys.(ep := RunCleanup(sys.ep, k), now := at), key) && CacheOk(sys.(ep := RunCleanup(sys.ep, k), now := at))
  {
    var sys' := sys.(ep := RunCleanup(sys.ep, k), now := at);
    CleanupEp(sys.ep, k);
    hide RunCleanup, AnswerTo;
    assert forall success: bool :: Agrees(sys, key, success) ==> Agrees(sys', key, success) by {
      assert forall id :: Owns(sys', id, key) ==> Owns(sys, id, key);
    }
    hide Agrees;
  }

  /** A client's key is not that of an answer. */
  lemma ClientKeyUnanswered(original: Request, key: Key, m: SipMessage)
    requires RequestKey(original, Client) == Some(key)
    ensures !AnswerTo(m, key)
  {
    if AnswerTo(m, key) {
      var i, o := m.response.ids, original.ids;
      KeyDeterminesHead(Server, i.via, Invite, i.cseq, i.fromTag.value, i.callId,
                        Client, o.via, original.verb, o.cseq, o.fromTag.value, o.callId);
    }
    hide BuildKey;
  }

  lemma NewClientOneClass(sys: Sys, key: Key, original: Request, conn: Option<Conn>, k: Key, at: nat)
    requires OneClass(sys, key) && CacheOk(sys) && RequestKey(original, Client) == Some(k)
    ensures OneClass(Spawn(sys, NewTx(ClientKind(original), k, original, conn), at), key)
    ensures CacheOk(Spawn(sys, NewTx(ClientKind(original), k, original, conn), at))
  {
    forall m ensures !AnswerTo(m, k) { ClientKeyUnanswered(original, k, m); }
    hide OneClass, AnswerTo, RequestKey;
    BornOneClass(sys, NewTx(ClientKind(original), k, original, conn), at, key);
  }

  lemma CallOneClass(sys: Sys, e: Event, key: Key)
    requires Consistent(sys) && Possible(sys, e) && IsCall(e) && OneClass(sys, key) && CacheOk(sys)
    ensures OneClass(Step(sys, e), key) && CacheOk(Step(sys, e))
  {
    hide Consistent, Called, Possible, TxStep, Writes, Forward, OneClass, CacheOk;
    CallTxStep(sys, e);
    CallPossible(sys, e);
    var s' := Called(At(sys, e.id), e);
    TxStepOneClass(sys, e.id, s', Step(sys, e), key);
    TxStepCache(sys, e.id, s', Step(sys, e));
  }

  lemma DropOneClass(sys: Sys, id: nat, env: Env, key: Key)
    requires Consistent(sys) && Possible(sys, Drop(id, env)) && OneClass(sys, key) && CacheOk(sys)
    ensures OneClass(Step(sys, Drop(id, env)), key) && CacheOk(Step(sys, Drop(id, env)))
  {
    var s' := DoCleanup(At(sys, id), env);
    hide Consistent, DoCleanup, TxStep, Writes, Forward, OneClass, CacheOk;
    DropTxStep(sys, id, env);
    SameWire(At(sys, id), s');
    TxStepOneClass(sys, id, s', Step(sys, Drop(id, env)), key);
    TxStepCache(sys, id, s', Step(sys, Drop(id, env)));
  }

  lemma StepOneClass(sys: Sys, e: Event, key: Key)
    requires Consistent(sys) && Possible(sys, e) && OneClass(sys, key) && CacheOk(sys) && !Reborn(sys, e, key)
    ensures OneClass(Step(sys, e), key) && CacheOk(Step(sys, e))
  {
    if IsCall(e) {
      hide Consistent, Possible, Step, OneClass, CacheOk, Reborn;
      CallOneClass(sys, e, key);
    } else if e.Drop? {
      hide Consistent, Possible, Step, OneClass, CacheOk, Reborn;
      DropOneClass(sys, e.id, e.env, key);
    } else if e.Incoming? {
      IncomingOneClass(sys, e.msg, e.from, e.env, key) by { hide Consistent, Possible, Step, OneClass, CacheOk, Reborn; }
      hide Consistent, OneClass, CacheOk, Reborn;
    } else if e.FireCleanup? {
      CleanupOneClass(sys, key, e.key, e.at) by { hide Consistent, Possible, Step, OneClass, CacheOk, Reborn; }
      hide Consistent, OneClass, CacheOk, Reborn;
    } else {
      NewClientOneClass(sys, key, e.original, e.conn, e.key, e.at) by { hide Consistent, OneClass, CacheOk, Reborn; }
      hide Consistent, OneClass, CacheOk, Reborn;
    }
  }

  /** No second transaction for `key` after it was answered. */
  ghost predicate BornOnce(sys: Sys, es: seq<Event>, key: Key)
    requires Run(sys, es)
    decreases |es|
  {
    es != [] ==> !Reborn(sys, es[0], key) && BornOnce(Step(sys, es[0]), es[1..], key)
  }

  lemma {:induction false} RunOneClass(sys: Sys, es: seq<Event>, key: Key)
    requires Consistent(sys) && Run(sys, es) && OneClass(sys, key) && CacheOk(sys) && BornOnce(sys, es, key)
    ensures OneClass(After(sys, es), key)
    decreases |es|
  {
    if es != [] {
      StepOneClass(sys, es[0], key);
      StepConsistent(sys, es[0]);
      hide Consistent, Step, Possible, OneClass, CacheOk, Reborn;
      RunOneClass(Step(sys, es[0]), es[1..], key);
    }
  }

  /** On every run from an empty endpoint: two finals to one server INVITE are never of different classes. */
  lemma NeverBothClasses(opt: EndpointOption, es: seq<Event>, key: Key, m: SipMessage, n: SipMessage)
    requires Run(Start(opt), es) && BornOnce(Start(opt), es, key)
    requires m in After(Start(opt), es).ep.wire && n in After(Start(opt), es).ep.wire
    requires AnswerTo(m, key) && AnswerTo(n, key)
    ensures Successful(m.response) == Successful(n.response)
  {
    StartConsistent(opt);
    StartOneClass(opt, key);
    RunOneClass(Start(opt), es, key);
    assert OneClass(After(Start(opt), es), key);
    hide Run, After, Consistent, BornOnce, CacheOk;
  }

  lemma StartOneClass(opt: EndpointOption, key: Key)
    ensures OneClass(Start(opt), key) && CacheOk(Start(opt))
  {
  }
}
