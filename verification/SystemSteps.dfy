/** Every step of the system, and so every run, keeps it consistent. */
module SystemSteps {
  import opened Prelude
  import opened SipMessages
  import opened TransactionKey
  import opened EndpointSpec
  import opened TransactionSpec
  import opened TransactionSanity
  import opened TransactionInvariant
  import opened TransactionHandlers
  import opened NeverStuck
  import opened TableSteps
  import opened System

  // ---- Steps of one transaction --------------------------------------------------

  /** The premises of a handler, at its own time. */
  lemma HealthyAt(sys: Sys, id: nat, now: nat)
    requires Consistent(sys) && id in sys.txs && sys.now <= now
    ensures Inv(sys.txs[id], sys.ep.opt, now) && Alive(sys.txs[id])
    ensures sys.txs[id].cleanedUp <==> sys.txs[id].state.Terminated?
    ensures RequestKey(sys.txs[id].original, RoleOf(sys.txs[id].kind)) == Some(sys.txs[id].key)
    ensures KindOk(sys.txs[id].kind, sys.txs[id].original)
  {
    assert Healthy(sys.txs[id], sys.ep.opt, sys.now);
    InvLater(sys.txs[id], sys.ep.opt, sys.now, now);
    assert Sane(sys.txs[id]);
    hide Inv, Alive, Sane;
  }

  lemma SendConsistent(sys: Sys, id: nat, env: Env)
    requires Consistent(sys) && id in sys.txs && sys.now <= env.now
    requires IsClient(sys.txs[id].kind) ==> sys.txs[id].state.Nothing? || sys.txs[id].state.Calling?
    ensures Consistent(Put(sys, id, Send(At(sys, id), env).s, env.now))
  {
    var s := At(sys, id);
    assert !IsClient(s.tx.kind) ==> Send(s, env).s == s;
    hide Consistent, Inv, Alive, TablesStep, Send;
    HealthyAt(sys, id, env.now);
    SendTables(s, env);
    if IsClient(s.tx.kind) { SendGood(s, env); }
    PutConsistent(sys, id, Send(s, env).s, env.now);
  }

  lemma ReceiveConsistent(sys: Sys, id: nat, env: Env)
    requires Consistent(sys) && id in sys.txs && sys.now <= env.now && sys.txs[id].queue != []
    requires IsClient(sys.txs[id].kind) ==> !sys.txs[id].state.Nothing?
    ensures Consistent(Put(sys, id, Receive(At(sys, id), env), env.now))
  {
    hide Consistent, Inv, Alive, TablesStep, Receive;
    HealthyAt(sys, id, env.now);
    ReceiveTables(At(sys, id), env);
    ReceiveGood(At(sys, id), env);
    PutConsistent(sys, id, Receive(At(sys, id), env), env.now);
  }

  lemma RespondConsistent(sys: Sys, id: nat, r: Response, env: Env)
    requires Consistent(sys) && id in sys.txs && sys.now <= env.now
    requires !IsClient(sys.txs[id].kind) ==> Answers(sys.txs[id].original, r)
    ensures Consistent(Put(sys, id, DoRespond(At(sys, id), r, env).s, env.now))
  {
    hide Consistent, Inv, Alive, TablesStep, DoRespond, Answers;
    var s := At(sys, id);
    HealthyAt(sys, id, env.now);
    RespondTables(s, r, env);
    RespondInv(s, r, env);
    RespondAlive(s, r, env);
    PutConsistent(sys, id, DoRespond(s, r, env).s, env.now);
  }

  lemma AckCaller(s: TE, conn: Option<Conn>, env: Env)
    requires Alive(s.tx)
    ensures s.tx.kind.ClientInvite? ==> !s.tx.state.Completed?
    ensures !s.tx.kind.ClientInvite? ==> SendAck(s, conn, env).s == s
  {
    hide Transition, ChooseAck, TimersOf;
  }

  lemma SendAckConsistent(sys: Sys, id: nat, conn: Option<Conn>, env: Env)
    requires Consistent(sys) && id in sys.txs && sys.now <= env.now
    ensures Consistent(Put(sys, id, SendAck(At(sys, id), conn, env).s, env.now))
  {
    var s := At(sys, id);
    hide Consistent, Inv, Alive, TablesStep, SendAck;
    HealthyAt(sys, id, env.now);
    AckCaller(s, conn, env);
    SendAckTables(s, conn, env);
    if s.tx.kind.ClientInvite? {
      SendAckInv(s, conn, env);
      SendAckAlive(s, conn, env);
    }
    PutConsistent(sys, id, SendAck(s, conn, env).s, env.now);
  }

  lemma StopConsistent(sys: Sys, id: nat, at: nat)
    requires Consistent(sys) && id in sys.txs && sys.now <= at
    ensures Consistent(Put(sys, id, StopRetransmissions(At(sys, id)), at))
  {
    var s := At(sys, id);
    hide Consistent, Inv, Alive, TablesStep;
    HealthyAt(sys, id, at);
    StopGood(s, at);
    SameTablesStep(s, StopRetransmissions(s), at);
    PutConsistent(sys, id, StopRetransmissions(s), at);
  }

  lemma EnqueueConsistent(sys: Sys, id: nat, e: TxEvent, at: nat)
    requires Consistent(sys) && id in sys.txs && sys.now <= at && OkEvent(sys.txs[id], e) && !e.Fired?
    ensures Consistent(Put(sys, id, TransactionSpec.Enqueue(At(sys, id), e), at))
  {
    var s := At(sys, id);
    hide Consistent, Inv, Alive, TablesStep, OkEvent;
    HealthyAt(sys, id, at);
    EnqueueGood(s.tx, e, s.ep.opt, at);
    SameTablesStep(s, TransactionSpec.Enqueue(s, e), at);
    PutConsistent(sys, id, TransactionSpec.Enqueue(s, e), at);
  }

  lemma FireConsistent(sys: Sys, id: nat, slot: Slot, at: nat)
    requires id in sys.txs && slot in sys.txs[id].pending && sys.txs[id].pending[slot].due <= at && sys.now <= at
    requires Earliest(sys, sys.txs[id].pending[slot].due) && Consistent(sys)
    ensures Consistent(Put(sys, id, TE(Fired1(sys.txs[id], slot), sys.ep), at))
  {
    hide Consistent, Inv, Alive, TablesStep;
    var s := At(sys, id);
    HealthyAt(sys, id, at);
    FireGood(s.tx, slot, s.ep.opt, at);
    var s' := TE(Fired1(s.tx, slot), s.ep);
    SameTablesStep(s, s', at);
    PutConsistent(sys, id, s', at);
  }

  /** What any call does to the tables. */
  lemma CallTables(s: TE, e: Event)
    requires IsCall(e) && (e.CallReceive? ==> s.tx.queue != []) && (e.FireTimer? ==> e.slot in s.tx.pending)
    requires s.tx.cleanedUp <==> s.tx.state.Terminated?
    ensures TablesStep(s, Called(s, e), TimeOf(e))
  {
    hide TablesStep, Send, Receive, DoRespond, SendAck;
    match e
    case CallSend(_, env) => SendTables(s, env);
    case CallReceive(_, env) => ReceiveTables(s, env);
    case CallRespond(_, r, env) => RespondTables(s, r, env);
    case QueueRespond(_, r, at) => SameTablesStep(s, Called(s, e), at);
    case CallSendAck(_, conn, env) => SendAckTables(s, conn, env);
    case CallStop(_, at) => SameTablesStep(s, Called(s, e), at);
    case FireTimer(_, _, at) => SameTablesStep(s, Called(s, e), at);
  }

  // ---- New transactions ------------------------------------------------------------

  lemma SpawnTables(sys: Sys, tx: Tx, now: nat)
    requires TablesOk(sys) && sys.next !in sys.txs && !tx.cleanedUp && tx.key !in sys.ep.table && tx.key !in sys.ep.finished
    ensures TablesOk(Spawn(sys, tx, now))
  {
    var sys' := Spawn(sys, tx, now);
    assert LiveKeys(sys'.txs) == LiveKeys(sys.txs) + {tx.key} by {
      assert sys'.txs[sys.next] == tx;
      assert forall id :: id in sys.txs ==> sys'.txs[id] == sys.txs[id];
    }
    forall i | i in sys.txs && !sys.txs[i].cleanedUp ensures sys.txs[i].key != tx.key {
      assert sys.txs[i].key in LiveKeys(sys.txs);
    }
    hide LiveKeys;
  }

  lemma SpawnAnchors(sys: Sys, tx: Tx, now: nat)
    requires sys.next !in sys.txs && RoutesOk(sys)
    ensures RoutesOk(Spawn(sys, tx, now))
  {
    var sys' := Spawn(sys, tx, now);
    forall k | k in Anchors(sys) ensures k in Anchors(sys') {
      if k !in sys.ep.finished {
        var j :| j in sys.txs && Awaits(sys.txs[j]) && sys.txs[j].key == k;
        assert sys'.txs[j] == sys.txs[j];
      }
    }
    hide Anchors, InviteKey;
  }

  lemma SpawnTxs(sys: Sys, tx: Tx, now: nat)
    requires TxsOk(sys) && sys.now <= now && Healthy(tx, sys.ep.opt, now)
    ensures TxsOk(Spawn(sys, tx, now))
  {
    var sys' := Spawn(sys, tx, now);
    AllLater(sys, now);
    var later := sys.(now := now);
    forall id | id in sys'.txs ensures id < sys'.next && Healthy(sys'.txs[id], sys'.ep.opt, now) {
      if id != sys.next { assert id in later.txs && Healthy(later.txs[id], later.ep.opt, later.now); }
      hide Healthy;
    }
  }

  lemma SpawnConsistent(sys: Sys, kind: TxType, key: Key, original: Request, conn: Option<Conn>, now: nat)
    requires Consistent(sys) && sys.now <= now && key !in sys.ep.table && key !in sys.ep.finished
    requires RequestKey(original, RoleOf(kind)) == Some(key) && (kind.ServerInvite? ==> original.verb == Invite)
    requires KindOk(kind, original)
    ensures Consistent(Spawn(sys, NewTx(kind, key, original, conn), now))
  {
    var tx := NewTx(kind, key, original, conn);
    NewGood(kind, key, original, conn, sys.ep.opt, now);
    assert Healthy(tx, sys.ep.opt, now);
    assert sys.next !in sys.txs by { assert TxsOk(sys); }
    hide Healthy, TxsOk, TablesOk, RoutesOk;
    SpawnTables(sys, tx, now);
    SpawnAnchors(sys, tx, now);
    SpawnTxs(sys, tx, now);
  }

  // ---- Messages ----------------------------------------------------------------------

  lemma ForgetEp(ep: Ep, d: DialogId, cseq: nat, key: Key)
    ensures KeepsTables(ep, ForgetWaitingAck(ep, d, cseq, key))
    ensures RoutesStep(ep, ForgetWaitingAck(ep, d, cseq, key), "", 0, false)
  {
  }

  /** Routing writes to the network and drops routes; it changes nothing else. */
  ghost predicate Routing(ep: Ep, r: Routed) {
    && SameTables(ep, r.ep) && IsPrefix(ep.wire, r.ep.wire)
    && RoutesStep(ep, r.ep, "", 0, false)
    && (!r.action.Ignore? ==> r.ep == ep)
  }

  lemma WriteEp(ep: Ep, msg: SipMessage, sendOk: bool)
    ensures KeepsTables(ep, ep) && SameTables(ep, ep) && RoutesStep(ep, ep, "", 0, false)
    ensures SameTables(ep, Write(ep, msg, sendOk)) && IsPrefix(ep.wire, Write(ep, msg, sendOk).wire)
    ensures RoutesStep(ep, Write(ep, msg, sendOk), "", 0, false)
  {
  }

  lemma RequestRouting(ep: Ep, r: Request, conn: Conn, sendOk: bool)
    ensures Routing(ep, RouteRequest(ep, r, conn, sendOk))
  {
    hide ForgetWaitingAck, TargetKey, RequestDialog, MakeResponse, Write, RoutesStep;
    var target, dialog := TargetKey(ep, r), RequestDialog(r, Server);
    if target.Some? {
      if dialog.Some? {
        ForgetEp(ep, dialog.value, r.ids.cseq, target.value);
      }
      if target.value in ep.finished {
        WriteEp(ep, ep.finished[target.value], sendOk);
      }
    }
    WriteEp(ep, Resp(MakeResponse(r, 481)), sendOk);
  }

  lemma ResponseRouting(ep: Ep, r: Response, conn: Conn, sendOk: bool)
    ensures Routing(ep, RouteResponse(ep, r, conn, sendOk))
  {
    hide Write, RoutesStep, ReplayedAck, ResponseKey;
    var target := ResponseKey(r, Client);
    WriteEp(ep, Resp(r), sendOk);
    if target.Some? && target.value in ep.finished {
      var last := ep.finished[target.value];
      if last.Req? { WriteEp(ep, Req(ReplayedAck(last.request, r)), sendOk); }
    }
  }

  lemma RouteEp(ep: Ep, msg: SipMessage, conn: Conn, sendOk: bool)
    ensures Routing(ep, Route(ep, msg, conn, sendOk))
  {
    hide RouteRequest, RouteResponse, Routing;
    match msg
    case Req(r) => RequestRouting(ep, r, conn, sendOk);
    case Resp(r) => ResponseRouting(ep, r, conn, sendOk);
  }

  lemma EpConsistent(sys: Sys, ep: Ep, now: nat)
    requires Consistent(sys) && sys.now <= now
    requires SameTables(sys.ep, ep) && RoutesStep(sys.ep, ep, "", 0, false)
    ensures Consistent(sys.(ep := ep, now := now))
  {
    var sys' := sys.(ep := ep, now := now);
    AllLater(sys, now);
    assert TxsOk(sys') by { hide Healthy; assert TxsOk(sys.(now := now)); }
    assert Anchors(sys') == Anchors(sys);
    hide TxsOk, Anchors, InviteKey, LiveKeys, UniqueKeys;
  }

  /** A message for `key` reaches the transaction with that key. */
  lemma DeliverConsistent(sys: Sys, key: Key, e: TxEvent, now: nat)
    requires Consistent(sys) && sys.now <= now && !e.Fired?
    requires forall id :: Owns(sys, id, key) ==> OkEvent(sys.txs[id], e)
    ensures Consistent(sys.(txs := DeliverTo(sys, key, e), now := now))
  {
    hide Consistent;
    var o := Owner(sys, key);
    if o.Some? {
      EnqueueConsistent(sys, o.value, e, now);
    } else {
      WriteEp(sys.ep, Req(Request(Ack, "", Ids(Via(None, ""), 0, "", None, 0), None, [], [])), false);
      EpConsistent(sys, sys.ep, now);
    }
  }

  /** An ACK delivered to a server transaction acknowledges that transaction's INVITE. */
  lemma AckReachesItsInvite(sys: Sys, r: Request, id: nat)
    requires Consistent(sys) && r.verb == Ack
    requires TargetKey(sys.ep, r).Some? && Owns(sys, id, TargetKey(sys.ep, r).value) && !IsClient(sys.txs[id].kind)
    ensures r.ids.cseq == sys.txs[id].original.ids.cseq
  {
    var tx, key := sys.txs[id], TargetKey(sys.ep, r).value;
    assert Healthy(tx, sys.ep.opt, sys.now);
    var o := tx.original;
    var verb := if o.verb == Ack || o.verb == Cancel then Invite else o.verb;
    assert key == BuildKey(Server, o.ids.via, verb, o.ids.cseq, o.ids.fromTag.value, o.ids.callId);
    var dialog := RequestDialog(r, Server);
    hide BuildKey, Inv, Alive, TxsOk, TablesOk;
    if dialog.Some? && (dialog.value, r.ids.cseq) in sys.ep.waitingAckCseq {
      assert InviteKey(key, r.ids.cseq);
      var via, tag, callId :| key == BuildKey(Server, via, Invite, r.ids.cseq, tag, callId);
      KeyDeterminesHead(Server, via, Invite, r.ids.cseq, tag, callId,
                        Server, o.ids.via, verb, o.ids.cseq, o.ids.fromTag.value, o.ids.callId);
    } else {
      assert key == BuildKey(Server, r.ids.via, Invite, r.ids.cseq, r.ids.fromTag.value, r.ids.callId);
      KeyDeterminesHead(Server, r.ids.via, Invite, r.ids.cseq, r.ids.fromTag.value, r.ids.callId,
                        Server, o.ids.via, verb, o.ids.cseq, o.ids.fromTag.value, o.ids.callId);
    }
  }

  /** What routing does with a message that reaches a transaction or starts one. */
  lemma RouteAction(ep: Ep, msg: SipMessage, conn: Conn, sendOk: bool)
    ensures var a := Route(ep, msg, conn, sendOk).action;
            && (a.Deliver? ==> a.event == Received(msg, Some(conn)) && a.key in ep.table
                               && (msg.Req? ==> TargetKey(ep, msg.request) == Some(a.key))
                               && (msg.Resp? ==> ResponseKey(msg.response, Client) == Some(a.key)))
            && (a.NewServer? ==> msg == Req(a.request) && a.key !in ep.table && a.key !in ep.finished
                                 && a.request.verb != Ack && a.request.verb != Cancel
                                 && RequestKey(a.request, Server) == Some(a.key))
  {
    hide ForgetWaitingAck, RequestKey, ResponseKey;
  }

  lemma DeliveredOk(sys: Sys, msg: SipMessage, conn: Conn, key: Key)
    requires Consistent(sys) && (msg.Resp? ==> !msg.response.synthetic)
    requires msg.Req? ==> TargetKey(sys.ep, msg.request) == Some(key)
    ensures forall id :: Owns(sys, id, key) ==> OkEvent(sys.txs[id], Received(msg, Some(conn)))
  {
    hide Consistent, TargetKey;
    forall id | Owns(sys, id, key) ensures OkEvent(sys.txs[id], Received(msg, Some(conn))) {
      if msg.Req? && msg.request.verb == Ack && !IsClient(sys.txs[id].kind) {
        AckReachesItsInvite(sys, msg.request, id);
      }
    }
  }

  lemma IncomingConsistent(sys: Sys, msg: SipMessage, conn: Conn, env: Env)
    requires Consistent(sys) && Possible(sys, Incoming(msg, conn, env))
    ensures Consistent(Step(sys, Incoming(msg, conn, env)))
  {
    hide Consistent, Route, SameTables, RoutesStep, OkEvent, TargetKey, RequestKey, ResponseKey, DeliverTo;
    var routed := Route(sys.ep, msg, conn, env.sendOk);
    RouteEp(sys.ep, msg, conn, env.sendOk);
    RouteAction(sys.ep, msg, conn, env.sendOk);
    match routed.action {
      case Ignore => EpConsistent(sys, routed.ep, env.now);
      case Deliver(key, e) => DeliveredOk(sys, msg, conn, key); DeliverConsistent(sys, key, e, env.now);
      case NewServer(key, original) => SpawnConsistent(sys, ServerKind(original), key, original, Some(conn), env.now);
    }
  }

  // ---- Drop and cleanup ----------------------------------------------------------------

  lemma DropDeadEp(s: TE, env: Env)
    requires s.tx.cleanedUp
    ensures DoCleanup(s, env) == s
  {
  }

  lemma DropDead(sys: Sys, id: nat, now: nat)
    requires Consistent(sys) && id in sys.txs && sys.txs[id].cleanedUp && sys.now <= now
    ensures Consistent(sys.(txs := sys.txs - {id}, now := now))
  {
    hide TxsOk, Anchors, InviteKey, LiveKeys;
    var sys' := sys.(txs := sys.txs - {id}, now := now);
    OthersLater(sys, id, now);
    SameLiveKeys(sys, id);
    AnchorsAfter(sys, sys', id);
  }

  lemma OthersLater(sys: Sys, id: nat, now: nat)
    requires TxsOk(sys) && sys.now <= now
    ensures TxsOk(sys.(txs := sys.txs - {id}, now := now))
  {
    hide Healthy;
    AllLater(sys, now);
    assert TxsOk(sys.(now := now));
  }

  lemma SameLiveKeys(sys: Sys, id: nat)
    requires id in sys.txs && sys.txs[id].cleanedUp
    ensures LiveKeys(sys.txs - {id}) == LiveKeys(sys.txs)
  {
    var txs := sys.txs - {id};
    assert forall j :: j in sys.txs && !sys.txs[j].cleanedUp ==> j in txs && txs[j] == sys.txs[j];
  }

  /** The number the next transaction gets is free. */
  lemma NextIsFree(sys: Sys)
    requires Consistent(sys)
    ensures sys.next !in sys.txs
  {
    hide Healthy, TablesOk, RoutesOk;
    assert TxsOk(sys);
  }

  lemma DropConsistent(sys: Sys, id: nat, env: Env)
    requires Consistent(sys) && id in sys.txs && sys.now <= env.now
    ensures Consistent(sys.(ep := DoCleanup(At(sys, id), env).ep, txs := sys.txs - {id}, now := env.now))
  {
    var s := At(sys, id);
    if s.tx.cleanedUp {
      DropDead(sys, id, env.now);
    } else {
      var s' := DoCleanup(s, env);
      CleanupTables(s, env);
      DoCleanupFacts(s, env);
      DropLive(sys, id, s', env) by { hide Consistent, TablesStep, DoCleanup, Detach, LastMessage; }
    }
  }

  lemma DropLive(sys: Sys, id: nat, s': TE, env: Env)
    requires Consistent(sys) && id in sys.txs && !sys.txs[id].cleanedUp && sys.now <= env.now
    requires TablesStep(At(sys, id), s', env.now) && s'.tx.cleanedUp
    ensures Consistent(sys.(ep := s'.ep, txs := sys.txs - {id}, now := env.now))
  {
    var tx := sys.txs[id];
    var sys' := sys.(ep := s'.ep, txs := sys.txs - {id}, now := env.now);
    assert Healthy(tx, sys.ep.opt, sys.now);
    if tx.kind.ServerInvite? { assert tx.original.verb == Invite; InviteKeyOf(tx); }
    AllLater(sys, env.now);
    hide RoutesStep, Healthy, InviteKey, InSetup;
    var last :| LeftBehind(s'.tx, last) && EndedTables(sys.ep, s'.ep, tx.key, last, env.now);
    assert TxsOk(sys') by { assert TxsOk(sys.(now := env.now)); }
    LiveKeysEnd(sys.txs, sys'.txs, id);
    TablesEnd(sys, sys', id, last);
    hide TxsOk, TablesOk;
    AnchorsAfter(sys, sys', id);
    var mayRoute := tx.kind.ServerInvite? && !tx.cleanedUp && s'.tx.lastResponse.Some?;
    assert mayRoute ==> tx.key in Anchors(sys');
    RoutesAfter(sys, sys', tx.key, tx.original.ids.cseq, mayRoute) by { hide RoutesOk, Anchors; }
  }

  lemma CleanupEp(ep: Ep, key: Key)
    ensures var ep' := RunCleanup(ep, key);
            && ep'.opt == ep.opt && ep'.table == ep.table - {key}
            && ep'.finished == ep.finished - {key} && ep'.cleanups == ep.cleanups - {key} && ep'.wire == ep.wire
            && (forall d :: d in ep'.waitingAck <==> d in ep.waitingAck && ep.waitingAck[d] != key)
            && (forall d :: d in ep'.waitingAck ==> ep'.waitingAck[d] == ep.waitingAck[d])
            && (forall d :: d in ep'.waitingAckCseq <==> d in ep.waitingAckCseq && ep.waitingAckCseq[d] != key)
            && (forall d :: d in ep'.waitingAckCseq ==> ep'.waitingAckCseq[d] == ep.waitingAckCseq[d])
  {
  }

  lemma CleanupTxs(sys: Sys, key: Key, at: nat)
    requires TxsOk(sys.(now := at))
    ensures TxsOk(sys.(ep := RunCleanup(sys.ep, key), now := at))
  {
    hide Healthy;
    CleanupEp(sys.ep, key);
    hide RunCleanup;
    forall id | id in sys.txs ensures id < sys.next && Healthy(sys.txs[id], sys.ep.opt, at) {
      assert id in sys.(now := at).txs;
    }
  }

  lemma CleanupTables1(sys: Sys, key: Key, at: nat)
    requires TablesOk(sys) && key in sys.ep.cleanups
    ensures TablesOk(sys.(ep := RunCleanup(sys.ep, key), now := at))
  {
    CleanupEp(sys.ep, key);
    hide RunCleanup, LiveKeys, UniqueKeys;
    assert key in sys.ep.finished && key !in sys.ep.finished.Keys * sys.ep.table;
    assert sys.ep.table - {key} == sys.ep.table;
  }

  lemma CleanupRoutes(sys: Sys, key: Key, at: nat)
    requires RoutesOk(sys)
    ensures RoutesOk(sys.(ep := RunCleanup(sys.ep, key), now := at))
  {
    var sys' := sys.(ep := RunCleanup(sys.ep, key), now := at);
    CleanupEp(sys.ep, key);
    hide RunCleanup, InviteKey;
    forall k | k in Anchors(sys) && k != key ensures k in Anchors(sys') {
    }
    hide Anchors;
  }

  lemma CleanupConsistent(sys: Sys, key: Key, at: nat)
    requires Consistent(sys) && Possible(sys, FireCleanup(key, at))
    ensures Consistent(Step(sys, FireCleanup(key, at)))
  {
    hide TxsOk, TablesOk, RoutesOk, RunCleanup;
    var sys' := Step(sys, FireCleanup(key, at));
    CleanupEp(sys.ep, key);
    AllLater(sys, at);
    assert TxsOk(sys') by { CleanupTxs(sys, key, at); }
    CleanupTables1(sys, key, at);
    CleanupRoutes(sys, key, at);
  }

  // ---- All steps, all runs ---------------------------------------------------------------

  lemma CallConsistent(sys: Sys, e: Event)
    requires Consistent(sys) && Possible(sys, e) && IsCall(e)
    ensures Consistent(Put(sys, e.id, Called(At(sys, e.id), e), TimeOf(e)))
  {
    hide Consistent, OkEvent, Answers, Send, Receive, DoRespond, SendAck, StopRetransmissions, Fired1, System.Earliest;
    match e
    case CallSend(id, env) => SendConsistent(sys, id, env);
    case CallReceive(id, env) => ReceiveConsistent(sys, id, env);
    case CallRespond(id, r, env) => RespondConsistent(sys, id, r, env);
    case QueueRespond(id, r, at) => QueueConsistent(sys, id, r, at);
    case CallSendAck(id, conn, env) => SendAckConsistent(sys, id, conn, env);
    case CallStop(id, at) => StopConsistent(sys, id, at);
    case FireTimer(id, slot, at) => FireConsistent(sys, id, slot, at);
  }

  lemma QueueConsistent(sys: Sys, id: nat, r: Response, at: nat)
    requires Consistent(sys) && id in sys.txs && sys.now <= at && !IsClient(sys.txs[id].kind) && Answers(sys.txs[id].original, r)
    ensures Consistent(Put(sys, id, TransactionSpec.Enqueue(At(sys, id), Respond(r)), at))
  {
    hide Consistent, Answers;
    EnqueueConsistent(sys, id, Respond(r), at);
  }

  lemma StepConsistent(sys: Sys, e: Event)
    requires Consistent(sys) && Possible(sys, e)
    ensures Consistent(Step(sys, e))
  {
    if IsCall(e) {
      hide Consistent, Possible, Called;
      CallConsistent(sys, e);
    } else {
      hide Consistent;
      hide System.Earliest, DoCleanup, StepIncoming, RunCleanup;
      match e
      case NewClient(key, original, conn, at) => NewClientConsistent(sys, key, original, conn, at);
      case Drop(id, env) => DropConsistent(sys, id, env);
      case Incoming(msg, conn, env) => IncomingConsistent(sys, msg, conn, env);
      case FireCleanup(key, at) => CleanupConsistent(sys, key, at);
    }
  }

  lemma NewClientConsistent(sys: Sys, key: Key, original: Request, conn: Option<Conn>, at: nat)
    requires Consistent(sys) && Possible(sys, NewClient(key, original, conn, at))
    ensures Consistent(Step(sys, NewClient(key, original, conn, at)))
  {
    hide Consistent;
    SpawnConsistent(sys, ClientKind(original), key, original, conn, at);
  }

  lemma {:induction false} RunConsistent(sys: Sys, es: seq<Event>)
    requires Consistent(sys) && Run(sys, es)
    ensures Consistent(After(sys, es))
    decreases |es|
  {
    hide Consistent, Possible;
    if es != [] {
      StepConsistent(sys, es[0]);
      RunConsistent(Step(sys, es[0]), es[1..]);
    }
  }
}
