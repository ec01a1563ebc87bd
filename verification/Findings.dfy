/** Where the code does less than RFC 3261 asks for, with the inputs that show it. */
module Findings {
  import opened Prelude
  import opened SipMessages
  import opened TransactionKey
  import opened EndpointSpec
  import opened TransactionSpec
  import opened TransactionSanity
  import opened NeverStuck
  import opened System
  import opened SystemSteps
  import opened MessageKeys
  import opened StateOrder
  import opened RunTheorems
  import opened AckDelivery

  // ---- An endpoint with one transaction ------------------------------------------------------

  /** `tx` is the only transaction, and nothing is cached. */
  predicate Lone(sys: Sys, tx: Tx) { sys.txs == map[0 := tx] && sys.ep.cleanups == map[] }

  lemma LoneCall(sys: Sys, tx: Tx, e: Event, sys': Sys)
    requires Lone(sys, tx) && IsCall(e) && e.id == 0 && StepsTo(sys, e, sys')
    ensures var s' := Called(TE(tx, sys.ep), e);
            sys'.txs == map[0 := s'.tx] && sys'.ep == s'.ep && sys'.now == TimeOf(e)
  {
    hide Called;
  }

  /** Its first timer fires. */
  lemma LoneFires(sys: Sys, tx: Tx, slot: Slot, at: nat) returns (sys': Sys)
    requires Lone(sys, tx) && slot in tx.pending && tx.pending[slot].due <= at && sys.now <= at
    requires forall x :: x in tx.pending ==> tx.pending[slot].due <= tx.pending[x].due
    ensures StepsTo(sys, FireTimer(0, slot, at), sys') && Lone(sys', Fired1(tx, slot)) && sys'.ep == sys.ep && sys'.now == at
  {
    assert Possible(sys, FireTimer(0, slot, at));
    sys' := Step(sys, FireTimer(0, slot, at));
  }

  /** It handles the head of its queue. */
  lemma LoneReceives(sys: Sys, tx: Tx, env: Env) returns (sys': Sys)
    requires Lone(sys, tx) && tx.queue != [] && !tx.state.Nothing? && sys.now <= env.now
    ensures StepsTo(sys, CallReceive(0, env), sys')
    ensures var s' := Receive(TE(tx, sys.ep), env);
            sys'.txs == map[0 := s'.tx] && sys'.ep == s'.ep && sys'.now == env.now
  {
    hide Receive;
    assert Possible(sys, CallReceive(0, env));
    sys' := Step(sys, CallReceive(0, env));
    LoneCall(sys, tx, CallReceive(0, env), sys');
  }

  function Good(now: nat): Env { Env(now, true, Some(Udp), true, "") }

  // ---- Timer A after a provisional response ------------------------------------------------

  /** A client INVITE over UDP. */
  predicate Inviting(tx: Tx, key: Key, original: Request) {
    tx.kind.ClientInvite? && tx.key == key && tx.original == original && tx.conn == Some(Udp) && tx.retransmission && !tx.cleanedUp
  }

  /** ... that got its 100 and has Timer A pending all the same, with Timer B stopped and Timer C gone. */
  predicate Stale(tx: Tx, key: Key, original: Request) {
    Inviting(tx, key, original) && tx.state.Trying? && tx.queue == [] && tx.pending.Keys == {A} && C in tx.held
  }

  /** Timer A handled in Trying: the INVITE is sent again, and Timer A armed again. */
  lemma TimerAResends(s: TE, key: Key, original: Request, span: nat, env: Env)
    requires Inviting(s.tx, key, original) && s.tx.state.Trying? && s.tx.queue == [Fired(TxTimer(A, key, span))]
    ensures var s' := Receive(s, env);
            && Inviting(s'.tx, key, original) && s'.tx.state.Trying? && s'.tx.queue == [] && s'.tx.held >= s.tx.held
            && s'.tx.pending == s.tx.pending[A := Shot(env.now + Min(span * 2, s.ep.opt.t1x64), Min(span * 2, s.ep.opt.t1x64))]
            && s'.tx.log.resentRequests == s.tx.log.resentRequests + 1
            && s'.ep == s.ep.(wire := s'.ep.wire) && s'.ep.wire == s.ep.wire + (if env.sendOk then [Req(original)] else [])
  {
    assert s.tx.queue[1..] == [];
    hide TimersOf, MakeResponse;
  }

  /** Timer C handled in Trying: nothing. */
  lemma TimerCIgnored(s: TE, key: Key, original: Request, span: nat, env: Env)
    requires Inviting(s.tx, key, original) && s.tx.state.Trying? && s.tx.queue == [Fired(TxTimer(C, key, span))]
    ensures Receive(s, env) == s.(tx := s.tx.(queue := []))
  {
    assert s.tx.queue[1..] == [];
    hide TimersOf, MakeResponse;
  }

  /** One more retransmission, on a possible run. */
  lemma StaleRound(sys: Sys, tx: Tx, key: Key, original: Request) returns (es: seq<Event>, sys': Sys, tx': Tx)
    requires Lone(sys, tx) && Stale(tx, key, original)
    ensures RunsTo(sys, es, sys') && Lone(sys', tx') && Stale(tx', key, original)
    ensures tx'.log.resentRequests == tx.log.resentRequests + 1
  {
    var at := if sys.now <= tx.pending[A].due then tx.pending[A].due else sys.now;
    var sys1 := LoneFires(sys, tx, A, at);
    var tx1 := Fired1(tx, A);
    sys' := LoneReceives(sys1, tx1, Good(at));
    TimerAResends(TE(tx1, sys1.ep), key, original, tx.pending[A].span, Good(at));
    tx' := Receive(TE(tx1, sys1.ep), Good(at)).tx;
    es := [FireTimer(0, A, at), CallReceive(0, Good(at))];
    hide Receive, Step, Possible;
    TwoSteps(sys, FireTimer(0, A, at), sys1, CallReceive(0, Good(at)), sys');
  }

  lemma TwoSteps(a: Sys, e: Event, b: Sys, f: Event, c: Sys)
    requires StepsTo(a, e, b) && StepsTo(b, f, c)
    ensures RunsTo(a, [e, f], c)
  {
    hide Step, Possible;
    assert [e, f][1..] == [f] && [f][1..] == [];
    assert RunsTo(c, [], c) && RunsTo(b, [f], c);
  }

  /** Timer A late, so that Timer C is next; Timer C, ignored. */
  lemma PastTimerC(sys: Sys, tx: Tx, key: Key, original: Request) returns (es: seq<Event>, sys': Sys, tx': Tx)
    requires Lone(sys, tx) && Inviting(tx, key, original) && tx.state.Trying? && tx.queue == []
    requires tx.pending.Keys == {A, C} && C in tx.held
    ensures RunsTo(sys, es, sys') && Lone(sys', tx') && Stale(tx', key, original)
    ensures tx'.log.resentRequests >= tx.log.resentRequests
  {
    hide Receive, Step, Possible;
    var sys0, tx0, es0 := sys, tx, [];
    assert RunsTo(sys, [], sys);
    if tx.pending[A].due <= tx.pending[C].due {
      var at := Max(sys.now, tx.pending[C].due);
      var sys1 := LoneFires(sys, tx, A, at);
      var tx1 := Fired1(tx, A);
      sys0 := LoneReceives(sys1, tx1, Good(at));
      TimerAResends(TE(tx1, sys1.ep), key, original, tx.pending[A].span, Good(at));
      tx0 := Receive(TE(tx1, sys1.ep), Good(at)).tx;
      es0 := [FireTimer(0, A, at), CallReceive(0, Good(at))];
      TwoSteps(sys, FireTimer(0, A, at), sys1, CallReceive(0, Good(at)), sys0);
      assert tx0.pending[C] == tx.pending[C];
    }
    var at := Max(sys0.now, tx0.pending[C].due);
    var sys1 := LoneFires(sys0, tx0, C, at);
    var tx1 := Fired1(tx0, C);
    sys' := LoneReceives(sys1, tx1, Good(at));
    TimerCIgnored(TE(tx1, sys1.ep), key, original, tx0.pending[C].span, Good(at));
    tx' := tx1.(queue := []);
    TwoSteps(sys0, FireTimer(0, C, at), sys1, CallReceive(0, Good(at)), sys');
    es := es0 + [FireTimer(0, C, at), CallReceive(0, Good(at))];
    RunsOn(sys, es0, sys0, [FireTimer(0, C, at), CallReceive(0, Good(at))], sys');
    assert tx'.pending.Keys == {A};
  }

  function Max(a: nat, b: nat): nat { if a <= b then b else a }

  /** The 100 handled with Timer A fired behind it: Timers A and B stop, Timer C runs. */
  lemma TryingHandled(s: TE, key: Key, original: Request, trying: Response, conn: Conn, span: nat, env: Env)
    requires Inviting(s.tx, key, original) && s.tx.state.Calling? && trying.code == 100 && s.tx.held == {A, B} && s.tx.pending.Keys == {B}
    requires s.tx.queue == [Received(Resp(trying), Some(conn)), Fired(TxTimer(A, key, span))]
    ensures var s' := Receive(s, env);
            && Inviting(s'.tx, key, original) && s'.tx.state.Trying? && s'.tx.queue == [Fired(TxTimer(A, key, span))]
            && s'.tx.held == {C} && s'.tx.pending.Keys == {C} && s'.ep == s.ep
  {
    assert s.tx.queue[1..] == [Fired(TxTimer(A, key, span))];
    hide TimersOf, MakeResponse, SendAck;
  }

  /** The INVITE sent: Timers A and B run. */
  lemma SentInvite(s: TE, key: Key, original: Request)
    requires s.tx == NewTx(ClientInvite, key, original, Some(Udp))
    ensures var s' := Send(s, Good(0)).s;
            && Inviting(s'.tx, key, original) && s'.tx.state.Calling? && s'.tx.queue == [] && s'.tx.held == {A, B}
            && s'.tx.pending == map[A := Shot(s.ep.opt.t1, s.ep.opt.t1), B := Shot(s.ep.opt.t1x64, s.ep.opt.t1x64)]
            && s'.ep == s.ep.(wire := s.ep.wire + [Req(original)])
  {
    hide TimersOf, MakeResponse;
  }

  /** A response to its request reaches it. */
  lemma LoneHears(sys: Sys, tx: Tx, r: Response, at: nat) returns (sys': Sys)
    requires Lone(sys, tx) && !tx.cleanedUp && sys.now <= at && !r.synthetic
    requires tx.key in sys.ep.table && sys.ep.finished == map[] && ResponseKey(r, Client) == Some(tx.key)
    ensures StepsTo(sys, Incoming(Resp(r), Udp, Good(at)), sys') && sys'.ep == sys.ep && sys'.now == at
    ensures Lone(sys', tx.(queue := tx.queue + [Received(Resp(r), Some(Udp))]))
  {
    hide ResponseKey;
    assert Possible(sys, Incoming(Resp(r), Udp, Good(at)));
    sys' := Step(sys, Incoming(Resp(r), Udp, Good(at)));
    assert Owns(sys, 0, tx.key);
    assert Owner(sys, tx.key) == Some(0);
  }

  /** The INVITE made and sent. */
  lemma InviteGoesOut(opt: EndpointOption, key: Key, original: Request) returns (es: seq<Event>, sys: Sys, tx: Tx)
    requires original.verb == Invite && RequestKey(original, Client) == Some(key)
    ensures RunsTo(Start(opt), es, sys) && Lone(sys, tx) && sys.now == 0 && sys.ep.opt == opt
    ensures key in sys.ep.table && sys.ep.finished == map[]
    ensures Inviting(tx, key, original) && tx.state.Calling? && tx.queue == [] && tx.held == {A, B}
    ensures tx.pending == map[A := Shot(opt.t1, opt.t1), B := Shot(opt.t1x64, opt.t1x64)] && tx.log.resentRequests == 0
  {
    hide Send, RequestKey;
    var e1, e2 := NewClient(key, original, Some(Udp), 0), CallSend(0, Good(0));
    assert Possible(Start(opt), e1);
    var sys1 := Step(Start(opt), e1);
    var tx1 := NewTx(ClientInvite, key, original, Some(Udp));
    assert Lone(sys1, tx1);
    assert Possible(sys1, e2);
    sys := Step(sys1, e2);
    LoneCall(sys1, tx1, e2, sys);
    SentInvite(TE(tx1, sys1.ep), key, original);
    SentNothingAgain(TE(tx1, sys1.ep), Good(0));
    tx := Send(TE(tx1, sys1.ep), Good(0)).s.tx;
    es := [e1, e2];
    TwoSteps(Start(opt), e1, sys1, e2, sys);
  }

  lemma SentNothingAgain(s: TE, env: Env)
    ensures Send(s, env).s.tx.log.resentRequests == s.tx.log.resentRequests
  {
    hide Transition, MakeResponse;
    TransitionFacts(Written(s, env), Calling, env);
  }

  /** A 100 arrives, and Timer A fires before it is handled. */
  lemma TimerAOvertakes(opt: EndpointOption, key: Key, original: Request) returns (es: seq<Event>, sys: Sys, tx: Tx)
    requires original.verb == Invite && RequestKey(original, Client) == Some(key) && opt.t1 <= opt.t1x64
    ensures RunsTo(Start(opt), es, sys) && Lone(sys, tx)
    ensures Inviting(tx, key, original) && tx.state.Trying? && tx.queue == [] && tx.pending.Keys == {A, C} && C in tx.held
  {
    hide Receive, Step, Possible, RequestKey, ResponseKey;
    var trying := MakeResponse(original, 100);
    var es0, sys0, tx0 := InviteGoesOut(opt, key, original);
    TryingIsForIt(original, key);
    var at := opt.t1;
    var sys1 := LoneHears(sys0, tx0, trying, at);
    var tx1 := tx0.(queue := tx0.queue + [Received(Resp(trying), Some(Udp))]);
    var sys2 := LoneFires(sys1, tx1, A, at);
    var tx2 := Fired1(tx1, A);
    var sys3 := LoneReceives(sys2, tx2, Good(at));
    TryingHandled(TE(tx2, sys2.ep), key, original, trying, Udp, opt.t1, Good(at));
    var tx3 := Receive(TE(tx2, sys2.ep), Good(at)).tx;
    sys := LoneReceives(sys3, tx3, Good(at));
    TimerAResends(TE(tx3, sys3.ep), key, original, opt.t1, Good(at));
    tx := Receive(TE(tx3, sys3.ep), Good(at)).tx;
    RunsOneMore(Start(opt), es0, sys0, Incoming(Resp(trying), Udp, Good(at)), sys1);
    var es1 := es0 + [Incoming(Resp(trying), Udp, Good(at))];
    RunsOneMore(Start(opt), es1, sys1, FireTimer(0, A, at), sys2);
    var es2 := es1 + [FireTimer(0, A, at)];
    RunsOneMore(Start(opt), es2, sys2, CallReceive(0, Good(at)), sys3);
    var es3 := es2 + [CallReceive(0, Good(at))];
    RunsOneMore(Start(opt), es3, sys3, CallReceive(0, Good(at)), sys);
    es := es3 + [CallReceive(0, Good(at))];
    assert tx.pending.Keys == {A, C};
  }

  lemma TryingIsForIt(original: Request, key: Key)
    requires RequestKey(original, Client) == Some(key)
    ensures ResponseKey(MakeResponse(original, 100), Client) == Some(key)
  {
    ResponseFindsItsRequest(original, 100);
    hide BuildKey;
  }

  /** For every number there is a run on which a client INVITE that got its 100 has sent its request
      again more often than that, with Timer B stopped and Timer C fired and ignored: RFC 3261
      section 17.1.1.2 stops retransmitting with the 100. */
  lemma {:induction false} RetransmitsWithoutBound(opt: EndpointOption, key: Key, original: Request, n: nat)
    returns (es: seq<Event>, sys: Sys)
    requires original.verb == Invite && RequestKey(original, Client) == Some(key) && opt.t1 <= opt.t1x64
    ensures RunsTo(Start(opt), es, sys)
    ensures 0 in sys.txs && Stale(sys.txs[0], key, original) && sys.txs[0].log.resentRequests >= n
  {
    hide RequestKey;
    var es1, sys1, tx1 := TimerAOvertakes(opt, key, original);
    var es2, sys2, tx2 := PastTimerC(sys1, tx1, key, original);
    RunsOn(Start(opt), es1, sys1, es2, sys2);
    es, sys := es1 + es2, sys2;
    var tx, i := tx2, 0;
    while i < n
      invariant 0 <= i <= n && RunsTo(Start(opt), es, sys) && Lone(sys, tx) && Stale(tx, key, original)
      invariant tx.log.resentRequests >= i
    {
      var more, next, tx' := StaleRound(sys, tx, key, original);
      RunsOn(Start(opt), es, sys, more, next);
      es, sys, tx, i := es + more, next, tx', i + 1;
    }
  }

  // ---- A server INVITE, from its request on ------------------------------------------------------

  /** An INVITE with this key starts a transaction. */
  lemma InviteComesIn(sys: Sys, invite: Request, key: Key, at: nat) returns (sys': Sys)
    requires sys.next !in sys.txs && key !in sys.ep.table && key !in sys.ep.finished && sys.now <= at
    requires invite.verb == Invite && RequestKey(invite, Server) == Some(key)
    ensures StepsTo(sys, Incoming(Req(invite), Udp, Good(at)), sys')
    ensures sys'.txs == sys.txs[sys.next := NewTx(ServerInvite, key, invite, Some(Udp))] && sys'.next == sys.next + 1 && sys'.now == at
    ensures sys'.ep == sys.ep.(table := sys.ep.table + {key})
  {
    hide RequestKey, RequestDialog;
    assert Possible(sys, Incoming(Req(invite), Udp, Good(at)));
    sys' := Step(sys, Incoming(Req(invite), Udp, Good(at)));
  }

  /** It is answered. */
  lemma UserAnswers(sys: Sys, id: nat, tx: Tx, r: Response, env: Env) returns (sys': Sys)
    requires id in sys.txs && sys.txs[id] == tx && !IsClient(tx.kind) && Answers(tx.original, r) && sys.now <= env.now
    ensures StepsTo(sys, CallRespond(id, r, env), sys') && sys'.next == sys.next && sys'.now == env.now
    ensures var s' := DoRespond(TE(tx, sys.ep), r, env).s; sys'.txs == sys.txs[id := s'.tx] && sys'.ep == s'.ep
  {
    hide DoRespond;
    assert Possible(sys, CallRespond(id, r, env));
    sys' := Step(sys, CallRespond(id, r, env));
  }

  /** A new server INVITE can be answered with any final response to it. */
  lemma FirstAnswer(s: TE, key: Key, invite: Request, r: Response, env: Env)
    requires s.tx == NewTx(ServerInvite, key, invite, Some(Udp)) && Answers(invite, r) && Final(r) && env.sendOk
    ensures var s' := DoRespond(s, r, env).s;
            && s'.tx.state == (if Successful(r) then Accepted else Completed) && !s'.tx.cleanedUp && s'.tx.lastResponse == Some(r)
            && s'.tx.kind.ServerInvite? && s'.tx.key == key && s'.tx.original == invite
            && s'.ep.wire == s.ep.wire + [Resp(r)] && s'.ep.table == s.ep.table && s'.ep.finished == s.ep.finished
            && s'.ep.cleanups == s.ep.cleanups && s'.ep.opt == s.ep.opt
  {
    hide Transition, ResponseDialog;
    var s1 := WriteMsg(s.(tx := s.tx.(lastResponse := Some(r))), Resp(r), true);
    TransitionFacts(s1, RespondState(ServerInvite, r), env);
  }

  // ---- A copy of the INVITE after 64*T1 ------------------------------------------------------------

  /** A request starts a transaction exactly when it is neither ACK nor CANCEL, has a From tag, and its
      key is neither live nor cached. */
  lemma StartsExactlyWhen(sys: Sys, r: Request, conn: Conn, env: Env)
    requires Consistent(sys) && Possible(sys, Incoming(Req(r), conn, env))
    ensures sys.next in Step(sys, Incoming(Req(r), conn, env)).txs
            <==> r.verb != Ack && r.verb != Cancel && r.ids.fromTag.Some?
                 && RequestKey(r, Server).value !in sys.ep.table && RequestKey(r, Server).value !in sys.ep.finished
  {
    hide Consistent, BuildKey, RequestDialog, ForgetWaitingAck, MakeResponse;
    NextIsFree(sys);
  }

  /** The user drops it: the answer stays behind. */
  lemma DroppedAnswered(sys: Sys, tx: Tx, r: Response) returns (sys': Sys)
    requires sys.txs == map[0 := tx] && tx.kind.ServerInvite? && tx.lastResponse == Some(r) && !tx.cleanedUp
    requires sys.ep.finished == map[] && sys.ep.cleanups == map[] && sys.ep.table == {tx.key}
    ensures StepsTo(sys, Drop(0, Good(sys.now)), sys') && sys'.txs == map[] && sys'.next == sys.next && sys'.now == sys.now
    ensures sys'.ep.table == {} && sys'.ep.finished == map[tx.key := Resp(r)] && sys'.ep.wire == sys.ep.wire
    ensures sys'.ep.cleanups == map[tx.key := sys.now + sys.ep.opt.t1x64] && sys'.ep.opt == sys.ep.opt
  {
    assert Possible(sys, Drop(0, Good(sys.now)));
    sys' := Step(sys, Drop(0, Good(sys.now)));
    DoCleanupFacts(TE(tx, sys.ep), Good(sys.now));
    hide DoCleanup;
  }

  lemma CleanupRuns(sys: Sys, key: Key, m: SipMessage, at: nat) returns (sys': Sys)
    requires sys.txs == map[] && sys.ep.table == {} && sys.ep.finished == map[key := m] && sys.ep.cleanups == map[key := at] && sys.now <= at
    ensures StepsTo(sys, FireCleanup(key, at), sys') && sys'.txs == map[] && sys'.next == sys.next && sys'.now == at
    ensures sys'.ep.table == {} && sys'.ep.finished == map[] && sys'.ep.cleanups == map[] && sys'.ep.wire == sys.ep.wire
  {
    assert Possible(sys, FireCleanup(key, at));
    sys' := Step(sys, FireCleanup(key, at));
    CleanupEp(sys.ep, key);
    hide RunCleanup;
  }

  /** A run on which a server refuses an INVITE, its cache runs out, a copy of the INVITE comes, and is
      accepted: both classes of answer go out for one key.  The theorems about agreement and about
      at-most-once delivery exclude just this. */
  lemma LateCopyIsAnsweredAgain(opt: EndpointOption, key: Key, invite: Request, refusal: Response, ok: Response)
    returns (es: seq<Event>, sys: Sys)
    requires invite.verb == Invite && RequestKey(invite, Server) == Some(key)
    requires Answers(invite, refusal) && Final(refusal) && !Successful(refusal) && Answers(invite, ok) && Successful(ok)
    ensures RunsTo(Start(opt), es, sys) && 1 in sys.txs && sys.txs[1].key == key
    ensures Resp(refusal) in sys.ep.wire && Resp(ok) in sys.ep.wire
  {
    hide Step, Possible, RequestKey, Answers, DoRespond;
    var start := Start(opt);
    assert RunsTo(start, [], start);
    var e1 := Incoming(Req(invite), Udp, Good(0));
    var sys1 := InviteComesIn(start, invite, key, 0);
    var tx1 := NewTx(ServerInvite, key, invite, Some(Udp));
    var e2 := CallRespond(0, refusal, Good(0));
    var sys2 := UserAnswers(sys1, 0, tx1, refusal, Good(0));
    FirstAnswer(TE(tx1, sys1.ep), key, invite, refusal, Good(0));
    var tx2 := DoRespond(TE(tx1, sys1.ep), refusal, Good(0)).s.tx;
    var sys3 := DroppedAnswered(sys2, tx2, refusal);
    var sys4 := CleanupRuns(sys3, key, Resp(refusal), opt.t1x64);
    var e5 := Incoming(Req(invite), Udp, Good(opt.t1x64));
    var sys5 := InviteComesIn(sys4, invite, key, opt.t1x64);
    var e6 := CallRespond(1, ok, Good(opt.t1x64));
    sys := UserAnswers(sys5, 1, tx1, ok, Good(opt.t1x64));
    FirstAnswer(TE(tx1, sys5.ep), key, invite, ok, Good(opt.t1x64));
    RunsOneMore(start, [], start, e1, sys1);
    RunsOneMore(start, [] + [e1], sys1, e2, sys2);
    RunsOneMore(start, [] + [e1] + [e2], sys2, Drop(0, Good(0)), sys3);
    RunsOneMore(start, [] + [e1] + [e2] + [Drop(0, Good(0))], sys3, FireCleanup(key, opt.t1x64), sys4);
    RunsOneMore(start, [] + [e1] + [e2] + [Drop(0, Good(0))] + [FireCleanup(key, opt.t1x64)], sys4, e5, sys5);
    es := [] + [e1] + [e2] + [Drop(0, Good(0))] + [FireCleanup(key, opt.t1x64)] + [e5] + [e6];
    RunsOneMore(start, [] + [e1] + [e2] + [Drop(0, Good(0))] + [FireCleanup(key, opt.t1x64)] + [e5], sys5, e6, sys);
    FinalOnWire(sys1.ep, sys2.ep, refusal);
  }

  lemma FinalOnWire(ep: Ep, ep': Ep, r: Response)
    requires ep'.wire == ep.wire + [Resp(r)]
    ensures Resp(r) in ep'.wire
  {
    assert ep'.wire[|ep.wire|] == Resp(r);
  }

  // ---- A final response that could not be written ------------------------------------------------------

  /** A response whose write fails is kept all the same: state and wire stay as they were. */
  lemma FailedWriteIsKept(s: TE, r: Response, env: Env)
    requires !IsClient(s.tx.kind) && InSetup(s.tx.state) && !s.tx.state.Nothing? && !s.tx.state.Calling? && s.tx.conn.Some?
    requires Final(r) && !env.sendOk
    ensures DoRespond(s, r, env) == Moved(s.(tx := s.tx.(lastResponse := Some(r))), false)
  {
    hide Transition;
  }

  /** A retransmitted request takes a server transaction out of setup exactly when the response it keeps
      is a final one, which only a failed write leaves there, and the write succeeds now. */
  lemma RepeatEndsSetupExactlyWhen(s: TE, r: Request, conn: Option<Conn>, env: Env)
    requires s.tx.kind.ServerInvite? && (s.tx.state.Trying? || s.tx.state.Proceeding?) && s.tx.conn.Some?
    requires r.verb != Cancel && (s.tx.lastResponse.Some? ==> Answers(s.tx.original, s.tx.lastResponse.value))
    ensures var s' := OnRequest(s, r, conn, env).s;
            !InSetup(s'.tx.state) <==> s.tx.lastResponse.Some? && Final(s.tx.lastResponse.value) && env.sendOk
    ensures s.tx.lastResponse.Some? && Final(s.tx.lastResponse.value) && env.sendOk ==>
              OnRequest(s, r, conn, env).s.ep.wire == s.ep.wire + [Resp(s.tx.lastResponse.value)]
  {
    hide Transition, ResponseDialog;
    if s.tx.lastResponse.Some? {
      var last := s.tx.lastResponse.value;
      var s1 := WriteMsg(s.(tx := s.tx.(lastResponse := Some(last))), Resp(last), true);
      TransitionFacts(s1, RespondState(s.tx.kind, last), env);
    }
  }

  /** A run on which the user is told that its refusal failed, and the refusal goes out later all the
      same, when the INVITE comes once more. */
  lemma RefusalGoesOutLater(opt: EndpointOption, key: Key, invite: Request, refusal: Response)
    returns (es: seq<Event>, refused: Sys, more: seq<Event>, sys: Sys)
    requires invite.verb == Invite && RequestKey(invite, Server) == Some(key)
    requires Answers(invite, refusal) && Final(refusal) && !Successful(refusal)
    ensures RunsTo(Start(opt), es, refused) && RunsTo(refused, more, sys)
    ensures refused.ep.wire == [] && 0 in refused.txs && refused.txs[0].state.Trying?
    ensures forall i :: 0 <= i < |more| ==> !more[i].CallRespond? && !more[i].QueueRespond?
    ensures sys.ep.wire == [Resp(refusal)] && 0 in sys.txs && sys.txs[0].state.Completed?
  {
    hide Step, Possible, RequestKey, Answers, Receive, DoRespond;
    var start := Start(opt);
    var lost := Good(0).(sendOk := false);
    var e1, e2 := Incoming(Req(invite), Udp, Good(0)), CallRespond(0, refusal, lost);
    var sys1 := InviteComesIn(start, invite, key, 0);
    var tx1 := NewTx(ServerInvite, key, invite, Some(Udp));
    refused := UserAnswers(sys1, 0, tx1, refusal, lost);
    FailedWriteIsKept(TE(tx1, sys1.ep), refusal, lost);
    var tx2 := tx1.(lastResponse := Some(refusal));
    TwoSteps(start, e1, sys1, e2, refused);
    var sys3 := LoneIsAsked(refused, tx2, invite, 0);
    var tx3 := tx2.(queue := [Received(Req(invite), Some(Udp))]);
    assert tx2.queue + [Received(Req(invite), Some(Udp))] == [Received(Req(invite), Some(Udp))];
    sys := LoneReceives(sys3, tx3, Good(0));
    AskedAgain(TE(tx3, sys3.ep), invite, refusal);
    es := [e1, e2];
    more := [e1, CallReceive(0, Good(0))];
    TwoSteps(refused, e1, sys3, CallReceive(0, Good(0)), sys);
  }

  lemma AskedAgain(s: TE, invite: Request, refusal: Response)
    requires s.tx.queue == [Received(Req(invite), Some(Udp))] && s.tx.kind.ServerInvite? && s.tx.state.Trying? && s.tx.conn.Some?
    requires invite.verb == Invite && s.tx.original == invite && s.tx.lastResponse == Some(refusal) && Answers(invite, refusal)
    requires Final(refusal) && !Successful(refusal)
    ensures Receive(s, Good(0)).tx.state.Completed? && Receive(s, Good(0)).ep.wire == s.ep.wire + [Resp(refusal)]
  {
    assert s.tx.queue[1..] == [];
    hide Transition, ResponseDialog;
    var p := Pop(s);
    var s1 := WriteMsg(p.(tx := p.tx.(lastResponse := Some(refusal))), Resp(refusal), true);
    TransitionFacts(s1, Completed, Good(0));
  }

  /** A copy of its request reaches it. */
  lemma LoneIsAsked(sys: Sys, tx: Tx, r: Request, at: nat) returns (sys': Sys)
    requires Lone(sys, tx) && !tx.cleanedUp && sys.now <= at
    requires tx.key in sys.ep.table && sys.ep.finished == map[] && RequestKey(r, Server) == Some(tx.key) && r.verb != Ack
    ensures StepsTo(sys, Incoming(Req(r), Udp, Good(at)), sys') && sys'.ep == sys.ep && sys'.now == at
    ensures Lone(sys', tx.(queue := tx.queue + [Received(Req(r), Some(Udp))]))
  {
    hide RequestKey, RequestDialog;
    assert Possible(sys, Incoming(Req(r), Udp, Good(at)));
    sys' := Step(sys, Incoming(Req(r), Udp, Good(at)));
    assert Owns(sys, 0, tx.key);
    assert Owner(sys, tx.key) == Some(0);
  }

  // ---- Two INVITEs answered in one dialog ----------------------------------------------------------------

  /** A run on which an INVITE and a copy of it over another path, of one CSeq number, are answered with
      successes of one dialog: the ACK of the first answer goes to the copy's transaction, and the
      answered one goes on waiting. */
  lemma AckGoesToTheCopy(opt: EndpointOption, key: Key, other: Key, invite: Request, copy: Request,
                         r: Response, again: Response, ack: Request)
    returns (es: seq<Event>, sys: Sys, got: Sys)
    requires invite.verb == Invite && RequestKey(invite, Server) == Some(key)
    requires copy.verb == Invite && RequestKey(copy, Server) == Some(other) && other != key
    requires copy.ids.cseq == invite.ids.cseq && Acknowledges(ack, r, invite.ids.cseq)
    requires Answers(invite, r) && Successful(r) && Answers(copy, again) && Successful(again)
    requires ResponseDialog(r, Server).Some? && ResponseDialog(again, Server) == ResponseDialog(r, Server)
    ensures RunsTo(Start(opt), es, sys) && CallRespond(0, r, Good(0)) in es
    ensures Waits(sys, 0) && sys.txs[0].key == key && sys.txs[0].original == invite
    ensures StepsTo(sys, Incoming(Req(ack), Udp, Good(0)), got) && 0 in got.txs && got.txs[0] == sys.txs[0]
  {
    hide Step, Possible, RequestKey, Answers, DoRespond, Consistent, ToSend, ResponseDialog;
    var start, tx0, tx1 := Start(opt), NewTx(ServerInvite, key, invite, Some(Udp)), NewTx(ServerInvite, other, copy, Some(Udp));
    var e1, e2 := Incoming(Req(invite), Udp, Good(0)), Incoming(Req(copy), Udp, Good(0));
    var e3, e4 := CallRespond(0, r, Good(0)), CallRespond(1, again, Good(0));
    var sys1 := InviteComesIn(start, invite, key, 0);
    var sys2 := InviteComesIn(sys1, copy, other, 0);
    var sys3 := UserAnswers(sys2, 0, tx0, r, Good(0));
    FirstAnswer(TE(tx0, sys2.ep), key, invite, r, Good(0));
    sys := UserAnswers(sys3, 1, tx1, again, Good(0));
    FirstAnswer(TE(tx1, sys3.ep), other, copy, again, Good(0));
    TwoSteps(start, e1, sys1, e2, sys2);
    TwoSteps(sys2, e3, sys3, e4, sys);
    RunsOn(start, [e1, e2], sys2, [e3, e4], sys);
    es := [e1, e2] + [e3, e4];
    assert es[2] == e3;
    RunsOneMore(start, [e1, e2], sys2, e3, sys3);
    AckDialog(ack, r);
    got := AckAtTheLast(opt, [e1, e2] + [e3], sys3, e4, sys, ack, Udp);
  }

  /** An ACK goes to the transaction that was the last to answer in its dialog. */
  lemma AckAtTheLast(opt: EndpointOption, es: seq<Event>, sys: Sys, e: Event, answered: Sys, ack: Request, conn: Conn)
    returns (got: Sys)
    requires RunsTo(Start(opt), es, sys) && StepsTo(sys, e, answered) && e.CallRespond? && e.id in sys.txs
    requires !Waits(sys, e.id) && Waits(answered, e.id) && answered.now == 0
    requires ack.verb == Ack && ack.ids.cseq == sys.txs[e.id].original.ids.cseq
    requires ResponseDialog(e.response, Server) == RequestDialog(ack, Server)
    ensures StepsTo(answered, Incoming(Req(ack), conn, Good(0)), got)
    ensures forall id :: id in answered.txs && id != e.id ==> id in got.txs && got.txs[id] == answered.txs[id]
  {
    hide Step, Run, After, Consistent, ResponseDialog, RequestDialog, Held;
    StartConsistent(opt);
    RunConsistent(Start(opt), es);
    AcceptingRegisters(sys, e, e.id);
    StepConsistent(sys, e);
    StepAdvances(sys, e);
    assert Possible(answered, Incoming(Req(ack), conn, Good(0)));
    got := Step(answered, Incoming(Req(ack), conn, Good(0)));
    AckIsDelivered(answered, e.id, ResponseDialog(e.response, Server).value, ack, conn, Good(0), got);
  }

  // ---- A response before `send` ----------------------------------------------------------------

  /** A non-INVITE client that handles a provisional response before `send` waits with no timer at
      all: the guarantee that nobody is stuck needs `send` first. */
  lemma ResponseBeforeSend(key: Key, original: Request, r: Response, env: Env, ep: Ep)
    requires Provisional(r)
    ensures var tx := NewTx(ClientNonInvite, key, original, None).(queue := [Received(Resp(r), None)]);
            var tx' := Receive(TE(tx, ep), env).tx;
            (tx'.state.Trying? || tx'.state.Proceeding?) && tx'.pending == map[] && tx'.queue == [] && !Alive(tx')
  {
    var tx := NewTx(ClientNonInvite, key, original, None).(queue := [Received(Resp(r), None)]);
    assert tx.queue[1..] == [];
    var s := TE(tx.(queue := [], lastResponse := Some(r)), ep);
    var target := ResponseState(ClientNonInvite, r, ep.opt);
    ProvisionalEntry(s, target, env);
    hide Transition, TimersOf, SyntheticQueued;
  }

  lemma ProvisionalEntry(s: TE, target: State, env: Env)
    requires s.tx.kind.ClientNonInvite? && s.tx.state.Nothing? && s.tx.pending == map[] && s.tx.queue == []
    requires target.Trying? || target.Proceeding?
    ensures var tx := Transition(s, target, env).s.tx;
            tx.state == target && tx.pending == map[] && tx.queue == [] && tx.kind == s.tx.kind
            && tx.log.delivered == s.tx.log.delivered && !Guarded(tx, B)
  {
    assert s.tx.pending - {A} == map[];
  }
}
