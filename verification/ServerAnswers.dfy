/**
 A server INVITE is answered once and for all: every final response an endpoint
 writes for it, first or repeated, live or from the cache, has the same class.
 */
module ServerAnswers {
  import opened Prelude
  import opened SipMessages
  import opened TransactionKey
  import opened EndpointSpec
  import opened TransactionSpec
  import opened TransactionSanity
  import opened TransactionInvariant
  import opened TransactionHandlers
  import opened NeverStuck
  import opened TableSteps
  import opened StateOrder
  import opened System
  import opened SystemSteps
  import opened RunTheorems

  // ---- What one transaction writes ------------------------------------------------------

  predicate FinalToInvite(m: SipMessage) {
    m.Resp? && m.response.verb == Invite && Final(m.response)
  }

  /** The state of a server INVITE that committed to this class. */
  predicate Committed(state: State, success: bool) {
    if success then state.Accepted? else state.Completed? || state.Confirmed?
  }

  predicate OkWrite(tx: Tx, m: SipMessage) {
    FinalToInvite(m) ==>
      tx.kind.ServerInvite? && Answers(tx.original, m.response) && Committed(tx.state, Successful(m.response))
  }

  ghost predicate Writes(s: TE, s': TE) {
    && IsPrefix(s.ep.wire, s'.ep.wire)
    && forall i :: |s.ep.wire| <= i < |s'.ep.wire| ==> OkWrite(s'.tx, s'.ep.wire[i])
  }

  lemma TransitionWire(s: TE, target: State, env: Env)
    ensures Transition(s, target, env).s.ep.wire == s.ep.wire
  {
    if !target.Terminated? {
      TransitionFacts(s, target, env);
      hide Transition;
    } else if !s.tx.cleanedUp {
      DoCleanupFacts(s, env);
      hide DoCleanup, LastMessage;
    }
  }

  lemma SameWire(s: TE, s': TE)
    requires s'.ep.wire == s.ep.wire
    ensures Writes(s, s')
  {
  }

  /** One more message. */
  lemma OneWrite(s: TE, s': TE, m: SipMessage)
    requires s'.ep.wire == s.ep.wire || s'.ep.wire == s.ep.wire + [m]
    requires OkWrite(s'.tx, m)
    ensures Writes(s, s')
  {
  }

  lemma RespondWrites(s: TE, r: Response, env: Env)
    requires !IsClient(s.tx.kind) ==> Answers(s.tx.original, r) && s.tx.kind == ServerKind(s.tx.original)
    requires s.tx.kind.ServerInvite? ==> s.tx.original.verb == Invite
    ensures Writes(s, DoRespond(s, r, env).s)
  {
    hide Transition, CanTransition, Writes, Answers;
    var target := RespondState(s.tx.kind, r);
    if !IsClient(s.tx.kind) && CanTransition(s.tx.state, target) && s.tx.conn.Some? && env.sendOk {
      var s1 := WriteMsg(s.(tx := s.tx.(lastResponse := Some(r))), Resp(r), true);
      var s' := Transition(s1, target, env).s;
      TransitionWire(s1, target, env);
      RespondCommits(s, s1, r, env);
      OneWrite(s, s', Resp(r));
    } else {
      SameWire(s, s);
      SameWire(s, s.(tx := s.tx.(lastResponse := Some(r))));
    }
  }

  lemma RespondCommits(s: TE, s1: TE, r: Response, env: Env)
    requires !IsClient(s.tx.kind) && Answers(s.tx.original, r) && s.tx.kind == ServerKind(s.tx.original) && s.tx.conn.Some?
    requires s.tx.kind.ServerInvite? ==> s.tx.original.verb == Invite
    requires s1.tx == s.tx.(lastResponse := Some(r))
    ensures OkWrite(Transition(s1, RespondState(s.tx.kind, r), env).s.tx, Resp(r))
  {
    var target := RespondState(s.tx.kind, r);
    if !target.Terminated? {
      TransitionFacts(s1, target, env);
    }
    hide Transition;
  }

  lemma OnCancelWrites(s: TE, r: Request, env: Env)
    requires r.verb == Cancel
    ensures Writes(s, OnCancel(s, r, env).s)
  {
    hide Writes, Answers;
    var code := if s.tx.state.Proceeding? || s.tx.state.Trying? || s.tx.state.Completed? then 200 else 481;
    OneWrite(s, OnCancel(s, r, env).s, Resp(MakeResponse(r, code)));
  }

  lemma OnRequestWrites(s0: TE, r: Request, conn: Option<Conn>, env: Env)
    requires Sane(s0.tx) && KindOk(s0.tx.kind, s0.tx.original)
    ensures Writes(s0, OnRequest(s0, r, conn, env).s)
  {
    var s := if s0.tx.conn.None? then s0.(tx := s0.tx.(conn := conn)) else s0;
    hide Transition, DoRespond, CanTransition, Writes, OnCancel;
    SameWire(s0, s);
    SameWire(s0, s0);
    TransitionWire(s, Confirmed, env);
    TransitionWire(s, Terminated, env);
    SameWire(s0, Transition(s, Confirmed, env).s);
    SameWire(s0, Transition(s, Terminated, env).s);
    if r.verb == Cancel {
      OnCancelWrites(s, r, env);
      FromSame(s0, s, OnCancel(s, r, env).s);
    }
    if s.tx.lastResponse.Some? && !IsClient(s.tx.kind) {
      RespondWrites(s, s.tx.lastResponse.value, env);
      assert Writes(s0, DoRespond(s, s.tx.lastResponse.value, env).s) by { FromSame(s0, s, DoRespond(s, s.tx.lastResponse.value, env).s); }
    }
  }

  lemma FromSame(s0: TE, s: TE, s': TE)
    requires s.ep.wire == s0.ep.wire && Writes(s, s')
    ensures Writes(s0, s')
  {
  }

  lemma SendAckWrites(s: TE, conn: Option<Conn>, env: Env)
    ensures Writes(s, SendAck(s, conn, env).s)
  {
    hide Transition, ChooseAck, Writes;
    SameWire(s, s);
    var chosen := ChooseAck(s.tx, env.branch);
    if chosen.Some? {
      var s1 := PutAck(s, chosen.value, conn, env);
      TransitionWire(s1, Terminated, env);
      var m := Req(s1.tx.lastAck.value);
      OneWrite(s, s1, m);
      OneWrite(s, Transition(s1, Terminated, env).s, m);
    }
  }

  lemma OnResponseWrites(s: TE, r: Response, conn: Option<Conn>, env: Env)
    ensures Writes(s, OnResponse(s, r, conn, env).s)
  {
    hide Transition, SendAck, Duplicate, CanTransition, Writes;
    var target := ResponseState(s.tx.kind, r, s.ep.opt);
    var s0 := s.(tx := s.tx.(lastResponse := Some(r)));
    var s1 := Transition(s0, target, env).s;
    SameWire(s, s);
    TransitionWire(s, Accepted, env);
    TransitionWire(s0, target, env);
    SameWire(s, s1);
    SendAckWrites(s1, conn, env);
    FromSame(s, s1, SendAck(s1, conn, env).s);
    var m := Transition(s, Accepted, env).s;
    SameWire(s, m);
    SameWire(s, m.(tx := m.tx.(lastResponse := Some(r))));
    SameWire(s, s0);
  }

  lemma RetransmitWrites(s: TE, span: nat, env: Env)
    requires Sane(s.tx) && s.tx.kind.ServerInvite? && (s.tx.state.Accepted? || s.tx.state.Completed?)
    ensures Writes(s, RetransmitLastResponse(s, span, env).s)
  {
    var s' := RetransmitLastResponse(s, span, env).s;
    assert OkWrite(s'.tx, Resp(s.tx.lastResponse.value)) by { hide TimersOf; }
    OneWrite(s, s', Resp(s.tx.lastResponse.value)) by { hide OkWrite, Sane, TimersOf; }
  }

  lemma ResendWrites(s: TE, span: nat, env: Env)
    ensures Writes(s, ResendRequest(s, span, env))
  {
    hide TimersOf, Writes;
    OneWrite(s, ResendRequest(s, span, env), Req(s.tx.original));
  }

  lemma OnTimerWrites(s: TE, t: TxTimer, env: Env)
    requires Sane(s.tx) && (s.tx.kind.ClientInvite? ==> !s.tx.state.Completed?)
    ensures Writes(s, OnTimer(s, t, env))
  {
    assert Reaches(s.tx.kind, s.tx.state);
    hide Transition, ResendRequest, RetransmitLastResponse, Writes;
    SameWire(s, s);
    TransitionWire(s, Terminated, env);
    SameWire(s, Transition(s, Terminated, env).s);
    SameWire(s, TransactionSpec.Enqueue(s, Synthetic(s.tx, 408)));
    if t.TxTimer? {
      ResendWrites(s, t.span, env);
      if s.tx.kind.ServerInvite? && (s.tx.state.Accepted? || s.tx.state.Completed?) { RetransmitWrites(s, t.span, env); }
    }
    hide Sane;
  }

  lemma SendWrites(s: TE, env: Env)
    ensures Writes(s, Send(s, env).s)
  {
    hide Transition, Writes;
    SameWire(s, s);
    TransitionWire(Written(s, env), Calling, env);
    OneWrite(s, Send(s, env).s, Req(s.tx.original));
  }

  lemma CallWrites(s: TE, e: Event)
    requires IsCall(e) && (e.CallReceive? ==> s.tx.queue != []) && (e.FireTimer? ==> e.slot in s.tx.pending)
    requires e.CallRespond? && !IsClient(s.tx.kind) ==> Answers(s.tx.original, e.response)
    requires Sane(s.tx) && Alive(s.tx) && KindOk(s.tx.kind, s.tx.original)
    ensures Writes(s, Called(s, e))
  {
    assert s.tx.kind.ServerInvite? ==> s.tx.original.verb == Invite;
    assert s.tx.kind.ClientInvite? ==> !s.tx.state.Completed?;
    hide Send, Receive, DoRespond, SendAck, Writes, Sane, Alive, Answers;
    if e.QueueRespond? || e.CallStop? || e.FireTimer? { SameWire(s, Called(s, e)); }
    match e
    case CallSend(_, env) => SendWrites(s, env);
    case CallReceive(_, env) => ReceiveWrites(s, env);
    case CallRespond(_, r, env) => RespondWrites(s, r, env);
    case CallSendAck(_, conn, env) => SendAckWrites(s, conn, env);
    case _ =>
  }

  lemma ReceiveWrites(s0: TE, env: Env)
    requires s0.tx.queue != [] && Sane(s0.tx) && (s0.tx.kind.ClientInvite? ==> !s0.tx.state.Completed?) && KindOk(s0.tx.kind, s0.tx.original)
    ensures Writes(s0, Receive(s0, env))
  {
    var s, e := Pop(s0), s0.tx.queue[0];
    PopSane(s0.tx);
    var h := Handle(s, e, env);
    assert s.tx.kind.ServerInvite? ==> s.tx.original.verb == Invite;
    hide OnRequest, OnResponse, OnTimer, DoRespond, Writes, Sane, Answers;
    match e {
      case Received(msg, conn) =>
        match msg {
          case Req(req) => OnRequestWrites(s, req, conn, env);
          case Resp(resp) => OnResponseWrites(s, resp, conn, env);
        }
      case Fired(t) => OnTimerWrites(s, t, env);
      case Respond(r) => RespondWrites(s, r, env);
      case Terminate(_) => SameWire(s, s);
    }
    hide Handle;
    FromSame(s0, s, h.s);
    Noted(s0, h);
  }

  lemma Noted(s: TE, h: Handled)
    requires Writes(s, h.s)
    ensures Writes(s, NoteDelivery(h))
  {
  }

  // ---- One class per key --------------------------------------------------------------------

  /** A final response to the INVITE with this server key. */
  predicate AnswerTo(m: SipMessage, key: Key) {
    FinalToInvite(m) && ResponseKey(m.response, Server) == Some(key)
  }

  /** The transaction or the cached message that stands for `key` agrees with the answer `m`. */
  ghost predicate Agrees(sys: Sys, key: Key, success: bool) {
    && (forall id :: Owns(sys, id, key) ==> Committed(sys.txs[id].state, success))
    && (key in sys.ep.finished ==>
          FinalToInvite(sys.ep.finished[key]) && Successful(sys.ep.finished[key].response) == success)
  }

  ghost predicate OneClass(sys: Sys, key: Key) {
    && (forall m :: m in sys.ep.wire && AnswerTo(m, key) ==> Agrees(sys, key, Successful(m.response)))
    && (forall m, n :: m in sys.ep.wire && n in sys.ep.wire && AnswerTo(m, key) && AnswerTo(n, key) ==>
          Successful(m.response) == Successful(n.response))
  }

  /** What the cache holds for a server key answers the request with that key. */
  ghost predicate CacheOk(sys: Sys) {
    forall k :: k in sys.ep.finished && FinalToInvite(sys.ep.finished[k]) ==> AnswerTo(sys.ep.finished[k], k)
  }

  // ---- What an ended transaction leaves ------------------------------------------------------

  /** A client leaves an ACK or nothing; a server a response to its request, an INVITE its last one. */
  ghost predicate Leaves(s: TE, s': TE) {
    s'.tx.cleanedUp && !s.tx.cleanedUp && s.tx.key in s'.ep.finished ==>
      var m := s'.ep.finished[s.tx.key];
      if IsClient(s.tx.kind) then m.Req?
      else m.Resp? && Answers(s.tx.original, m.response) && (s.tx.kind.ServerInvite? ==> s.tx.lastResponse == Some(m.response))
  }

  lemma CleanupLeaves(s: TE, env: Env)
    requires Sane(s.tx) && !s.tx.cleanedUp && s.tx.key !in s.ep.finished
    ensures Leaves(s, DoCleanup(s, env))
  {
    DoCleanupFacts(s, env);
    hide DoCleanup, MakeAck;
  }

  lemma MoveLeaves(s: TE, target: State, env: Env)
    requires Sane(s.tx) && s.tx.key !in s.ep.finished
    ensures Leaves(s, Transition(s, target, env).s)
  {
    if target.Terminated? {
      if !s.tx.cleanedUp { CleanupLeaves(s, env); }
      hide DoCleanup, Sane;
    } else {
      TransitionFacts(s, target, env);
      hide Transition, Sane;
    }
  }

  lemma RespondLeaves(s: TE, r: Response, env: Env)
    requires Sane(s.tx) && s.tx.key !in s.ep.finished && (!IsClient(s.tx.kind) ==> Answers(s.tx.original, r))
    ensures Leaves(s, DoRespond(s, r, env).s)
  {
    hide Transition;
    var target := RespondState(s.tx.kind, r);
    if !IsClient(s.tx.kind) && CanTransition(s.tx.state, target) && s.tx.conn.Some? {
      var s1 := WriteMsg(s.(tx := s.tx.(lastResponse := Some(r))), Resp(r), true);
      if target.Terminated? {
        assert Sane(s1.tx) by {
          forall i | 0 <= i < |s1.tx.queue| ensures OkEvent(s1.tx, s1.tx.queue[i]) { assert OkEvent(s.tx, s.tx.queue[i]); }
        }
        MoveLeaves(s1, target, env);
      } else {
        TransitionFacts(s1, target, env);
      }
    }
    hide Sane;
  }

  lemma OnRequestLeaves(s0: TE, r: Request, conn: Option<Conn>, env: Env)
    requires Sane(s0.tx) && s0.tx.key !in s0.ep.finished
    ensures Leaves(s0, OnRequest(s0, r, conn, env).s)
  {
    var s, s' := Connected(s0, conn), OnRequest(s0, r, conn, env).s;
    SameSane(s0.tx, s.tx);
    assert !IsClient(s.tx.kind) && s.tx.lastResponse.Some? ==> Answers(s.tx.original, s.tx.lastResponse.value);
    RequestCases(s0, r, conn, env);
    hide OnRequest, Transition, DoRespond, OnCancel, Sane, Leaves, Answers;
    LivingLeaves(s0, s');
    OnCancelKeeps(s, r, env);
    MoveLeaves(s, Confirmed, env);
    MoveLeaves(s, Terminated, env);
    if s.tx.lastResponse.Some? && !IsClient(s.tx.kind) { RespondLeaves(s, s.tx.lastResponse.value, env); }
    if s' != s0 && s'.tx != s.tx { LeavesFrom(s0, s, s'); }
  }

  lemma LivingLeaves(s: TE, s': TE)
    ensures s'.tx.cleanedUp == s.tx.cleanedUp ==> Leaves(s, s')
  {
  }

  lemma LeavesFrom(s0: TE, s: TE, s': TE)
    requires Leaves(s, s') && SameIdentity(s0.tx, s.tx) && s.tx.cleanedUp == s0.tx.cleanedUp && s.tx.lastResponse == s0.tx.lastResponse
    ensures Leaves(s0, s')
  {
  }

  lemma OnTimerLeaves(s: TE, t: TxTimer, env: Env)
    requires Sane(s.tx) && s.tx.key !in s.ep.finished
    ensures Leaves(s, OnTimer(s, t, env))
  {
    hide Transition, TimersOf, Sane, Answers;
    MoveLeaves(s, Terminated, env);
  }

  lemma SendAckLeaves(s: TE, conn: Option<Conn>, env: Env)
    requires s.tx.key !in s.ep.finished
    ensures Leaves(s, SendAck(s, conn, env).s)
  {
    hide ChooseAck, Transition, Answers;
    var chosen := ChooseAck(s.tx, env.branch);
    if s.tx.kind.ClientInvite? && s.tx.state.Completed? && chosen.Some? {
      var s1 := PutAck(s, chosen.value, conn, env);
      ClientEnds(s1, env);
    }
  }

  lemma ClientEnds(s: TE, env: Env)
    requires IsClient(s.tx.kind) && s.tx.key !in s.ep.finished
    ensures Leaves(s, Transition(s, Terminated, env).s)
  {
    if !s.tx.cleanedUp {
      DoCleanupFacts(s, env);
      hide DoCleanup, MakeAck;
    }
  }

  lemma OnResponseLeaves(s: TE, r: Response, conn: Option<Conn>, env: Env)
    requires s.tx.key !in s.ep.finished
    ensures Leaves(s, OnResponse(s, r, conn, env).s)
  {
    hide Transition, SendAck, Duplicate, CanTransition, Answers;
    if IsClient(s.tx.kind) {
      var target := ResponseState(s.tx.kind, r, s.ep.opt);
      var s0 := s.(tx := s.tx.(lastResponse := Some(r)));
      TransitionFacts(s, Accepted, env);
      if target.Terminated? {
        ClientEnds(s0, env);
      } else {
        TransitionFacts(s0, target, env);
        SendAckLeaves(Transition(s0, target, env).s, conn, env);
      }
    }
  }

  lemma ReceiveLeaves(s0: TE, env: Env)
    requires s0.tx.queue != [] && Sane(s0.tx) && s0.tx.key !in s0.ep.finished
    ensures Leaves(s0, Receive(s0, env))
  {
    var s, e := Pop(s0), s0.tx.queue[0];
    PopSane(s0.tx);
    hide OnRequest, OnResponse, OnTimer, DoRespond, Sane, Answers;
    match e {
      case Received(msg, conn) =>
        match msg {
          case Req(req) => OnRequestLeaves(s, req, conn, env);
          case Resp(resp) => OnResponseLeaves(s, resp, conn, env);
        }
      case Fired(t) => OnTimerLeaves(s, t, env);
      case Respond(r) => RespondLeaves(s, r, env);
      case Terminate(_) =>
    }
  }

  lemma CallLeaves(s: TE, e: Event)
    requires IsCall(e) && (e.CallReceive? ==> s.tx.queue != []) && (e.FireTimer? ==> e.slot in s.tx.pending)
    requires e.CallRespond? && !IsClient(s.tx.kind) ==> Answers(s.tx.original, e.response)
    requires Sane(s.tx) && s.tx.key !in s.ep.finished
    ensures Leaves(s, Called(s, e))
  {
    hide Receive, DoRespond, SendAck, Sane, Answers, Transition;
    match e
    case CallSend(_, env) => TransitionFacts(Written(s, env), Calling, env);
    case CallReceive(_, env) => ReceiveLeaves(s, env);
    case CallRespond(_, r, env) => RespondLeaves(s, r, env);
    case CallSendAck(_, conn, env) => SendAckLeaves(s, conn, env);
    case _ =>
  }

  // ---- Keys --------------------------------------------------------------------------------

  /** The answers to a server INVITE carry its key. */
  lemma AnswersItsKey(tx: Tx, r: Response)
    requires tx.kind.ServerInvite? && tx.original.verb == Invite && RequestKey(tx.original, Server) == Some(tx.key)
    requires Answers(tx.original, r)
    ensures ResponseKey(r, Server) == Some(tx.key)
  {
    hide BuildKey;
  }

  /** Only a server INVITE transaction owns the key of an answer. */
  lemma AnswerOwner(sys: Sys, id: nat, m: SipMessage)
    requires Consistent(sys) && id in sys.txs && AnswerTo(m, sys.txs[id].key)
    ensures sys.txs[id].kind.ServerInvite?
  {
    HealthyAt(sys, id, sys.now);
    hide Consistent, Inv, Alive;
    var tx, o, i := sys.txs[id], sys.txs[id].original, m.response.ids;
    var verb := if (o.verb == Ack || o.verb == Cancel) && !IsClient(tx.kind) then Invite else o.verb;
    assert tx.key == BuildKey(Server, i.via, Invite, i.cseq, i.fromTag.value, i.callId);
    assert tx.key == BuildKey(RoleOf(tx.kind), o.ids.via, verb, o.ids.cseq, o.ids.fromTag.value, o.ids.callId);
    KeyDeterminesHead(Server, i.via, Invite, i.cseq, i.fromTag.value, i.callId,
                      RoleOf(tx.kind), o.ids.via, verb, o.ids.cseq, o.ids.fromTag.value, o.ids.callId);
    hide BuildKey;
  }

  // ---- Steps ---------------------------------------------------------------------------------

  /** A committed class stays, until the transaction terminates. */
  lemma CommitStays(from: State, to: State, success: bool)
    requires Committed(from, success) && Forward(from, to)
    ensures Committed(to, success) || to.Terminated?
    ensures forall other: bool :: Committed(to, other) ==> other == success
  {
  }

  /** A step of the transaction `id`. */
  ghost predicate TxStep(sys: Sys, id: nat, s': TE, sys': Sys) {
    && Consistent(sys) && Consistent(sys') && id in sys.txs
    && sys'.ep == s'.ep && sys.txs.Keys - {id} <= sys'.txs.Keys <= sys.txs.Keys
    && (id in sys'.txs ==> sys'.txs[id] == s'.tx)
    && (id !in sys'.txs ==> s'.tx.cleanedUp)
    && (forall j :: j in sys.txs && j != id ==> j in sys'.txs && sys'.txs[j] == sys.txs[j])
    && SameIdentity(sys.txs[id], s'.tx) && (sys.txs[id].cleanedUp ==> s'.tx.cleanedUp)
    && Leaves(At(sys, id), s')
    && (forall k :: k in s'.ep.finished && k != sys.txs[id].key ==> k in sys.ep.finished && s'.ep.finished[k] == sys.ep.finished[k])
    && (sys.txs[id].cleanedUp || !s'.tx.cleanedUp ==> s'.ep.finished == sys.ep.finished)
  }

  /** A transaction that ends after an answer was written leaves that answer's class behind. */
  lemma EndAgrees(sys: Sys, id: nat, s': TE, sys': Sys, success: bool, m: SipMessage)
    requires TxStep(sys, id, s', sys') && AnswerTo(m, sys.txs[id].key) && Agrees(sys, sys.txs[id].key, success)
    requires !sys.txs[id].cleanedUp && s'.tx.cleanedUp && sys.txs[id].key in s'.ep.finished
    ensures FinalToInvite(s'.ep.finished[sys.txs[id].key])
    ensures Successful(s'.ep.finished[sys.txs[id].key].response) == success
  {
    var tx := sys.txs[id];
    AnswerOwner(sys, id, m);
    HealthyAt(sys, id, sys.now);
    assert Owns(sys, id, tx.key);
    assert Sane(tx);
    hide Consistent, Inv, Alive, ResponseKey;
  }

  lemma OldAnswer(sys: Sys, id: nat, s': TE, sys': Sys, key: Key, m: SipMessage)
    requires TxStep(sys, id, s', sys') && AnswerTo(m, key) && Agrees(sys, key, Successful(m.response))
    requires Forward(sys.txs[id].state, s'.tx.state)
    ensures Agrees(sys', key, Successful(m.response))
  {
    var success, tx := Successful(m.response), sys.txs[id];
    if id in sys'.txs { HealthyAt(sys', id, sys'.now); }
    forall j | Owns(sys', j, key) ensures Committed(sys'.txs[j].state, success) {
      assert Owns(sys, j, key);
      if j == id { CommitStays(tx.state, s'.tx.state, success); }
    }
    if key in s'.ep.finished && tx.key == key && s'.tx.cleanedUp && !tx.cleanedUp {
      EndAgrees(sys, id, s', sys', success, m);
    }
    hide Consistent, AnswerTo, Committed, Inv, Alive;
  }

  /** An answer written by this step. */
  lemma NewAnswer(sys: Sys, id: nat, s': TE, sys': Sys, m: SipMessage)
    requires TxStep(sys, id, s', sys') && OkWrite(s'.tx, m) && FinalToInvite(m) && id in sys'.txs
    ensures AnswerTo(m, s'.tx.key) && Agrees(sys', s'.tx.key, Successful(m.response))
  {
    HealthyAt(sys', id, sys'.now);
    assert s'.tx.original.verb == Invite by { assert Sane(s'.tx); }
    AnswersItsKey(s'.tx, m.response);
    assert !s'.tx.cleanedUp;
    assert Owns(sys', id, s'.tx.key);
    forall j | Owns(sys', j, s'.tx.key) ensures j == id { assert UniqueKeys(sys'.txs); }
    assert s'.tx.key !in sys'.ep.finished by {
      assert s'.tx.key in LiveKeys(sys'.txs);
      assert s'.tx.key !in sys'.ep.finished.Keys * sys'.ep.table;
    }
    hide Consistent, Inv, Alive, ResponseKey;
  }
}
