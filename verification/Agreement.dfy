/**
 A client and a server endpoint joined by a network that loses, duplicates and
 reorders: both sides of an INVITE take the same class of final response
 (RFC 6026 sections 7.1 and 7.2).
 */
module Agreement {
  import opened Prelude
  import opened SipMessages
  import opened TransactionKey
  import opened EndpointSpec
  import opened TransactionSpec
  import opened TransactionSanity
  import opened TransactionInvariant
  import opened NeverStuck
  import opened TableSteps
  import opened StateOrder
  import opened LocalEvents
  import opened ClientStory
  import opened System
  import opened SystemSteps
  import opened RunTheorems
  import opened ServerAnswers
  import opened OneAnswer

  datatype Pair = Pair(client: Sys, server: Sys)

  datatype PairEvent = AtClient(event: Event) | AtServer(event: Event)

  /** Any message one side ever wrote can reach the other, any number of times, or never. */
  ghost predicate PairPossible(p: Pair, e: PairEvent) {
    match e
    case AtClient(c) => Possible(p.client, c) && (c.Incoming? && c.msg.Resp? ==> c.msg in p.server.ep.wire)
    case AtServer(s) => Possible(p.server, s) && (s.Incoming? && s.msg.Req? ==> s.msg in p.client.ep.wire)
  }

  ghost function PairStep(p: Pair, e: PairEvent): Pair
    requires PairPossible(p, e)
  {
    match e
    case AtClient(c) => p.(client := Step(p.client, c))
    case AtServer(s) => p.(server := Step(p.server, s))
  }

  /** A run in which the server starts no second transaction for `key` once it has
      answered: no copy of the INVITE outlives the 64*T1 of the server's cache. */
  ghost predicate PairRun(p: Pair, es: seq<PairEvent>, key: Key)
    decreases |es|
  {
    es != [] ==>
      && PairPossible(p, es[0])
      && (es[0].AtServer? ==> !Reborn(p.server, es[0].event, key))
      && PairRun(PairStep(p, es[0]), es[1..], key)
  }

  ghost function PairAfter(p: Pair, es: seq<PairEvent>, key: Key): Pair
    requires PairRun(p, es, key)
    decreases |es|
  {
    if es == [] then p else PairAfter(PairStep(p, es[0]), es[1..], key)
  }

  // ---- Where a client's responses come from ---------------------------------------------------

  /** A response a client holds: made locally, and a failure, or written by the server for this key. */
  predicate FromServer(key: Key, wire: seq<SipMessage>, m: SipMessage) {
    m.Resp? ==>
      if m.response.synthetic then Final(m.response) && !Successful(m.response)
      else m in wire && ResponseKey(m.response, Client) == Some(key)
  }

  ghost predicate SourcedTx(tx: Tx, wire: seq<SipMessage>) {
    && (forall e :: e in tx.queue && e.Received? ==> FromServer(tx.key, wire, e.msg))
    && (forall m :: m in tx.log.delivered ==> FromServer(tx.key, wire, m))
  }

  ghost predicate Sourced(client: Sys, wire: seq<SipMessage>) {
    forall id :: id in client.txs && IsClient(client.txs[id].kind) ==> SourcedTx(client.txs[id], wire)
  }

  /** After a call, queue and deliveries hold nothing new from the network. */
  ghost predicate NothingNew(t: Tx, t': Tx) {
    && (forall e :: e in t'.queue && e.Received? ==> e in t.queue || IsSynthetic(e))
    && (forall m :: m in t'.log.delivered ==> m in t.log.delivered || exists e :: e in t.queue && e.Received? && e.msg == m)
  }

  lemma InwardNothingNew(t: Tx, t': Tx)
    requires Inward(t, t')
    ensures NothingNew(t, t')
  {
    forall e | e in t'.queue && e.Received? ensures e in t.queue || IsSynthetic(e) {
      var i :| 0 <= i < |t'.queue| && t'.queue[i] == e;
      if i < |t.queue| { assert t.queue[i] == t'.queue[..|t.queue|][i]; }
    }
  }

  lemma ReceiveNothingNew(s0: TE, env: Env)
    requires s0.tx.queue != []
    ensures NothingNew(s0.tx, Receive(s0, env).tx)
  {
    var s, e := Pop(s0), s0.tx.queue[0];
    var h := Handle(s, e, env);
    HandleInward(s, e, env);
    HandsUpTheHead(s, e, env);
    InwardNothingNew(s.tx, h.s.tx);
    hide Handle, Inward, IsSynthetic;
    assert e in s0.tx.queue;
    assert forall x :: x in s.tx.queue ==> x in s0.tx.queue;
    forall m | m in NoteDelivery(h).tx.log.delivered
      ensures m in s0.tx.log.delivered || exists x :: x in s0.tx.queue && x.Received? && x.msg == m
    {
      if m !in h.s.tx.log.delivered { assert h.up == Some(m); }
    }
  }

  lemma CallNothingNew(s: TE, e: Event)
    requires IsCall(e) && (e.CallReceive? ==> s.tx.queue != []) && (e.FireTimer? ==> e.slot in s.tx.pending)
    ensures NothingNew(s.tx, Called(s, e).tx)
  {
    hide Send, Receive, DoRespond, SendAck, Inward, NothingNew;
    match e
    case CallSend(_, env) => SendInward(s, env); InwardNothingNew(s.tx, Called(s, e).tx);
    case CallReceive(_, env) => ReceiveNothingNew(s, env);
    case CallRespond(_, r, env) => RespondInward(s, r, env); InwardNothingNew(s.tx, Called(s, e).tx);
    case CallSendAck(_, conn, env) => SendAckInward(s, conn, env); InwardNothingNew(s.tx, Called(s, e).tx);
    case QueueRespond(_, r, _) => QuietNothingNew(s.tx, Called(s, e).tx, Respond(r));
    case CallStop(_, _) => QuietNothingNew(s.tx, Called(s, e).tx, Terminate(""));
    case FireTimer(_, slot, _) => QuietNothingNew(s.tx, Called(s, e).tx, Fired(TxTimer(slot, s.tx.key, s.tx.pending[slot].span)));
  }

  lemma QuietNothingNew(t: Tx, t': Tx, e: TxEvent)
    requires t'.log.delivered == t.log.delivered && !e.Received?
    requires t'.queue == t.queue || t'.queue == t.queue + [e]
    ensures NothingNew(t, t')
  {
  }

  lemma CallSourced(t: Tx, t': Tx, wire: seq<SipMessage>)
    requires SourcedTx(t, wire) && NothingNew(t, t') && t'.key == t.key && Sane(t')
    ensures SourcedTx(t', wire)
  {
    forall e | e in t'.queue && e.Received? ensures FromServer(t.key, wire, e.msg) {
      if e !in t.queue {
        var i :| 0 <= i < |t'.queue| && t'.queue[i] == e;
        assert OkEvent(t', t'.queue[i]);
      }
    }
  }

  lemma CalledSane(client: Sys, e: Event)
    requires Consistent(client) && Possible(client, e) && IsCall(e)
    ensures Sane(Called(At(client, e.id), e).tx)
  {
    CallPossible(client, e);
    StepConsistent(client, e);
    HealthyAt(Step(client, e), e.id, Step(client, e).now);
    hide Consistent, Possible, Called, Alive, Sane;
  }

  lemma ClientCallSourced(client: Sys, e: Event, wire: seq<SipMessage>)
    requires Consistent(client) && Possible(client, e) && IsCall(e) && Sourced(client, wire)
    ensures Sourced(Step(client, e), wire)
  {
    hide Consistent, Possible, Called, NothingNew, Inv, Alive, SourcedTx, Sane;
    CallPossible(client, e);
    var t, t' := client.txs[e.id], Called(At(client, e.id), e).tx;
    CallNothingNew(At(client, e.id), e);
    HealthyAt(client, e.id, client.now);
    CallKeeps(At(client, e.id), e);
    CalledSane(client, e);
    if IsClient(t.kind) { CallSourced(t, t', wire); }
  }

  lemma ClientIncomingSourced(client: Sys, msg: SipMessage, conn: Conn, env: Env, wire: seq<SipMessage>)
    requires Sourced(client, wire) && (msg.Resp? ==> !msg.response.synthetic && msg in wire)
    ensures Sourced(StepIncoming(client, msg, conn, env), wire)
  {
    RouteAction(client.ep, msg, conn, env.sendOk);
    var sys' := StepIncoming(client, msg, conn, env);
    forall id | id in sys'.txs && IsClient(sys'.txs[id].kind) ensures SourcedTx(sys'.txs[id], wire) {
      assert id in client.txs ==> (IsClient(client.txs[id].kind) ==> SourcedTx(client.txs[id], wire));
    }
    hide Route, ResponseKey;
  }

  lemma ClientSourced(client: Sys, e: Event, wire: seq<SipMessage>)
    requires Consistent(client) && Possible(client, e) && Sourced(client, wire)
    requires e.Incoming? && e.msg.Resp? ==> e.msg in wire
    ensures Sourced(Step(client, e), wire)
  {
    if IsCall(e) {
      ClientCallSourced(client, e, wire) by { hide Consistent, Possible, Step, Sourced; }
      hide Consistent, Possible, Step, Sourced;
    } else if e.Incoming? {
      ClientIncomingSourced(client, e.msg, e.from, e.env, wire) by { hide Consistent, Sourced; }
      hide Consistent, Sourced;
    } else {
      hide Consistent, FromServer, DoCleanup, RunCleanup;
    }
  }

  lemma MoreWire(client: Sys, wire: seq<SipMessage>, more: seq<SipMessage>)
    requires Sourced(client, wire) && wire <= more
    ensures Sourced(client, more)
  {
    forall m | m in wire ensures m in more {
      var i :| 0 <= i < |wire| && wire[i] == m;
      assert more[i] == m;
    }
    forall id | id in client.txs && IsClient(client.txs[id].kind) ensures SourcedTx(client.txs[id], more) {
      assert SourcedTx(client.txs[id], wire);
    }
  }

  lemma WireGrows(sys: Sys, e: Event)
    requires Consistent(sys) && Possible(sys, e)
    ensures sys.ep.wire <= Step(sys, e).ep.wire
  {
    if IsCall(e) {
      CallTxStep(sys, e);
      hide Consistent, Possible, Called, TxStep;
    } else if e.Drop? {
      DropTxStep(sys, e.id, e.env);
      hide Consistent, DoCleanup, TxStep;
    } else if e.Incoming? {
      RouteEp(sys.ep, e.msg, e.from, e.env.sendOk);
      hide Consistent, Route, RoutesStep;
    } else {
      hide Consistent;
    }
  }

  // ---- Agreement ---------------------------------------------------------------------------------

  ghost predicate PairInv(p: Pair, key: Key) {
    && Consistent(p.client) && Consistent(p.server)
    && Sourced(p.client, p.server.ep.wire) && Stories(p.client)
    && OneClass(p.server, key) && CacheOk(p.server)
  }

  lemma PairStepInv(p: Pair, e: PairEvent, key: Key)
    requires PairInv(p, key) && PairPossible(p, e) && (e.AtServer? ==> !Reborn(p.server, e.event, key))
    ensures PairInv(PairStep(p, e), key)
  {
    hide Consistent, Possible, Step, Sourced, Stories, OneClass, CacheOk, Reborn;
    match e
    case AtClient(c) =>
      StepConsistent(p.client, c);
      ClientSourced(p.client, c, p.server.ep.wire);
      StepStories(p.client, c);
    case AtServer(s) =>
      StepConsistent(p.server, s);
      StepOneClass(p.server, s, key);
      WireGrows(p.server, s);
      MoreWire(p.client, p.server.ep.wire, Step(p.server, s).ep.wire);
  }

  lemma {:induction false} PairRunInv(p: Pair, es: seq<PairEvent>, key: Key)
    requires PairInv(p, key) && PairRun(p, es, key)
    ensures PairInv(PairAfter(p, es, key), key)
    decreases |es|
  {
    if es != [] {
      PairStepInv(p, es[0], key);
      hide PairInv, PairStep, PairPossible, Reborn;
      PairRunInv(PairStep(p, es[0]), es[1..], key);
    }
  }

  function PairStart(clientOpt: EndpointOption, serverOpt: EndpointOption): Pair {
    Pair(Start(clientOpt), Start(serverOpt))
  }

  lemma PairStartInv(clientOpt: EndpointOption, serverOpt: EndpointOption, key: Key)
    ensures PairInv(PairStart(clientOpt, serverOpt), key)
  {
    StartConsistent(clientOpt);
    StartConsistent(serverOpt);
    hide Consistent;
  }

  /** Equal client keys mean equal server keys: only the role's letter differs. */
  lemma SameTransaction(r: Response, o: Request, key: Key)
    requires ResponseKey(r, Client) == Some(key) && RequestKey(o, Client) == Some(key)
    requires o.verb == Invite
    ensures r.verb == Invite && ResponseKey(r, Server) == RequestKey(o, Server)
  {
    var a, b := BuildKey(Client, r.ids.via, r.verb, r.ids.cseq, r.ids.fromTag.value, r.ids.callId),
                BuildKey(Client, o.ids.via, o.verb, o.ids.cseq, o.ids.fromTag.value, o.ids.callId);
    KeyDeterminesHead(Client, r.ids.via, r.verb, r.ids.cseq, r.ids.fromTag.value, r.ids.callId,
                      Client, o.ids.via, o.verb, o.ids.cseq, o.ids.fromTag.value, o.ids.callId);
    KeyShape(Server, r.ids.via, r.verb, r.ids.cseq, r.ids.fromTag.value, r.ids.callId);
    KeyShape(Server, o.ids.via, o.verb, o.ids.cseq, o.ids.fromTag.value, o.ids.callId);
    hide BuildKey, AfterCSeq, Decimal, KeyHead;
  }

  /** The client INVITE `cid`, whose key at the server is `key`. */
  ghost predicate Asks(p: Pair, cid: nat, key: Key) {
    cid in p.client.txs && p.client.txs[cid].kind.ClientInvite? && RequestKey(p.client.txs[cid].original, Server) == Some(key)
  }

  /** A final response of the server that the client handed up. */
  predicate HandedUp(p: Pair, cid: nat, m: SipMessage) {
    cid in p.client.txs && m in p.client.txs[cid].log.delivered && m.Resp? && Final(m.response) && !m.response.synthetic
  }

  /** It is on the server's wire, an answer to the client's INVITE. */
  lemma HandedUpAnswers(p: Pair, key: Key, cid: nat, m: SipMessage)
    requires PairInv(p, key) && Asks(p, cid, key) && HandedUp(p, cid, m)
    ensures m in p.server.ep.wire && AnswerTo(m, key)
  {
    var tx := p.client.txs[cid];
    HealthyAt(p.client, cid, p.client.now);
    assert SourcedTx(tx, p.server.ep.wire);
    hide PairInv, Inv, Alive, RequestKey, ResponseKey;
    assert FromServer(tx.key, p.server.ep.wire, m);
    SameTransaction(m.response, tx.original, tx.key);
  }

  lemma AgreeNow(p: Pair, key: Key, cid: nat, m: SipMessage)
    requires PairInv(p, key) && Asks(p, cid, key) && HandedUp(p, cid, m)
    ensures forall n :: n in p.server.ep.wire && AnswerTo(n, key) ==> Successful(n.response) == Successful(m.response)
    ensures forall n :: HandedUp(p, cid, n) ==> Successful(n.response) == Successful(m.response)
    ensures forall sid :: Owns(p.server, sid, key) ==> Committed(p.server.txs[sid].state, Successful(m.response))
  {
    HandedUpAnswers(p, key, cid, m);
    assert OneClass(p.server, key);
    forall n | HandedUp(p, cid, n) ensures n in p.server.ep.wire && AnswerTo(n, key) { HandedUpAnswers(p, key, cid, n); }
    assert Agrees(p.server, key, Successful(m.response));
    hide PairInv, AnswerTo, Committed, RequestKey, HandedUp;
  }

  /** On every run of the pair, for a client INVITE: whatever final response of the server the client
      handed up, every final response to that INVITE that the server ever wrote is of its class, so are
      all others the client handed up, and a server transaction that still lives is committed to it. */
  lemma BothSidesAgree(clientOpt: EndpointOption, serverOpt: EndpointOption, es: seq<PairEvent>, key: Key, cid: nat, m: SipMessage)
    requires PairRun(PairStart(clientOpt, serverOpt), es, key)
    requires var p := PairAfter(PairStart(clientOpt, serverOpt), es, key); Asks(p, cid, key) && HandedUp(p, cid, m)
    ensures var p := PairAfter(PairStart(clientOpt, serverOpt), es, key);
            && (forall n :: n in p.server.ep.wire && AnswerTo(n, key) ==> Successful(n.response) == Successful(m.response))
            && (forall n :: HandedUp(p, cid, n) ==> Successful(n.response) == Successful(m.response))
            && (forall sid :: Owns(p.server, sid, key) ==> Committed(p.server.txs[sid].state, Successful(m.response)))
  {
    var p := PairAfter(PairStart(clientOpt, serverOpt), es, key);
    PairStartInv(clientOpt, serverOpt, key);
    PairRunInv(PairStart(clientOpt, serverOpt), es, key);
    hide PairRun, PairAfter, Asks, HandedUp;
    AgreeNow(p, key, cid, m);
  }

  /** So a client in Accepted faces a server in Accepted, or one that ended having written successes
      only; never Completed or Confirmed, and never a failure on the wire. */
  lemma AcceptedFacesAccepted(clientOpt: EndpointOption, serverOpt: EndpointOption, es: seq<PairEvent>, key: Key, cid: nat)
    requires PairRun(PairStart(clientOpt, serverOpt), es, key)
    requires var p := PairAfter(PairStart(clientOpt, serverOpt), es, key); Asks(p, cid, key) && p.client.txs[cid].state.Accepted?
    ensures var p := PairAfter(PairStart(clientOpt, serverOpt), es, key);
            && (forall sid :: Owns(p.server, sid, key) ==> p.server.txs[sid].state.Accepted?)
            && (forall n :: n in p.server.ep.wire && AnswerTo(n, key) ==> Successful(n.response))
  {
    var p := PairAfter(PairStart(clientOpt, serverOpt), es, key);
    PairStartInv(clientOpt, serverOpt, key);
    PairRunInv(PairStart(clientOpt, serverOpt), es, key);
    hide PairRun, PairAfter;
    var m := AcceptedHasSuccess(p, key, cid);
    AgreeNow(p, key, cid, m);
    hide PairInv, AnswerTo, RequestKey;
  }

  lemma AcceptedHasSuccess(p: Pair, key: Key, cid: nat) returns (m: SipMessage)
    requires PairInv(p, key) && cid in p.client.txs && p.client.txs[cid].kind.ClientInvite? && p.client.txs[cid].state.Accepted?
    ensures m in p.client.txs[cid].log.delivered && m.Resp? && Successful(m.response) && !m.response.synthetic
  {
    var tx := p.client.txs[cid];
    var d := tx.log.delivered;
    assert Story(tx);
    assert Answered(d, true);
    var n :| 0 <= n < |d| && Early(d[..n]) && (forall i :: n <= i < |d| ==> IsSuccess(d[i]));
    m := d[n];
    assert SourcedTx(tx, p.server.ep.wire);
    hide PairInv, ResponseKey;
    assert FromServer(tx.key, p.server.ep.wire, m);
  }
}
