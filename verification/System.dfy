/**
 An endpoint with its transactions, driven by its users, the network and the
 clock; every handler is one step.  `Consistent` holds in every reachable state.
 */
module System {
  import opened Prelude
  import opened SipMessages
  import opened TransactionKey
  import opened EndpointSpec
  import opened TransactionSpec
  import opened TransactionSanity
  import opened TransactionInvariant
  import opened NeverStuck
  import opened TableSteps

  /** `txs` are the transaction objects; one stays after it ended until its owner drops it. */
  datatype Sys = Sys(ep: Ep, txs: map<nat, Tx>, next: nat, now: nat)

  datatype Event =
    | NewClient(key: Key, original: Request, conn: Option<Conn>, at: nat)
    | CallSend(id: nat, env: Env)
    | CallReceive(id: nat, env: Env)
    | CallRespond(id: nat, response: Response, env: Env)
    | QueueRespond(id: nat, response: Response, at: nat)
    | CallSendAck(id: nat, conn: Option<Conn>, env: Env)
    | CallStop(id: nat, at: nat)
    | Drop(id: nat, env: Env)
    | Incoming(msg: SipMessage, from: Conn, env: Env)
    | FireTimer(id: nat, slot: Slot, at: nat)
    | FireCleanup(key: Key, at: nat)

  function TimeOf(e: Event): nat {
    match e
    case NewClient(_, _, _, at) => at
    case CallSend(_, env) => env.now
    case CallReceive(_, env) => env.now
    case CallRespond(_, _, env) => env.now
    case QueueRespond(_, _, at) => at
    case CallSendAck(_, _, env) => env.now
    case CallStop(_, at) => at
    case Drop(_, env) => env.now
    case Incoming(_, _, env) => env.now
    case FireTimer(_, _, at) => at
    case FireCleanup(_, at) => at
  }

  function Start(opt: EndpointOption): Sys {
    Sys(Ep(opt, map[], {}, map[], map[], map[], []), map[], 0, 0)
  }

  // ---- Steps -----------------------------------------------------------------

  /** No pending timer is due before `due`: the wheel releases in deadline order. */
  ghost predicate Earliest(sys: Sys, due: nat) {
    && (forall id, x :: id in sys.txs && x in sys.txs[id].pending ==> due <= sys.txs[id].pending[x].due)
    && (forall key :: key in sys.ep.cleanups ==> due <= sys.ep.cleanups[key])
  }

  /** What users, network and clock may do.  Users: a client key is unused (its branch is
      random), `send` starts a client and happens before `receive`, a server is answered with
      responses to its request.  Network: no received response is marked synthetic. */
  ghost predicate Possible(sys: Sys, e: Event) {
    && sys.now <= TimeOf(e)
    && match e
       case NewClient(key, original, _, _) =>
         RequestKey(original, Client) == Some(key) && key !in sys.ep.table && key !in sys.ep.finished
       case CallSend(id, _) =>
         id in sys.txs && (IsClient(sys.txs[id].kind) ==> sys.txs[id].state.Nothing? || sys.txs[id].state.Calling?)
       case CallReceive(id, _) =>
         id in sys.txs && sys.txs[id].queue != [] && (IsClient(sys.txs[id].kind) ==> !sys.txs[id].state.Nothing?)
       case CallRespond(id, r, _) => id in sys.txs && (!IsClient(sys.txs[id].kind) ==> Answers(sys.txs[id].original, r))
       case QueueRespond(id, r, _) => id in sys.txs && !IsClient(sys.txs[id].kind) && Answers(sys.txs[id].original, r)
       case CallSendAck(id, _, _) => id in sys.txs
       case CallStop(id, _) => id in sys.txs
       case Drop(id, _) => id in sys.txs
       case Incoming(msg, _, _) => msg.Resp? ==> !msg.response.synthetic
       case FireTimer(id, slot, at) =>
         && id in sys.txs && slot in sys.txs[id].pending
         && sys.txs[id].pending[slot].due <= at && Earliest(sys, sys.txs[id].pending[slot].due)
       case FireCleanup(key, at) =>
         key in sys.ep.cleanups && sys.ep.cleanups[key] <= at && Earliest(sys, sys.ep.cleanups[key])
  }

  function At(sys: Sys, id: nat): TE
    requires id in sys.txs
  {
    TE(sys.txs[id], sys.ep)
  }

  function Put(sys: Sys, id: nat, s: TE, now: nat): Sys {
    Sys(s.ep, sys.txs[id := s.tx], sys.next, now)
  }

  function Spawn(sys: Sys, tx: Tx, now: nat): Sys {
    Sys(sys.ep.(table := sys.ep.table + {tx.key}), sys.txs[sys.next := tx], sys.next + 1, now)
  }

  function Fired1(tx: Tx, slot: Slot): Tx
    requires slot in tx.pending
  {
    tx.(pending := tx.pending - {slot}, queue := tx.queue + [Fired(TxTimer(slot, tx.key, tx.pending[slot].span))])
  }

  function ClientKind(original: Request): TxType {
    if original.verb == Invite then ClientInvite else ClientNonInvite
  }

  function ServerKind(original: Request): TxType {
    if original.verb == Invite || original.verb == Ack then ServerInvite else ServerNonInvite
  }

  predicate Owns(sys: Sys, id: nat, key: Key) {
    id in sys.txs && sys.txs[id].key == key && !sys.txs[id].cleanedUp
  }

  /** The transaction the table maps `key` to. */
  ghost function Owner(sys: Sys, key: Key): (o: Option<nat>)
    ensures o.Some? ==> Owns(sys, o.value, key)
    ensures o.None? ==> forall id :: !Owns(sys, id, key)
  {
    if exists id :: Owns(sys, id, key) then var id :| Owns(sys, id, key); Some(id) else None
  }

  ghost function DeliverTo(sys: Sys, key: Key, e: TxEvent): map<nat, Tx> {
    var o := Owner(sys, key);
    if o.Some? then sys.txs[o.value := sys.txs[o.value].(queue := sys.txs[o.value].queue + [e])] else sys.txs
  }

  ghost function StepIncoming(sys: Sys, msg: SipMessage, conn: Conn, env: Env): Sys {
    var routed := Route(sys.ep, msg, conn, env.sendOk);
    var sys1 := sys.(ep := routed.ep, now := env.now);
    match routed.action
    case Ignore => sys1
    case Deliver(key, e) => sys1.(txs := DeliverTo(sys, key, e))
    case NewServer(key, original) => Spawn(sys1, NewTx(ServerKind(original), key, original, Some(conn)), env.now)
  }

  /** The events that touch one transaction. */
  predicate IsCall(e: Event) {
    e.CallSend? || e.CallReceive? || e.CallRespond? || e.QueueRespond? || e.CallSendAck? || e.CallStop? || e.FireTimer?
  }

  /** That transaction, with the endpoint, after the event. */
  function Called(s: TE, e: Event): TE
    requires IsCall(e) && (e.CallReceive? ==> s.tx.queue != []) && (e.FireTimer? ==> e.slot in s.tx.pending)
  {
    match e
    case CallSend(_, env) => Send(s, env).s
    case CallReceive(_, env) => Receive(s, env)
    case CallRespond(_, r, env) => DoRespond(s, r, env).s
    case QueueRespond(_, r, _) => TransactionSpec.Enqueue(s, Respond(r))
    case CallSendAck(_, conn, env) => SendAck(s, conn, env).s
    case CallStop(_, _) => StopRetransmissions(s)
    case FireTimer(_, slot, _) => TE(Fired1(s.tx, slot), s.ep)
  }

  ghost function Step(sys: Sys, e: Event): Sys
    requires Possible(sys, e)
  {
    if IsCall(e) then Put(sys, e.id, Called(At(sys, e.id), e), TimeOf(e))
    else
      match e
      case NewClient(key, original, conn, at) => Spawn(sys, NewTx(ClientKind(original), key, original, conn), at)
      case Drop(id, env) => sys.(ep := DoCleanup(At(sys, id), env).ep, txs := sys.txs - {id}, now := env.now)
      case Incoming(msg, conn, env) => StepIncoming(sys, msg, conn, env)
      case FireCleanup(key, at) => sys.(ep := RunCleanup(sys.ep, key), now := at)
  }

  ghost predicate Run(sys: Sys, es: seq<Event>)
    decreases |es|
  {
    es != [] ==> Possible(sys, es[0]) && Run(Step(sys, es[0]), es[1..])
  }

  ghost function After(sys: Sys, es: seq<Event>): Sys
    requires Run(sys, es)
    decreases |es|
  {
    if es == [] then sys else After(Step(sys, es[0]), es[1..])
  }

  /** From `sys` to `sys'`, by one event or by several. */
  ghost predicate StepsTo(sys: Sys, e: Event, sys': Sys) {
    Possible(sys, e) && Step(sys, e) == sys'
  }

  ghost predicate RunsTo(sys: Sys, es: seq<Event>, sys': Sys) {
    Run(sys, es) && After(sys, es) == sys'
  }

  lemma {:induction false} RunsOn(a: Sys, es: seq<Event>, b: Sys, more: seq<Event>, c: Sys)
    requires RunsTo(a, es, b) && RunsTo(b, more, c)
    ensures RunsTo(a, es + more, c)
    decreases |es|
  {
    hide Step, Possible;
    if es == [] {
      assert es + more == more;
    } else {
      RunsOn(Step(a, es[0]), es[1..], b, more, c);
      assert (es + more)[1..] == es[1..] + more;
    }
  }

  lemma RunsOneMore(a: Sys, es: seq<Event>, b: Sys, e: Event, c: Sys)
    requires RunsTo(a, es, b) && StepsTo(b, e, c)
    ensures RunsTo(a, es + [e], c)
  {
    hide Step, Possible;
    assert [e][1..] == [];
    assert RunsTo(c, [], c);
    RunsOn(a, es, b, [e], c);
  }

  // ---- The invariant -----------------------------------------------------------

  ghost predicate Healthy(tx: Tx, opt: EndpointOption, now: nat) {
    Inv(tx, opt, now) && Alive(tx) && RequestKey(tx.original, RoleOf(tx.kind)) == Some(tx.key) && KindOk(tx.kind, tx.original)
  }

  predicate KindOk(kind: TxType, original: Request) {
    && kind == (if IsClient(kind) then ClientKind(original) else ServerKind(original))
    && (!IsClient(kind) ==> original.verb != Ack && original.verb != Cancel)
  }

  function LiveKeys(txs: map<nat, Tx>): set<Key> {
    set id | id in txs && !txs[id].cleanedUp :: txs[id].key
  }

  ghost predicate UniqueKeys(txs: map<nat, Tx>) {
    forall i, j :: i in txs && j in txs && !txs[i].cleanedUp && !txs[j].cleanedUp && txs[i].key == txs[j].key ==> i == j
  }

  /** A server INVITE transaction that has answered and still lives. */
  predicate Awaits(tx: Tx) {
    !tx.cleanedUp && tx.kind.ServerInvite? && tx.lastResponse.Some?
  }

  /** The keys an ACK route may name. */
  function Anchors(sys: Sys): set<Key> {
    sys.ep.finished.Keys + (set id | id in sys.txs && Awaits(sys.txs[id]) :: sys.txs[id].key)
  }

  /** `key` is that of an INVITE with CSeq number `cseq`. */
  ghost predicate InviteKey(key: Key, cseq: nat) {
    exists via, tag, callId :: key == BuildKey(Server, via, Invite, cseq, tag, callId)
  }

  ghost predicate RoutesOk(sys: Sys) {
    && (forall d :: d in sys.ep.waitingAck ==> sys.ep.waitingAck[d] in Anchors(sys))
    && (forall d :: d in sys.ep.waitingAckCseq ==>
          sys.ep.waitingAckCseq[d] in Anchors(sys) && InviteKey(sys.ep.waitingAckCseq[d], d.1))
  }

  ghost predicate TxsOk(sys: Sys) {
    forall id :: id in sys.txs ==> id < sys.next && Healthy(sys.txs[id], sys.ep.opt, sys.now)
  }

  ghost predicate TablesOk(sys: Sys) {
    && LiveKeys(sys.txs) == sys.ep.table
    && UniqueKeys(sys.txs)
    && sys.ep.finished.Keys == sys.ep.cleanups.Keys
    && sys.ep.finished.Keys * sys.ep.table == {}
  }

  ghost predicate Consistent(sys: Sys) {
    TxsOk(sys) && TablesOk(sys) && RoutesOk(sys)
  }

  lemma StartConsistent(opt: EndpointOption)
    ensures Consistent(Start(opt))
  {
  }

  // ---- One transaction's step ----------------------------------------------------

  lemma TxsAfter(sys: Sys, sys': Sys, id: nat)
    requires TxsOk(sys) && sys'.txs.Keys == sys.txs.Keys && id in sys.txs && sys.next == sys'.next
    requires sys'.ep.opt == sys.ep.opt && sys.now <= sys'.now
    requires forall j :: j in sys.txs && j != id ==> sys'.txs[j] == sys.txs[j]
    requires Healthy(sys'.txs[id], sys.ep.opt, sys'.now)
    ensures TxsOk(sys')
  {
    hide Inv, Alive, RequestKey, KindOk;
    forall j | j in sys'.txs ensures j < sys'.next && Healthy(sys'.txs[j], sys'.ep.opt, sys'.now) {
      assert j in sys.txs && Healthy(sys.txs[j], sys.ep.opt, sys.now) && j < sys.next;
      if j != id { InvLater(sys.txs[j], sys.ep.opt, sys.now, sys'.now); }
    }
  }

  lemma AllLater(sys: Sys, now: nat)
    requires TxsOk(sys) && sys.now <= now
    ensures TxsOk(sys.(now := now))
  {
    forall j | j in sys.txs ensures Healthy(sys.txs[j], sys.ep.opt, now) {
      assert Healthy(sys.txs[j], sys.ep.opt, sys.now);
      InvLater(sys.txs[j], sys.ep.opt, sys.now, now);
      hide Inv, Alive;
    }
  }

  /** A transaction that goes on living keeps its key in the table. */
  lemma LiveKeysSame(txs: map<nat, Tx>, txs': map<nat, Tx>)
    requires txs'.Keys == txs.Keys
    requires forall j :: j in txs ==> txs'[j].cleanedUp == txs[j].cleanedUp && txs'[j].key == txs[j].key
    ensures LiveKeys(txs') == LiveKeys(txs)
    ensures UniqueKeys(txs) ==> UniqueKeys(txs')
  {
  }

  /** One that ends takes its key out. */
  lemma LiveKeysEnd(txs: map<nat, Tx>, txs': map<nat, Tx>, id: nat)
    requires UniqueKeys(txs) && id in txs && !txs[id].cleanedUp
    requires txs'.Keys <= txs.Keys && txs.Keys - {id} <= txs'.Keys && (id in txs' ==> txs'[id].cleanedUp)
    requires forall j :: j in txs && j != id ==> txs'[j].cleanedUp == txs[j].cleanedUp && txs'[j].key == txs[j].key
    ensures LiveKeys(txs') == LiveKeys(txs) - {txs[id].key}
    ensures UniqueKeys(txs')
  {
  }

  lemma TablesEnd(sys: Sys, sys': Sys, id: nat, last: Option<SipMessage>)
    requires TablesOk(sys) && id in sys.txs && !sys.txs[id].cleanedUp
    requires EndedTables(sys.ep, sys'.ep, sys.txs[id].key, last, sys'.now)
    requires LiveKeys(sys'.txs) == LiveKeys(sys.txs) - {sys.txs[id].key} && UniqueKeys(sys'.txs)
    ensures TablesOk(sys')
  {
    hide LiveKeys, UniqueKeys;
  }

  /** Anchors survive: a key that loses its live transaction gains a cached message. */
  lemma AnchorsAfter(sys: Sys, sys': Sys, id: nat)
    requires id in sys.txs && sys.txs.Keys - {id} <= sys'.txs.Keys
    requires forall j :: j in sys.txs && j != id ==> sys'.txs[j] == sys.txs[j]
    requires sys.ep.finished.Keys <= sys'.ep.finished.Keys
    requires Awaits(sys.txs[id]) ==>
               (id in sys'.txs && Awaits(sys'.txs[id]) && sys'.txs[id].key == sys.txs[id].key) || sys.txs[id].key in sys'.ep.finished
    ensures Anchors(sys) <= Anchors(sys')
  {
    forall k | k in Anchors(sys) ensures k in Anchors(sys') {
      if k !in sys.ep.finished {
        var j :| j in sys.txs && Awaits(sys.txs[j]) && sys.txs[j].key == k;
        if j != id { assert Awaits(sys'.txs[j]); }
      }
    }
  }

  lemma RoutesAfter(sys: Sys, sys': Sys, key: Key, cseq: nat, mayRoute: bool)
    requires RoutesOk(sys) && RoutesStep(sys.ep, sys'.ep, key, cseq, mayRoute)
    requires Anchors(sys) <= Anchors(sys')
    requires mayRoute ==> key in Anchors(sys') && InviteKey(key, cseq)
    ensures RoutesOk(sys')
  {
    hide Anchors, InviteKey;
  }

  lemma InviteKeyOf(tx: Tx)
    requires tx.kind.ServerInvite? && tx.original.verb == Invite && RequestKey(tx.original, Server) == Some(tx.key)
    ensures InviteKey(tx.key, tx.original.ids.cseq)
  {
    assert tx.key == BuildKey(Server, tx.original.ids.via, Invite, tx.original.ids.cseq, tx.original.ids.fromTag.value, tx.original.ids.callId);
  }

  lemma PutTables(sys: Sys, id: nat, s': TE, now: nat)
    requires TablesOk(sys) && id in sys.txs && TablesStep(At(sys, id), s', now)
    ensures TablesOk(Put(sys, id, s', now))
  {
    var sys' := Put(sys, id, s', now);
    var tx := sys.txs[id];
    hide RoutesStep;
    if s'.tx.cleanedUp == tx.cleanedUp {
      LiveKeysSame(sys.txs, sys'.txs);
      hide LiveKeys, UniqueKeys;
    } else {
      var last :| LeftBehind(s'.tx, last) && EndedTables(sys.ep, s'.ep, tx.key, last, now);
      LiveKeysEnd(sys.txs, sys'.txs, id);
      TablesEnd(sys, sys', id, last);
      hide LiveKeys, UniqueKeys;
    }
  }

  lemma PutRoutes(sys: Sys, id: nat, s': TE, now: nat)
    requires RoutesOk(sys) && id in sys.txs && TablesStep(At(sys, id), s', now)
    requires sys.txs[id].kind.ServerInvite? ==> InviteKey(sys.txs[id].key, sys.txs[id].original.ids.cseq)
    ensures RoutesOk(Put(sys, id, s', now))
  {
    var sys' := Put(sys, id, s', now);
    var tx := sys.txs[id];
    assert sys.ep.finished.Keys <= s'.ep.finished.Keys && (Awaits(tx) && !Awaits(s'.tx) ==> tx.key in s'.ep.finished) by {
      hide RoutesStep;
      if s'.tx.cleanedUp != tx.cleanedUp {
        var last :| LeftBehind(s'.tx, last) && EndedTables(sys.ep, s'.ep, tx.key, last, now);
      }
    }
    AnchorsAfter(sys, sys', id);
    var mayRoute := tx.kind.ServerInvite? && !tx.cleanedUp && s'.tx.lastResponse.Some?;
    if mayRoute {
      assert tx.key in Anchors(sys') by {
        if !Awaits(s'.tx) {
          assert s'.tx.cleanedUp;
          hide RoutesStep;
          var last :| LeftBehind(s'.tx, last) && EndedTables(sys.ep, s'.ep, tx.key, last, now);
        } else {
          assert sys'.txs[id].key == tx.key;
        }
      }
    }
    RoutesAfter(sys, sys', tx.key, tx.original.ids.cseq, mayRoute) by { hide RoutesOk, RoutesStep, Anchors, InviteKey; }
  }

  lemma PutConsistent(sys: Sys, id: nat, s': TE, now: nat)
    requires Consistent(sys) && id in sys.txs && sys.now <= now
    requires TablesStep(At(sys, id), s', now) && Inv(s'.tx, sys.ep.opt, now) && Alive(s'.tx)
    ensures Consistent(Put(sys, id, s', now))
  {
    var tx := sys.txs[id];
    var sys' := Put(sys, id, s', now);
    assert Healthy(tx, sys.ep.opt, sys.now);
    assert s'.ep.opt == sys.ep.opt && SameIdentity(tx, s'.tx) by {
      hide RoutesStep;
    }
    assert tx.kind.ServerInvite? ==> tx.original.verb == Invite;
    if tx.kind.ServerInvite? { InviteKeyOf(tx); }
    hide Inv, Alive, TablesStep, InviteKey, RoutesOk, TablesOk, Sane;
    TxsAfter(sys, sys', id);
    PutTables(sys, id, s', now);
    PutRoutes(sys, id, s', now);
  }
}
