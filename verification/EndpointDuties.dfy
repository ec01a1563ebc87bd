/**
 What the endpoint does with an incoming message, as one table: the transaction
 that gets it, what is written at once, the transaction that starts.
 */
module EndpointDuties {
  import opened Prelude
  import opened SipMessages
  import opened TransactionKey
  import opened EndpointSpec
  import opened TransactionSpec
  import opened TransactionInvariant
  import opened NeverStuck
  import opened System
  import opened SystemSteps
  import opened RunTheorems

  /** The key a request is for: an ACK goes to the INVITE that was answered in its dialog under its CSeq
      number, and like all others by its branch if there is none. */
  function KeyOf(ep: Ep, r: Request): Option<Key> {
    var answered := if r.ids.fromTag.None? then None
                    else Some((DialogId(r.ids.callId, if r.toTag.Some? then r.toTag.value else "", r.ids.fromTag.value), r.ids.cseq));
    if r.verb == Ack && answered.Some? && answered.value in ep.waitingAckCseq then Some(ep.waitingAckCseq[answered.value])
    else RequestKey(r, Server)
  }

  /** What an incoming message leads to. */
  datatype Outcome = Lost | ForKey(key: Key) | Answer(msg: SipMessage) | Starts(key: Key)

  function RequestOutcome(ep: Ep, r: Request): Outcome {
    var key := KeyOf(ep, r);
    if key.None? then Lost
    else if key.value in ep.finished then (if r.verb == Ack then Lost else Answer(ep.finished[key.value]))
    else if key.value in ep.table then ForKey(key.value)
    else if r.verb == Ack then Lost
    else if r.verb == Cancel then Answer(Resp(Response(481, r.verb, r.ids, r.toTag, None, [], [], false)))
    else Starts(key.value)
  }

  /** A cached ACK answers every final response again, with the To tag of the response; a 2xx for another
      hop is still for the transaction. */
  function ResponseOutcome(ep: Ep, r: Response): Outcome {
    var key := ResponseKey(r, Client);
    if key.None? then Lost
    else if key.value in ep.finished && !(Successful(r) && MultipleVias(r)) then
      var last := ep.finished[key.value];
      if last.Req? && last.request.verb == Ack && !Provisional(r)
      then Answer(Req(last.request.(toTag := if r.toTag.Some? then r.toTag else last.request.toTag))) else Lost
    else if key.value in ep.table then ForKey(key.value)
    else Lost
  }

  function OutcomeOf(ep: Ep, msg: SipMessage): Outcome {
    match msg
    case Req(r) => RequestOutcome(ep, r)
    case Resp(r) => ResponseOutcome(ep, r)
  }

  /** A transaction that has done nothing yet: no response, no ACK, no timer, an empty queue. */
  function Started(kind: TxType, key: Key, original: Request, conn: Option<Conn>): Tx {
    Tx(kind, key, original, if IsClient(kind) then Nothing else Trying, conn, None, None, None, {}, map[], true, false, [],
       Log(0, 0, 0, 0, 0, 0, [], false))
  }

  /** `sys'` is what the outcome says: at most one transaction gets the message, at most one starts, at
      most one message is written. */
  ghost predicate Done(sys: Sys, msg: SipMessage, conn: Conn, sendOk: bool, sys': Sys, o: Outcome) {
    && sys'.ep.wire == sys.ep.wire + (if o.Answer? && sendOk then [o.msg] else [])
    && match o
       case ForKey(key) =>
         && sys'.next == sys.next
         && exists id :: id in sys.txs && sys.txs[id].key == key && !sys.txs[id].cleanedUp
                         && sys'.txs == sys.txs[id := sys.txs[id].(queue := sys.txs[id].queue + [Received(msg, Some(conn))])]
       case Starts(key) =>
         && msg.Req? && sys'.next == sys.next + 1
         && sys'.txs == sys.txs[sys.next := Started(if msg.request.verb == Invite then ServerInvite else ServerNonInvite, key, msg.request, Some(conn))]
       case _ => sys'.txs == sys.txs && sys'.next == sys.next
  }

  lemma RoutedAs(ep: Ep, msg: SipMessage, conn: Conn, sendOk: bool)
    ensures var r, o := Route(ep, msg, conn, sendOk), OutcomeOf(ep, msg);
            && r.ep.wire == ep.wire + (if o.Answer? && sendOk then [o.msg] else [])
            && match o
               case ForKey(key) => r.action == Deliver(key, Received(msg, Some(conn))) && key in ep.table
               case Starts(key) => msg.Req? && msg.request.verb != Ack && r.action == NewServer(key, msg.request)
               case _ => r.action.Ignore?
  {
    hide RequestKey, ResponseKey;
  }

  /** On every run, an incoming message is handled as the table says. */
  lemma EndpointFollowsTable(opt: EndpointOption, es: seq<Event>, msg: SipMessage, conn: Conn, env: Env)
    requires Run(Start(opt), es) && Possible(Reached(opt, es), Incoming(msg, conn, env))
    ensures var sys := Reached(opt, es);
            Done(sys, msg, conn, env.sendOk, Step(sys, Incoming(msg, conn, env)), OutcomeOf(sys.ep, msg))
  {
    IncomingDone(Reached(opt, es), msg, conn, env);
    hide Run, Done, Step, OutcomeOf;
  }

  lemma IncomingDone(sys: Sys, msg: SipMessage, conn: Conn, env: Env)
    requires Consistent(sys) && Possible(sys, Incoming(msg, conn, env))
    ensures Done(sys, msg, conn, env.sendOk, Step(sys, Incoming(msg, conn, env)), OutcomeOf(sys.ep, msg))
  {
    hide Route, OutcomeOf, Consistent;
    RoutedAs(sys.ep, msg, conn, env.sendOk);
    NextIsFree(sys);
    var o := OutcomeOf(sys.ep, msg);
    if o.ForKey? {
      LiveOwner(sys, o.key);
      var id := Owner(sys, o.key).value;
      assert Step(sys, Incoming(msg, conn, env)).txs
          == sys.txs[id := sys.txs[id].(queue := sys.txs[id].queue + [Received(msg, Some(conn))])];
    }
  }

  lemma LiveOwner(sys: Sys, key: Key)
    requires Consistent(sys) && key in sys.ep.table
    ensures Owner(sys, key).Some? && Owner(sys, key).value in sys.txs
    ensures var tx := sys.txs[Owner(sys, key).value]; tx.key == key && !tx.cleanedUp
  {
    assert key in LiveKeys(sys.txs);
    var id :| id in sys.txs && !sys.txs[id].cleanedUp && sys.txs[id].key == key;
    assert Owns(sys, id, key);
    hide TxsOk, RoutesOk;
  }

  /** On every run, a client transaction starts under its key, idle; nothing else changes. */
  lemma ClientStarts(opt: EndpointOption, es: seq<Event>, key: Key, original: Request, conn: Option<Conn>, at: nat)
    requires Run(Start(opt), es) && Possible(Reached(opt, es), NewClient(key, original, conn, at))
    ensures var sys, sys' := Reached(opt, es), Step(Reached(opt, es), NewClient(key, original, conn, at));
            && sys'.txs == sys.txs[sys.next := Started(if original.verb == Invite then ClientInvite else ClientNonInvite, key, original, conn)]
            && sys.next !in sys.txs && sys'.next == sys.next + 1
            && sys'.ep == sys.ep.(table := sys.ep.table + {key})
  {
    NextIsFree(Reached(opt, es));
    hide Run, Consistent;
  }
}
