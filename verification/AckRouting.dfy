/** ACKs of overlapping re-INVITEs: each reaches the transaction it acknowledges. */
module AckRouting {
  import opened Prelude
  import opened SipMessages
  import opened TransactionKey
  import opened EndpointSpec
  import opened TransactionSpec
  import opened TransactionSanity
  import opened TransactionInvariant
  import opened NeverStuck
  import opened TableSteps
  import opened System
  import opened SystemSteps

  /** A key made for one role is not made for the other. */
  lemma OwnerRole(sys: Sys, id: nat, r: Request)
    requires Consistent(sys) && id in sys.txs && r.ids.fromTag.Some? && RequestKey(r, Server) == Some(sys.txs[id].key)
    ensures !IsClient(sys.txs[id].kind)
  {
    HealthyAt(sys, id, sys.now);
    var o, tx := sys.txs[id].original, sys.txs[id];
    if IsClient(tx.kind) {
      var verb := if r.verb == Ack || r.verb == Cancel then Invite else r.verb;
      KeyDeterminesHead(Server, r.ids.via, verb, r.ids.cseq, r.ids.fromTag.value, r.ids.callId,
                        Client, o.ids.via, o.verb, o.ids.cseq, o.ids.fromTag.value, o.ids.callId);
    }
  }

  lemma RoutedRole(sys: Sys, id: nat, n: nat)
    requires Consistent(sys) && id in sys.txs && InviteKey(sys.txs[id].key, n)
    ensures !IsClient(sys.txs[id].kind) && sys.txs[id].original.ids.cseq == n
  {
    HealthyAt(sys, id, sys.now);
    var o, tx := sys.txs[id].original, sys.txs[id];
    var via, tag, callId :| tx.key == BuildKey(Server, via, Invite, n, tag, callId);
    var verb := if (o.verb == Ack || o.verb == Cancel) && !IsClient(tx.kind) then Invite else o.verb;
    KeyDeterminesHead(Server, via, Invite, n, tag, callId,
                      RoleOf(tx.kind), o.ids.via, verb, o.ids.cseq, o.ids.fromTag.value, o.ids.callId);
  }

  /** A route names a transaction whose INVITE has the route's CSeq number. */
  lemma RouteHasTheCSeq(sys: Sys, dialog: DialogId, n: nat, id: nat)
    requires Consistent(sys) && (dialog, n) in sys.ep.waitingAckCseq
    requires id in sys.txs && sys.txs[id].key == sys.ep.waitingAckCseq[(dialog, n)]
    ensures !IsClient(sys.txs[id].kind) && sys.txs[id].original.ids.cseq == n
  {
    RoutedRole(sys, id, n) by { assert RoutesOk(sys); hide TxsOk, TablesOk, InviteKey, Anchors; }
  }

  /** An ACK changes no transaction but a server one whose INVITE has its CSeq number. */
  lemma AckTouchesOnlyItsInvite(sys: Sys, ack: Request, conn: Conn, env: Env, id: nat)
    requires Consistent(sys) && Possible(sys, Incoming(Req(ack), conn, env)) && ack.verb == Ack
    requires id in sys.txs && id in Step(sys, Incoming(Req(ack), conn, env)).txs
    ensures var tx, tx' := sys.txs[id], Step(sys, Incoming(Req(ack), conn, env)).txs[id];
            tx' != tx ==> !IsClient(tx.kind) && tx.original.ids.cseq == ack.ids.cseq
                          && tx' == tx.(queue := tx.queue + [Received(Req(ack), Some(conn))])
  {
    hide Consistent, Route, TargetKey;
    RouteAction(sys.ep, Req(ack), conn, env.sendOk);
    NextIsFree(sys);
    var routed := Route(sys.ep, Req(ack), conn, env.sendOk);
    if routed.action.Deliver? && Owner(sys, routed.action.key) == Some(id) {
      AckOwnerIsServer(sys, ack, id);
      AckReachesItsInvite(sys, ack, id);
    }
  }

  lemma AckOwnerIsServer(sys: Sys, ack: Request, id: nat)
    requires Consistent(sys) && ack.verb == Ack && TargetKey(sys.ep, ack).Some?
    requires Owns(sys, id, TargetKey(sys.ep, ack).value)
    ensures !IsClient(sys.txs[id].kind)
  {
    var dialog := RequestDialog(ack, Server);
    if dialog.Some? && (dialog.value, ack.ids.cseq) in sys.ep.waitingAckCseq {
      hide RequestDialog, RequestKey;
      RouteHasTheCSeq(sys, dialog.value, ack.ids.cseq, id) by { hide Consistent; }
    } else {
      hide RequestDialog, BuildKey;
      OwnerRole(sys, id, ack) by { hide Consistent; }
    }
  }

  /** The ACK of an answered INVITE ends exactly that transaction, and goes up. */
  lemma AckEndsItsInvite(s: TE, ack: Request, conn: Option<Conn>, env: Env)
    requires s.tx.kind.ServerInvite? && s.tx.state.Accepted? && ack.verb == Ack
    requires !s.tx.cleanedUp
    ensures var h := OnRequest(s, ack, conn, env);
            if ack.ids.cseq == s.tx.original.ids.cseq
            then h.s.tx.state.Terminated? && h.up == Some(Req(ack))
            else h.s.tx.state.Accepted? && h.up.None? && h.s.ep == s.ep
  {
    hide Transition, Detach, LastMessage, Repeat;
    var s1 := if s.tx.conn.None? then s.(tx := s.tx.(conn := conn)) else s;
    TransitionEnds(s1, env);
  }

  /** Forgetting a route never removes another transaction's. */
  lemma ForgetKeepsOthers(ep: Ep, dialog: DialogId, n: nat, key: Key)
    ensures var ep' := ForgetWaitingAck(ep, dialog, n, key);
            && (forall d :: d in ep.waitingAck && ep.waitingAck[d] != key ==>
                  d in ep'.waitingAck && ep'.waitingAck[d] == ep.waitingAck[d])
            && (forall d :: d in ep.waitingAckCseq && ep.waitingAckCseq[d] != key ==>
                  d in ep'.waitingAckCseq && ep'.waitingAckCseq[d] == ep.waitingAckCseq[d])
            && (dialog in ep'.waitingAck ==> ep'.waitingAck[dialog] != key)
            && ((dialog, n) in ep'.waitingAckCseq ==> ep'.waitingAckCseq[(dialog, n)] != key)
  {
  }
}
