/**
 What a handler puts on its transaction's own queue: nothing from the network.
 And what it tells the transaction user: only `receive` does.
 */
module LocalEvents {
  import opened Prelude
  import opened SipMessages
  import opened TransactionKey
  import opened EndpointSpec
  import opened TransactionSpec
  import opened TransactionSanity
  import opened NeverStuck
  import opened System

  /** A local final response, or the end of the transaction. */
  predicate Local(e: TxEvent) {
    e.Terminate? || IsSynthetic(e)
  }

  ghost predicate Grows(q: seq<TxEvent>, q': seq<TxEvent>) {
    |q| <= |q'| && q'[..|q|] == q && forall i :: |q| <= i < |q'| ==> Local(q'[i])
  }

  /** Same identity, nothing delivered, only local events queued. */
  ghost predicate Inward(t: Tx, t': Tx) {
    SameIdentity(t, t') && t'.log.delivered == t.log.delivered && Grows(t.queue, t'.queue)
  }

  lemma InwardTrans(a: Tx, b: Tx, c: Tx)
    requires Inward(a, b) && Inward(b, c)
    ensures Inward(a, c)
  {
    assert c.queue[..|a.queue|] == b.queue[..|a.queue|];
    assert forall i :: 0 <= i < |b.queue| ==> c.queue[i] == c.queue[..|b.queue|][i];
  }

  lemma TransitionInward(s: TE, target: State, env: Env)
    ensures Inward(s.tx, Transition(s, target, env).s.tx)
  {
    if !target.Terminated? {
      TransitionFacts(s, target, env);
      hide Transition;
    } else if s.tx.cleanedUp {
    } else {
      DoCleanupFacts(s, env);
      hide DoCleanup;
    }
  }

  lemma RespondInward(s: TE, r: Response, env: Env)
    ensures Inward(s.tx, DoRespond(s, r, env).s.tx)
  {
    hide Transition, CanTransition;
    var s1 := WriteMsg(s.(tx := s.tx.(lastResponse := Some(r))), Resp(r), true);
    assert Inward(s.tx, s1.tx);
    TransitionInward(s1, RespondState(s.tx.kind, r), env);
    InwardTrans(s.tx, s1.tx, Transition(s1, RespondState(s.tx.kind, r), env).s.tx);
  }

  lemma OnRequestInward(s0: TE, r: Request, conn: Option<Conn>, env: Env)
    ensures Inward(s0.tx, OnRequest(s0, r, conn, env).s.tx)
  {
    var s := if s0.tx.conn.None? then s0.(tx := s0.tx.(conn := conn)) else s0;
    hide Transition, DoRespond, MakeResponse, CanTransition;
    assert Inward(s0.tx, s0.tx) && Inward(s0.tx, s.tx);
    TransitionInward(s, Confirmed, env);
    TransitionInward(s, Terminated, env);
    if s.tx.lastResponse.Some? { RespondInward(s, s.tx.lastResponse.value, env); }
    hide Grows;
    assert Grows(s0.tx.queue, s0.tx.queue) && s0.tx.queue == s.tx.queue;
  }

  lemma SendAckInward(s: TE, conn: Option<Conn>, env: Env)
    ensures Inward(s.tx, SendAck(s, conn, env).s.tx)
  {
    hide Transition, ChooseAck;
    var chosen := ChooseAck(s.tx, env.branch);
    assert Inward(s.tx, s.tx);
    if s.tx.state.Completed? && chosen.Some? {
      var s1 := PutAck(s, chosen.value, conn, env);
      TransitionInward(s1, Terminated, env);
    }
    hide Grows;
  }

  lemma OnResponseInward(s: TE, r: Response, conn: Option<Conn>, env: Env)
    ensures Inward(s.tx, OnResponse(s, r, conn, env).s.tx)
  {
    hide Transition, SendAck, Duplicate, CanTransition;
    var target := ResponseState(s.tx.kind, r, s.ep.opt);
    var s0 := s.(tx := s.tx.(lastResponse := Some(r)));
    var s1 := Transition(s0, target, env).s;
    assert Inward(s.tx, s.tx);
    TransitionInward(s, Accepted, env);
    TransitionInward(s0, target, env);
    SendAckInward(s1, conn, env);
    InwardTrans(s0.tx, s1.tx, SendAck(s1, conn, env).s.tx);
    hide Grows;
  }

  lemma SyntheticInward(t: Tx, e: TxEvent)
    requires Local(e)
    ensures Inward(t, t) && Inward(t, t.(queue := t.queue + [e]))
  {
  }

  lemma ResendInward(s: TE, span: nat, env: Env)
    ensures Inward(s.tx, ResendRequest(s, span, env).tx)
  {
    hide TimersOf, Grows;
    SyntheticInward(s.tx, Synthetic(s.tx, 503));
  }

  lemma RetransmitInward(s: TE, span: nat, env: Env)
    ensures Inward(s.tx, RetransmitLastResponse(s, span, env).s.tx)
  {
    hide TimersOf, Grows;
    SyntheticInward(s.tx, Synthetic(s.tx, 503));
  }

  lemma OnTimerInward(s: TE, t: TxTimer, env: Env)
    ensures Inward(s.tx, OnTimer(s, t, env).tx)
  {
    hide Transition, RetransmitLastResponse, ResendRequest, Grows;
    SyntheticInward(s.tx, Synthetic(s.tx, 408));
    TransitionInward(s, Terminated, env);
    if t.TxTimer? {
      RetransmitInward(s, t.span, env);
      ResendInward(s, t.span, env);
    }
  }

  lemma SendInward(s: TE, env: Env)
    ensures Inward(s.tx, Send(s, env).s.tx)
  {
    hide Transition, Grows;
    var m := Transition(Written(s, env), Calling, env);
    SyntheticInward(s.tx, Synthetic(s.tx, 503));
    TransitionInward(Written(s, env), Calling, env);
    SyntheticInward(m.s.tx, Synthetic(s.tx, 503));
    var t' := m.s.tx.(queue := m.s.tx.queue + [Synthetic(s.tx, 503)]);
    InwardTrans(Written(s, env).tx, m.s.tx, t');
  }

  lemma HandleInward(s: TE, e: TxEvent, env: Env)
    ensures Inward(s.tx, Handle(s, e, env).s.tx)
  {
    hide OnRequest, OnResponse, OnTimer, DoRespond, Inward;
    SyntheticInward(s.tx, Terminate(s.tx.key));
    match e
    case Received(msg, conn) =>
      match msg {
        case Req(req) => OnRequestInward(s, req, conn, env);
        case Resp(resp) => OnResponseInward(s, resp, conn, env);
      }
    case Fired(t) => OnTimerInward(s, t, env);
    case Respond(r) => RespondInward(s, r, env);
    case Terminate(_) =>
  }

  /** What `receive` hands up is the message at the head of the queue. */
  lemma HandsUpTheHead(s: TE, e: TxEvent, env: Env)
    ensures var up := Handle(s, e, env).up;
            up.Some? ==> e.Received? && up == Some(e.msg)
  {
    hide Transition, DoRespond, SendAck, MakeResponse, Duplicate, OnTimer, Repeat;
  }
}
