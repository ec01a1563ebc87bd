/**
 ACKs of a client INVITE: one for a failure, one for every success with its own
 To tag, none for a success another hop waits for.
 */
module ForkedAcks {
  import opened Prelude
  import opened SipMessages
  import opened TransactionKey
  import opened EndpointSpec
  import opened TransactionSpec
  import opened TransactionSanity
  import opened TransactionHandlers
  import opened TableSteps

  // ---- A failure -----------------------------------------------------------------

  /** Making the ACK of a failure never fails, and it copies what RFC 3261 section 17.1.1.3 asks for. */
  lemma FailureAck(invite: Request, r: Response, branch: string)
    requires !Successful(r)
    ensures var ack := MakeAck(invite, r, branch);
            && ack.Some? && ack.value.verb == Ack && ack.value.uri == invite.uri && ack.value.routes == invite.routes
            && ack.value.ids == r.ids && ack.value.toTag == r.toTag && ack.value.body == []
  {
  }

  /** The first failure ends the transaction: it goes up, its ACK is written, and the
      endpoint keeps that ACK for 64*T1. */
  lemma FailureIsAcked(s: TE, r: Response, conn: Option<Conn>, env: Env)
    requires s.tx.kind.ClientInvite? && !Provisional(r) && !Successful(r) && s.tx.lastAck.None? && !s.tx.cleanedUp
    requires s.tx.state.Calling? || s.tx.state.Trying? || s.tx.state.Proceeding?
    ensures var h := OnResponse(s, r, conn, env);
            var ack := Req(MakeAck(s.tx.original, r, env.branch).value);
            && h.up == Some(Resp(r)) && h.s.tx.state.Terminated? && h.s.tx.lastAck.None?
            && h.s.ep.wire == s.ep.wire + (if conn.Some? && env.sendOk then [ack] else [])
            && s.tx.key in h.s.ep.finished && h.s.ep.finished[s.tx.key] == ack
            && s.tx.key in h.s.ep.cleanups && h.s.ep.cleanups[s.tx.key] == env.now + s.ep.opt.t1x64
  {
    FailureAck(s.tx.original, r, env.branch);
    var s0 := s.(tx := s.tx.(lastResponse := Some(r)));
    var s1 := Transition(s0, Completed, env).s;
    TransitionFacts(s0, Completed, env);
    assert s1.ep.wire == s.ep.wire;
    var ack := MakeAck(s.tx.original, r, env.branch).value;
    var s2 := PutAck(s1, ack, conn, env);
    PutAckFacts(s1, ack, conn, env);
    TransitionEnds(s2, env);
    EndedWithAck(s2, Transition(s2, Terminated, env).s, ack, env);
    hide Transition, MakeAck, Ended, PutAck, KeepsTables;
  }

  lemma PutAckFacts(s: TE, ack: Request, conn: Option<Conn>, env: Env)
    requires s.tx.lastResponse.Some? && !Successful(s.tx.lastResponse.value)
    ensures var s' := PutAck(s, ack, conn, env);
            && s'.tx == s.tx.(lastAck := Some(ack))
            && s'.ep == s.ep.(wire := s.ep.wire + (if conn.Some? && env.sendOk then [Req(ack)] else []))
  {
  }

  lemma EndedWithAck(s: TE, s': TE, ack: Request, env: Env)
    requires s.tx.kind.ClientInvite? && s.tx.lastAck == Some(ack) && Ended(s, s', env)
    ensures s'.ep.wire == s.ep.wire && s'.tx.state.Terminated? && s'.tx.lastAck.None?
    ensures s.tx.key in s'.ep.finished && s'.ep.finished[s.tx.key] == Req(ack)
    ensures s.tx.key in s'.ep.cleanups && s'.ep.cleanups[s.tx.key] == env.now + s.ep.opt.t1x64
  {
    hide MakeAck;
  }

  // ---- Successes ---------------------------------------------------------------------

  /** Where the ACK of a success goes. */
  function AckConn(conn: Option<Conn>, env: Env): Option<Conn> {
    if !(conn.Some? && Reliable(conn.value)) && env.found.Some? then env.found else conn
  }

  /** A client INVITE that waits for a final response, or collects successes. */
  predicate Collecting(s: TE) {
    && s.tx.kind.ClientInvite? && !s.tx.cleanedUp && s.ep.opt.autoAck2xx
    && (s.tx.state.Calling? || s.tx.state.Trying? || s.tx.state.Proceeding? || s.tx.state.Accepted?)
    && (s.tx.lastAck.Some? ==> s.tx.lastAck.value.toTag.Some? && s.tx.lastAck.value.verb == Ack)
  }

  /** A success as RFC 3261 section 13.3.1.4 describes it: a To tag and a Contact. */
  predicate ProperSuccess(r: Response) {
    Successful(r) && r.toTag.Some? && r.contact.Some?
  }

  lemma ChosenAck(tx: Tx, branch: string)
    requires tx.lastResponse.Some? && ProperSuccess(tx.lastResponse.value)
    requires tx.lastAck.Some? ==> tx.lastAck.value.toTag.Some? && tx.lastAck.value.verb == Ack
    ensures var ack := ChooseAck(tx, branch);
            && ack.Some? && ack.value.verb == Ack && ack.value.toTag == tx.lastResponse.value.toTag
            && (tx.lastAck.Some? && tx.lastAck.value.toTag == tx.lastResponse.value.toTag ==> ack == tx.lastAck)
            && (!(tx.lastAck.Some? && tx.lastAck.value.toTag == tx.lastResponse.value.toTag) ==>
                  ack == MakeAck(tx.original, tx.lastResponse.value, branch))
  {
    hide AckTarget, Reverse;
  }

  lemma PutSuccessAck(s: TE, ack: Request, conn: Option<Conn>, env: Env)
    requires s.tx.lastResponse.Some? && Successful(s.tx.lastResponse.value)
    ensures var s' := PutAck(s, ack, conn, env);
            && s'.tx == s.tx.(lastAck := s'.tx.lastAck, ackBody := s'.tx.ackBody)
            && s'.tx.lastAck == Some(ack.(body := s'.tx.lastAck.value.body))
            && s'.ep == s.ep.(wire := s.ep.wire + (if AckConn(conn, env).Some? && env.sendOk then [Req(s'.tx.lastAck.value)] else []))
  {
  }

  /** Every success for us goes up and gets an ACK with its own To tag: the cached
      one for a retransmission, a new one for a fork. */
  lemma SuccessIsAcked(s: TE, r: Response, conn: Option<Conn>, env: Env)
    requires Collecting(s) && ProperSuccess(r) && !MultipleVias(r)
    ensures var h := OnResponse(s, r, conn, env);
            && h.up == Some(Resp(r)) && Collecting(h.s) && h.s.tx.state.Accepted?
            && h.s.tx.lastAck.Some? && h.s.tx.lastAck.value.verb == Ack && h.s.tx.lastAck.value.toTag == r.toTag
            && h.s.ep.wire == s.ep.wire + (if AckConn(conn, env).Some? && env.sendOk then [Req(h.s.tx.lastAck.value)] else [])
            && (!(s.tx.lastAck.Some? && s.tx.lastAck.value.toTag == r.toTag) ==>
                  h.s.tx.lastAck.value.(body := []) == MakeAck(s.tx.original, r, env.branch).value)
  {
    var s0 := s.(tx := s.tx.(lastResponse := Some(r)));
    var s1 := Transition(s0, Accepted, env).s;
    TransitionFacts(s0, Accepted, env);
    assert s1.tx.state.Accepted? && s1.ep.wire == s.ep.wire;
    assert MakeAck(s.tx.original, r, env.branch).value.body == [] by { hide AckTarget, Reverse; }
    ChosenAck(s1.tx, env.branch);
    hide Transition, KeepsTables, ChooseAck, PutAck, MakeAck, CanEnter;
    PutSuccessAck(s1, ChooseAck(s1.tx, env.branch).value, conn, env);
  }

  /** A success that another hop waits for goes up, and is not acknowledged here. */
  lemma ForwardedIsNotAcked(s: TE, r: Response, conn: Option<Conn>, env: Env)
    requires Collecting(s) && Successful(r) && MultipleVias(r)
    ensures var h := OnResponse(s, r, conn, env);
            && h.up == Some(Resp(r)) && Collecting(h.s) && h.s.tx.state.Accepted?
            && h.s.ep.wire == s.ep.wire && h.s.tx.lastAck == s.tx.lastAck
  {
    TransitionFacts(s, Accepted, env);
    hide Transition, KeepsTables;
  }

  /** The body the user armed goes out with the first ACK that has none, once; a repeated ACK has the body
      it had. */
  lemma ArmedBodyGoesOut(s: TE, r: Response, conn: Option<Conn>, env: Env)
    requires Collecting(s) && ProperSuccess(r) && !MultipleVias(r)
    ensures var t := OnResponse(s, r, conn, env).s.tx;
            var body := if s.tx.lastAck.Some? && s.tx.lastAck.value.toTag == r.toTag then s.tx.lastAck.value.body else [];
            && t.lastAck.Some?
            && t.lastAck.value.body == (if body == [] && s.tx.ackBody.Some? then s.tx.ackBody.value else body)
            && t.ackBody == (if body == [] then None else s.tx.ackBody)
  {
    hide Transition, KeepsTables, ChooseAck, MakeAck, PutAck;
    var s0 := s.(tx := s.tx.(lastResponse := Some(r)));
    var s1 := Transition(s0, Accepted, env).s;
    TransitionFacts(s0, Accepted, env);
    AckFollowsRecordRoute(s.tx.original, r, env.branch);
    ChosenAck(s1.tx, env.branch);
    BodyTaken(s1, ChooseAck(s1.tx, env.branch).value, conn, env);
  }

  lemma BodyTaken(s: TE, ack: Request, conn: Option<Conn>, env: Env)
    requires s.tx.lastResponse.Some? && Successful(s.tx.lastResponse.value)
    ensures var t := PutAck(s, ack, conn, env).tx;
            && t.lastAck == Some(ack.(body := if ack.body == [] && s.tx.ackBody.Some? then s.tx.ackBody.value else ack.body))
            && t.ackBody == if ack.body == [] then None else s.tx.ackBody
  {
  }
}
