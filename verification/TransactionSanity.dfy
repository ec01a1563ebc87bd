/**
 Facts about one transaction that hold in every reachable state and do not
 mention timers: which states a kind reaches, what its queue and its stored
 response can contain.
 */
module TransactionSanity {
  import opened Prelude
  import opened SipMessages
  import opened TransactionKey
  import opened EndpointSpec
  import opened TransactionSpec

  predicate Reaches(kind: TxType, state: State) {
    match kind
    case ClientInvite => !state.Confirmed?
    case ClientNonInvite => !state.Accepted? && !state.Completed? && !state.Confirmed?
    case ServerInvite => !state.Nothing? && !state.Calling?
    case ServerNonInvite => state.Trying? || state.Proceeding? || state.Terminated?
  }

  /** A response a transaction user may hand to `respond`: made for this request,
      and a final one has the tags that name its dialog. */
  predicate Answers(original: Request, r: Response) {
    && r.ids == original.ids && r.verb == original.verb && !r.synthetic
    && (Final(r) ==> ResponseDialog(r, Server).Some?)
  }

  predicate OkEvent(tx: Tx, e: TxEvent) {
    match e
    case Fired(t) => t.TxTimer? && t.key == tx.key
    case Respond(r) => !IsClient(tx.kind) && Answers(tx.original, r)
    case Received(msg, _) =>
      && (msg.Req? && msg.request.verb == Ack && !IsClient(tx.kind) ==> msg.request.ids.cseq == tx.original.ids.cseq)
      && (msg.Resp? && msg.response.synthetic ==> Final(msg.response) && !Successful(msg.response))
    case Terminate(_) => true
  }

  ghost predicate Sane(tx: Tx) {
    && Reaches(tx.kind, tx.state)
    && (tx.cleanedUp <==> tx.state.Terminated?)
    && (!IsClient(tx.kind) && tx.lastResponse.Some? ==> Answers(tx.original, tx.lastResponse.value))
    && (tx.kind.ServerInvite? && (tx.state.Accepted? || tx.state.Completed? || tx.state.Confirmed?) ==>
          && tx.lastResponse.Some? && Final(tx.lastResponse.value)
          && (tx.state.Accepted? <==> Successful(tx.lastResponse.value)))
    && (tx.kind.ServerInvite? ==> tx.original.verb == Invite)
    && (forall i :: 0 <= i < |tx.queue| ==> OkEvent(tx, tx.queue[i]))
  }

  /** The fields no handler changes. */
  predicate SameIdentity(tx: Tx, tx': Tx) {
    tx'.kind == tx.kind && tx'.key == tx.key && tx'.original == tx.original
  }

  // ---- What a transition changes --------------------------------------------

  /** Only these fields of the transaction can change before it ends. */
  predicate KeepsMessages(t: Tx, t': Tx) {
    t' == t.(state := t'.state, held := t'.held, pending := t'.pending,
             log := t.log.(callingSince := t'.log.callingSince, provisionalSince := t'.log.provisionalSince,
                           finalSince := t'.log.finalSince, confirmedSince := t'.log.confirmedSince, clash := t'.log.clash))
  }

  /** Only the ACK routes of the endpoint can change. */
  predicate KeepsTables(ep: Ep, ep': Ep) {
    ep' == ep.(waitingAck := ep'.waitingAck, waitingAckCseq := ep'.waitingAckCseq)
  }

  /** A final state can be entered: the kind has it, and a server knows the dialog. */
  predicate CanEnter(tx: Tx, target: State) {
    match target
    case Accepted => tx.kind.ClientInvite? || (tx.kind.ServerInvite? && KnowsDialog(tx))
    case Completed => !tx.kind.ServerInvite? || (tx.conn.Some? && KnowsDialog(tx))
    case _ => true
  }

  predicate KnowsDialog(tx: Tx) {
    tx.lastResponse.None? || ResponseDialog(tx.lastResponse.value, Server).Some?
  }

  ghost predicate Quiet(s: TE, s': TE) {
    KeepsMessages(s.tx, s'.tx) && KeepsTables(s.ep, s'.ep) && s'.tx.state == s.tx.state
  }

  lemma EnterCallingQuiet(s: TE, now: nat)
    ensures Quiet(s, EnterCalling(s, now))
  {
    hide TimersOf;
  }

  lemma EnterProvisionalQuiet(s: TE, now: nat)
    ensures Quiet(s, EnterProvisional(s, now))
  {
    hide TimersOf;
  }

  lemma EnterAcceptedQuiet(s: TE, now: nat)
    ensures Quiet(s, EnterAccepted(s, now).s)
    ensures EnterAccepted(s, now).ok <==> CanEnter(s.tx, Accepted)
  {
    hide TimersOf;
  }

  lemma EnterCompletedQuiet(s: TE, now: nat)
    ensures Quiet(s, EnterCompleted(s, now).s)
    ensures EnterCompleted(s, now).ok <==> CanEnter(s.tx, Completed)
  {
    hide TimersOf, Arm, Quiet, RouteAcks, ResponseDialog, Disarm;
    var s1 := Disarm(s.(tx := s.tx.(log := s.tx.log.(finalSince := now))), {A, B, C});
    LeaveSetupQuiet(s, now);
    ArmQuiet(s, s1, G, now, s.ep.opt.t1);
    var s2 := if !s.tx.kind.ServerInvite? || s.tx.conn.None? || Reliable(s.tx.conn.value) then s1 else Arm(s1, G, now, s.ep.opt.t1);
    ArmQuiet(s, s2, D, now, s.ep.opt.t1x64);
    if s.tx.lastResponse.Some? && ResponseDialog(s.tx.lastResponse.value, Server).Some? {
      RouteQuiet(s, Arm(s2, D, now, s.ep.opt.t1x64), ResponseDialog(s.tx.lastResponse.value, Server).value, false);
    }
  }

  lemma LeaveSetupQuiet(s: TE, now: nat)
    ensures Quiet(s, Disarm(s.(tx := s.tx.(log := s.tx.log.(finalSince := now))), {A, B, C}))
  {
  }

  lemma ArmQuiet(s: TE, t: TE, slot: Slot, now: nat, delay: nat)
    requires Quiet(s, t)
    ensures Quiet(s, Arm(t, slot, now, delay))
    ensures Arm(t, slot, now, delay).tx.lastResponse == t.tx.lastResponse && Arm(t, slot, now, delay).ep == t.ep
  {
    hide TimersOf;
  }

  lemma RouteQuiet(s: TE, t: TE, dialog: DialogId, byCseq: bool)
    requires Quiet(s, t)
    ensures Quiet(s, RouteAcks(t, dialog, byCseq))
  {
  }

  lemma EnterConfirmedQuiet(s: TE, now: nat)
    ensures Quiet(s, EnterConfirmed(s, now))
  {
    hide TimersOf;
  }

  lemma EnterFacts(s: TE, target: State, env: Env)
    requires !target.Terminated?
    ensures Quiet(s, Enter(s, target, env).s)
    ensures Enter(s, target, env).ok <==> CanEnter(s.tx, target)
  {
    hide EnterCalling, EnterProvisional, EnterAccepted, EnterCompleted, EnterConfirmed, EnterTerminated;
    match target
    case Nothing =>
    case Calling => EnterCallingQuiet(s, env.now);
    case Trying => EnterProvisionalQuiet(s, env.now);
    case Proceeding => EnterProvisionalQuiet(s, env.now);
    case Accepted => EnterAcceptedQuiet(s, env.now);
    case Completed => EnterCompletedQuiet(s, env.now);
    case Confirmed => EnterConfirmedQuiet(s, env.now);
  }

  /** A transition to a state other than Terminated. */
  lemma TransitionFacts(s: TE, target: State, env: Env)
    requires !target.Terminated?
    ensures var m := Transition(s, target, env);
            && KeepsMessages(s.tx, m.s.tx) && KeepsTables(s.ep, m.s.ep)
            && (s.tx.state == target ==> m == Moved(s, true))
            && (m.ok <==> s.tx.state == target || CanEnter(s.tx, target))
            && m.s.tx.state == if m.ok then target else s.tx.state
  {
    hide Enter, CanEnter;
    EnterFacts(s, target, env);
  }

  // ---- Ending ---------------------------------------------------------------

  /** The transaction after `cleanup`. */
  function Cleaned(t: Tx): Tx {
    t.(cleanedUp := true, held := t.held - ALL_SLOTS, pending := t.pending - ALL_SLOTS,
       lastAck := if t.kind.ClientInvite? then None else t.lastAck,
       lastResponse := if t.kind.ServerNonInvite? then None else t.lastResponse)
  }

  lemma DoCleanupFacts(s: TE, env: Env)
    requires !s.tx.cleanedUp
    ensures DoCleanup(s, env).tx == Cleaned(s.tx)
    ensures exists ep :: KeepsTables(s.ep, ep)
                         && DoCleanup(s, env).ep == Detach(ep, s.tx.key, LastMessage(s.tx, s.ep.opt, env.branch), env.now)
  {
    hide ForgetWaitingAck, MakeAck, Detach;
    var s1 := Disarm(s.(tx := s.tx.(cleanedUp := true)), ALL_SLOTS);
    var s2 := if s.tx.kind.ServerInvite? && s.tx.state.Completed? then s1 else ForgetRoutes(s1);
    assert s2.tx == s1.tx;
    assert KeepsTables(s.ep, s2.ep) by { ForgetRoutesFacts(s1); }
  }

  lemma ForgetRoutesFacts(s: TE)
    ensures ForgetRoutes(s).tx == s.tx && KeepsTables(s.ep, ForgetRoutes(s).ep)
  {
  }

  /** `s'` is `s` after the transition to Terminated. */
  ghost predicate Ended(s: TE, s': TE, env: Env) {
    && s'.tx == Cleaned(s.tx).(state := Terminated, queue := s.tx.queue + [Terminate(s.tx.key)])
    && exists ep :: KeepsTables(s.ep, ep)
                    && s'.ep == Detach(ep, s.tx.key, LastMessage(s.tx, s.ep.opt, env.branch), env.now)
  }

  lemma TransitionEnds(s: TE, env: Env)
    requires !s.tx.cleanedUp && !s.tx.state.Terminated?
    ensures Transition(s, Terminated, env).ok
    ensures Ended(s, Transition(s, Terminated, env).s, env)
  {
    hide DoCleanup, EnterCalling, EnterProvisional, EnterAccepted, EnterCompleted, EnterConfirmed, Detach, LastMessage;
    DoCleanupFacts(s, env);
    assert Cleaned(s.tx).queue == s.tx.queue;
  }

  // ---- Every handler keeps a transaction sane --------------------------------

  lemma CleanedSane(tx: Tx)
    requires Sane(tx) && !tx.state.Terminated?
    ensures Sane(Cleaned(tx).(state := Terminated, queue := tx.queue + [Terminate(tx.key)]))
  {
    var tx' := Cleaned(tx).(state := Terminated, queue := tx.queue + [Terminate(tx.key)]);
    forall i | 0 <= i < |tx'.queue| ensures OkEvent(tx', tx'.queue[i]) {
      if i < |tx.queue| { assert OkEvent(tx, tx.queue[i]); }
    }
  }

  /** Storing a new state keeps `Sane` when the state's own clauses hold. */
  lemma MovedSane(t: Tx, t': Tx)
    requires Sane(t) && KeepsMessages(t, t') && Reaches(t.kind, t'.state)
    requires t.cleanedUp <==> t'.state.Terminated?
    requires t.kind.ServerInvite? && (t'.state.Accepted? || t'.state.Completed? || t'.state.Confirmed?) ==>
               && t.lastResponse.Some? && Final(t.lastResponse.value)
               && (t'.state.Accepted? <==> Successful(t.lastResponse.value))
    ensures Sane(t')
  {
    forall i | 0 <= i < |t'.queue| ensures OkEvent(t', t'.queue[i]) {
      assert OkEvent(t, t.queue[i]);
    }
  }

  /** Changes that touch neither state, queue nor the stored response. */
  lemma SameSane(t: Tx, t': Tx)
    requires Sane(t)
    requires SameIdentity(t, t') && t'.state == t.state && t'.cleanedUp == t.cleanedUp
    requires t'.queue == t.queue && t'.lastResponse == t.lastResponse
    ensures Sane(t')
  {
    forall i | 0 <= i < |t'.queue| ensures OkEvent(t', t'.queue[i]) {
      assert OkEvent(t, t.queue[i]);
    }
  }

  // ---- The outcomes of a request ------------------------------------------------

  /** A server transaction without a connection takes the request's. */
  function Connected(s: TE, conn: Option<Conn>): TE {
    if s.tx.conn.None? then s.(tx := s.tx.(conn := conn)) else s
  }

  /** The ways `on_received_request` can leave the transaction. */
  predicate RequestOutcome(s0: TE, r: Request, conn: Option<Conn>, env: Env, s': TE) {
    if IsClient(s0.tx.kind) then s' == s0
    else
      var s := Connected(s0, conn);
      || s' == s
      || (r.verb == Cancel && s' == OnCancel(s, r, env).s)
      || ((s.tx.state.Trying? || s.tx.state.Proceeding?) && s.tx.lastResponse.Some?
          && s' == DoRespond(s, s.tx.lastResponse.value, env).s)
      || (s.tx.state.Accepted? && r.verb == Ack && s' == Transition(s, Terminated, env).s)
      || ((s.tx.state.Completed? || s.tx.state.Confirmed?) && r.verb == Ack && s' == Transition(s, Confirmed, env).s)
  }

  lemma RequestCases(s0: TE, r: Request, conn: Option<Conn>, env: Env)
    ensures RequestOutcome(s0, r, conn, env, OnRequest(s0, r, conn, env).s)
  {
    hide Transition, DoRespond, OnCancel;
  }

  lemma OnCancelKeeps(s: TE, r: Request, env: Env)
    ensures var s' := OnCancel(s, r, env).s;
            s'.tx == s.tx && s'.ep == s.ep.(wire := s'.ep.wire)
  {
    hide MakeResponse;
  }
}
