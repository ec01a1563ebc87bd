/**
 What a client transaction tells its user: provisional responses, then one
 failure or one success, or several successes for an INVITE, and nothing more.
 */
module ClientStory {
  import opened Prelude
  import opened SipMessages
  import opened TransactionKey
  import opened EndpointSpec
  import opened TransactionSpec
  import opened TransactionSanity
  import opened TransactionInvariant
  import opened TransactionHandlers
  import opened NeverStuck
  import opened TableSteps
  import opened StateOrder
  import opened LocalEvents
  import opened System
  import opened SystemSteps
  import opened RunTheorems

  predicate IsProvisional(m: SipMessage) { m.Resp? && Provisional(m.response) }

  predicate IsSuccess(m: SipMessage) { m.Resp? && Successful(m.response) }

  predicate IsFailure(m: SipMessage) { m.Resp? && Final(m.response) && !Successful(m.response) }

  ghost predicate Early(d: seq<SipMessage>) {
    forall i :: 0 <= i < |d| ==> IsProvisional(d[i])
  }

  /** Provisionals, then successes: at least one, and only one unless `many`. */
  ghost predicate Answered(d: seq<SipMessage>, many: bool) {
    exists n :: 0 <= n < |d| && Early(d[..n]) && (forall i :: n <= i < |d| ==> IsSuccess(d[i])) && (many || n + 1 == |d|)
  }

  /** Provisionals, then one failure. */
  ghost predicate Failed(d: seq<SipMessage>) {
    d != [] && Early(d[..|d| - 1]) && IsFailure(d[|d| - 1])
  }

  ghost predicate Told(kind: TxType, state: State, d: seq<SipMessage>) {
    if InSetup(state) then Early(d)
    else if state.Accepted? then Answered(d, kind.ClientInvite?)
    else Answered(d, kind.ClientInvite?) || Failed(d)
  }

  ghost predicate Story(tx: Tx) {
    IsClient(tx.kind) ==> Told(tx.kind, tx.state, tx.log.delivered)
  }

  // ---- Extending the story ---------------------------------------------------------

  lemma TellProvisional(d: seq<SipMessage>, m: SipMessage)
    requires Early(d) && IsProvisional(m)
    ensures Early(d + [m])
  {
  }

  lemma TellFirstSuccess(d: seq<SipMessage>, m: SipMessage, many: bool)
    requires Early(d) && IsSuccess(m)
    ensures Answered(d + [m], many)
  {
    assert (d + [m])[..|d|] == d;
  }

  lemma TellSuccess(d: seq<SipMessage>, m: SipMessage)
    requires Answered(d, true) && IsSuccess(m)
    ensures Answered(d + [m], true)
  {
    var n :| 0 <= n < |d| && Early(d[..n]) && (forall i :: n <= i < |d| ==> IsSuccess(d[i]));
    assert (d + [m])[..n] == d[..n];
    assert forall i :: n <= i < |d + [m]| ==> IsSuccess((d + [m])[i]);
  }

  lemma TellFailure(d: seq<SipMessage>, m: SipMessage)
    requires Early(d) && IsFailure(m)
    ensures Failed(d + [m])
  {
    assert (d + [m])[..|d|] == d;
  }

  // ---- Handlers ---------------------------------------------------------------------

  /** Acknowledging a failure ends the transaction. */
  lemma SendAckEnds(s: TE, conn: Option<Conn>, env: Env)
    requires s.tx.kind.ClientInvite? && s.tx.state.Completed? && s.tx.lastResponse.Some? && !Successful(s.tx.lastResponse.value)
    ensures SendAck(s, conn, env).s.tx.state.Terminated?
  {
    assert ChooseAck(s.tx, env.branch).Some?;
    hide ChooseAck, Transition;
    var chosen := ChooseAck(s.tx, env.branch);
    var s1 := PutAck(s, chosen.value, conn, env);
    TransitionEndState(s1, env);
  }

  /** How the state moves when a response is handed up, and when it is not. */
  ghost predicate Tells(s: TE, h: Handled, r: Response) {
    if h.up.None? then h.s.tx.state == s.tx.state
    else
      && h.up == Some(Resp(r))
      && if Provisional(r) then InSetup(s.tx.state) && InSetup(h.s.tx.state)
         else if Successful(r) then
           && (InSetup(s.tx.state) || (s.tx.state.Accepted? && s.tx.kind.ClientInvite?))
           && (h.s.tx.state.Terminated? || (h.s.tx.state.Accepted? && s.tx.kind.ClientInvite?))
         else InSetup(s.tx.state) && h.s.tx.state.Terminated?
  }

  lemma Forwarded2xxTells(s: TE, r: Response, env: Env)
    requires s.tx.kind.ClientInvite? && !s.tx.state.Completed? && Successful(r)
    ensures Tells(s, OnForwarded2xx(s, r, env), r)
  {
    TransitionFacts(s, Accepted, env);
    hide Transition;
  }

  lemma OnResponseTells(s: TE, r: Response, conn: Option<Conn>, env: Env)
    requires IsClient(s.tx.kind) && Reaches(s.tx.kind, s.tx.state) && !s.tx.state.Completed?
    ensures Tells(s, OnResponse(s, r, conn, env), r)
  {
    if s.tx.kind.ClientInvite? && Successful(r) && MultipleVias(r) {
      Forwarded2xxTells(s, r, env);
    } else {
      var target := ResponseState(s.tx.kind, r, s.ep.opt);
      if CanTransition(s.tx.state, target) && !Duplicate(s.tx, r, target) {
        var s0 := s.(tx := s.tx.(lastResponse := Some(r)));
        var s1 := Transition(s0, target, env).s;
        ResponseTransition(s0, target, env);
        SendAckForward(s1, conn, env);
        if target.Completed? { SendAckEnds(s1, conn, env); }
      }
      hide Transition, SendAck, Duplicate, OnForwarded2xx;
    }
  }

  lemma ResponseTransition(s: TE, target: State, env: Env)
    requires IsClient(s.tx.kind) && (target.Accepted? || target.Completed? ==> s.tx.kind.ClientInvite?)
    ensures var s' := Transition(s, target, env).s;
            s'.tx.state == target && SameIdentity(s.tx, s'.tx)
            && (!target.Terminated? ==> s'.tx.lastResponse == s.tx.lastResponse)
  {
    if target.Terminated? {
      TransitionEndState(s, env);
      TransitionState(s, target, env);
    } else {
      TransitionFacts(s, target, env);
    }
    hide Transition;
  }

  lemma TellStory(t: Tx, s: TE, h: Handled, r: Response)
    requires IsClient(t.kind) && Story(t) && t.state == s.tx.state && t.kind == s.tx.kind && t.log.delivered == h.s.tx.log.delivered
    requires Tells(s, h, r) && h.s.tx.kind == t.kind && Reaches(t.kind, t.state)
    ensures Story(NoteDelivery(h).tx)
  {
    var d, m := t.log.delivered, Resp(r);
    if h.up.Some? {
      if Provisional(r) { TellProvisional(d, m); }
      else if Successful(r) {
        if InSetup(t.state) { TellFirstSuccess(d, m, t.kind.ClientInvite?); } else { TellSuccess(d, m); }
      } else { TellFailure(d, m); }
    }
    hide Early, Answered, Failed;
  }

  lemma OnTimerStory(s: TE, t: TxTimer, env: Env)
    requires IsClient(s.tx.kind) && Reaches(s.tx.kind, s.tx.state) && !s.tx.state.Completed?
    ensures OnTimer(s, t, env).tx.state == s.tx.state || (s.tx.state.Accepted? && OnTimer(s, t, env).tx.state.Terminated?)
  {
    hide Transition, TimersOf;
    TransitionState(s, Terminated, env);
  }

  /** From one telling state to the next, when nothing is told. */
  lemma QuietStory(t: Tx, t': Tx)
    requires Story(t) && SameIdentity(t, t') && t'.log.delivered == t.log.delivered
    requires IsClient(t.kind) ==> t'.state == t.state || (InSetup(t.state) && InSetup(t'.state)) || (t.state.Accepted? && t'.state.Terminated?)
    ensures Story(t')
  {
    hide Early, Answered, Failed;
  }

  lemma HandleStory(s0: TE, env: Env)
    requires s0.tx.queue != [] && Sane(s0.tx) && Alive(s0.tx) && Story(s0.tx) && IsClient(s0.tx.kind)
    ensures Story(Receive(s0, env).tx)
  {
    var s, e := Pop(s0), s0.tx.queue[0];
    var h := Handle(s, e, env);
    assert Reaches(s.tx.kind, s.tx.state) && !s.tx.state.Completed?;
    HandleInward(s, e, env);
    hide Sane, Alive, Grows;
    if e.Received? && e.msg.Resp? {
      OnResponseTells(s, e.msg.response, e.conn, env);
      hide OnResponse, Tells, Story;
      TellStory(s0.tx, s, h, e.msg.response);
    } else {
      OtherStates(s, e, env);
      hide Handle, Story;
      QuietStory(s0.tx, h.s.tx);
    }
  }

  /** Events that are no response tell a client's user nothing. */
  lemma OtherStates(s: TE, e: TxEvent, env: Env)
    requires IsClient(s.tx.kind) && Reaches(s.tx.kind, s.tx.state) && !s.tx.state.Completed?
    requires !(e.Received? && e.msg.Resp?)
    ensures var h := Handle(s, e, env);
            h.up.None? && (h.s.tx.state == s.tx.state || (s.tx.state.Accepted? && h.s.tx.state.Terminated?))
  {
    hide OnTimer, CanTransition, Transition;
    if e.Fired? { OnTimerStory(s, e.timer, env); }
  }

  lemma SendStory(s: TE, env: Env)
    requires Story(s.tx) && (IsClient(s.tx.kind) ==> s.tx.state.Nothing? || s.tx.state.Calling?)
    ensures Story(Send(s, env).s.tx)
  {
    SendInward(s, env);
    SendStates(s, env);
    hide Send, Story;
    QuietStory(s.tx, Send(s, env).s.tx);
  }

  lemma SendStates(s: TE, env: Env)
    ensures Send(s, env).s.tx.state == s.tx.state || Send(s, env).s.tx.state == Calling
  {
    TransitionState(Written(s, env), Calling, env);
    hide Transition;
  }

  lemma ClientAckStory(s: TE, conn: Option<Conn>, env: Env)
    requires Story(s.tx) && Alive(s.tx)
    ensures Story(SendAck(s, conn, env).s.tx)
  {
    SendAckInward(s, conn, env);
    SendAckForward(s, conn, env);
    AckCaller(s, conn, env);
    hide SendAck, Story, Alive;
    QuietStory(s.tx, SendAck(s, conn, env).s.tx);
  }

  lemma CallStory(s: TE, e: Event)
    requires IsCall(e) && (e.CallReceive? ==> s.tx.queue != []) && (e.FireTimer? ==> e.slot in s.tx.pending)
    requires e.CallSend? && IsClient(s.tx.kind) ==> s.tx.state.Nothing? || s.tx.state.Calling?
    requires Sane(s.tx) && Alive(s.tx) && Story(s.tx)
    requires s.tx.cleanedUp <==> s.tx.state.Terminated?
    ensures Story(Called(s, e).tx)
  {
    CallKeeps(s, e);
    hide Send, Receive, DoRespond, SendAck, Sane, Alive, Told;
    match e
    case CallSend(_, env) => SendStory(s, env);
    case CallReceive(_, env) => if IsClient(s.tx.kind) { HandleStory(s, env); }
    case CallRespond(_, r, env) => ClientRespond(s, r, env);
    case CallSendAck(_, conn, env) => ClientAckStory(s, conn, env);
    case _ =>
  }

  lemma ClientRespond(s: TE, r: Response, env: Env)
    ensures IsClient(s.tx.kind) ==> DoRespond(s, r, env).s == s
  {
    hide CanTransition, Transition;
  }

  // ---- Runs --------------------------------------------------------------------------------

  ghost predicate Stories(sys: Sys) {
    forall id :: id in sys.txs ==> Story(sys.txs[id])
  }

  lemma StepStories(sys: Sys, e: Event)
    requires Consistent(sys) && Possible(sys, e) && Stories(sys)
    ensures Stories(Step(sys, e))
  {
    if IsCall(e) {
      hide Consistent, Called, Possible, Story;
      CallPossible(sys, e);
      HealthyAt(sys, e.id, TimeOf(e));
      assert Sane(sys.txs[e.id]);
      CallStory(At(sys, e.id), e);
    } else if e.Incoming? {
      hide Consistent, Route, Told;
    } else {
      hide Consistent, Told, DoCleanup, RunCleanup;
    }
  }

  lemma {:induction false} RunStories(sys: Sys, es: seq<Event>)
    requires Consistent(sys) && Run(sys, es) && Stories(sys)
    ensures Stories(After(sys, es))
    decreases |es|
  {
    if es != [] {
      StepStories(sys, es[0]);
      StepConsistent(sys, es[0]);
      hide Consistent, Step, Possible, Stories;
      RunStories(Step(sys, es[0]), es[1..]);
    }
  }

  /** On every run, what a client transaction has handed to its user is provisionals, then
      nothing, one failure, one success, or for an INVITE one or more successes. */
  lemma TraceShape(opt: EndpointOption, es: seq<Event>, id: nat)
    requires Run(Start(opt), es) && id in Reached(opt, es).txs && IsClient(Reached(opt, es).txs[id].kind)
    ensures var tx := Reached(opt, es).txs[id];
            var d := tx.log.delivered;
            && (Early(d) || Failed(d) || Answered(d, tx.kind.ClientInvite?))
            && (InSetup(tx.state) ==> Early(d))
            && (tx.state.Accepted? ==> Answered(d, tx.kind.ClientInvite?))
            && (tx.state.Terminated? ==> Failed(d) || Answered(d, tx.kind.ClientInvite?))
  {
    StartConsistent(opt);
    RunStories(Start(opt), es);
    hide Early, Failed, Answered;
    assert Story(Reached(opt, es).txs[id]);
  }
}
