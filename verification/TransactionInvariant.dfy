/**
 The invariant of one transaction: sane, its timers disciplined, its
 retransmissions paced.  It survives every handler.
 */
module TransactionInvariant {
  import opened Prelude
  import opened SipMessages
  import opened TransactionKey
  import opened EndpointSpec
  import opened TransactionSpec
  import opened TransactionSanity
  import opened TimerDiscipline
  import opened Pacing

  function RequestPace(opt: EndpointOption): Pace { Pace(opt.t1, opt.t1x64, opt.t1x64) }

  function ResponsePace(opt: EndpointOption): Pace { Pace(opt.t1, opt.t2, opt.t1x64) }

  /** Timer A against Timer B. */
  ghost predicate ClientPaced(tx: Tx, opt: EndpointOption, now: nat) {
    && (tx.state.Nothing? ==> tx.log.resentRequests == 0 && tx.log.callingSince <= now)
    && (!tx.state.Nothing? ==>
          Series(tx.pending, tx.queue, A, B, tx.log.resentRequests, tx.log.callingSince, RequestPace(opt), now))
  }

  /** The timer that ends the retransmission of a final response: L for a 2xx, D otherwise. */
  function StopOfG(state: State): Slot { if state.Accepted? then L else D }

  /** Timer G against Timer L or D. */
  ghost predicate ServerPaced(tx: Tx, opt: EndpointOption, now: nat) {
    && (InSetup(tx.state) ==> tx.log.resentResponses == 0)
    && (tx.state.Accepted? || tx.state.Completed? ==>
          Series(tx.pending, tx.queue, G, StopOfG(tx.state), tx.log.resentResponses, tx.log.finalSince, ResponsePace(opt), now))
    && (tx.log.resentResponses > 0 ==> Earliest(tx.log.resentResponses - 1, opt.t1, opt.t2) <= opt.t1x64)
  }

  ghost predicate Paced(tx: Tx, opt: EndpointOption, now: nat) {
    && (IsClient(tx.kind) ==> ClientPaced(tx, opt, now))
    && (tx.kind.ServerInvite? ==> ServerPaced(tx, opt, now))
  }

  ghost predicate Inv(tx: Tx, opt: EndpointOption, now: nat) {
    Sane(tx) && Disciplined(tx) && Paced(tx, opt, now)
  }

  /** The fields the invariant reads, besides the stored response. */
  predicate SameCore(t: Tx, t': Tx) {
    && SameIdentity(t, t') && t'.state == t.state && t'.cleanedUp == t.cleanedUp
    && t'.queue == t.queue && t'.held == t.held && t'.pending == t.pending
    && t'.log == t.log.(delivered := t'.log.delivered)
  }

  lemma SameCoreInv(t: Tx, t': Tx, opt: EndpointOption, now: nat)
    requires Inv(t, opt, now) && SameCore(t, t') && t'.lastResponse == t.lastResponse
    ensures Inv(t', opt, now)
  {
    SameSane(t, t');
    hide Sane, Distinct, Flying, FiredSlots, Series, Earliest;
  }

  lemma InvLater(tx: Tx, opt: EndpointOption, now: nat, later: nat)
    requires Inv(tx, opt, now) && now <= later
    ensures Inv(tx, opt, later)
  {
    hide Sane, Disciplined, Series, Earliest;
    if IsClient(tx.kind) && !tx.state.Nothing? {
      SeriesLater(tx.pending, tx.queue, A, B, tx.log.resentRequests, tx.log.callingSince, RequestPace(opt), now, later);
    }
    if tx.kind.ServerInvite? && (tx.state.Accepted? || tx.state.Completed?) {
      SeriesLater(tx.pending, tx.queue, G, StopOfG(tx.state), tx.log.resentResponses, tx.log.finalSince, ResponsePace(opt), now, later);
    }
  }

  // ---- Taking the head of the queue --------------------------------------------

  lemma PopDisciplined(tx: Tx)
    requires Disciplined(tx) && tx.queue != []
    ensures Disciplined(tx.(queue := tx.queue[1..]))
    ensures tx.queue[0].Fired? && tx.queue[0].timer.TxTimer? ==>
              tx.queue[0].timer.slot !in TimersOf(tx.(queue := tx.queue[1..])) && tx.queue[0].timer.slot in TimersOf(tx)
  {
    FlyingPop(tx.queue);
    hide FiredSlots, Flying, Distinct;
    if tx.queue[0].Fired? && tx.queue[0].timer.TxTimer? {
      assert tx.queue[0].timer.slot !in tx.pending.Keys * Flying(tx.queue);
    }
  }

  lemma PopSane(tx: Tx)
    requires Sane(tx) && tx.queue != []
    ensures Sane(tx.(queue := tx.queue[1..])) && OkEvent(tx, tx.queue[0])
  {
    var tx' := tx.(queue := tx.queue[1..]);
    forall i | 0 <= i < |tx'.queue| ensures OkEvent(tx', tx'.queue[i]) {
      assert OkEvent(tx, tx.queue[i + 1]);
    }
  }

  lemma PopPaced(tx: Tx, opt: EndpointOption, now: nat)
    requires Disciplined(tx) && Paced(tx, opt, now) && tx.queue != []
    ensures Paced(tx.(queue := tx.queue[1..]), opt, now)
  {
    hide Sane, FiredSlots, Flying, Distinct, Series, Earliest, Phased;
    if IsClient(tx.kind) && !tx.state.Nothing? {
      PopOther(tx.pending, tx.queue, A, B, tx.log.resentRequests, tx.log.callingSince, RequestPace(opt), now);
    }
    if tx.kind.ServerInvite? && (tx.state.Accepted? || tx.state.Completed?) {
      PopOther(tx.pending, tx.queue, G, StopOfG(tx.state), tx.log.resentResponses, tx.log.finalSince, ResponsePace(opt), now);
    }
  }

  lemma PopInv(tx: Tx, opt: EndpointOption, now: nat)
    requires Inv(tx, opt, now) && tx.queue != []
    ensures Inv(tx.(queue := tx.queue[1..]), opt, now) && OkEvent(tx, tx.queue[0])
  {
    hide Sane, Disciplined, Paced, OkEvent;
    PopSane(tx);
    PopDisciplined(tx);
    PopPaced(tx, opt, now);
  }

  // ---- Appending an event that is not a timer's ---------------------------------

  lemma AppendInv(tx: Tx, e: TxEvent, opt: EndpointOption, now: nat)
    requires Inv(tx, opt, now) && OkEvent(tx, e) && !e.Fired?
    ensures Inv(tx.(queue := tx.queue + [e]), opt, now)
  {
    var tx' := tx.(queue := tx.queue + [e]);
    assert Sane(tx') by {
      forall i | 0 <= i < |tx'.queue| ensures OkEvent(tx', tx'.queue[i]) {
        assert i < |tx.queue| ==> OkEvent(tx, tx.queue[i]);
      }
    }
    AppendDisciplined(tx, e);
    AppendPaced(tx, e, opt, now);
    hide Sane, Disciplined, Paced, OkEvent;
  }

  lemma AppendDisciplined(tx: Tx, e: TxEvent)
    requires Disciplined(tx) && !e.Fired?
    ensures Disciplined(tx.(queue := tx.queue + [e]))
  {
    FiredSlotsAppend(tx.queue, e);
    assert FiredSlots(tx.queue + [e]) == FiredSlots(tx.queue) by { assert [e][1..] == []; }
    hide FiredSlots, Distinct;
  }

  lemma AppendPaced(tx: Tx, e: TxEvent, opt: EndpointOption, now: nat)
    requires Paced(tx, opt, now) && !e.Fired?
    ensures Paced(tx.(queue := tx.queue + [e]), opt, now)
  {
    hide FiredSlots, Flying, Series, Earliest;
    if IsClient(tx.kind) && !tx.state.Nothing? {
      AppendSeries(tx.pending, tx.queue, e, A, B, tx.log.resentRequests, tx.log.callingSince, RequestPace(opt), now);
    }
    if tx.kind.ServerInvite? && (tx.state.Accepted? || tx.state.Completed?) {
      AppendSeries(tx.pending, tx.queue, e, G, StopOfG(tx.state), tx.log.resentResponses, tx.log.finalSince, ResponsePace(opt), now);
    }
  }

  // ---- State entries: client pacing ----------------------------------------------

  /** Timers A and B are as they were, or gone. */
  predicate FewerAB(t: Tx, t': Tx) {
    && (A in t'.pending ==> A in t.pending && t'.pending[A] == t.pending[A])
    && (B in t'.pending ==> B in t.pending && t'.pending[B] == t.pending[B])
    && t'.queue == t.queue && t'.log.resentRequests == t.log.resentRequests && t'.log.callingSince == t.log.callingSince
  }

  lemma EnterProvisionalFewer(s: TE, now: nat)
    ensures FewerAB(s.tx, EnterProvisional(s, now).tx)
  {
    hide TimersOf;
  }

  lemma EnterAcceptedFewer(s: TE, now: nat)
    requires IsClient(s.tx.kind)
    ensures FewerAB(s.tx, EnterAccepted(s, now).s.tx)
  {
    hide TimersOf, RouteAcks;
  }

  lemma EnterCompletedFewer(s: TE, now: nat)
    requires IsClient(s.tx.kind)
    ensures FewerAB(s.tx, EnterCompleted(s, now).s.tx)
  {
    hide TimersOf, RouteAcks;
  }

  lemma FewerPaced(t: Tx, t': Tx, opt: EndpointOption, now: nat)
    requires ClientPaced(t, opt, now) && FewerAB(t, t') && Disciplined(t) && !t'.state.Nothing?
    ensures ClientPaced(t', opt, now)
  {
    hide Series, Earliest, FiredSlots, Distinct;
    if t.state.Nothing? {
      StartSeries(t'.pending, t'.queue, A, B, t.log.callingSince, RequestPace(opt));
      SeriesLater(t'.pending, t'.queue, A, B, 0, t.log.callingSince, RequestPace(opt), t.log.callingSince, now);
    } else {
      KeepSeries(t.pending, t'.pending, t.queue, A, B, t.log.resentRequests, t.log.callingSince, RequestPace(opt), now);
    }
  }

  lemma EnterCallingPaced(s: TE, now: nat)
    requires IsClient(s.tx.kind) && s.tx.state.Nothing? && Disciplined(s.tx) && ClientPaced(s.tx, s.ep.opt, now)
    ensures ClientPaced(EnterCalling(s, now).tx.(state := Calling), s.ep.opt, now)
  {
    var tx := EnterCalling(s, now).tx;
    EnterCallingPending(s, now);
    EnterCallingQuiet(s, now);
    assert Flying(s.tx.queue) == {} by { hide FiredSlots, Distinct; }
    hide EnterCalling, Series, Earliest, FiredSlots, Distinct, Disciplined;
    StartSeries(tx.pending, tx.queue, A, B, now, RequestPace(s.ep.opt));
  }

  lemma EnterCallingPending(s: TE, now: nat)
    requires IsClient(s.tx.kind) && s.tx.pending == map[]
    ensures var tx := EnterCalling(s, now).tx;
            && (A in tx.pending ==> tx.pending[A] == Shot(now + s.ep.opt.t1, s.ep.opt.t1))
            && B in tx.pending && tx.pending[B].due == now + s.ep.opt.t1x64
            && tx.log.callingSince == now && tx.log.resentRequests == s.tx.log.resentRequests
  {
    hide TimersOf;
  }

  // ---- State entries: server pacing ------------------------------------------------

  lemma EnterAcceptedPending(s: TE, now: nat)
    requires s.tx.kind.ServerInvite?
    ensures var tx := EnterAccepted(s, now).s.tx;
            && G in tx.pending && tx.pending[G] == Shot(now + s.ep.opt.t1, s.ep.opt.t1)
            && L in tx.pending && tx.pending[L].due == now + s.ep.opt.t1x64
            && tx.log.finalSince == now && tx.log.resentResponses == s.tx.log.resentResponses
  {
    hide TimersOf, ResponseDialog;
  }

  lemma EnterCompletedPending(s: TE, now: nat)
    requires s.tx.kind.ServerInvite? && G !in s.tx.pending && EnterCompleted(s, now).ok
    ensures var tx := EnterCompleted(s, now).s.tx;
            && (G in tx.pending ==> tx.pending[G] == Shot(now + s.ep.opt.t1, s.ep.opt.t1))
            && D in tx.pending && tx.pending[D].due == now + s.ep.opt.t1x64
            && tx.log.finalSince == now && tx.log.resentResponses == s.tx.log.resentResponses
  {
    hide TimersOf, ResponseDialog;
  }

  lemma EnterFinalPaced(s: TE, target: State, now: nat)
    requires s.tx.kind.ServerInvite? && InSetup(s.tx.state) && Disciplined(s.tx) && ServerPaced(s.tx, s.ep.opt, now)
    requires target.Accepted? || (target.Completed? && EnterCompleted(s, now).ok)
    ensures target.Accepted? ==> ServerPaced(EnterAccepted(s, now).s.tx.(state := Accepted), s.ep.opt, now)
    ensures target.Completed? ==> ServerPaced(EnterCompleted(s, now).s.tx.(state := Completed), s.ep.opt, now)
  {
    var tx := if target.Accepted? then EnterAccepted(s, now).s.tx else EnterCompleted(s, now).s.tx;
    assert TimersOf(s.tx) <= {A, B, C};
    assert G !in Flying(s.tx.queue) && L !in Flying(s.tx.queue) && D !in Flying(s.tx.queue) && G !in s.tx.pending;
    if target.Accepted? { EnterAcceptedPending(s, now); EnterAcceptedQuiet(s, now); }
    else { EnterCompletedPending(s, now); EnterCompletedQuiet(s, now); }
    hide EnterAccepted, EnterCompleted, Series, Earliest, FiredSlots, Flying, Distinct, Disciplined, KeepsTables, CanEnter;
    StartSeries(tx.pending, tx.queue, G, StopOfG(target), now, ResponsePace(s.ep.opt));
  }

  // ---- Transitions -------------------------------------------------------------------

  lemma TransitionPaced(s: TE, target: State, env: Env)
    requires Disciplined(s.tx) && Paced(s.tx, s.ep.opt, env.now) && s.tx.state != target && CanTransition(s.tx.state, target)
    requires Reaches(s.tx.kind, s.tx.state) && Reaches(s.tx.kind, target)
    requires !target.Terminated? && (target.Calling? ==> s.tx.state.Nothing?) && (target.Confirmed? ==> s.tx.state.Completed?)
    requires Transition(s, target, env).ok
    ensures Paced(Transition(s, target, env).s.tx, s.ep.opt, env.now)
  {
    var tx := Enter(s, target, env).s.tx;
    EnterFacts(s, target, env);
    hide Series, Earliest, FiredSlots, Flying, Distinct, Disciplined, KeepsTables, CanEnter,
      EnterCalling, EnterProvisional, EnterAccepted, EnterCompleted, EnterConfirmed, EnterTerminated;
    if IsClient(s.tx.kind) {
      match target {
        case Calling => EnterCallingPaced(s, env.now);
        case Trying => EnterProvisionalFewer(s, env.now); FewerPaced(s.tx, tx.(state := target), s.ep.opt, env.now);
        case Proceeding => EnterProvisionalFewer(s, env.now); FewerPaced(s.tx, tx.(state := target), s.ep.opt, env.now);
        case Accepted => EnterAcceptedFewer(s, env.now); FewerPaced(s.tx, tx.(state := target), s.ep.opt, env.now);
        case Completed => EnterCompletedFewer(s, env.now); FewerPaced(s.tx, tx.(state := target), s.ep.opt, env.now);
        case _ =>
      }
    } else if s.tx.kind.ServerInvite? {
      if target.Accepted? || target.Completed? {
        EnterFinalPaced(s, target, env.now);
      }
    }
  }

  lemma TransitionInv(s: TE, target: State, env: Env)
    requires Inv(s.tx, s.ep.opt, env.now) && CanTransition(s.tx.state, target) && CanEnter(s.tx, target)
    requires !target.Terminated? && Reaches(s.tx.kind, target)
    requires target.Calling? ==> s.tx.state.Nothing? || s.tx.state.Calling?
    requires target.Confirmed? ==> s.tx.state.Completed?
    requires s.tx.kind.ServerInvite? && (target.Accepted? || target.Completed? || target.Confirmed?) ==>
               && s.tx.lastResponse.Some? && Final(s.tx.lastResponse.value)
               && (target.Accepted? <==> Successful(s.tx.lastResponse.value))
    ensures Transition(s, target, env).ok
    ensures Inv(Transition(s, target, env).s.tx, s.ep.opt, env.now)
  {
    TransitionFacts(s, target, env);
    assert s.tx.cleanedUp <==> s.tx.state.Terminated?;
    if s.tx.state != target {
      hide Enter, Transition, Disciplined, Paced, KeepsTables, CanEnter;
      MovedSane(s.tx, Transition(s, target, env).s.tx);
      hide Sane;
      TransitionDisciplined(s, target, env);
      TransitionPaced(s, target, env);
    }
  }

  lemma EndInv(s: TE, env: Env)
    requires Inv(s.tx, s.ep.opt, env.now) && !s.tx.state.Terminated?
    ensures Transition(s, Terminated, env).ok && Ended(s, Transition(s, Terminated, env).s, env)
    ensures Inv(Transition(s, Terminated, env).s.tx, s.ep.opt, env.now)
  {
    assert !s.tx.cleanedUp;
    TransitionEnds(s, env);
    CleanedSane(s.tx);
    CleanedDisciplined(s.tx);
    CleanedPaced(s.tx, s.ep.opt, env.now);
    hide Transition, Cleaned, Sane, Disciplined, Paced;
  }

  lemma CleanedDisciplined(tx: Tx)
    requires Disciplined(tx)
    ensures Disciplined(Cleaned(tx).(state := Terminated, queue := tx.queue + [Terminate(tx.key)]))
  {
    AppendDisciplined(tx, Terminate(tx.key));
    forall x | x in tx.pending.Keys ensures x in ALL_SLOTS { AllSlots(x); }
    forall x | x in Flying(tx.queue + [Terminate(tx.key)]) ensures x in ALL_SLOTS { AllSlots(x); }
    hide FiredSlots, Distinct, Flying;
  }

  lemma CleanedPaced(tx: Tx, opt: EndpointOption, now: nat)
    requires Disciplined(tx) && Paced(tx, opt, now)
    ensures Paced(Cleaned(tx).(state := Terminated, queue := tx.queue + [Terminate(tx.key)]), opt, now)
  {
    var t' := Cleaned(tx).(state := Terminated);
    assert FewerAB(tx, t');
    if IsClient(tx.kind) {
      FewerPaced(tx, t', opt, now);
    }
    AppendPaced(t', Terminate(tx.key), opt, now);
    hide Series, Earliest, FiredSlots, Distinct, Flying;
  }
}
