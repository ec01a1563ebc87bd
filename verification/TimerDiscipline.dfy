/**
 Each kind of timer has at most one instance, pending or in flight, and only in
 the states that may hold it.
 */
module TimerDiscipline {
  import opened Prelude
  import opened SipMessages
  import opened TransactionKey
  import opened EndpointSpec
  import opened TransactionSpec

  // ---- Timer events in the queue -------------------------------------------

  lemma {:induction false} FiredSlotsAppend(q: seq<TxEvent>, e: TxEvent)
    ensures FiredSlots(q + [e]) == FiredSlots(q) + FiredSlots([e])
  {
    if q != [] {
      FiredSlotsAppend(q[1..], e);
      assert (q + [e])[1..] == q[1..] + [e];
    } else {
      assert q + [e] == [e];
    }
  }

  lemma FiredSlotsPop(q: seq<TxEvent>)
    requires q != []
    ensures FiredSlots(q) == FiredSlots([q[0]]) + FiredSlots(q[1..])
    ensures q[0].Fired? && q[0].timer.TxTimer? ==> FiredSlots([q[0]]) == [q[0].timer.slot]
    ensures !(q[0].Fired? && q[0].timer.TxTimer?) ==> FiredSlots([q[0]]) == []
  {
    assert [q[0]][1..] == [];
  }

  // ---- The invariant ---------------------------------------------------------

  /** The timers a transaction may still have in each state. */
  function MayHold(state: State): set<Slot> {
    match state
    case Nothing => {}
    case Calling => {A, B}
    case Trying => {A, B, C}
    case Proceeding => {A, B, C}
    case Accepted => {A, B, C, G, L, M}
    case Completed => {A, B, C, D, G}
    case Confirmed => {A, B, C, D, G, K}
    case Terminated => ALL_SLOTS
  }

  ghost predicate Single(tx: Tx) {
    && Distinct(FiredSlots(tx.queue))
    && tx.pending.Keys * Flying(tx.queue) == {}
    && !tx.log.clash
  }

  ghost predicate Phased(tx: Tx) {
    && TimersOf(tx) <= MayHold(tx.state)
    && tx.pending.Keys <= tx.held
    && (InSetup(tx.state) && C in TimersOf(tx) ==> C in tx.held)
    && (tx.state.Terminated? ==> tx.pending.Keys == {})
  }

  ghost predicate Disciplined(tx: Tx) {
    Single(tx) && Phased(tx)
  }

  /** What a state entry establishes before the new state is stored. */
  ghost predicate Ready(tx: Tx, target: State) {
    && Single(tx)
    && TimersOf(tx) <= MayHold(target)
    && tx.pending.Keys <= tx.held
    && (InSetup(target) && C in TimersOf(tx) ==> C in tx.held)
    && (target.Terminated? ==> tx.pending.Keys == {})
  }

  lemma ReadyIsDisciplined(tx: Tx, target: State)
    requires Ready(tx, target)
    ensures Disciplined(tx.(state := target))
  {
  }

  lemma ArmReady(s: TE, slot: Slot, now: nat, delay: nat, target: State)
    requires Ready(s.tx, target) && slot !in TimersOf(s.tx) && slot in MayHold(target) && !target.Terminated?
    ensures Ready(Arm(s, slot, now, delay).tx, target)
    ensures TimersOf(Arm(s, slot, now, delay).tx) == TimersOf(s.tx) + {slot}
  {
  }

  lemma AllSlots(x: Slot)
    ensures x in ALL_SLOTS
  {
    match x case A => case B => case C => case D => case K => case G => case L => case M =>
  }

  lemma DisarmReady(s: TE, slots: set<Slot>, target: State)
    requires Disciplined(s.tx) && MayHold(s.tx.state) <= MayHold(target)
    requires InSetup(target) ==> C !in slots && InSetup(s.tx.state)
    requires target.Terminated? ==> slots == ALL_SLOTS
    ensures Ready(Disarm(s, slots).tx, target)
    ensures TimersOf(Disarm(s, slots).tx) <= TimersOf(s.tx)
  {
    forall x | x in s.tx.pending.Keys && target.Terminated? ensures x in slots {
      AllSlots(x);
    }
  }

  // ---- State entries -----------------------------------------------------------

  lemma EnterCallingReady(s: TE, now: nat)
    requires Disciplined(s.tx) && s.tx.state.Nothing?
    ensures Ready(EnterCalling(s, now).tx, Calling)
  {
    if IsClient(s.tx.kind) {
      var s1 := s.(tx := s.tx.(log := s.tx.log.(callingSince := now)));
      assert TimersOf(s1.tx) == {};
      if s.tx.conn.Some? && Reliable(s.tx.conn.value) {
        ArmReady(s1, B, now, s.ep.opt.t1x64, Calling);
      } else {
        ArmReady(s1, A, now, s.ep.opt.t1, Calling);
        ArmReady(Arm(s1, A, now, s.ep.opt.t1), B, now, s.ep.opt.t1x64, Calling);
      }
    }
  }

  lemma EnterProvisionalReady(s: TE, now: nat, target: State)
    requires Disciplined(s.tx) && InSetup(s.tx.state) && (target.Trying? || target.Proceeding?)
    ensures Ready(EnterProvisional(s, now).tx, target)
  {
    if !s.tx.kind.ClientInvite? {
      DisarmReady(s, {A}, target);
    } else {
      var s1 := Disarm(s, {A, B});
      DisarmReady(s, {A, B}, target);
      if C !in s.tx.held {
        ArmReady(s1, C, now, s.ep.opt.timerC, target);
      }
    }
  }

  lemma FinalBase(s: TE, now: nat, target: State) returns (s1: TE)
    requires Disciplined(s.tx) && InSetup(s.tx.state) && (target.Accepted? || target.Completed?)
    ensures s1 == Disarm(s.(tx := s.tx.(log := s.tx.log.(finalSince := now))), {A, B, C})
    ensures Ready(s1.tx, target) && TimersOf(s1.tx) <= {A, B, C}
    ensures s1.ep == s.ep && s1.tx == s.tx.(log := s1.tx.log, held := s1.tx.held, pending := s1.tx.pending)
  {
    var s0 := s.(tx := s.tx.(log := s.tx.log.(finalSince := now)));
    s1 := Disarm(s0, {A, B, C});
    DisarmReady(s0, {A, B, C}, target);
  }

  lemma EnterAcceptedReady(s: TE, now: nat)
    requires Disciplined(s.tx) && InSetup(s.tx.state)
    ensures Ready(EnterAccepted(s, now).s.tx, Accepted)
  {
    var s1 := FinalBase(s, now, Accepted);
    match s.tx.kind
    case ServerInvite =>
      ArmReady(s1, L, now, s.ep.opt.t1x64, Accepted);
      ArmReady(Arm(s1, L, now, s.ep.opt.t1x64), G, now, s.ep.opt.t1, Accepted);
    case ClientInvite =>
      ArmReady(s1, M, now, s.ep.opt.t1x64, Accepted);
    case _ =>
  }

  /** Timer G when the transport may lose the response, then Timer D. */
  lemma CompletedTimers(s1: TE, now: nat)
    requires Ready(s1.tx, Completed) && TimersOf(s1.tx) <= {A, B, C}
    ensures Ready(Arm(s1, D, now, s1.ep.opt.t1x64).tx, Completed)
    ensures Ready(Arm(s1, G, now, s1.ep.opt.t1).tx, Completed)
    ensures Ready(Arm(Arm(s1, G, now, s1.ep.opt.t1), D, now, s1.ep.opt.t1x64).tx, Completed)
  {
    ArmReady(s1, D, now, s1.ep.opt.t1x64, Completed);
    ArmReady(s1, G, now, s1.ep.opt.t1, Completed);
    ArmReady(Arm(s1, G, now, s1.ep.opt.t1), D, now, s1.ep.opt.t1x64, Completed);
  }

  lemma EnterCompletedReady(s: TE, now: nat)
    requires Disciplined(s.tx) && InSetup(s.tx.state)
    ensures Ready(EnterCompleted(s, now).s.tx, Completed)
  {
    var s1 := FinalBase(s, now, Completed);
    CompletedTimers(s1, now);
    var s' := EnterCompleted(s, now).s;
    assert s'.tx == s1.tx || s'.tx == Arm(s1, D, now, s1.ep.opt.t1x64).tx || s'.tx == Arm(s1, G, now, s1.ep.opt.t1).tx
           || s'.tx == Arm(Arm(s1, G, now, s1.ep.opt.t1), D, now, s1.ep.opt.t1x64).tx;
  }

  lemma EnterConfirmedReady(s: TE, now: nat)
    requires Disciplined(s.tx) && s.tx.state.Completed?
    ensures Ready(EnterConfirmed(s, now).tx, Confirmed)
  {
    var s1 := Disarm(s, ALL_SLOTS);
    DisarmReady(s, ALL_SLOTS, Confirmed);
    ArmReady(s1, K, now, s.ep.opt.t4, Confirmed);
  }

  lemma DoCleanupReady(s: TE, env: Env)
    requires Disciplined(s.tx) && !s.tx.cleanedUp
    ensures Ready(DoCleanup(s, env).tx, Terminated)
    ensures DoCleanup(s, env).tx.queue == s.tx.queue
  {
    DisarmReady(s.(tx := s.tx.(cleanedUp := true)), ALL_SLOTS, Terminated);
  }

  lemma EnterTerminatedReady(s: TE, env: Env)
    requires Disciplined(s.tx) && !s.tx.cleanedUp
    ensures Ready(EnterTerminated(s, env).tx, Terminated)
  {
    DoCleanupReady(s, env);
    FiredSlotsAppend(s.tx.queue, Terminate(s.tx.key));
  }

  /** Every transition the code makes keeps the discipline. */
  lemma TransitionDisciplined(s: TE, target: State, env: Env)
    requires Disciplined(s.tx) && CanTransition(s.tx.state, target) && !s.tx.cleanedUp
    requires target.Calling? ==> s.tx.state.Nothing? || s.tx.state.Calling?
    requires target.Confirmed? ==> s.tx.state.Completed?
    requires Transition(s, target, env).ok
    ensures Disciplined(Transition(s, target, env).s.tx)
  {
    if s.tx.state != target {
      var m := Enter(s, target, env);
      match target {
        case Nothing =>
        case Calling => EnterCallingReady(s, env.now);
        case Trying => EnterProvisionalReady(s, env.now, target);
        case Proceeding => EnterProvisionalReady(s, env.now, target);
        case Accepted => EnterAcceptedReady(s, env.now);
        case Completed => EnterCompletedReady(s, env.now);
        case Confirmed => EnterConfirmedReady(s, env.now);
        case Terminated => EnterTerminatedReady(s, env);
      }
      ReadyIsDisciplined(m.s.tx, target);
    }
  }
}
