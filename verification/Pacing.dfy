/**
 How often a timer that re-arms itself with a doubled span can fire before the
 timer that stops it, whatever the delays of polling and handling.
 */
module Pacing {
  import opened Prelude
  import opened SipMessages
  import opened TransactionKey
  import opened EndpointSpec
  import opened TransactionSpec
  import opened TimerDiscipline

  /** The span of the n-th arming: doubling from `t1`, at most `cap`. */
  function Span(n: nat, t1: nat, cap: nat): nat {
    if n == 0 then t1 else Min(2 * Span(n - 1, t1, cap), cap)
  }

  /** The earliest time, from the first arming, at which the n-th instance is due. */
  function Earliest(n: nat, t1: nat, cap: nat): nat {
    if n == 0 then t1 else Earliest(n - 1, t1, cap) + Span(n, t1, cap)
  }

  lemma {:induction false} EarliestGrows(m: nat, n: nat, t1: nat, cap: nat)
    requires m <= n
    ensures Earliest(m, t1, cap) <= Earliest(n, t1, cap)
  {
    if m < n { EarliestGrows(m, n - 1, t1, cap); }
  }

  // ---- The numbers ------------------------------------------------------------

  lemma SeventhA(t1: nat)
    ensures Earliest(6, t1, 64 * t1) == 127 * t1
  {
    var cap := 64 * t1;
    assert Span(1, t1, cap) == 2 * t1 && Span(2, t1, cap) == 4 * t1 && Span(3, t1, cap) == 8 * t1;
    assert Earliest(1, t1, cap) == 3 * t1 && Earliest(2, t1, cap) == 7 * t1 && Earliest(3, t1, cap) == 15 * t1;
    assert Span(4, t1, cap) == 16 * t1 && Span(5, t1, cap) == 32 * t1 && Span(6, t1, cap) == 64 * t1;
    assert Earliest(4, t1, cap) == 31 * t1 && Earliest(5, t1, cap) == 63 * t1;
  }

  /** With t1x64 = 64*T1, seven requests: the first and six retransmissions. */
  lemma AtMostSixA(n: nat, t1: nat)
    requires t1 > 0 && n > 0 && Earliest(n - 1, t1, 64 * t1) <= 64 * t1
    ensures n <= 6
  {
    SeventhA(t1);
    if n > 6 { EarliestGrows(6, n - 1, t1, 64 * t1); }
  }

  lemma {:induction false} EarliestG(n: nat, t1: nat)
    requires n >= 3
    ensures Span(n, t1, 8 * t1) == 8 * t1
    ensures Earliest(n, t1, 8 * t1) == 15 * t1 + (n - 3) * (8 * t1)
  {
    if n == 3 {
      assert Span(1, t1, 8 * t1) == 2 * t1;
      assert Span(2, t1, 8 * t1) == 4 * t1;
      assert Earliest(1, t1, 8 * t1) == 3 * t1 && Earliest(2, t1, 8 * t1) == 7 * t1;
    } else {
      EarliestG(n - 1, t1);
    }
  }

  /** With T2 = 8*T1, ten retransmissions of a final response. */
  lemma AtMostTenG(n: nat, t1: nat)
    requires t1 > 0 && n > 0 && Earliest(n - 1, t1, 8 * t1) <= 64 * t1
    ensures n <= 10
  {
    EarliestG(10, t1);
    if n > 10 { EarliestGrows(10, n - 1, t1, 8 * t1); }
  }

  // ---- A self-rearming timer and the timer that stops it ----------------------

  type Shots = map<Slot, Shot>

  predicate IsTimer(e: TxEvent, slot: Slot) {
    e.Fired? && e.timer.TxTimer? && e.timer.slot == slot
  }

  predicate Running(pending: Shots, q: seq<TxEvent>, slot: Slot) {
    slot in pending || slot in Flying(q)
  }

  /** `x` comes before `y` among the queued timer events. */
  ghost predicate Precedes(fs: seq<Slot>, x: Slot, y: Slot) {
    exists i, j :: 0 <= i < j < |fs| && fs[i] == x && fs[j] == y
  }

  /** The configured times: T1, the cap on the doubled span, the stop timer's delay. */
  datatype Pace = Pace(t1: nat, cap: nat, limit: nat)

  /** Timer `r` has been handled `n` times since `since`; `stop` was armed at `since`. */
  ghost predicate Series(pending: Shots, q: seq<TxEvent>, r: Slot, stop: Slot, n: nat, since: nat, p: Pace, now: nat) {
    && (r in pending ==> pending[r].span == Span(n, p.t1, p.cap) && since + Earliest(n, p.t1, p.cap) <= pending[r].due)
    && (stop in pending ==> pending[stop].due == since + p.limit)
    && (Running(pending, q, stop) && n > 0 ==> Earliest(n - 1, p.t1, p.cap) <= p.limit)
    && (r in Flying(q) ==>
          && since + Earliest(n, p.t1, p.cap) <= now
          && (Running(pending, q, stop) ==> Earliest(n, p.t1, p.cap) <= p.limit || Precedes(FiredSlots(q), stop, r)))
    && SpansAre(q, r, Span(n, p.t1, p.cap))
  }

  /** Every queued event of timer `slot` carries this span. */
  ghost predicate SpansAre(q: seq<TxEvent>, slot: Slot, span: nat) {
    forall i :: 0 <= i < |q| && IsTimer(q[i], slot) ==> q[i].timer.span == span
  }

  lemma NoSpans(q: seq<TxEvent>, slot: Slot, span: nat)
    requires slot !in Flying(q)
    ensures SpansAre(q, slot, span)
  {
    forall i | 0 <= i < |q| && IsTimer(q[i], slot) ensures false { TimerFires(q, i); }
  }

  /** What is known when the head of the queue is `r`'s event. */
  ghost predicate Handling(pending: Shots, q: seq<TxEvent>, stop: Slot, n: nat, since: nat, p: Pace, now: nat) {
    && since + Earliest(n, p.t1, p.cap) <= now
    && (stop in pending ==> pending[stop].due == since + p.limit)
    && (Running(pending, q, stop) ==> Earliest(n, p.t1, p.cap) <= p.limit)
  }

  lemma {:induction false} FiredAt(q: seq<TxEvent>, slot: Slot)
    requires slot in FiredSlots(q)
    ensures exists i :: 0 <= i < |q| && IsTimer(q[i], slot)
  {
    FiredSlotsPop(q);
    if IsTimer(q[0], slot) {
    } else {
      FiredAt(q[1..], slot);
      var i :| 0 <= i < |q[1..]| && IsTimer(q[1..][i], slot);
      assert IsTimer(q[i + 1], slot);
    }
  }

  lemma {:induction false} TimerFires(q: seq<TxEvent>, i: nat)
    requires i < |q| && q[i].Fired? && q[i].timer.TxTimer?
    ensures q[i].timer.slot in FiredSlots(q)
  {
    FiredSlotsPop(q);
    if i > 0 { TimerFires(q[1..], i - 1); }
  }

  lemma PrecedesPop(fs: seq<Slot>, x: Slot, y: Slot)
    requires fs != [] && Precedes(fs, x, y) && fs[0] != x
    ensures Precedes(fs[1..], x, y)
  {
    var i, j :| 0 <= i < j < |fs| && fs[i] == x && fs[j] == y;
    assert fs[1..][i - 1] == x && fs[1..][j - 1] == y;
  }

  lemma PrecedesAppend(fs: seq<Slot>, e: Slot, x: Slot, y: Slot)
    ensures Precedes(fs, x, y) ==> Precedes(fs + [e], x, y)
    ensures x in fs && e == y ==> Precedes(fs + [e], x, y)
  {
    if Precedes(fs, x, y) {
      var i, j :| 0 <= i < j < |fs| && fs[i] == x && fs[j] == y;
      assert (fs + [e])[i] == x && (fs + [e])[j] == y;
    }
    if x in fs && e == y {
      var i :| 0 <= i < |fs| && fs[i] == x;
      assert (fs + [e])[i] == x && (fs + [e])[|fs|] == y;
    }
  }

  lemma FlyingPop(q: seq<TxEvent>)
    requires q != [] && Distinct(FiredSlots(q))
    ensures q[0].Fired? && q[0].timer.TxTimer? ==>
              && FiredSlots(q) == [q[0].timer.slot] + FiredSlots(q[1..])
              && Flying(q[1..]) == Flying(q) - {q[0].timer.slot} && q[0].timer.slot in Flying(q)
    ensures !(q[0].Fired? && q[0].timer.TxTimer?) ==>
              FiredSlots(q[1..]) == FiredSlots(q) && Flying(q[1..]) == Flying(q)
    ensures Distinct(FiredSlots(q[1..])) && Flying(q[1..]) <= Flying(q)
  {
    FiredSlotsPop(q);
    if q[0].Fired? && q[0].timer.TxTimer? {
      var rest := FiredSlots(q[1..]);
      assert FiredSlots(q) == [q[0].timer.slot] + rest;
      assert forall k :: 0 <= k < |rest| ==> FiredSlots(q)[k + 1] == rest[k];
      assert FiredSlots(q)[0] == q[0].timer.slot;
    }
  }

  lemma PrecedesOnPop(pending: Shots, q: seq<TxEvent>, r: Slot, stop: Slot)
    requires q != [] && Distinct(FiredSlots(q)) && pending.Keys * Flying(q) == {}
    ensures Running(pending, q[1..], stop) ==> Running(pending, q, stop)
    ensures r in Flying(q[1..]) ==> r in Flying(q)
    ensures Running(pending, q[1..], stop) && Precedes(FiredSlots(q), stop, r) ==> Precedes(FiredSlots(q[1..]), stop, r)
  {
    FlyingPop(q);
    assert stop !in pending.Keys * Flying(q);
    hide FiredSlots, Flying, Distinct;
    if q[0].Fired? && q[0].timer.TxTimer? && Running(pending, q[1..], stop) && Precedes(FiredSlots(q), stop, r) {
      assert FiredSlots(q)[1..] == FiredSlots(q[1..]);
      PrecedesPop(FiredSlots(q), stop, r);
    }
  }

  lemma SpansPop(q: seq<TxEvent>, slot: Slot, span: nat)
    requires q != [] && SpansAre(q, slot, span)
    ensures SpansAre(q[1..], slot, span)
  {
  }

  lemma PopOther(pending: Shots, q: seq<TxEvent>, r: Slot, stop: Slot, n: nat, since: nat, p: Pace, now: nat)
    requires q != [] && Series(pending, q, r, stop, n, since, p, now)
    requires Distinct(FiredSlots(q)) && pending.Keys * Flying(q) == {}
    ensures Series(pending, q[1..], r, stop, n, since, p, now)
  {
    hide FiredSlots, Flying, Span, Earliest, Precedes, Distinct, SpansAre, Running;
    PrecedesOnPop(pending, q, r, stop);
    SpansPop(q, r, Span(n, p.t1, p.cap));
  }

  lemma PopSelf(pending: Shots, q: seq<TxEvent>, r: Slot, stop: Slot, n: nat, since: nat, p: Pace, now: nat)
    requires q != [] && Series(pending, q, r, stop, n, since, p, now) && IsTimer(q[0], r) && r != stop
    requires Distinct(FiredSlots(q))
    ensures Handling(pending, q[1..], stop, n, since, p, now)
    ensures q[0].timer.span == Span(n, p.t1, p.cap)
    ensures r !in Flying(q[1..])
  {
    FlyingPop(q);
    hide FiredSlots, Flying, Span, Earliest;
    assert !Precedes(FiredSlots(q), stop, r);
  }

  /** Re-arming with the doubled span continues the series. */
  lemma Rearm(pending: Shots, q: seq<TxEvent>, r: Slot, stop: Slot, n: nat, since: nat, p: Pace, now: nat, span: nat)
    requires Handling(pending, q, stop, n, since, p, now) && span == Span(n, p.t1, p.cap) && r != stop
    requires r !in Flying(q)
    ensures var next := Min(span * 2, p.cap);
            Series(pending[r := Shot(now + next, next)], q, r, stop, n + 1, since, p, now)
  {
    NoSpans(q, r, Span(n + 1, p.t1, p.cap));
    hide SpansAre, Flying, FiredSlots;
  }

  /** So does not re-arming at all. */
  lemma NoRearm(pending: Shots, q: seq<TxEvent>, r: Slot, stop: Slot, n: nat, since: nat, p: Pace, now: nat)
    requires Handling(pending, q, stop, n, since, p, now)
    requires r !in Flying(q) && r !in pending
    ensures Series(pending, q, r, stop, n + 1, since, p, now)
    ensures Series(pending, q, r, stop, n, since, p, now)
  {
    EarliestGrows(if n == 0 then 0 else n - 1, n, p.t1, p.cap);
    NoSpans(q, r, Span(n + 1, p.t1, p.cap));
    NoSpans(q, r, Span(n, p.t1, p.cap));
    hide SpansAre, Flying, FiredSlots, Span, Earliest;
  }

  /** Cancelling timers and arming others keep a series ... */
  lemma KeepSeries(pending: Shots, pending': Shots, q: seq<TxEvent>,
                   r: Slot, stop: Slot, n: nat, since: nat, p: Pace, now: nat)
    requires Series(pending, q, r, stop, n, since, p, now)
    requires r in pending' ==> r in pending && pending'[r] == pending[r]
    requires stop in pending' ==> stop in pending && pending'[stop] == pending[stop]
    ensures Series(pending', q, r, stop, n, since, p, now)
  {
    hide SpansAre, Flying, FiredSlots, Span, Earliest;
  }

  /** ... and so does queueing an event that is not a timer's. */
  lemma AppendSeries(pending: Shots, q: seq<TxEvent>, e: TxEvent,
                     r: Slot, stop: Slot, n: nat, since: nat, p: Pace, now: nat)
    requires Series(pending, q, r, stop, n, since, p, now) && !e.Fired?
    ensures Series(pending, q + [e], r, stop, n, since, p, now)
  {
    FiredSlotsAppend(q, e);
    assert FiredSlots(q + [e]) == FiredSlots(q) by { assert [e][1..] == []; }
    hide FiredSlots, Span, Earliest, Precedes;
  }

  lemma StartSeries(pending: Shots, q: seq<TxEvent>, r: Slot, stop: Slot, since: nat, p: Pace)
    requires r !in Flying(q) && stop !in Flying(q) && r != stop
    requires r in pending ==> pending[r] == Shot(since + p.t1, p.t1)
    requires stop in pending ==> pending[stop].due == since + p.limit
    ensures Series(pending, q, r, stop, 0, since, p, since)
  {
    NoSpans(q, r, Span(0, p.t1, p.cap));
    hide SpansAre, Flying, FiredSlots;
  }

  lemma SeriesLater(pending: Shots, q: seq<TxEvent>, r: Slot, stop: Slot, n: nat, since: nat, p: Pace, now: nat, later: nat)
    requires Series(pending, q, r, stop, n, since, p, now) && now <= later
    ensures Series(pending, q, r, stop, n, since, p, later)
  {
    hide SpansAre, Flying, FiredSlots, Span, Earliest;
  }

  /** A due timer moves from the wheel to the end of the queue; `slot` is the earliest due. */
  lemma FireSeries(pending: Shots, q: seq<TxEvent>, slot: Slot, key: Key,
                   r: Slot, stop: Slot, n: nat, since: nat, p: Pace, now: nat)
    requires Series(pending, q, r, stop, n, since, p, now) && r != stop
    requires slot in pending && pending[slot].due <= now
    requires forall x :: x in pending ==> pending[slot].due <= pending[x].due
    requires Distinct(FiredSlots(q)) && pending.Keys * Flying(q) == {}
    ensures Series(pending - {slot}, q + [Fired(TxTimer(slot, key, pending[slot].span))], r, stop, n, since, p, now)
  {
    hide SpansAre, Flying, FiredSlots, Span, Earliest, Precedes;
    var e := Fired(TxTimer(slot, key, pending[slot].span));
    FiringFacts(q, slot, e);
    PrecedesAppend(FiredSlots(q), slot, stop, r);
    FiredSpans(pending, q, slot, e, r, Span(n, p.t1, p.cap));
    assert slot !in pending.Keys * Flying(q);
  }

  lemma FiringFacts(q: seq<TxEvent>, slot: Slot, e: TxEvent)
    requires IsTimer(e, slot)
    ensures FiredSlots(q + [e]) == FiredSlots(q) + [slot]
    ensures Flying(q + [e]) == Flying(q) + {slot}
    ensures forall x :: x in Flying(q) <==> x in FiredSlots(q)
  {
    FiredSlotsAppend(q, e);
    assert FiredSlots([e]) == [slot] by { assert [e][1..] == []; }
  }

  lemma FiredSpans(pending: Shots, q: seq<TxEvent>, slot: Slot, e: TxEvent, r: Slot, span: nat)
    requires IsTimer(e, slot) && slot in pending && e.timer.span == pending[slot].span
    requires SpansAre(q, r, span) && (r in pending ==> pending[r].span == span)
    ensures SpansAre(q + [e], r, span)
  {
  }
}
