/** What `process_timer` does with the timers a poll releases. */
module ReadyTimers {
  import opened Prelude
  import opened TransactionKey
  import opened TimerWheel
  import opened EndpointSpec
  import opened TimerOwnership

  /** The released timers, in deadline order. */
  ghost function Ready(w: TxWheel, now: nat): seq<TxTimer>
    decreases |w.entries|
  {
    if HeadDue(w, now) then
      assert |w.Cancel(Head(w).value).entries| < |w.entries| by { CancelShrinks(w, Head(w).value); }
      [w.entries[Head(w).value].value] + Ready(w.Cancel(Head(w).value), now)
    else []
  }

  /** They are what `Poll` returns. */
  lemma {:induction false} ReadyIsPolled(w: TxWheel, now: nat)
    ensures |Ready(w, now)| == |DueIds(w, now)|
    ensures forall i :: 0 <= i < |Ready(w, now)| ==>
              DueIds(w, now)[i] in w.entries && Ready(w, now)[i] == w.entries[DueIds(w, now)[i]].value
    decreases |w.entries|
  {
    if HeadDue(w, now) {
      var w' := w.Cancel(Head(w).value);
      CancelShrinks(w, Head(w).value);
      ReadyIsPolled(w', now);
    }
  }

  /** The tables after the released cleanups. */
  ghost function AfterTimers(ep: Ep, ready: seq<TxTimer>): Ep
    decreases |ready|
  {
    if ready == [] then ep
    else AfterTimers(if ready[0].Cleanup? then RunCleanup(ep, ready[0].key) else ep, ready[1..])
  }

  /** The events a transaction is sent. */
  function FiredFor(ready: seq<TxTimer>, key: Key): seq<TxEvent> {
    if ready == [] then []
    else (if ready[0].TxTimer? && ready[0].key == key then [Fired(ready[0])] else []) + FiredFor(ready[1..], key)
  }

  lemma {:induction false} AfterTimersAppend(ep: Ep, ready: seq<TxTimer>, t: TxTimer)
    ensures AfterTimers(ep, ready + [t]) == if t.Cleanup? then RunCleanup(AfterTimers(ep, ready), t.key) else AfterTimers(ep, ready)
    decreases |ready|
  {
    hide RunCleanup;
    if ready == [] {
      assert ready + [t] == [t] && [t][1..] == [];
    } else {
      assert (ready + [t])[1..] == ready[1..] + [t];
      AfterTimersAppend(if ready[0].Cleanup? then RunCleanup(ep, ready[0].key) else ep, ready[1..], t);
    }
  }

  lemma {:induction false} FiredForAppend(ready: seq<TxTimer>, t: TxTimer, key: Key)
    ensures FiredFor(ready + [t], key) == FiredFor(ready, key) + if t.TxTimer? && t.key == key then [Fired(t)] else []
  {
    if ready == [] {
      assert ready + [t] == [t] && [t][1..] == [];
    } else {
      assert (ready + [t])[1..] == ready[1..] + [t];
      FiredForAppend(ready[1..], t, key);
    }
  }

  /** The head is due before everything else in the wheel. */
  lemma HeadIsEarliest(w: TxWheel)
    requires Head(w).Some?
    ensures forall id :: id in w.entries ==> w.entries[Head(w).value].due <= w.entries[id].due
  {
    forall id | id in w.entries ensures w.entries[Head(w).value].due <= w.entries[id].due {
      assert id == Head(w).value || Before(w.KeyOf(Head(w).value), w.KeyOf(id));
    }
  }

  lemma AfterPollStep(w: TxWheel, now: nat)
    requires HeadDue(w, now)
    ensures AfterPoll(w.Cancel(Head(w).value), now) == AfterPoll(w, now)
  {
    assert AfterPoll(w.Cancel(Head(w).value), now).entries == AfterPoll(w, now).entries;
  }

  lemma AfterPollDone(w: TxWheel, now: nat)
    requires !HeadDue(w, now)
    ensures AfterPoll(w, now) == w
  {
    if Head(w).Some? { HeadIsEarliest(w); }
    assert AfterPoll(w, now).entries == w.entries;
  }

  /** The cleanups left in the wheel are those the released ones did not run. */
  lemma {:induction false} PolledCleanups(w: TxWheel, now: nat, ep: Ep)
    requires OneCleanup(w) && ep.cleanups == Cleanups(w)
    ensures OneCleanup(AfterPoll(w, now)) && AfterTimers(ep, Ready(w, now)).cleanups == Cleanups(AfterPoll(w, now))
    decreases |w.entries|
  {
    hide Cleanups, OneCleanup, AfterPoll;
    if HeadDue(w, now) {
      var h := Head(w).value;
      var t := w.entries[h].value;
      CancelShrinks(w, h);
      AfterPollStep(w, now);
      var ep' := if t.Cleanup? then RunCleanup(ep, t.key) else ep;
      if t.Cleanup? { FireCleanupEntry(w, h, t.key); } else { CancelTxCleanups(w, h); }
      PolledCleanups(w.Cancel(h), now, ep');
      assert Ready(w, now)[1..] == Ready(w.Cancel(h), now);
    } else {
      AfterPollDone(w, now);
    }
  }

  /** A released cleanup was pending. */
  lemma ReleasedWasPending(w: TxWheel, now: nat, i: nat)
    requires OneCleanup(w) && i < |Ready(w, now)| && Ready(w, now)[i].Cleanup?
    ensures Ready(w, now)[i].key in Cleanups(w)
  {
    ReadyIsPolled(w, now);
    CleanupIn(w, DueIds(w, now)[i], Ready(w, now)[i].key);
  }
}
