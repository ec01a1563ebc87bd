/**
 Which wheel entries belong to a transaction, and which are cleanups.  Under
 `Owns`, ids disappear: a transaction's timers are a map from slot to shot.
 */
module TimerOwnership {
  import opened Prelude
  import opened TransactionKey
  import opened TimerWheel
  import opened EndpointSpec

  type TxWheel = Wheel<TxTimer>

  /** Entry `id` is a timer of transaction `key` (not its cleanup). */
  predicate TimerOf(w: TxWheel, id: nat, key: Key) {
    id in w.entries && w.entries[id].value.TxTimer? && w.entries[id].value.key == key
  }

  predicate SlotOf(w: TxWheel, id: nat, key: Key, slot: Slot) {
    TimerOf(w, id, key) && w.entries[id].value.slot == slot
  }

  /** Every wheel entry of transaction `key` is the one its `timer_x` field records ... */
  ghost predicate Recorded(timers: map<Slot, nat>, w: TxWheel, key: Key) {
    forall id {:trigger TimerOf(w, id, key)} :: TimerOf(w, id, key) ==>
      w.entries[id].value.slot in timers && timers[w.entries[id].value.slot] == id
  }

  /** Id `id` was handed out for this timer. */
  predicate IssuedTo(w: TxWheel, id: nat, key: Key, slot: Slot) {
    id in w.issued && w.issued[id].value.TxTimer? && w.issued[id].value.key == key && w.issued[id].value.slot == slot
  }

  /** ... and a field names an id that was handed out for it, pending or not. */
  ghost predicate Truthful(timers: map<Slot, nat>, w: TxWheel, key: Key) {
    forall slot :: slot in timers ==> IssuedTo(w, timers[slot], key, slot)
  }

  ghost predicate Owns(timers: map<Slot, nat>, w: TxWheel, key: Key) {
    w.Valid() && Recorded(timers, w, key) && Truthful(timers, w, key)
  }

  /** No timer of this key is in the wheel. */
  ghost predicate NoTimers(w: TxWheel, key: Key) {
    forall id :: !TimerOf(w, id, key)
  }

  lemma NoneOwned(w: TxWheel, key: Key)
    requires w.Valid()
    ensures NoTimers(w, key) <==> Owns(map[], w, key)
    ensures NoTimers(w, key) ==> Pending(map[], w, key) == map[]
  {
  }

  /** All timers in the wheel are those of these keys. */
  ghost predicate TimersBelong(w: TxWheel, keys: set<Key>) {
    forall id :: id in w.entries && w.entries[id].value.TxTimer? ==> w.entries[id].value.key in keys
  }

  /** The pending timers, by slot. */
  ghost function Pending(timers: map<Slot, nat>, w: TxWheel, key: Key): map<Slot, Shot>
    requires Owns(timers, w, key)
  {
    map slot | slot in timers && SlotOf(w, timers[slot], key, slot) ::
      Shot(w.entries[timers[slot]].due, w.entries[timers[slot]].value.span)
  }

  /** The entries of the other keys, pending and past. */
  datatype Kept = Kept(entries: map<nat, Entry<TxTimer>>, issued: map<nat, Entry<TxTimer>>)

  function Rest(w: TxWheel, key: Key): Kept {
    Kept(map id | id in w.entries && w.entries[id].value.key != key :: w.entries[id],
         map id | id in w.issued && w.issued[id].value.key != key :: w.issued[id])
  }

  /** What the timer operations of one transaction leave alone. */
  ghost predicate OthersKept(w: TxWheel, w': TxWheel, key: Key) {
    Rest(w, key) == Rest(w', key)
  }

  /** So another transaction owns what it owned. */
  lemma OthersOwn(timers: map<Slot, nat>, w: TxWheel, w': TxWheel, key: Key, other: Key)
    requires OthersKept(w, w', key) && w'.Valid() && Owns(timers, w, other) && other != key
    ensures Owns(timers, w', other) && Pending(timers, w', other) == Pending(timers, w, other)
  {
    forall id ensures TimerOf(w', id, other) <==> TimerOf(w, id, other)
      ensures TimerOf(w, id, other) ==> w'.entries[id] == w.entries[id]
    {
      assert TimerOf(w, id, other) ==> id in Rest(w, key).entries && Rest(w, key).entries[id] == w.entries[id];
      assert TimerOf(w', id, other) ==> id in Rest(w', key).entries && Rest(w', key).entries[id] == w'.entries[id];
    }
    forall x | x in timers ensures IssuedTo(w', timers[x], other, x) {
      assert IssuedTo(w, timers[x], other, x);
      assert timers[x] in Rest(w, key).issued && Rest(w, key).issued[timers[x]] == w.issued[timers[x]];
    }
  }

  lemma TimeoutKeepsOthers(w: TxWheel, due: nat, value: TxTimer)
    requires w.Valid()
    ensures OthersKept(w, w.Timeout(due, value), value.key)
  {
  }

  lemma CancelKeepsOthers(w: TxWheel, id: nat, key: Key)
    requires id in w.entries ==> w.entries[id].value.key == key
    ensures OthersKept(w, w.Cancel(id), key)
  {
  }

  lemma TimeoutOwns(timers: map<Slot, nat>, w: TxWheel, key: Key, slot: Slot, due: nat, span: nat)
    requires Owns(timers, w, key) && slot !in Pending(timers, w, key)
    ensures Owns(timers[slot := w.nextId], w.Timeout(due, TxTimer(slot, key, span)), key)
  {
    var timers', w' := timers[slot := w.nextId], w.Timeout(due, TxTimer(slot, key, span));
    assert w'.entries[w.nextId].value == TxTimer(slot, key, span);
    forall id | TimerOf(w', id, key)
      ensures w'.entries[id].value.slot in timers' && timers'[w'.entries[id].value.slot] == id
    {
      assert id == w.nextId || TimerOf(w, id, key);
    }
    forall x | x in timers' ensures IssuedTo(w', timers'[x], key, x) {
      if x != slot {
        assert timers[x] == timers'[x];
        assert IssuedTo(w, timers[x], key, x);
      }
    }
  }

  lemma OwnsTruthful(timers: map<Slot, nat>, w: TxWheel, key: Key, x: Slot)
    requires Owns(timers, w, key) && x in timers
    ensures IssuedTo(w, timers[x], key, x) && timers[x] < w.nextId
    ensures SlotOf(w, timers[x], key, x) <==> timers[x] in w.entries
  {
    assert IssuedTo(w, timers[x], key, x);
  }

  lemma TimeoutPending(timers: map<Slot, nat>, w: TxWheel, key: Key, slot: Slot, due: nat, span: nat)
    requires Owns(timers, w, key)
    requires Owns(timers[slot := w.nextId], w.Timeout(due, TxTimer(slot, key, span)), key)
    ensures Pending(timers[slot := w.nextId], w.Timeout(due, TxTimer(slot, key, span)), key)
            == Pending(timers, w, key)[slot := Shot(due, span)]
  {
    hide Recorded, Owns, SlotOf;
    var timers', w' := timers[slot := w.nextId], w.Timeout(due, TxTimer(slot, key, span));
    NewSlot(w, key, slot, due, span);
    forall x | x in timers && x != slot
      ensures timers'[x] == timers[x] && (SlotOf(w', timers[x], key, x) <==> SlotOf(w, timers[x], key, x))
      ensures SlotOf(w, timers[x], key, x) ==> timers[x] in w.entries && w'.entries[timers[x]] == w.entries[timers[x]]
    {
      OwnsTruthful(timers, w, key, x);
      SlotKept(w, timers[x], key, x, due, TxTimer(slot, key, span));
    }
  }

  lemma NewSlot(w: TxWheel, key: Key, slot: Slot, due: nat, span: nat)
    ensures var w' := w.Timeout(due, TxTimer(slot, key, span));
            SlotOf(w', w.nextId, key, slot) && w'.entries[w.nextId] == Entry(due, TxTimer(slot, key, span))
  {
  }

  lemma SlotKept(w: TxWheel, id: nat, key: Key, x: Slot, due: nat, value: TxTimer)
    requires id < w.nextId
    ensures SlotOf(w.Timeout(due, value), id, key, x) <==> SlotOf(w, id, key, x)
    ensures SlotOf(w, id, key, x) ==> id in w.entries && w.Timeout(due, value).entries[id] == w.entries[id]
  {
  }

  /** `take` the id out of its field and `cancel` it. */
  lemma CancelOwns(timers: map<Slot, nat>, w: TxWheel, key: Key, slot: Slot)
    requires Owns(timers, w, key) && slot in timers
    ensures var timers', w' := timers - {slot}, w.Cancel(timers[slot]);
            && (timers[slot] in w.entries ==> SlotOf(w, timers[slot], key, slot))
            && Owns(timers', w', key)
            && Pending(timers', w', key) == Pending(timers, w, key) - {slot}
  {
    var timers', w' := timers - {slot}, w.Cancel(timers[slot]);
    OwnsTruthful(timers, w, key, slot);
    assert forall id :: id in w'.entries ==> TimerOf(w', id, key) == TimerOf(w, id, key);
    assert Recorded(timers', w', key) by {
      forall id | TimerOf(w', id, key)
        ensures w'.entries[id].value.slot in timers' && timers'[w'.entries[id].value.slot] == id
      {
        assert TimerOf(w, id, key);
      }
    }
    forall x | x in timers'
      ensures x != slot && timers'[x] == timers[x] && IssuedTo(w', timers[x], key, x)
      ensures SlotOf(w', timers[x], key, x) <==> SlotOf(w, timers[x], key, x)
    {
      OwnsTruthful(timers, w, key, x);
    }
  }

  /** A cleanup of the key is none of its timers. */
  lemma CleanupOwns(timers: map<Slot, nat>, w: TxWheel, key: Key, due: nat)
    requires Owns(timers, w, key)
    ensures Owns(timers, w.Timeout(due, Cleanup(key)), key)
    ensures Pending(timers, w.Timeout(due, Cleanup(key)), key) == Pending(timers, w, key)
  {
    var w' := w.Timeout(due, Cleanup(key));
    assert forall id :: TimerOf(w', id, key) <==> TimerOf(w, id, key);
    assert forall id :: TimerOf(w, id, key) ==> w'.entries[id] == w.entries[id];
    forall x | x in timers ensures IssuedTo(w', timers[x], key, x) { OwnsTruthful(timers, w, key, x); }
  }

  /** The wheel releases an entry: its field keeps the id, which names nothing any more. */
  lemma FireOwns(timers: map<Slot, nat>, w: TxWheel, key: Key, id: nat)
    requires Owns(timers, w, key) && TimerOf(w, id, key)
    ensures var slot := w.entries[id].value.slot;
            && slot in Pending(timers, w, key)
            && Pending(timers, w, key)[slot] == Shot(w.entries[id].due, w.entries[id].value.span)
            && Owns(timers, w.Cancel(id), key)
            && Pending(timers, w.Cancel(id), key) == Pending(timers, w, key) - {slot}
  {
    var slot, w' := w.entries[id].value.slot, w.Cancel(id);
    assert timers[slot] == id;
    assert forall j :: j in w'.entries ==> TimerOf(w', j, key) == TimerOf(w, j, key);
    forall x | x in timers
      ensures IssuedTo(w', timers[x], key, x)
      ensures x != slot ==> (SlotOf(w', timers[x], key, x) <==> SlotOf(w, timers[x], key, x))
    {
      OwnsTruthful(timers, w, key, x);
    }
  }

  // ---- Cleanup entries --------------------------------------------------------------

  predicate CleanupAt(w: TxWheel, id: nat, key: Key) {
    id in w.entries && w.entries[id].value == Cleanup(key)
  }

  /** A key has at most one pending cleanup. */
  ghost predicate OneCleanup(w: TxWheel) {
    forall i, j, key :: CleanupAt(w, i, key) && CleanupAt(w, j, key) ==> i == j
  }

  ghost function CleanupKeys(w: TxWheel): set<Key> {
    set id | id in w.entries && w.entries[id].value.Cleanup? :: w.entries[id].value.key
  }

  ghost function CleanupId(w: TxWheel, key: Key): (id: nat)
    requires key in CleanupKeys(w)
    ensures CleanupAt(w, id, key)
  {
    var id :| id in w.entries && w.entries[id].value.Cleanup? && w.entries[id].value.key == key;
    id
  }

  /** The deadlines of the pending cleanups. */
  ghost function Cleanups(w: TxWheel): map<Key, nat> {
    map key | key in CleanupKeys(w) :: w.entries[CleanupId(w, key)].due
  }

  lemma CleanupIn(w: TxWheel, id: nat, key: Key)
    requires CleanupAt(w, id, key) && OneCleanup(w)
    ensures key in Cleanups(w) && Cleanups(w)[key] == w.entries[id].due
  {
    assert key in CleanupKeys(w);
  }

  /** Wheels with the same cleanup entries. */
  lemma SameCleanups(w: TxWheel, w': TxWheel)
    requires OneCleanup(w) && forall id, key :: CleanupAt(w, id, key) <==> CleanupAt(w', id, key)
    requires forall id, key :: CleanupAt(w, id, key) ==> id in w'.entries && w.entries[id].due == w'.entries[id].due
    ensures OneCleanup(w') && Cleanups(w') == Cleanups(w)
  {
    forall key | key in CleanupKeys(w) ensures key in CleanupKeys(w') { assert CleanupAt(w', CleanupId(w, key), key); }
    forall key | key in CleanupKeys(w') ensures key in CleanupKeys(w) { assert CleanupAt(w, CleanupId(w', key), key); }
  }

  lemma TimeoutTxCleanups(w: TxWheel, due: nat, value: TxTimer)
    requires OneCleanup(w) && w.Valid() && value.TxTimer?
    ensures OneCleanup(w.Timeout(due, value)) && Cleanups(w.Timeout(due, value)) == Cleanups(w)
  {
    SameCleanups(w, w.Timeout(due, value));
  }

  lemma CancelTxCleanups(w: TxWheel, id: nat)
    requires OneCleanup(w) && (id in w.entries ==> w.entries[id].value.TxTimer?)
    ensures OneCleanup(w.Cancel(id)) && Cleanups(w.Cancel(id)) == Cleanups(w)
  {
    SameCleanups(w, w.Cancel(id));
  }

  lemma TimeoutCleanup(w: TxWheel, due: nat, key: Key)
    requires OneCleanup(w) && w.Valid() && key !in Cleanups(w)
    ensures OneCleanup(w.Timeout(due, Cleanup(key))) && Cleanups(w.Timeout(due, Cleanup(key))) == Cleanups(w)[key := due]
  {
    var w' := w.Timeout(due, Cleanup(key));
    forall i, k | CleanupAt(w', i, k) && i != w.nextId ensures CleanupAt(w, i, k) && k != key {
      if k == key { CleanupIn(w, i, k); }
    }
    assert OneCleanup(w');
    assert CleanupAt(w', w.nextId, key);
    CleanupIn(w', w.nextId, key);
    forall k | k in CleanupKeys(w) ensures k in Cleanups(w') && Cleanups(w')[k] == Cleanups(w)[k] {
      assert CleanupAt(w', CleanupId(w, k), k);
      CleanupIn(w', CleanupId(w, k), k);
    }
    forall k | k in CleanupKeys(w') ensures k == key || k in CleanupKeys(w) {
      assert CleanupAt(w', CleanupId(w', k), k);
    }
  }

  lemma FireCleanupEntry(w: TxWheel, id: nat, key: Key)
    requires OneCleanup(w) && CleanupAt(w, id, key)
    ensures OneCleanup(w.Cancel(id)) && Cleanups(w.Cancel(id)) == Cleanups(w) - {key}
    ensures key in Cleanups(w) && Cleanups(w)[key] == w.entries[id].due
  {
    var w' := w.Cancel(id);
    CleanupIn(w, id, key);
    forall i, k | CleanupAt(w', i, k) ensures CleanupAt(w, i, k) && k != key {
      assert CleanupAt(w, i, k) && i != id;
    }
    assert OneCleanup(w');
    forall k | k in CleanupKeys(w) && k != key ensures k in Cleanups(w') && Cleanups(w')[k] == Cleanups(w)[k] {
      assert CleanupAt(w', CleanupId(w, k), k);
      CleanupIn(w', CleanupId(w, k), k);
    }
    forall k | k in CleanupKeys(w') ensures k in CleanupKeys(w) && k != key {
      assert CleanupAt(w', CleanupId(w', k), k);
      assert CleanupAt(w, CleanupId(w', k), k);
    }
  }

  // ---- Both together --------------------------------------------------------------------

  /** Arming a free slot. */
  lemma TimeoutEffects(timers: map<Slot, nat>, w: TxWheel, key: Key, slot: Slot, due: nat, span: nat)
    requires Owns(timers, w, key) && slot !in Pending(timers, w, key) && OneCleanup(w)
    ensures var timers', w' := timers[slot := w.nextId], w.Timeout(due, TxTimer(slot, key, span));
            && Owns(timers', w', key) && Pending(timers', w', key) == Pending(timers, w, key)[slot := Shot(due, span)]
            && OneCleanup(w') && Cleanups(w') == Cleanups(w) && Rest(w', key) == Rest(w, key)
  {
    TimeoutOwns(timers, w, key, slot, due, span);
    hide Recorded, Truthful, Pending, Cleanups, OneCleanup;
    TimeoutPending(timers, w, key, slot, due, span);
    TimeoutTxCleanups(w, due, TxTimer(slot, key, span));
    TimeoutKeepsOthers(w, due, TxTimer(slot, key, span));
  }

  /** Taking a slot's id out and cancelling it. */
  lemma CancelEffects(timers: map<Slot, nat>, w: TxWheel, key: Key, slot: Slot)
    requires Owns(timers, w, key) && slot in timers && OneCleanup(w)
    ensures var timers', w' := timers - {slot}, w.Cancel(timers[slot]);
            && Owns(timers', w', key) && Pending(timers', w', key) == Pending(timers, w, key) - {slot}
            && OneCleanup(w') && Cleanups(w') == Cleanups(w) && Rest(w', key) == Rest(w, key)
  {
    hide Recorded, Truthful, Pending, Cleanups, OneCleanup;
    CancelOwns(timers, w, key, slot);
    CancelTxCleanups(w, timers[slot]);
    CancelKeepsOthers(w, timers[slot], key);
  }
}
