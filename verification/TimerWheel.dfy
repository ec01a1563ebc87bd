/**
 The timer wheel (src/transaction/timer.rs).

 `Wheel` is the specification: a finite set of (deadline, id, value) entries, the
 next id, and every entry there ever was.  `Timer` is the source's pair of maps, kept in step.
 */
module TimerWheel {
  import opened Prelude

  datatype TimerKey = TimerKey(taskId: nat, executeAt: nat)

  /** The order of `TimerKey`: by deadline, then by id. */
  predicate Before(a: TimerKey, b: TimerKey) {
    a.executeAt < b.executeAt || (a.executeAt == b.executeAt && a.taskId < b.taskId)
  }

  // ---- Specification ---------------------------------------------------

  datatype Entry<+T> = Entry(due: nat, value: T)

  datatype Wheel<+T> = Wheel(entries: map<nat, Entry<T>>, nextId: nat, issued: map<nat, Entry<T>>) {
    /** Ids are handed out once. */
    ghost predicate Valid() {
      && (forall id :: id in entries ==> id in issued && issued[id] == entries[id])
      && (forall id :: id in issued ==> id < nextId)
    }

    function KeyOf(id: nat): TimerKey
      requires id in entries
    {
      TimerKey(id, entries[id].due)
    }

    function Timeout(due: nat, value: T): Wheel<T> {
      Wheel(entries[nextId := Entry(due, value)], nextId + 1, issued[nextId := Entry(due, value)])
    }

    function Cancel(id: nat): Wheel<T> {
      this.(entries := entries - {id})
    }

    ghost predicate IsHead(id: nat) {
      id in entries && forall j :: j in entries && j != id ==> Before(KeyOf(id), KeyOf(j))
    }
  }

  /** A nonempty wheel has a first entry ... */
  lemma {:induction false} HeadExists<T>(w: Wheel<T>, ids: set<nat>) returns (id: nat)
    requires ids <= w.entries.Keys && ids != {}
    ensures id in ids && forall j :: j in ids && j != id ==> Before(w.KeyOf(id), w.KeyOf(j))
    decreases |ids|
  {
    var some :| some in ids;
    if ids == {some} {
      id := some;
    } else {
      var rest := HeadExists(w, ids - {some});
      id := if Before(w.KeyOf(some), w.KeyOf(rest)) then some else rest;
    }
  }

  /** ... and only one. */
  lemma HeadUnique<T>(w: Wheel<T>, a: nat, b: nat)
    requires w.IsHead(a) && w.IsHead(b)
    ensures a == b
  {
  }

  ghost function Head<T>(w: Wheel<T>): (h: Option<nat>)
    ensures h.None? <==> w.entries == map[]
    ensures h.Some? ==> w.IsHead(h.value)
  {
    if w.entries == map[] then None
    else
      assert exists id :: w.IsHead(id) by { var id := HeadExists(w, w.entries.Keys); assert w.IsHead(id); }
      var id :| w.IsHead(id);
      Some(id)
  }

  ghost predicate HeadDue<T>(w: Wheel<T>, now: nat) {
    Head(w).Some? && w.entries[Head(w).value].due <= now
  }

  /** What `poll(now)` takes, in order: heads while they are due. */
  ghost function DueIds<T>(w: Wheel<T>, now: nat): seq<nat>
    decreases |w.entries|
  {
    if HeadDue(w, now) then
      assert |w.Cancel(Head(w).value).entries| < |w.entries| by { CancelShrinks(w, Head(w).value); }
      [Head(w).value] + DueIds(w.Cancel(Head(w).value), now)
    else []
  }

  lemma CancelShrinks<T>(w: Wheel<T>, id: nat)
    requires id in w.entries
    ensures |w.Cancel(id).entries| < |w.entries|
  {
    assert w.Cancel(id).entries.Keys == w.entries.Keys - {id};
    assert |w.entries.Keys - {id}| == |w.entries.Keys| - 1;
  }

  ghost function AfterPoll<T>(w: Wheel<T>, now: nat): Wheel<T> {
    w.(entries := map id | id in w.entries && now < w.entries[id].due :: w.entries[id])
  }

  /** These entries, ordered by (deadline, id). */
  ghost predicate InOrder<T>(w: Wheel<T>, ids: seq<nat>) {
    && (forall id :: id in ids ==> id in w.entries)
    && forall i, j :: 0 <= i < j < |ids| ==> Before(w.KeyOf(ids[i]), w.KeyOf(ids[j]))
  }

  lemma HeadFirst<T>(w: Wheel<T>, h: nat, ids: seq<nat>)
    requires w.IsHead(h) && InOrder(w.Cancel(h), ids)
    ensures InOrder(w, [h] + ids)
  {
    var s := [h] + ids;
    forall id | id in ids ensures id in w.entries && id != h && w.Cancel(h).KeyOf(id) == w.KeyOf(id) {}
    forall i, j | 0 <= i < j < |s| ensures Before(w.KeyOf(s[i]), w.KeyOf(s[j])) {
      assert s[j] == ids[j - 1] && (i > 0 ==> s[i] == ids[i - 1]);
    }
  }

  lemma NoneDue<T>(w: Wheel<T>, now: nat)
    requires !HeadDue(w, now)
    ensures forall id :: id in w.entries ==> now < w.entries[id].due
  {
    forall id | id in w.entries ensures now < w.entries[id].due {
      var h := Head(w).value;
      assert id == h || Before(w.KeyOf(h), w.KeyOf(id));
    }
  }

  /** `poll(now)` takes exactly the entries due by `now`, ordered by (deadline, id). */
  lemma {:induction false} PollTakesExactlyTheDue<T>(w: Wheel<T>, now: nat)
    ensures forall id :: id in DueIds(w, now) <==> id in w.entries && w.entries[id].due <= now
    ensures InOrder(w, DueIds(w, now))
    decreases |w.entries|
  {
    hide InOrder;
    if HeadDue(w, now) {
      var h := Head(w).value;
      CancelShrinks(w, h);
      PollTakesExactlyTheDue(w.Cancel(h), now);
      HeadFirst(w, h, DueIds(w.Cancel(h), now));
    } else {
      NoneDue(w, now);
      NothingInOrder(w);
    }
  }

  lemma NothingInOrder<T>(w: Wheel<T>)
    ensures InOrder(w, [])
  {
  }

  // ---- Runs: every value leaves exactly once ---------------------------

  datatype Op<+T> = DoTimeout(due: nat, value: T) | DoCancel(id: nat) | DoPoll(now: nat)

  /** The entry an id left with, and the poll time when a poll released it. */
  datatype Exit<+T> = Exit(id: nat, value: T, polledAt: Option<nat>)

  datatype History<+T> = History(wheel: Wheel<T>, exits: seq<Exit<T>>)

  ghost function PollExits<T>(w: Wheel<T>, ids: seq<nat>, now: nat): (e: seq<Exit<T>>)
    requires forall id :: id in ids ==> id in w.entries
    ensures |e| == |ids|
  {
    seq(|ids|, i requires 0 <= i < |ids| => Exit(ids[i], w.entries[ids[i]].value, Some(now)))
  }

  ghost function Apply<T>(h: History<T>, op: Op<T>): History<T> {
    match op
    case DoTimeout(due, value) =>
      History(h.wheel.Timeout(due, value), h.exits)
    case DoCancel(id) =>
      if id in h.wheel.entries
      then History(h.wheel.Cancel(id), h.exits + [Exit(id, h.wheel.entries[id].value, None)])
      else h
    case DoPoll(now) =>
      PollTakesExactlyTheDue(h.wheel, now);
      History(AfterPoll(h.wheel, now), h.exits + PollExits(h.wheel, DueIds(h.wheel, now), now))
  }

  ghost function Run<T>(ops: seq<Op<T>>): History<T> {
    if ops == [] then History(Wheel(map[], 1, map[]), [])
    else Apply(Run(ops[..|ops| - 1]), ops[|ops| - 1])
  }

  /** Conservation: what was issued is pending or has left, never both, and left
      once, with its own value, by `cancel` or by a `poll` not before its deadline. */
  ghost predicate Conserved<T>(h: History<T>) {
    && h.wheel.Valid()
    && (forall id :: id in h.wheel.issued && id !in h.wheel.entries ==> exists i :: 0 <= i < |h.exits| && h.exits[i].id == id)
    && (forall i :: 0 <= i < |h.exits| ==> LeftProperly(h, h.exits[i]))
    && (forall i, j :: 0 <= i < j < |h.exits| ==> h.exits[i].id != h.exits[j].id)
  }

  ghost predicate LeftProperly<T>(h: History<T>, e: Exit<T>) {
    && e.id in h.wheel.issued && e.id !in h.wheel.entries
    && h.wheel.issued[e.id].value == e.value
    && (e.polledAt.Some? ==> h.wheel.issued[e.id].due <= e.polledAt.value)
  }

  lemma ApplyPollConserves<T>(h: History<T>, now: nat)
    requires Conserved(h)
    ensures Conserved(Apply(h, DoPoll(now)))
  {
    hide DueIds, LeftProperly, InOrder;
    PollTakesExactlyTheDue(h.wheel, now);
    PolledLeft(h, now);
    PolledOnce(h, now);
    var ids := DueIds(h.wheel, now);
    var h' := Apply(h, DoPoll(now));
    forall id | id in h'.wheel.issued && id !in h'.wheel.entries
      ensures exists i :: 0 <= i < |h'.exits| && h'.exits[i].id == id
    {
      if id in h.wheel.entries {
        assert id in ids;
        var i :| 0 <= i < |ids| && ids[i] == id;
        assert h'.exits[|h.exits| + i].id == id;
      } else {
        var i :| 0 <= i < |h.exits| && h.exits[i].id == id;
        assert h'.exits[i].id == id;
      }
    }
  }

  lemma PolledLeft<T>(h: History<T>, now: nat)
    requires Conserved(h)
    ensures var h' := Apply(h, DoPoll(now)); forall i :: 0 <= i < |h'.exits| ==> LeftProperly(h', h'.exits[i])
  {
    PollTakesExactlyTheDue(h.wheel, now);
    var ids, h' := DueIds(h.wheel, now), Apply(h, DoPoll(now));
    hide DueIds, InOrder;
    forall i | 0 <= i < |h'.exits| ensures LeftProperly(h', h'.exits[i]) {
      if i < |h.exits| {
        assert LeftProperly(h, h.exits[i]);
      } else {
        assert ids[i - |h.exits|] in ids;
      }
    }
  }

  lemma PolledOnce<T>(h: History<T>, now: nat)
    requires Conserved(h)
    ensures var h' := Apply(h, DoPoll(now)); forall i, j :: 0 <= i < j < |h'.exits| ==> h'.exits[i].id != h'.exits[j].id
  {
    PollTakesExactlyTheDue(h.wheel, now);
    var ids, h' := DueIds(h.wheel, now), Apply(h, DoPoll(now));
    hide DueIds;
    forall i, j | 0 <= i < j < |h'.exits| ensures h'.exits[i].id != h'.exits[j].id {
      if i < |h.exits| <= j {
        assert LeftProperly(h, h.exits[i]);
        assert ids[j - |h.exits|] in ids;
      } else if |h.exits| <= i {
        assert ids[i - |h.exits|] != ids[j - |h.exits|];
      }
    }
  }

  lemma ApplyTimeoutConserves<T>(h: History<T>, due: nat, value: T)
    requires Conserved(h)
    ensures Conserved(Apply(h, DoTimeout(due, value)))
  {
    var h' := Apply(h, DoTimeout(due, value));
    forall i | 0 <= i < |h'.exits| ensures LeftProperly(h', h'.exits[i]) {
      assert LeftProperly(h, h.exits[i]);
    }
    forall id | id in h'.wheel.issued && id !in h'.wheel.entries
      ensures exists i :: 0 <= i < |h'.exits| && h'.exits[i].id == id
    {
      assert id in h.wheel.issued && id !in h.wheel.entries;
    }
  }

  lemma ApplyCancelConserves<T>(h: History<T>, id: nat)
    requires Conserved(h)
    ensures Conserved(Apply(h, DoCancel(id)))
  {
    if id in h.wheel.entries {
      var h' := Apply(h, DoCancel(id));
      forall i | 0 <= i < |h'.exits| ensures LeftProperly(h', h'.exits[i]) {
        if i < |h.exits| { assert LeftProperly(h, h.exits[i]); }
      }
      forall k | k in h'.wheel.issued && k !in h'.wheel.entries
        ensures exists i :: 0 <= i < |h'.exits| && h'.exits[i].id == k
      {
        if k == id {
          assert h'.exits[|h.exits|].id == k;
        } else {
          var i :| 0 <= i < |h.exits| && h.exits[i].id == k;
          assert h'.exits[i].id == k;
        }
      }
      forall i, j | 0 <= i < j < |h'.exits| ensures h'.exits[i].id != h'.exits[j].id {
        assert LeftProperly(h, h.exits[i]);
      }
    }
  }

  lemma ApplyConserves<T>(h: History<T>, op: Op<T>)
    requires Conserved(h)
    ensures Conserved(Apply(h, op))
  {
    match op
    case DoTimeout(due, value) => ApplyTimeoutConserves(h, due, value);
    case DoCancel(id) => ApplyCancelConserves(h, id);
    case DoPoll(now) => ApplyPollConserves(h, now);
  }

  /** Under any sequence of `timeout_at`, `cancel` and `poll`. */
  lemma {:induction false} EveryValueLeavesOnce<T>(ops: seq<Op<T>>)
    ensures Conserved(Run(ops))
  {
    if ops != [] {
      EveryValueLeavesOnce(ops[..|ops| - 1]);
      ApplyConserves(Run(ops[..|ops| - 1]), ops[|ops| - 1]);
    }
  }

  // ---- The source's two maps -------------------------------------------

  /** The two maps mirror each other. */
  ghost predicate Mirrored<T>(tasks: map<TimerKey, T>, idToTasks: map<nat, nat>) {
    && (forall key :: key in tasks ==> key.taskId in idToTasks && idToTasks[key.taskId] == key.executeAt)
    && (forall id :: id in idToTasks ==> TimerKey(id, idToTasks[id]) in tasks)
  }

  ghost function Entries<T>(tasks: map<TimerKey, T>, idToTasks: map<nat, nat>): (entries: map<nat, Entry<T>>)
    requires Mirrored(tasks, idToTasks)
    ensures entries.Keys == idToTasks.Keys
  {
    map id | id in idToTasks :: Entry(idToTasks[id], tasks[TimerKey(id, idToTasks[id])])
  }

  lemma OneIn<T>(tasks: map<TimerKey, T>, idToTasks: map<nat, nat>, id: nat, at: nat, value: T)
    requires Mirrored(tasks, idToTasks) && id !in idToTasks
    ensures Mirrored(tasks[TimerKey(id, at) := value], idToTasks[id := at])
    ensures Entries(tasks[TimerKey(id, at) := value], idToTasks[id := at]) == Entries(tasks, idToTasks)[id := Entry(at, value)]
  {
  }

  lemma OneOut<T>(tasks: map<TimerKey, T>, idToTasks: map<nat, nat>, id: nat)
    requires Mirrored(tasks, idToTasks) && id in idToTasks
    ensures TimerKey(id, idToTasks[id]) in tasks
    ensures Entries(tasks, idToTasks)[id] == Entry(idToTasks[id], tasks[TimerKey(id, idToTasks[id])])
    ensures Mirrored(tasks - {TimerKey(id, idToTasks[id])}, idToTasks - {id})
    ensures Entries(tasks - {TimerKey(id, idToTasks[id])}, idToTasks - {id}) == Entries(tasks, idToTasks) - {id}
  {
  }

  lemma StaysValid<T>(w: Wheel<T>, due: nat, value: T, id: nat)
    requires w.Valid()
    ensures w.Timeout(due, value).Valid() && w.Cancel(id).Valid()
  {
  }

  class Timer<T(==)> {
    var tasks: map<TimerKey, T>
    var idToTasks: map<nat, nat>
    var lastTaskId: nat
    /** Every entry there ever was. */
    ghost var issued: map<nat, Entry<T>>

    ghost predicate Valid()
      reads this
    {
      Mirrored(tasks, idToTasks) && Wheel(Entries(tasks, idToTasks), lastTaskId, issued).Valid()
    }

    ghost function Contents(): (w: Wheel<T>)
      reads this
      requires Valid()
      ensures w.Valid()
    {
      Wheel(Entries(tasks, idToTasks), lastTaskId, issued)
    }

    constructor ()
      ensures Valid() && Contents() == Wheel(map[], 1, map[])
    {
      tasks, idToTasks, lastTaskId, issued := map[], map[], 1, map[];
    }

    method TimeoutAt(executeAt: nat, value: T) returns (taskId: nat)
      requires Valid()
      modifies this
      ensures Valid()
      ensures taskId == old(Contents()).nextId && Contents() == old(Contents()).Timeout(executeAt, value)
    {
      Unused();
      hide Wheel.Valid, Mirrored, Entries;
      taskId := lastTaskId;
      StaysValid(Contents(), executeAt, value, 0);
      OneIn(tasks, idToTasks, taskId, executeAt, value);
      lastTaskId := lastTaskId + 1;
      tasks := tasks[TimerKey(taskId, executeAt) := value];
      idToTasks := idToTasks[taskId := executeAt];
      issued := issued[taskId := Entry(executeAt, value)];
    }

    method Cancel(taskId: nat) returns (removed: Option<T>)
      requires Valid()
      modifies this
      ensures Valid()
      ensures Contents() == old(Contents()).Cancel(taskId)
      ensures removed == if taskId in old(Contents()).entries
                         then Some(old(Contents()).entries[taskId].value) else None
    {
      hide Wheel.Valid, Mirrored, Entries;
      if taskId !in idToTasks {
        assert Contents().entries - {taskId} == Contents().entries;
        return None;
      }
      OneOut(tasks, idToTasks, taskId);
      var key := TimerKey(taskId, idToTasks[taskId]);
      StaysValid(Contents(), 0, tasks[key], taskId);
      idToTasks := idToTasks - {taskId};
      removed := Some(tasks[key]);
      tasks := tasks - {key};
    }

    lemma Unused()
      requires Valid()
      ensures lastTaskId !in idToTasks
    {
    }

    /** The first key of the ordered map. */
    method First() returns (h: Option<TimerKey>)
      requires Valid()
      ensures h.None? ==> Contents().entries == map[]
      ensures h.Some? ==> h.value in tasks && Head(Contents()) == Some(h.value.taskId)
                          && Contents().entries[h.value.taskId].due == h.value.executeAt
    {
      if tasks == map[] {
        assert Contents().entries.Keys == {} by { hide Wheel.Valid, Entries; }
        return None;
      }
      var rest := tasks.Keys;
      var first :| first in rest;
      rest := rest - {first};
      while rest != {}
        invariant rest <= tasks.Keys && first in tasks
        invariant forall key :: key in tasks && key !in rest && key != first ==> Before(first, key)
        decreases |rest|
      {
        var key :| key in rest;
        rest := rest - {key};
        if Before(key, first) {
          first := key;
        }
      }
      assert Contents().IsHead(first.taskId);
      HeadUnique(Contents(), first.taskId, Head(Contents()).value);
      return Some(first);
    }

    /** Take the head out of both maps. */
    method PopHead(key: TimerKey) returns (value: T)
      requires Valid() && key in tasks
      modifies this
      ensures Valid()
      ensures key.taskId in old(Contents()).entries
      ensures old(Contents()).entries[key.taskId] == Entry(key.executeAt, value)
      ensures Contents() == old(Contents()).Cancel(key.taskId)
      ensures tasks == old(tasks) - {key}
    {
      KeyIn(key);
      hide Wheel.Valid, Mirrored, Entries;
      OneOut(tasks, idToTasks, key.taskId);
      value := tasks[key];
      StaysValid(Contents(), 0, value, key.taskId);
      tasks := tasks - {key};
      idToTasks := idToTasks - {key.taskId};
    }

    lemma KeyIn(key: TimerKey)
      requires Valid() && key in tasks
      ensures key.taskId in idToTasks && key == TimerKey(key.taskId, idToTasks[key.taskId])
    {
    }

    /** `collect_ready`: remove heads while they are due. */
    method Poll(now: nat) returns (ready: seq<T>)
      requires Valid()
      modifies this
      ensures Valid()
      ensures Contents() == AfterPoll(old(Contents()), now)
      ensures |ready| == |DueIds(old(Contents()), now)|
      ensures forall i :: 0 <= i < |ready| ==>
                            var id := DueIds(old(Contents()), now)[i];
                            id in old(Contents()).entries && ready[i] == old(Contents()).entries[id].value
    {
      hide Valid, Mirrored, Entries, Wheel.Valid, DueIds, Polling, AfterPoll;
      ghost var start := Contents();
      PollingStarts(start, now);
      ghost var taken: seq<nat> := [];
      ready := [];
      var head := First();
      while head.Some? && head.value.executeAt <= now
        invariant Valid()
        invariant head.None? ==> Contents().entries == map[]
        invariant head.Some? ==> head.value in tasks && Head(Contents()) == Some(head.value.taskId)
                                 && Contents().entries[head.value.taskId].due == head.value.executeAt
        invariant Polling(start, Contents(), now, taken, ready)
        decreases |tasks|
      {
        ghost var before := Contents();
        var value := PopHead(head.value);
        PollingStep(start, before, now, taken, ready);
        taken := taken + [head.value.taskId];
        ready := ready + [value];
        head := First();
      }
      PollingDone(start, Contents(), now, taken, ready);
    }
  }

  /** The loop invariant of `Poll`: `taken` then what is still due is what was due at the start. */
  ghost predicate Polling<T>(start: Wheel<T>, w: Wheel<T>, now: nat, taken: seq<nat>, ready: seq<T>) {
    && w.nextId == start.nextId && w.issued == start.issued
    && (forall id :: id in w.entries ==> id in start.entries && w.entries[id] == start.entries[id])
    && (forall id :: id in start.entries && id !in w.entries ==> start.entries[id].due <= now)
    && DueIds(start, now) == taken + DueIds(w, now)
    && |taken| == |ready|
    && (forall i :: 0 <= i < |ready| ==> taken[i] in start.entries && ready[i] == start.entries[taken[i]].value)
  }

  lemma PollingStarts<T>(start: Wheel<T>, now: nat)
    ensures Polling(start, start, now, [], [])
  {
    assert [] + DueIds(start, now) == DueIds(start, now);
    hide DueIds;
  }

  lemma PollingStep<T>(start: Wheel<T>, w: Wheel<T>, now: nat, taken: seq<nat>, ready: seq<T>)
    requires Polling(start, w, now, taken, ready) && HeadDue(w, now)
    ensures var h := Head(w).value;
            Polling(start, w.Cancel(h), now, taken + [h], ready + [w.entries[h].value])
  {
    var h := Head(w).value;
    assert DueIds(w, now) == [h] + DueIds(w.Cancel(h), now);
    TakingOne(start, w, h, now, taken, ready);
  }

  lemma TakingOne<T>(start: Wheel<T>, w: Wheel<T>, h: nat, now: nat, taken: seq<nat>, ready: seq<T>)
    requires Polling(start, w, now, taken, ready) && h in w.entries && w.entries[h].due <= now
    requires DueIds(w, now) == [h] + DueIds(w.Cancel(h), now)
    ensures Polling(start, w.Cancel(h), now, taken + [h], ready + [w.entries[h].value])
  {
    hide DueIds;
    assert taken + ([h] + DueIds(w.Cancel(h), now)) == (taken + [h]) + DueIds(w.Cancel(h), now);
  }

  lemma PollingDone<T>(start: Wheel<T>, w: Wheel<T>, now: nat, taken: seq<nat>, ready: seq<T>)
    requires Polling(start, w, now, taken, ready) && !HeadDue(w, now)
    ensures w == AfterPoll(start, now) && taken == DueIds(start, now) && |ready| == |taken|
    ensures forall i :: 0 <= i < |ready| ==> taken[i] in start.entries && ready[i] == start.entries[taken[i]].value
  {
    NoneDue(w, now);
    assert w.entries == AfterPoll(start, now).entries;
  }
}
