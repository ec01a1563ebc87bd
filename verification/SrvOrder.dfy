/** The order of SRV records (src/resolver/sip_resolver.rs; RFC 2782). */
module SrvOrder {
  datatype SrvRecord = SrvRecord(priority: nat, weight: nat, port: nat, target: string)

  ghost predicate SortedByPriority(records: seq<SrvRecord>) {
    forall i, j :: 0 <= i < j < |records| ==> records[i].priority <= records[j].priority
  }

  function TotalWeight(records: seq<SrvRecord>): nat {
    if records == [] then 0 else TotalWeight(records[..|records| - 1]) + records[|records| - 1].weight
  }

  /** The cumulated weight up to and including record `i`. */
  function Upto(records: seq<SrvRecord>, i: nat): nat
    requires i < |records|
  {
    TotalWeight(records[..i + 1])
  }

  lemma TotalStep(records: seq<SrvRecord>, i: nat)
    requires i < |records|
    ensures TotalWeight(records[..i + 1]) == TotalWeight(records[..i]) + records[i].weight
  {
    assert records[..i + 1][..i] == records[..i];
  }

  lemma {:induction false} TotalGrows(records: seq<SrvRecord>, i: nat, j: nat)
    requires i <= j <= |records|
    ensures TotalWeight(records[..i]) <= TotalWeight(records[..j])
  {
    if i < j {
      TotalStep(records, j - 1);
      TotalGrows(records, i, j - 1);
    }
  }

  /** Where `r` goes: behind the records of its priority or a lower one. */
  method Position(sorted: seq<SrvRecord>, r: SrvRecord) returns (k: nat)
    requires SortedByPriority(sorted)
    ensures k <= |sorted| && SortedByPriority(sorted[..k] + [r] + sorted[k..])
    ensures forall q :: q in sorted[k..] ==> q.priority > r.priority
  {
    k := |sorted|;
    while k > 0 && sorted[k - 1].priority > r.priority
      invariant 0 <= k <= |sorted|
      invariant forall j :: k <= j < |sorted| ==> sorted[j].priority > r.priority
    {
      k := k - 1;
    }
  }

  // ---- The records of one priority ------------------------------------------------------

  function Of(records: seq<SrvRecord>, priority: nat): seq<SrvRecord> {
    if records == [] then []
    else Of(records[..|records| - 1], priority) + OfOne(records[|records| - 1], priority)
  }

  function OfOne(r: SrvRecord, priority: nat): seq<SrvRecord> {
    if r.priority == priority then [r] else []
  }

  lemma {:induction false} OfConcat(a: seq<SrvRecord>, b: seq<SrvRecord>, priority: nat)
    ensures Of(a + b, priority) == Of(a, priority) + Of(b, priority)
  {
    if b == [] {
      assert a + b == a;
    } else {
      var n := |b| - 1;
      assert (a + b)[..|a + b| - 1] == a + b[..n];
      OfConcat(a, b[..n], priority);
    }
  }

  lemma {:induction false} OfSame(a: seq<SrvRecord>, priority: nat)
    requires forall r :: r in a ==> r.priority == priority
    ensures Of(a, priority) == a
  {
    if a != [] { OfSame(a[..|a| - 1], priority); }
  }

  lemma {:induction false} OfOthers(a: seq<SrvRecord>, priority: nat)
    requires forall r :: r in a ==> r.priority != priority
    ensures Of(a, priority) == []
  {
    if a != [] { OfOthers(a[..|a| - 1], priority); }
  }

  /** Inserting behind the records of its priority appends to them. */
  lemma OfInserted(sorted: seq<SrvRecord>, r: SrvRecord, k: nat, priority: nat)
    requires k <= |sorted| && forall q :: q in sorted[k..] ==> q.priority > r.priority
    ensures Of(sorted[..k] + [r] + sorted[k..], priority) == Of(sorted, priority) + OfOne(r, priority)
  {
    hide Of;
    OfConcat(sorted[..k] + [r], sorted[k..], priority);
    OfConcat(sorted[..k], [r], priority);
    OfConcat(sorted[..k], sorted[k..], priority);
    assert sorted[..k] + sorted[k..] == sorted;
    if r.priority == priority { OfSame([r], priority); } else { OfOthers([r], priority); }
    if r.priority == priority { OfOthers(sorted[k..], priority); }
  }

  lemma InsertedOne(sorted: seq<SrvRecord>, r: SrvRecord, k: nat)
    requires k <= |sorted|
    ensures multiset(sorted[..k] + [r] + sorted[k..]) == multiset(sorted) + multiset{r}
  {
    assert sorted == sorted[..k] + sorted[k..];
  }

  /** `sort_by_key`, which is stable. */
  method SortByPriority(records: seq<SrvRecord>) returns (sorted: seq<SrvRecord>)
    ensures multiset(sorted) == multiset(records) && SortedByPriority(sorted)
    ensures forall p: nat :: Of(sorted, p) == Of(records, p)
  {
    hide SortedByPriority, Of;
    sorted := [];
    NothingSorted();
    var i := 0;
    while i < |records|
      invariant 0 <= i <= |records|
      invariant multiset(sorted) == multiset(records[..i]) && SortedByPriority(sorted)
      invariant forall p: nat :: Of(sorted, p) == Of(records[..i], p)
    {
      var k := Position(sorted, records[i]);
      InsertedOne(sorted, records[i], k);
      forall p: nat ensures Of(sorted[..k] + [records[i]] + sorted[k..], p) == Of(records[..i + 1], p) {
        OfInserted(sorted, records[i], k, p);
        OfNext(records, i, p);
      }
      assert records[..i + 1] == records[..i] + [records[i]];
      sorted := sorted[..k] + [records[i]] + sorted[k..];
      i := i + 1;
    }
    assert records[..i] == records;
  }

  lemma OfNext(records: seq<SrvRecord>, i: nat, priority: nat)
    requires i < |records|
    ensures Of(records[..i + 1], priority) == Of(records[..i], priority) + OfOne(records[i], priority)
  {
    assert records[..i + 1][..i] == records[..i];
  }

  lemma NothingSorted()
    ensures SortedByPriority([]) && forall p: nat :: Of([], p) == []
  {
  }

  /** The walk over the weights selects the first record whose cumulated weight reaches the draw. */
  ghost predicate Selects(group: seq<SrvRecord>, draw: nat, idx: nat) {
    && idx < |group|
    && draw <= Upto(group, idx)
    && forall i :: 0 <= i < idx ==> Upto(group, i) < draw
  }

  /** It always stops inside the group. */
  method Walk(group: seq<SrvRecord>, draw: nat) returns (selected: nat)
    requires group != [] && draw <= TotalWeight(group)
    ensures Selects(group, draw, selected)
  {
    var r := draw;
    var i := 0;
    selected := 0;
    assert group[..|group|] == group;
    while i < |group|
      invariant 0 <= i <= |group|
      invariant r == draw - TotalWeight(group[..i])
      invariant forall j :: 0 <= j < i ==> Upto(group, j) < draw
      invariant i == |group| ==> r == 0 && draw > Upto(group, i - 1)
    {
      var w := group[i].weight;
      TotalStep(group, i);
      if r <= w {
        selected := i;
        return;
      }
      r := r - w;
      i := i + 1;
      TotalGrows(group, i, |group|);
    }
  }

  /** `if selected_idx >= group.len()`. */
  function Clamp(selected: nat, len: nat): nat
    requires len > 0
  {
    if selected >= len then len - 1 else selected
  }

  /** `group.remove(idx)`. */
  function Without(group: seq<SrvRecord>, idx: nat): seq<SrvRecord>
    requires idx < |group|
  {
    group[..idx] + group[idx + 1..]
  }

  lemma WithoutOne(group: seq<SrvRecord>, idx: nat)
    requires idx < |group|
    ensures multiset(group) == multiset(Without(group, idx)) + multiset{group[idx]}
  {
    assert group == group[..idx] + [group[idx]] + group[idx + 1..];
  }

  /** The records that some draw can pick. */
  ghost predicate Drawable(group: seq<SrvRecord>, idx: nat)
    requires idx < |group|
  {
    TotalWeight(group) == 0 || exists draw: nat :: draw <= TotalWeight(group) && Selects(group, draw, idx)
  }

  /** `order` is one weighted drawing of the whole group. */
  ghost predicate DrawnFrom(group: seq<SrvRecord>, order: seq<SrvRecord>)
    decreases |group|
  {
    if group == [] then order == []
    else order != [] && exists idx: nat :: idx < |group| && Drawable(group, idx) && order[0] == group[idx] && DrawnFrom(Without(group, idx), order[1..])
  }

  /** While weights remain, a record without weight is picked only from the head of its group:
      RFC 2782 gives each such record a small chance, wherever it stands. */
  lemma DrawableExactlyWhen(group: seq<SrvRecord>, idx: nat)
    requires idx < |group| && TotalWeight(group) > 0
    ensures Drawable(group, idx) <==> idx == 0 || group[idx].weight > 0
  {
    TotalStep(group, idx);
    TotalGrows(group, idx + 1, |group|);
    assert group[..|group|] == group;
    forall i | 0 <= i < idx ensures Upto(group, i) <= TotalWeight(group[..idx]) { TotalGrows(group, i + 1, idx); }
    if idx == 0 {
      assert Selects(group, 0, 0);
    } else if group[idx].weight > 0 {
      assert Selects(group, Upto(group, idx), idx);
    } else {
      assert group[..idx - 1 + 1] == group[..idx];
      assert Upto(group, idx - 1) == Upto(group, idx);
    }
  }

  /** One record of the group leaves it, by a draw when there are weights. */
  method PickOne(group: seq<SrvRecord>) returns (idx: nat)
    requires group != []
    ensures idx < |group| && Drawable(group, idx)
  {
    var total := TotalWeight(group);
    if total == 0 {
      idx :| 0 <= idx < |group|;
    } else {
      var draw: nat :| 0 <= draw <= total;
      var selected := Walk(group, draw);
      idx := Clamp(selected, |group|);
      assert idx == selected;
    }
  }

  /** The loop over one group: all of it, as drawn. */
  method DrawGroup(records: seq<SrvRecord>) returns (drawn: seq<SrvRecord>)
    ensures multiset(drawn) == multiset(records)
    ensures DrawnFrom(records, drawn)
  {
    hide Drawable, DrawnFrom;
    var group := records;
    drawn := [];
    DrawingStarts(records);
    while group != []
      invariant multiset(drawn) + multiset(group) == multiset(records)
      invariant Drawing(records, drawn, group)
      decreases |group|
    {
      var idx := PickOne(group);
      WithoutOne(group, idx);
      DrawingGoesOn(records, drawn, group, idx);
      drawn, group := drawn + [group[idx]], Without(group, idx);
    }
    DrawingEnds(records, drawn);
  }

  /** `drawn` came out of `records`, and a drawing of `group` completes it. */
  ghost predicate Drawing(records: seq<SrvRecord>, drawn: seq<SrvRecord>, group: seq<SrvRecord>) {
    forall order :: DrawnFrom(group, order) ==> DrawnFrom(records, drawn + order)
  }

  lemma DrawingStarts(records: seq<SrvRecord>)
    ensures Drawing(records, [], records)
  {
    hide DrawnFrom;
    assert forall order: seq<SrvRecord> :: [] + order == order;
  }

  lemma DrawingGoesOn(records: seq<SrvRecord>, drawn: seq<SrvRecord>, group: seq<SrvRecord>, idx: nat)
    requires Drawing(records, drawn, group) && idx < |group| && Drawable(group, idx)
    ensures Drawing(records, drawn + [group[idx]], Without(group, idx))
  {
    forall order | DrawnFrom(Without(group, idx), order) ensures DrawnFrom(records, drawn + [group[idx]] + order) {
      DrawnFirst(group, idx, order);
      DrawingContinues(records, drawn, group, [group[idx]] + order);
      assert drawn + [group[idx]] + order == drawn + ([group[idx]] + order);
    }
    hide DrawnFrom, Drawable, Without;
  }

  lemma DrawingContinues(records: seq<SrvRecord>, drawn: seq<SrvRecord>, group: seq<SrvRecord>, order: seq<SrvRecord>)
    requires Drawing(records, drawn, group) && DrawnFrom(group, order)
    ensures DrawnFrom(records, drawn + order)
  {
  }

  lemma DrawnFirst(group: seq<SrvRecord>, idx: nat, order: seq<SrvRecord>)
    requires idx < |group| && Drawable(group, idx) && DrawnFrom(Without(group, idx), order)
    ensures DrawnFrom(group, [group[idx]] + order)
  {
    hide Drawable, Without;
    assert ([group[idx]] + order)[1..] == order;
  }

  lemma DrawingEnds(records: seq<SrvRecord>, drawn: seq<SrvRecord>)
    requires Drawing(records, drawn, [])
    ensures DrawnFrom(records, drawn)
  {
    DrawingContinues(records, drawn, [], []);
    assert drawn + [] == drawn;
  }

  /** The end of the run of records with the priority of `start`. */
  method GroupEnd(sorted: seq<SrvRecord>, start: nat) returns (end: nat)
    requires start < |sorted|
    ensures start < end <= |sorted|
    ensures forall k :: start <= k < end ==> sorted[k].priority == sorted[start].priority
    ensures end < |sorted| ==> sorted[end].priority != sorted[start].priority
  {
    var currentPriority := sorted[start].priority;
    end := start;
    while end < |sorted| && sorted[end].priority == currentPriority
      invariant start <= end <= |sorted|
      invariant forall k :: start <= k < end ==> sorted[k].priority == currentPriority
    {
      end := end + 1;
    }
  }

  /** What the outer loop has done with the groups below `end`. */
  ghost predicate GroupsDrawn(sorted: seq<SrvRecord>, ordered: seq<SrvRecord>, end: nat)
    requires end <= |sorted|
  {
    && multiset(ordered) == multiset(sorted[..end])
    && SortedByPriority(ordered)
    && (forall r, q :: r in ordered && q in sorted[end..] ==> r.priority < q.priority)
    && forall p: nat :: DrawnFrom(Of(sorted[..end], p), Of(ordered, p))
  }

  lemma NothingDrawn(sorted: seq<SrvRecord>)
    ensures GroupsDrawn(sorted, [], 0)
  {
  }

  /** One more group. */
  lemma GroupAppended(sorted: seq<SrvRecord>, ordered: seq<SrvRecord>, start: nat, end: nat, drawn: seq<SrvRecord>)
    requires SortedByPriority(sorted) && start < end <= |sorted| && GroupsDrawn(sorted, ordered, start)
    requires forall k :: start <= k < end ==> sorted[k].priority == sorted[start].priority
    requires end < |sorted| ==> sorted[end].priority != sorted[start].priority
    requires multiset(drawn) == multiset(sorted[start..end]) && DrawnFrom(sorted[start..end], drawn)
    ensures GroupsDrawn(sorted, ordered + drawn, end)
  {
    hide DrawnFrom, Of, SortedByPriority;
    var group, priority := sorted[start..end], sorted[start].priority;
    assert sorted[..end] == sorted[..start] + group;
    GroupPriority(group, drawn, priority);
    assert forall r :: r in ordered ==> r.priority < priority by { assert sorted[start] in sorted[start..]; }
    LaterIsHigher(sorted, start, end);
    SortedAppended(ordered, drawn, priority);
    forall p: nat ensures DrawnFrom(Of(sorted[..end], p), Of(ordered + drawn, p)) {
      GroupOf(sorted[..start], group, ordered, drawn, priority, p);
    }
  }

  lemma LaterIsHigher(sorted: seq<SrvRecord>, start: nat, end: nat)
    requires SortedByPriority(sorted) && start < end <= |sorted|
    requires end < |sorted| ==> sorted[end].priority != sorted[start].priority
    ensures forall q :: q in sorted[end..] ==> sorted[start].priority < q.priority
  {
    forall k | end <= k < |sorted| ensures sorted[start].priority < sorted[k].priority {
      assert sorted[start].priority <= sorted[end].priority <= sorted[k].priority;
    }
  }

  lemma SortedAppended(ordered: seq<SrvRecord>, drawn: seq<SrvRecord>, priority: nat)
    requires SortedByPriority(ordered) && (forall r :: r in ordered ==> r.priority < priority)
    requires forall r :: r in drawn ==> r.priority == priority
    ensures SortedByPriority(ordered + drawn)
  {
  }

  lemma GroupPriority(group: seq<SrvRecord>, drawn: seq<SrvRecord>, priority: nat)
    requires multiset(drawn) == multiset(group) && forall r :: r in group ==> r.priority == priority
    ensures forall r :: r in drawn ==> r.priority == priority
  {
    forall r | r in drawn ensures r in group { assert r in multiset(drawn); assert r in multiset(group); }
  }

  lemma GroupOf(before: seq<SrvRecord>, group: seq<SrvRecord>, ordered: seq<SrvRecord>, drawn: seq<SrvRecord>, priority: nat, p: nat)
    requires (forall r :: r in group ==> r.priority == priority) && (forall r :: r in drawn ==> r.priority == priority)
    requires (forall r :: r in ordered ==> r.priority < priority) && multiset(ordered) == multiset(before)
    requires DrawnFrom(Of(before, p), Of(ordered, p)) && DrawnFrom(group, drawn)
    ensures DrawnFrom(Of(before + group, p), Of(ordered + drawn, p))
  {
    hide DrawnFrom, Of;
    OfConcat(before, group, p);
    OfConcat(ordered, drawn, p);
    if p == priority {
      forall r | r in before ensures r.priority < p { assert r in multiset(before); assert r in multiset(ordered); }
      OfOthers(before, p);
      OfOthers(ordered, p);
      OfSame(group, p);
      OfSame(drawn, p);
      assert [] + group == group && [] + drawn == drawn;
    } else {
      OfOthers(group, p);
      OfOthers(drawn, p);
      assert Of(before, p) + [] == Of(before, p) && Of(ordered, p) + [] == Of(ordered, p);
    }
  }

  /** All records, each once, by rising priority; those of one priority in a weighted drawing of
      them; whatever the draws. */
  method OrderSrvRecords(records: seq<SrvRecord>) returns (ordered: seq<SrvRecord>)
    ensures multiset(ordered) == multiset(records)
    ensures SortedByPriority(ordered)
    ensures forall p: nat :: DrawnFrom(Of(records, p), Of(ordered, p))
  {
    hide SortedByPriority, DrawnFrom, Of;
    var sorted := SortByPriority(records);
    ordered := [];
    NothingDrawn(sorted);
    var startIdx := 0;
    while startIdx < |sorted|
      invariant 0 <= startIdx <= |sorted|
      invariant GroupsDrawn(sorted, ordered, startIdx)
    {
      var endIdx := GroupEnd(sorted, startIdx);
      var drawn := DrawGroup(sorted[startIdx..endIdx]);
      GroupAppended(sorted, ordered, startIdx, endIdx, drawn);
      ordered := ordered + drawn;
      startIdx := endIdx;
    }
    assert sorted[..startIdx] == sorted;
  }
}
