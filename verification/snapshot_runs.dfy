/** Any sequence of store, read and delete calls on the retained snapshots. */
module SnapshotRuns {
  import opened SnapshotRetention

  datatype Call =
    | Store(source: nat, id: nat, snap: Snap, now: int)
    | Read(id: nat, now: int)
    | Delete(id: nat)

  /** What a call leaves, as the methods of the store promise. Identifiers are new. */
  ghost predicate Performs(before: seq<Shelf>, call: Call, budget: nat, after: seq<Shelf>) {
    match call
    case Store(source, id, snap, now) =>
      && source < |before| && Fresh(before, id)
      && if snap.bytes > budget then after == before
         else exists victims :: EvictsOldestFirst(Admitted(before, source, id, snap, now), victims, id, budget, after)
    case Read(id, now) => after == AllExpired(before, id, now)
    case Delete(id) => after == AllDeleted(before, id)
  }

  ghost predicate Run(states: seq<seq<Shelf>>, calls: seq<Call>, budget: nat) {
    && |states| == |calls| + 1
    && (forall i :: 0 <= i < |states[0]| ==> states[0][i] == Shelf([], map[]))
    && forall k {:trigger calls[k]} :: 0 <= k < |calls| ==> Performs(states[k], calls[k], budget, states[k + 1])
  }

  lemma CallKeepsBounded(before: seq<Shelf>, call: Call, budget: nat, after: seq<Shelf>)
    requires Performs(before, call, budget, after) && Bounded(before, budget)
    ensures Bounded(after, budget) && |after| == |before|
    ensures call.Store? && call.snap.bytes <= budget ==> Holds(after, call.source, call.id, call.snap)
  {
    match call
    case Store(source, id, snap, now) =>
      if snap.bytes <= budget {
        AdmittedOk(before, source, id, snap, now);
        var admitted := Admitted(before, source, id, snap, now);
        var victims :| EvictsOldestFirst(admitted, victims, id, budget, after);
        EvictionKeepsTheNewOne(admitted, victims, id, budget, after, source, snap);
      }
    case Read(id, now) => AllExpiredOk(before, id, now);
    case Delete(id) => AllDeletedOk(before, id);
  }

  lemma {:induction false} EmptyTotalsZero(shelves: seq<Shelf>)
    requires forall i :: 0 <= i < |shelves| ==> shelves[i] == Shelf([], map[])
    ensures Total(shelves) == 0
  {
    if shelves != [] {
      EmptyTotalsZero(shelves[1..]);
    }
  }

  /** After every call the shelves are tidy, hold at most two snapshots per source
      and fit the budget; a store that fits alone keeps its snapshot. */
  lemma {:induction false} RunStaysBounded(states: seq<seq<Shelf>>, calls: seq<Call>, budget: nat, k: nat)
    requires Run(states, calls, budget) && k <= |calls|
    ensures Bounded(states[k], budget) && |states[k]| == |states[0]|
    ensures k > 0 && calls[k - 1].Store? && calls[k - 1].snap.bytes <= budget ==>
              Holds(states[k], calls[k - 1].source, calls[k - 1].id, calls[k - 1].snap)
  {
    if k == 0 {
      EmptyTotalsZero(states[0]);
    } else {
      RunStaysBounded(states, calls, budget, k - 1);
      CallKeepsBounded(states[k - 1], calls[k - 1], budget, states[k]);
    }
  }

  ghost predicate Stores(call: Call, source: nat, id: nat, snap: Snap) {
    call.Store? && call.source == source && call.id == id && call.snap == snap
  }

  /** What a shelf holds after a call was there before, or is what the call stores. */
  lemma NothingElseAppears(before: seq<Shelf>, call: Call, budget: nat, after: seq<Shelf>, source: nat, id: nat, snap: Snap)
    requires Performs(before, call, budget, after) && Bounded(before, budget)
    requires Holds(after, source, id, snap)
    ensures Holds(before, source, id, snap) || Stores(call, source, id, snap)
  {
    if call.Store? && call.snap.bytes <= budget {
      var admitted := Admitted(before, call.source, call.id, call.snap, call.now);
      var victims :| EvictsOldestFirst(admitted, victims, call.id, budget, after);
      AdmittedOk(before, call.source, call.id, call.snap, call.now);
      EvictionKeepsTheNewOne(admitted, victims, call.id, budget, after, call.source, call.snap);
      OnlyVictimsAreGone(admitted, victims, call.id, budget, after, source, id);
      AdmittedComesFrom(before, call.source, call.id, call.snap, call.now, source, id, snap);
    }
  }

  lemma AdmittedComesFrom(shelves: seq<Shelf>, source: nat, id: nat, snap: Snap, now: int, at: nat, held: nat, what: Snap)
    requires Tidy(shelves) && Fresh(shelves, id) && source < |shelves|
    requires Holds(Admitted(shelves, source, id, snap, now), at, held, what)
    ensures Holds(shelves, at, held, what) || (at == source && held == id && what == snap)
  {
    var compacted := AllCompacted(shelves, now);
    CompactedOk(shelves[source], now);
    var added := Added(compacted[source], id, snap);
    assert id !in compacted[source].order;
    assert ShelfOk(added);
    CappedItems(added);
  }

  /** A snapshot held now was held before, or was stored, as it is and on that source, by
      some call since. */
  lemma {:induction false} HeldBeforeOrStored(states: seq<seq<Shelf>>, calls: seq<Call>, budget: nat, j: nat, k: nat,
                                              source: nat, id: nat, snap: Snap)
    requires Run(states, calls, budget) && j <= k <= |calls| && Holds(states[k], source, id, snap)
    ensures Holds(states[j], source, id, snap) || exists m :: j <= m < k && Stores(calls[m], source, id, snap)
    decreases k
  {
    if k > j {
      RunStaysBounded(states, calls, budget, k - 1);
      NothingElseAppears(states[k - 1], calls[k - 1], budget, states[k], source, id, snap);
      if !Stores(calls[k - 1], source, id, snap) {
        HeldBeforeOrStored(states, calls, budget, j, k - 1, source, id, snap);
      }
    }
  }

  /** Nothing comes from nowhere: a snapshot held after any number of calls was stored by
      one of them. */
  lemma HeldWasStored(states: seq<seq<Shelf>>, calls: seq<Call>, budget: nat, k: nat, source: nat, id: nat, snap: Snap)
    requires Run(states, calls, budget) && k <= |calls| && Holds(states[k], source, id, snap)
    ensures exists j :: 0 <= j < k && Stores(calls[j], source, id, snap)
  {
    RunStaysBounded(states, calls, budget, k);
    RunStaysBounded(states, calls, budget, 0);
    HeldBeforeOrStored(states, calls, budget, 0, k, source, id, snap);
  }

  /** Nothing comes back: after a deletion, or a lookup that found it expired, a snapshot is
      held again only if a later call stores it. */
  lemma GoneUntilStored(states: seq<seq<Shelf>>, calls: seq<Call>, budget: nat, j: nat, k: nat,
                        source: nat, id: nat, snap: Snap)
    requires Run(states, calls, budget) && j < k <= |calls| && Holds(states[k], source, id, snap)
    requires calls[j] == Delete(id) || (calls[j].Read? && calls[j].id == id && snap.expiry <= calls[j].now)
    ensures exists m :: j < m < k && Stores(calls[m], source, id, snap)
  {
    RunStaysBounded(states, calls, budget, j);
    RunStaysBounded(states, calls, budget, k);
    assert Performs(states[j], calls[j], budget, states[j + 1]);
    if calls[j].Delete? {
      DeletedIsTakenOut(states[j][source], id);
    } else {
      ExpiredIsLookedAt(states[j][source], id, calls[j].now);
    }
    HeldBeforeOrStored(states, calls, budget, j + 1, k, source, id, snap);
  }

  /** Neither a lookup nor a deletion touches any other snapshot. */
  lemma OthersAreUntouched(states: seq<seq<Shelf>>, calls: seq<Call>, budget: nat, j: nat, source: nat, id: nat, snap: Snap)
    requires Run(states, calls, budget) && j < |calls| && !calls[j].Store? && calls[j].id != id
    ensures Holds(states[j + 1], source, id, snap) <==> Holds(states[j], source, id, snap)
  {
    RunStaysBounded(states, calls, budget, j);
    assert Performs(states[j], calls[j], budget, states[j + 1]);
    if source < |states[j]| {
      if calls[j].Delete? {
        DeletedIsTakenOut(states[j][source], calls[j].id);
      } else {
        ExpiredIsLookedAt(states[j][source], calls[j].id, calls[j].now);
      }
    }
  }

  /** What a store leaves, snapshot by snapshot: the new one, and of the others those
      that had not expired, were not evicted, and on the new one's source are among the
      newest. */
  lemma WhatAStoreKeeps(before: seq<Shelf>, source: nat, id: nat, snap: Snap, now: int, budget: nat,
                        victims: seq<Victim>, after: seq<Shelf>, at: nat, held: nat)
    requires Bounded(before, budget) && Fresh(before, id) && source < |before| && at < |before|
    requires EvictsOldestFirst(Admitted(before, source, id, snap, now), victims, id, budget, after)
    ensures |after| == |before|
    ensures held in after[at].items <==>
              && Victim(at, held) !in victims
              && ((at == source && held == id) || IsLive(held, before[at].items, now))
              && (at == source ==> held in Newest(Live(before[at].order, before[at].items, now) + [id]))
    ensures held in after[at].items ==>
              after[at].items[held] == if at == source && held == id then snap else before[at].items[held]
  {
    OnlyVictimsAreGone(Admitted(before, source, id, snap, now), victims, id, budget, after, at, held);
    AdmittedHolds(before, source, id, snap, now, at, held);
  }

  lemma AdmittedHolds(before: seq<Shelf>, source: nat, id: nat, snap: Snap, now: int, at: nat, held: nat)
    requires Tidy(before) && Fresh(before, id) && source < |before| && at < |before|
    ensures var shelf := Admitted(before, source, id, snap, now)[at];
            && (held in shelf.items <==>
                  && ((at == source && held == id) || IsLive(held, before[at].items, now))
                  && (at == source ==> held in Newest(Live(before[at].order, before[at].items, now) + [id])))
            && (held in shelf.items ==>
                  shelf.items[held] == if at == source && held == id then snap else before[at].items[held])
  {
    if at == source {
      var compacted := Compacted(before[at], now);
      CompactedOk(before[at], now);
      assert id !in compacted.order;
      var added := Added(compacted, id, snap);
      assert ShelfOk(added);
      CappedItems(added);
      CappedOrder(added);
    }
  }

  // ----- a deletion that leaves a mention

  const SHOT := Snap(1, 10)

  lemma FirstStore()
    ensures Performs([Shelf([], map[])], Store(0, 5, SHOT, 0), 100, [Shelf([5], map[5 := SHOT])])
  {
    var before, after := [Shelf([], map[])], [Shelf([5], map[5 := SHOT])];
    assert Compacted(before[0], 0) == before[0];
    assert AllCompacted(before, 0) == before;
    assert Added(before[0], 5, SHOT) == after[0];
    assert Admitted(before, 0, 5, SHOT, 0) == after;
    assert Bytes([5], map[5 := SHOT]) == 1 by {
      assert [5][1..] == [];
    }
    assert Total(after) == 1 by {
      assert after[1..] == [];
    }
    assert EvictsOldestFirst(after, [], 5, 100, after);
  }

  /** A snapshot that a lookup found expired is not found by a deletion, and its mention
      in the order stays. */
  lemma MentionMayStay() returns (states: seq<seq<Shelf>>, calls: seq<Call>)
    ensures Run(states, calls, 100) && |calls| == 3 && calls[2] == Delete(5)
    ensures |states[3]| == 1 && 5 in states[3][0].order && 5 !in states[3][0].items
  {
    var shown, left := [Shelf([5], map[5 := SHOT])], [Shelf([5], map[])];
    states := [[Shelf([], map[])], shown, left, left];
    calls := [Store(0, 5, SHOT, 0), Read(5, 10), Delete(5)];
    FirstStore();
    assert Expired(shown[0], 5, 10) == left[0];
    assert AllExpired(shown, 5, 10) == left;
    assert AllDeleted(left, 5) == left;
  }
}
