/** What the retained snapshots are, as values (storeSnapshot, Snapshot and
    DeleteSnapshot of mediamtx_server.go). `SnapshotStore` holds the objects that
    change in place.

    Every source has a shelf: the order its snapshots were stored in and the
    snapshots by identifier. Reading drops an expired snapshot from the map alone,
    so the order may name identifiers that are gone. */
module SnapshotRetention {
  import opened Basics

  datatype Snap = Snap(bytes: nat, expiry: int)

  datatype Shelf = Shelf(order: seq<nat>, items: map<nat, Snap>)

  const MAXIMUM_SNAPSHOTS := 2

  ghost predicate ShelfOk(s: Shelf) {
    NoDuplicates(s.order) && forall id :: id in s.items ==> id in s.order
  }

  /** No identifier is used by two sources. */
  ghost predicate Separate(shelves: seq<Shelf>) {
    forall i, j, id :: 0 <= i < |shelves| && 0 <= j < |shelves| && id in shelves[i].order && id in shelves[j].order
      ==> i == j
  }

  ghost predicate Tidy(shelves: seq<Shelf>) {
    Separate(shelves) && forall i :: 0 <= i < |shelves| ==> ShelfOk(shelves[i])
  }

  ghost predicate AtMost(shelves: seq<Shelf>, cap: nat) {
    forall i :: 0 <= i < |shelves| ==> |shelves[i].order| <= cap
  }

  ghost predicate Fresh(shelves: seq<Shelf>, id: nat) {
    forall i :: 0 <= i < |shelves| ==> id !in shelves[i].order
  }

  // ----- sizes

  function BytesOf(id: nat, items: map<nat, Snap>): nat {
    if id in items then items[id].bytes else 0
  }

  function Bytes(order: seq<nat>, items: map<nat, Snap>): nat {
    if order == [] then 0 else BytesOf(order[0], items) + Bytes(order[1..], items)
  }

  function ShelfBytes(s: Shelf): nat {
    Bytes(s.order, s.items)
  }

  function Total(shelves: seq<Shelf>): nat {
    if shelves == [] then 0 else ShelfBytes(shelves[0]) + Total(shelves[1..])
  }

  // ----- what the operations do

  predicate IsLive(id: nat, items: map<nat, Snap>, now: int) {
    id in items && items[id].expiry > now
  }

  function KeepLive(id: nat, items: map<nat, Snap>, now: int): seq<nat> {
    if IsLive(id, items, now) then [id] else []
  }

  /** The snapshots of an order list that are there and have not expired. */
  function Live(order: seq<nat>, items: map<nat, Snap>, now: int): seq<nat> {
    if order == [] then []
    else Live(order[..|order| - 1], items, now) + KeepLive(order[|order| - 1], items, now)
  }

  function Compacted(s: Shelf, now: int): Shelf {
    Shelf(Live(s.order, s.items, now), map id | id in s.items && s.items[id].expiry > now :: s.items[id])
  }

  function KeepOther(id: nat, dropped: nat): seq<nat> {
    if id == dropped then [] else [id]
  }

  function Without(order: seq<nat>, id: nat): seq<nat> {
    if order == [] then [] else KeepOther(order[0], id) + Without(order[1..], id)
  }

  function Dropped(s: Shelf, id: nat): Shelf {
    Shelf(Without(s.order, id), s.items - {id})
  }

  function Added(s: Shelf, id: nat, snap: Snap): Shelf {
    Shelf(s.order + [id], s.items[id := snap])
  }

  /** The shelf with its oldest entries dropped until the cap is met. */
  function Capped(s: Shelf): Shelf
    decreases |s.order|
  {
    if |s.order| <= MAXIMUM_SNAPSHOTS then s
    else
      WithoutShortens(s.order, s.order[0]);
      Capped(Dropped(s, s.order[0]))
  }

  function AllCompacted(shelves: seq<Shelf>, now: int): (r: seq<Shelf>)
    ensures |r| == |shelves| && forall i :: 0 <= i < |r| ==> r[i] == Compacted(shelves[i], now)
  {
    seq(|shelves|, i requires 0 <= i < |shelves| => Compacted(shelves[i], now))
  }

  /** All shelves compacted, with the new snapshot on its source's shelf. */
  function Admitted(shelves: seq<Shelf>, source: nat, id: nat, snap: Snap, now: int): seq<Shelf>
    requires source < |shelves|
  {
    var compacted := AllCompacted(shelves, now);
    compacted[source := Capped(Added(compacted[source], id, snap))]
  }

  datatype Victim = Victim(source: nat, id: nat)

  function Evict(shelves: seq<Shelf>, v: Victim): seq<Shelf>
    requires v.source < |shelves|
  {
    shelves[v.source := Dropped(shelves[v.source], v.id)]
  }

  ghost predicate Evictable(shelves: seq<Shelf>, v: Victim, keep: nat) {
    v.source < |shelves| && v.id in shelves[v.source].items && v.id != keep
  }

  /** No snapshot but the new one expires before the victim. */
  ghost predicate IsOldest(shelves: seq<Shelf>, v: Victim, keep: nat) {
    && Evictable(shelves, v, keep)
    && forall o :: Evictable(shelves, o, keep) ==>
         shelves[v.source].items[v.id].expiry <= shelves[o.source].items[o.id].expiry
  }

  /** `after` is `shelves` with the victims evicted one by one: each was the oldest
      left, and none was evicted before it had to be. */
  ghost predicate Evicted(shelves: seq<Shelf>, victims: seq<Victim>, keep: nat, budget: nat, after: seq<Shelf>)
    decreases |victims|
  {
    if victims == [] then after == shelves
    else
      && Total(shelves) > budget
      && IsOldest(shelves, victims[0], keep)
      && Evicted(Evict(shelves, victims[0]), victims[1..], keep, budget, after)
  }

  /** And now everything fits. */
  ghost predicate EvictsOldestFirst(shelves: seq<Shelf>, victims: seq<Victim>, keep: nat, budget: nat, after: seq<Shelf>) {
    Evicted(shelves, victims, keep, budget, after) && Total(after) <= budget
  }

  function Expired(s: Shelf, id: nat, now: int): Shelf {
    if id in s.items && s.items[id].expiry <= now then s.(items := s.items - {id}) else s
  }

  function Deleted(s: Shelf, id: nat): Shelf {
    if id in s.items then Dropped(s, id) else s
  }

  /** A lookup drops the snapshot if it has expired, */
  function AllExpired(shelves: seq<Shelf>, id: nat, now: int): (r: seq<Shelf>)
    ensures |r| == |shelves| && forall i :: 0 <= i < |r| ==> r[i] == Expired(shelves[i], id, now)
  {
    seq(|shelves|, i requires 0 <= i < |shelves| => Expired(shelves[i], id, now))
  }

  /** a removal drops it in any case. */
  function AllDeleted(shelves: seq<Shelf>, id: nat): (r: seq<Shelf>)
    ensures |r| == |shelves| && forall i :: 0 <= i < |r| ==> r[i] == Deleted(shelves[i], id)
  {
    seq(|shelves|, i requires 0 <= i < |shelves| => Deleted(shelves[i], id))
  }

  // ----- lists

  lemma {:induction false} WithoutShortens(order: seq<nat>, id: nat)
    ensures |Without(order, id)| <= |order|
    ensures id in order ==> |Without(order, id)| < |order|
  {
    if order != [] {
      WithoutShortens(order[1..], id);
    }
  }

  lemma {:induction false} WithoutMembers(order: seq<nat>, id: nat, x: nat)
    ensures x in Without(order, id) <==> x in order && x != id
  {
    if order != [] {
      WithoutMembers(order[1..], id, x);
    }
  }

  lemma {:induction false} WithoutDistinct(order: seq<nat>, id: nat)
    requires NoDuplicates(order)
    ensures NoDuplicates(Without(order, id))
  {
    if order != [] {
      WithoutDistinct(order[1..], id);
      WithoutMembers(order[1..], id, order[0]);
    }
  }

  lemma {:induction false} WithoutAbsent(order: seq<nat>, id: nat)
    requires id !in order
    ensures Without(order, id) == order
  {
    if order != [] {
      WithoutAbsent(order[1..], id);
    }
  }

  /** Removing the entry at `k` from an order without duplicates. */
  lemma {:induction false} WithoutAt(order: seq<nat>, k: nat)
    requires NoDuplicates(order) && k < |order|
    ensures Without(order, order[k]) == order[..k] + order[k + 1..]
  {
    if k == 0 {
      WithoutAbsent(order[1..], order[0]);
    } else {
      WithoutAt(order[1..], k - 1);
      assert order[1..][..k - 1] == order[1..k] && order[..k] == [order[0]] + order[1..k];
    }
  }

  lemma {:induction false} LiveMembers(order: seq<nat>, items: map<nat, Snap>, now: int, x: nat)
    ensures x in Live(order, items, now) <==> x in order && IsLive(x, items, now)
  {
    if order != [] {
      var last := |order| - 1;
      LiveMembers(order[..last], items, now, x);
      assert x in order <==> x in order[..last] || x == order[last];
    }
  }

  lemma {:induction false} LiveDistinct(order: seq<nat>, items: map<nat, Snap>, now: int)
    requires NoDuplicates(order)
    ensures NoDuplicates(Live(order, items, now))
    ensures |Live(order, items, now)| <= |order|
  {
    if order != [] {
      var last := |order| - 1;
      LiveDistinct(order[..last], items, now);
      LiveMembers(order[..last], items, now, order[last]);
    }
  }

  lemma LiveNext(order: seq<nat>, k: nat, items: map<nat, Snap>, now: int)
    requires k < |order|
    ensures Live(order[..k + 1], items, now) == Live(order[..k], items, now) + KeepLive(order[k], items, now)
  {
    assert order[..k + 1][..k] == order[..k];
  }

  // ----- sizes change as expected

  lemma {:induction false} BytesAgree(order: seq<nat>, items: map<nat, Snap>, others: map<nat, Snap>)
    requires forall id :: id in order ==> BytesOf(id, items) == BytesOf(id, others)
    ensures Bytes(order, items) == Bytes(order, others)
  {
    if order != [] {
      BytesAgree(order[1..], items, others);
    }
  }

  lemma {:induction false} BytesConcat(a: seq<nat>, b: seq<nat>, items: map<nat, Snap>)
    ensures Bytes(a + b, items) == Bytes(a, items) + Bytes(b, items)
  {
    if a == [] {
      assert a + b == b;
    } else {
      BytesConcat(a[1..], b, items);
      assert (a + b)[0] == a[0] && (a + b)[1..] == a[1..] + b;
    }
  }

  lemma {:induction false} BytesWithout(order: seq<nat>, items: map<nat, Snap>, id: nat)
    requires NoDuplicates(order) && id in order
    ensures Bytes(Without(order, id), items - {id}) == Bytes(order, items) - BytesOf(id, items)
  {
    var left := items - {id};
    if order[0] == id {
      WithoutAbsent(order[1..], id);
      BytesAgree(order[1..], items, left);
      assert Without(order, id) == order[1..];
    } else {
      BytesWithout(order[1..], items, id);
      assert Without(order, id)[1..] == Without(order[1..], id);
    }
  }

  lemma {:induction false} TotalUpdate(shelves: seq<Shelf>, i: nat, s: Shelf)
    requires i < |shelves|
    ensures Total(shelves[i := s]) == Total(shelves) - ShelfBytes(shelves[i]) + ShelfBytes(s)
  {
    if i > 0 {
      TotalUpdate(shelves[1..], i - 1, s);
      assert shelves[i := s][1..] == shelves[1..][i - 1 := s];
    } else {
      assert shelves[i := s][1..] == shelves[1..];
    }
  }

  lemma {:induction false} TotalNext(shelves: seq<Shelf>, i: nat)
    requires i < |shelves|
    ensures Total(shelves[..i + 1]) == Total(shelves[..i]) + ShelfBytes(shelves[i])
  {
    if i > 0 {
      TotalNext(shelves[1..], i - 1);
      assert shelves[..i + 1][1..] == shelves[1..][..i] && shelves[..i][1..] == shelves[1..][..i - 1];
    }
  }

  lemma EvictBytes(shelves: seq<Shelf>, v: Victim)
    requires v.source < |shelves| && ShelfOk(shelves[v.source]) && v.id in shelves[v.source].order
    ensures Total(Evict(shelves, v)) == Total(shelves) - BytesOf(v.id, shelves[v.source].items)
  {
    var s := shelves[v.source];
    BytesWithout(s.order, s.items, v.id);
    TotalUpdate(shelves, v.source, Dropped(s, v.id));
  }

  /** When only one snapshot is left, everything together has its size. */
  lemma {:induction false} OnlyOneIsItsSize(order: seq<nat>, items: map<nat, Snap>, keep: nat)
    requires NoDuplicates(order)
    requires forall id :: id in items ==> id == keep
    ensures Bytes(order, items) == if keep in order then BytesOf(keep, items) else 0
  {
    if order != [] {
      OnlyOneIsItsSize(order[1..], items, keep);
      assert keep in order <==> order[0] == keep || keep in order[1..];
    }
  }

  ghost predicate OnlyHolds(shelves: seq<Shelf>, keep: nat) {
    forall i, id :: 0 <= i < |shelves| && id in shelves[i].items ==> id == keep
  }

  lemma {:induction false} OnlyKeptTotal(shelves: seq<Shelf>, source: nat, keep: nat)
    requires Tidy(shelves) && OnlyHolds(shelves, keep)
    requires source < |shelves| && keep in shelves[source].order
    ensures Total(shelves) == BytesOf(keep, shelves[source].items)
  {
    var rest := shelves[1..];
    OnlyOneIsItsSize(shelves[0].order, shelves[0].items, keep);
    if source > 0 {
      assert Tidy(rest) && OnlyHolds(rest, keep);
      OnlyKeptTotal(rest, source - 1, keep);
    } else {
      EmptyTotal(rest, keep);
    }
  }

  lemma {:induction false} EmptyTotal(shelves: seq<Shelf>, keep: nat)
    requires forall i :: 0 <= i < |shelves| ==> NoDuplicates(shelves[i].order) && keep !in shelves[i].order
    requires OnlyHolds(shelves, keep)
    ensures Total(shelves) == 0
  {
    if shelves != [] {
      OnlyOneIsItsSize(shelves[0].order, shelves[0].items, keep);
      EmptyTotal(shelves[1..], keep);
    }
  }

  // ----- the shelves stay tidy and bounded

  lemma DroppedOk(s: Shelf, id: nat)
    requires ShelfOk(s)
    ensures ShelfOk(Dropped(s, id))
    ensures |Dropped(s, id).order| <= |s.order|
    ensures forall x :: x in Dropped(s, id).order <==> x in s.order && x != id
  {
    WithoutShortens(s.order, id);
    WithoutDistinct(s.order, id);
    forall x ensures x in Without(s.order, id) <==> x in s.order && x != id {
      WithoutMembers(s.order, id, x);
    }
  }

  lemma CompactedOk(s: Shelf, now: int)
    requires ShelfOk(s)
    ensures ShelfOk(Compacted(s, now))
    ensures |Compacted(s, now).order| <= |s.order|
    ensures forall x :: x in Compacted(s, now).order <==> x in s.order && IsLive(x, s.items, now)
  {
    LiveDistinct(s.order, s.items, now);
    forall x ensures x in Live(s.order, s.items, now) <==> x in s.order && IsLive(x, s.items, now) {
      LiveMembers(s.order, s.items, now, x);
    }
  }

  /** The last two entries of an order. */
  function Newest(order: seq<nat>): seq<nat> {
    if |order| <= MAXIMUM_SNAPSHOTS then order else order[|order| - MAXIMUM_SNAPSHOTS..]
  }

  lemma NewestOfRest(order: seq<nat>)
    requires |order| > MAXIMUM_SNAPSHOTS
    ensures Newest(order[1..]) == Newest(order)
  {
  }

  /** The cap keeps the last two entries of the order. */
  lemma {:induction false} CappedOrder(s: Shelf)
    requires NoDuplicates(s.order)
    ensures Capped(s).order == Newest(s.order)
    ensures |Capped(s).order| == if |s.order| < 2 then |s.order| else 2
    decreases |s.order|
  {
    if |s.order| > MAXIMUM_SNAPSHOTS {
      var next := Dropped(s, s.order[0]);
      WithoutAt(s.order, 0);
      assert next.order == s.order[1..];
      CappedOrder(next);
      NewestOfRest(s.order);
    }
  }

  /** And of the snapshots it keeps exactly theirs. */
  lemma {:induction false} CappedItems(s: Shelf)
    requires ShelfOk(s)
    ensures ShelfOk(Capped(s))
    ensures forall x :: x in Capped(s).items <==> x in s.items && x in Capped(s).order
    ensures forall x :: x in Capped(s).items ==> Capped(s).items[x] == s.items[x]
    decreases |s.order|
  {
    if |s.order| > MAXIMUM_SNAPSHOTS {
      var next := Dropped(s, s.order[0]);
      DroppedOk(s, s.order[0]);
      WithoutShortens(s.order, s.order[0]);
      CappedItems(next);
      CappedOrder(next);
    }
  }

  ghost predicate Holds(shelves: seq<Shelf>, source: nat, id: nat, snap: Snap) {
    source < |shelves| && id in shelves[source].items && shelves[source].items[id] == snap
  }

  lemma AddedOk(s: Shelf, id: nat, snap: Snap)
    requires ShelfOk(s) && id !in s.order
    ensures ShelfOk(Capped(Added(s, id, snap)))
    ensures |Capped(Added(s, id, snap)).order| <= MAXIMUM_SNAPSHOTS
    ensures forall x :: x in Capped(Added(s, id, snap)).order ==> x in s.order || x == id
    ensures id in Capped(Added(s, id, snap)).items && Capped(Added(s, id, snap)).items[id] == snap
  {
    var added := Added(s, id, snap);
    assert ShelfOk(added);
    CappedOrder(added);
    CappedItems(added);
    var capped := Capped(added);
    assert capped.order[|capped.order| - 1] == id;
  }

  /** A new snapshot with a new identifier leaves the shelves tidy and capped, and is there. */
  lemma AdmittedOk(shelves: seq<Shelf>, source: nat, id: nat, snap: Snap, now: int)
    requires Tidy(shelves) && AtMost(shelves, MAXIMUM_SNAPSHOTS) && Fresh(shelves, id) && source < |shelves|
    ensures Tidy(Admitted(shelves, source, id, snap, now))
    ensures AtMost(Admitted(shelves, source, id, snap, now), MAXIMUM_SNAPSHOTS)
    ensures Holds(Admitted(shelves, source, id, snap, now), source, id, snap)
  {
    var compacted := AllCompacted(shelves, now);
    forall i | 0 <= i < |shelves|
      ensures ShelfOk(compacted[i]) && |compacted[i].order| <= |shelves[i].order|
      ensures forall x :: x in compacted[i].order ==> x in shelves[i].order
    {
      CompactedOk(shelves[i], now);
    }
    AddedOk(compacted[source], id, snap);
    var after := Admitted(shelves, source, id, snap, now);
    forall i | 0 <= i < |after|
      ensures ShelfOk(after[i])
      ensures forall x :: x in after[i].order ==> x in shelves[i].order || (i == source && x == id)
    {
    }
  }

  lemma EvictOk(shelves: seq<Shelf>, v: Victim)
    requires Tidy(shelves) && v.source < |shelves|
    ensures Tidy(Evict(shelves, v))
    ensures forall cap: nat :: AtMost(shelves, cap) ==> AtMost(Evict(shelves, v), cap)
  {
    DroppedOk(shelves[v.source], v.id);
    forall i | 0 <= i < |shelves|
      ensures forall x :: x in Evict(shelves, v)[i].order ==> x in shelves[i].order
    {
    }
  }

  // ----- what evicting the oldest first amounts to

  /** It fits in the end, keeps the shelves tidy, and never takes the new snapshot. */
  lemma {:induction false} EvictionKeepsTheNewOne(shelves: seq<Shelf>, victims: seq<Victim>, keep: nat, budget: nat,
                                                 after: seq<Shelf>, source: nat, snap: Snap)
    requires EvictsOldestFirst(shelves, victims, keep, budget, after)
    requires Tidy(shelves) && AtMost(shelves, MAXIMUM_SNAPSHOTS) && Holds(shelves, source, keep, snap)
    ensures Tidy(after) && AtMost(after, MAXIMUM_SNAPSHOTS) && Total(after) <= budget
    ensures Holds(after, source, keep, snap) && |after| == |shelves|
    decreases |victims|
  {
    if victims != [] {
      EvictOk(shelves, victims[0]);
      EvictionKeepsTheNewOne(Evict(shelves, victims[0]), victims[1..], keep, budget, after, source, snap);
    }
  }

  /** Exactly the victims are gone; every other snapshot is untouched. */
  lemma {:induction false} OnlyVictimsAreGone(shelves: seq<Shelf>, victims: seq<Victim>, keep: nat, budget: nat,
                                             after: seq<Shelf>, source: nat, id: nat)
    requires EvictsOldestFirst(shelves, victims, keep, budget, after) && source < |shelves|
    ensures |after| == |shelves|
    ensures id in after[source].items <==> id in shelves[source].items && Victim(source, id) !in victims
    ensures id in after[source].items ==> after[source].items[id] == shelves[source].items[id]
    decreases |victims|
  {
    if victims != [] {
      OnlyVictimsAreGone(Evict(shelves, victims[0]), victims[1..], keep, budget, after, source, id);
      assert Victim(source, id) in victims <==> victims[0] == Victim(source, id) || Victim(source, id) in victims[1..];
    }
  }

  function ExpiryOf(shelves: seq<Shelf>, v: Victim): int {
    if v.source < |shelves| && v.id in shelves[v.source].items then shelves[v.source].items[v.id].expiry else 0
  }

  function SizeOf(shelves: seq<Shelf>, v: Victim): nat {
    if v.source < |shelves| then BytesOf(v.id, shelves[v.source].items) else 0
  }

  /** The victims leave in the order they would have expired. */
  lemma {:induction false} VictimsByExpiry(shelves: seq<Shelf>, victims: seq<Victim>, keep: nat, budget: nat,
                                          after: seq<Shelf>, j: nat, k: nat)
    requires EvictsOldestFirst(shelves, victims, keep, budget, after) && j <= k < |victims|
    ensures Evictable(shelves, victims[k], keep)
    ensures ExpiryOf(shelves, victims[j]) <= ExpiryOf(shelves, victims[k])
    decreases |victims|
  {
    if k > 0 {
      var next := Evict(shelves, victims[0]);
      VictimsByExpiry(next, victims[1..], keep, budget, after, if j == 0 then 0 else j - 1, k - 1);
      assert victims[1..][k - 1] == victims[k];
      if j > 0 {
        VictimsByExpiry(next, victims[1..], keep, budget, after, j - 1, j - 1);
      }
    }
  }

  /** No victim too many: with the last one back, it would not fit. */
  lemma {:induction false} NoVictimTooMany(shelves: seq<Shelf>, victims: seq<Victim>, keep: nat, budget: nat, after: seq<Shelf>)
    requires EvictsOldestFirst(shelves, victims, keep, budget, after) && victims != [] && Tidy(shelves)
    ensures Total(after) + SizeOf(shelves, victims[|victims| - 1]) > budget
    decreases |victims|
  {
    var next := Evict(shelves, victims[0]);
    EvictBytes(shelves, victims[0]);
    EvictOk(shelves, victims[0]);
    if |victims| > 1 {
      NoVictimTooMany(next, victims[1..], keep, budget, after);
      VictimsByExpiry(next, victims[1..], keep, budget, after, |victims| - 2, |victims| - 2);
    } else {
      assert victims[1..] == [] && Evicted(next, [], keep, budget, after);
    }
  }

  /** A snapshot that fits the budget alone always leaves something to evict while
      the budget is exceeded: giving up is unreachable. */
  lemma SomethingToEvict(shelves: seq<Shelf>, source: nat, keep: nat, snap: Snap, budget: nat)
    requires Tidy(shelves) && Holds(shelves, source, keep, snap)
    requires snap.bytes <= budget < Total(shelves)
    ensures exists v :: Evictable(shelves, v, keep)
  {
    if forall v :: !Evictable(shelves, v, keep) {
      forall i, id | 0 <= i < |shelves| && id in shelves[i].items ensures id == keep {
        assert !Evictable(shelves, Victim(i, id), keep);
      }
      OnlyKeptTotal(shelves, source, keep);
      assert false;
    }
  }

  lemma AddingKeeps(shelves: seq<Shelf>, source: nat, id: nat, snap: Snap, now: int)
    requires Tidy(shelves) && Fresh(shelves, id) && source < |shelves|
    ensures var compacted := AllCompacted(shelves, now);
            var added := compacted[source := Added(compacted[source], id, snap)];
            Tidy(added) && Total(added) == Total(compacted) + snap.bytes
  {
    var compacted := AllCompacted(shelves, now);
    forall i | 0 <= i < |shelves|
      ensures ShelfOk(compacted[i])
      ensures forall x :: x in compacted[i].order ==> x in shelves[i].order
    {
      CompactedOk(shelves[i], now);
    }
    var s := compacted[source];
    var added := compacted[source := Added(s, id, snap)];
    BytesConcat(s.order, [id], s.items[id := snap]);
    BytesAgree(s.order, s.items, s.items[id := snap]);
    TotalUpdate(compacted, source, Added(s, id, snap));
    forall i | 0 <= i < |added|
      ensures ShelfOk(added[i])
      ensures forall x :: x in added[i].order ==> x in shelves[i].order || (i == source && x == id)
    {
    }
  }

  // ----- an eviction under way

  lemma {:induction false} EvictedNext(shelves: seq<Shelf>, victims: seq<Victim>, keep: nat, budget: nat, now: seq<Shelf>, v: Victim)
    requires Evicted(shelves, victims, keep, budget, now)
    requires Total(now) > budget && IsOldest(now, v, keep)
    ensures Evicted(shelves, victims + [v], keep, budget, Evict(now, v))
    decreases |victims|
  {
    var longer := victims + [v];
    if victims == [] {
      assert longer[1..] == [] && longer[0] == v;
    } else {
      EvictedNext(Evict(shelves, victims[0]), victims[1..], keep, budget, now, v);
      assert longer[1..] == victims[1..] + [v] && longer[0] == victims[0];
    }
  }

  function Entries(shelves: seq<Shelf>): nat {
    if shelves == [] then 0 else |shelves[0].order| + Entries(shelves[1..])
  }

  lemma {:induction false} EvictShortens(shelves: seq<Shelf>, v: Victim)
    requires v.source < |shelves| && v.id in shelves[v.source].order
    ensures Entries(Evict(shelves, v)) < Entries(shelves)
  {
    WithoutShortens(shelves[v.source].order, v.id);
    if v.source > 0 {
      EvictShortens(shelves[1..], Victim(v.source - 1, v.id));
      assert Evict(shelves, v)[1..] == Evict(shelves[1..], Victim(v.source - 1, v.id));
    } else {
      assert Evict(shelves, v)[1..] == shelves[1..];
    }
  }

  lemma EvictingOldest(shelves: seq<Shelf>, v: Victim, source: nat, keep: nat, snap: Snap)
    requires Tidy(shelves) && Evictable(shelves, v, keep) && Holds(shelves, source, keep, snap)
    ensures ShelfOk(shelves[v.source]) && v.id in shelves[v.source].order
    ensures Tidy(Evict(shelves, v)) && Holds(Evict(shelves, v), source, keep, snap)
    ensures Entries(Evict(shelves, v)) < Entries(shelves)
  {
    EvictOk(shelves, v);
    EvictShortens(shelves, v);
  }

  lemma ReplacedTwice(shelves: seq<Shelf>, i: nat, first: Shelf, second: Shelf)
    requires i < |shelves|
    ensures shelves[i := first][i := second] == shelves[i := second]
  {
  }

  // ----- lookups and removals

  lemma {:induction false} TotalAtMost(shelves: seq<Shelf>, others: seq<Shelf>)
    requires |others| == |shelves|
    requires forall i :: 0 <= i < |shelves| ==> ShelfBytes(others[i]) <= ShelfBytes(shelves[i])
    ensures Total(others) <= Total(shelves)
  {
    if shelves != [] {
      TotalAtMost(shelves[1..], others[1..]);
    }
  }

  lemma {:induction false} BytesShrink(order: seq<nat>, items: map<nat, Snap>, id: nat)
    ensures Bytes(order, items - {id}) <= Bytes(order, items)
  {
    if order != [] {
      BytesShrink(order[1..], items, id);
    }
  }

  ghost predicate Bounded(shelves: seq<Shelf>, budget: nat) {
    Tidy(shelves) && AtMost(shelves, MAXIMUM_SNAPSHOTS) && Total(shelves) <= budget
  }

  lemma AllExpiredOk(shelves: seq<Shelf>, id: nat, now: int)
    requires Tidy(shelves)
    ensures Tidy(AllExpired(shelves, id, now)) && Total(AllExpired(shelves, id, now)) <= Total(shelves)
    ensures AtMost(shelves, MAXIMUM_SNAPSHOTS) ==> AtMost(AllExpired(shelves, id, now), MAXIMUM_SNAPSHOTS)
  {
    var after := AllExpired(shelves, id, now);
    forall i | 0 <= i < |shelves|
      ensures ShelfOk(after[i]) && after[i].order == shelves[i].order && ShelfBytes(after[i]) <= ShelfBytes(shelves[i])
    {
      BytesShrink(shelves[i].order, shelves[i].items, id);
    }
    TotalAtMost(shelves, after);
  }

  lemma AllDeletedOk(shelves: seq<Shelf>, id: nat)
    requires Tidy(shelves)
    ensures Tidy(AllDeleted(shelves, id)) && Total(AllDeleted(shelves, id)) <= Total(shelves)
    ensures AtMost(shelves, MAXIMUM_SNAPSHOTS) ==> AtMost(AllDeleted(shelves, id), MAXIMUM_SNAPSHOTS)
  {
    var after := AllDeleted(shelves, id);
    forall i | 0 <= i < |shelves|
      ensures ShelfOk(after[i]) && |after[i].order| <= |shelves[i].order| && ShelfBytes(after[i]) <= ShelfBytes(shelves[i])
      ensures forall x :: x in after[i].order ==> x in shelves[i].order
    {
      DroppedOk(shelves[i], id);
      if id in shelves[i].items {
        BytesWithout(shelves[i].order, shelves[i].items, id);
      }
    }
    TotalAtMost(shelves, after);
  }

  // ----- exactly what they take away

  /** The order without its one mention of `id`, if there is one. */
  ghost predicate CutOut(before: seq<nat>, id: nat, after: seq<nat>) {
    if id in before then exists k :: 0 <= k < |before| && before[k] == id && after == before[..k] + before[k + 1..]
    else after == before
  }

  /** Nothing but this snapshot is touched on the shelf. */
  ghost predicate OthersStay(before: Shelf, id: nat, after: Shelf) {
    forall other :: other != id ==>
      && (other in after.items <==> other in before.items)
      && (other in after.items ==> after.items[other] == before.items[other])
  }

  /** What a removal leaves of one source: the snapshot is gone, all others are as they
      were, and the order loses its one mention of it. */
  ghost predicate TakenOut(before: Shelf, id: nat, after: Shelf) {
    && id !in after.items
    && OthersStay(before, id, after)
    && (if id in before.items then CutOut(before.order, id, after.order) && id !in after.order else after.order == before.order)
  }

  lemma DeletedIsTakenOut(s: Shelf, id: nat)
    requires ShelfOk(s)
    ensures TakenOut(s, id, Deleted(s, id))
  {
    if id in s.items {
      var k :| 0 <= k < |s.order| && s.order[k] == id;
      WithoutAt(s.order, k);
      DroppedOk(s, id);
    }
  }

  /** What a lookup leaves of one source: the snapshot, unless it has expired, and
      everything else. */
  ghost predicate LookedAt(before: Shelf, id: nat, now: int, after: Shelf) {
    && after.order == before.order
    && OthersStay(before, id, after)
    && (id in after.items <==> IsLive(id, before.items, now))
    && (id in after.items ==> after.items[id] == before.items[id])
  }

  lemma ExpiredIsLookedAt(s: Shelf, id: nat, now: int)
    ensures LookedAt(s, id, now, Expired(s, id, now))
  {
  }

  lemma AllAreLookedAt(shelves: seq<Shelf>, id: nat, now: int)
    ensures var after := AllExpired(shelves, id, now);
            forall i :: 0 <= i < |after| ==> LookedAt(shelves[i], id, now, after[i])
  {
    forall i | 0 <= i < |shelves| ensures LookedAt(shelves[i], id, now, AllExpired(shelves, id, now)[i]) {
      ExpiredIsLookedAt(shelves[i], id, now);
    }
  }

  lemma AllAreTakenOut(shelves: seq<Shelf>, id: nat)
    requires Tidy(shelves)
    ensures var after := AllDeleted(shelves, id);
            forall i :: 0 <= i < |after| ==> TakenOut(shelves[i], id, after[i])
  {
    forall i | 0 <= i < |shelves| ensures TakenOut(shelves[i], id, AllDeleted(shelves, id)[i]) {
      DeletedIsTakenOut(shelves[i], id);
    }
  }

  /** A removal forgets the identifier, but for one case: a lookup dropped the expired
      snapshot from the map before, and its mention in the order is left to the next
      store. */
  lemma DeletedIsForgottenExactly(s: Shelf, id: nat)
    requires ShelfOk(s)
    ensures id in Deleted(s, id).order <==> id in s.order && id !in s.items
  {
    DeletedIsTakenOut(s, id);
  }

  /** The shelves while a lookup has looked at those before n. */
  ghost predicate ExpiredBefore(before: seq<Shelf>, now: seq<Shelf>, n: nat, id: nat, time: int) {
    |now| == |before| && forall k :: 0 <= k < |now| ==> now[k] == if k < n then Expired(before[k], id, time) else before[k]
  }

  lemma HeldNowhereElse(shelves: seq<Shelf>, i: nat, id: nat)
    requires Tidy(shelves) && i < |shelves| && id in shelves[i].items
    ensures id in shelves[i].order && ShelfOk(shelves[i])
    ensures forall k :: 0 <= k < |shelves| && id in shelves[k].items ==> k == i
  {
  }

  /** Removing the one snapshot there is of this identifier removes it everywhere. */
  lemma EvictingDeletes(shelves: seq<Shelf>, i: nat, id: nat)
    requires Tidy(shelves) && i < |shelves| && id in shelves[i].items
    ensures Evict(shelves, Victim(i, id)) == AllDeleted(shelves, id)
  {
    HeldNowhereElse(shelves, i, id);
  }

  lemma NothingToDelete(shelves: seq<Shelf>, id: nat)
    requires forall k :: 0 <= k < |shelves| ==> id !in shelves[k].items
    ensures AllDeleted(shelves, id) == shelves
  {
  }

  lemma LiveIsNowhereElse(shelves: seq<Shelf>, i: nat, id: nat, now: int)
    requires Tidy(shelves) && i < |shelves| && IsLive(id, shelves[i].items, now)
    ensures forall k :: i < k < |shelves| ==> Expired(shelves[k], id, now) == shelves[k]
  {
    HeldNowhereElse(shelves, i, id);
  }
}
