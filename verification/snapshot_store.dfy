/** The retained snapshots of mediamtx_server.go as objects that change in place. */
module SnapshotStore {
  import opened Basics
  import opened SnapshotRetention

  /** What stays of the order, and the map, when the entries before `read` have been
      looked at. */
  ghost predicate Swept(items: map<nat, Snap>, was: map<nat, Snap>, order: seq<nat>, live: seq<nat>, read: nat, now: int) {
    && read <= |order|
    && live == Live(order[..read], was, now)
    && (forall id :: id in items <==> id in was && (id in order[..read] ==> was[id].expiry > now))
    && (forall id :: id in items ==> items[id] == was[id])
  }

  lemma SweptNext(items: map<nat, Snap>, was: map<nat, Snap>, order: seq<nat>, live: seq<nat>, read: nat, now: int)
    requires NoDuplicates(order) && read < |order| && Swept(items, was, order, live, read, now)
    ensures var id := order[read];
            && (id in items <==> id in was)
            && (id in items ==> items[id] == was[id])
            && (id !in was ==> Swept(items, was, order, live, read + 1, now))
            && (id in was && was[id].expiry <= now ==> Swept(items - {id}, was, order, live, read + 1, now))
            && (IsLive(id, was, now) ==> Swept(items, was, order, live + [id], read + 1, now))
    ensures Bytes(live + [order[read]], was) == Bytes(live, was) + BytesOf(order[read], was)
  {
    var id := order[read];
    assert id !in order[..read];
    LiveNext(order, read, was, now);
    BytesConcat(live, [id], was);
    assert order[..read + 1] == order[..read] + [id];
  }

  lemma SweptAll(items: map<nat, Snap>, was: map<nat, Snap>, order: seq<nat>, live: seq<nat>, now: int)
    requires ShelfOk(Shelf(order, was)) && Swept(items, was, order, live, |order|, now)
    ensures Shelf(live, items) == Compacted(Shelf(order, was), now)
    ensures Bytes(live, items) == Bytes(live, was)
  {
    assert order[..|order|] == order;
    assert items == Compacted(Shelf(order, was), now).items;
    forall x | x in live ensures BytesOf(x, was) == BytesOf(x, items) {
      LiveMembers(order, was, now, x);
    }
    BytesAgree(live, was, items);
  }

  /** A source's snapshots: the order list is a prefix of a buffer that is filtered,
      shifted and appended to in place. */
  class SnapshotShelf {
    var buffer: array<nat>
    var len: nat
    var items: map<nat, Snap>

    constructor ()
      ensures InBounds() && View() == Shelf([], map[])
      ensures fresh(buffer)
    {
      buffer := new nat[0];
      len := 0;
      items := map[];
    }

    ghost predicate InBounds()
      reads this
    {
      len <= buffer.Length
    }

    ghost function View(): Shelf
      requires InBounds()
      reads this, buffer
    {
      Shelf(buffer[..len], items)
    }

    /** The entries before `write` are what stays of those before `read`; the entries
        from `read` on are as they were. */
    ghost predicate Sweeping(was: Shelf, live: seq<nat>, write: nat, read: nat, now: int)
      reads this, buffer
    {
      && write == |live| <= read <= len == |was.order| <= buffer.Length
      && (forall k :: 0 <= k < write ==> buffer[k] == live[k])
      && (forall k :: read <= k < len ==> buffer[k] == was.order[k])
      && Swept(items, was.items, was.order, live, read, now)
    }

    /** Looks at one entry; `kept` is whether it stays. */
    method SweepEntry(write: nat, read: nat, now: int, ghost was: Shelf, ghost live: seq<nat>) returns (kept: bool, bytes: nat)
      requires ShelfOk(was) && Sweeping(was, live, write, read, now) && read < len
      modifies this`items, buffer
      ensures kept ==> Sweeping(was, live + [was.order[read]], write + 1, read + 1, now)
      ensures kept ==> Bytes(live + [was.order[read]], was.items) == Bytes(live, was.items) + bytes
      ensures !kept ==> Sweeping(was, live, write, read + 1, now) && bytes == 0
    {
      var id := buffer[read];
      SweptNext(items, was.items, was.order, live, read, now);
      kept, bytes := false, 0;
      if id in items {
        if items[id].expiry <= now {
          items := items - {id};
        } else {
          kept, bytes := true, items[id].bytes;
          buffer[write] := id;
        }
      }
    }

    /** Drops what is gone or has expired; `retained` is the size of what stays. */
    method Compact(now: int) returns (retained: nat)
      requires InBounds() && ShelfOk(View())
      modifies this`len, this`items, buffer
      ensures InBounds() && View() == Compacted(old(View()), now)
      ensures retained == ShelfBytes(View())
    {
      ghost var was, live := View(), [];
      var read, write := 0, 0;
      retained := 0;
      while read < len
        invariant Sweeping(was, live, write, read, now)
        invariant retained == Bytes(live, was.items)
      {
        var kept, bytes := SweepEntry(write, read, now, was, live);
        if kept {
          live := live + [was.order[read]];
          write := write + 1;
          retained := retained + bytes;
        }
        read := read + 1;
      }
      len := write;
      assert buffer[..len] == live;
      SweptAll(items, was.items, was.order, live, now);
    }

    method Add(id: nat, snap: Snap)
      requires InBounds()
      modifies this, buffer
      ensures buffer == old(buffer) || fresh(buffer)
      ensures InBounds() && View() == Added(old(View()), id, snap)
    {
      if len == buffer.Length {
        var bigger := new nat[2 * len + 1];
        forall i | 0 <= i < len {
          bigger[i] := buffer[i];
        }
        buffer := bigger;
      }
      buffer[len] := id;
      len := len + 1;
      items := items[id := snap];
    }

    /** Looks up a snapshot, dropping it from the map alone if it has expired. */
    method Read(id: nat, now: int) returns (found: bool, snap: Snap)
      requires InBounds()
      modifies this`items
      ensures InBounds() && View() == Expired(old(View()), id, now)
      ensures found <==> IsLive(id, old(items), now)
      ensures found ==> snap == old(items)[id]
    {
      found, snap := id in items, Snap(0, 0);
      if found {
        snap := items[id];
        if snap.expiry <= now {
          items := items - {id};
          found := false;
        }
      }
    }

    /** Takes the entry at `index` out of the order, moving the later ones down. */
    method Cut(index: nat)
      requires InBounds() && index < len
      modifies this`len, buffer
      ensures InBounds()
      ensures buffer[..len] == old(buffer[..index] + buffer[index + 1..len])
    {
      ghost var order := buffer[..len];
      var next := index;
      while next + 1 < len
        invariant index <= next < len == |order| <= buffer.Length
        invariant forall k :: 0 <= k < index ==> buffer[k] == order[k]
        invariant forall k :: index <= k < next ==> buffer[k] == order[k + 1]
        invariant forall k :: next <= k < len ==> buffer[k] == order[k]
      {
        buffer[next] := buffer[next + 1];
        next := next + 1;
      }
      len := len - 1;
      assert buffer[..len] == order[..index] + order[index + 1..];
    }

    /** Removes a snapshot and its first mention in the order; `freed` is its size. */
    method Remove(id: nat) returns (freed: nat)
      requires InBounds() && NoDuplicates(View().order)
      modifies this`len, this`items, buffer
      ensures InBounds() && View() == Dropped(old(View()), id)
      ensures freed == BytesOf(id, old(items))
    {
      ghost var order := buffer[..len];
      freed := if id in items then items[id].bytes else 0;
      items := items - {id};
      var index := 0;
      while index < len && buffer[index] != id
        invariant index <= len
        invariant id !in order[..index]
      {
        index := index + 1;
      }
      if index == len {
        assert order[..index] == order;
        WithoutAbsent(order, id);
      } else {
        WithoutAt(order, index);
        Cut(index);
      }
    }
  }

  class Store {
    const budget: nat
    const shelves: seq<SnapshotShelf>
    /** What the shelves hold, as values. */
    ghost var contents: seq<Shelf>

    ghost predicate Apart()
      reads this, shelves
    {
      && (forall i, j :: 0 <= i < j < |shelves| ==> shelves[i] != shelves[j] && shelves[i].buffer != shelves[j].buffer)
      && (forall i :: 0 <= i < |shelves| ==> shelves[i].InBounds())
    }

    ghost function Buffers(): set<object>
      reads shelves
    {
      set s | s in shelves :: s.buffer
    }

    ghost predicate Shows()
      reads this, shelves, Buffers()
    {
      && Apart()
      && |contents| == |shelves|
      && forall i :: 0 <= i < |shelves| ==> shelves[i].View() == contents[i]
    }

    twostate predicate SameBuffers()
      reads this, shelves
    {
      forall k :: 0 <= k < |shelves| ==> shelves[k].buffer == old(shelves[k].buffer)
    }

    twostate predicate BuffersKeptOrNew()
      reads this, shelves
    {
      forall k :: 0 <= k < |shelves| ==> shelves[k].buffer == old(shelves[k].buffer) || fresh(shelves[k].buffer)
    }

    /** What holds between any two calls. */
    ghost predicate Valid()
      reads this, shelves, Buffers()
    {
      Shows() && Bounded(contents, budget)
    }

    /** The other shelves still hold what they held. */
    twostate lemma OthersShow(i: nat)
      requires old(Shows()) && i < |shelves| && Apart()
      requires forall k :: 0 <= k < |shelves| && k != i ==> unchanged(shelves[k]) && unchanged(shelves[k].buffer)
      requires contents == old(contents)[i := shelves[i].View()]
      ensures Shows()
    {
    }

    method CompactOne(i: nat, now: int) returns (retained: nat)
      requires Shows() && i < |shelves| && ShelfOk(contents[i])
      modifies this`contents, shelves[i], shelves[i].buffer
      ensures SameBuffers()
      ensures Shows() && contents == old(contents)[i := Compacted(old(contents)[i], now)]
      ensures retained == ShelfBytes(contents[i])
    {
      assert shelves[i].View() == contents[i];
      retained := shelves[i].Compact(now);
      contents := contents[i := shelves[i].View()];
      OthersShow(i);
    }

    /** Compacts every source's shelf; `retained` is the size of what stays. */
    method CompactAll(now: int) returns (retained: nat)
      requires Shows() && Tidy(contents)
      modifies this`contents, shelves, Buffers()
      ensures SameBuffers()
      ensures Shows() && contents == AllCompacted(old(contents), now)
      ensures retained == Total(contents)
    {
      ghost var goal := AllCompacted(contents, now);
      retained := 0;
      var i := 0;
      while i < |shelves|
        invariant i <= |shelves| == |goal|
        invariant SameBuffers()
        invariant Shows()
        invariant forall k :: 0 <= k < |goal| ==> contents[k] == if k < i then goal[k] else old(contents)[k]
        invariant retained == Total(goal[..i])
      {
        var bytes := CompactOne(i, now);
        TotalNext(goal, i);
        retained := retained + bytes;
        i := i + 1;
      }
      assert goal[..i] == goal == contents;
    }

    /** The snapshot other than `keep` that expires first, if there is one. */
    method FindOldest(keep: nat) returns (found: bool, oldest: Victim)
      requires Shows()
      ensures Shows()
      ensures found ==> IsOldest(contents, oldest, keep)
      ensures !found ==> forall o :: !Evictable(contents, o, keep)
    {
      found, oldest := false, Victim(0, 0);
      var i := 0;
      while i < |shelves|
        invariant i <= |shelves|
        invariant OldestSoFar(found, oldest, keep, i, {})
      {
        var left := shelves[i].items.Keys;
        assert contents[i] == shelves[i].View();
        while left != {}
          invariant left <= contents[i].items.Keys
          invariant OldestSoFar(found, oldest, keep, i + 1, left)
          decreases |left|
        {
          var id :| id in left;
          left := left - {id};
          if id != keep && (!found || shelves[i].items[id].expiry < shelves[oldest.source].items[oldest.id].expiry) {
            found, oldest := true, Victim(i, id);
          }
        }
        i := i + 1;
      }
    }

    /** The oldest among the sources before `sources`, but for `left` of the last one. */
    ghost predicate OldestSoFar(found: bool, oldest: Victim, keep: nat, sources: nat, left: set<nat>)
      reads this
    {
      && (found ==> Evictable(contents, oldest, keep))
      && forall o :: Evictable(contents, o, keep) && Passed(o, sources, left) ==>
           found && ExpiryOf(contents, oldest) <= ExpiryOf(contents, o)
    }

    ghost predicate Passed(o: Victim, sources: nat, left: set<nat>) {
      o.source < sources && (o.source + 1 == sources ==> o.id !in left)
    }

    method AddOne(i: nat, id: nat, snap: Snap)
      requires Shows() && i < |shelves|
      modifies this`contents, shelves[i], shelves[i].buffer
      ensures BuffersKeptOrNew()
      ensures Shows() && contents == old(contents)[i := Added(old(contents)[i], id, snap)]
    {
      assert shelves[i].View() == contents[i];
      shelves[i].Add(id, snap);
      contents := contents[i := shelves[i].View()];
      OthersShow(i);
    }

    /** Removes one snapshot; `freed` is by how much everything together shrinks. */
    method RemoveOne(v: Victim) returns (freed: nat)
      requires Shows() && v.source < |shelves| && ShelfOk(contents[v.source]) && v.id in contents[v.source].order
      modifies this`contents, shelves[v.source], shelves[v.source].buffer
      ensures SameBuffers()
      ensures Shows() && contents == Evict(old(contents), v)
      ensures freed == Total(old(contents)) - Total(contents)
    {
      assert shelves[v.source].View() == contents[v.source];
      EvictBytes(contents, v);
      freed := shelves[v.source].Remove(v.id);
      contents := contents[v.source := shelves[v.source].View()];
      OthersShow(v.source);
    }

    /** Drops the oldest of a source until its cap is met. */
    method CapOne(source: nat, total: nat) returns (retained: nat)
      requires Shows() && source < |shelves| && Tidy(contents) && total == Total(contents)
      modifies this`contents, shelves[source], shelves[source].buffer
      ensures SameBuffers()
      ensures Shows() && contents == old(contents)[source := Capped(old(contents)[source])]
      ensures retained == Total(contents)
    {
      retained := total;
      while shelves[source].len > MAXIMUM_SNAPSHOTS
        invariant Shows() && Tidy(contents) && SameBuffers()
        invariant contents == old(contents)[source := contents[source]]
        invariant Capped(contents[source]) == Capped(old(contents)[source])
        invariant retained == Total(contents)
        decreases shelves[source].len
      {
        assert shelves[source].View() == contents[source];
        var oldest := Victim(source, shelves[source].buffer[0]);
        assert oldest.id == contents[source].order[0];
        EvictOk(contents, oldest);
        WithoutShortens(contents[source].order, oldest.id);
        var freed := RemoveOne(oldest);
        assert shelves[source].View() == contents[source];
        retained := retained - freed;
      }
      assert shelves[source].View() == contents[source];
    }

    method Admit(source: nat, id: nat, snap: Snap, now: int) returns (retained: nat)
      requires Shows() && Tidy(contents) && AtMost(contents, MAXIMUM_SNAPSHOTS)
      requires source < |shelves| && Fresh(contents, id)
      modifies this`contents, shelves, Buffers()
      ensures BuffersKeptOrNew()
      ensures Shows() && contents == Admitted(old(contents), source, id, snap, now)
      ensures retained == Total(contents)
    {
      retained := CompactAll(now);
      ghost var compacted := contents;
      AddOne(source, id, snap);
      AddingKeeps(old(contents), source, id, snap, now);
      retained := CapOne(source, retained + snap.bytes);
      ReplacedTwice(compacted, source, Added(compacted[source], id, snap), Capped(Added(compacted[source], id, snap)));
    }

    /** Evicts the oldest snapshot but `keep`. Not finding one is reported by `ok`. */
    method EvictOldest(keep: nat) returns (ok: bool, freed: nat, ghost victim: Victim)
      requires Shows() && Tidy(contents)
      modifies this`contents, shelves, Buffers()
      ensures SameBuffers() && Shows()
      ensures ok <==> exists o :: Evictable(old(contents), o, keep)
      ensures ok ==> IsOldest(old(contents), victim, keep) && contents == Evict(old(contents), victim)
      ensures ok ==> freed == Total(old(contents)) - Total(contents)
    {
      var oldest;
      ok, oldest := FindOldest(keep);
      victim, freed := oldest, 0;
      if ok {
        assert Evictable(contents, oldest, keep);
        freed := RemoveOne(oldest);
      }
    }

    /** Evicts the oldest snapshots until everything fits. */
    method MakeRoom(source: nat, keep: nat, ghost snap: Snap, total: nat) returns (ok: bool, ghost victims: seq<Victim>)
      requires Shows() && Tidy(contents) && total == Total(contents)
      requires Holds(contents, source, keep, snap) && snap.bytes <= budget
      modifies this`contents, shelves, Buffers()
      ensures SameBuffers()
      ensures Shows() && ok
      ensures EvictsOldestFirst(old(contents), victims, keep, budget, contents)
    {
      var retained := total;
      victims := [];
      while retained > budget
        invariant Shows() && Tidy(contents) && SameBuffers()
        invariant Holds(contents, source, keep, snap)
        invariant retained == Total(contents)
        invariant Evicted(old(contents), victims, keep, budget, contents)
        decreases Entries(contents)
      {
        ghost var before := contents;
        SomethingToEvict(before, source, keep, snap, budget);
        var found, freed;
        ghost var victim;
        found, freed, victim := EvictOldest(keep);
        if !found {
          return false, victims;
        }
        EvictingOldest(before, victim, source, keep, snap);
        EvictedNext(old(contents), victims, keep, budget, before, victim);
        victims := victims + [victim];
        retained := retained - freed;
      }
      ok := true;
    }

    /** Keeps a new snapshot of a source. The identifier is new. */
    method StoreSnapshot(source: nat, id: nat, snap: Snap, now: int) returns (ok: bool, ghost victims: seq<Victim>)
      requires Valid() && source < |shelves| && Fresh(contents, id)
      modifies this`contents, shelves, Buffers()
      ensures Valid()
      ensures ok <==> snap.bytes <= budget
      ensures !ok ==> contents == old(contents)
      ensures ok ==> EvictsOldestFirst(Admitted(old(contents), source, id, snap, now), victims, id, budget, contents)
      ensures ok ==> Holds(contents, source, id, snap)
    {
      if snap.bytes > budget {
        return false, [];
      }
      AdmittedOk(contents, source, id, snap, now);
      var retained := Admit(source, id, snap, now);
      ghost var admitted := contents;
      ok, victims := MakeRoom(source, id, snap, retained);
      EvictionKeepsTheNewOne(admitted, victims, id, budget, contents, source, snap);
    }

    method ReadOne(i: nat, id: nat, now: int) returns (found: bool, snap: Snap)
      requires Shows() && i < |shelves|
      modifies this`contents, shelves[i]
      ensures SameBuffers()
      ensures Shows() && contents == old(contents)[i := Expired(old(contents)[i], id, now)]
      ensures found <==> IsLive(id, old(contents)[i].items, now)
      ensures found ==> snap == old(contents)[i].items[id]
    {
      assert shelves[i].View() == contents[i];
      found, snap := shelves[i].Read(id, now);
      contents := contents[i := shelves[i].View()];
      OthersShow(i);
    }

    /** Looks in one source after the other, up to the first that has it. */
    method Search(id: nat, now: int) returns (found: bool, snap: Snap, ghost at: nat)
      requires Shows() && Tidy(contents)
      modifies this`contents, shelves
      ensures Shows() && SameBuffers()
      ensures contents == AllExpired(old(contents), id, now)
      ensures found ==> at < |shelves| && IsLive(id, old(contents)[at].items, now) && Holds(old(contents), at, id, snap)
      ensures !found ==> forall k :: 0 <= k < |shelves| ==> !IsLive(id, old(contents)[k].items, now)
    {
      found, snap, at := false, Snap(0, 0), 0;
      var i := 0;
      while i < |shelves|
        invariant i <= |shelves|
        invariant Shows() && SameBuffers()
        invariant ExpiredBefore(old(contents), contents, i, id, now)
        invariant forall k :: 0 <= k < i ==> !IsLive(id, old(contents)[k].items, now)
      {
        found, snap := ReadOne(i, id, now);
        if found {
          LiveIsNowhereElse(old(contents), i, id, now);
          assert contents == AllExpired(old(contents), id, now);
          at := i;
          return;
        }
        i := i + 1;
      }
      assert contents == AllExpired(old(contents), id, now);
    }

    /** The snapshot of this identifier, unless it has expired. */
    method ReadSnapshot(id: nat, now: int) returns (found: bool, snap: Snap)
      requires Valid()
      modifies this`contents, shelves
      ensures Valid() && SameBuffers()
      ensures contents == AllExpired(old(contents), id, now)
      ensures |contents| == |old(contents)|
      ensures forall i :: 0 <= i < |contents| ==> LookedAt(old(contents)[i], id, now, contents[i])
      ensures found <==> exists i :: 0 <= i < |shelves| && IsLive(id, old(contents)[i].items, now)
      ensures found ==> exists i :: 0 <= i < |shelves| && Holds(old(contents), i, id, snap)
    {
      AllExpiredOk(contents, id, now);
      AllAreLookedAt(contents, id, now);
      ghost var at;
      found, snap, at := Search(id, now);
    }

    /** The source that has a snapshot of this identifier, or their number. */
    method FindHolder(id: nat) returns (i: nat)
      requires Shows()
      ensures i <= |shelves| && (i < |shelves| ==> id in contents[i].items)
      ensures forall k :: 0 <= k < i ==> id !in contents[k].items
    {
      i := 0;
      while i < |shelves| && id !in shelves[i].items
        invariant i <= |shelves|
        invariant forall k :: 0 <= k < i ==> id !in contents[k].items
      {
        assert shelves[i].View() == contents[i];
        i := i + 1;
      }
      assert i < |shelves| ==> shelves[i].View() == contents[i];
    }

    /** Removes the snapshot from the source that has it. */
    method TakeFrom(i: nat, id: nat)
      requires Shows() && Tidy(contents) && i < |shelves| && id in contents[i].items
      modifies this`contents, shelves[i], shelves[i].buffer
      ensures Shows() && SameBuffers()
      ensures contents == AllDeleted(old(contents), id)
    {
      HeldNowhereElse(contents, i, id);
      EvictingDeletes(contents, i, id);
      var _ := RemoveOne(Victim(i, id));
    }

    /** Looks for the source that has it, and removes it there. */
    method TakeOut(id: nat) returns (found: bool)
      requires Shows() && Tidy(contents)
      modifies this`contents, shelves, Buffers()
      ensures Shows() && SameBuffers()
      ensures contents == AllDeleted(old(contents), id)
      ensures found <==> exists i :: 0 <= i < |shelves| && id in old(contents)[i].items
    {
      var i := FindHolder(id);
      found := i < |shelves|;
      if found {
        TakeFrom(i, id);
      } else {
        NothingToDelete(contents, id);
      }
    }

    /** Removes the snapshot of this identifier, expired or not. */
    method DeleteSnapshot(id: nat) returns (found: bool)
      requires Valid()
      modifies this`contents, shelves, Buffers()
      ensures Valid() && SameBuffers()
      ensures contents == AllDeleted(old(contents), id)
      ensures |contents| == |old(contents)|
      ensures forall i :: 0 <= i < |contents| ==> TakenOut(old(contents)[i], id, contents[i])
      ensures found <==> exists i :: 0 <= i < |shelves| && id in old(contents)[i].items
    {
      AllDeletedOk(contents, id);
      AllAreTakenOut(contents, id);
      found := TakeOut(id);
    }
  }
}
