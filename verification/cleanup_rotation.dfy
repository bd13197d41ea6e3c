/** The bounded, fair cleanup of sessions to be closed (the second half of
    `reconcile` in mediamtx_server.go).

    A pass walks the sorted sessions cyclically from the cursor, tries to close at
    most four that ask for it, and leaves the cursor behind the last one tried. The
    shared deadline may cut it shorter. */
module CleanupRotation {
  import opened Basics

  const CLOSE_LIMIT := 4

  /** The positions from `a` up to, not including, `b`. */
  function Range(a: nat, b: nat): (r: seq<nat>)
    requires a <= b
    ensures |r| == b - a && forall i :: 0 <= i < |r| ==> r[i] == a + i
  {
    seq(b - a, i requires 0 <= i < b - a => a + i)
  }

  /** All positions of a list of n, cyclically from `start`. */
  function Cycle(start: nat, n: nat): seq<nat>
    requires start <= n
  {
    Range(start, n) + Range(0, start)
  }

  function Keep(position: nat, wanted: seq<bool>): seq<nat> {
    if position < |wanted| && wanted[position] then [position] else []
  }

  /** The positions of `order` that are wanted, in that order. */
  function Wanted(order: seq<nat>, wanted: seq<bool>): seq<nat> {
    if order == [] then [] else Keep(order[0], wanted) + Wanted(order[1..], wanted)
  }

  function Min(a: nat, b: nat): nat {
    if a < b then a else b
  }

  /** The first `cap` of what was seen. */
  function First(seen: seq<nat>, cap: nat): seq<nat> {
    seen[..Min(cap, |seen|)]
  }

  function Start(cursor: nat, n: nat): nat {
    if n == 0 then 0 else cursor % n
  }

  /** What the next pass would try if nothing limited it. */
  function Due(cursor: nat, wanted: seq<bool>): seq<nat> {
    ModBelow(cursor, |wanted|);
    Wanted(Cycle(Start(cursor, |wanted|), |wanted|), wanted)
  }

  /** What it does try when the deadline allows `allowed` attempts. */
  function Tried(cursor: nat, wanted: seq<bool>, allowed: nat): seq<nat> {
    var due := Due(cursor, wanted);
    First(due, Min(CLOSE_LIMIT, allowed))
  }

  function CursorAfter(cursor: nat, wanted: seq<bool>, allowed: nat): nat {
    Behind(cursor, Tried(cursor, wanted, allowed), |wanted|)
  }

  /** The cursor behind the last session tried. */
  function Behind(cursor: nat, tried: seq<nat>, n: nat): nat {
    if tried == [] || n == 0 then cursor else (tried[|tried| - 1] + 1) % n
  }

  lemma ModBelow(x: nat, n: nat)
    ensures n > 0 ==> x % n < n
    ensures Start(x, n) <= n
  {
  }

  lemma ModOnce(x: nat, n: nat)
    requires x < n + n
    ensures n > 0 ==> x % n == if x < n then x else x - n
  {
    if n > 0 && x >= n {
      assert x == n + (x - n);
      assert (n + (x - n)) % n == (x - n) % n;
    }
  }

  lemma {:induction false} WantedConcat(a: seq<nat>, b: seq<nat>, wanted: seq<bool>)
    ensures Wanted(a + b, wanted) == Wanted(a, wanted) + Wanted(b, wanted)
  {
    if a == [] {
      assert a + b == b;
    } else {
      WantedConcat(a[1..], b, wanted);
      assert (a + b)[0] == a[0] && (a + b)[1..] == a[1..] + b;
      Associates(Keep(a[0], wanted), Wanted(a[1..], wanted), Wanted(b, wanted));
    }
  }

  lemma WantedNext(order: seq<nat>, index: nat, wanted: seq<bool>)
    requires index < |order| && order[index] < |wanted|
    ensures Wanted(order[..index + 1], wanted) ==
              Wanted(order[..index], wanted) + Keep(order[index], wanted)
  {
    OneMore(order, index);
    WantedAppended(order[..index], order[index], wanted);
  }

  lemma OneMore(order: seq<nat>, index: nat)
    requires index < |order|
    ensures order[..index + 1] == order[..index] + [order[index]]
  {
  }

  lemma WantedAppended(front: seq<nat>, p: nat, wanted: seq<bool>)
    ensures Wanted(front + [p], wanted) == Wanted(front, wanted) + Keep(p, wanted)
  {
    WantedConcat(front, [p], wanted);
    WantedOne(p, wanted);
  }

  lemma WantedOne(p: nat, wanted: seq<bool>)
    ensures Wanted([p], wanted) == Keep(p, wanted)
  {
    assert Wanted([p], wanted) == Keep(p, wanted) + Wanted([], wanted);
  }

  lemma CycleAt(start: nat, n: nat, index: nat)
    requires start < n && index < n
    ensures Cycle(start, n)[index] == (start + index) % n
    ensures (Cycle(start, n)[index] + 1) % n == (start + index + 1) % n
  {
    ModOnce(start + index, n);
    ModOnce(start + index + 1, n);
    ModOnce(Cycle(start, n)[index] + 1, n);
  }

  lemma FirstGrows(seen: seq<nat>, p: nat, cap: nat)
    ensures First(seen + [p], cap) == if |First(seen, cap)| < cap then First(seen, cap) + [p] else First(seen, cap)
  {
  }

  lemma BehindGrows(cursor: nat, tried: seq<nat>, p: nat, n: nat)
    requires n > 0
    ensures Behind(cursor, tried + [p], n) == (p + 1) % n
  {
  }

  /** What the next position of a pass adds. */
  lemma PassGoesOn(start: nat, n: nat, index: nat, wanted: seq<bool>, seen: seq<nat>, cap: nat)
    requires start < n && index < n && |wanted| == n && seen == Wanted(Cycle(start, n)[..index], wanted)
    ensures 0 <= (start + index) % n < n
    ensures var position := (start + index) % n;
            && Wanted(Cycle(start, n)[..index + 1], wanted) == seen + Keep(position, wanted)
            && (position + 1) % n == (start + index + 1) % n
            && First(seen + [position], cap) == if |First(seen, cap)| < cap then First(seen, cap) + [position] else First(seen, cap)
  {
    CycleAt(start, n, index);
    WantedNext(Cycle(start, n), index, wanted);
    FirstGrows(seen, (start + index) % n, cap);
  }

  /** The sessions that ask for their close and are not being negotiated. */
  function Closable(closeRequested: seq<bool>, opening: seq<bool>): (wanted: seq<bool>)
    requires |closeRequested| == |opening|
    ensures |wanted| == |opening|
    ensures forall i :: 0 <= i < |wanted| ==> wanted[i] == (closeRequested[i] && !opening[i])
  {
    seq(|opening|, i requires 0 <= i < |opening| => closeRequested[i] && !opening[i])
  }

  class Reconciler {
    var cleanupCursor: nat

    /** One pass over the sessions in sorted order. `allowed` is how many attempts
        begin before the shared deadline. */
    method CleanupPass(closeRequested: seq<bool>, opening: seq<bool>, allowed: nat) returns (tried: seq<nat>)
      requires |closeRequested| == |opening|
      modifies this
      ensures tried == Tried(old(cleanupCursor), Closable(closeRequested, opening), allowed)
      ensures cleanupCursor == CursorAfter(old(cleanupCursor), Closable(closeRequested, opening), allowed)
    {
      var n := |opening|;
      ghost var wanted := Closable(closeRequested, opening);
      var start := 0;
      if n != 0 {
        start := cleanupCursor % n;
      }
      ModBelow(cleanupCursor, n);
      ghost var order := Cycle(start, n);
      ghost var cap := Min(CLOSE_LIMIT, allowed);
      ghost var seen: seq<nat> := [];
      var cleanupAttempts := 0;
      tried := [];
      for index := 0 to n
        invariant seen == Wanted(order[..index], wanted)
        invariant tried == First(seen, cap) && cleanupAttempts == |tried|
        invariant cleanupCursor == Behind(old(cleanupCursor), tried, n)
      {
        var position := (start + index) % n;
        PassGoesOn(start, n, index, wanted, seen, cap);
        if closeRequested[position] && !opening[position] {
          seen := seen + [position];
          if cleanupAttempts < CLOSE_LIMIT && cleanupAttempts < allowed {
            cleanupAttempts := cleanupAttempts + 1;
            cleanupCursor := (start + index + 1) % n;
            BehindGrows(old(cleanupCursor), tried, position, n);
            tried := tried + [position];
          }
        }
      }
      assert order[..n] == order;
    }
  }

  // ----- fairness

  lemma {:induction false} WantedMembers(order: seq<nat>, wanted: seq<bool>, p: nat)
    ensures p in Wanted(order, wanted) <==> p in order && p < |wanted| && wanted[p]
  {
    if order != [] {
      WantedMembers(order[1..], wanted, p);
      assert p in order <==> p == order[0] || p in order[1..];
    }
  }

  lemma {:induction false} WantedDistinct(order: seq<nat>, wanted: seq<bool>)
    requires NoDuplicates(order)
    ensures NoDuplicates(Wanted(order, wanted))
  {
    if order != [] {
      WantedDistinct(order[1..], wanted);
      WantedMembers(order[1..], wanted, order[0]);
    }
  }

  /** Splitting the cycle behind a position and swapping the halves is the cycle
      that starts there. */
  lemma CycleSplits(start: nat, n: nat, p: nat) returns (a: seq<nat>, b: seq<nat>)
    requires start < n && p < n
    ensures a != [] && a[|a| - 1] == p
    ensures Cycle(start, n) == a + b
    ensures Cycle((p + 1) % n, n) == b + a
  {
    ModOnce(p + 1, n);
    if p >= start {
      a, b := Range(start, p + 1), Range(p + 1, n) + Range(0, start);
    } else {
      a, b := Range(start, n) + Range(0, p + 1), Range(p + 1, start);
    }
  }

  /** In a list without duplicates the part that ends with its m-th element is the
      first m. */
  lemma DistinctSplit(s: seq<nat>, x: seq<nat>, y: seq<nat>, m: nat)
    requires NoDuplicates(s) && s == x + y && 1 <= m <= |s| && x != [] && x[|x| - 1] == s[m - 1]
    ensures s[..m] == x && s[m..] == y
  {
    assert s[|x| - 1] == x[|x| - 1];
  }

  /** What is due splits behind a session that is; from there on the halves are
      swapped. */
  lemma DueSplits(cursor: nat, wanted: seq<bool>, p: nat) returns (x: seq<nat>, y: seq<nat>)
    requires p in Due(cursor, wanted)
    ensures p < |wanted| && x != [] && x[|x| - 1] == p
    ensures Due(cursor, wanted) == x + y && Due((p + 1) % |wanted|, wanted) == y + x
  {
    var n := |wanted|;
    ModBelow(cursor, n);
    WantedMembers(Cycle(Start(cursor, n), n), wanted, p);
    var a, b := CycleSplits(Start(cursor, n), n, p);
    WantedConcat(a, b, wanted);
    WantedConcat(b, a, wanted);
    WantedNext(a, |a| - 1, wanted);
    assert a[..|a|] == a;
    x, y := Wanted(a, wanted), Wanted(b, wanted);
    ModOnce(p + 1, n);
    ModOnce((p + 1) % n, n);
  }

  /** A pass that tries the first m of what is due leaves the rest to come first. */
  lemma RotationContinues(cursor: nat, wanted: seq<bool>, m: nat)
    requires 1 <= m <= |Due(cursor, wanted)|
    ensures |wanted| > 0
    ensures var due := Due(cursor, wanted);
            Due((due[m - 1] + 1) % |wanted|, wanted) == due[m..] + due[..m]
  {
    var due := Due(cursor, wanted);
    ModBelow(cursor, |wanted|);
    WantedDistinct(Cycle(Start(cursor, |wanted|), |wanted|), wanted);
    var x, y := DueSplits(cursor, wanted, due[m - 1]);
    DistinctSplit(due, x, y, m);
  }

  /** Everything that passes with these allowances try, in order. */
  function AllTried(cursor: nat, wanted: seq<bool>, allowances: seq<nat>): seq<nat>
    decreases |allowances|
  {
    if allowances == [] then []
    else Tried(cursor, wanted, allowances[0])
         + AllTried(CursorAfter(cursor, wanted, allowances[0]), wanted, allowances[1..])
  }

  /** Whatever the deadlines allow, as long as the set of wanted sessions stands
      still the passes try them one after the other: a wanted session that comes
      r-th is tried once more than r attempts have been made. */
  lemma {:induction false} TriedInTurn(cursor: nat, wanted: seq<bool>, allowances: seq<nat>, r: nat)
    requires r < |Due(cursor, wanted)| && r < |AllTried(cursor, wanted, allowances)|
    ensures AllTried(cursor, wanted, allowances)[r] == Due(cursor, wanted)[r]
    decreases |allowances|
  {
    var due := Due(cursor, wanted);
    var m := |Tried(cursor, wanted, allowances[0])|;
    if r >= m {
      if m > 0 {
        RotationContinues(cursor, wanted, m);
      } else {
        assert due[m..] + due[..m] == due;
      }
      TriedInTurn(CursorAfter(cursor, wanted, allowances[0]), wanted, allowances[1..], r - m);
    }
  }

  lemma RotationKeepsDue(cursor: nat, wanted: seq<bool>, allowed: nat)
    ensures |Due(CursorAfter(cursor, wanted, allowed), wanted)| == |Due(cursor, wanted)|
  {
    var m := |Tried(cursor, wanted, allowed)|;
    if m > 0 {
      RotationContinues(cursor, wanted, m);
    }
  }

  lemma {:induction false} EnoughAreTried(cursor: nat, wanted: seq<bool>, allowances: seq<nat>, least: nat)
    requires least <= CLOSE_LIMIT && forall i :: 0 <= i < |allowances| ==> least <= allowances[i]
    ensures |AllTried(cursor, wanted, allowances)| >= Min(|Due(cursor, wanted)|, least * |allowances|)
    decreases |allowances|
  {
    var k := |Due(cursor, wanted)|;
    if allowances == [] {
      assert least * |allowances| == 0;
    } else {
      var next, rest := CursorAfter(cursor, wanted, allowances[0]), allowances[1..];
      EnoughAreTried(next, wanted, rest, least);
      RotationKeepsDue(cursor, wanted, allowances[0]);
      assert least * |allowances| == least + least * |rest| by {
        assert |allowances| == 1 + |rest|;
      }
      assert |Tried(cursor, wanted, allowances[0])| >= Min(least, k);
    }
  }

  /** Nobody starves: if each pass gets at least `least` attempts out of the four,
      every session that asks for its close has been tried once passes times least
      reaches their number. With whole passes that is ceil(k/4) passes, and with
      deadlines that leave one attempt each, k passes. */
  lemma EveryoneIsTried(cursor: nat, wanted: seq<bool>, allowances: seq<nat>, least: nat, p: nat)
    requires least <= 4 && forall i :: 0 <= i < |allowances| ==> least <= allowances[i]
    requires |Due(cursor, wanted)| <= least * |allowances|
    requires p < |wanted| && wanted[p]
    ensures p in AllTried(cursor, wanted, allowances)
  {
    var n := |wanted|;
    ModBelow(cursor, n);
    var start := Start(cursor, n);
    assert p in Cycle(start, n) by {
      assert p >= start ==> Cycle(start, n)[p - start] == p;
      assert p < start ==> Cycle(start, n)[n - start + p] == p;
    }
    WantedMembers(Cycle(start, n), wanted, p);
    var r :| 0 <= r < |Due(cursor, wanted)| && Due(cursor, wanted)[r] == p;
    EnoughAreTried(cursor, wanted, allowances, least);
    TriedInTurn(cursor, wanted, allowances, r);
    assert AllTried(cursor, wanted, allowances)[r] == p;
  }

  /** A pass tries all that are due, up to four and to what the deadline allows, each one
      wanted and none of them twice. */
  lemma PassIsBounded(cursor: nat, wanted: seq<bool>, allowed: nat, p: nat)
    ensures |Tried(cursor, wanted, allowed)| == Min(Min(4, allowed), |Due(cursor, wanted)|)
    ensures p in Tried(cursor, wanted, allowed) ==> p < |wanted| && wanted[p]
    ensures NoDuplicates(Tried(cursor, wanted, allowed))
  {
    var n := |wanted|;
    ModBelow(cursor, n);
    WantedMembers(Cycle(Start(cursor, n), n), wanted, p);
    WantedDistinct(Cycle(Start(cursor, n), n), wanted);
  }
}
