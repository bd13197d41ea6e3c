/** Session slots of the edge (mediamtx_server.go): reservations, sessions, the
    source demand behind them, and who removes what.

    `Slots` is what `server.mu` guards; the class `SlotTable` performs its
    sections. The protocol interleaves any number of openers with closers of any
    sessions. The close of one session is serialized by that session's mutex, so
    its progress is kept with the session. */
module SlotSections {

  datatype Slots = Slots(sessions: set<nat>, reserved: nat, closing: bool)

  predicate HasRoom(t: Slots, max: nat) {
    |t.sessions| + t.reserved < max
  }

  function Reserve(t: Slots): Slots {
    t.(reserved := t.reserved + 1)
  }

  function Unreserve(t: Slots): Slots
    requires t.reserved > 0
  {
    t.(reserved := t.reserved - 1)
  }

  /** The reservation becomes the session. */
  function Insert(t: Slots, id: nat): Slots
    requires t.reserved > 0
  {
    t.(sessions := t.sessions + {id}, reserved := t.reserved - 1)
  }

  function Delete(t: Slots, id: nat): Slots {
    t.(sessions := t.sessions - {id})
  }

  class SlotTable {
    const max: nat
    var sessions: set<nat>
    var reserved: nat
    var closing: bool

    function View(): Slots
      reads this
    {
      Slots(sessions, reserved, closing)
    }

    constructor (max: nat)
      ensures View() == Slots({}, 0, false) && this.max == max
    {
      this.max := max;
      sessions, reserved, closing := {}, 0, false;
    }

    method ReserveSection() returns (ok: bool)
      modifies this
      ensures ok == HasRoom(old(View()), max)
      ensures ok <==> |sessions| + old(reserved) < max
      ensures View() == if ok then Reserve(old(View())) else old(View())
    {
      if |sessions| + reserved >= max {
        return false;
      }
      reserved := reserved + 1;
      return true;
    }

    method UnreserveSection()
      requires reserved > 0
      modifies this
      ensures View() == Unreserve(old(View()))
    {
      reserved := reserved - 1;
    }

    method InsertSection(id: nat) returns (ok: bool)
      requires reserved > 0
      modifies this
      ensures ok == !old(closing)
      ensures View() == if ok then Insert(old(View()), id) else old(View())
    {
      if closing {
        return false;
      }
      sessions := sessions + {id};
      reserved := reserved - 1;
      return true;
    }

    method DeleteSection(id: nat)
      modifies this
      ensures View() == Delete(old(View()), id)
    {
      sessions := sessions - {id};
    }

    // ----- whole operations

    /** The slots of one OpenSession: the session takes a slot exactly when there was room,
        its source was acquired and the edge stayed open; else nothing is left behind. */
    method OpenSlot(id: nat, acquired: bool) returns (took: bool)
      requires id !in sessions && |sessions| + reserved <= max
      modifies this
      ensures took <==> |old(sessions)| + old(reserved) < max && acquired && !closing
      ensures View() == if took then old(View()).(sessions := old(sessions) + {id}) else old(View())
      ensures |sessions| + reserved <= max
    {
      var reservedOne := ReserveSection();
      if !reservedOne {
        return false;
      }
      took := false;
      if acquired {
        took := InsertSection(id);
      }
      if !took {
        UnreserveSection();
      }
    }

    /** A session that is took and deleted leaves the slots as they were. */
    method UseSlot(id: nat, acquired: bool) returns (took: bool)
      requires id !in sessions && |sessions| + reserved <= max
      modifies this
      ensures View() == old(View())
    {
      took := OpenSlot(id, acquired);
      if took {
        DeleteSection(id);
        assert old(sessions) + {id} - {id} == old(sessions);
      }
    }
  }
}

module SlotProtocol {
  import opened Basics
  import opened SlotSections

  /** Where an OpenSession call is. */
  datatype Opener =
    | Reserved                            // holds a reservation
    | Demanding                           // and a pending demand on its source
    | Inserted(id: nat)                   // the reservation became the session
    | Linked(id: nat)                     // the demand became the source's session
    | Undemand                            // gives back the demand first,
    | Unreserving                         // then the reservation

  /** The close of one session, in the order its holder works. */
  datatype Close =
    | Idle
    | Asking                              // waits for the native side
    | Unlinking                           // closed: about to leave the source's sessions
    | Deleting                            // about to leave the server's sessions

  datatype Item = Item(opening: bool, closed: bool, close: Close)

  datatype World = World(
    t: Slots,
    openers: map<nat, Opener>,
    items: map<nat, Item>,
    linked: set<nat>,                     // sessions of their sources
    removals: seq<nat>)                   // sessions deleted, in order

  const START := World(Slots({}, 0, false), map[], map[], {}, [])

  datatype Action =
    | Open(o: nat)
    | Acquire(o: nat, ok: bool)
    | GiveUp(o: nat)                      // the path never came up, or the edge closes
    | InsertSession(o: nat, id: nat)
    | LinkSession(o: nat)
    | Answered(o: nat)                    // the creation call returned, one way or the other
    | ReleaseDemand(o: nat)
    | ReleaseSlot(o: nat)
    | BeginClose(id: nat)
    | CloseFails(id: nat)
    | CloseConfirmed(id: nat)
    | Unlink(id: nat)
    | DeleteSession(id: nat)
    | StartClosing

  predicate Enabled(w: World, max: nat, a: Action) {
    match a
    case Open(o) => o !in w.openers && HasRoom(w.t, max)
    case Acquire(o, _) => o in w.openers && w.openers[o].Reserved?
    case GiveUp(o) => o in w.openers && w.openers[o].Demanding?
    case InsertSession(o, id) =>
      o in w.openers && w.openers[o].Demanding? && !w.t.closing && id !in w.items && w.t.reserved > 0
    case LinkSession(o) => o in w.openers && w.openers[o].Inserted?
    case Answered(o) => o in w.openers && w.openers[o].Linked? && w.openers[o].id in w.items
    case ReleaseDemand(o) => o in w.openers && w.openers[o].Undemand?
    case ReleaseSlot(o) => o in w.openers && w.openers[o].Unreserving? && w.t.reserved > 0
    case BeginClose(id) => id in w.items && !w.items[id].opening && !w.items[id].closed && w.items[id].close.Idle?
    case CloseFails(id) => id in w.items && w.items[id].close.Asking?
    case CloseConfirmed(id) => id in w.items && w.items[id].close.Asking?
    case Unlink(id) => id in w.items && w.items[id].close.Unlinking?
    case DeleteSession(id) => id in w.items && w.items[id].close.Deleting?
    case StartClosing => true
  }

  function Next(w: World, max: nat, a: Action): World
    requires Enabled(w, max, a)
  {
    match a
    case Open(o) => w.(t := Reserve(w.t), openers := w.openers[o := Reserved])
    case Acquire(o, ok) => w.(openers := w.openers[o := if ok then Demanding else Unreserving])
    case GiveUp(o) => w.(openers := w.openers[o := Undemand])
    case InsertSession(o, id) =>
      w.(t := Insert(w.t, id), openers := w.openers[o := Inserted(id)], items := w.items[id := Item(true, false, Idle)])
    case LinkSession(o) =>
      w.(linked := w.linked + {w.openers[o].id}, openers := w.openers[o := Linked(w.openers[o].id)])
    case Answered(o) =>
      var id := w.openers[o].id;
      w.(items := w.items[id := w.items[id].(opening := false)], openers := w.openers - {o})
    case ReleaseDemand(o) => w.(openers := w.openers[o := Unreserving])
    case ReleaseSlot(o) => w.(t := Unreserve(w.t), openers := w.openers - {o})
    case BeginClose(id) => w.(items := w.items[id := w.items[id].(close := Asking)])
    case CloseFails(id) => w.(items := w.items[id := w.items[id].(close := Idle)])
    case CloseConfirmed(id) => w.(items := w.items[id := w.items[id].(closed := true, close := Unlinking)])
    case Unlink(id) =>
      w.(linked := w.linked - {id}, items := w.items[id := w.items[id].(close := Deleting)])
    case DeleteSession(id) =>
      w.(t := Delete(w.t, id), items := w.items[id := w.items[id].(close := Idle)], removals := w.removals + [id])
    case StartClosing => w.(t := w.t.(closing := true))
  }

  // ----- invariant

  predicate HoldsSlot(o: Opener) {
    o.Reserved? || o.Demanding? || o.Undemand? || o.Unreserving?
  }

  /** The openers that hold a reservation. */
  function Holders(openers: map<nat, Opener>): set<nat> {
    set o | o in openers && HoldsSlot(openers[o])
  }

  /** Some opener is between inserting the session and linking it: its pending
      demand still covers the session. */
  ghost predicate CoveredByOpener(openers: map<nat, Opener>, id: nat) {
    exists o :: o in openers && openers[o] == Inserted(id)
  }

  predicate Creating(o: Opener) {
    o.Inserted? || o.Linked?
  }

  predicate SameSession(o: Opener, p: Opener) {
    Creating(o) && Creating(p) && o.id == p.id
  }

  /** Every session being created has its own opener, and nobody closes it yet. */
  ghost predicate Openers(openers: map<nat, Opener>, items: map<nat, Item>) {
    && (forall o :: o in openers && Creating(openers[o]) ==>
          openers[o].id in items && items[openers[o].id].opening)
    && (forall o, p :: o in openers && p in openers && SameSession(openers[o], openers[p]) ==> o == p)
  }

  predicate Removing(item: Item) {
    item.close.Unlinking? || item.close.Deleting?
  }

  ghost predicate ItemOk(w: World, id: nat)
    requires id in w.items
  {
    var item := w.items[id];
    && (item.opening ==> !item.closed && item.close.Idle?)
    && (item.close.Asking? ==> !item.closed)
    && (Removing(item) ==> item.closed)
    && (id in w.t.sessions <==> !item.closed || Removing(item))
    && (id in w.linked ==> id in w.t.sessions && !item.close.Deleting?)
    && (id in w.t.sessions ==> id in w.linked || item.close.Deleting? || CoveredByOpener(w.openers, id))
    && (id in w.removals <==> id !in w.t.sessions)
  }

  ghost predicate Capacity(w: World, max: nat) {
    |w.t.sessions| + w.t.reserved <= max && w.t.reserved == |Holders(w.openers)|
  }

  ghost predicate Ownership(w: World) {
    && w.t.sessions <= w.items.Keys
    && w.linked <= w.items.Keys
    && (forall id :: id in w.removals ==> id in w.items)
    && NoDuplicates(w.removals)
    && Openers(w.openers, w.items)
    && (forall id :: id in w.items ==> ItemOk(w, id))
  }

  ghost predicate Inv(w: World, max: nat) {
    Capacity(w, max) && Ownership(w)
  }

  // ----- every step keeps it

  lemma HoldersUpdate(openers: map<nat, Opener>, o: nat, p: Opener)
    ensures Holders(openers[o := p]) == if HoldsSlot(p) then Holders(openers) + {o} else Holders(openers) - {o}
    ensures Holders(openers - {o}) == Holders(openers) - {o}
  {
  }

  /** An opener moves from one place to another. */
  lemma MoveKeepsCapacity(w: World, max: nat, o: nat, p: Opener)
    requires Capacity(w, max) && o in w.openers && HoldsSlot(w.openers[o]) == HoldsSlot(p)
    ensures |Holders(w.openers[o := p])| == w.t.reserved
  {
    HoldersUpdate(w.openers, o, p);
    assert HoldsSlot(p) ==> Holders(w.openers) + {o} == Holders(w.openers);
    assert !HoldsSlot(p) ==> Holders(w.openers) - {o} == Holders(w.openers);
  }

  lemma OpenKeepsCapacity(w: World, max: nat, o: nat)
    requires Capacity(w, max) && Enabled(w, max, Open(o))
    ensures Capacity(Next(w, max, Open(o)), max)
  {
    HoldersUpdate(w.openers, o, Reserved);
  }

  lemma InsertKeepsCapacity(w: World, max: nat, o: nat, id: nat)
    requires Capacity(w, max) && Enabled(w, max, InsertSession(o, id))
    ensures Capacity(Next(w, max, InsertSession(o, id)), max)
  {
    HoldersUpdate(w.openers, o, Inserted(id));
    assert o in Holders(w.openers);
  }

  lemma ReleaseKeepsCapacity(w: World, max: nat, o: nat)
    requires Capacity(w, max) && Enabled(w, max, ReleaseSlot(o))
    ensures Capacity(Next(w, max, ReleaseSlot(o)), max)
  {
    HoldersUpdate(w.openers, o, Unreserving);
    assert o in Holders(w.openers);
  }

  lemma StepKeepsCapacity(w: World, max: nat, a: Action, v: World)
    requires Capacity(w, max) && Enabled(w, max, a) && v == Next(w, max, a)
    ensures Capacity(v, max)
  {
    match a
    case Acquire(o, _) => MoveKeepsCapacity(w, max, o, v.openers[o]);
    case GiveUp(o) => MoveKeepsCapacity(w, max, o, Undemand);
    case LinkSession(o) => MoveKeepsCapacity(w, max, o, v.openers[o]);
    case ReleaseDemand(o) => MoveKeepsCapacity(w, max, o, Unreserving);
    case Open(o) => OpenKeepsCapacity(w, max, o);
    case InsertSession(o, id) => InsertKeepsCapacity(w, max, o, id);
    case ReleaseSlot(o) => ReleaseKeepsCapacity(w, max, o);
    case Answered(o) =>
      HoldersUpdate(w.openers, o, Reserved);
      assert Holders(w.openers) - {o} == Holders(w.openers);
    case _ =>
  }

  /** An opener that is not creating moves on. */
  lemma OpenerMovesKeepsOwnership(w: World, o: nat, v: World)
    requires Ownership(w) && (o in w.openers ==> !Creating(w.openers[o]))
    requires v.items == w.items && v.linked == w.linked && v.removals == w.removals && v.t.sessions == w.t.sessions
    requires v.openers - {o} == w.openers - {o} && (o in v.openers ==> HoldsSlot(v.openers[o]))
    ensures Ownership(v)
  {
    forall q | q != o
      ensures q in w.openers <==> q in v.openers
      ensures q in w.openers ==> v.openers[q] == w.openers[q]
    {
      assert q in w.openers <==> q in w.openers - {o};
      assert q in v.openers <==> q in v.openers - {o};
      if q in w.openers {
        assert (v.openers - {o})[q] == (w.openers - {o})[q];
      }
    }
    forall id | CoveredByOpener(w.openers, id) ensures CoveredByOpener(v.openers, id) {
      var q :| q in w.openers && w.openers[q] == Inserted(id);
      assert q in v.openers && v.openers[q] == Inserted(id);
    }
    forall id | id in v.items ensures ItemOk(v, id) {
      assert ItemOk(w, id);
    }
  }

  lemma InsertKeepsOwnership(w: World, max: nat, o: nat, id: nat)
    requires Ownership(w) && Enabled(w, max, InsertSession(o, id))
    ensures Ownership(Next(w, max, InsertSession(o, id)))
  {
    var v := Next(w, max, InsertSession(o, id));
    assert v.openers[o] == Inserted(id);
    forall i | i in v.items ensures ItemOk(v, i) {
      if i != id {
        assert ItemOk(w, i);
        if CoveredByOpener(w.openers, i) {
          var q :| q in w.openers && w.openers[q] == Inserted(i);
          assert q in v.openers && v.openers[q] == Inserted(i);
        }
      }
    }
  }

  lemma LinkKeepsOwnership(w: World, max: nat, o: nat)
    requires Ownership(w) && Enabled(w, max, LinkSession(o))
    ensures Ownership(Next(w, max, LinkSession(o)))
  {
    var v := Next(w, max, LinkSession(o));
    var id := w.openers[o].id;
    forall i | i in v.items ensures ItemOk(v, i) {
      assert ItemOk(w, i);
      if i != id && CoveredByOpener(w.openers, i) {
        var q :| q in w.openers && w.openers[q] == Inserted(i);
        assert q in v.openers && v.openers[q] == Inserted(i);
      }
    }
  }

  lemma AnsweredKeepsOwnership(w: World, max: nat, o: nat)
    requires Ownership(w) && Enabled(w, max, Answered(o))
    ensures Ownership(Next(w, max, Answered(o)))
  {
    var v := Next(w, max, Answered(o));
    forall i | i in v.items ensures ItemOk(v, i) {
      assert ItemOk(w, i);
      if CoveredByOpener(w.openers, i) {
        var q :| q in w.openers && w.openers[q] == Inserted(i);
        assert q in v.openers && v.openers[q] == Inserted(i);
      }
    }
  }

  predicate Closes(a: Action) {
    a.BeginClose? || a.CloseFails? || a.CloseConfirmed? || a.Unlink?
  }

  lemma CloseKeepsOwnership(w: World, max: nat, a: Action, v: World)
    requires Ownership(w) && Enabled(w, max, a) && Closes(a) && v == Next(w, max, a)
    ensures Ownership(v)
  {
    assert ItemOk(w, a.id);
    forall i | i in v.items ensures ItemOk(v, i) {
      assert ItemOk(w, i);
    }
  }

  lemma DeleteKeepsOwnership(w: World, max: nat, id: nat, v: World)
    requires Ownership(w) && Enabled(w, max, DeleteSession(id)) && v == Next(w, max, DeleteSession(id))
    ensures Ownership(v)
  {
    assert ItemOk(w, id);
    forall i | i in v.items ensures ItemOk(v, i) {
      assert ItemOk(w, i);
      assert i in v.removals <==> i in w.removals || i == id;
    }
  }

  lemma StepKeepsOwnership(w: World, max: nat, a: Action, v: World)
    requires Ownership(w) && Enabled(w, max, a) && v == Next(w, max, a)
    ensures Ownership(v)
  {
    match a
    case Open(o) => OpenerMovesKeepsOwnership(w, o, v);
    case Acquire(o, _) => OpenerMovesKeepsOwnership(w, o, v);
    case GiveUp(o) => OpenerMovesKeepsOwnership(w, o, v);
    case ReleaseDemand(o) => OpenerMovesKeepsOwnership(w, o, v);
    case ReleaseSlot(o) => OpenerMovesKeepsOwnership(w, o, v);
    case InsertSession(o, id) => InsertKeepsOwnership(w, max, o, id);
    case LinkSession(o) => LinkKeepsOwnership(w, max, o);
    case Answered(o) => AnsweredKeepsOwnership(w, max, o);
    case StartClosing =>
      forall i | i in v.items ensures ItemOk(v, i) {
        assert ItemOk(w, i);
      }
    case DeleteSession(id) => DeleteKeepsOwnership(w, max, id, v);
    case _ => CloseKeepsOwnership(w, max, a, v);
  }

  lemma StepKeepsInv(w: World, max: nat, a: Action, v: World)
    requires Inv(w, max) && Enabled(w, max, a) && v == Next(w, max, a)
    ensures Inv(v, max)
  {
    StepKeepsCapacity(w, max, a, v);
    StepKeepsOwnership(w, max, a, v);
  }

  // ----- over every run

  ghost predicate Run(max: nat, ws: seq<World>, acts: seq<Action>) {
    && |ws| == |acts| + 1
    && ws[0] == START
    && forall i {:trigger acts[i]} :: 0 <= i < |acts| ==> Enabled(ws[i], max, acts[i]) && ws[i + 1] == Next(ws[i], max, acts[i])
  }

  lemma {:induction false} RunKeepsInv(max: nat, ws: seq<World>, acts: seq<Action>, i: nat)
    requires Run(max, ws, acts) && i < |ws|
    ensures Inv(ws[i], max)
  {
    if i > 0 {
      RunKeepsInv(max, ws, acts, i - 1);
      StepKeepsInv(ws[i - 1], max, acts[i - 1], ws[i]);
    }
  }

  /** Sessions and reservations together never exceed the limit, and there are as
      many reservations as openers that hold one. */
  lemma SlotsAreConserved(max: nat, ws: seq<World>, acts: seq<Action>, i: nat)
    requires Run(max, ws, acts) && i < |ws|
    ensures |ws[i].t.sessions| + ws[i].t.reserved <= max
    ensures ws[i].t.reserved == |Holders(ws[i].openers)|
  {
    RunKeepsInv(max, ws, acts, i);
  }

  /** A source's session is a session of the server, and a session of the server
      is covered: by its source, by the pending demand of its opener, or it is
      closed and its remover is on the way to delete it. */
  lemma SessionsAreCovered(max: nat, ws: seq<World>, acts: seq<Action>, i: nat, id: nat)
    requires Run(max, ws, acts) && i < |ws|
    ensures id in ws[i].linked ==> id in ws[i].t.sessions
    ensures id in ws[i].t.sessions ==>
              || id in ws[i].linked
              || CoveredByOpener(ws[i].openers, id)
              || (id in ws[i].items && ws[i].items[id].closed && ws[i].items[id].close.Deleting?)
  {
    RunKeepsInv(max, ws, acts, i);
    if id in ws[i].items {
      assert ItemOk(ws[i], id);
    }
  }

  /** No session is deleted twice, and one is gone from the server exactly when it
      was deleted. */
  lemma RemovedExactlyOnce(max: nat, ws: seq<World>, acts: seq<Action>, i: nat, id: nat)
    requires Run(max, ws, acts) && i < |ws| && id in ws[i].items
    ensures NoDuplicates(ws[i].removals)
    ensures id in ws[i].removals <==> id !in ws[i].t.sessions
    ensures id in ws[i].removals ==> ws[i].items[id].closed && ws[i].items[id].close.Idle?
  {
    RunKeepsInv(max, ws, acts, i);
    assert ItemOk(ws[i], id);
  }

  // ----- a run from the first reservation to the last deletion

  ghost predicate Reachable(w: World, max: nat) {
    exists ws: seq<World>, acts: seq<Action> :: Run(max, ws, acts) && ws[|ws| - 1] == w
  }

  lemma StepIsReachable(w: World, max: nat, a: Action, v: World)
    requires Reachable(w, max) && Enabled(w, max, a) && v == Next(w, max, a)
    ensures Reachable(v, max)
  {
    var ws: seq<World>, acts: seq<Action> :| Run(max, ws, acts) && ws[|ws| - 1] == w;
    var longer, more := ws + [v], acts + [a];
    forall i | 0 <= i < |more| ensures Enabled(longer[i], max, more[i]) && longer[i + 1] == Next(longer[i], max, more[i]) {
      if i < |acts| {
        assert longer[i] == ws[i] && longer[i + 1] == ws[i + 1] && more[i] == acts[i];
      }
    }
    assert Run(max, longer, more);
  }

  /** Session 5, opened and at rest. */
  const OPENED := World(Slots({5}, 0, false), map[], map[5 := Item(false, false, Idle)], {5}, [])

  /** The same while its opener is at it. */
  const INSERTED := World(Slots({5}, 0, false), map[0 := Inserted(5)], map[5 := Item(true, false, Idle)], {}, [])

  lemma SessionIsInserted(max: nat)
    requires max > 0
    ensures Reachable(INSERTED, max)
  {
    assert Run(max, [START], []);
    var w1 := Next(START, max, Open(0));
    StepIsReachable(START, max, Open(0), w1);
    var w2 := Next(w1, max, Acquire(0, true));
    StepIsReachable(w1, max, Acquire(0, true), w2);
    var w3 := Next(w2, max, InsertSession(0, 5));
    StepIsReachable(w2, max, InsertSession(0, 5), w3);
    assert w3 == INSERTED;
  }

  lemma SessionOpens(max: nat)
    requires max > 0
    ensures Reachable(OPENED, max)
  {
    SessionIsInserted(max);
    var w1 := Next(INSERTED, max, LinkSession(0));
    StepIsReachable(INSERTED, max, LinkSession(0), w1);
    var w2 := Next(w1, max, Answered(0));
    StepIsReachable(w1, max, Answered(0), w2);
    assert w2 == OPENED;
  }

  /** A session that is opened and then closed leaves its slot free. */
  lemma SessionComesAndGoes(max: nat) returns (w: World)
    requires max > 0
    ensures Reachable(OPENED, max)
    ensures Reachable(w, max) && w.t == Slots({}, 0, false) && w.linked == {} && w.removals == [5]
  {
    SessionOpens(max);
    var w1 := Next(OPENED, max, BeginClose(5));
    StepIsReachable(OPENED, max, BeginClose(5), w1);
    var w2 := Next(w1, max, CloseConfirmed(5));
    StepIsReachable(w1, max, CloseConfirmed(5), w2);
    var w3 := Next(w2, max, Unlink(5));
    StepIsReachable(w2, max, Unlink(5), w3);
    w := Next(w3, max, DeleteSession(5));
    StepIsReachable(w3, max, DeleteSession(5), w);
  }

  /** The opener of a session that never came to be gives everything back, whether its
      source was not acquired or it gave up later. */
  lemma OpenerGivesBack(max: nat, acquired: bool) returns (w: World)
    requires max > 0
    ensures Reachable(w, max) && w == START
  {
    assert Run(max, [START], []);
    var w1 := Next(START, max, Open(0));
    StepIsReachable(START, max, Open(0), w1);
    assert w1.t.reserved == 1;
    var w2 := Next(w1, max, Acquire(0, acquired));
    StepIsReachable(w1, max, Acquire(0, acquired), w2);
    if acquired {
      var w3 := Next(w2, max, GiveUp(0));
      StepIsReachable(w2, max, GiveUp(0), w3);
      w2 := Next(w3, max, ReleaseDemand(0));
      StepIsReachable(w3, max, ReleaseDemand(0), w2);
    }
    w := Next(w2, max, ReleaseSlot(0));
    StepIsReachable(w2, max, ReleaseSlot(0), w);
  }

  // ----- once the edge closes

  lemma ClosingStepAddsNothing(w: World, max: nat, a: Action, v: World)
    requires Enabled(w, max, a) && v == Next(w, max, a) && w.t.closing
    ensures v.t.closing && v.t.sessions <= w.t.sessions
  {
  }

  lemma {:induction false} StaysClosing(max: nat, ws: seq<World>, acts: seq<Action>, i: nat, j: nat)
    requires Run(max, ws, acts) && i <= j < |ws| && ws[i].t.closing
    ensures ws[j].t.closing && ws[j].t.sessions <= ws[i].t.sessions
    decreases j - i
  {
    if i < j {
      StaysClosing(max, ws, acts, i, j - 1);
      assert Enabled(ws[j - 1], max, acts[j - 1]) && ws[j] == Next(ws[j - 1], max, acts[j - 1]);
      ClosingStepAddsNothing(ws[j - 1], max, acts[j - 1], ws[j]);
    }
  }

  /** No session is added once the edge closes. */
  lemma ClosingAddsNothing(max: nat, ws: seq<World>, acts: seq<Action>, i: nat, j: nat)
    requires Run(max, ws, acts) && i < j < |ws| && acts[i] == StartClosing
    ensures ws[j].t.sessions <= ws[i].t.sessions
  {
    assert Enabled(ws[i], max, acts[i]) && ws[i + 1] == Next(ws[i], max, acts[i]);
    StaysClosing(max, ws, acts, i + 1, j);
  }
}
