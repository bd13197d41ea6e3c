/** A session against everything that it holds: `WhepProtocol` for the session x that the
    opener o creates, `SlotProtocol` for the server's slots, `LeaseProtocol` for the
    demand on its source, in lockstep where the code does several things as one.

    The opener's demand is one of those granted by the lease until its link hands it over
    to the session; everybody else leaves it and the session x alone. */
module SessionHold {
  import opened LeaseSections
  import H = WhepProtocol
  import W = WhepSections
  import T = SlotProtocol
  import L = LeaseProtocol

  datatype World = World(h: H.World, t: T.World, l: L.World)

  function Start(kind: Kind): World {
    World(H.START, T.START, L.Start(kind))
  }

  datatype Action =
    | HAlone(h: H.Action)                          // the native side, passes, and the close under way
    | TAlone(t: T.Action)                          // other openers and sessions
    | LAlone(l: L.Action)                          // other users of the source
    | Acquired(ok: bool)
    | Insert
    | Link                                         // releasePending(session)
    | Undemand                                     // releasePending("")
    | Answer(reply: W.Reply, closing: bool)
    | Ask(c: H.CloseAction)                        // takes the session's mutex to close it
    | CloseFails(c: H.CloseAction)
    | Confirm
    | Unlink                                       // removeSession
    | StartClosing

  /** The opener's own demand among those granted. */
  function Own(openers: map<nat, T.Opener>, o: nat): nat {
    if o in openers && (openers[o].Demanding? || openers[o].Inserted? || openers[o].Undemand?) then 1 else 0
  }

  /** Close steps after which nobody closes any more, or the close goes on. */
  predicate Ends(w: H.World, c: H.CloseAction)
    requires H.CloseEnabled(w, c)
  {
    H.CloseNext(w, c).closer.NoCloser?
  }

  predicate HEnabled(w: World, x: nat, o: nat, a: H.Action) {
    && H.Enabled(w.h, a)
    && match a
       case Post => o in w.t.openers && w.t.openers[o] == T.Linked(x)
       case CreationReply(_, _) => false
       case Close(c) =>
         if w.h.closer.NoCloser? then c.BeginClose? && w.h.s.opening && x in w.t.items
         else !Ends(w.h, c)
       case _ => true
  }

  predicate TEnabled(w: World, max: nat, x: nat, o: nat, a: T.Action) {
    && T.Enabled(w.t, max, a)
    && match a
       case Acquire(q, _) => q != o
       case InsertSession(q, id) => q != o && id != x
       case LinkSession(q) => q != o
       case Answered(q) => q != o
       case ReleaseDemand(q) => q != o
       case BeginClose(id) => id != x
       case CloseFails(id) => id != x
       case CloseConfirmed(id) => id != x
       case Unlink(id) => id != x
       case StartClosing => false
       case _ => true
  }

  predicate LEnabled(w: World, x: nat, o: nat, a: L.Action) {
    && L.Enabled(w.l, a) && !a.BeginClose?
    && (a.Release? ==> a.session != x && w.l.granted > Own(w.t.openers, o))
    && (a.StartRecording? ==> w.l.granted > Own(w.t.openers, o))
    && (a.DropSession? ==> a.session != x)
  }

  predicate Enabled(w: World, max: nat, x: nat, o: nat, a: Action) {
    match a
    case HAlone(s) => HEnabled(w, x, o, s)
    case TAlone(s) => TEnabled(w, max, x, o, s)
    case LAlone(s) => LEnabled(w, x, o, s)
    case Acquired(ok) => T.Enabled(w.t, max, T.Acquire(o, ok)) && (ok ==> w.l.granted > 0)
    case Insert => T.Enabled(w.t, max, T.InsertSession(o, x))
    case Link => T.Enabled(w.t, max, T.LinkSession(o)) && L.Enabled(w.l, L.Release(x))
    case Undemand => T.Enabled(w.t, max, T.ReleaseDemand(o)) && L.Enabled(w.l, L.Release(0))
    case Answer(reply, closing) => T.Enabled(w.t, max, T.Answered(o)) && H.Enabled(w.h, H.CreationReply(reply, closing))
    case Ask(c) =>
      && T.Enabled(w.t, max, T.BeginClose(x))
      && H.CloseEnabled(w.h, c) && (c.BeginClose? || c.BeginLocal?)
    case CloseFails(c) =>
      && T.Enabled(w.t, max, T.CloseFails(x))
      && !w.h.closer.NoCloser? && !c.MarkClosed? && H.CloseEnabled(w.h, c) && Ends(w.h, c)
    case Confirm => T.Enabled(w.t, max, T.CloseConfirmed(x)) && H.CloseEnabled(w.h, H.MarkClosed)
    case Unlink => T.Enabled(w.t, max, T.Unlink(x))
    case StartClosing => true
  }

  function Next(w: World, max: nat, x: nat, o: nat, a: Action): World
    requires Enabled(w, max, x, o, a)
  {
    match a
    case HAlone(s) => w.(h := H.Next(w.h, s))
    case TAlone(s) => w.(t := T.Next(w.t, max, s))
    case LAlone(s) => w.(l := L.Next(w.l, s))
    case Acquired(ok) => w.(t := T.Next(w.t, max, T.Acquire(o, ok)))
    case Insert => w.(t := T.Next(w.t, max, T.InsertSession(o, x)))
    case Link => w.(t := T.Next(w.t, max, T.LinkSession(o)), l := L.Next(w.l, L.Release(x)))
    case Undemand => w.(t := T.Next(w.t, max, T.ReleaseDemand(o)), l := L.Next(w.l, L.Release(0)))
    case Answer(reply, closing) =>
      w.(t := T.Next(w.t, max, T.Answered(o)), h := H.Next(w.h, H.CreationReply(reply, closing)))
    case Ask(c) => w.(t := T.Next(w.t, max, T.BeginClose(x)), h := H.CloseNext(w.h, c))
    case CloseFails(c) => w.(t := T.Next(w.t, max, T.CloseFails(x)), h := H.CloseNext(w.h, c))
    case Confirm => w.(t := T.Next(w.t, max, T.CloseConfirmed(x)), h := H.CloseNext(w.h, H.MarkClosed))
    case Unlink => w.(t := T.Next(w.t, max, T.Unlink(x)), l := L.Next(w.l, L.DropSession(x)))
    case StartClosing => w.(t := T.Next(w.t, max, T.StartClosing), l := L.Next(w.l, L.BeginClose))
  }

  // ----- invariant

  /** What the slots and the native side say about the session agrees. */
  predicate Same(h: H.World, t: T.World, x: nat) {
    if x in t.items then
      && (t.items[x].opening <==> h.s.opening)
      && (t.items[x].closed <==> h.s.closed)
      && (t.items[x].close.Asking? <==> !h.closer.NoCloser?)
    else
      !h.posted && h.closer.NoCloser? && !h.s.closed
  }

  /** Only its opener creates the session, and asks for it natively once it is linked. */
  predicate Opens(h: H.World, t: T.World, x: nat, o: nat) {
    && (forall q :: q in t.openers && T.Creating(t.openers[q]) ==> (t.openers[q].id == x <==> q == o))
    && (x in t.items && t.items[x].opening ==> o in t.openers && T.Creating(t.openers[o]))
    && (o in t.openers && T.Creating(t.openers[o]) ==> x in t.items && t.items[x].opening)
    && (h.posted && h.s.opening ==> o in t.openers && t.openers[o].Linked?)
  }

  /** The source counts the session while it is linked, and the demand before. */
  predicate Demands(t: T.World, l: L.World, x: nat, o: nat) {
    && (x in l.s.sessions <==> x in t.linked)
    && Own(t.openers, o) <= l.granted
    && (x in t.linked ==> x in t.items)
  }

  ghost predicate Joint(w: World, x: nat, o: nat) {
    Same(w.h, w.t, x) && Opens(w.h, w.t, x, o) && Demands(w.t, w.l, x, o)
  }

  ghost predicate Inv(w: World, max: nat, x: nat, o: nat) {
    H.Inv(w.h) && T.Inv(w.t, max) && L.Inv(w.l) && Joint(w, x, o)
  }

  // ----- every step keeps it

  /** Other users of the source leave the session and the opener's demand alone. */
  lemma LeaseLeaves(w: World, x: nat, o: nat, a: L.Action, k: L.World)
    requires LEnabled(w, x, o, a) && k == L.Next(w.l, a) && Own(w.t.openers, o) <= w.l.granted
    ensures x in k.s.sessions <==> x in w.l.s.sessions
    ensures Own(w.t.openers, o) <= k.granted
  {
    L.StepFrame(w.l, a, k);
  }

  /** As far as the slots are concerned nothing changed. */
  predicate LooksTheSame(h: H.World, k: H.World) {
    && k.s.opening == h.s.opening && k.s.closed == h.s.closed
    && k.closer.NoCloser? == h.closer.NoCloser?
    && k.posted == h.posted
  }

  lemma NativeLooksTheSame(h: H.World, a: H.NativeAction)
    requires H.NativeEnabled(h, a)
    ensures LooksTheSame(h, H.NativeNext(h, a))
  {
  }

  lemma PassLooksTheSame(h: H.World, a: H.PassAction)
    requires H.PassEnabled(h, a)
    ensures LooksTheSame(h, H.PassNext(h, a))
  {
  }

  /** A close step changes only whether the session is closed and who closes it. */
  predicate Changes(h: H.World, c: H.CloseAction, k: H.World) {
    && k.s.opening == h.s.opening && k.posted == h.posted
    && k.s.closed == (h.s.closed || c.MarkClosed?)
    && (c.MarkClosed? ==> k.closer.NoCloser?)
    && (c.BeginClose? ==> k.closer.NoCloser? == h.s.opening)
    && (c.BeginLocal? ==> !k.closer.NoCloser?)
    && (h.closer.NoCloser? ==> c.BeginClose? || c.BeginLocal?)
  }

  lemma CloseChanges(h: H.World, c: H.CloseAction, k: H.World)
    requires H.CloseEnabled(h, c) && k == H.CloseNext(h, c)
    ensures Changes(h, c, k)
  {
    if c.BeginClose? || c.BeginLocal? || c.MarkClosed? {
      EndsChange(h, c, k);
    } else if c.DecideClose? || c.KickEffect? || c.KickReply? {
      KicksChange(h, c, k);
    } else {
      AsksChange(h, c, k);
    }
  }

  lemma EndsChange(h: H.World, c: H.CloseAction, k: H.World)
    requires H.CloseEnabled(h, c) && k == H.CloseNext(h, c) && (c.BeginClose? || c.BeginLocal? || c.MarkClosed?)
    ensures Changes(h, c, k)
  {
  }

  lemma KicksChange(h: H.World, c: H.CloseAction, k: H.World)
    requires H.CloseEnabled(h, c) && k == H.CloseNext(h, c) && (c.DecideClose? || c.KickEffect? || c.KickReply?)
    ensures Changes(h, c, k)
  {
  }

  lemma AsksChange(h: H.World, c: H.CloseAction, k: H.World)
    requires H.CloseEnabled(h, c) && k == H.CloseNext(h, c)
    requires c.DeleteEffect? || c.DeleteReply? || c.TakeInventory? || c.InventoryFails?
    ensures Changes(h, c, k)
  {
  }

  lemma HAloneKeepsJoint(w: World, max: nat, x: nat, o: nat, a: H.Action, v: World)
    requires Joint(w, x, o) && HEnabled(w, x, o, a) && v == w.(h := H.Next(w.h, a))
    ensures Joint(v, x, o)
  {
    match a
    case Native(n) => NativeLooksTheSame(w.h, n);
    case OfPass(p) => PassLooksTheSame(w.h, p);
    case Close(c) => CloseChanges(w.h, c, v.h);
    case Post =>
  }

  lemma OthersCloseKeepsJoint(w: World, max: nat, x: nat, o: nat, a: T.Action, v: World)
    requires Joint(w, x, o) && TEnabled(w, max, x, o, a) && v == w.(t := T.Next(w.t, max, a))
    requires T.Closes(a) || a.DeleteSession?
    ensures Joint(v, x, o)
  {
  }

  lemma OthersOpenKeepsJoint(w: World, max: nat, x: nat, o: nat, a: T.Action, v: World)
    requires T.Openers(w.t.openers, w.t.items) && Joint(w, x, o)
    requires TEnabled(w, max, x, o, a) && v == w.(t := T.Next(w.t, max, a))
    requires !T.Closes(a) && !a.DeleteSession?
    ensures Joint(v, x, o)
  {
  }

  lemma LAloneKeepsJoint(w: World, max: nat, x: nat, o: nat, a: L.Action, v: World)
    requires Inv(w, max, x, o) && LEnabled(w, x, o, a) && v == w.(l := L.Next(w.l, a))
    ensures Joint(v, x, o)
  {
    LeaseLeaves(w, x, o, a, v.l);
  }

  lemma AcquiredKeepsJoint(w: World, max: nat, x: nat, o: nat, a: Action, v: World)
    requires Inv(w, max, x, o) && Enabled(w, max, x, o, a) && (a.Acquired? || a.Insert?) && v == Next(w, max, x, o, a)
    ensures Joint(v, x, o)
  {
  }

  lemma LinkKeepsJoint(w: World, max: nat, x: nat, o: nat, v: World)
    requires Inv(w, max, x, o) && x != 0 && Enabled(w, max, x, o, Link) && v == Next(w, max, x, o, Link)
    ensures Joint(v, x, o)
  {
    L.StepFrame(w.l, L.Release(x), v.l);
  }

  lemma UndemandKeepsJoint(w: World, max: nat, x: nat, o: nat, v: World)
    requires Inv(w, max, x, o) && Enabled(w, max, x, o, Undemand) && v == Next(w, max, x, o, Undemand)
    ensures Joint(v, x, o)
  {
    L.StepFrame(w.l, L.Release(0), v.l);
  }

  lemma AnswerKeepsJoint(w: World, max: nat, x: nat, o: nat, a: Action, v: World)
    requires Inv(w, max, x, o) && Enabled(w, max, x, o, a) && a.Answer? && v == Next(w, max, x, o, a)
    ensures Joint(v, x, o)
  {
    assert w.t.openers[o].Linked?;
  }

  lemma AskKeepsJoint(w: World, max: nat, x: nat, o: nat, c: H.CloseAction, v: World)
    requires Joint(w, x, o) && Enabled(w, max, x, o, Ask(c)) && v == Next(w, max, x, o, Ask(c))
    ensures Joint(v, x, o)
  {
    CloseChanges(w.h, c, v.h);
  }

  lemma FailsKeepsJoint(w: World, max: nat, x: nat, o: nat, c: H.CloseAction, v: World)
    requires Joint(w, x, o) && Enabled(w, max, x, o, CloseFails(c)) && v == Next(w, max, x, o, CloseFails(c))
    ensures Joint(v, x, o)
  {
    CloseChanges(w.h, c, v.h);
  }

  lemma ConfirmKeepsJoint(w: World, max: nat, x: nat, o: nat, v: World)
    requires Inv(w, max, x, o) && Enabled(w, max, x, o, Confirm) && v == Next(w, max, x, o, Confirm)
    ensures Joint(v, x, o)
  {
    CloseChanges(w.h, H.MarkClosed, v.h);
    assert T.ItemOk(w.t, x);
  }

  lemma UnlinkKeepsJoint(w: World, max: nat, x: nat, o: nat, v: World)
    requires Joint(w, x, o) && Enabled(w, max, x, o, Unlink) && v == Next(w, max, x, o, Unlink)
    ensures Joint(v, x, o)
  {
    L.StepFrame(w.l, L.DropSession(x), v.l);
  }

  predicate Alone(a: Action) {
    a.HAlone? || a.TAlone? || a.LAlone?
  }

  predicate Closes(a: Action) {
    a.Answer? || a.Ask? || a.CloseFails? || a.Confirm?
  }

  lemma AloneKeepsJoint(w: World, max: nat, x: nat, o: nat, a: Action, v: World)
    requires Inv(w, max, x, o) && Alone(a) && Enabled(w, max, x, o, a) && v == Next(w, max, x, o, a)
    ensures Joint(v, x, o)
  {
    match a
    case HAlone(s) => HAloneKeepsJoint(w, max, x, o, s, v);
    case TAlone(s) =>
      if T.Closes(s) || s.DeleteSession? {
        OthersCloseKeepsJoint(w, max, x, o, s, v);
      } else {
        OthersOpenKeepsJoint(w, max, x, o, s, v);
      }
    case LAlone(s) => LAloneKeepsJoint(w, max, x, o, s, v);
  }

  lemma CloseKeepsJoint(w: World, max: nat, x: nat, o: nat, a: Action, v: World)
    requires Inv(w, max, x, o) && Closes(a) && Enabled(w, max, x, o, a) && v == Next(w, max, x, o, a)
    ensures Joint(v, x, o)
  {
    match a
    case Answer(_, _) => AnswerKeepsJoint(w, max, x, o, a, v);
    case Ask(c) => AskKeepsJoint(w, max, x, o, c, v);
    case CloseFails(c) => FailsKeepsJoint(w, max, x, o, c, v);
    case Confirm => ConfirmKeepsJoint(w, max, x, o, v);
  }

  lemma DemandKeepsJoint(w: World, max: nat, x: nat, o: nat, a: Action, v: World)
    requires Inv(w, max, x, o) && x != 0 && !Alone(a) && !Closes(a)
    requires Enabled(w, max, x, o, a) && v == Next(w, max, x, o, a)
    ensures Joint(v, x, o)
  {
    match a
    case Link => LinkKeepsJoint(w, max, x, o, v);
    case Undemand => UndemandKeepsJoint(w, max, x, o, v);
    case Unlink => UnlinkKeepsJoint(w, max, x, o, v);
    case StartClosing => L.StepFrame(w.l, L.BeginClose, v.l);
    case _ => AcquiredKeepsJoint(w, max, x, o, a, v);
  }

  lemma StepKeepsJoint(w: World, max: nat, x: nat, o: nat, a: Action, v: World)
    requires Inv(w, max, x, o) && x != 0 && Enabled(w, max, x, o, a) && v == Next(w, max, x, o, a)
    ensures Joint(v, x, o)
  {
    if Alone(a) {
      AloneKeepsJoint(w, max, x, o, a, v);
    } else if Closes(a) {
      CloseKeepsJoint(w, max, x, o, a, v);
    } else {
      DemandKeepsJoint(w, max, x, o, a, v);
    }
  }

  // the parts go on as themselves

  lemma SlotsGoOn(w: World, max: nat, x: nat, o: nat, a: Action, v: World)
    requires T.Inv(w.t, max) && Enabled(w, max, x, o, a) && v == Next(w, max, x, o, a)
    ensures T.Inv(v.t, max)
  {
    match a
    case HAlone(_) =>
    case LAlone(_) =>
    case TAlone(s) => T.StepKeepsInv(w.t, max, s, v.t);
    case Acquired(ok) => T.StepKeepsInv(w.t, max, T.Acquire(o, ok), v.t);
    case Insert => T.StepKeepsInv(w.t, max, T.InsertSession(o, x), v.t);
    case Link => T.StepKeepsInv(w.t, max, T.LinkSession(o), v.t);
    case Undemand => T.StepKeepsInv(w.t, max, T.ReleaseDemand(o), v.t);
    case Answer(_, _) => T.StepKeepsInv(w.t, max, T.Answered(o), v.t);
    case Ask(_) => T.StepKeepsInv(w.t, max, T.BeginClose(x), v.t);
    case CloseFails(_) => T.StepKeepsInv(w.t, max, T.CloseFails(x), v.t);
    case Confirm => T.StepKeepsInv(w.t, max, T.CloseConfirmed(x), v.t);
    case Unlink => T.StepKeepsInv(w.t, max, T.Unlink(x), v.t);
    case StartClosing => T.StepKeepsInv(w.t, max, T.StartClosing, v.t);
  }

  lemma LeaseGoesOn(w: World, max: nat, x: nat, o: nat, a: Action, v: World)
    requires L.Inv(w.l) && Enabled(w, max, x, o, a) && v == Next(w, max, x, o, a)
    ensures L.Inv(v.l) && v.l.kind == w.l.kind
  {
    match a
    case LAlone(s) => L.StepKeepsSound(w.l.kind, w.l, s, v.l);
    case Link => L.StepKeepsSound(w.l.kind, w.l, L.Release(x), v.l);
    case Undemand => L.StepKeepsSound(w.l.kind, w.l, L.Release(0), v.l);
    case Unlink => L.StepKeepsSound(w.l.kind, w.l, L.DropSession(x), v.l);
    case StartClosing => L.StepKeepsSound(w.l.kind, w.l, L.BeginClose, v.l);
    case _ =>
  }

  lemma NativeGoesOn(w: World, max: nat, x: nat, o: nat, a: Action, v: World)
    requires H.Inv(w.h) && Enabled(w, max, x, o, a) && v == Next(w, max, x, o, a)
    ensures H.Inv(v.h)
  {
    match a
    case HAlone(s) => H.StepKeepsInv(w.h, s, v.h);
    case Answer(reply, closing) => H.StepKeepsInv(w.h, H.CreationReply(reply, closing), v.h);
    case Ask(c) => H.StepKeepsInv(w.h, H.Close(c), v.h);
    case CloseFails(c) => H.StepKeepsInv(w.h, H.Close(c), v.h);
    case Confirm => H.StepKeepsInv(w.h, H.Close(H.MarkClosed), v.h);
    case _ =>
  }

  lemma StepKeepsInv(w: World, max: nat, x: nat, o: nat, a: Action, v: World)
    requires Inv(w, max, x, o) && x != 0 && Enabled(w, max, x, o, a) && v == Next(w, max, x, o, a)
    ensures Inv(v, max, x, o)
  {
    SlotsGoOn(w, max, x, o, a, v);
    LeaseGoesOn(w, max, x, o, a, v);
    NativeGoesOn(w, max, x, o, a, v);
    StepKeepsJoint(w, max, x, o, a, v);
  }

  // ----- over every run

  ghost predicate Run(kind: Kind, max: nat, x: nat, o: nat, ws: seq<World>, acts: seq<Action>) {
    && x != 0
    && |ws| == |acts| + 1
    && ws[0] == Start(kind)
    && forall i {:trigger acts[i]} :: 0 <= i < |acts| ==> Enabled(ws[i], max, x, o, acts[i]) && ws[i + 1] == Next(ws[i], max, x, o, acts[i])
  }

  lemma StartIsSound(kind: Kind, max: nat, x: nat, o: nat)
    requires x != 0
    ensures Inv(Start(kind), max, x, o)
  {
  }

  lemma {:induction false} RunKeepsInv(kind: Kind, max: nat, x: nat, o: nat, ws: seq<World>, acts: seq<Action>, i: nat)
    requires Run(kind, max, x, o, ws, acts) && i < |ws|
    ensures Inv(ws[i], max, x, o)
  {
    if i == 0 {
      StartIsSound(kind, max, x, o);
    } else {
      RunKeepsInv(kind, max, x, o, ws, acts, i - 1);
      StepKeepsInv(ws[i - 1], max, x, o, acts[i - 1], ws[i]);
    }
  }

  /** The session has its slot, and its source counts it as a consumer; until the edge
      closes, the lease of the source is active and no stop of it is under way. */
  ghost predicate Holds(w: World, x: nat) {
    && x in w.t.t.sessions
    && HasConsumers(w.l.s)
    && !L.StopInFlight(w.l.life)
    && (!w.l.closing ==> w.l.s.active)
  }

  /** From its insertion until it is closed a session holds its slot and its demand
      without a gap: first as the opener's pending demand, then as a session of the
      source. */
  lemma HeldUntilClosed(kind: Kind, max: nat, x: nat, o: nat, ws: seq<World>, acts: seq<Action>, i: nat)
    requires Run(kind, max, x, o, ws, acts) && i < |ws|
    requires x in ws[i].t.items && !ws[i].h.s.closed
    ensures Holds(ws[i], x)
    ensures x in ws[i].l.s.sessions || (o in ws[i].t.openers && ws[i].t.openers[o] == T.Inserted(x))
    ensures |ws[i].t.t.sessions| + ws[i].t.t.reserved <= max
  {
    RunKeepsInv(kind, max, x, o, ws, acts, i);
    assert T.ItemOk(ws[i].t, x);
    if T.CoveredByOpener(ws[i].t.openers, x) {
      var q :| q in ws[i].t.openers && ws[i].t.openers[q] == T.Inserted(x);
      assert T.Creating(ws[i].t.openers[q]);
    }
  }

  /** After a creation that failed, as long as a native session carries the token or one
      still can, the slot is held and the source counts the session. */
  lemma FailedCreationHoldsSlotAndDemand(kind: Kind, max: nat, x: nat, o: nat, ws: seq<World>, acts: seq<Action>, i: nat)
    requires Run(kind, max, x, o, ws, acts) && i < |ws|
    requires H.Failed(ws[i].h) && (ws[i].h.native != 0 || !H.NoMore(ws[i].h))
    ensures x in ws[i].t.t.sessions && x in ws[i].l.s.sessions && Holds(ws[i], x)
  {
    RunKeepsInv(kind, max, x, o, ws, acts, i);
    HeldUntilClosed(kind, max, x, o, ws, acts, i);
  }

  /** And it is released in the end: once the remover of a closed session is done, neither
      the server nor the source has it. */
  lemma ReleasedInTheEnd(kind: Kind, max: nat, x: nat, o: nat, ws: seq<World>, acts: seq<Action>, i: nat)
    requires Run(kind, max, x, o, ws, acts) && i < |ws|
    requires x in ws[i].t.items && ws[i].h.s.closed && ws[i].t.items[x].close.Idle?
    ensures x !in ws[i].t.t.sessions && x !in ws[i].l.s.sessions
  {
    RunKeepsInv(kind, max, x, o, ws, acts, i);
    assert T.ItemOk(ws[i].t, x);
  }
}
