/** One WHEP session against the native server, as a step system.

    The environment decides when the native side creates the session, drops it,
    and which replies get through. It is assumed that one POST creates at most one
    native session, that inventories are complete and truthful at the instant they
    are taken, that a full HTTP failure response is sent only after creation has
    finished, and that a confirmed deletion has taken effect.

    A reconcile pass takes its inventory first and comes to the session later; it may
    then give up a session that the inventory lacks. */
module WhepProtocol {
  import opened WhepSections

  /** Who holds the session's mutex, and where its close has got to. */
  datatype Closer =
    | NoCloser
    | Deleting                       // DELETE on the known location is in flight
    | Listing                        // waiting for the inventory
    | Listed(found: Match)
    | Kicking(id: nat)
    | Confirmed                      // about to mark the session closed
    | Local(byPass: bool)            // close without asking the native side

  /** The inventory of the pass under way: whether the session was missing, whether
      its creation call had returned by then, and (`early`) whether the native side
      had yet to create it. */
  datatype Pass = NoPass | Took(absent: bool, answered: bool, early: bool)

  datatype World = World(
    s: Session,
    posted: bool,                    // the creation call was sent
    finished: bool,                  // the native side is done with it
    created: bool,                   // it created a session, now or earlier
    native: nat,                     // the native session that carries the token, 0 if none
    dropped: bool,                   // it created one that is gone again
    replied: bool,                   // the creation call returned
    reply: Reply,                    // and how
    closer: Closer,
    pass: Pass,
    plan: Pass,                      // the inventory by which a pass decided to give the session up
    gaveUp: bool,                    // and did
    exited: bool)                    // the native server has exited

  const START := World(NEW_SESSION, false, false, false, 0, false, false, Lost, NoCloser, NoPass, NoPass, false, false)

  datatype NativeAction = Create(id: nat) | FinishCreation | Drop | ChildExit

  datatype CloseAction =
    | BeginClose                     // closeSession(item, true)
    | DeleteEffect
    | DeleteReply(ok: bool)
    | TakeInventory(found: Match)
    | InventoryFails
    | DecideClose
    | KickEffect
    | KickReply(ok: bool)
    | BeginLocal(byPass: bool)       // closeSession(item, false)
    | MarkClosed

  datatype PassAction =
    | PassInventory
    | GiveUp                         // the inventory lacks a session that should have appeared
    | Misplaced                      // it shows the session on another path
    | EndPass

  datatype Action =
    | Post
    | CreationReply(reply: Reply, closing: bool)
    | Native(n: NativeAction)
    | Close(c: CloseAction)
    | OfPass(p: PassAction)

  predicate NativeEnabled(w: World, a: NativeAction) {
    match a
    case Create(id) => w.posted && !w.finished && !w.created && !w.exited && id != 0
    case FinishCreation => w.posted && !w.finished
    case Drop => w.native != 0
    case ChildExit => true
  }

  predicate CloseEnabled(w: World, a: CloseAction) {
    match a
    case BeginClose => w.closer.NoCloser? && !w.s.closed
    case DeleteEffect => w.closer.Deleting?
    case DeleteReply(ok) => w.closer.Deleting? && (ok ==> w.native == 0)
    case TakeInventory(found) =>
      && w.closer.Listing?
      && (found.Absent? ==> w.native == 0)
      && (found.Found? ==> w.native == found.id != 0 && (w.s.observed == 0 || w.s.observed == found.id))
    case InventoryFails => w.closer.Listing?
    case DecideClose => w.closer.Listed?
    case KickEffect => w.closer.Kicking?
    case KickReply(ok) => w.closer.Kicking? && (ok ==> w.native != w.closer.id)
    case BeginLocal(byPass) => w.closer.NoCloser? && !w.s.closed && (if byPass then w.plan.Took? else w.exited)
    case MarkClosed => w.closer.Confirmed? || w.closer.Local?
  }

  predicate PassEnabled(w: World, a: PassAction) {
    match a
    case PassInventory => w.pass.NoPass?
    case GiveUp =>
      && w.pass.Took? && w.pass.absent
      && w.closer.NoCloser? && !w.s.opening && !w.s.closeRequested && !w.s.closed
    case Misplaced => w.pass.Took? && !w.pass.absent && w.closer.NoCloser? && !w.s.opening && !w.s.closeRequested
    case EndPass => w.pass.Took?
  }

  predicate Enabled(w: World, a: Action) {
    match a
    case Post => !w.posted && w.s.opening
    case CreationReply(reply, _) =>
      && w.posted && !w.replied
      && w.closer.NoCloser?
      && (reply.Created? ==> w.created)
      && (reply.Rejected? ==> w.finished)
    case Native(n) => NativeEnabled(w, n)
    case Close(c) => CloseEnabled(w, c)
    case OfPass(p) => PassEnabled(w, p)
  }

  /** The native session is gone. */
  function Dropped(w: World): World {
    w.(native := 0, dropped := w.dropped || w.native != 0)
  }

  function NativeNext(w: World, a: NativeAction): World
    requires NativeEnabled(w, a)
  {
    match a
    case Create(id) => w.(created := true, native := id)
    case FinishCreation => w.(finished := true)
    case Drop => Dropped(w)
    case ChildExit => Dropped(w).(exited := true, finished := w.finished || w.posted)
  }

  function CloseNext(w: World, a: CloseAction): World
    requires CloseEnabled(w, a)
  {
    match a
    case BeginClose =>
      var s := RequestClose(w.s);
      if s.opening then w.(s := s)
      else w.(s := s, closer := if s.located then Deleting else Listing)
    case DeleteEffect => Dropped(w)
    case DeleteReply(ok) => w.(closer := if ok then Confirmed else NoCloser)
    case TakeInventory(found) => w.(closer := Listed(found))
    case InventoryFails => w.(closer := NoCloser)
    case DecideClose =>
      w.(s := Observe(w.s, w.closer.found),
         closer := match Decide(w.s, w.closer.found)
                   case Gone => Confirmed
                   case Kick(id) => Kicking(id)
                   case Retain => NoCloser)
    case KickEffect => if w.native == w.closer.id then Dropped(w) else w
    case KickReply(ok) => w.(closer := if ok then Confirmed else NoCloser)
    case BeginLocal(byPass) => w.(s := RequestClose(w.s), closer := Local(byPass))
    case MarkClosed =>
      w.(s := w.s.(closed := true), closer := NoCloser, gaveUp := w.closer.Local? && w.closer.byPass)
  }

  function PassNext(w: World, a: PassAction): World
    requires PassEnabled(w, a)
  {
    match a
    case PassInventory => w.(pass := Took(w.native == 0, w.replied, !w.created))
    case GiveUp => w.(plan := w.pass)
    case Misplaced => w.(s := RequestClose(w.s))
    case EndPass => w.(pass := NoPass)
  }

  function Next(w: World, a: Action): World
    requires Enabled(w, a)
  {
    match a
    case Post => w.(posted := true)
    case CreationReply(reply, closing) => w.(s := CreationReplied(w.s, reply, closing), replied := true, reply := reply)
    case Native(n) => NativeNext(w, n)
    case Close(c) => CloseNext(w, c)
    case OfPass(p) => PassNext(w, p)
  }

  /** A complete inventory taken while `native` is what carries the token. */
  ghost predicate Complete(inventory: seq<NativeSession>, token: nat, native: nat) {
    && (forall k :: 0 <= k < |inventory| && Carries(inventory[k], token) ==> inventory[k].id == native)
    && (native != 0 ==> exists k :: 0 <= k < |inventory| && Carries(inventory[k], token))
    && (native == 0 ==> forall k :: 0 <= k < |inventory| ==> !Carries(inventory[k], token))
  }

  /** What is found in a complete inventory is what `TakeInventory` assumes. */
  lemma InventoryTellsTheTruth(w: World, inventory: seq<NativeSession>, token: nat, path: nat, found: Match)
    requires w.closer.Listing? && Complete(inventory, token, w.native)
    requires Finds(inventory, token, path, w.s.observed, found)
    ensures Enabled(w, Close(TakeInventory(found)))
  {
    if found.Found? {
      assert found == Found(found.id);
    }
  }

  // ----- invariant

  /** The one creation there can be has happened, or cannot happen any more. */
  predicate NoMore(w: World) {
    w.finished || w.created || w.exited
  }

  predicate Gone(w: World) {
    w.native == 0 && NoMore(w)
  }

  predicate Failed(w: World) {
    w.replied && !w.reply.Created?
  }

  /** What the native side did, and what is known of it. */
  predicate Creation(w: World) {
    && (w.native != 0 ==> w.created && !w.exited)
    && (w.created ==> w.posted)
    && (w.dropped <==> w.created && w.native == 0)
    && (w.s.opening <==> !w.replied)
    && (w.replied ==> w.posted)
    && (w.s.located <==> w.replied && w.reply.Created?)
    && (w.s.located ==> w.created)
    && (w.s.observed != 0 ==> w.created && (w.native == 0 || w.native == w.s.observed))
    && (w.s.responseComplete <==> w.replied && w.reply.Rejected?)
    && (w.s.responseComplete ==> w.finished)
    && (Failed(w) ==> w.s.closeRequested)
  }

  predicate Asks(c: Closer) {
    c.Listing? || c.Listed? || c.Kicking?
  }

  predicate Closing(w: World) {
    && (!w.closer.NoCloser? ==> !w.s.closed)
    && (Asks(w.closer) || w.closer.Deleting? || w.closer.Confirmed? ==> w.replied && w.s.closeRequested)
    && (w.closer.Deleting? ==> w.s.located)
    && (Asks(w.closer) ==> Failed(w))
    && (w.closer.Listed? && w.closer.found.Absent? && (w.s.responseComplete || w.s.observed != 0) ==> w.native == 0)
    && (w.closer.Listed? && w.closer.found.Found? ==> w.created && (w.native == 0 || w.native == w.closer.found.id))
    && (w.closer.Kicking? ==> w.created && (w.native == 0 || w.native == w.closer.id))
    && (w.closer.Confirmed? ==> Gone(w))
  }

  /** What a pass knows of a session it missed: unless it looked too early, the
      session is gone for good. It did not look too early once the creation had been
      answered. */
  predicate PassOk(w: World, pass: Pass) {
    pass.Took? ==>
      && (pass.early || w.created)
      && (pass.absent && !pass.early ==> w.native == 0)
      && (pass.answered && pass.early ==> Failed(w))
  }

  predicate Passing(w: World) {
    && PassOk(w, w.pass)
    && PassOk(w, w.plan)
    && (w.plan.Took? ==> w.s.located && w.plan.absent)
    && (w.closer.Local? ==> if w.closer.byPass then w.plan.Took? else w.exited)
    && (w.gaveUp ==> w.plan.Took?)
    && (w.s.closed ==> Gone(w) || w.gaveUp)
  }

  predicate Inv(w: World) {
    Creation(w) && Closing(w) && Passing(w)
  }

  // ----- every step keeps it

  lemma ReplyKeepsInv(w: World, a: Action, v: World)
    requires Inv(w) && Enabled(w, a) && (a.Post? || a.CreationReply?) && v == Next(w, a)
    ensures Inv(v)
  {
  }

  lemma NativeKeepsInv(w: World, a: NativeAction, v: World)
    requires Inv(w) && NativeEnabled(w, a) && v == NativeNext(w, a)
    ensures Inv(v)
  {
  }

  lemma CloseKeepsCreation(w: World, a: CloseAction, v: World)
    requires Inv(w) && CloseEnabled(w, a) && v == CloseNext(w, a)
    ensures Creation(v)
  {
  }

  lemma CloseKeepsClosing(w: World, a: CloseAction, v: World)
    requires Inv(w) && CloseEnabled(w, a) && v == CloseNext(w, a)
    ensures Closing(v)
  {
  }

  lemma CloseKeepsPassing(w: World, a: CloseAction, v: World)
    requires Inv(w) && CloseEnabled(w, a) && v == CloseNext(w, a)
    ensures Passing(v)
  {
  }

  lemma PassKeepsInv(w: World, a: PassAction, v: World)
    requires Inv(w) && PassEnabled(w, a) && v == PassNext(w, a)
    ensures Inv(v)
  {
  }

  lemma StepKeepsInv(w: World, a: Action, v: World)
    requires Inv(w) && Enabled(w, a) && v == Next(w, a)
    ensures Inv(v)
  {
    match a
    case Native(n) => NativeKeepsInv(w, n, v);
    case Close(c) =>
      CloseKeepsCreation(w, c, v);
      CloseKeepsClosing(w, c, v);
      CloseKeepsPassing(w, c, v);
    case OfPass(p) => PassKeepsInv(w, p, v);
    case _ => ReplyKeepsInv(w, a, v);
  }

  // ----- over every run

  /** `ws` is what `acts` make of a world, one after the other. */
  ghost predicate Continues(from: World, ws: seq<World>, acts: seq<Action>) {
    && |ws| == |acts| + 1
    && ws[0] == from
    && forall i {:trigger acts[i]} :: 0 <= i < |acts| ==> Enabled(ws[i], acts[i]) && ws[i + 1] == Next(ws[i], acts[i])
  }

  ghost predicate Run(ws: seq<World>, acts: seq<Action>) {
    Continues(START, ws, acts)
  }

  lemma {:induction false} InvContinues(from: World, ws: seq<World>, acts: seq<Action>, i: nat)
    requires Inv(from) && Continues(from, ws, acts) && i < |ws|
    ensures Inv(ws[i])
  {
    if i > 0 {
      InvContinues(from, ws, acts, i - 1);
      StepKeepsInv(ws[i - 1], acts[i - 1], ws[i]);
    }
  }

  lemma RunKeepsInv(ws: seq<World>, acts: seq<Action>, i: nat)
    requires Run(ws, acts) && i < |ws|
    ensures Inv(ws[i])
  {
    InvContinues(START, ws, acts, i);
  }

  lemma GoneStep(w: World, a: Action, v: World)
    requires Inv(w) && Gone(w) && Enabled(w, a) && v == Next(w, a)
    ensures Gone(v)
  {
  }

  lemma {:induction false} GoneContinues(from: World, ws: seq<World>, acts: seq<Action>, i: nat)
    requires Inv(from) && Gone(from) && Continues(from, ws, acts) && i < |ws|
    ensures Gone(ws[i])
  {
    if i > 0 {
      GoneContinues(from, ws, acts, i - 1);
      InvContinues(from, ws, acts, i - 1);
      GoneStep(ws[i - 1], acts[i - 1], ws[i]);
    }
  }

  /** No native session carries the token, and none ever will. */
  ghost predicate Final(w: World) {
    forall ws: seq<World>, acts: seq<Action> :: Continues(w, ws, acts) ==> ws[|ws| - 1].native == 0
  }

  lemma GoneIsFinal(w: World)
    requires Inv(w) && Gone(w)
    ensures Final(w)
  {
    forall ws: seq<World>, acts: seq<Action> | Continues(w, ws, acts) ensures ws[|ws| - 1].native == 0 {
      GoneContinues(w, ws, acts, |ws| - 1);
    }
  }

  /** Native absence is final in just the worlds in which it holds and the creation is
      over; the code sees neither. */
  lemma FinalExactly(w: World)
    requires Inv(w)
    ensures Final(w) <==> Gone(w)
  {
    if Gone(w) {
      GoneIsFinal(w);
    } else if w.native != 0 {
      assert Continues(w, [w], []);
    } else {
      var sent := if w.posted then w else Next(w, Post);
      var late := Next(sent, Native(Create(1)));
      var ws := if w.posted then [w, late] else [w, sent, late];
      var acts := if w.posted then [Native(Create(1))] else [Post, Native(Create(1))];
      assert Continues(w, ws, acts) && ws[|ws| - 1] == late;
    }
  }

  /** A session whose creation call failed is closed only when native absence is final. */
  lemma FailedCreationIsHeld(ws: seq<World>, acts: seq<Action>, i: nat)
    requires Run(ws, acts) && i < |ws| && ws[i].s.closed && Failed(ws[i])
    ensures Gone(ws[i]) && Final(ws[i])
  {
    RunKeepsInv(ws, acts, i);
    GoneIsFinal(ws[i]);
  }

  /** A closed session is still there natively exactly when a reconcile pass gave it up
      by an inventory taken before it was created and nothing dropped it since; anything
      else that closes a session leaves it gone for good. */
  lemma PrematureExactly(ws: seq<World>, acts: seq<Action>, i: nat)
    requires Run(ws, acts) && i < |ws| && ws[i].s.closed
    ensures ws[i].native != 0 <==> ws[i].gaveUp && ws[i].plan.Took? && ws[i].plan.early && !ws[i].dropped
    ensures ws[i].native == 0 ==> Final(ws[i])
  {
    RunKeepsInv(ws, acts, i);
    if ws[i].native == 0 {
      GoneIsFinal(ws[i]);
    }
  }

  // ----- what can be known

  ghost predicate Reachable(w: World) {
    exists ws: seq<World>, acts: seq<Action> :: Run(ws, acts) && ws[|ws| - 1] == w
  }

  lemma ReachableInv(w: World)
    requires Reachable(w)
    ensures Inv(w)
  {
    var ws: seq<World>, acts: seq<Action> :| Run(ws, acts) && ws[|ws| - 1] == w;
    RunKeepsInv(ws, acts, |ws| - 1);
  }

  lemma StartIsReachable()
    ensures Reachable(START)
  {
    assert Run([START], []);
  }

  lemma StepIsReachable(w: World, a: Action, v: World)
    requires Reachable(w) && Enabled(w, a) && v == Next(w, a)
    ensures Reachable(v)
  {
    var ws: seq<World>, acts: seq<Action> :| Run(ws, acts) && ws[|ws| - 1] == w;
    var longer, more := ws + [v], acts + [a];
    forall i | 0 <= i < |more| ensures Enabled(longer[i], more[i]) && longer[i + 1] == Next(longer[i], more[i]) {
      if i < |acts| {
        assert longer[i] == ws[i] && longer[i + 1] == ws[i + 1] && more[i] == acts[i];
      }
    }
    assert Run(longer, more);
  }

  /** The session of an unknown creation, asked to close. */
  const UNKNOWN := Session(false, true, false, false, 0, false)

  /** A run in which the inventory lacks the session and the native side creates it next. */
  lemma LateCreationIsPossible() returns (w: World)
    ensures Reachable(w) && w.s == UNKNOWN && w.closer == Listed(Absent) && !Final(w)
    ensures w.native == 0 && w.posted && !w.finished
  {
    StartIsReachable();
    var w1 := Next(START, Post);
    StepIsReachable(START, Post, w1);
    var w2 := Next(w1, CreationReply(Lost, false));
    StepIsReachable(w1, CreationReply(Lost, false), w2);
    var w3 := Next(w2, Close(BeginClose));
    StepIsReachable(w2, Close(BeginClose), w3);
    w := Next(w3, Close(TakeInventory(Absent)));
    StepIsReachable(w3, Close(TakeInventory(Absent)), w);
    var late := Next(w, Native(Create(1)));
    assert Continues(w, [w, late], [Native(Create(1))]);
  }

  /** What the code sees of that run it also sees of one whose creation is over, so no
      test of the session tells the two apart. */
  lemma LostCreationMayBeOver() returns (w: World)
    ensures Reachable(w) && w.s == UNKNOWN && w.closer == Listed(Absent) && Final(w)
  {
    var late := LateCreationIsPossible();
    w := Next(late, Native(FinishCreation));
    StepIsReachable(late, Native(FinishCreation), w);
    ReachableInv(w);
    GoneIsFinal(w);
  }

  /** In every world in which the session looks like this and its close has an inventory
      without the token, absence is final. */
  ghost predicate AbsenceIsCertain(s: Session) {
    forall w :: Reachable(w) && w.s == s && w.closer == Listed(Absent) ==> Final(w)
  }

  /** After an inventory without the token the code closes the session exactly when what
      it knows of the session makes native absence certain: when the session was observed
      before, or the server answered its creation in full. */
  lemma ClosesExactlyWhenCertain(w: World)
    requires Reachable(w) && w.closer == Listed(Absent)
    ensures Next(w, Close(DecideClose)).closer.Confirmed? <==> AbsenceIsCertain(w.s)
    ensures AbsenceIsCertain(w.s) <==> w.s.observed != 0 || w.s.responseComplete
    ensures w.s.responseComplete <==> w.reply.Rejected?
  {
    ReachableInv(w);
    if w.s.observed != 0 || w.s.responseComplete {
      forall u | Reachable(u) && u.s == w.s && u.closer == Listed(Absent) ensures Final(u) {
        ReachableInv(u);
        GoneIsFinal(u);
      }
    } else {
      assert w.s == UNKNOWN;
      var u := LateCreationIsPossible();
    }
  }

  // ----- what is found is kicked

  /** After an inventory the session is kicked exactly when one entry could be it, with
      the identifier of that entry, which is remembered. */
  lemma FoundIsKicked(ws: seq<World>, acts: seq<Action>, i: nat, id: nat)
    requires Run(ws, acts) && i < |acts| && acts[i] == Close(DecideClose)
    ensures ws[i].closer.Listed?
    ensures ws[i + 1].closer == Kicking(id) <==> ws[i].closer == Listed(Found(id))
    ensures ws[i + 1].closer == Kicking(id) ==> ws[i + 1].s.observed == id && ws[i + 1].native in {0, id}
    ensures ws[i + 1].closer.Kicking? || ws[i + 1].closer.Confirmed? || ws[i + 1].closer.NoCloser?
  {
    RunKeepsInv(ws, acts, i);
    assert Enabled(ws[i], acts[i]) && ws[i + 1] == Next(ws[i], acts[i]);
  }

  /** The close of an unknown session whose native one is there: found, kicked, closed. */
  function KickActions(id: nat): seq<Action> {
    [Close(BeginClose), Close(TakeInventory(Found(id))), Close(DecideClose), Close(KickEffect), Close(KickReply(true)),
     Close(MarkClosed)]
  }

  lemma KickFromInventory(w: World, id: nat) returns (ws: seq<World>)
    requires Inv(w) && w.closer.Listing? && w.native == id != 0
    ensures Continues(w, ws, KickActions(id)[1..])
    ensures ws[|ws| - 1].s.closed && ws[|ws| - 1].native == 0 && ws[|ws| - 1].dropped
  {
    var w1 := Next(w, Close(TakeInventory(Found(id))));
    var w2 := Next(w1, Close(DecideClose));
    var w3 := Next(w2, Close(KickEffect));
    var w4 := Next(w3, Close(KickReply(true)));
    ws := [w, w1, w2, w3, w4, Next(w4, Close(MarkClosed))];
  }

  /** A session whose creation failed but is there natively is never stuck: whenever
      nobody is closing it, a close in which no call fails finds it, kicks it and closes
      it, with its native session gone for good. */
  lemma LiveUnknownCanBeClosed(w: World) returns (ws: seq<World>)
    requires Reachable(w) && Failed(w) && w.closer.NoCloser? && !w.s.closed && w.native != 0
    ensures Continues(w, ws, KickActions(w.native))
    ensures ws[|ws| - 1].s.closed && Final(ws[|ws| - 1])
  {
    ReachableInv(w);
    var begun := Next(w, Close(BeginClose));
    StepKeepsInv(w, Close(BeginClose), begun);
    var rest := KickFromInventory(begun, w.native);
    var acts, tail := KickActions(w.native), KickActions(w.native)[1..];
    ws := [w] + rest;
    forall i | 0 <= i < |acts| ensures Enabled(ws[i], acts[i]) && ws[i + 1] == Next(ws[i], acts[i]) {
      if i > 0 {
        assert tail[i - 1] == acts[i] && rest[i - 1] == ws[i] && rest[i] == ws[i + 1];
      }
    }
    InvContinues(w, ws, acts, |ws| - 1);
    GoneIsFinal(ws[|ws| - 1]);
  }

  /** Nor is a session that was created and located: one deletion that does not fail ends it. */
  lemma LocatedCanBeClosed(w: World) returns (ws: seq<World>)
    requires Reachable(w) && w.s.located && w.closer.NoCloser? && !w.s.closed
    ensures Continues(w, ws, [Close(BeginClose), Close(DeleteEffect), Close(DeleteReply(true)), Close(MarkClosed)])
    ensures ws[4].s.closed && Final(ws[4])
  {
    ReachableInv(w);
    var w1 := Next(w, Close(BeginClose));
    var w2 := Next(w1, Close(DeleteEffect));
    var w3 := Next(w2, Close(DeleteReply(true)));
    ws := [w, w1, w2, w3, Next(w3, Close(MarkClosed))];
    InvContinues(w, ws, [Close(BeginClose), Close(DeleteEffect), Close(DeleteReply(true)), Close(MarkClosed)], 4);
    GoneIsFinal(ws[4]);
  }

  /** A call of a close that fails ends that close and nothing else: the session stays
      asked to close, nobody holds it, and the next close may begin at once. */
  lemma FailedCloseIsRetried(ws: seq<World>, acts: seq<Action>, i: nat)
    requires Run(ws, acts) && i < |acts|
    requires acts[i] == Close(InventoryFails) || acts[i] == Close(DeleteReply(false)) || acts[i] == Close(KickReply(false))
    ensures ws[i + 1].s == ws[i].s && ws[i].s.closeRequested && !ws[i].s.closed && ws[i + 1].native == ws[i].native
    ensures ws[i + 1].closer.NoCloser? && Enabled(ws[i + 1], Close(BeginClose))
  {
    RunKeepsInv(ws, acts, i);
    assert Enabled(ws[i], acts[i]) && ws[i + 1] == Next(ws[i], acts[i]);
  }

  /** A pass ends ready for the next one. A session closed without asking the native side
      counts as asked to close from then on. */
  lemma PassesAndLocalCloses(ws: seq<World>, acts: seq<Action>, i: nat)
    requires Run(ws, acts) && i < |acts|
    ensures acts[i] == OfPass(EndPass) ==> ws[i + 1] == ws[i].(pass := NoPass) && Enabled(ws[i + 1], OfPass(PassInventory))
    ensures acts[i].Close? && acts[i].c.BeginLocal? ==> ws[i + 1].s.closeRequested && ws[i + 1].closer.Local?
  {
    assert Enabled(ws[i], acts[i]) && ws[i + 1] == Next(ws[i], acts[i]);
  }

  /** A session created while the edge closes, and one that shows up on another path, are
      asked to close. */
  lemma WrongSessionsAreAskedToClose(ws: seq<World>, acts: seq<Action>, i: nat)
    requires Run(ws, acts) && i < |acts|
    requires acts[i] == CreationReply(Created, true) || acts[i] == OfPass(Misplaced)
    ensures ws[i + 1].s.closeRequested && ws[i + 1].native == ws[i].native
  {
    assert Enabled(ws[i], acts[i]) && ws[i + 1] == Next(ws[i], acts[i]);
  }

  /** A run in which the creation's reply is lost and the session ends kicked and closed. */
  lemma LostCreationEndsClosed() returns (w: World)
    ensures Reachable(w) && Failed(w) && w.reply.Lost? && w.s.closed && w.dropped && Final(w)
  {
    StartIsReachable();
    var w1 := Next(START, Post);
    StepIsReachable(START, Post, w1);
    var w2 := Next(w1, Native(Create(7)));
    StepIsReachable(w1, Native(Create(7)), w2);
    var w3 := Next(w2, CreationReply(Lost, false));
    StepIsReachable(w2, CreationReply(Lost, false), w3);
    var ws := LiveUnknownCanBeClosed(w3);
    ContinuationIsReachable(w3, ws, KickActions(7), 6);
    w := ws[6];
    ReachableInv(w);
    StaysFailed(w3, ws, KickActions(7), 6);
  }

  lemma {:induction false} ContinuationIsReachable(w: World, ws: seq<World>, acts: seq<Action>, i: nat)
    requires Reachable(w) && Continues(w, ws, acts) && i < |ws|
    ensures Reachable(ws[i])
  {
    if i > 0 {
      ContinuationIsReachable(w, ws, acts, i - 1);
      StepIsReachable(ws[i - 1], acts[i - 1], ws[i]);
    }
  }

  lemma {:induction false} StaysFailed(w: World, ws: seq<World>, acts: seq<Action>, i: nat)
    requires Failed(w) && Continues(w, ws, acts) && i < |ws|
    ensures ws[i].replied && ws[i].reply == w.reply && (w.created ==> ws[i].created)
  {
    if i > 0 {
      StaysFailed(w, ws, acts, i - 1);
      assert Enabled(ws[i - 1], acts[i - 1]) && ws[i] == Next(ws[i - 1], acts[i - 1]);
    }
  }

  // ----- what a pass can know

  const LATE := START.(posted := true, pass := Took(true, false, true))

  lemma EarlyInventoryIsPossible()
    ensures Reachable(LATE)
  {
    StartIsReachable();
    var w1 := Next(START, Post);
    StepIsReachable(START, Post, w1);
    StepIsReachable(w1, OfPass(PassInventory), LATE);
  }

  const ANSWERED := LATE.(
    s := NEW_SESSION.(opening := false, located := true), created := true, native := 1, replied := true, reply := Created)

  /** A run in which the pass looks, the session is created and answered, and the pass
      gives it up. */
  lemma PrematureCloseIsPossible() returns (w: World)
    ensures Reachable(w) && w.s.closed && w.native != 0
    ensures w.gaveUp && !w.plan.NoPass? && !w.plan.answered
  {
    EarlyInventoryIsPossible();
    var w1 := Next(LATE, Native(Create(1)));
    StepIsReachable(LATE, Native(Create(1)), w1);
    StepIsReachable(w1, CreationReply(Created, false), ANSWERED);
    var w2 := Next(ANSWERED, OfPass(GiveUp));
    StepIsReachable(ANSWERED, OfPass(GiveUp), w2);
    var w3 := Next(w2, Close(BeginLocal(true)));
    StepIsReachable(w2, Close(BeginLocal(true)), w3);
    w := Next(w3, Close(MarkClosed));
    StepIsReachable(w3, Close(MarkClosed), w);
  }

  /** In every world in which a pass gave the session up by an inventory that came after
      the answer to its creation (or that did not), absence is final. */
  ghost predicate GivingUpIsSound(answered: bool) {
    forall w :: Reachable(w) && w.s.closed && w.gaveUp && w.plan.Took? && w.plan.answered == answered ==> Final(w)
  }

  /** Giving a session up is sound if and only if its creation had been answered when
      the pass took its inventory. */
  lemma SoundExactlyWhenAnswered(answered: bool)
    ensures GivingUpIsSound(answered) <==> answered
  {
    if answered {
      forall w | Reachable(w) && w.s.closed && w.gaveUp && w.plan.Took? && w.plan.answered == answered ensures Final(w) {
        ReachableInv(w);
        GoneIsFinal(w);
      }
    } else {
      var w := PrematureCloseIsPossible();
      assert Continues(w, [w], []);
    }
  }
}
