/** A run of `RecordingProtocol` in which a recording is accepted, runs, is asked to stop and
    completes, so that what is proved of completed recordings is about something. */
module RecordingWitness {
  import opened LeaseSections
  import opened Recordings
  import opened RecordingProtocol
  import opened Basics
  import L = LeaseProtocol

  ghost predicate Leads(w: World, a: Action, v: World) {
    Enabled(w, a) && v == Next(w, a)
  }

  ghost predicate Linked(ws: seq<World>, acts: seq<Action>) {
    |ws| == |acts| + 1 && forall i {:trigger acts[i]} :: 0 <= i < |acts| ==> Leads(ws[i], acts[i], ws[i + 1])
  }

  ghost predicate Reachable(w: World) {
    exists ws: seq<World>, acts: seq<Action> :: Run(Pipeline, ws, acts) && ws[|ws| - 1] == w
  }

  lemma RunIsLinked(ws: seq<World>, acts: seq<Action>)
    ensures Run(Pipeline, ws, acts) <==> Linked(ws, acts) && ws[0] == Start(Pipeline)
  {
    if Linked(ws, acts) && ws[0] == Start(Pipeline) {
      forall i | 0 <= i < |acts| ensures Enabled(ws[i], acts[i]) && ws[i + 1] == Next(ws[i], acts[i]) {
        assert Leads(ws[i], acts[i], ws[i + 1]);
      }
    }
  }

  lemma LinkedExtends(ws: seq<World>, acts: seq<Action>, a: Action, v: World)
    requires Linked(ws, acts) && Leads(ws[|acts|], a, v)
    ensures Linked(ws + [v], acts + [a])
  {
  }

  lemma StepIsReachable(w: World, a: Action, v: World)
    requires Reachable(w) && Leads(w, a, v)
    ensures Reachable(v)
  {
    var ws: seq<World>, acts: seq<Action> :| Run(Pipeline, ws, acts) && ws[|ws| - 1] == w;
    RunIsLinked(ws, acts);
    LinkedExtends(ws, acts, a, v);
    RunIsLinked(ws + [v], acts + [a]);
    assert (ws + [v])[|ws + [v]| - 1] == v;
  }

  lemma StarterIsReachable(w: World, a: StarterAction, v: World)
    requires Reachable(w) && StarterEnabled(w, a) && v == StarterNext(w, a)
    ensures Reachable(v)
  {
    StepIsReachable(w, StarterStep(a), v);
  }

  lemma LeaseIsReachable(w: World, a: L.Action, l: L.World)
    requires Reachable(w) && LeaseEnabled(w.l, w.starter, a) && l == L.Next(w.l, a)
    ensures Reachable(w.(l := l))
  {
    StepIsReachable(w, LeaseStep(a), w.(l := l));
  }

  lemma ItemIsReachable(w: World, id: nat, a: ItemAction, next: Item)
    requires Reachable(w) && id in w.items && id != 0 && !a.Release? && !a.DisableApplies?
    requires ItemEnabled(w.items[id], a, w.starter) && next == ItemNext(w.items[id], a, w.starter)
    ensures Reachable(w.(items := w.items[id := next]))
  {
    StepIsReachable(w, ItemStep(id, a), w.(items := w.items[id := next]));
  }

  // ----- up to the registration

  const ASKING := Start(Pipeline).(starter := Acquiring)

  /** The lease with the starter's demand granted. */
  const GRANTED := L.Start(Pipeline).(s := UNUSED.(pending := 1, active := true, epoch := 1), granted := 1, desired := true)

  /** The same with the recording in its place. */
  const RECORDING := L.Start(Pipeline).(s := UNUSED.(recording := 1, active := true, epoch := 1), desired := true)

  lemma AskingIsReachable()
    ensures Reachable(ASKING)
  {
    assert Run(Pipeline, [Start(Pipeline)], []);
    var w1 := StarterNext(Start(Pipeline), Begin);
    StarterIsReachable(Start(Pipeline), Begin, w1);
    StarterIsReachable(w1, Check, ASKING);
  }

  const DEMANDING := L.Start(Pipeline).(life := L.Demanding)

  const STARTING := L.Start(Pipeline).(s := UNUSED.(pending := 1, epoch := 1), life := L.Starting, desired := true)

  lemma StartingIsReachable()
    ensures Reachable(ASKING.(l := STARTING))
  {
    AskingIsReachable();
    var l1 := L.Next(ASKING.l, L.AcquireLock);
    LeaseIsReachable(ASKING, L.AcquireLock, l1);
    LeaseIsReachable(ASKING.(l := l1), L.AcquireEnter, DEMANDING);
    var l3 := L.Next(DEMANDING, L.DemandStep);
    LeaseIsReachable(ASKING.(l := DEMANDING), L.DemandStep, l3);
    LeaseIsReachable(ASKING.(l := l3), L.IssueStart(false), STARTING);
  }

  const GIVEN := ASKING.(l := GRANTED)

  lemma GivenIsReachable()
    ensures Reachable(GIVEN)
  {
    StartingIsReachable();
    LeaseIsReachable(ASKING.(l := STARTING), L.StartReply(true), GRANTED);
  }

  const ACCEPTED := GIVEN.(starter := Accepted(1), recorder := 1)

  lemma AcceptedIsReachable()
    ensures Reachable(ACCEPTED)
  {
    GivenIsReachable();
    var w1 := StarterNext(GIVEN, AcquireReturns(true));
    StarterIsReachable(GIVEN, AcquireReturns(true), w1);
    var w2 := StarterNext(w1, Prepare(true, 1));
    StarterIsReachable(w1, Prepare(true, 1), w2);
    var w3 := StarterNext(w2, EnableApplies);
    StarterIsReachable(w2, EnableApplies, w3);
    StarterIsReachable(w3, EnableReply(true), ACCEPTED);
  }

  function With(item: Item, recorder: nat): World {
    World(RECORDING, NoStarter, map[1 := item], recorder)
  }

  const RUNNING := Item(Running, false, New(0))

  lemma RunningIsReachable()
    ensures Reachable(With(RUNNING, 1))
  {
    AcceptedIsReachable();
    var w1 := StarterNext(ACCEPTED, Register(0, false));
    StarterIsReachable(ACCEPTED, Register(0, false), w1);
    StarterIsReachable(w1, HandOver, With(RUNNING, 1));
  }

  // ----- and on to the end

  const SEGMENT := Segment(1, 1, 0, 7, 5, RecordingStopped)

  const STOPPING := Item(Disabling, false, New(0).(state := State.Stopping))

  lemma StoppingIsReachable()
    ensures Reachable(With(RUNNING.(m := New(0).(state := State.Active)), 1))
    ensures Reachable(With(STOPPING, 1))
  {
    RunningIsReachable();
    var active := RUNNING.(m := New(0).(state := State.Active));
    ItemIsReachable(With(RUNNING, 1), 1, Flows, active);
    assert With(RUNNING, 1).(items := With(RUNNING, 1).items[1 := active]) == With(active, 1);
    var begun := active.(phase := Begun);
    ItemIsReachable(With(active, 1), 1, RequestStop(NoReason), begun);
    assert With(active, 1).(items := With(active, 1).items[1 := begun]) == With(begun, 1);
    ItemIsReachable(With(begun, 1), 1, BeginStop, STOPPING);
    assert With(begun, 1).(items := With(begun, 1).items[1 := STOPPING]) == With(STOPPING, 1);
  }

  const SCANNED := Item(Finishing(Ok([SEGMENT])), true, New(0).(state := State.Stopping))

  lemma SegmentIsContiguous()
    ensures Contiguous([SEGMENT], 0) && Bytes([SEGMENT]) == 5
  {
    assert InPlace([SEGMENT], 0, 0);
    assert [SEGMENT][..0] == [];
  }

  lemma ScannedIsReachable()
    ensures Reachable(With(SCANNED, 0))
  {
    StoppingIsReachable();
    var disabled := STOPPING.(disabled := true);
    StepIsReachable(With(STOPPING, 1), ItemStep(1, DisableApplies), With(disabled, 0));
    var scanning := disabled.(phase := Scanning);
    ItemIsReachable(With(disabled, 0), 1, DisableReply(true), scanning);
    assert With(disabled, 0).(items := With(disabled, 0).items[1 := scanning]) == With(scanning, 0);
    SegmentIsContiguous();
    ItemIsReachable(With(scanning, 0), 1, ScanReturns(Ok([SEGMENT])), SCANNED);
    assert With(scanning, 0).(items := With(scanning, 0).items[1 := SCANNED]) == With(SCANNED, 0);
  }

  const DONE := Item(Releasing, true, Manifest(Completed, 0, NoReason, [SEGMENT], 5))

  lemma DoneIsReachable()
    ensures Reachable(With(DONE, 0))
  {
    ScannedIsReachable();
    SegmentIsContiguous();
    var written := DONE.(phase := Persisting);
    ItemIsReachable(With(SCANNED, 0), 1, Finish, written);
    assert With(SCANNED, 0).(items := With(SCANNED, 0).items[1 := written]) == With(written, 0);
    ItemIsReachable(With(written, 0), 1, PersistReply(true), DONE);
    assert With(written, 0).(items := With(written, 0).items[1 := DONE]) == With(DONE, 0);
  }

  /** A recording that is accepted, runs, and completes with what it recorded; its source is
      unused afterwards, and somebody sees to its stop. */
  lemma RecordingCompletes() returns (active: World, w: World)
    ensures Reachable(active) && 1 in active.items && active.items[1].m.state == State.Active && active.recorder == 1
    ensures Reachable(w) && 1 in w.items && w.items[1].m.state.Completed? && w.items[1].m.segments == [SEGMENT]
    ensures w.recorder == 0 && !HasConsumers(w.l.s) && w.l.deciders == 1
  {
    StoppingIsReachable();
    active := With(RUNNING.(m := New(0).(state := State.Active)), 1);
    DoneIsReachable();
    w := Next(With(DONE, 0), ItemStep(1, Release));
    StepIsReachable(With(DONE, 0), ItemStep(1, Release), w);
  }

  // ----- registration

  /** A recording whose start comes too late, because the edge closes, is not registered,
      and its native recorder is turned off again, unless that call fails. */
  lemma TooLateIsUndone(kind: Kind, ws: seq<World>, acts: seq<Action>, i: nat, createdAt: int, stopped: bool)
    requires Run(kind, ws, acts) && i < |acts| && acts[i] == StarterStep(Register(createdAt, stopped))
    ensures ws[i].l.closing <==> ws[i + 1].starter.GivingUp?
    ensures ws[i].l.closing ==> ws[i + 1].items == ws[i].items && (stopped ==> ws[i + 1].recorder == 0)
    ensures !ws[i].l.closing ==> ws[i + 1].items.Keys == ws[i].items.Keys + {ws[i].starter.id} && ws[i + 1].recorder == ws[i].recorder
  {
    RunKeepsInv(kind, ws, acts, i);
    assert Enabled(ws[i], acts[i]) && ws[i + 1] == Next(ws[i], acts[i]);
  }
}
