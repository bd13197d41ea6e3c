/** Pipeline operations and runs as a step system.

    `op` is the operation that holds `opMu`, at the place it has reached; runs end
    whenever they like, and the watcher of a run records its end whenever it gets
    to it. A launch or the scratch directory may fail. */
module PipelineProtocol {
  import opened PipelineSections

  /** `restart` marks the start that a keyframe request makes. */
  datatype Op =
    | OpFree
    | StartOp(restart: bool)
    | Preparing(restart: bool)
    | Launching(restart: bool)
    | Launched(run: nat, restart: bool)      // running, not recorded yet
    | Settling(run: nat, restart: bool)
    | SawEnd(run: nat, restart: bool)
    | Failing(restart: bool)
    | StopOp
    | StopSignal(run: nat)
    | StopWait(run: nat)
    | KeyOp
    | KeySignal(run: nat)
    | KeyWait(run: nat)
    | CloseOp
    | CloseSignal(run: nat)
    | CloseWait(run: nat)

  datatype World = World(
    c: Control,
    op: Op,
    alive: set<nat>,                         // runs with a process that was not reaped
    stopping: set<nat>,                      // runs whose end was asked for
    watchers: set<nat>,                      // runs whose end is not recorded yet
    launched: nat)                           // runs so far

  const START := World(FRESH_CONTROL, OpFree, {}, {}, {}, 0)

  datatype Action =
    | Begin(op: Op)
    | Enter(young: bool)                     // the first section of the operation
    | Prepare(ok: bool)
    | Launch(ok: bool)
    | Record
    | SettleEnds
    | SeeEnd
    | RecordEnd
    | FailStart
    | SignalRun
    | RunGone
    | Exit(run: nat)                         // every process of the run exited and was reaped
    | Watch(run: nat)

  predicate Enabled(w: World, a: Action) {
    match a
    case Begin(op) => w.op.OpFree? && (op == StartOp(false) || op.StopOp? || op.KeyOp? || op.CloseOp?)
    case Enter(_) => w.op.StartOp? || w.op.StopOp? || w.op.KeyOp? || w.op.CloseOp?
    case Prepare(_) => w.op.Preparing?
    case Launch(_) => w.op.Launching?
    case Record => w.op.Launched?
    case SettleEnds => w.op.Settling?
    case SeeEnd => w.op.Settling? && w.op.run !in w.alive
    case RecordEnd => w.op.SawEnd?
    case FailStart => w.op.Failing?
    case SignalRun => w.op.StopSignal? || w.op.KeySignal? || w.op.CloseSignal?
    case RunGone => (w.op.StopWait? || w.op.KeyWait? || w.op.CloseWait?) && w.op.run !in w.alive
    case Exit(run) => run in w.alive
    case Watch(run) => run in w.watchers && run !in w.alive
  }

  function EnterNext(w: World, young: bool): World
    requires Enabled(w, Enter(young))
  {
    match w.op
    case StartOp(restart) =>
      w.(c := EnterStart(w.c), op := if StartEntry(w.c).Go? then Preparing(restart) else OpFree)
    case StopOp => w.(c := EnterStop(w.c), op := if w.c.run == 0 then OpFree else StopSignal(w.c.run))
    case KeyOp =>
      w.(c := EnterKeyframe(w.c, young), op := if KeyframeCheck(w.c, young).Restart? then KeySignal(w.c.run) else OpFree)
    case CloseOp => w.(c := EnterClose(w.c), op := if w.c.run == 0 then OpFree else CloseSignal(w.c.run))
  }

  function Signalled(op: Op): Op
    requires op.StopSignal? || op.KeySignal? || op.CloseSignal?
  {
    match op
    case StopSignal(run) => StopWait(run)
    case KeySignal(run) => KeyWait(run)
    case CloseSignal(run) => CloseWait(run)
  }

  function Next(w: World, a: Action): World
    requires Enabled(w, a)
  {
    match a
    case Begin(op) => w.(op := op)
    case Enter(young) => EnterNext(w, young)
    case Prepare(ok) => w.(op := if ok then Launching(w.op.restart) else Failing(w.op.restart))
    case Launch(ok) =>
      if ok then
        w.(op := Launched(w.launched + 1, w.op.restart), launched := w.launched + 1, alive := w.alive + {w.launched + 1})
      else
        w.(op := Failing(w.op.restart))
    case Record =>
      w.(c := RecordRun(w.c, w.op.run), watchers := w.watchers + {w.op.run}, op := Settling(w.op.run, w.op.restart))
    case SettleEnds => w.(c := SettleRun(w.c, w.op.run), op := OpFree)
    case SeeEnd => w.(op := SawEnd(w.op.run, w.op.restart))
    case RecordEnd => w.(c := RunEnded(w.c, w.op.run, w.op.run in w.stopping), op := OpFree)
    case FailStart => w.(c := Fail(w.c), op := OpFree)
    case SignalRun => w.(stopping := w.stopping + {w.op.run}, op := Signalled(w.op))
    case RunGone =>
      if w.op.StopWait? then w.(c := FinishStop(w.c, w.op.run), op := OpFree)
      else if w.op.KeyWait? then w.(c := ForgetRun(w.c, w.op.run), op := StartOp(true))
      else w.(op := OpFree)
    case Exit(run) => w.(alive := w.alive - {run})
    case Watch(run) => w.(c := RunEnded(w.c, run, run in w.stopping), watchers := w.watchers - {run})
  }

  // ----- invariant

  /** The run that the operation itself is busy with, 0 if none. */
  function OpRun(op: Op): nat {
    match op
    case Launched(run, _) => run
    case Settling(run, _) => run
    case SawEnd(run, _) => run
    case StopSignal(run) => run
    case StopWait(run) => run
    case KeySignal(run) => run
    case KeyWait(run) => run
    case CloseSignal(run) => run
    case CloseWait(run) => run
    case _ => 0
  }

  predicate OpOk(w: World) {
    match w.op
    case StartOp(true) => w.c.run == 0 && !w.c.closed
    case Preparing(_) => w.c.run == 0 && w.c.state == Starting && !w.c.closed
    case Launching(_) => w.c.run == 0 && w.c.state == Starting && !w.c.closed
    case Failing(_) => w.c.run == 0 && w.c.state == Starting && !w.c.closed
    case Launched(run, _) =>
      w.c.run == 0 && w.c.state == Starting && !w.c.closed && 1 <= run == w.launched && run !in w.stopping
    case Settling(run, _) =>
      && !w.c.closed
      && 1 <= run <= w.launched
      && run !in w.stopping
      && (if w.c.run == run then w.c.state == Starting else w.c.run == 0 && w.c.state == Faulted && run !in w.alive)
    case SawEnd(run, _) =>
      && !w.c.closed
      && 1 <= run <= w.launched
      && run !in w.stopping && run !in w.alive
      && (if w.c.run == run then w.c.state == Starting else w.c.run == 0 && w.c.state == Faulted)
    case StopSignal(run) => 1 <= run <= w.launched && !w.c.closed && Ending(w, run)
    case StopWait(run) => 1 <= run <= w.launched && !w.c.closed && Ending(w, run)
    case KeySignal(run) => 1 <= run <= w.launched && !w.c.closed && Ending(w, run)
    case KeyWait(run) => 1 <= run <= w.launched && !w.c.closed && Ending(w, run)
    case CloseSignal(run) => 1 <= run <= w.launched && w.c.closed && w.c.run == 0 && w.c.state == Idle
    case CloseWait(run) => 1 <= run <= w.launched && w.c.closed && w.c.run == 0 && w.c.state == Idle
    case _ =>
      && (w.c.run != 0 <==> w.c.state == Active)
      && (w.c.state == Idle || w.c.state == Active || w.c.state == Faulted)
  }

  predicate Ending(w: World, run: nat) {
    if w.c.run == run then w.c.state == Stopping else w.c.run == 0 && run !in w.alive
  }

  predicate Numbers(w: World) {
    && (forall run :: run in w.alive ==> 1 <= run <= w.launched)
    && (forall run :: run in w.stopping ==> 1 <= run <= w.launched)
    && (forall run :: run in w.watchers ==> 1 <= run <= w.launched)
    && w.c.run <= w.launched
  }

  /** A live run is the recorded one or the one the operation is busy with. */
  predicate OneRun(w: World) {
    && (forall run :: run in w.alive ==> run == w.c.run || run == OpRun(w.op))
    && (w.c.run != 0 && OpRun(w.op) != 0 ==> w.c.run == OpRun(w.op))
    && (w.c.run != 0 ==> w.c.run in w.watchers)
    && (w.c.closed ==> w.c.run == 0)
  }

  predicate Inv(w: World) {
    Numbers(w) && OneRun(w) && OpOk(w)
  }

  predicate ByStart(a: Action) {
    a.Prepare? || a.Launch? || a.Record? || a.SettleEnds? || a.FailStart?
  }

  lemma StartKeepsInv(w: World, a: Action)
    requires Inv(w) && Enabled(w, a) && ByStart(a)
    ensures Inv(Next(w, a))
  {
  }

  lemma EndKeepsInv(w: World, a: Action)
    requires Inv(w) && Enabled(w, a)
    requires a.SeeEnd? || a.RecordEnd? || a.Exit? || a.Watch?
    ensures Inv(Next(w, a))
  {
  }

  lemma StopKeepsInv(w: World, a: Action)
    requires Inv(w) && Enabled(w, a)
    requires a.Begin? || a.Enter? || a.SignalRun? || a.RunGone?
    ensures Inv(Next(w, a))
  {
  }

  lemma StepKeepsInv(w: World, a: Action, v: World)
    requires Inv(w) && Enabled(w, a) && v == Next(w, a)
    ensures Inv(v)
  {
    if ByStart(a) {
      StartKeepsInv(w, a);
    } else if a.SeeEnd? || a.RecordEnd? || a.Exit? || a.Watch? {
      EndKeepsInv(w, a);
    } else {
      StopKeepsInv(w, a);
    }
  }

  // ----- over every run of the system

  ghost predicate Run(ws: seq<World>, acts: seq<Action>) {
    && |ws| == |acts| + 1
    && ws[0] == START
    && forall i {:trigger acts[i]} :: 0 <= i < |acts| ==> Enabled(ws[i], acts[i]) && ws[i + 1] == Next(ws[i], acts[i])
  }

  lemma {:induction false} RunKeepsInv(ws: seq<World>, acts: seq<Action>, i: nat)
    requires Run(ws, acts) && i < |ws|
    ensures Inv(ws[i])
  {
    if i > 0 {
      RunKeepsInv(ws, acts, i - 1);
      StepKeepsInv(ws[i - 1], acts[i - 1], ws[i]);
    }
  }

  /** At most one pipeline run is alive at any time. */
  lemma AtMostOneRun(ws: seq<World>, acts: seq<Action>, i: nat, a: nat, b: nat)
    requires Run(ws, acts) && i < |ws| && a in ws[i].alive && b in ws[i].alive
    ensures a == b
  {
    RunKeepsInv(ws, acts, i);
  }

  /** Whenever opMu is free, a run is recorded exactly when the state is active,
      nothing else is alive, and its end has a watcher that will record it. */
  lemma RecordedExactlyWhenActive(ws: seq<World>, acts: seq<Action>, i: nat)
    requires Run(ws, acts) && i < |ws| && ws[i].op.OpFree?
    ensures ws[i].c.run != 0 <==> ws[i].c.state == Active
    ensures ws[i].alive <= {ws[i].c.run}
    ensures ws[i].c.run != 0 ==> ws[i].c.run in ws[i].watchers
  {
    RunKeepsInv(ws, acts, i);
  }

  /** A stop, a close or a keyframe restart takes hold of the recorded run. */
  predicate TakesRun(w: World, a: Action) {
    a.Enter? && (w.op.StopOp? || w.op.CloseOp? || (w.op.KeyOp? && !a.young))
  }

  predicate Undisturbed(w: World, a: Action, run: nat) {
    run in w.alive && !TakesRun(w, a)
  }

  predicate Serving(w: World, run: nat) {
    w.c.run == run != 0 && w.c.state == Active
  }

  lemma LiveStepStaysServing(w: World, a: Action, v: World, run: nat)
    requires Inv(w) && Enabled(w, a) && v == Next(w, a)
    requires Serving(w, run) && Undisturbed(w, a, run)
    ensures Serving(v, run)
  {
  }

  lemma RunStepStaysServing(ws: seq<World>, acts: seq<Action>, i: nat, run: nat)
    requires Run(ws, acts) && i < |acts|
    requires Serving(ws[i], run) && Undisturbed(ws[i], acts[i], run)
    ensures Serving(ws[i + 1], run)
  {
    RunKeepsInv(ws, acts, i);
    LiveStepStaysServing(ws[i], acts[i], ws[i + 1], run);
  }

  /** The watchers of old runs, however late they come, and starts that find the pipeline
      running never change the state of a newer run: as long as it is alive and no stop,
      close or restart takes hold of it, it stays recorded and active. */
  lemma {:induction false} LiveRunStaysRecorded(ws: seq<World>, acts: seq<Action>, i: nat, j: nat, run: nat)
    requires Run(ws, acts) && i <= j < |ws| && Serving(ws[i], run)
    requires forall k {:trigger acts[k]} :: i <= k < j ==> Undisturbed(ws[k], acts[k], run)
    ensures Serving(ws[j], run)
    decreases j - i
  {
    if i < j {
      LiveRunStaysRecorded(ws, acts, i, j - 1, run);
      RunStepStaysServing(ws, acts, j - 1, run);
    }
  }

  lemma ClosedStepLaunchesNothing(w: World, a: Action, v: World)
    requires Inv(w) && Enabled(w, a) && v == Next(w, a) && w.c.closed
    ensures v.c.closed && v.launched == w.launched && v.alive <= w.alive
  {
  }

  /** A closed control never launches a run again, and once opMu is free after the
      close nothing is alive. */
  lemma {:induction false} ClosedNeverLaunches(ws: seq<World>, acts: seq<Action>, i: nat, j: nat)
    requires Run(ws, acts) && i <= j < |ws| && ws[i].c.closed
    ensures ws[j].c.closed && ws[j].launched == ws[i].launched && ws[j].alive <= ws[i].alive
    ensures ws[j].op.OpFree? ==> forall run :: run !in ws[j].alive
    decreases j - i
  {
    if i < j {
      ClosedNeverLaunches(ws, acts, i, j - 1);
      RunKeepsInv(ws, acts, j - 1);
      ClosedStepLaunchesNothing(ws[j - 1], acts[j - 1], ws[j]);
    }
    RunKeepsInv(ws, acts, j);
  }

  /** When the watcher of the recorded run gets to its end, the pipeline is idle if somebody
      had asked for it, and faulted otherwise; the watcher of any other run changes nothing. */
  lemma EndsExactly(ws: seq<World>, acts: seq<Action>, i: nat, run: nat)
    requires Run(ws, acts) && i < |acts| && acts[i] == Watch(run)
    ensures ws[i].c.run != run ==> ws[i + 1].c == ws[i].c
    ensures ws[i].c.run == run && run in ws[i].stopping ==> ws[i + 1].c == ws[i].c.(run := 0, state := Idle)
    ensures ws[i].c.run == run && run !in ws[i].stopping ==> ws[i + 1].c == ws[i].c.(run := 0, state := Faulted, lastError := true)
    ensures ws[i + 1].op == ws[i].op
  {
    assert Enabled(ws[i], acts[i]) && ws[i + 1] == Next(ws[i], acts[i]);
  }

  // ----- keyframe requests

  /** A keyframe request takes hold of the recorded run exactly when there is one and it is
      not young; else it changes nothing. */
  lemma KeyframeRestartsExactly(ws: seq<World>, acts: seq<Action>, i: nat, young: bool)
    requires Run(ws, acts) && i < |acts| && ws[i].op.KeyOp? && acts[i] == Enter(young)
    ensures if ws[i].c.run != 0 && !young then ws[i + 1].op == KeySignal(ws[i].c.run) && ws[i + 1].c.state == Stopping
            else ws[i + 1].op.OpFree? && ws[i + 1].c == ws[i].c
    ensures ws[i + 1].c.run == ws[i].c.run
  {
    RunKeepsInv(ws, acts, i);
    assert Enabled(ws[i], acts[i]) && ws[i + 1] == Next(ws[i], acts[i]);
  }

  /** And when the old run is gone, it goes on to start a new one, with nothing alive. */
  lemma RestartFollows(ws: seq<World>, acts: seq<Action>, i: nat)
    requires Run(ws, acts) && i < |acts| && ws[i].op.KeyWait? && acts[i] == RunGone
    ensures ws[i + 1].op == StartOp(true) && ws[i + 1].c.run == 0 && !ws[i + 1].c.closed
    ensures ws[i + 1].alive == {}
  {
    RunKeepsInv(ws, acts, i);
    assert Enabled(ws[i], acts[i]) && ws[i + 1] == Next(ws[i], acts[i]);
    RunKeepsInv(ws, acts, i + 1);
  }

  ghost predicate Reachable(w: World) {
    exists ws: seq<World>, acts: seq<Action> :: Run(ws, acts) && ws[|ws| - 1] == w
  }

  lemma StepIsReachable(w: World, a: Action, v: World)
    requires Reachable(w) && Enabled(w, a) && v == Next(w, a)
    ensures Reachable(v)
  {
    var ws: seq<World>, acts: seq<Action> :| Run(ws, acts) && ws[|ws| - 1] == w;
    var longer, more := ws + [v], acts + [a];
    forall i | 0 <= i < |more| ensures Enabled(longer[i], more[i]) && longer[i + 1] == Next(longer[i], more[i]) {
      if i < |acts| {
        assert longer[i] == ws[i] && longer[i + 1] == ws[i + 1] && more[i] == acts[i];
      }
    }
    assert Run(longer, more);
  }

  /** A start, first or after a keyframe request, in which nothing fails. */
  lemma StartSucceeds(w: World, restart: bool) returns (v: World)
    requires Reachable(w) && w.op == StartOp(restart) && w.c.run == 0 && !w.c.closed
    ensures Reachable(v) && v.op.OpFree? && v.launched == w.launched + 1
    ensures v.c == Control(Active, true, v.launched, w.c.generation + 1, false, false)
    ensures v.alive == w.alive + {v.launched} && v.stopping == w.stopping && v.watchers == w.watchers + {v.launched}
  {
    var w1 := Next(w, Enter(false));
    StepIsReachable(w, Enter(false), w1);
    var w2 := Next(w1, Prepare(true));
    StepIsReachable(w1, Prepare(true), w2);
    var w3 := Next(w2, Launch(true));
    StepIsReachable(w2, Launch(true), w3);
    var w4 := Next(w3, Record);
    StepIsReachable(w3, Record, w4);
    v := Next(w4, SettleEnds);
    StepIsReachable(w4, SettleEnds, v);
  }

  /** The system with run 1 at work. */
  const SERVING := World(Control(Active, true, 1, 1, false, false), OpFree, {1}, {}, {1}, 1)

  lemma FirstRunServes()
    ensures Reachable(SERVING)
  {
    assert Run([START], []);
    var w0 := Next(START, Begin(StartOp(false)));
    StepIsReachable(START, Begin(StartOp(false)), w0);
    var v := StartSucceeds(w0, false);
    assert v == SERVING;
  }

  /** Run 1 was asked to end, and has. */
  const ENDING := World(Control(Stopping, true, 1, 1, false, false), KeyWait(1), {}, {1}, {1}, 1)

  lemma KeyframeEndsTheRun()
    ensures Reachable(ENDING)
  {
    FirstRunServes();
    var w1 := Next(SERVING, Begin(KeyOp));
    StepIsReachable(SERVING, Begin(KeyOp), w1);
    var w2 := Next(w1, Enter(false));
    StepIsReachable(w1, Enter(false), w2);
    var w3 := Next(w2, SignalRun);
    StepIsReachable(w2, SignalRun, w3);
    var w4 := Next(w3, Exit(1));
    StepIsReachable(w3, Exit(1), w4);
    assert w4 == ENDING;
  }

  /** A run of the system in which a keyframe request replaces the first run by a second. */
  lemma KeyframeReplacesTheRun() returns (after: World)
    ensures Reachable(SERVING) && Serving(SERVING, 1) && SERVING.alive == {1}
    ensures Reachable(after) && after.op.OpFree? && Serving(after, 2) && after.alive == {2} && after.c.generation == 2
  {
    FirstRunServes();
    KeyframeEndsTheRun();
    var w := Next(ENDING, RunGone);
    StepIsReachable(ENDING, RunGone, w);
    after := StartSucceeds(w, true);
  }
}
