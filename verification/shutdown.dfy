/** Shutdown of the edge (beginOperation, startBackground and Close of
    mediamtx_server.go). */
module ShutdownSections {

  /** Who may still do something: what `server.mu` guards of it. */
  datatype Gate = Gate(closing: bool, operations: nat, background: nat)

  const OPEN := Gate(false, 0, 0)

  datatype Admission = Admitted | RefusedClosing | RefusedFull

  function Admits(g: Gate, max: nat): Admission {
    if g.closing then RefusedClosing else if g.operations >= max then RefusedFull else Admitted
  }

  function BeginOperation(g: Gate, max: nat): Gate {
    if Admits(g, max).Admitted? then g.(operations := g.operations + 1) else g
  }

  function EndOperation(g: Gate): Gate
    requires g.operations > 0
  {
    g.(operations := g.operations - 1)
  }

  function StartBackground(g: Gate): Gate {
    if g.closing then g else g.(background := g.background + 1)
  }

  function EndBackground(g: Gate): Gate
    requires g.background > 0
  {
    g.(background := g.background - 1)
  }

  predicate Drained(g: Gate) {
    g.closing && g.operations == 0 && g.background == 0
  }

  class EdgeGate {
    const max: nat
    var closing: bool
    var operations: nat
    var background: nat

    function View(): Gate
      reads this
    {
      Gate(closing, operations, background)
    }

    constructor (max: nat)
      ensures View() == OPEN && this.max == max
    {
      this.max := max;
      closing, operations, background := false, 0, 0;
    }

    method BeginOperationSection() returns (r: Admission)
      modifies this`operations
      ensures r == Admits(old(View()), max) && View() == BeginOperation(old(View()), max)
      ensures r.RefusedClosing? <==> closing
      ensures r.Admitted? <==> !closing && old(operations) < max
      ensures operations == if r.Admitted? then old(operations) + 1 else old(operations)
    {
      if closing {
        return RefusedClosing;
      }
      if operations >= max {
        return RefusedFull;
      }
      operations := operations + 1;
      return Admitted;
    }

    method EndOperationSection()
      requires operations > 0
      modifies this`operations
      ensures View() == EndOperation(old(View()))
    {
      operations := operations - 1;
    }

    method StartBackgroundSection() returns (ok: bool)
      modifies this`background
      ensures ok == !closing && View() == StartBackground(old(View()))
      ensures background == if ok then old(background) + 1 else old(background)
    {
      if closing {
        return false;
      }
      background := background + 1;
      return true;
    }

    method EndBackgroundSection()
      requires background > 0
      modifies this`background
      ensures View() == EndBackground(old(View()))
    {
      background := background - 1;
    }

    method BeginClosingSection()
      modifies this`closing
      ensures View() == old(View()).(closing := true)
    {
      closing := true;
    }

    /** An operation that runs to its end, with work in the background that it waits for,
        gives back what it was admitted for. */
    method RunOperation() returns (r: Admission)
      modifies this
      ensures r.RefusedClosing? <==> closing
      ensures r.Admitted? <==> !closing && operations < max
      ensures View() == old(View())
    {
      r := BeginOperationSection();
      if r.Admitted? {
        var ok := StartBackgroundSection();
        if ok {
          EndBackgroundSection();
        }
        EndOperationSection();
      }
    }

    /** Nothing is admitted once closing has begun. */
    method CloseGate() returns (r: Admission, ok: bool)
      modifies this
      ensures r.RefusedClosing? && !ok
      ensures View() == old(View()).(closing := true)
    {
      BeginClosingSection();
      r := BeginOperationSection();
      ok := StartBackgroundSection();
    }
  }

  /** What Close knows of a source's lease. */
  datatype Demand = Demand(active: bool, uncertain: bool, consumers: bool, shutdownStopped: bool)

  /** Nothing of the source is left to stop. */
  predicate NeedsNoStop(d: Demand) {
    d.shutdownStopped || (!d.active && !d.uncertain && !d.consumers)
  }

  function StopReplied(d: Demand, ok: bool): Demand {
    if ok then d.(shutdownStopped := true, active := false, uncertain := false) else d.(uncertain := true)
  }
}

/** Close as a step system. Everything that does not go through the gate, the exits of
    pipelines, lease changes and the closing of sessions by others interleave freely. */
module ShutdownProtocol {
  import opened ShutdownSections
  import P = PipelineProtocol
  import C = PipelineSections

  /** Where Close is; `failed` is whether it has collected a failure that counts. */
  datatype Closer =
    | NotClosing
    | Draining
    | ClosingSessions(tried: set<nat>)
    | StoppingRecordings(left: set<nat>, failed: bool)
    | Visiting(source: nat, failed: bool)
    | StoppingSource(source: nat, failed: bool)
    | ClosingControl(source: nat, begun: bool, failed: bool)
    | ClosingChild(failed: bool)
    | DroppingSessions(left: set<nat>, failed: bool)
    | Finishing(failed: bool)

  datatype World = World(
    g: Gate,
    drained: bool,                    // operationsDrained is closed
    sessions: set<nat>,
    recordings: set<nat>,
    childUp: bool,
    demands: seq<Demand>,
    pipes: seq<P.World>,              // the pipeline control of each source
    closer: Closer,
    snapshot: set<nat>,               // the sessions Close collected
    complete: bool)

  ghost predicate IsStart(w: World) {
    && w.g == OPEN && !w.drained && w.sessions == {} && w.recordings == {} && w.childUp
    && |w.demands| == |w.pipes| && w.closer.NotClosing? && !w.complete
    && (forall i :: 0 <= i < |w.demands| ==> w.demands[i] == Demand(false, false, false, false))
    && forall i :: 0 <= i < |w.pipes| ==> w.pipes[i] == P.START
  }

  datatype GateAction = Operation | OperationEnds | Background | BackgroundEnds | Drain

  datatype StateAction =
    | AddSession(id: nat) | DropSession(id: nat) | AddRecording(id: nat) | RecordingEnds(id: nat)
    | LeaseChanges(source: nat, d: Demand) | ChildExits

  datatype CloseAction =
    | Begin | WaitDrained(ok: bool) | CloseOne(id: nat, ok: bool) | SessionsTried(hostsFailed: bool)
    | WaitRecording(id: nat, ok: bool) | RecordingsTried
    | Visit | StopReply(ok: bool) | ControlClosed | SourcesVisited
    | CloseChild(ok: bool) | DropOne(id: nat) | SessionsDropped | Finish(controlOk: bool)

  datatype Action =
    | GateStep(g: GateAction)
    | StateStep(s: StateAction)
    | PipeStep(source: nat, p: P.Action)
    | CloseStep(c: CloseAction)

  predicate ClosePhase(op: P.Op) {
    op.CloseOp? || op.CloseSignal? || op.CloseWait?
  }

  predicate GateEnabled(g: Gate, a: GateAction) {
    match a
    case OperationEnds => g.operations > 0
    case BackgroundEnds => g.background > 0
    case Drain => Drained(g)
    case _ => true
  }

  /** Sessions and recordings are added by operations, under the closing check. */
  predicate StateEnabled(w: World, a: StateAction) {
    match a
    case AddSession(_) => w.g.operations > 0 && !w.g.closing
    case AddRecording(_) => w.g.operations > 0 && !w.g.closing
    case LeaseChanges(i, d) => i < |w.demands| && d.shutdownStopped == w.demands[i].shutdownStopped
    case _ => true
  }

  predicate CloseEnabled(w: World, a: CloseAction) {
    match a
    case Begin => w.closer.NotClosing? && !w.complete
    case WaitDrained(ok) => w.closer.Draining? && (ok ==> w.drained)
    case CloseOne(id, _) => w.closer.ClosingSessions? && id in w.snapshot && id !in w.closer.tried
    case SessionsTried(_) => w.closer.ClosingSessions?
    case WaitRecording(id, ok) =>
      w.closer.StoppingRecordings? && id in w.closer.left && (ok ==> id !in w.recordings)
    case RecordingsTried => w.closer.StoppingRecordings? && w.closer.left == {}
    case Visit => w.closer.Visiting? && w.closer.source < |w.demands|
    case StopReply(_) => w.closer.StoppingSource? && w.closer.source < |w.demands|
    case ControlClosed =>
      w.closer.ClosingControl? && w.closer.begun && w.closer.source < |w.pipes| && !ClosePhase(w.pipes[w.closer.source].op)
    case SourcesVisited => w.closer.Visiting? && w.closer.source == |w.demands|
    case CloseChild(_) => w.closer.ClosingChild?
    case DropOne(id) => w.closer.DroppingSessions? && id in w.closer.left
    case SessionsDropped => w.closer.DroppingSessions? && w.closer.left == {}
    case Finish(_) => w.closer.Finishing?
  }

  /** Only Close closes a control, once it has come to it. */
  predicate PipeEnabled(w: World, i: nat, a: P.Action) {
    && i < |w.pipes| && P.Enabled(w.pipes[i], a)
    && (a.Begin? && a.op.CloseOp? ==> w.closer.ClosingControl? && w.closer.source == i && !w.closer.begun)
  }

  predicate Enabled(w: World, a: Action) {
    match a
    case GateStep(s) => GateEnabled(w.g, s)
    case StateStep(s) => StateEnabled(w, s)
    case PipeStep(i, s) => PipeEnabled(w, i, s)
    case CloseStep(s) => CloseEnabled(w, s)
  }

  function GateNext(w: World, a: GateAction, max: nat): World
    requires GateEnabled(w.g, a)
  {
    match a
    case Operation => w.(g := BeginOperation(w.g, max))
    case OperationEnds => w.(g := EndOperation(w.g))
    case Background => w.(g := StartBackground(w.g))
    case BackgroundEnds => w.(g := EndBackground(w.g))
    case Drain => w.(drained := true)
  }

  function StateNext(w: World, a: StateAction): World
    requires StateEnabled(w, a)
  {
    match a
    case AddSession(id) => w.(sessions := w.sessions + {id})
    case DropSession(id) => w.(sessions := w.sessions - {id})
    case AddRecording(id) => w.(recordings := w.recordings + {id})
    case RecordingEnds(id) => w.(recordings := w.recordings - {id})
    case LeaseChanges(i, d) => w.(demands := w.demands[i := d])
    case ChildExits => w.(childUp := false)
  }

  function CloseNext(w: World, a: CloseAction): World
    requires CloseEnabled(w, a)
  {
    match a
    case Begin => w.(g := w.g.(closing := true), closer := Draining)
    case WaitDrained(ok) =>
      if ok then w.(closer := ClosingSessions({}), snapshot := w.sessions) else w.(closer := NotClosing)
    case CloseOne(id, ok) =>
      w.(closer := ClosingSessions(w.closer.tried + {id}), sessions := if ok then w.sessions - {id} else w.sessions)
    case SessionsTried(hostsFailed) => w.(closer := StoppingRecordings(w.recordings, hostsFailed))
    case WaitRecording(id, ok) => w.(closer := StoppingRecordings(w.closer.left - {id}, w.closer.failed || !ok))
    case RecordingsTried => w.(closer := Visiting(0, w.closer.failed))
    case Visit =>
      var i := w.closer.source;
      if NeedsNoStop(w.demands[i]) then
        w.(demands := w.demands[i := w.demands[i].(shutdownStopped := true)], closer := ClosingControl(i, false, w.closer.failed))
      else
        w.(closer := StoppingSource(i, w.closer.failed))
    case StopReply(ok) =>
      var i := w.closer.source;
      w.(demands := w.demands[i := StopReplied(w.demands[i], ok)],
         closer := if ok then ClosingControl(i, false, w.closer.failed) else Visiting(i + 1, true))
    case ControlClosed => w.(closer := Visiting(w.closer.source + 1, w.closer.failed))
    case SourcesVisited => w.(closer := ClosingChild(w.closer.failed))
    case CloseChild(ok) =>
      if ok then w.(childUp := false, closer := DroppingSessions(w.snapshot, w.closer.failed))
      else w.(closer := Finishing(true))
    case DropOne(id) =>
      w.(sessions := w.sessions - {id}, closer := DroppingSessions(w.closer.left - {id}, w.closer.failed))
    case SessionsDropped => w.(closer := Finishing(w.closer.failed))
    case Finish(controlOk) => w.(closer := NotClosing, complete := !w.closer.failed && controlOk)
  }

  function PipeNext(w: World, i: nat, a: P.Action): World
    requires PipeEnabled(w, i, a)
  {
    var begins := a.Begin? && a.op.CloseOp?;
    w.(pipes := w.pipes[i := P.Next(w.pipes[i], a)],
       closer := if begins then ClosingControl(i, true, w.closer.failed) else w.closer)
  }

  function Next(w: World, a: Action, max: nat): World
    requires Enabled(w, a)
  {
    match a
    case GateStep(s) => GateNext(w, s, max)
    case StateStep(s) => StateNext(w, s)
    case PipeStep(i, s) => PipeNext(w, i, s)
    case CloseStep(s) => CloseNext(w, s)
  }

  // ----- invariant

  /** The pipeline is closed for good and nothing of it is alive. */
  predicate Reaped(p: P.World) {
    p.c.closed && p.alive == {}
  }

  predicate PastDrain(c: Closer) {
    !c.NotClosing? && !c.Draining?
  }

  predicate PastRecordings(c: Closer) {
    PastDrain(c) && !c.ClosingSessions? && !c.StoppingRecordings?
  }

  predicate PastSources(c: Closer) {
    c.ClosingChild? || c.DroppingSessions? || c.Finishing?
  }

  predicate Clean(c: Closer) {
    PastDrain(c) && !c.ClosingSessions? && !c.failed
  }

  /** The sources Close is done with. */
  function Visited(c: Closer, n: nat): nat {
    if c.Visiting? || c.StoppingSource? || c.ClosingControl? then c.source else if PastSources(c) then n else 0
  }

  predicate GateOk(g: Gate, drained: bool, c: Closer, complete: bool) {
    && (drained ==> Drained(g))
    && (!c.NotClosing? || complete ==> g.closing)
    && (PastDrain(c) || complete ==> drained)
    && (complete ==> c.NotClosing?)
  }

  predicate SessionsOk(sessions: set<nat>, snapshot: set<nat>, c: Closer, childUp: bool, complete: bool) {
    && (PastDrain(c) ==> sessions <= snapshot)
    && (c.DroppingSessions? ==> sessions <= c.left && !childUp)
    && ((c.Finishing? && !c.failed) || complete ==> sessions == {} && !childUp)
  }

  predicate RecordingsOk(recordings: set<nat>, c: Closer, complete: bool) {
    && (c.StoppingRecordings? && !c.failed ==> recordings <= c.left)
    && ((PastRecordings(c) && !c.failed) || complete ==> recordings == {})
  }

  predicate PipesOk(pipes: seq<P.World>, demands: seq<Demand>, c: Closer, complete: bool) {
    && |pipes| == |demands| && Visited(c, |pipes|) <= |pipes|
    && (c.StoppingSource? || c.ClosingControl? ==> c.source < |pipes|)
    && (forall i :: 0 <= i < |pipes| ==> P.Inv(pipes[i]))
    && (forall i :: 0 <= i < |pipes| && (complete || (Clean(c) && i < Visited(c, |pipes|))) ==> Reaped(pipes[i]))
    && (forall i :: 0 <= i < |pipes| && ClosePhase(pipes[i].op) ==> c.ClosingControl? && c.begun && c.source == i)
    && (c.ClosingControl? && c.begun && !ClosePhase(pipes[c.source].op) ==> Reaped(pipes[c.source]))
  }

  /** A source that Close is done with, or whose control it closes, was stopped for good. */
  predicate StopsOk(demands: seq<Demand>, c: Closer, complete: bool) {
    && (forall i :: 0 <= i < |demands| && (complete || (Clean(c) && i < Visited(c, |demands|))) ==> demands[i].shutdownStopped)
    && (c.ClosingControl? && c.source < |demands| ==> demands[c.source].shutdownStopped)
  }

  predicate Inv(w: World) {
    && GateOk(w.g, w.drained, w.closer, w.complete)
    && StopsOk(w.demands, w.closer, w.complete)
    && SessionsOk(w.sessions, w.snapshot, w.closer, w.childUp, w.complete)
    && RecordingsOk(w.recordings, w.closer, w.complete)
    && PipesOk(w.pipes, w.demands, w.closer, w.complete)
  }

  // ----- every step keeps it

  lemma GateKeepsInv(w: World, a: GateAction, max: nat, v: World)
    requires Inv(w) && GateEnabled(w.g, a) && v == GateNext(w, a, max)
    ensures Inv(v)
  {
  }

  lemma StateKeepsInv(w: World, a: StateAction, v: World)
    requires Inv(w) && StateEnabled(w, a) && v == StateNext(w, a)
    ensures Inv(v)
  {
  }

  lemma ReapedStays(p: P.World, a: P.Action, q: P.World)
    requires P.Inv(p) && P.Enabled(p, a) && q == P.Next(p, a) && p.c.closed
    ensures q.c.closed && q.launched == p.launched && q.alive <= p.alive
  {
    P.ClosedStepLaunchesNothing(p, a, q);
  }

  /** A close that returns leaves the control closed and its run reaped. */
  lemma CloseReaps(p: P.World, a: P.Action, q: P.World)
    requires P.Inv(p) && P.Enabled(p, a) && q == P.Next(p, a)
    requires ClosePhase(p.op) && !ClosePhase(q.op)
    ensures Reaped(q)
  {
    P.StepKeepsInv(p, a, q);
    assert forall run :: run !in q.alive;
  }

  lemma OnlyBeginEntersClose(p: P.World, a: P.Action, q: P.World)
    requires P.Enabled(p, a) && q == P.Next(p, a)
    requires !ClosePhase(p.op) && ClosePhase(q.op)
    ensures a.Begin? && a.op.CloseOp?
  {
  }

  lemma PipeKeepsInv(w: World, i: nat, a: P.Action, v: World)
    requires Inv(w) && PipeEnabled(w, i, a) && v == PipeNext(w, i, a)
    ensures Inv(v)
  {
    var p, q := w.pipes[i], v.pipes[i];
    P.StepKeepsInv(p, a, q);
    if p.c.closed {
      ReapedStays(p, a, q);
    }
    if ClosePhase(p.op) && !ClosePhase(q.op) {
      CloseReaps(p, a, q);
    }
    if !ClosePhase(p.op) && ClosePhase(q.op) {
      OnlyBeginEntersClose(p, a, q);
    }
  }

  lemma CloseKeepsGate(w: World, a: CloseAction, v: World)
    requires Inv(w) && CloseEnabled(w, a) && v == CloseNext(w, a)
    ensures GateOk(v.g, v.drained, v.closer, v.complete)
  {
  }

  lemma CloseKeepsStops(w: World, a: CloseAction, v: World)
    requires Inv(w) && CloseEnabled(w, a) && v == CloseNext(w, a)
    ensures StopsOk(v.demands, v.closer, v.complete)
  {
  }

  lemma CloseKeepsSessions(w: World, a: CloseAction, v: World)
    requires Inv(w) && CloseEnabled(w, a) && v == CloseNext(w, a)
    ensures SessionsOk(v.sessions, v.snapshot, v.closer, v.childUp, v.complete)
    ensures RecordingsOk(v.recordings, v.closer, v.complete)
  {
  }

  lemma CloseKeepsPipes(w: World, a: CloseAction, v: World)
    requires Inv(w) && CloseEnabled(w, a) && v == CloseNext(w, a)
    ensures PipesOk(v.pipes, v.demands, v.closer, v.complete)
  {
  }

  lemma CloseKeepsInv(w: World, a: CloseAction, v: World)
    requires Inv(w) && CloseEnabled(w, a) && v == CloseNext(w, a)
    ensures Inv(v)
  {
    CloseKeepsGate(w, a, v);
    CloseKeepsStops(w, a, v);
    CloseKeepsSessions(w, a, v);
    CloseKeepsPipes(w, a, v);
  }

  lemma StepKeepsInv(w: World, a: Action, max: nat, v: World)
    requires Inv(w) && Enabled(w, a) && v == Next(w, a, max)
    ensures Inv(v)
  {
    match a
    case GateStep(s) => GateKeepsInv(w, s, max, v);
    case StateStep(s) => StateKeepsInv(w, s, v);
    case PipeStep(i, s) => PipeKeepsInv(w, i, s, v);
    case CloseStep(s) => CloseKeepsInv(w, s, v);
  }

  // ----- over every run

  ghost predicate Run(ws: seq<World>, acts: seq<Action>, max: nat) {
    && |ws| == |acts| + 1
    && IsStart(ws[0])
    && forall i {:trigger acts[i]} :: 0 <= i < |acts| ==> Enabled(ws[i], acts[i]) && ws[i + 1] == Next(ws[i], acts[i], max)
  }

  lemma {:induction false} RunKeepsInv(ws: seq<World>, acts: seq<Action>, max: nat, i: nat)
    requires Run(ws, acts, max) && i < |ws|
    ensures Inv(ws[i])
  {
    if i > 0 {
      RunKeepsInv(ws, acts, max, i - 1);
      StepKeepsInv(ws[i - 1], acts[i - 1], max, ws[i]);
    }
  }

  /** Nothing is left of the edge. */
  predicate Gone(w: World) {
    && w.g.closing && w.g.operations == 0 && w.g.background == 0
    && w.sessions == {} && w.recordings == {} && !w.childUp
    && forall k :: 0 <= k < |w.pipes| ==> Reaped(w.pipes[k])
  }

  /** Once Close has recorded its completion there are no sessions and no recordings,
      the child has exited, every source was stopped, and every pipeline is closed and
      its run reaped. */
  lemma CompleteMeansGone(ws: seq<World>, acts: seq<Action>, max: nat, i: nat)
    requires Run(ws, acts, max) && i < |ws| && ws[i].complete
    ensures Gone(ws[i])
    ensures forall k :: 0 <= k < |ws[i].demands| ==> ws[i].demands[k].shutdownStopped
  {
    RunKeepsInv(ws, acts, max, i);
  }

  predicate SameLaunches(before: seq<P.World>, after: seq<P.World>) {
    |after| == |before| && forall k :: 0 <= k < |before| ==> after[k].launched == before[k].launched
  }

  lemma CompleteStepLaunchesNothing(w: World, a: Action, max: nat, v: World)
    requires Inv(w) && w.complete && Enabled(w, a) && v == Next(w, a, max)
    ensures v.complete && SameLaunches(w.pipes, v.pipes)
  {
    if a.PipeStep? {
      ReapedStays(w.pipes[a.source], a.p, v.pipes[a.source]);
    }
  }

  lemma RunStepLaunchesNothing(ws: seq<World>, acts: seq<Action>, max: nat, i: nat)
    requires Run(ws, acts, max) && i < |acts| && ws[i].complete
    ensures ws[i + 1].complete && SameLaunches(ws[i].pipes, ws[i + 1].pipes)
  {
    RunKeepsInv(ws, acts, max, i);
    CompleteStepLaunchesNothing(ws[i], acts[i], max, ws[i + 1]);
  }

  lemma {:induction false} NothingLaunchedSince(ws: seq<World>, acts: seq<Action>, max: nat, i: nat, j: nat)
    requires Run(ws, acts, max) && i <= j < |ws| && ws[i].complete
    ensures ws[j].complete && SameLaunches(ws[i].pipes, ws[j].pipes)
    decreases j - i
  {
    if i < j {
      NothingLaunchedSince(ws, acts, max, i, j - 1);
      RunStepLaunchesNothing(ws, acts, max, j - 1);
    }
  }

  /** And it stays so: nothing later admits an operation, starts background work or
      launches a pipeline. */
  lemma GoneForGood(ws: seq<World>, acts: seq<Action>, max: nat, i: nat, j: nat)
    requires Run(ws, acts, max) && i <= j < |ws| && ws[i].complete
    ensures ws[j].complete && Gone(ws[j]) && SameLaunches(ws[i].pipes, ws[j].pipes)
  {
    NothingLaunchedSince(ws, acts, max, i, j);
    CompleteMeansGone(ws, acts, max, j);
  }

  /** A source counts as stopped for good only when its stop was confirmed, or when Close
      found nothing active, uncertain or used. */
  lemma StoppedOnlyForCause(ws: seq<World>, acts: seq<Action>, max: nat, i: nat, k: nat)
    requires Run(ws, acts, max) && i < |acts| && k < |ws[i].demands|
    ensures |ws[i + 1].demands| == |ws[i].demands|
    ensures ws[i + 1].demands[k].shutdownStopped && !ws[i].demands[k].shutdownStopped ==>
              || acts[i] == CloseStep(StopReply(true))
              || (acts[i] == CloseStep(Visit) && !ws[i].demands[k].active && !ws[i].demands[k].uncertain && !ws[i].demands[k].consumers)
  {
    RunKeepsInv(ws, acts, max, i);
    StopsForCause(ws[i], acts[i], max, ws[i + 1], k);
  }

  lemma StopsForCause(w: World, a: Action, max: nat, v: World, k: nat)
    requires Enabled(w, a) && v == Next(w, a, max) && k < |w.demands|
    ensures |v.demands| == |w.demands|
    ensures v.demands[k].shutdownStopped && !w.demands[k].shutdownStopped ==>
              || a == CloseStep(StopReply(true))
              || (a == CloseStep(Visit) && !w.demands[k].active && !w.demands[k].uncertain && !w.demands[k].consumers)
  {
    match a
    case CloseStep(s) => CloseStopsForCause(w, s, v, k);
    case _ =>
  }

  lemma CloseStopsForCause(w: World, a: CloseAction, v: World, k: nat)
    requires CloseEnabled(w, a) && v == CloseNext(w, a) && k < |w.demands|
    ensures |v.demands| == |w.demands|
    ensures v.demands[k].shutdownStopped && !w.demands[k].shutdownStopped ==>
              a == StopReply(true) || (a == Visit && !w.demands[k].active && !w.demands[k].uncertain && !w.demands[k].consumers)
  {
  }

  /** A confirmed stop leaves nothing of the source active or uncertain, and Close goes on to
      its control; one that failed leaves it uncertain, and this Close does not complete. */
  lemma StopReplyCounts(ws: seq<World>, acts: seq<Action>, max: nat, i: nat, ok: bool)
    requires Run(ws, acts, max) && i < |acts| && acts[i] == CloseStep(StopReply(ok))
    ensures ws[i].closer.StoppingSource? && ws[i].closer.source < |ws[i + 1].demands|
    ensures var d := ws[i + 1].demands[ws[i].closer.source];
            if ok then d.shutdownStopped && !d.active && !d.uncertain && ws[i + 1].closer.ClosingControl?
            else d.uncertain && ws[i + 1].closer == Visiting(ws[i].closer.source + 1, true)
  {
    RunKeepsInv(ws, acts, max, i);
    assert Enabled(ws[i], acts[i]) && ws[i + 1] == Next(ws[i], acts[i], max);
  }

  /** A session whose close was confirmed is gone. */
  lemma ClosedSessionIsGone(ws: seq<World>, acts: seq<Action>, max: nat, i: nat, id: nat, ok: bool)
    requires Run(ws, acts, max) && i < |acts| && acts[i] == CloseStep(CloseOne(id, ok))
    ensures ws[i + 1].sessions == if ok then ws[i].sessions - {id} else ws[i].sessions
  {
    assert Enabled(ws[i], acts[i]) && ws[i + 1] == Next(ws[i], acts[i], max);
  }

  /** A Close that waits in vain for the operations returns and can be called again; the
      edge admits nothing any more all the same. */
  lemma WaitingInVainReturns(ws: seq<World>, acts: seq<Action>, max: nat, i: nat)
    requires Run(ws, acts, max) && i < |acts| && acts[i] == CloseStep(WaitDrained(false))
    ensures ws[i + 1].closer.NotClosing? && !ws[i + 1].complete && ws[i + 1].g.closing
    ensures Enabled(ws[i + 1], CloseStep(Begin))
  {
    RunKeepsInv(ws, acts, max, i);
    assert Enabled(ws[i], acts[i]) && ws[i + 1] == Next(ws[i], acts[i], max);
  }

  // ----- which failures count

  /** A step of Close that fails for good. */
  predicate Fails(a: Action) {
    || a == CloseStep(SessionsTried(true))
    || (a.CloseStep? && a.c.WaitRecording? && !a.c.ok)
    || a == CloseStep(StopReply(false))
    || a == CloseStep(CloseChild(false))
  }

  predicate Collects(c: Closer) {
    PastDrain(c) && !c.ClosingSessions?
  }

  predicate Ends(a: Action) {
    a.CloseStep? && a.c.Finish?
  }

  lemma CloseCollects(w: World, a: CloseAction, v: World)
    requires CloseEnabled(w, a) && v == CloseNext(w, a) && !a.Finish? && (Collects(w.closer) || a.SessionsTried?)
    ensures Collects(v.closer)
    ensures v.closer.failed <==> (Collects(w.closer) && w.closer.failed) || Fails(CloseStep(a))
  {
  }

  lemma StepCollects(w: World, a: Action, max: nat, v: World)
    requires Enabled(w, a) && v == Next(w, a, max) && !Ends(a)
    requires Collects(w.closer) || (a.CloseStep? && a.c.SessionsTried?)
    ensures Collects(v.closer)
    ensures v.closer.failed <==> (Collects(w.closer) && w.closer.failed) || Fails(a)
  {
    if a.CloseStep? {
      CloseCollects(w, a.c, v);
    }
  }

  ghost predicate Failing(acts: seq<Action>, i: nat, j: nat)
    requires j <= |acts|
  {
    exists k {:trigger acts[k]} :: i <= k < j && Fails(acts[k])
  }

  /** From i, where Close is through with the sessions, to j it has not ended. */
  ghost predicate Closing(ws: seq<World>, acts: seq<Action>, max: nat, i: nat, j: nat) {
    && Run(ws, acts, max) && i < j < |ws|
    && acts[i].CloseStep? && acts[i].c.SessionsTried?
    && forall k {:trigger acts[k]} :: i <= k < j ==> !Ends(acts[k])
  }

  lemma {:induction false} FailuresAreCollected(ws: seq<World>, acts: seq<Action>, max: nat, i: nat, j: nat)
    requires Closing(ws, acts, max, i, j)
    ensures Collects(ws[j].closer) && (ws[j].closer.failed <==> Failing(acts, i, j))
    decreases j
  {
    RunStep(ws, acts, max, j - 1);
    RunKeepsInv(ws, acts, max, i);
    if j > i + 1 {
      FailuresAreCollected(ws, acts, max, i, j - 1);
    } else {
      RunStep(ws, acts, max, i);
    }
    StepCollects(ws[j - 1], acts[j - 1], max, ws[j]);
    assert Fails(acts[j - 1]) ==> Failing(acts, i, j);
  }

  lemma RunStep(ws: seq<World>, acts: seq<Action>, max: nat, i: nat)
    requires Run(ws, acts, max) && i < |acts|
    ensures Enabled(ws[i], acts[i]) && ws[i + 1] == Next(ws[i], acts[i], max)
  {
  }

  /** A Close completes exactly when since it was through with the sessions no host, no
      recording, no stop and not the child failed it, and the control API closed. */
  lemma CompletesExactly(ws: seq<World>, acts: seq<Action>, max: nat, i: nat, j: nat, controlOk: bool)
    requires Closing(ws, acts, max, i, j) && j < |acts| && acts[j] == CloseStep(Finish(controlOk))
    ensures ws[j + 1].complete <==> controlOk && !Failing(acts, i, j)
  {
    FailuresAreCollected(ws, acts, max, i, j);
    RunStep(ws, acts, max, j);
  }

  lemma StepKeepsLimit(w: World, a: Action, max: nat, v: World)
    requires w.g.operations <= max && Enabled(w, a) && v == Next(w, a, max)
    ensures v.g.operations <= max
  {
  }

  /** There are never more operations than the edge admits. */
  lemma {:induction false} OperationsAreBounded(ws: seq<World>, acts: seq<Action>, max: nat, i: nat)
    requires Run(ws, acts, max) && i < |ws|
    ensures ws[i].g.operations <= max
  {
    if i > 0 {
      OperationsAreBounded(ws, acts, max, i - 1);
      StepKeepsLimit(ws[i - 1], acts[i - 1], max, ws[i]);
    }
  }

  // ----- a Close that fails can be repeated

  /** What Close has achieved for a source. */
  predicate Kept(before: World, after: World, k: nat)
    requires k < |before.pipes| && |before.demands| == |before.pipes|
  {
    && |after.pipes| == |after.demands| == |before.pipes|
    && (before.drained ==> after.drained)
    && (before.demands[k].shutdownStopped ==> after.demands[k].shutdownStopped)
    && (Reaped(before.pipes[k]) ==> Reaped(after.pipes[k]))
  }

  lemma StepKeepsWhatIsDone(w: World, a: Action, max: nat, v: World, k: nat)
    requires Inv(w) && Enabled(w, a) && v == Next(w, a, max) && k < |w.pipes|
    ensures Kept(w, v, k)
  {
    match a
    case GateStep(s) =>
    case StateStep(s) => StateKeepsWhatIsDone(w, s, v, k);
    case PipeStep(i, s) =>
      if i == k && w.pipes[k].c.closed {
        ReapedStays(w.pipes[k], s, v.pipes[k]);
      }
    case CloseStep(s) => CloseKeepsWhatIsDone(w, s, v, k);
  }

  lemma StateKeepsWhatIsDone(w: World, a: StateAction, v: World, k: nat)
    requires Inv(w) && StateEnabled(w, a) && v == StateNext(w, a) && k < |w.pipes|
    ensures Kept(w, v, k)
  {
  }

  lemma CloseKeepsWhatIsDone(w: World, a: CloseAction, v: World, k: nat)
    requires Inv(w) && CloseEnabled(w, a) && v == CloseNext(w, a) && k < |w.pipes|
    ensures Kept(w, v, k)
  {
  }

  lemma RunStepKeepsWhatIsDone(ws: seq<World>, acts: seq<Action>, max: nat, i: nat, k: nat)
    requires Run(ws, acts, max) && i < |acts| && k < |ws[i].pipes|
    ensures |ws[i].demands| == |ws[i].pipes| && Kept(ws[i], ws[i + 1], k)
  {
    RunKeepsInv(ws, acts, max, i);
    StepKeepsWhatIsDone(ws[i], acts[i], max, ws[i + 1], k);
  }

  /** Whether Close fails or not, sources stopped and pipelines reaped stay so. */
  lemma {:induction false} WhatIsDoneStaysDone(ws: seq<World>, acts: seq<Action>, max: nat, i: nat, j: nat, k: nat)
    requires Run(ws, acts, max) && i <= j < |ws| && k < |ws[i].pipes|
    ensures |ws[i].demands| == |ws[i].pipes| && Kept(ws[i], ws[j], k)
    decreases j - i
  {
    RunKeepsInv(ws, acts, max, i);
    if i < j {
      WhatIsDoneStaysDone(ws, acts, max, i, j - 1, k);
      RunStepKeepsWhatIsDone(ws, acts, max, j - 1, k);
    }
  }

  // ----- and it can succeed

  ghost predicate Reachable(w: World, max: nat) {
    exists ws: seq<World>, acts: seq<Action> :: Run(ws, acts, max) && ws[|ws| - 1] == w
  }

  lemma StepIsReachable(w: World, a: Action, max: nat, v: World)
    requires Reachable(w, max) && Enabled(w, a) && v == Next(w, a, max)
    ensures Reachable(v, max)
  {
    var ws: seq<World>, acts: seq<Action> :| Run(ws, acts, max) && ws[|ws| - 1] == w;
    var longer, more := ws + [v], acts + [a];
    forall i | 0 <= i < |more| ensures Enabled(longer[i], more[i]) && longer[i + 1] == Next(longer[i], more[i], max) {
      if i < |acts| {
        assert longer[i] == ws[i] && longer[i + 1] == ws[i + 1] && more[i] == acts[i];
      }
    }
    assert Run(longer, more, max);
  }

  lemma CloseIsReachable(w: World, a: CloseAction, max: nat, v: World)
    requires Reachable(w, max) && CloseEnabled(w, a) && v == CloseNext(w, a)
    ensures Reachable(v, max)
  {
    StepIsReachable(w, CloseStep(a), max, v);
  }

  const NEVER_USED := Demand(false, false, false, false)

  const FRESH_EDGE := World(OPEN, false, {}, {}, true, [NEVER_USED], [P.START], NotClosing, {}, false)

  const CLOSED_PIPE := P.START.(c := C.EnterClose(P.START.c))

  /** Close is past its sessions and recordings. */
  const AT_SOURCES := FRESH_EDGE.(g := OPEN.(closing := true), drained := true, closer := Visiting(0, false))

  lemma SourcesAreReached(max: nat)
    ensures Reachable(AT_SOURCES, max)
  {
    assert Run([FRESH_EDGE], [], max);
    var w1 := CloseNext(FRESH_EDGE, Begin);
    CloseIsReachable(FRESH_EDGE, Begin, max, w1);
    var w2 := GateNext(w1, Drain, max);
    StepIsReachable(w1, GateStep(Drain), max, w2);
    var w3 := CloseNext(w2, WaitDrained(true));
    CloseIsReachable(w2, WaitDrained(true), max, w3);
    var w4 := CloseNext(w3, SessionsTried(false));
    CloseIsReachable(w3, SessionsTried(false), max, w4);
    var w5 := CloseNext(w4, RecordingsTried);
    CloseIsReachable(w4, RecordingsTried, max, w5);
    assert w5 == AT_SOURCES;
  }

  const PAST_SOURCES := AT_SOURCES.(
    demands := [NEVER_USED.(shutdownStopped := true)], pipes := [CLOSED_PIPE], closer := Visiting(1, false))

  lemma ControlsAreClosed(max: nat)
    ensures Reachable(PAST_SOURCES, max)
  {
    SourcesAreReached(max);
    var w1 := CloseNext(AT_SOURCES, Visit);
    CloseIsReachable(AT_SOURCES, Visit, max, w1);
    var w2 := PipeNext(w1, 0, P.Begin(P.CloseOp));
    StepIsReachable(w1, PipeStep(0, P.Begin(P.CloseOp)), max, w2);
    var w3 := PipeNext(w2, 0, P.Enter(false));
    StepIsReachable(w2, PipeStep(0, P.Enter(false)), max, w3);
    var w4 := CloseNext(w3, ControlClosed);
    CloseIsReachable(w3, ControlClosed, max, w4);
    assert w4 == PAST_SOURCES;
  }

  /** Close completes on an edge whose source was never used. */
  lemma CloseCanComplete(max: nat) returns (w: World)
    ensures Reachable(w, max) && w.complete && |w.pipes| == 1
  {
    ControlsAreClosed(max);
    var w1 := CloseNext(PAST_SOURCES, SourcesVisited);
    CloseIsReachable(PAST_SOURCES, SourcesVisited, max, w1);
    var w2 := CloseNext(w1, CloseChild(true));
    CloseIsReachable(w1, CloseChild(true), max, w2);
    var w3 := CloseNext(w2, SessionsDropped);
    CloseIsReachable(w2, SessionsDropped, max, w3);
    w := CloseNext(w3, Finish(true));
    CloseIsReachable(w3, Finish(true), max, w);
  }
}
