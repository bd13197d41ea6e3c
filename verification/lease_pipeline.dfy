/** A pipeline source under its demand lease: `LeaseProtocol` and
    `PipelineProtocol` side by side, until the edge closes.

    The lease thread that holds lifecycleMu makes one controller call at a time;
    the call waits for opMu, runs as the pipeline's operation, and returns.
    Keyframe requests, exits and watchers come in between as they like. */
module LeasePipeline {
  import opened LeaseSections
  import L = LeaseProtocol
  import PipelineSections
  import P = PipelineProtocol

  /** The controller call of the lease thread. */
  datatype Call =
    | NoCall
    | Waiting(start: bool)
    | Running(start: bool)
    | Returned(start: bool, ok: bool)

  datatype World = World(l: L.World, p: P.World, call: Call)

  const START := World(L.Start(Pipeline), P.START, NoCall)

  datatype Action =
    | LeaseStep(l: L.Action)
    | PipelineStep(p: P.Action)

  /** The lease step issues a call to the controller: a start, or a stop. */
  predicate IssuesStart(w: L.World, a: L.Action) {
    a.IssueStart? || a == L.RecoverRead(false)
  }

  predicate TakesReply(a: L.Action) {
    a.StartReply? || a.StopReply? || a.RecoverReply?
  }

  predicate ReplyMatches(call: Call, a: L.Action) {
    match a
    case StartReply(ok) => call == Returned(true, ok)
    case StopReply(ok, _) => call == Returned(false, ok)
    case RecoverReply => call.Returned? && call.start
    case _ => true
  }

  predicate Enabled(w: World, a: Action) {
    match a
    case LeaseStep(s) => L.Enabled(w.l, s) && !s.BeginClose? && ReplyMatches(w.call, s)
    case PipelineStep(s) =>
      && P.Enabled(w.p, s)
      && (s.Begin? ==> !s.op.CloseOp?)
      && (s.Begin? && s.op.StartOp? ==> w.call == Waiting(true))
      && (s.Begin? && s.op.StopOp? ==> w.call == Waiting(false))
  }

  /** How the operation that just freed opMu ended: a start fails when the control
      is closed, the launch failed, or the run was seen to end. */
  predicate Succeeded(before: P.World, a: P.Action) {
    !a.FailStart? && !a.RecordEnd? && !(before.op.StartOp? && before.c.closed)
  }

  function CallAfter(call: Call, before: P.World, a: P.Action, after: P.World): Call {
    if a.Begin? && (a.op.StartOp? || a.op.StopOp?) && call.Waiting? then Running(call.start)
    else if call.Running? && !before.op.OpFree? && after.op.OpFree? then Returned(call.start, Succeeded(before, a))
    else call
  }

  function Next(w: World, a: Action): World
    requires Enabled(w, a)
  {
    match a
    case LeaseStep(s) =>
      World(L.Next(w.l, s), w.p,
            if IssuesStart(w.l, s) then Waiting(true)
            else if s.IssueStop? then Waiting(false)
            else if TakesReply(s) then NoCall
            else w.call)
    case PipelineStep(s) =>
      var p := P.Next(w.p, s);
      World(w.l, p, CallAfter(w.call, w.p, s, p))
  }

  // ----- invariant

  predicate StartPhase(op: P.Op, restart: bool) {
    (op.StartOp? || op.Preparing? || op.Launching? || op.Launched? || op.Settling? || op.SawEnd? || op.Failing?)
    && op.restart == restart
  }

  predicate StopPhase(op: P.Op) {
    op.StopOp? || op.StopSignal? || op.StopWait?
  }

  /** A run is there, or an operation is on its way to launch one. */
  predicate Prone(p: P.World) {
    p.c.run != 0 || p.alive != {} || StartPhase(p.op, false) || StartPhase(p.op, true) || p.op.KeySignal? || p.op.KeyWait?
  }

  predicate CallOpen(life: L.Life) {
    life.Starting? || life.Stopping? || life.RecoverStart?
  }

  predicate Joint(w: World) {
    && (w.call.NoCall? <==> !CallOpen(w.l.life))
    && (!w.call.NoCall? ==> w.call.start == !w.l.life.Stopping?)
    && (w.call == Running(true) <==> StartPhase(w.p.op, false))
    && (w.call == Running(false) <==> StopPhase(w.p.op))
    && (w.call.Returned? && !w.call.start ==> w.call.ok && !Prone(w.p))
    && (w.l.life.RecoverStatus? || w.l.life.RecoverStart? ==> w.l.s.active)
    && (Prone(w.p) ==> w.l.s.active || w.l.life.Starting?)
    && !w.p.c.closed
    && !w.p.op.CloseOp? && !w.p.op.CloseSignal? && !w.p.op.CloseWait?
  }

  predicate Inv(w: World) {
    L.Inv(w.l) && w.l.kind == Pipeline && !w.l.closing && P.Inv(w.p) && Joint(w)
  }

  // ----- every step keeps it

  /** Only a start that the lease asked for makes a pipeline prone again. */
  lemma StaysQuiet(p: P.World, a: P.Action, q: P.World)
    requires P.Inv(p) && P.Enabled(p, a) && q == P.Next(p, a)
    requires !Prone(p) && !(a.Begin? && a.op.StartOp?)
    ensures !Prone(q)
  {
  }

  lemma StopLeavesQuiet(p: P.World, a: P.Action, q: P.World)
    requires P.Inv(p) && P.Enabled(p, a) && q == P.Next(p, a)
    requires StopPhase(p.op) && q.op.OpFree?
    ensures !Prone(q)
  {
    assert forall run :: run !in q.alive;
  }

  lemma PipelineKeepsJoint(w: World, s: P.Action, v: World)
    requires Inv(w) && Enabled(w, PipelineStep(s)) && v == Next(w, PipelineStep(s))
    ensures Joint(v)
  {
    if !Prone(w.p) && !(s.Begin? && s.op.StartOp?) {
      StaysQuiet(w.p, s, v.p);
    }
    if StopPhase(w.p.op) && v.p.op.OpFree? {
      StopLeavesQuiet(w.p, s, v.p);
    }
  }

  lemma AcquireKeepsJoint(w: World, s: L.Action, v: World)
    requires Inv(w) && Enabled(w, LeaseStep(s)) && v == Next(w, LeaseStep(s)) && L.Acquires(s)
    ensures Joint(v)
  {
  }

  lemma ConsumerKeepsJoint(w: World, s: L.Action, v: World)
    requires Inv(w) && Enabled(w, LeaseStep(s)) && v == Next(w, LeaseStep(s)) && L.Consumes(s)
    ensures Joint(v)
  {
  }

  lemma QueueKeepsJoint(w: World, s: L.Action, v: World)
    requires Inv(w) && Enabled(w, LeaseStep(s)) && v == Next(w, LeaseStep(s)) && L.Queues(s)
    ensures Joint(v)
  {
  }

  lemma StopKeepsJoint(w: World, s: L.Action, v: World)
    requires Inv(w) && Enabled(w, LeaseStep(s)) && v == Next(w, LeaseStep(s)) && L.Deactivates(s)
    ensures Joint(v)
  {
  }

  lemma OtherKeepsJoint(w: World, s: L.Action, v: World)
    requires Inv(w) && Enabled(w, LeaseStep(s)) && v == Next(w, LeaseStep(s)) && !L.Acquires(s) && !L.Consumes(s) && !L.Queues(s) && !L.Deactivates(s)
    ensures Joint(v)
  {
  }

  lemma LeaseKeepsJoint(w: World, s: L.Action, v: World)
    requires Inv(w) && Enabled(w, LeaseStep(s)) && v == Next(w, LeaseStep(s))
    ensures Joint(v)
  {
    if L.Acquires(s) {
      AcquireKeepsJoint(w, s, v);
    } else if L.Consumes(s) {
      ConsumerKeepsJoint(w, s, v);
    } else if L.Queues(s) {
      QueueKeepsJoint(w, s, v);
    } else if L.Deactivates(s) {
      StopKeepsJoint(w, s, v);
    } else {
      OtherKeepsJoint(w, s, v);
    }
  }

  lemma StepKeepsInv(w: World, a: Action, v: World)
    requires Inv(w) && Enabled(w, a) && v == Next(w, a)
    ensures Inv(v)
  {
    match a
    case LeaseStep(s) =>
      L.StepKeepsSound(Pipeline, w.l, s, v.l);
      LeaseKeepsJoint(w, s, v);
    case PipelineStep(s) =>
      P.StepKeepsInv(w.p, s, v.p);
      PipelineKeepsJoint(w, s, v);
  }

  // ----- over every run

  ghost predicate Run(ws: seq<World>, acts: seq<Action>) {
    && |ws| == |acts| + 1
    && ws[0] == START
    && forall i {:trigger acts[i]} :: 0 <= i < |acts| ==> Enabled(ws[i], acts[i]) && ws[i + 1] == Next(ws[i], acts[i])
  }

  lemma {:induction false} RunKeepsInv(ws: seq<World>, acts: seq<Action>, i: nat)
    requires Run(ws, acts) && i < |ws|
    ensures Inv(ws[i])
  {
    if i > 0 {
      RunKeepsInv(ws, acts, i - 1);
      StepKeepsInv(ws[i - 1], acts[i - 1], ws[i]);
    }
  }

  /** No resurrection: until the edge closes, whenever lifecycleMu is free a live
      run has an active lease, and a lease given back leaves no run, recorded or
      alive, and no operation that could launch one. */
  lemma NoResurrection(ws: seq<World>, acts: seq<Action>, i: nat)
    requires Run(ws, acts) && i < |ws| && ws[i].l.life.Free?
    ensures ws[i].p.alive != {} ==> ws[i].l.s.active
    ensures !ws[i].l.s.active ==> !Prone(ws[i].p)
  {
    RunKeepsInv(ws, acts, i);
  }

  /** Every granted consumer of a pipeline has a confirmed lease, and no stop of
      its pipeline is under way. */
  lemma GrantedIsServed(ws: seq<World>, acts: seq<Action>, i: nat)
    requires Run(ws, acts) && i < |ws| && L.AnyGranted(ws[i].l)
    ensures ws[i].l.s.active && !ws[i].l.s.uncertain
    ensures !StopPhase(ws[i].p.op) && ws[i].call != Waiting(false)
  {
    RunKeepsInv(ws, acts, i);
  }

  lemma RunStep(ws: seq<World>, acts: seq<Action>, i: nat)
    requires Run(ws, acts) && i < |acts|
    ensures Enabled(ws[i], acts[i]) && ws[i + 1] == Next(ws[i], acts[i])
  {
  }

  /** A start that the lease asked for succeeds exactly when it found the pipeline running
      or came to the end of its settling; a stop always does. */
  lemma ReturnsExactly(ws: seq<World>, acts: seq<Action>, i: nat, start: bool, ok: bool)
    requires Run(ws, acts) && i < |acts| && ws[i].call.Running? && ws[i + 1].call == Returned(start, ok)
    ensures start == ws[i].call.start && ws[i + 1].p.op.OpFree?
    ensures start ==> (ok <==> acts[i] == PipelineStep(P.SettleEnds) || (ws[i].p.op.StartOp? && ws[i].p.c.run != 0))
    ensures !start ==> ok
  {
    RunKeepsInv(ws, acts, i);
    RunStep(ws, acts, i);
  }

  // ----- a viewer is served

  predicate Leads(w: World, a: Action, v: World) {
    Enabled(w, a) && v == Next(w, a)
  }

  ghost predicate Linked(ws: seq<World>, acts: seq<Action>) {
    |ws| == |acts| + 1 && forall i {:trigger acts[i]} :: 0 <= i < |acts| ==> Leads(ws[i], acts[i], ws[i + 1])
  }

  lemma LinkedExtends(ws: seq<World>, acts: seq<Action>, a: Action, v: World)
    requires Linked(ws, acts) && Leads(ws[|acts|], a, v)
    ensures Linked(ws + [v], acts + [a])
  {
  }

  lemma RunIsLinked(ws: seq<World>, acts: seq<Action>)
    ensures Run(ws, acts) <==> Linked(ws, acts) && ws[0] == START
  {
    if Linked(ws, acts) && ws[0] == START {
      forall i | 0 <= i < |acts| ensures Enabled(ws[i], acts[i]) && ws[i + 1] == Next(ws[i], acts[i]) {
        assert Leads(ws[i], acts[i], ws[i + 1]);
      }
    }
  }

  ghost predicate Reachable(w: World) {
    exists ws: seq<World>, acts: seq<Action> :: Run(ws, acts) && ws[|ws| - 1] == w
  }

  lemma StepIsReachable(w: World, a: Action, v: World)
    requires Reachable(w) && Leads(w, a, v)
    ensures Reachable(v)
  {
    var ws: seq<World>, acts: seq<Action> :| Run(ws, acts) && ws[|ws| - 1] == w;
    RunIsLinked(ws, acts);
    LinkedExtends(ws, acts, a, v);
    RunIsLinked(ws + [v], acts + [a]);
    assert (ws + [v])[|ws + [v]| - 1] == v;
  }

  /** The lease waits for the reply of its start. */
  const ASKED := L.Start(Pipeline).(s := UNUSED.(pending := 1, epoch := 1), life := L.Starting, desired := true)

  lemma StartIsAsked()
    ensures Reachable(World(ASKED, P.START, Waiting(true)))
  {
    assert Run([START], []);
    var l1 := L.Next(START.l, L.AcquireLock);
    StepIsReachable(START, LeaseStep(L.AcquireLock), START.(l := l1));
    var l2 := L.Next(l1, L.AcquireEnter);
    StepIsReachable(START.(l := l1), LeaseStep(L.AcquireEnter), START.(l := l2));
    var l3 := L.Next(l2, L.DemandStep);
    StepIsReachable(START.(l := l2), LeaseStep(L.DemandStep), START.(l := l3));
    StepIsReachable(START.(l := l3), LeaseStep(L.IssueStart(false)), World(ASKED, P.START, Waiting(true)));
  }

  function During(p: P.World): World {
    World(ASKED, p, Running(true))
  }

  lemma StartGoesOn(p: P.World, a: P.Action, q: P.World)
    requires Reachable(During(p)) && P.Enabled(p, a) && !a.Begin? && q == P.Next(p, a) && !p.op.OpFree? && !q.op.OpFree?
    ensures Reachable(During(q))
  {
    StepIsReachable(During(p), PipelineStep(a), During(q));
  }

  const SETTLING := P.START.(
    c := P.START.c.(state := PipelineSections.Starting, desiredActive := true, run := 1, generation := 1),
    op := P.Settling(1, false), alive := {1}, watchers := {1}, launched := 1)

  lemma RunSettles()
    ensures Reachable(During(SETTLING))
  {
    StartIsAsked();
    var p1 := P.Next(P.START, P.Begin(P.StartOp(false)));
    StepIsReachable(World(ASKED, P.START, Waiting(true)), PipelineStep(P.Begin(P.StartOp(false))), During(p1));
    var p2 := P.Next(p1, P.Enter(false));
    StartGoesOn(p1, P.Enter(false), p2);
    var p3 := P.Next(p2, P.Prepare(true));
    StartGoesOn(p2, P.Prepare(true), p3);
    var p4 := P.Next(p3, P.Launch(true));
    StartGoesOn(p3, P.Launch(true), p4);
    var p5 := P.Next(p4, P.Record);
    StartGoesOn(p4, P.Record, p5);
    assert p5 == SETTLING;
  }

  /** A run in which a viewer's demand starts the pipeline and is granted on it. */
  lemma ViewerIsServed() returns (w: World)
    ensures Reachable(w) && w.l.granted == 1 && w.l.life.Free? && w.l.s.active && !w.l.s.uncertain
    ensures w.p.alive == {1} && P.Serving(w.p, 1)
  {
    RunSettles();
    var p := P.Next(SETTLING, P.SettleEnds);
    var v := World(ASKED, p, Returned(true, true));
    StepIsReachable(During(SETTLING), PipelineStep(P.SettleEnds), v);
    w := Next(v, LeaseStep(L.StartReply(true)));
    StepIsReachable(v, LeaseStep(L.StartReply(true)), w);
  }
}
