/** The demand lease as a step system.

    Every operation that asks for a start or a stop holds `lifecycleMu`; `life`
    says which one does and how far it got. All other threads are counted by the
    place they are at: demands that were granted, threads that saw the last
    consumer go, threads that claimed the stop under an epoch, deactivations that
    wait for `lifecycleMu`. Replies may be lost, timers fire when they like. */
module LeaseProtocol {
  import opened LeaseSections

  datatype Life =
    | Free
    | Acquiring                     // acquire, before it looks whether the edge is closing
    | Demanding
    | CallStart                     // the demand counts; the start is not issued yet
    | Starting
    | StartFailed                   // nobody else is there: on the way to schedule a stop
    | Scheduling
    | StopEntered(epoch: nat)       // deactivateIfUnused
    | StopChecking(epoch: nat)
    | CallStop(epoch: nat)
    | Stopping(epoch: nat)
    | RecoverEntered(epoch: nat)
    | RecoverChecking(epoch: nat)
    | RecoverStatus
    | RecoverStart
    | Shutting                      // Close, its stop is in flight

  datatype World = World(
    kind: Kind,
    s: Lease,
    closing: bool,
    life: Life,
    granted: nat,                   // demands granted and not yet released or handed over
    deciders: nat,                  // saw the source unused, before the closing check
    claimers: nat,                  // after it, before the section that claims the stop
    spawners: multiset<nat>,        // claimed under this epoch, task not started yet
    tasks: multiset<nat>,           // deactivations waiting for lifecycleMu, by epoch
    recoveries: multiset<nat>,      // recoveries waiting for lifecycleMu, by epoch
    desired: bool,                  // direction last asked of the controller
    shutdownStopped: bool)

  function Start(kind: Kind): World {
    World(kind, UNUSED, false, Free, 0, 0, 0, multiset{}, multiset{}, multiset{}, false, false)
  }

  datatype Action =
    // acquire
    | AcquireLock | AcquireEnter | DemandStep | IssueStart(bypass: bool) | StartReply(ok: bool)
    | ScheduleEnter | ScheduleStep
    // consumers come and go
    | Release(session: nat) | StartRecording(id: nat) | FinishRecording(id: nat) | DropSession(session: nat)
    | Decide | Claim | Spawn(e: nat)
    // deactivation
    | TimerFires | TaskLock(e: nat) | StopEnter | StopCheck | IssueStop(bypass: bool)
    | StopReply(ok: bool, cancelled: bool)
    // the peer confirmed a lease on its own
    | Observed
    // recovery of a stalled pipeline
    | Stall | RecoverLock(e: nat) | RecoverEnter | RecoverCheck | RecoverRead(applied: bool) | RecoverReply
    // shutdown
    | BeginClose | ShutdownLock | ShutdownReply(ok: bool)

  predicate Enabled(w: World, a: Action) {
    match a
    case AcquireLock => w.life.Free?
    case AcquireEnter => w.life.Acquiring?
    case DemandStep => w.life.Demanding?
    case IssueStart(bypass) => w.life.CallStart? && (bypass ==> w.closing)
    case StartReply(_) => w.life.Starting? && w.s.pending > 0
    case ScheduleEnter => w.life.StartFailed?
    case ScheduleStep => w.life.Scheduling?
    case Release(_) => w.granted > 0
    case StartRecording(id) => w.granted > 0 && w.s.recording == 0 && id != 0
    case FinishRecording(id) => id != 0
    case DropSession(_) => true
    case Decide => w.deciders > 0
    case Claim => w.claimers > 0
    case Spawn(e) => e in w.spawners
    case TimerFires => w.s.armed
    case TaskLock(e) => w.life.Free? && e in w.tasks
    case StopEnter => w.life.StopEntered?
    case StopCheck => w.life.StopChecking?
    case IssueStop(bypass) => w.life.CallStop? && (bypass ==> w.closing)
    case StopReply(_, cancelled) => w.life.Stopping? && (cancelled ==> w.closing)
    case Observed => w.kind.Camera?
    case Stall => w.kind.Pipeline? && w.s.active && (w.s.sessions != {} || w.s.recording != 0)
    case RecoverLock(e) => w.life.Free? && e in w.recoveries
    case RecoverEnter => w.life.RecoverEntered?
    case RecoverCheck => w.life.RecoverChecking?
    case RecoverRead(_) => w.life.RecoverStatus?
    case RecoverReply => w.life.RecoverStart?
    case BeginClose => true
    case ShutdownLock => w.closing && w.life.Free?
    case ShutdownReply(_) => w.life.Shutting?
  }

  function Next(w: World, a: Action): World
    requires Enabled(w, a)
  {
    match a
    case AcquireLock => w.(life := Acquiring)
    case AcquireEnter => w.(life := if w.closing then Free else Demanding)
    case DemandStep =>
      var s := Demand(w.s);
      if SharesLease(s, w.kind) then w.(s := s, life := Free, granted := w.granted + 1)
      else w.(s := s, life := CallStart)
    case IssueStart(bypass) => w.(life := Starting, desired := bypass ==> w.desired)
    case StartReply(ok) =>
      if ok then w.(s := ConfirmDemand(w.s), life := Free, granted := w.granted + 1)
      else w.(s := FailDemand(w.s), life := if HasConsumers(FailDemand(w.s)) then Free else StartFailed)
    case ScheduleEnter => w.(life := if w.closing then Free else Scheduling)
    case ScheduleStep => w.(s := Schedule(w.s), life := Free)
    case Release(session) =>
      var s := ReleasePending(w.s, session);
      w.(s := s, granted := w.granted - 1, deciders := if Unused(s) then w.deciders + 1 else w.deciders)
    case StartRecording(id) => w.(s := BeginRecording(w.s, id), granted := w.granted - 1)
    case FinishRecording(id) =>
      var s := EndRecording(w.s, id);
      w.(s := s, deciders := if HasConsumers(s) then w.deciders else w.deciders + 1)
    case DropSession(session) =>
      var s := RemoveSession(w.s, session);
      w.(s := s, deciders := if HasConsumers(s) then w.deciders else w.deciders + 1)
    case Decide => w.(deciders := w.deciders - 1, claimers := if w.closing then w.claimers else w.claimers + 1)
    case Claim =>
      if Unused(w.s) then
        w.(claimers := w.claimers - 1, s := CancelTimer(w.s), spawners := w.spawners + multiset{w.s.epoch + 1})
      else
        w.(claimers := w.claimers - 1)
    case Spawn(e) =>
      w.(spawners := w.spawners - multiset{e}, tasks := if w.closing then w.tasks else w.tasks + multiset{e})
    case TimerFires => w.(s := DisarmTimer(w.s), tasks := w.tasks + multiset{w.s.armedEpoch})
    case TaskLock(e) => w.(tasks := w.tasks - multiset{e}, life := StopEntered(e))
    case StopEnter => w.(life := if w.closing then Free else StopChecking(w.life.epoch))
    case StopCheck =>
      if StillOwed(w.s, w.life.epoch) then w.(s := DisarmTimer(w.s), life := CallStop(w.life.epoch))
      else w.(life := Free)
    case IssueStop(bypass) => w.(life := Stopping(w.life.epoch), desired := bypass && w.desired)
    case StopReply(ok, cancelled) =>
      w.(s := StopReplied(w.s, w.life.epoch, w.kind, ok, cancelled), life := Free)
    case Observed => w.(s := w.s.(uncertain := false))
    case Stall => w.(recoveries := w.recoveries + multiset{w.s.epoch})
    case RecoverLock(e) => w.(recoveries := w.recoveries - multiset{e}, life := RecoverEntered(e))
    case RecoverEnter => w.(life := if w.closing then Free else RecoverChecking(w.life.epoch))
    case RecoverCheck =>
      w.(life := if w.life.epoch == w.s.epoch && w.s.active && HasConsumers(w.s) then RecoverStatus else Free)
    case RecoverRead(applied) => w.(life := if applied then Free else RecoverStart)
    case RecoverReply => w.(life := Free)
    case BeginClose => w.(closing := true)
    case ShutdownLock =>
      var s := CancelTimer(w.s);
      if w.shutdownStopped || (!s.active && !s.uncertain && !HasConsumers(s)) then w.(s := s, shutdownStopped := true)
      else w.(s := s, life := Shutting)
    case ShutdownReply(ok) =>
      if ok then w.(s := w.s.(active := false, uncertain := false), shutdownStopped := true, life := Free)
      else w.(s := w.s.(uncertain := true), life := Free)
  }

  // ----- invariant

  /** Consumers that a successful acquire brought in. */
  predicate AnyGranted(w: World) {
    w.granted > 0 || w.s.sessions != {} || w.s.recording != 0
  }

  predicate StartInFlight(life: Life) {
    life.CallStart? || life.Starting?
  }

  predicate StopInFlight(life: Life) {
    life.CallStop? || life.Stopping?
  }

  predicate CarriesEpoch(life: Life, epoch: nat) {
    (life.StopEntered? || life.StopChecking? || life.CallStop? || life.Stopping?) && life.epoch == epoch
  }

  /** Somebody will see to it that an unused lease is given back. */
  predicate Owned(w: World) {
    || w.s.armed
    || w.s.epoch in w.tasks
    || w.s.epoch in w.spawners
    || CarriesEpoch(w.life, w.s.epoch)
    || w.deciders > 0
    || w.claimers > 0
    || w.life.StartFailed?
    || w.life.Scheduling?
  }

  predicate Inv(w: World) {
    && w.s.pending == w.granted + (if StartInFlight(w.life) then 1 else 0)
    && (w.s.armed ==> w.s.armedEpoch == w.s.epoch)
    && (StopInFlight(w.life) ==> !HasConsumers(w.s) && w.s.active)
    && (!w.closing ==> !w.life.Shutting?)
    && (!w.closing && Unused(w.s) ==> Owned(w))
    && (!w.closing && AnyGranted(w) ==> w.s.active && (w.kind.Pipeline? ==> !w.s.uncertain))
    && (!w.closing && w.kind.Pipeline? && StartInFlight(w.life) ==> !AnyGranted(w))
    && (!w.closing ==>
          w.desired == if w.life.Starting? then true else if w.life.Stopping? then false else DesiredAtRest(w))
  }

  /** What the controller was last asked for while no call of the lease is open. */
  predicate DesiredAtRest(w: World) {
    if w.kind.Camera? then w.s.active else w.desired
  }

  // ----- every step keeps it

  predicate Acquires(a: Action) {
    a.AcquireLock? || a.AcquireEnter? || a.DemandStep? || a.IssueStart? || a.StartReply? || a.ScheduleEnter?
    || a.ScheduleStep?
  }

  predicate Consumes(a: Action) {
    a.Release? || a.StartRecording? || a.FinishRecording? || a.DropSession? || a.Decide? || a.Claim? || a.Spawn?
  }

  predicate Queues(a: Action) {
    a.TimerFires? || a.TaskLock? || a.StopEnter?
  }

  predicate Deactivates(a: Action) {
    a.StopCheck? || a.IssueStop? || a.StopReply?
  }

  lemma AcquireKeepsInv(w: World, a: Action)
    requires Inv(w) && Enabled(w, a) && Acquires(a)
    ensures Inv(Next(w, a))
  {
    if a.StartReply? || a.ScheduleEnter? || a.ScheduleStep? {
      AcquireEndsKeepInv(w, a);
    } else {
      AcquireBeginsKeepInv(w, a);
    }
  }

  lemma AcquireBeginsKeepInv(w: World, a: Action)
    requires Inv(w) && Enabled(w, a) && (a.AcquireLock? || a.AcquireEnter? || a.DemandStep? || a.IssueStart?)
    ensures Inv(Next(w, a))
  {
  }

  lemma AcquireEndsKeepInv(w: World, a: Action)
    requires Inv(w) && Enabled(w, a) && (a.StartReply? || a.ScheduleEnter? || a.ScheduleStep?)
    ensures Inv(Next(w, a))
  {
  }

  lemma ConsumerKeepsInv(w: World, a: Action)
    requires Inv(w) && Enabled(w, a) && Consumes(a)
    ensures Inv(Next(w, a))
  {
    if a.Decide? || a.Claim? || a.Spawn? {
      ClaimKeepsInv(w, a);
    } else {
      DemandEndsKeepInv(w, a);
    }
  }

  lemma ClaimKeepsInv(w: World, a: Action)
    requires Inv(w) && Enabled(w, a) && (a.Decide? || a.Claim? || a.Spawn?)
    ensures Inv(Next(w, a))
  {
  }

  lemma DemandEndsKeepInv(w: World, a: Action)
    requires Inv(w) && Enabled(w, a)
    requires a.Release? || a.StartRecording? || a.FinishRecording? || a.DropSession?
    ensures Inv(Next(w, a))
  {
  }

  lemma QueueKeepsInv(w: World, a: Action)
    requires Inv(w) && Enabled(w, a) && Queues(a)
    ensures Inv(Next(w, a))
  {
  }

  lemma DeactivateKeepsInv(w: World, a: Action)
    requires Inv(w) && Enabled(w, a) && Deactivates(a)
    ensures Inv(Next(w, a))
  {
    if a.StopReply? {
      StopReplyKeepsInv(w, a);
    } else {
      StopBeginsKeepInv(w, a);
    }
  }

  lemma StopReplyKeepsInv(w: World, a: Action)
    requires Inv(w) && Enabled(w, a) && a.StopReply?
    ensures Inv(Next(w, a))
  {
  }

  lemma StopBeginsKeepInv(w: World, a: Action)
    requires Inv(w) && Enabled(w, a) && (a.StopCheck? || a.IssueStop?)
    ensures Inv(Next(w, a))
  {
  }

  lemma OtherKeepsInv(w: World, a: Action)
    requires Inv(w) && Enabled(w, a) && !Acquires(a) && !Consumes(a) && !Queues(a) && !Deactivates(a)
    ensures Inv(Next(w, a))
  {
    if a.BeginClose? || a.ShutdownLock? || a.ShutdownReply? {
      ShutdownKeepsInv(w, a);
    } else if a.Observed? || a.Stall? {
      ObservedKeepsInv(w, a);
    } else {
      RecoveryKeepsInv(w, a);
    }
  }

  lemma ShutdownKeepsInv(w: World, a: Action)
    requires Inv(w) && Enabled(w, a) && (a.BeginClose? || a.ShutdownLock? || a.ShutdownReply?)
    ensures Inv(Next(w, a))
  {
  }

  lemma ObservedKeepsInv(w: World, a: Action)
    requires Inv(w) && Enabled(w, a) && (a.Observed? || a.Stall?)
    ensures Inv(Next(w, a))
  {
  }

  lemma RecoveryKeepsInv(w: World, a: Action)
    requires Inv(w) && Enabled(w, a)
    requires a.RecoverLock? || a.RecoverEnter? || a.RecoverCheck? || a.RecoverRead? || a.RecoverReply?
    ensures Inv(Next(w, a))
  {
  }

  lemma StepKeepsInv(w: World, a: Action)
    requires Inv(w) && Enabled(w, a)
    ensures Inv(Next(w, a))
  {
    if Acquires(a) {
      AcquireKeepsInv(w, a);
    } else if Consumes(a) {
      ConsumerKeepsInv(w, a);
    } else if Queues(a) {
      QueueKeepsInv(w, a);
    } else if Deactivates(a) {
      DeactivateKeepsInv(w, a);
    } else {
      OtherKeepsInv(w, a);
    }
  }

  // ----- over every run

  ghost predicate Run(kind: Kind, ws: seq<World>, acts: seq<Action>) {
    && |ws| == |acts| + 1
    && ws[0] == Start(kind)
    && forall i {:trigger acts[i]} :: 0 <= i < |acts| ==> Enabled(ws[i], acts[i]) && ws[i + 1] == Next(ws[i], acts[i])
  }

  ghost predicate Sound(kind: Kind, w: World) {
    Inv(w) && w.kind == kind
  }

  // ----- what a step can change

  /** The source's kind never changes, epochs never go back, and only the steps of
      consumers touch the sessions, the recording and the demands granted to them. */
  ghost predicate Frame(w: World, a: Action, v: World) {
    && v.kind == w.kind
    && w.s.epoch <= v.s.epoch
    && (a.DemandStep? ==> v.s.epoch == w.s.epoch + 1)
    && v.s.recording ==
         (if a.StartRecording? then a.id else if a.FinishRecording? && w.s.recording == a.id then 0 else w.s.recording)
    && v.s.sessions ==
         (if a.Release? && a.session != 0 then w.s.sessions + {a.session}
          else if a.DropSession? then w.s.sessions - {a.session} else w.s.sessions)
    && (if a.Release? || a.StartRecording? then v.granted == w.granted - 1 else v.granted >= w.granted)
  }

  lemma StepFrame(w: World, a: Action, v: World)
    requires Enabled(w, a) && v == Next(w, a)
    ensures Frame(w, a, v)
  {
    if a.AcquireLock? || a.AcquireEnter? || a.DemandStep? || a.IssueStart? {
      AcquireBeginsFrame(w, a, v);
    } else if a.StartReply? || a.ScheduleEnter? || a.ScheduleStep? {
      AcquireEndsFrame(w, a, v);
    } else if a.Decide? || a.Claim? || a.Spawn? {
      ClaimFrame(w, a, v);
    } else if a.Release? || a.StartRecording? || a.FinishRecording? || a.DropSession? {
      DemandEndsFrame(w, a, v);
    } else if Queues(a) {
      QueueFrame(w, a, v);
    } else if a.StopCheck? || a.IssueStop? {
      StopBeginsFrame(w, a, v);
    } else if a.StopReply? {
      StopReplyFrame(w, a, v);
    } else if a.BeginClose? || a.ShutdownLock? || a.ShutdownReply? {
      ShutdownFrame(w, a, v);
    } else {
      RecoveryFrame(w, a, v);
    }
  }

  lemma AcquireBeginsFrame(w: World, a: Action, v: World)
    requires Enabled(w, a) && (a.AcquireLock? || a.AcquireEnter? || a.DemandStep? || a.IssueStart?) && v == Next(w, a)
    ensures Frame(w, a, v)
  {
  }

  lemma AcquireEndsFrame(w: World, a: Action, v: World)
    requires Enabled(w, a) && (a.StartReply? || a.ScheduleEnter? || a.ScheduleStep?) && v == Next(w, a)
    ensures Frame(w, a, v)
  {
  }

  lemma ClaimFrame(w: World, a: Action, v: World)
    requires Enabled(w, a) && (a.Decide? || a.Claim? || a.Spawn?) && v == Next(w, a)
    ensures Frame(w, a, v)
  {
  }

  lemma DemandEndsFrame(w: World, a: Action, v: World)
    requires Enabled(w, a) && v == Next(w, a)
    requires a.Release? || a.StartRecording? || a.FinishRecording? || a.DropSession?
    ensures Frame(w, a, v)
  {
  }

  lemma QueueFrame(w: World, a: Action, v: World)
    requires Enabled(w, a) && Queues(a) && v == Next(w, a)
    ensures Frame(w, a, v)
  {
  }

  lemma StopBeginsFrame(w: World, a: Action, v: World)
    requires Enabled(w, a) && (a.StopCheck? || a.IssueStop?) && v == Next(w, a)
    ensures Frame(w, a, v)
  {
  }

  lemma StopReplyFrame(w: World, a: Action, v: World)
    requires Enabled(w, a) && a.StopReply? && v == Next(w, a)
    ensures Frame(w, a, v)
  {
  }

  lemma ShutdownFrame(w: World, a: Action, v: World)
    requires Enabled(w, a) && (a.BeginClose? || a.ShutdownLock? || a.ShutdownReply?) && v == Next(w, a)
    ensures Frame(w, a, v)
  {
  }

  lemma RecoveryFrame(w: World, a: Action, v: World)
    requires Enabled(w, a) && v == Next(w, a)
    requires a.Observed? || a.Stall? || a.RecoverLock? || a.RecoverEnter? || a.RecoverCheck? || a.RecoverRead? || a.RecoverReply?
    ensures Frame(w, a, v)
  {
  }

  lemma StepKeepsSound(kind: Kind, w: World, a: Action, v: World)
    requires Sound(kind, w) && Enabled(w, a) && v == Next(w, a)
    ensures Sound(kind, v)
  {
    StepKeepsInv(w, a);
    StepFrame(w, a, v);
  }

  lemma {:induction false} RunKeepsInv(kind: Kind, ws: seq<World>, acts: seq<Action>, i: nat)
    requires Run(kind, ws, acts) && i < |ws|
    ensures Sound(kind, ws[i])
  {
    if i > 0 {
      RunKeepsInv(kind, ws, acts, i - 1);
      RunStep(kind, ws, acts, i - 1);
    }
  }

  lemma RunStep(kind: Kind, ws: seq<World>, acts: seq<Action>, i: nat)
    requires Run(kind, ws, acts) && i < |acts| && Sound(kind, ws[i])
    ensures Sound(kind, ws[i + 1])
  {
    StepKeepsSound(kind, ws[i], acts[i], ws[i + 1]);
  }

  /** An unused source is never forgotten: until the edge closes, a deactivation
      under the current epoch is armed, queued or running, or a thread is still on
      its way to create one. */
  lemma NeverForgotten(kind: Kind, ws: seq<World>, acts: seq<Action>, i: nat)
    requires Run(kind, ws, acts) && i < |ws| && !ws[i].closing
    requires ws[i].s.active && ws[i].s.pending == 0 && ws[i].s.sessions == {} && ws[i].s.recording == 0
    ensures Owned(ws[i])
  {
    RunKeepsInv(kind, ws, acts, i);
  }

  /** Until the edge closes, no stop is issued, or under way, while the source has
      any consumer. */
  lemma NoStopWhileConsumed(kind: Kind, ws: seq<World>, acts: seq<Action>, i: nat)
    requires Run(kind, ws, acts) && i < |ws|
    ensures ws[i].life.CallStop? || ws[i].life.Stopping? ==> !HasConsumers(ws[i].s)
    ensures ws[i].life.Shutting? ==> ws[i].closing
  {
    RunKeepsInv(kind, ws, acts, i);
  }

  /** Until the edge closes, a granted consumer has an active lease, which for a
      pipeline is confirmed as well, and for a camera is what its peer was last
      asked for. */
  lemma GrantedMeansActive(kind: Kind, ws: seq<World>, acts: seq<Action>, i: nat)
    requires Run(kind, ws, acts) && i < |ws| && !ws[i].closing && AnyGranted(ws[i])
    ensures ws[i].s.active
    ensures kind.Pipeline? ==> !ws[i].s.uncertain
    ensures kind.Camera? ==> ws[i].desired
  {
    RunKeepsInv(kind, ws, acts, i);
  }

  /** Until the edge closes, whenever lifecycleMu is free a camera peer was last
      asked for exactly what `active` says. */
  lemma DesiredIsActive(ws: seq<World>, acts: seq<Action>, i: nat)
    requires Run(Camera, ws, acts) && i < |ws| && !ws[i].closing && ws[i].life.Free?
    ensures ws[i].desired == ws[i].s.active
  {
    RunKeepsInv(Camera, ws, acts, i);
  }
}
