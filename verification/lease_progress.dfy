/** What becomes of the stop of an unused source: whatever the order in which the threads
    that look after it are scheduled, they end with the stop being issued, and one that was
    fenced off never issues it. Also what the closing edge still does, and when a stalled
    source is started again. */
module LeaseProgress {
  import opened LeaseSections
  import opened LeaseProtocol

  /** The steps of those who look after an unused source. */
  predicate OwnerStep(a: Action) {
    || a.Decide? || a.Claim? || a.Spawn? || a.TimerFires? || a.TaskLock? || a.StopEnter? || a.StopCheck?
    || a.ScheduleEnter? || a.ScheduleStep?
  }

  /** How many more steps the holder of lifecycleMu can make that way. */
  function LifeRank(life: Life): nat {
    match life
    case StartFailed => 6
    case Scheduling => 5
    case StopEntered(_) => 2
    case StopChecking(_) => 1
    case _ => 0
  }

  /** How many they can make together. */
  function Rank(w: World): nat {
    6 * w.deciders + 5 * w.claimers + 4 * |w.spawners| + (if w.s.armed then 4 else 0) + 3 * |w.tasks| + LifeRank(w.life)
  }

  lemma OwnersLowerTheRank(w: World, a: Action, v: World)
    requires Enabled(w, a) && OwnerStep(a) && v == Next(w, a)
    ensures Rank(v) < Rank(w)
  {
    if a.Spawn? || a.TaskLock? {
      TasksLowerTheRank(w, a, v);
    } else {
      OthersLowerTheRank(w, a, v);
    }
  }

  lemma OneFewer(s: multiset<nat>, e: nat)
    requires e in s
    ensures |s - multiset{e}| == |s| - 1
  {
  }

  lemma TasksLowerTheRank(w: World, a: Action, v: World)
    requires Enabled(w, a) && (a.Spawn? || a.TaskLock?) && v == Next(w, a)
    ensures Rank(v) < Rank(w)
  {
    OneFewer(if a.Spawn? then w.spawners else w.tasks, a.e);
  }

  lemma OthersLowerTheRank(w: World, a: Action, v: World)
    requires Enabled(w, a) && OwnerStep(a) && !a.Spawn? && !a.TaskLock? && v == Next(w, a)
    ensures Rank(v) < Rank(w)
  {
  }

  /** Nobody holds lifecycleMu for something else. */
  predicate Awake(life: Life) {
    life.Free? || life.StartFailed? || life.Scheduling? || life.StopEntered? || life.StopChecking?
  }

  /** An unused source whose stop is not issued yet, or just is. */
  predicate Owing(w: World) {
    Inv(w) && !w.closing && Unused(w.s) && (Awake(w.life) || w.life.CallStop?)
  }

  lemma OwnersKeepOwing(w: World, a: Action, v: World)
    requires Owing(w) && Enabled(w, a) && OwnerStep(a) && v == Next(w, a)
    ensures Owing(v)
  {
    StepKeepsInv(w, a);
  }

  /** As long as the stop is not issued, some owner can act. */
  lemma OwnerCanAct(w: World) returns (a: Action)
    requires Owing(w) && !w.life.CallStop?
    ensures OwnerStep(a) && Enabled(w, a)
  {
    a := if w.life.StartFailed? then ScheduleEnter
         else if w.life.Scheduling? then ScheduleStep
         else if w.life.StopEntered? then StopEnter
         else if w.life.StopChecking? then StopCheck
         else if w.s.armed then TimerFires
         else if w.s.epoch in w.tasks then TaskLock(w.s.epoch)
         else if w.s.epoch in w.spawners then Spawn(w.s.epoch)
         else if w.deciders > 0 then Decide
         else Claim;
  }

  /** A schedule of owner steps alone. */
  ghost predicate Schedule(from: World, ws: seq<World>, acts: seq<Action>) {
    && |ws| == |acts| + 1
    && ws[0] == from
    && forall i {:trigger acts[i]} :: 0 <= i < |acts| ==> OwnerStep(acts[i]) && Enabled(ws[i], acts[i]) && ws[i + 1] == Next(ws[i], acts[i])
  }

  lemma {:induction false} ScheduleKeepsOwing(from: World, ws: seq<World>, acts: seq<Action>, i: nat)
    requires Owing(from) && Schedule(from, ws, acts) && i < |ws|
    ensures Owing(ws[i]) && Rank(ws[i]) + i <= Rank(from)
  {
    if i > 0 {
      ScheduleKeepsOwing(from, ws, acts, i - 1);
      OwnersKeepOwing(ws[i - 1], acts[i - 1], ws[i]);
      OwnersLowerTheRank(ws[i - 1], acts[i - 1], ws[i]);
    }
  }

  /** Owners do not linger and do not get stuck: from any reachable world with an unused
      source, before the edge closes and with lifecycleMu not held for something else,
      every schedule of owner steps ends within the rank, and one that cannot go on has
      issued the stop. */
  lemma StopComes(kind: Kind, run: seq<World>, made: seq<Action>, at: nat, ws: seq<World>, acts: seq<Action>)
    requires Run(kind, run, made) && at < |run| && !run[at].closing && Unused(run[at].s) && Awake(run[at].life)
    requires Schedule(run[at], ws, acts)
    ensures |acts| <= Rank(run[at])
    ensures ws[|acts|].life.CallStop? || exists a :: OwnerStep(a) && Enabled(ws[|acts|], a)
  {
    RunKeepsInv(kind, run, made, at);
    ScheduleKeepsOwing(run[at], ws, acts, |acts|);
    if !ws[|acts|].life.CallStop? {
      var a := OwnerCanAct(ws[|acts|]);
    }
  }

  // ----- fences

  lemma {:induction false} EpochsGrow(kind: Kind, ws: seq<World>, acts: seq<Action>, i: nat, j: nat)
    requires Run(kind, ws, acts) && i <= j < |ws|
    ensures ws[i].s.epoch <= ws[j].s.epoch
    decreases j - i
  {
    if i < j {
      EpochsGrow(kind, ws, acts, i, j - 1);
      RunEpoch(kind, ws, acts, j - 1);
    }
  }

  lemma RunEpoch(kind: Kind, ws: seq<World>, acts: seq<Action>, i: nat)
    requires Run(kind, ws, acts) && i < |acts|
    ensures ws[i].s.epoch <= ws[i + 1].s.epoch
  {
    StepFrame(ws[i], acts[i], ws[i + 1]);
  }

  /** A new demand, and a stop of an unused source that is claimed or armed anew, begin an
      epoch. */
  predicate Fences(w: World, a: Action) {
    a.DemandStep? || ((a.Claim? || a.ScheduleStep?) && Unused(w.s))
  }

  lemma FencesBeginAnEpoch(w: World, a: Action, v: World)
    requires Enabled(w, a) && v == Next(w, a) && Fences(w, a)
    ensures v.s.epoch == w.s.epoch + 1
  {
  }

  /** Each of them fences off every deactivation that was under way: none of an epoch up to
      then ever issues a stop afterwards, however late it gets the mutex. */
  lemma OlderStopsAreFenced(kind: Kind, ws: seq<World>, acts: seq<Action>, i: nat, j: nat)
    requires Run(kind, ws, acts) && i < j < |acts| && Fences(ws[i], acts[i])
    requires acts[j] == StopCheck && ws[j].life.StopChecking? && ws[j].life.epoch <= ws[i].s.epoch
    ensures ws[j + 1].life.Free? && ws[j + 1].s == ws[j].s
  {
    FencesBeginAnEpoch(ws[i], acts[i], ws[i + 1]);
    EpochsGrow(kind, ws, acts, i + 1, j);
    assert Enabled(ws[j], acts[j]) && ws[j + 1] == Next(ws[j], acts[j]);
  }

  // ----- once the edge closes

  /** Whoever holds lifecycleMu got past its look at whether the edge closes. */
  predicate Busy(life: Life) {
    || life.Demanding? || life.CallStart? || life.Starting? || life.StartFailed? || life.Scheduling?
    || life.StopChecking? || life.CallStop? || life.Stopping?
    || life.RecoverChecking? || life.RecoverStatus? || life.RecoverStart?
  }

  lemma ClosingStepStartsNothing(w: World, a: Action, v: World)
    requires Enabled(w, a) && v == Next(w, a) && w.closing && !Busy(w.life)
    ensures v.closing && !Busy(v.life) && v.granted <= w.granted && v.claimers <= w.claimers && v.desired == w.desired
  {
    if a.AcquireLock? || a.AcquireEnter? || a.Claim? || a.Decide? || a.Spawn? {
      ClosingDemandStops(w, a, v);
    } else if a.Release? || a.StartRecording? || a.FinishRecording? || a.DropSession? {
      ClosingConsumersGo(w, a, v);
    } else if a.TimerFires? {
      ClosingTimerFires(w, a, v);
    } else if a.TaskLock? || a.StopEnter? {
      ClosingTasksEnd(w, a, v);
    } else if a.Observed? || a.Stall? || a.RecoverLock? || a.RecoverEnter? {
      ClosingRecoveriesEnd(w, a, v);
    } else if a.BeginClose? || a.ShutdownLock? || a.ShutdownReply? {
      ClosingGoesOn(w, a, v);
    }
  }

  lemma ClosingDemandStops(w: World, a: Action, v: World)
    requires Enabled(w, a) && v == Next(w, a) && w.closing && !Busy(w.life)
    requires a.AcquireLock? || a.AcquireEnter? || a.Claim? || a.Decide? || a.Spawn?
    ensures v.closing && !Busy(v.life) && v.granted <= w.granted && v.claimers <= w.claimers && v.desired == w.desired
  {
  }

  lemma ClosingConsumersGo(w: World, a: Action, v: World)
    requires Enabled(w, a) && v == Next(w, a) && w.closing && !Busy(w.life)
    requires a.Release? || a.StartRecording? || a.FinishRecording? || a.DropSession?
    ensures v.closing && !Busy(v.life) && v.granted <= w.granted && v.claimers <= w.claimers && v.desired == w.desired
  {
  }

  lemma ClosingTimerFires(w: World, a: Action, v: World)
    requires Enabled(w, a) && v == Next(w, a) && w.closing && !Busy(w.life)
    requires a.TimerFires?
    ensures v.closing && !Busy(v.life) && v.granted <= w.granted && v.claimers <= w.claimers && v.desired == w.desired
  {
  }

  lemma ClosingTasksEnd(w: World, a: Action, v: World)
    requires Enabled(w, a) && v == Next(w, a) && w.closing && !Busy(w.life)
    requires a.TaskLock? || a.StopEnter?
    ensures v.closing && !Busy(v.life) && v.granted <= w.granted && v.claimers <= w.claimers && v.desired == w.desired
  {
  }

  lemma ClosingRecoveriesEnd(w: World, a: Action, v: World)
    requires Enabled(w, a) && v == Next(w, a) && w.closing && !Busy(w.life)
    requires a.Observed? || a.Stall? || a.RecoverLock? || a.RecoverEnter?
    ensures v.closing && !Busy(v.life) && v.granted <= w.granted && v.claimers <= w.claimers && v.desired == w.desired
  {
  }

  lemma ClosingGoesOn(w: World, a: Action, v: World)
    requires Enabled(w, a) && v == Next(w, a) && w.closing && !Busy(w.life)
    requires a.BeginClose? || a.ShutdownLock? || a.ShutdownReply?
    ensures v.closing && !Busy(v.life) && v.granted <= w.granted && v.claimers <= w.claimers && v.desired == w.desired
  {
  }

  lemma RunStep(kind: Kind, ws: seq<World>, acts: seq<Action>, i: nat)
    requires Run(kind, ws, acts) && i < |acts|
    ensures Enabled(ws[i], acts[i]) && ws[i + 1] == Next(ws[i], acts[i])
  {
  }

  lemma {:induction false} StaysQuiet(kind: Kind, ws: seq<World>, acts: seq<Action>, i: nat, j: nat)
    requires Run(kind, ws, acts) && i <= j < |ws| && ws[i].closing && !Busy(ws[i].life)
    ensures ws[j].closing && !Busy(ws[j].life)
    ensures ws[j].granted <= ws[i].granted && ws[j].claimers <= ws[i].claimers && ws[j].desired == ws[i].desired
    decreases j - i
  {
    if i < j {
      StaysQuiet(kind, ws, acts, i, j - 1);
      RunStep(kind, ws, acts, j - 1);
      ClosingStepStartsNothing(ws[j - 1], acts[j - 1], ws[j]);
    }
  }

  /** Once the edge closes and nobody is past the look at that, no demand is granted, no
      stop is claimed, and neither starts nor stops are asked of the controller any more,
      but for the stop of the shutdown itself. */
  lemma ClosingStartsNothing(kind: Kind, ws: seq<World>, acts: seq<Action>, i: nat, j: nat)
    requires Run(kind, ws, acts) && i < j < |ws| && acts[i] == BeginClose && !Busy(ws[i].life)
    ensures ws[j].closing && !Busy(ws[j].life)
    ensures ws[j].granted <= ws[i].granted && ws[j].claimers <= ws[i].claimers && ws[j].desired == ws[i].desired
  {
    RunStep(kind, ws, acts, i);
    StaysQuiet(kind, ws, acts, i + 1, j);
  }

  /** The shutdown asks for a stop exactly when it has not been confirmed yet and something
      of the source is active, uncertain or used. It counts as stopped exactly after a
      confirmed stop or when there is nothing to stop; a stop that failed leaves it
      uncertain. */
  lemma ShutdownStopsExactly(kind: Kind, ws: seq<World>, acts: seq<Action>, i: nat)
    requires Run(kind, ws, acts) && i < |acts|
    ensures acts[i].ShutdownLock? ==>
              (ws[i + 1].life.Shutting? <==>
                 && !ws[i].shutdownStopped
                 && (ws[i].s.active || ws[i].s.uncertain || ws[i].s.pending > 0 || ws[i].s.sessions != {} || ws[i].s.recording != 0))
    ensures acts[i].ShutdownLock? && !ws[i + 1].life.Shutting? ==> ws[i + 1].shutdownStopped && ws[i + 1].life.Free?
    ensures acts[i] == ShutdownReply(true) ==> ws[i + 1].shutdownStopped && !ws[i + 1].s.active && !ws[i + 1].s.uncertain
    ensures acts[i] == ShutdownReply(false) ==> ws[i + 1].s.uncertain && ws[i + 1].s.active == ws[i].s.active
    ensures acts[i] == ShutdownReply(false) ==> ws[i + 1].shutdownStopped == ws[i].shutdownStopped
  {
    RunStep(kind, ws, acts, i);
  }

  /** A camera whose stop failed, but whose peer confirmed it later, is not stopped again. */
  lemma ConfirmedNeedsNoStop(ws: seq<World>, acts: seq<Action>, i: nat)
    requires Run(Camera, ws, acts) && i + 1 < |acts| && acts[i] == Observed && acts[i + 1] == ShutdownLock
    requires !ws[i].s.active && ws[i].s.pending == 0 && ws[i].s.sessions == {} && ws[i].s.recording == 0
    ensures ws[i + 2].shutdownStopped && ws[i + 2].life.Free? && !ws[i + 2].s.uncertain
  {
    RunStep(Camera, ws, acts, i);
    RunStep(Camera, ws, acts, i + 1);
  }

  // ----- recovery

  /** A recovery of a stalled source goes on to look at it exactly when nobody acquired the
      source or claimed its stop since the stall, and it is still active and used; and it
      starts the source again exactly when it finds it not running. */
  lemma RecoveryGoesOnExactly(kind: Kind, ws: seq<World>, acts: seq<Action>, i: nat)
    requires Run(kind, ws, acts) && i < |acts|
    ensures acts[i] == RecoverCheck && ws[i].life.RecoverChecking? ==>
              (ws[i + 1].life.RecoverStatus? <==>
                 && ws[i].life.epoch == ws[i].s.epoch && ws[i].s.active
                 && (ws[i].s.pending > 0 || ws[i].s.sessions != {} || ws[i].s.recording != 0))
    ensures acts[i].RecoverRead? ==> (ws[i + 1].life.RecoverStart? <==> !acts[i].applied)
    ensures acts[i] == RecoverCheck || acts[i].RecoverRead? ==>
              ws[i + 1].s == ws[i].s && (ws[i + 1].life.Free? || ws[i + 1].life.RecoverStatus? || ws[i + 1].life.RecoverStart?)
  {
    assert Enabled(ws[i], acts[i]) && ws[i + 1] == Next(ws[i], acts[i]);
  }

  ghost predicate Reachable(kind: Kind, w: World) {
    exists ws: seq<World>, acts: seq<Action> :: Run(kind, ws, acts) && ws[|ws| - 1] == w
  }

  predicate Leads(w: World, a: Action, v: World) {
    Enabled(w, a) && v == Next(w, a)
  }

  ghost predicate Linked(ws: seq<World>, acts: seq<Action>) {
    |ws| == |acts| + 1 && forall i {:trigger acts[i]} :: 0 <= i < |acts| ==> Leads(ws[i], acts[i], ws[i + 1])
  }

  lemma LinkedExtends(ws: seq<World>, acts: seq<Action>, a: Action, v: World)
    requires Linked(ws, acts) && Leads(ws[|acts|], a, v)
    ensures Linked(ws + [v], acts + [a])
  {
  }

  lemma RunIsLinked(kind: Kind, ws: seq<World>, acts: seq<Action>)
    ensures Run(kind, ws, acts) <==> Linked(ws, acts) && ws[0] == Start(kind)
  {
    if Linked(ws, acts) && ws[0] == Start(kind) {
      forall i | 0 <= i < |acts| ensures Enabled(ws[i], acts[i]) && ws[i + 1] == Next(ws[i], acts[i]) {
        assert Leads(ws[i], acts[i], ws[i + 1]);
      }
    }
  }

  lemma StepIsReachable(kind: Kind, w: World, a: Action, v: World)
    requires Reachable(kind, w) && Enabled(w, a) && v == Next(w, a)
    ensures Reachable(kind, v)
  {
    var ws: seq<World>, acts: seq<Action> :| Run(kind, ws, acts) && ws[|ws| - 1] == w;
    RunIsLinked(kind, ws, acts);
    LinkedExtends(ws, acts, a, v);
    RunIsLinked(kind, ws + [v], acts + [a]);
  }

  /** A pipeline whose first start is under way, */
  const STARTING := Start(Pipeline).(s := UNUSED.(pending := 1, epoch := 1), life := Starting, desired := true)

  /** and the same when it serves one session. */
  const WATCHED := Start(Pipeline).(s := UNUSED.(sessions := {5}, active := true, epoch := 1), desired := true)

  const STALLED := WATCHED.(life := RecoverChecking(1))

  lemma DemandingIsReachable()
    ensures Reachable(Pipeline, Start(Pipeline).(life := Demanding))
  {
    assert Run(Pipeline, [Start(Pipeline)], []);
    var w1 := Next(Start(Pipeline), AcquireLock);
    StepIsReachable(Pipeline, Start(Pipeline), AcquireLock, w1);
    StepIsReachable(Pipeline, w1, AcquireEnter, Start(Pipeline).(life := Demanding));
  }

  lemma StartingIsReachable()
    ensures Reachable(Pipeline, STARTING)
  {
    DemandingIsReachable();
    var w0 := Start(Pipeline).(life := Demanding);
    var w1 := Next(w0, DemandStep);
    StepIsReachable(Pipeline, w0, DemandStep, w1);
    StepIsReachable(Pipeline, w1, IssueStart(false), STARTING);
  }

  lemma WatchedIsReachable()
    ensures Reachable(Pipeline, WATCHED)
  {
    StartingIsReachable();
    var w1 := Next(STARTING, StartReply(true));
    StepIsReachable(Pipeline, STARTING, StartReply(true), w1);
    StepIsReachable(Pipeline, w1, Release(5), WATCHED);
  }

  lemma StalledIsReachable()
    ensures Reachable(Pipeline, STALLED)
  {
    WatchedIsReachable();
    var w1 := Next(WATCHED, Stall);
    StepIsReachable(Pipeline, WATCHED, Stall, w1);
    var w2 := Next(w1, RecoverLock(1));
    StepIsReachable(Pipeline, w1, RecoverLock(1), w2);
    StepIsReachable(Pipeline, w2, RecoverEnter, STALLED);
  }

  /** A run in which a stalled source is started again for its viewer. */
  lemma StalledSourceIsRestarted() returns (w: World)
    ensures Reachable(Pipeline, w) && w.life.RecoverStart? && w.s.active && w.s.sessions == {5}
  {
    StalledIsReachable();
    var w1 := Next(STALLED, RecoverCheck);
    StepIsReachable(Pipeline, STALLED, RecoverCheck, w1);
    w := Next(w1, RecoverRead(false));
    StepIsReachable(Pipeline, w1, RecoverRead(false), w);
  }
}
