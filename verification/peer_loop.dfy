/** What the worker's loop does for those who depend on it, beyond what its invariant says:
    which looks answer a call, when the worker parks, backs off and tries again. */
module PeerLoop {
  import opened PeerSections
  import opened PeerProtocol
  import opened PeerInvariant
  import opened PeerSteps
  import opened PeerTheorems
  import opened PeerWaiting

  lemma RunStep(ws: seq<World>, acts: seq<Action>, i: nat)
    requires Run(ws, acts) && i < |acts|
    ensures Enabled(ws[i], acts[i]) && ws[i + 1] == Next(ws[i], acts[i])
  {
  }

  // ----- calls

  /** A call that got a connection and looks at it again is refused exactly when the
      connection is gone; a read is made on it, and a lease waits for its revision. */
  lemma PollAnswersExactly(ws: seq<World>, acts: seq<Action>, c: nat, i: nat)
    requires Run(ws, acts) && i < |acts| && acts[i] == Caller(c, LookPoll)
    ensures c in ws[i].calls && c in ws[i + 1].calls
    ensures var p, call, phase := ws[i].p, ws[i].calls[c], ws[i + 1].calls[c].phase;
            if !p.connected then phase.Leaving?
            else if call.request.Read? then phase.Using?
            else if p.appliedRevision < call.revision then phase == PollBlocked(p.changed)
            else phase.Leaving?
  {
    RunStep(ws, acts, i);
  }

  /** A read that lost its source takes the connection down and leaves a wake-up to come. */
  lemma LostReadInvalidates(ws: seq<World>, acts: seq<Action>, c: nat, lost: bool, i: nat)
    requires Run(ws, acts) && i < |acts| && acts[i] == Caller(c, UseBound(lost))
    ensures if lost then ws[i + 1].p.invalidated && !ws[i + 1].p.connected && ws[i + 1].invalidators == ws[i].invalidators + 1
            else ws[i + 1].p == ws[i].p && ws[i + 1].invalidators == ws[i].invalidators
  {
    RunStep(ws, acts, i);
  }

  // ----- whether anybody can hang on the first attempt

  /** The worker could not be set up, or has tried. */
  predicate PastFirst(worker: Worker) {
    || worker.Stopped? || worker.Retire? || worker.ParkConnected? || worker.Owed? || worker.Backoff?
    || worker.BackoffLook?
  }

  predicate FirstOk(w: World) {
    PastFirst(w.worker) ==> w.first
  }

  lemma WorkKeepsFirst(w: World, a: WorkerAction)
    requires FirstOk(w) && WorkerEnabled(w, a)
    ensures FirstOk(WorkerNext(w, a))
  {
    if Connects(a) || WritesLease(a) {
      ConnectKeepsFirst(w, a);
    } else {
      LoopKeepsFirst(w, a);
    }
  }

  lemma ConnectKeepsFirst(w: World, a: WorkerAction)
    requires FirstOk(w) && WorkerEnabled(w, a) && (Connects(a) || WritesLease(a))
    ensures FirstOk(WorkerNext(w, a))
  {
  }

  lemma LoopKeepsFirst(w: World, a: WorkerAction)
    requires FirstOk(w) && WorkerEnabled(w, a) && !Connects(a) && !WritesLease(a)
    ensures FirstOk(WorkerNext(w, a))
  {
  }

  lemma OthersLeaveFirst(w: World, a: Action, v: World)
    requires Enabled(w, a) && !a.Work? && v == Next(w, a)
    ensures v.first == w.first && v.worker == w.worker
  {
    match a
    case Caller(c, s) => CallerLeavesFirst(w, c, s);
    case Source(s) =>
    case Watcher(s) =>
  }

  lemma CallerLeavesFirst(w: World, c: nat, a: CallerAction)
    requires CallerEnabled(w, c, a)
    ensures CallerNext(w, c, a).first == w.first && CallerNext(w, c, a).worker == w.worker
  {
  }

  /** Nobody hangs on the first attempt: once the worker gave up for good, or was through
      with an attempt, every call goes past it. */
  lemma {:induction false} FirstIsOver(ws: seq<World>, acts: seq<Action>, i: nat)
    requires Run(ws, acts) && i < |ws|
    ensures FirstOk(ws[i])
  {
    if i > 0 {
      FirstIsOver(ws, acts, i - 1);
      RunStep(ws, acts, i - 1);
      if acts[i - 1].Work? {
        WorkKeepsFirst(ws[i - 1], acts[i - 1].work);
      } else {
        OthersLeaveFirst(ws[i - 1], acts[i - 1], ws[i]);
      }
    }
  }

  // ----- backing off

  predicate BackingOff(worker: Worker) {
    worker.Backoff? || worker.BackoffLook?
  }

  /** Neither the timer nor an invalidation ends the backoff. */
  predicate Unhurried(w: World, a: Action) {
    a != Work(TimerFires) && !w.p.invalidated
  }

  lemma StepKeepsBackoff(w: World, a: Action, v: World)
    requires Enabled(w, a) && v == Next(w, a) && BackingOff(w.worker)
    requires Unhurried(w, a)
    ensures BackingOff(v.worker)
  {
    if !a.Work? {
      OthersLeaveFirst(w, a, v);
    }
  }

  /** Callers cannot hurry the worker: until its timer fires or the transport is
      invalidated it keeps backing off. */
  lemma {:induction false} BackoffIsKept(ws: seq<World>, acts: seq<Action>, i: nat, j: nat)
    requires Run(ws, acts) && i <= j < |ws| && BackingOff(ws[i].worker)
    requires forall k {:trigger acts[k]} :: i <= k < j ==> Unhurried(ws[k], acts[k])
    ensures BackingOff(ws[j].worker)
    decreases j - i
  {
    if i < j {
      BackoffIsKept(ws, acts, i, j - 1);
      RunStep(ws, acts, j - 1);
      StepKeepsBackoff(ws[j - 1], acts[j - 1], ws[j]);
    }
  }

  /** A failed attempt is followed by a backoff exactly when somebody still needs the
      source; else the worker goes straight to its rest. */
  lemma BacksOffExactlyWhenNeeded(ws: seq<World>, acts: seq<Action>, i: nat)
    requires Run(ws, acts) && i < |acts| && acts[i] == Work(CheckOwed)
    ensures ws[i + 1].worker.Backoff? <==>
              || ws[i].p.desiredActive || ws[i].p.callers > 0 || ws[i].p.desiredRevision != ws[i].p.appliedRevision
              || ws[i].p.sentInstance != ws[i].p.appliedInstance
    ensures ws[i + 1].worker.Backoff? || ws[i + 1].worker.Top?
  {
    RunKeepsInv(ws, acts, i);
    RunStep(ws, acts, i);
  }

  // ----- parking

  /** An attempt that ends connected is followed by the next one exactly when the lease was
      turned meanwhile; else the worker parks on its connection. */
  lemma ParksConnectedExactly(ws: seq<World>, acts: seq<Action>, i: nat)
    requires Run(ws, acts) && i < |acts| && acts[i] == Work(FinishTry)
    ensures ws[i + 1].worker.Publish?
    ensures var next := WorkerNext(ws[i + 1], PublishFirst).worker;
            if !ws[i + 1].p.connected then next.Retire?
            else if ws[i + 1].p.desiredRevision == ws[i + 1].p.appliedRevision then next.ParkConnected?
            else next.Top?
  {
    RunStep(ws, acts, i);
  }

  // ----- a new socket

  /** From i to j the worker stands still. */
  ghost predicate Still(ws: seq<World>, acts: seq<Action>, i: nat, j: nat) {
    Run(ws, acts) && i <= j < |ws| && forall k {:trigger acts[k]} :: i <= k < j ==> !acts[k].Work?
  }

  lemma {:induction false} WorkerStandsStill(ws: seq<World>, acts: seq<Action>, i: nat, j: nat)
    requires Still(ws, acts, i, j)
    ensures ws[j].worker == ws[i].worker
    decreases j - i
  {
    if i < j {
      WorkerStandsStill(ws, acts, i, j - 1);
      RunStep(ws, acts, j - 1);
      OthersLeaveFirst(ws[j - 1], acts[j - 1], ws[j]);
    }
  }

  predicate SocketPending(p: Peer) {
    p.invalidated && p.socketChanged
  }

  lemma StepKeepsPending(w: World, a: Action, v: World)
    requires Enabled(w, a) && v == Next(w, a) && SocketPending(w.p) && a != Work(TakeTop)
    ensures SocketPending(v.p)
  {
    match a
    case Work(s) => WorkKeepsPending(w, s);
    case Caller(c, s) => CallerKeepsPending(w, c, s);
    case Source(s) => SourceAttempts(w, s);
    case Watcher(s) => WatcherKeepsPending(w, s);
  }

  lemma WatcherKeepsPending(w: World, a: WatcherAction)
    requires WatcherEnabled(w, a) && SocketPending(w.p)
    ensures SocketPending(WatcherNext(w, a).p)
  {
  }

  lemma WorkKeepsPending(w: World, a: WorkerAction)
    requires WorkerEnabled(w, a) && SocketPending(w.p) && !a.TakeTop?
    ensures SocketPending(WorkerNext(w, a).p)
  {
    if a.ResolveSent? {
      var q := ResolveStatus(w.p, w.worker.reply);
      assert q.invalidated == w.p.invalidated && q.socketChanged == w.p.socketChanged;
    }
  }

  lemma CallerKeepsPending(w: World, c: nat, a: CallerAction)
    requires CallerEnabled(w, c, a) && SocketPending(w.p)
    ensures SocketPending(CallerNext(w, c, a).p)
  {
  }

  lemma {:induction false} SocketStaysPending(ws: seq<World>, acts: seq<Action>, i: nat, j: nat)
    requires Run(ws, acts) && i <= j < |ws| && SocketPending(ws[i].p)
    requires forall k :: i <= k < j ==> acts[k] != Work(TakeTop)
    ensures SocketPending(ws[j].p)
    decreases j - i
  {
    if i < j {
      SocketStaysPending(ws, acts, i, j - 1);
      RunStep(ws, acts, j - 1);
      StepKeepsPending(ws[j - 1], acts[j - 1], ws[j]);
    }
  }

  /** An event of the socket is seen by the worker's next round, whatever else happens until
      then: it drops the transport and looks for the socket. */
  lemma SocketEventIsSeen(ws: seq<World>, acts: seq<Action>, i: nat, j: nat)
    requires Run(ws, acts) && i < j < |acts| && acts[i] == Watcher(SocketEvent) && acts[j] == Work(TakeTop)
    requires forall k :: i < k < j ==> acts[k] != Work(TakeTop)
    ensures ws[j + 1].worker == Discard(true) && !ws[j + 1].p.invalidated
  {
    RunStep(ws, acts, i);
    SocketStaysPending(ws, acts, i + 1, j);
    RunStep(ws, acts, j);
  }

  /** A socket that appears after the last lease was a stop is connected to, although
      nobody wants the source: the new incarnation has to be told. */
  lemma NewSocketIsTold(ws: seq<World>, acts: seq<Action>, i: nat, j: nat)
    requires Run(ws, acts) && i < j < |acts| && acts[i] == Work(LookForSocket(true))
    requires ws[i].worker.Stat? && ws[i].worker.socket
    requires ws[i].p.desiredRevision > 0 && !ws[i].p.desiredActive
    requires Still(ws, acts, i + 1, j) && acts[j] == Work(CheckNeed)
    ensures ws[j + 1].worker == Begin(false, true)
  {
    RunStep(ws, acts, i);
    WorkerStandsStill(ws, acts, i + 1, j);
    RunStep(ws, acts, j);
  }

  predicate Marked(w: World, revalidates: bool) {
    w.p.attempting && w.p.validatingStop == revalidates
  }

  lemma StepKeepsMark(w: World, a: Action, v: World, revalidates: bool)
    requires Enabled(w, a) && v == Next(w, a) && IdleOk(w) && Marked(w, revalidates) && a != Work(FinishTry)
    ensures Marked(v, revalidates)
  {
    match a
    case Work(s) => WorkKeepsMark(w, s, revalidates);
    case Caller(c, s) => CallerKeepsMark(w, c, s, revalidates);
    case Source(s) => SourceAttempts(w, s);
    case Watcher(s) => WatcherKeepsMark(w, s, revalidates);
  }

  lemma WatcherKeepsMark(w: World, a: WatcherAction, revalidates: bool)
    requires WatcherEnabled(w, a) && Marked(w, revalidates)
    ensures Marked(WatcherNext(w, a), revalidates)
  {
  }

  lemma CallerKeepsMark(w: World, c: nat, a: CallerAction, revalidates: bool)
    requires CallerEnabled(w, c, a) && Marked(w, revalidates)
    ensures Marked(CallerNext(w, c, a), revalidates)
  {
  }

  lemma WorkKeepsMark(w: World, a: WorkerAction, revalidates: bool)
    requires WorkerEnabled(w, a) && IdleOk(w) && Marked(w, revalidates) && !a.FinishTry?
    ensures Marked(WorkerNext(w, a), revalidates)
  {
    if a.ResolveSent? {
      var q := ResolveStatus(w.p, w.worker.reply);
      assert q.attempting == w.p.attempting && q.validatingStop == w.p.validatingStop;
    } else {
      OtherWorkKeepsMark(w, a, revalidates);
    }
  }

  lemma OtherWorkKeepsMark(w: World, a: WorkerAction, revalidates: bool)
    requires WorkerEnabled(w, a) && IdleOk(w) && Marked(w, revalidates) && !a.FinishTry? && !a.ResolveSent?
    ensures Marked(WorkerNext(w, a), revalidates)
  {
  }

  /** From the beginning of an attempt to its end it is marked by whether it has to tell a
      stop, and only an attempt that has not is cancelled by the last caller's leaving. */
  lemma {:induction false} ToldStopIsNotCancelled(ws: seq<World>, acts: seq<Action>, i: nat, j: nat)
    requires Run(ws, acts) && i < j < |ws| && acts[i] == Work(BeginTry) && ws[i].worker.Begin?
    requires !Finished(acts, i, j)
    ensures Marked(ws[j], ws[i].worker.revalidate)
    ensures ws[i].worker.revalidate ==> !CancelsAttempt(ws[j].p)
    decreases j
  {
    if j == i + 1 {
      RunStep(ws, acts, i);
      BeginningMarks(ws[i]);
    } else {
      assert !Finished(acts, i, j - 1);
      ToldStopIsNotCancelled(ws, acts, i, j - 1);
      RunStepKeepsMark(ws, acts, j - 1, ws[i].worker.revalidate);
    }
  }

  lemma BeginningMarks(w: World)
    requires WorkerEnabled(w, BeginTry)
    ensures Marked(WorkerNext(w, BeginTry), w.worker.revalidate)
  {
  }

  lemma RunStepKeepsMark(ws: seq<World>, acts: seq<Action>, i: nat, revalidates: bool)
    requires Run(ws, acts) && i < |acts| && Marked(ws[i], revalidates) && acts[i] != Work(FinishTry)
    ensures Marked(ws[i + 1], revalidates)
  {
    RunStep(ws, acts, i);
    RunKeepsIdle(ws, acts, i);
    StepKeepsMark(ws[i], acts[i], ws[i + 1], revalidates);
  }
}
