/** Who waits for a connection, and for how long. A call that finds the peer at rest
    waits for one attempt to connect; during an outage every other call is told at once. */
module PeerWaiting {
  import opened PeerSections
  import opened PeerProtocol
  import opened PeerInvariant
  import opened PeerSteps
  import opened PeerTheorems

  // ----- attempts to connect

  /** The worker begins an attempt without a connection. */
  predicate BeginsAttempt(w: World, a: Action) {
    a == Work(BeginTry) && w.worker.Begin? && !w.worker.connected
  }

  /** What a step does to the count of attempts. */
  predicate Paced(w: World, a: Action, v: World) {
    && v.p.attempts == (if BeginsAttempt(w, a) then w.p.attempts + 1 else w.p.attempts)
    && (a != Work(FinishTry) && (w.p.attempting || BeginsAttempt(w, a)) ==> v.p.attempting)
  }

  lemma StepAttempts(w: World, a: Action, v: World)
    requires Enabled(w, a) && v == Next(w, a)
    ensures Paced(w, a, v)
  {
    match a
    case Work(s) => WorkAttempts(w, s);
    case Caller(c, s) => CallerAttempts(w, c, s);
    case Source(s) => SourceAttempts(w, s);
    case Watcher(s) => WatcherAttempts(w, s);
  }

  lemma WorkAttempts(w: World, a: WorkerAction)
    requires WorkerEnabled(w, a)
    ensures Paced(w, Work(a), WorkerNext(w, a))
    ensures WorkerNext(w, a).calls == w.calls
  {
    if a.ResolveSent? {
      ResolveAttempts(w);
    } else if Connects(a) || WritesLease(a) {
      ConnectAttempts(w, a);
    } else {
      LoopAttempts(w, a);
    }
  }

  lemma ResolveAttempts(w: World)
    requires WorkerEnabled(w, ResolveSent)
    ensures Paced(w, Work(ResolveSent), WorkerNext(w, ResolveSent))
    ensures WorkerNext(w, ResolveSent).calls == w.calls
  {
    var q := ResolveStatus(w.p, w.worker.reply);
    assert q.attempts == w.p.attempts && q.attempting == w.p.attempting;
  }

  lemma ConnectAttempts(w: World, a: WorkerAction)
    requires WorkerEnabled(w, a) && (Connects(a) || WritesLease(a)) && !a.ResolveSent?
    ensures Paced(w, Work(a), WorkerNext(w, a))
    ensures WorkerNext(w, a).calls == w.calls
  {
  }

  lemma LoopAttempts(w: World, a: WorkerAction)
    requires WorkerEnabled(w, a) && !Connects(a) && !WritesLease(a)
    ensures Paced(w, Work(a), WorkerNext(w, a))
    ensures WorkerNext(w, a).calls == w.calls
  {
  }

  /** Callers leave attempts and the worker alone. */
  predicate CallerLeaves(w: World, v: World) {
    v.p.attempts == w.p.attempts && v.p.attempting == w.p.attempting && v.p.idle == w.p.idle && v.worker == w.worker
  }

  lemma CallerAttempts(w: World, c: nat, a: CallerAction)
    requires CallerEnabled(w, c, a)
    ensures CallerLeaves(w, CallerNext(w, c, a))
  {
    if a.BeginCall? {
      BeginCallAttempts(w, c, a.request);
    } else if a.SignalCall? || a.EndCall? || a.UseBound? {
      EndCallAttempts(w, c, a);
    } else {
      LookAttempts(w, c, a);
    }
  }

  lemma BeginCallAttempts(w: World, c: nat, request: Request)
    requires CallerEnabled(w, c, BeginCall(request))
    ensures CallerLeaves(w, CallerNext(w, c, BeginCall(request)))
  {
    var p := BeginDemand(w.p, request);
    assert p.attempts == w.p.attempts && p.attempting == w.p.attempting && p.idle == w.p.idle;
  }

  lemma EndCallAttempts(w: World, c: nat, a: CallerAction)
    requires CallerEnabled(w, c, a) && (a.SignalCall? || a.EndCall? || a.UseBound?)
    ensures CallerLeaves(w, CallerNext(w, c, a))
  {
  }

  lemma LookAttempts(w: World, c: nat, a: CallerAction)
    requires CallerEnabled(w, c, a) && !a.BeginCall? && !a.SignalCall? && !a.EndCall? && !a.UseBound?
    ensures CallerLeaves(w, CallerNext(w, c, a))
  {
    assert CallerNext(w, c, a).p == w.p;
  }

  /** The source and the watcher leave attempts, callers and the worker alone. */
  predicate Untouched(w: World, v: World) {
    && v.p.attempts == w.p.attempts && v.p.attempting == w.p.attempting && v.p.idle == w.p.idle
    && v.worker == w.worker && v.calls == w.calls
  }

  lemma SourceAttempts(w: World, a: SourceAction)
    requires SourceEnabled(w, a)
    ensures Untouched(w, SourceNext(w, a)) && SourceNext(w, a).p == w.p
  {
  }

  lemma WatcherAttempts(w: World, a: WatcherAction)
    requires WatcherEnabled(w, a)
    ensures Untouched(w, WatcherNext(w, a))
  {
  }

  ghost predicate Paces(ws: seq<World>, acts: seq<Action>) {
    && |ws| == |acts| + 1
    && forall i {:trigger acts[i]} :: 0 <= i < |acts| ==> Paced(ws[i], acts[i], ws[i + 1])
  }

  lemma RunPaces(ws: seq<World>, acts: seq<Action>)
    requires Run(ws, acts)
    ensures Paces(ws, acts)
  {
    forall i | 0 <= i < |acts| ensures Paced(ws[i], acts[i], ws[i + 1]) {
      StepAttempts(ws[i], acts[i], ws[i + 1]);
    }
  }

  /** An attempt has begun between i and j. */
  ghost predicate Began(ws: seq<World>, acts: seq<Action>, i: nat, j: nat)
    requires |ws| == |acts| + 1 && j < |ws|
  {
    exists b {:trigger acts[b]} :: i <= b < j && BeginsAttempt(ws[b], acts[b])
  }

  /** And one has ended. */
  ghost predicate Finished(acts: seq<Action>, i: nat, j: nat)
    requires j <= |acts|
  {
    exists k :: i <= k < j && acts[k] == Work(FinishTry)
  }

  lemma {:induction false} AttemptsCount(ws: seq<World>, acts: seq<Action>, i: nat, j: nat)
    requires Paces(ws, acts) && i <= j < |ws|
    ensures ws[i].p.attempts <= ws[j].p.attempts
    ensures ws[i].p.attempts < ws[j].p.attempts <==> Began(ws, acts, i, j)
    decreases j - i
  {
    if i < j {
      AttemptsCount(ws, acts, i, j - 1);
      assert Paced(ws[j - 1], acts[j - 1], ws[j]);
    }
  }

  lemma {:induction false} AttemptLasts(ws: seq<World>, acts: seq<Action>, i: nat, j: nat)
    requires Paces(ws, acts) && i <= j < |ws| && ws[i].p.attempting
    ensures ws[j].p.attempting || Finished(acts, i, j)
    decreases j - i
  {
    if i < j {
      AttemptLasts(ws, acts, i, j - 1);
      assert Paced(ws[j - 1], acts[j - 1], ws[j]);
    }
  }

  // ----- a call from its beginning

  /** Call c began with step i and has not ended by j. */
  ghost predicate Since(ws: seq<World>, acts: seq<Action>, c: nat, request: Request, i: nat, j: nat) {
    && Run(ws, acts) && i < j < |ws|
    && acts[i] == Caller(c, BeginCall(request))
    && forall k :: i < k <= j ==> c in ws[k].calls
  }

  lemma StepKeepsCall(w: World, a: Action, v: World, c: nat)
    requires Enabled(w, a) && v == Next(w, a) && c in w.calls && c in v.calls
    ensures v.calls[c] == w.calls[c].(phase := v.calls[c].phase)
  {
    match a
    case Work(s) => WorkAttempts(w, s);
    case Caller(d, s) => CallerKeepsCall(w, d, s, c);
    case Source(s) => SourceAttempts(w, s);
    case Watcher(s) => WatcherAttempts(w, s);
  }

  lemma CallerKeepsCall(w: World, d: nat, a: CallerAction, c: nat)
    requires CallerEnabled(w, d, a) && c in w.calls && c in CallerNext(w, d, a).calls
    ensures CallerNext(w, d, a).calls[c] == w.calls[c].(phase := CallerNext(w, d, a).calls[c].phase)
  {
  }

  lemma {:induction false} CallIsKept(ws: seq<World>, acts: seq<Action>, c: nat, request: Request, i: nat, j: nat)
    requires Since(ws, acts, c, request, i, j)
    ensures ws[j].calls[c] == ws[i + 1].calls[c].(phase := ws[j].calls[c].phase)
    ensures ws[j].calls[c].joined == JoinsDiscovery(ws[i].p) && ws[j].calls[c].target == TargetAttempt(ws[i].p)
    ensures ws[i + 1].p.attempts == ws[i].p.attempts && ws[i + 1].p.attempting == ws[i].p.attempting
    decreases j
  {
    assert Enabled(ws[i], acts[i]) && ws[i + 1] == Next(ws[i], acts[i]);
    if j > i + 1 {
      CallIsKept(ws, acts, c, request, i, j - 1);
      assert Enabled(ws[j - 1], acts[j - 1]) && ws[j] == Next(ws[j - 1], acts[j - 1]);
      StepKeepsCall(ws[j - 1], acts[j - 1], ws[j], c);
    }
  }

  /** An attempt that call can count on is over or under way: one that was under way, and
      not overtaken by an invalidation, when the call began, or one begun since. */
  ghost predicate HadAttempt(ws: seq<World>, acts: seq<Action>, i: nat, j: nat)
    requires |ws| == |acts| + 1 && i < j < |ws|
  {
    (ws[i].p.attempting && !ws[i].p.invalidated) || Began(ws, acts, i + 1, j)
  }

  lemma TargetReached(ws: seq<World>, acts: seq<Action>, c: nat, request: Request, i: nat, j: nat)
    requires Since(ws, acts, c, request, i, j)
    ensures ws[j].p.attempts >= ws[j].calls[c].target <==> HadAttempt(ws, acts, i, j)
  {
    CallIsKept(ws, acts, c, request, i, j);
    RunPaces(ws, acts);
    AttemptsCount(ws, acts, i + 1, j);
  }

  lemma HadAttemptEnds(ws: seq<World>, acts: seq<Action>, i: nat, j: nat)
    requires Paces(ws, acts) && i < j < |ws| && ws[i + 1].p.attempting == ws[i].p.attempting
    requires HadAttempt(ws, acts, i, j) && !ws[j].p.attempting
    ensures Finished(acts, i + 1, j)
  {
    if ws[i].p.attempting {
      AttemptLasts(ws, acts, i + 1, j);
    } else {
      var b :| i + 1 <= b < j && BeginsAttempt(ws[b], acts[b]);
      assert Paced(ws[b], acts[b], ws[b + 1]);
      AttemptLasts(ws, acts, b + 1, j);
      var k :| b + 1 <= k < j && acts[k] == Work(FinishTry);
      assert Finished(acts, i + 1, j);
    }
  }

  // ----- what a look at the peer answers

  /** A call that joined goes on as soon as there is a connection, and waits until the
      attempt it joined, or the first one after it began, is over and no invalidation is
      outstanding. It is never refused before an attempt has ended. */
  lemma JoinedWaitsForItsAttempt(ws: seq<World>, acts: seq<Action>, c: nat, request: Request, i: nat, j: nat)
    requires Since(ws, acts, c, request, i, j) && j < |acts| && acts[j] == Caller(c, LookAwait)
    requires ws[j].calls[c].joined
    ensures c in ws[j + 1].calls
    ensures ws[j + 1].calls[c].phase.Poll? <==> ws[j].p.connected
    ensures ws[j + 1].calls[c].phase.AwaitBlocked? <==>
              !ws[j].p.connected && (ws[j].p.attempting || ws[j].p.invalidated || !HadAttempt(ws, acts, i, j))
    ensures ws[j + 1].calls[c].phase.Leaving? ==> !ws[j].p.connected && Finished(acts, i + 1, j)
    ensures var phase := ws[j + 1].calls[c].phase; phase.Poll? || phase.AwaitBlocked? || phase.Leaving?
  {
    assert Enabled(ws[j], acts[j]) && ws[j + 1] == Next(ws[j], acts[j]);
    TargetReached(ws, acts, c, request, i, j);
    CallIsKept(ws, acts, c, request, i, j);
    if ws[j + 1].calls[c].phase.Leaving? {
      RunPaces(ws, acts);
      HadAttemptEnds(ws, acts, i, j);
    }
  }

  /** A call that did not join is answered by its first look. */
  lemma OthersAreToldAtOnce(ws: seq<World>, acts: seq<Action>, c: nat, j: nat)
    requires Run(ws, acts) && j < |acts| && acts[j] == Caller(c, LookAwait)
    ensures c in ws[j].calls && c in ws[j + 1].calls
    ensures !ws[j].calls[c].joined ==>
              if ws[j].p.connected then ws[j + 1].calls[c].phase.Poll? else ws[j + 1].calls[c].phase.Leaving?
  {
    assert Enabled(ws[j], acts[j]) && ws[j + 1] == Next(ws[j], acts[j]);
  }

  ghost predicate OnlyJoinersWait(w: World) {
    forall c :: c in w.calls && w.calls[c].phase.AwaitBlocked? ==> w.calls[c].joined
  }

  lemma StepLetsOnlyJoinersWait(w: World, a: Action, v: World)
    requires OnlyJoinersWait(w) && Enabled(w, a) && v == Next(w, a)
    ensures OnlyJoinersWait(v)
  {
    match a
    case Work(s) => WorkAttempts(w, s);
    case Caller(c, s) => CallerLetsOnlyJoinersWait(w, c, s);
    case Source(s) => SourceAttempts(w, s);
    case Watcher(s) => WatcherAttempts(w, s);
  }

  lemma CallerLetsOnlyJoinersWait(w: World, c: nat, a: CallerAction)
    requires OnlyJoinersWait(w) && CallerEnabled(w, c, a)
    ensures OnlyJoinersWait(CallerNext(w, c, a))
  {
  }

  /** So it never waits for a connection. */
  lemma {:induction false} WhoWaitsJoined(ws: seq<World>, acts: seq<Action>, i: nat)
    requires Run(ws, acts) && i < |ws|
    ensures OnlyJoinersWait(ws[i])
  {
    if i > 0 {
      WhoWaitsJoined(ws, acts, i - 1);
      StepLetsOnlyJoinersWait(ws[i - 1], acts[i - 1], ws[i]);
    }
  }

  // ----- who joins

  /** The worker has parked without a connection, or has been woken since and not yet
      looked whether it is needed. */
  predicate AtRest(worker: Worker) {
    worker.ParkIdle? || worker.Top? || worker.Discard? || worker.Stat? || worker.Need?
  }

  /** The worker is busy with an attempt. */
  predicate Trying(worker: Worker) {
    worker.Discover? || worker.ReadStatus? || worker.Resolve? || worker.ReadLease? || worker.Mark? || worker.Calling?
    || worker.Commit? || worker.Finish?
  }

  predicate IdleOk(w: World) {
    && (w.worker.ParkIdle? ==> w.p.idle)
    && (w.p.idle ==> AtRest(w.worker))
    && (w.p.attempting ==> Trying(w.worker))
  }

  lemma WorkKeepsIdle(w: World, a: WorkerAction)
    requires IdleOk(w) && WorkerEnabled(w, a)
    ensures IdleOk(WorkerNext(w, a))
  {
    if a.ResolveSent? {
      ResolveKeepsIdle(w);
    } else if Connects(a) || WritesLease(a) {
      ConnectKeepsIdle(w, a);
    } else {
      LoopKeepsIdle(w, a);
    }
  }

  lemma ResolveKeepsIdle(w: World)
    requires IdleOk(w) && WorkerEnabled(w, ResolveSent)
    ensures IdleOk(WorkerNext(w, ResolveSent))
  {
    var q := ResolveStatus(w.p, w.worker.reply);
    assert q.idle == w.p.idle && q.attempting == w.p.attempting;
  }

  lemma ConnectKeepsIdle(w: World, a: WorkerAction)
    requires IdleOk(w) && WorkerEnabled(w, a) && (Connects(a) || WritesLease(a)) && !a.ResolveSent?
    ensures IdleOk(WorkerNext(w, a))
  {
  }

  lemma LoopKeepsIdle(w: World, a: WorkerAction)
    requires IdleOk(w) && WorkerEnabled(w, a) && !Connects(a) && !WritesLease(a)
    ensures IdleOk(WorkerNext(w, a))
  {
  }

  lemma StepKeepsIdle(w: World, a: Action, v: World)
    requires IdleOk(w) && Enabled(w, a) && v == Next(w, a)
    ensures IdleOk(v)
  {
    match a
    case Work(s) => WorkKeepsIdle(w, s);
    case Caller(c, s) => CallerAttempts(w, c, s);
    case Source(s) => SourceAttempts(w, s);
    case Watcher(s) => WatcherAttempts(w, s);
  }

  lemma {:induction false} RunKeepsIdle(ws: seq<World>, acts: seq<Action>, i: nat)
    requires Run(ws, acts) && i < |ws|
    ensures IdleOk(ws[i])
  {
    if i > 0 {
      RunKeepsIdle(ws, acts, i - 1);
      StepKeepsIdle(ws[i - 1], acts[i - 1], ws[i]);
    }
  }

  /** Somebody wants the source already: a viewer, a caller, or a lease still owed. */
  predicate Wanted(p: Peer) {
    p.desiredActive || p.callers > 0 || p.desiredRevision != p.appliedRevision
  }

  /** A call joins a discovery when it finds the worker parked without a connection, or the
      peer unconnected and unwanted. It does not join when the source is connected or
      wanted and the worker is not coming from its rest. */
  lemma WhoJoins(ws: seq<World>, acts: seq<Action>, c: nat, request: Request, i: nat)
    requires Run(ws, acts) && i < |acts| && acts[i] == Caller(c, BeginCall(request))
    ensures c in ws[i + 1].calls && ws[i + 1].calls[c].phase.Announce?
    ensures ws[i].worker.ParkIdle? || (!ws[i].p.connected && !Wanted(ws[i].p)) ==> ws[i + 1].calls[c].joined
    ensures (ws[i].p.connected || Wanted(ws[i].p)) && !AtRest(ws[i].worker) ==> !ws[i + 1].calls[c].joined
  {
    RunKeepsIdle(ws, acts, i);
    assert Enabled(ws[i], acts[i]) && ws[i + 1] == Next(ws[i], acts[i]);
  }

  /** A call that wakes a parked peer is refused only after a whole attempt of its own. */
  lemma WakingGetsAnAttempt(ws: seq<World>, acts: seq<Action>, c: nat, request: Request, i: nat, j: nat)
    requires Since(ws, acts, c, request, i, j) && j < |acts| && acts[j] == Caller(c, LookAwait)
    requires ws[i].worker.ParkIdle? && c in ws[j + 1].calls && ws[j + 1].calls[c].phase.Leaving?
    ensures Began(ws, acts, i + 1, j) && Finished(acts, i + 1, j) && !ws[j].p.attempting && !ws[j].p.invalidated
  {
    WhoJoins(ws, acts, c, request, i);
    CallIsKept(ws, acts, c, request, i, j);
    JoinedWaitsForItsAttempt(ws, acts, c, request, i, j);
    RunKeepsIdle(ws, acts, i);
  }

  // ----- nobody waits in vain

  /** The worker is on its way to an attempt that nothing but the callers' leaving stops. */
  predicate Heading(worker: Worker) {
    worker.Discard? || worker.Stat? || (worker.Need? && !worker.connected) || (worker.Begin? && !worker.connected)
  }

  /** A caller that waits and has not been notified since has an attempt to wait for. */
  predicate WaitOk(p: Peer, worker: Worker, call: Call) {
    call.phase.AwaitBlocked? && call.phase.generation == p.changed ==>
      p.attempts < call.target || p.attempting || p.invalidated || Heading(worker)
  }

  ghost predicate WaitsOk(w: World) {
    forall c :: c in w.calls ==> WaitOk(w.p, w.worker, w.calls[c])
  }

  lemma WaitingIsCounted(w: World, c: nat)
    requires Inv(w) && c in w.calls && w.calls[c].phase.AwaitBlocked?
    ensures w.p.callers > 0 && w.calls[c].phase.generation <= w.p.changed
  {
    assert c in Counted(w.calls);
    assert CallOk(w.p, w.turns, w.calls[c]);
  }

  /** What keeps a waiting caller waiting for good reason: somebody notifies it, or the
      attempt is still there. */
  predicate Keeps(p: Peer, worker: Worker, q: Peer, next: Worker) {
    && p.changed <= q.changed
    && p.attempts <= q.attempts
    && (p.callers > 0 && p.changed == q.changed ==>
          && (p.attempting ==> q.attempting)
          && (p.invalidated ==> q.invalidated || Heading(next))
          && (Heading(worker) ==> q.attempting || Heading(next))
          && (p.attempts < q.attempts ==> q.attempting))
  }

  lemma KeepsWait(w: World, c: nat, v: World)
    requires Inv(w) && c in w.calls && WaitOk(w.p, w.worker, w.calls[c]) && Keeps(w.p, w.worker, v.p, v.worker)
    ensures WaitOk(v.p, v.worker, w.calls[c])
  {
    if w.calls[c].phase.AwaitBlocked? {
      WaitingIsCounted(w, c);
    }
  }

  predicate Notifies(a: WorkerAction) {
    a.FinishTry? || a.CommitLease?
  }

  lemma NotifyingKeeps(w: World, a: WorkerAction)
    requires WorkerEnabled(w, a) && Notifies(a)
    ensures Keeps(w.p, w.worker, WorkerNext(w, a).p, WorkerNext(w, a).worker)
  {
  }

  lemma ResolvingKeeps(w: World)
    requires WorkerEnabled(w, ResolveSent)
    ensures Keeps(w.p, w.worker, WorkerNext(w, ResolveSent).p, WorkerNext(w, ResolveSent).worker)
  {
    var q := ResolveStatus(w.p, w.worker.reply);
    assert q.attempts == w.p.attempts && q.attempting == w.p.attempting && q.invalidated == w.p.invalidated;
    assert q.changed == w.p.changed;
  }

  lemma ConnectingKeeps(w: World, a: WorkerAction)
    requires WorkerEnabled(w, a) && (Connects(a) || WritesLease(a)) && !Notifies(a) && !a.ResolveSent?
    ensures Keeps(w.p, w.worker, WorkerNext(w, a).p, WorkerNext(w, a).worker)
  {
  }

  lemma LoopKeeps(w: World, a: WorkerAction)
    requires WorkerEnabled(w, a) && !Connects(a) && !WritesLease(a) && !Notifies(a) && !a.ResolveSent?
    ensures Keeps(w.p, w.worker, WorkerNext(w, a).p, WorkerNext(w, a).worker)
  {
  }

  lemma WorkKeeps(w: World, a: WorkerAction)
    requires WorkerEnabled(w, a)
    ensures Keeps(w.p, w.worker, WorkerNext(w, a).p, WorkerNext(w, a).worker)
  {
    if Notifies(a) {
      NotifyingKeeps(w, a);
    } else if a.ResolveSent? {
      ResolvingKeeps(w);
    } else if Connects(a) || WritesLease(a) {
      ConnectingKeeps(w, a);
    } else {
      LoopKeeps(w, a);
    }
  }

  lemma CallerKeeps(w: World, d: nat, a: CallerAction)
    requires CallerEnabled(w, d, a)
    ensures Keeps(w.p, w.worker, CallerNext(w, d, a).p, CallerNext(w, d, a).worker)
  {
  }

  /** Only a look at the peer lets a caller wait for a connection. */
  lemma CallerBlocks(w: World, d: nat, a: CallerAction, c: nat)
    requires CallerEnabled(w, d, a) && c in CallerNext(w, d, a).calls
    ensures var v := CallerNext(w, d, a);
            || (c in w.calls && v.calls[c] == w.calls[c])
            || !v.calls[c].phase.AwaitBlocked?
            || (a.LookAwait? && WaitOk(v.p, v.worker, v.calls[c]))
  {
  }

  lemma CallerKeepsWaits(w: World, d: nat, a: CallerAction)
    requires Inv(w) && CallerEnabled(w, d, a) && WaitsOk(w)
    ensures WaitsOk(CallerNext(w, d, a))
  {
    var v := CallerNext(w, d, a);
    forall c | c in v.calls ensures WaitOk(v.p, v.worker, v.calls[c]) {
      CallerBlocks(w, d, a, c);
      if c in w.calls && v.calls[c] == w.calls[c] {
        CallerKeeps(w, d, a);
        KeepsWait(w, c, v);
      }
    }
  }

  lemma StepKeepsWaits(w: World, a: Action, v: World)
    requires Inv(w) && Enabled(w, a) && v == Next(w, a) && WaitsOk(w)
    ensures WaitsOk(v)
  {
    match a
    case Work(s) => WorkKeepsWaits(w, s);
    case Caller(d, s) => CallerKeepsWaits(w, d, s);
    case Watcher(s) => WatcherKeepsWaits(w, s);
    case Source(s) => SourceAttempts(w, s);
  }

  lemma WorkKeepsWaits(w: World, a: WorkerAction)
    requires Inv(w) && WorkerEnabled(w, a) && WaitsOk(w)
    ensures WaitsOk(WorkerNext(w, a))
  {
    var v := WorkerNext(w, a);
    WorkAttempts(w, a);
    WorkKeeps(w, a);
    forall c | c in v.calls ensures WaitOk(v.p, v.worker, v.calls[c]) {
      KeepsWait(w, c, v);
    }
  }

  lemma WatcherKeepsWaits(w: World, a: WatcherAction)
    requires Inv(w) && WatcherEnabled(w, a) && WaitsOk(w)
    ensures WaitsOk(WatcherNext(w, a))
  {
    var v := WatcherNext(w, a);
    forall c | c in v.calls ensures WaitOk(v.p, v.worker, v.calls[c]) {
      assert WaitOk(w.p, w.worker, w.calls[c]);
    }
  }

  lemma {:induction false} RunKeepsWaits(ws: seq<World>, acts: seq<Action>, i: nat)
    requires Run(ws, acts) && i < |ws|
    ensures WaitsOk(ws[i])
  {
    if i > 0 {
      RunKeepsWaits(ws, acts, i - 1);
      RunKeepsInv(ws, acts, i - 1);
      StepKeepsWaits(ws[i - 1], acts[i - 1], ws[i]);
    }
  }

  /** Nobody waits in vain: whoever waits for a connection without having been notified
      waits for an attempt that is under way, about to begin, or still to come, or for an
      invalidation that the worker has not seen yet; and never while connected. */
  lemma WaitsForAnAttempt(ws: seq<World>, acts: seq<Action>, c: nat, request: Request, i: nat, j: nat)
    requires Since(ws, acts, c, request, i, j) && ws[j].calls[c].phase.AwaitBlocked?
    ensures ws[j].calls[c].phase.generation <= ws[j].p.changed
    ensures ws[j].calls[c].phase.generation == ws[j].p.changed ==>
              && !ws[j].p.connected
              && (!HadAttempt(ws, acts, i, j) || ws[j].p.attempting || ws[j].p.invalidated || Heading(ws[j].worker))
  {
    RunKeepsInv(ws, acts, j);
    RunKeepsWaits(ws, acts, j);
    assert CallOk(ws[j].p, ws[j].turns, ws[j].calls[c]);
    assert WaitOk(ws[j].p, ws[j].worker, ws[j].calls[c]);
    TargetReached(ws, acts, c, request, i, j);
  }
}
