/** Every step of `PeerProtocol` keeps the invariant. */
module PeerSteps {
  import opened PeerSections
  import opened PeerProtocol
  import opened PeerInvariant

  lemma SourceKeepsInv(w: World, a: SourceAction)
    requires Inv(w) && SourceEnabled(w, a)
    ensures Inv(SourceNext(w, a))
  {
  }

  /** The two peers agree in everything that `Core` is about. */
  predicate SameLease(p: Peer, q: Peer) {
    && p.connected == q.connected && p.invalidated == q.invalidated
    && p.desiredActive == q.desiredActive && p.desiredRevision == q.desiredRevision
    && p.appliedInstance == q.appliedInstance && p.appliedRevision == q.appliedRevision
    && p.sentInstance == q.sentInstance && p.sentRevision == q.sentRevision
    && p.receipt == q.receipt && p.bound == q.bound
  }

  lemma SameLeaseKeepsCore(w: World, q: Peer)
    requires Core(w.p, w.worker, w.current, w.born, w.native, w.turns, w.log) && SameLease(w.p, q)
    ensures Core(q, w.worker, w.current, w.born, w.native, w.turns, w.log)
  {
    SameLeaseKeepsPending(w.p, q, w.worker, w.turns, w.native, w.log);
    SameLeaseKeepsTransport(w.p, q, w.worker);
    assert Revisions(q, w.turns);
    assert Instances(q, w.current, w.born, w.native);
    assert Agreement(q, w.turns, w.native, w.log);
    assert LogBounds(q, w.log);
  }

  lemma SameLeaseKeepsPending(p: Peer, q: Peer, worker: Worker, turns: seq<bool>, native: map<nat, bool>, log: seq<Event>)
    requires Pending(p, worker, turns, native, log) && SameLease(p, q)
    ensures Pending(q, worker, turns, native, log)
  {
  }

  lemma SameLeaseKeepsTransport(p: Peer, q: Peer, worker: Worker)
    requires Transport(p, worker) && Connection(p) && SameLease(p, q)
    ensures Transport(q, worker) && Connection(q)
  {
  }

  // ----- callers

  lemma CountedUpdate(calls: map<nat, Call>, c: nat, call: Call)
    ensures Counted(calls[c := call]) == if call.phase.Departing? then Counted(calls) - {c} else Counted(calls) + {c}
    ensures Counted(calls - {c}) == Counted(calls) - {c}
  {
  }

  lemma UnsignalledStays(calls: map<nat, Call>, c: nat, call: Call)
    requires c in calls ==> Unsignalled(call) || !Unsignalled(calls[c])
    ensures AnyUnsignalled(calls) || Unsignalled(call) ==> AnyUnsignalled(calls[c := call])
  {
    var after := calls[c := call];
    if Unsignalled(call) {
      assert c in after && Unsignalled(after[c]);
    } else if AnyUnsignalled(calls) {
      var d :| d in calls && Unsignalled(calls[d]);
      assert d in after && Unsignalled(after[d]);
    }
  }

  /** Waiters stay accounted for when the peer changes with a notification, or
      without one but not in what they wait for. */
  lemma CallsStayOk(p: Peer, q: Peer, turns: seq<bool>, more: seq<bool>, calls: map<nat, Call>)
    requires CallsOk(p, turns, calls)
    requires turns <= more
    requires p.changed < q.changed ||
             (p.changed == q.changed && p.connected == q.connected &&
              (p.connected ==> p.appliedRevision == q.appliedRevision))
    ensures CallsOk(q, more, calls)
  {
  }

  /** A caller moves on without touching the peer. */
  lemma MoveKeepsInv(w: World, c: nat, phase: Phase)
    requires Inv(w) && c in w.calls
    requires CallOk(w.p, w.turns, w.calls[c].(phase := phase))
    requires !Unsignalled(w.calls[c]) && !phase.Departing?
    ensures Inv(w.(calls := SetPhase(w.calls, c, phase)))
  {
    CountedUpdate(w.calls, c, w.calls[c].(phase := phase));
    assert Counted(w.calls) + {c} == Counted(w.calls);
    UnsignalledStays(w.calls, c, w.calls[c].(phase := phase));
  }

  function MoreTurns(p: Peer, request: Request, turns: seq<bool>): seq<bool> {
    if Turns(p, request) then turns + [request.active] else turns
  }

  lemma BeginDemandKeepsRevisions(p: Peer, request: Request, turns: seq<bool>)
    requires Revisions(p, turns)
    ensures Revisions(BeginDemand(p, request), MoreTurns(p, request, turns))
  {
  }

  lemma BeginDemandKeepsLease(p: Peer, request: Request, worker: Worker, turns: seq<bool>, native: map<nat, bool>,
                              log: seq<Event>)
    requires Revisions(p, turns) && Agreement(p, turns, native, log) && Pending(p, worker, turns, native, log)
    ensures Agreement(BeginDemand(p, request), MoreTurns(p, request, turns), native, log)
    ensures Pending(BeginDemand(p, request), worker, MoreTurns(p, request, turns), native, log)
  {
  }

  lemma BeginDemandKeepsCore(w: World, request: Request)
    requires Core(w.p, w.worker, w.current, w.born, w.native, w.turns, w.log)
    ensures Core(BeginDemand(w.p, request), w.worker, w.current, w.born, w.native, MoreTurns(w.p, request, w.turns), w.log)
  {
    BeginDemandKeepsRevisions(w.p, request, w.turns);
    BeginDemandKeepsLease(w.p, request, w.worker, w.turns, w.native, w.log);
  }

  lemma BeginDemandKeepsCalls(p: Peer, request: Request, c: nat, turns: seq<bool>, calls: map<nat, Call>)
    requires Revisions(p, turns) && CallsOk(p, turns, calls) && c !in calls
    ensures var q := BeginDemand(p, request);
            CallsOk(q, MoreTurns(p, request, turns),
                    calls[c := Call(request, JoinsDiscovery(p), TargetAttempt(p), q.desiredRevision, Announce)])
  {
    CallsStayOk(p, BeginDemand(p, request), turns, MoreTurns(p, request, turns), calls);
  }

  lemma BeginCallKeepsInv(w: World, c: nat, request: Request)
    requires Inv(w) && c !in w.calls
    ensures Inv(CallerNext(w, c, BeginCall(request)))
  {
    var v := CallerNext(w, c, BeginCall(request));
    BeginDemandKeepsCore(w, request);
    BeginDemandKeepsCalls(w.p, request, c, w.turns, w.calls);
    CountedUpdate(w.calls, c, v.calls[c]);
    assert c !in Counted(w.calls);
    UnsignalledStays(w.calls, c, v.calls[c]);
  }

  lemma SignalKeepsInv(w: World, calls: map<nat, Call>)
    requires Inv(w)
    requires CallsOk(w.p, w.turns, calls) && |Counted(calls)| == |Counted(w.calls)|
    ensures Inv(w.(p := Signal(w.p), calls := calls))
  {
    SameLeaseKeepsCore(w, Signal(w.p));
    CallsStayOk(w.p, Signal(w.p), w.turns, w.turns, calls);
  }

  /** The calls once c has signalled. */
  function SignalledCalls(calls: map<nat, Call>, c: nat): map<nat, Call>
    requires c in calls
  {
    if calls[c].phase.Announce? then SetPhase(calls, c, First) else calls - {c}
  }

  lemma SignalledCallsAreOk(p: Peer, turns: seq<bool>, calls: map<nat, Call>, c: nat)
    requires CallsOk(p, turns, calls) && c in calls && Unsignalled(calls[c])
    ensures CallsOk(p, turns, SignalledCalls(calls, c))
    ensures Counted(SignalledCalls(calls, c)) == Counted(calls)
  {
    CountedUpdate(calls, c, calls[c].(phase := First));
  }

  lemma SignalCallKeepsInv(w: World, c: nat)
    requires Inv(w) && CallerEnabled(w, c, SignalCall)
    ensures Inv(CallerNext(w, c, SignalCall))
  {
    SignalledCallsAreOk(w.p, w.turns, w.calls, c);
    SignalKeepsInv(w, SignalledCalls(w.calls, c));
  }

  lemma InvalidateKeepsInv(w: World, socket: bool)
    requires Inv(w)
    ensures Inv(w.(p := Invalidate(w.p, socket), invalidators := w.invalidators + 1))
  {
    CallsStayOk(w.p, Invalidate(w.p, socket), w.turns, w.turns, w.calls);
  }

  lemma EndCallKeepsInv(w: World, c: nat)
    requires Inv(w) && CallerEnabled(w, c, EndCall)
    ensures Inv(CallerNext(w, c, EndCall))
  {
    var v := CallerNext(w, c, EndCall);
    SameLeaseKeepsCore(w, v.p);
    CountedUpdate(w.calls, c, v.calls[c]);
    UnsignalledStays(w.calls, c, v.calls[c]);
    CallsStayOk(w.p, v.p, w.turns, w.turns, w.calls);
  }

  lemma UseBoundKeepsInv(w: World, c: nat, lost: bool)
    requires Inv(w) && CallerEnabled(w, c, UseBound(lost))
    ensures Inv(CallerNext(w, c, UseBound(lost)))
  {
    MoveKeepsInv(w, c, Leaving);
    if lost {
      InvalidateKeepsInv(w.(calls := SetPhase(w.calls, c, Leaving)), false);
    }
  }

  lemma CallerKeepsInv(w: World, c: nat, a: CallerAction)
    requires Inv(w) && CallerEnabled(w, c, a)
    ensures Inv(CallerNext(w, c, a))
  {
    if a.BeginCall? || a.SignalCall? || a.EndCall? {
      CallEndsKeepInv(w, c, a);
    } else if a.UseBound? {
      UseBoundKeepsInv(w, c, a.lost);
    } else {
      MoveKeepsInv(w, c, CallerNext(w, c, a).calls[c].phase);
    }
  }

  lemma CallEndsKeepInv(w: World, c: nat, a: CallerAction)
    requires Inv(w) && CallerEnabled(w, c, a) && (a.BeginCall? || a.SignalCall? || a.EndCall?)
    ensures Inv(CallerNext(w, c, a))
  {
    match a
    case BeginCall(request) => BeginCallKeepsInv(w, c, request);
    case SignalCall => SignalCallKeepsInv(w, c);
    case EndCall => EndCallKeepsInv(w, c);
  }

  lemma WatcherKeepsInv(w: World, a: WatcherAction)
    requires Inv(w) && WatcherEnabled(w, a)
    ensures Inv(WatcherNext(w, a))
  {
    match a
    case SocketEvent => InvalidateKeepsInv(w, true);
    case SignalInvalidation => SignalKeepsInv(w, w.calls);
  }

  // ----- the worker

  /** A step of the worker keeps the invariant if it keeps the core and leaves
      nothing to overlook. */
  lemma WorkerFrame(w: World, v: World)
    requires Inv(w) && Core(v.p, v.worker, v.current, v.born, v.native, v.turns, v.log)
    requires v.calls == w.calls && v.turns == w.turns && v.p.callers == w.p.callers
    requires w.p.changed < v.p.changed ||
             (w.p.changed == v.p.changed && w.p.connected == v.p.connected &&
              (w.p.connected ==> w.p.appliedRevision == v.p.appliedRevision))
    requires Overlooks(v.p, v.worker) ==> Signalled(v)
    ensures Inv(v)
  {
    CallsStayOk(w.p, v.p, w.turns, v.turns, w.calls);
  }

  /** The worker moves on and changes nothing of the lease or the connection. */
  lemma WorkerMoves(w: World, v: World)
    requires Inv(w)
    requires v == w.(p := v.p, worker := v.worker, first := v.first)
    requires SameLease(w.p, v.p) && v.p.callers == w.p.callers && v.p.changed == w.p.changed
    requires Transport(w.p, v.worker) && Pending(w.p, v.worker, w.turns, w.native, w.log)
    requires Overlooks(w.p, v.worker) ==> Signalled(v)
    ensures Inv(v)
  {
    SameLeaseKeepsCore(w.(worker := v.worker), v.p);
    WorkerFrame(w, v);
  }

  lemma SimpleWorkKeepsInv(w: World, a: WorkerAction)
    requires Inv(w) && WorkerEnabled(w, a)
    requires a.Launch? || a.LookForSocket? || a.StatusFails? || a.LeaseFails?
    ensures Inv(WorkerNext(w, a))
  {
    WorkerMoves(w, WorkerNext(w, a));
  }

  lemma PauseKeepsInv(w: World, a: WorkerAction)
    requires Inv(w) && WorkerEnabled(w, a)
    requires a.TimerFires? || a.LookInBackoff?
    ensures Inv(WorkerNext(w, a))
  {
    WorkerMoves(w, WorkerNext(w, a));
  }

  lemma CheckOwedKeepsInv(w: World)
    requires Inv(w) && WorkerEnabled(w, CheckOwed)
    ensures Inv(WorkerNext(w, CheckOwed))
  {
    WorkerMoves(w, WorkerNext(w, CheckOwed));
  }

  lemma PublishFirstKeepsInv(w: World)
    requires Inv(w) && WorkerEnabled(w, PublishFirst)
    ensures Inv(WorkerNext(w, PublishFirst))
  {
    WorkerMoves(w, WorkerNext(w, PublishFirst));
  }

  lemma CheckNeedKeepsInv(w: World)
    requires Inv(w) && WorkerEnabled(w, CheckNeed)
    ensures Inv(WorkerNext(w, CheckNeed))
  {
    WorkerMoves(w, WorkerNext(w, CheckNeed));
  }

  lemma TakeWakeKeepsInv(w: World)
    requires Inv(w) && WorkerEnabled(w, TakeWake)
    ensures Inv(WorkerNext(w, TakeWake))
  {
    WorkerMoves(w, WorkerNext(w, TakeWake));
  }

  lemma BeginTryKeepsInv(w: World)
    requires Inv(w) && WorkerEnabled(w, BeginTry)
    ensures Inv(WorkerNext(w, BeginTry))
  {
    WorkerMoves(w, WorkerNext(w, BeginTry));
  }

  lemma RepliesKeepInv(w: World, a: WorkerAction)
    requires Inv(w) && WorkerEnabled(w, a)
    requires a.StatusReply? || a.LeaseReply?
    ensures Inv(WorkerNext(w, a))
  {
    WorkerMoves(w, WorkerNext(w, a));
  }

  lemma ReadDesiredKeepsInv(w: World)
    requires Inv(w) && WorkerEnabled(w, ReadDesired)
    ensures Inv(WorkerNext(w, ReadDesired))
  {
    WorkerMoves(w, WorkerNext(w, ReadDesired));
  }

  lemma TakeTopKeepsInv(w: World)
    requires Inv(w) && WorkerEnabled(w, TakeTop)
    ensures Inv(WorkerNext(w, TakeTop))
  {
    WorkerFrame(w, WorkerNext(w, TakeTop));
  }

  lemma ClosedTransportKeepsCore(w: World, worker: Worker)
    requires Core(w.p, w.worker, w.current, w.born, w.native, w.turns, w.log)
    requires !w.p.connected && (worker.Stat? || worker.Owed?)
    ensures Core(CloseTransport(w.p), worker, w.current, w.born, w.native, w.turns, w.log)
  {
  }

  lemma CloseKeepsInv(w: World, a: WorkerAction)
    requires Inv(w) && WorkerEnabled(w, a)
    requires a.CloseOld? || a.RetireTransport?
    ensures Inv(WorkerNext(w, a))
  {
    ClosedTransportKeepsCore(w, WorkerNext(w, a).worker);
    WorkerFrame(w, WorkerNext(w, a));
  }

  lemma DiscoverKeepsInv(w: World, ok: bool)
    requires Inv(w) && WorkerEnabled(w, DiscoverPeer(ok))
    ensures Inv(WorkerNext(w, DiscoverPeer(ok)))
  {
    WorkerFrame(w, WorkerNext(w, DiscoverPeer(ok)));
  }

  lemma FinishKeepsCore(w: World)
    requires Core(w.p, w.worker, w.current, w.born, w.native, w.turns, w.log) && WorkerEnabled(w, FinishTry)
    ensures var v := WorkerNext(w, FinishTry); Core(v.p, v.worker, v.current, v.born, v.native, v.turns, v.log)
  {
  }

  lemma FinishTryKeepsInv(w: World)
    requires Inv(w) && WorkerEnabled(w, FinishTry)
    ensures Inv(WorkerNext(w, FinishTry))
  {
    FinishKeepsCore(w);
    WorkerFrame(w, WorkerNext(w, FinishTry));
  }

  // ----- the steps that read or write the lease

  lemma LogGrows(log: seq<Event>, e: Event)
    requires ReplayIsJustified(log) && ConfirmedIsFinal(log)
    requires e.Write? ==> e !in log || Doubted(log, e.instance, e.revision)
    requires e.Write? ==> Confirm(e.instance, e.revision) !in log
    ensures ReplayIsJustified(log + [e]) && ConfirmedIsFinal(log + [e])
  {
    var more := log + [e];
    forall p, q | 0 <= p < q < |more| && more[p].Write? && more[q] == more[p]
      ensures Unconfirmed(more[p].instance, more[p].revision) in more[p..q]
    {
      if q < |log| {
        assert more[p..q] == log[p..q];
      } else {
        assert log[p] == e;
        var m :| 0 <= m < |log| && log[m] == Unconfirmed(e.instance, e.revision) &&
          forall k :: m <= k < |log| ==> log[k] != e;
        assert p < m;
        assert more[p..q][m - p] == log[m];
      }
    }
  }

  lemma DoubtedNow(log: seq<Event>, i: nat, r: nat)
    ensures Doubted(log + [Unconfirmed(i, r)], i, r)
  {
    assert (log + [Unconfirmed(i, r)])[|log|] == Unconfirmed(i, r);
  }

  lemma ResolveKeepsLog(w: World)
    requires Core(w.p, w.worker, w.current, w.born, w.native, w.turns, w.log) && w.worker.Resolve?
    ensures var reply := w.worker.reply; Log(ResolveStatus(w.p, reply), w.log + StatusEvents(w.p, reply))
  {
    var events := StatusEvents(w.p, w.worker.reply);
    if events != [] {
      LogGrows(w.log, events[0]);
    } else {
      assert w.log + events == w.log;
    }
  }

  lemma ResolveKeepsCore(w: World)
    requires Core(w.p, w.worker, w.current, w.born, w.native, w.turns, w.log) && w.worker.Resolve?
    ensures var v := WorkerNext(w, ResolveSent); Core(v.p, v.worker, v.current, v.born, v.native, v.turns, v.log)
  {
    ResolveKeepsLog(w);
    DoubtedNow(w.log, w.p.sentInstance, w.p.sentRevision);
  }

  lemma ResolveSentKeepsInv(w: World)
    requires Inv(w) && WorkerEnabled(w, ResolveSent)
    ensures Inv(WorkerNext(w, ResolveSent))
  {
    ResolveKeepsCore(w);
    WorkerFrame(w, WorkerNext(w, ResolveSent));
  }

  lemma MarkKeepsCore(w: World)
    requires Core(w.p, w.worker, w.current, w.born, w.native, w.turns, w.log) && w.worker.Mark?
    ensures var v := WorkerNext(w, MarkAndSend); Core(v.p, v.worker, v.current, v.born, v.native, v.turns, v.log)
  {
    LogGrows(w.log, Write(w.worker.instance, w.worker.revision));
  }

  lemma MarkAndSendKeepsInv(w: World)
    requires Inv(w) && WorkerEnabled(w, MarkAndSend)
    ensures Inv(WorkerNext(w, MarkAndSend))
  {
    MarkKeepsCore(w);
    WorkerFrame(w, WorkerNext(w, MarkAndSend));
  }

  lemma CommitKeepsCore(w: World)
    requires Core(w.p, w.worker, w.current, w.born, w.native, w.turns, w.log) && w.worker.Commit?
    ensures var v := WorkerNext(w, CommitLease); Core(v.p, v.worker, v.current, v.born, v.native, v.turns, v.log)
  {
    LogGrows(w.log, Confirm(w.worker.instance, w.worker.revision));
  }

  lemma CommitLeaseKeepsInv(w: World)
    requires Inv(w) && WorkerEnabled(w, CommitLease)
    ensures Inv(WorkerNext(w, CommitLease))
  {
    CommitKeepsCore(w);
    WorkerFrame(w, WorkerNext(w, CommitLease));
  }

  predicate WritesLease(a: WorkerAction) {
    a.ReadDesired? || a.MarkAndSend? || a.LeaseReply? || a.LeaseFails? || a.CommitLease? || a.FinishTry?
  }

  predicate Connects(a: WorkerAction) {
    a.BeginTry? || a.DiscoverPeer? || a.StatusReply? || a.StatusFails? || a.ResolveSent? || a.PublishFirst?
  }

  lemma LeaseWorkKeepsInv(w: World, a: WorkerAction)
    requires Inv(w) && WorkerEnabled(w, a) && WritesLease(a)
    ensures Inv(WorkerNext(w, a))
  {
    match a
    case ReadDesired => ReadDesiredKeepsInv(w);
    case MarkAndSend => MarkAndSendKeepsInv(w);
    case LeaseReply(_) => RepliesKeepInv(w, a);
    case LeaseFails => SimpleWorkKeepsInv(w, a);
    case CommitLease => CommitLeaseKeepsInv(w);
    case FinishTry => FinishTryKeepsInv(w);
  }

  lemma ConnectWorkKeepsInv(w: World, a: WorkerAction)
    requires Inv(w) && WorkerEnabled(w, a) && Connects(a)
    ensures Inv(WorkerNext(w, a))
  {
    match a
    case BeginTry => BeginTryKeepsInv(w);
    case DiscoverPeer(ok) => DiscoverKeepsInv(w, ok);
    case StatusReply(_) => RepliesKeepInv(w, a);
    case StatusFails => SimpleWorkKeepsInv(w, a);
    case ResolveSent => ResolveSentKeepsInv(w);
    case PublishFirst => PublishFirstKeepsInv(w);
  }

  predicate LooksAround(a: WorkerAction) {
    a.CheckNeed? || a.TakeWake? || a.TakeTop? || a.CheckOwed?
  }

  lemma LookKeepsInv(w: World, a: WorkerAction)
    requires Inv(w) && WorkerEnabled(w, a) && LooksAround(a)
    ensures Inv(WorkerNext(w, a))
  {
    match a
    case CheckNeed => CheckNeedKeepsInv(w);
    case TakeWake => TakeWakeKeepsInv(w);
    case TakeTop => TakeTopKeepsInv(w);
    case CheckOwed => CheckOwedKeepsInv(w);
  }

  lemma LoopWorkKeepsInv(w: World, a: WorkerAction)
    requires Inv(w) && WorkerEnabled(w, a) && !WritesLease(a) && !Connects(a) && !LooksAround(a)
    ensures Inv(WorkerNext(w, a))
  {
    if a.CloseOld? || a.RetireTransport? {
      CloseKeepsInv(w, a);
    } else if a.TimerFires? || a.LookInBackoff? {
      PauseKeepsInv(w, a);
    } else {
      SimpleWorkKeepsInv(w, a);
    }
  }

  lemma StepKeepsInv(w: World, a: Action)
    requires Inv(w) && Enabled(w, a)
    ensures Inv(Next(w, a))
  {
    match a
    case Source(s) => SourceKeepsInv(w, s);
    case Caller(c, s) => CallerKeepsInv(w, c, s);
    case Watcher(s) => WatcherKeepsInv(w, s);
    case Work(s) =>
      if WritesLease(s) {
        LeaseWorkKeepsInv(w, s);
      } else if Connects(s) {
        ConnectWorkKeepsInv(w, s);
      } else if LooksAround(s) {
        LookKeepsInv(w, s);
      } else {
        LoopWorkKeepsInv(w, s);
      }
  }
}
