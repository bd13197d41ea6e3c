/** A camera source under its demand lease: `LeaseProtocol` and `PeerProtocol`
    side by side, until the edge closes.

    The lease thread that holds lifecycleMu turns the peer's lease around with one
    call at a time. All other callers of the peer only read. */
module LeaseCamera {
  import opened LeaseSections
  import S = PeerSections
  import L = LeaseProtocol
  import P = PeerProtocol
  import I = PeerInvariant
  import Steps = PeerSteps

  /** The lease call of the lease thread. */
  datatype Flight =
    | NoFlight
    | Open(c: nat)
    | Answered(ok: bool)

  datatype World = World(l: L.World, p: P.World, flight: Flight)

  const START := World(L.Start(Camera), P.START, NoFlight)

  datatype Action =
    | LeaseStep(l: L.Action)
    | IssueCall(c: nat)                    // the lease thread calls the peer
    | PeerStep(p: P.Action)

  function Issue(life: L.Life): L.Action {
    if life.CallStart? then L.IssueStart(false) else L.IssueStop(false)
  }

  function Asks(life: L.Life, c: nat): P.Action {
    P.Caller(c, P.BeginCall(S.Lease(life.CallStart?)))
  }

  predicate IssuesLease(a: P.Action) {
    a.Caller? && a.caller.BeginCall? && a.caller.request.Lease?
  }

  predicate Enabled(w: World, a: Action) {
    match a
    case LeaseStep(s) =>
      && L.Enabled(w.l, s)
      && !s.BeginClose? && !s.IssueStart? && !s.IssueStop?
      && (s.StartReply? || s.StopReply? ==> w.flight == Answered(s.ok))
    case IssueCall(c) =>
      && (w.l.life.CallStart? || w.l.life.CallStop?)
      && L.Enabled(w.l, Issue(w.l.life))
      && P.Enabled(w.p, Asks(w.l.life, c))
    case PeerStep(s) => P.Enabled(w.p, s) && !IssuesLease(s)
  }

  /** Whether this look of call `c` at the peer answers it, and how. */
  function FlightAfter(flight: Flight, before: P.World, s: P.Action, after: P.World): Flight {
    match flight
    case Open(c) =>
      if c in after.calls && after.calls[c].phase.Leaving? then
        Answered(s.Caller? && s.caller.LookPoll? && before.p.connected)
      else
        flight
    case _ => flight
  }

  function Next(w: World, a: Action): World
    requires Enabled(w, a)
  {
    match a
    case LeaseStep(s) =>
      World(L.Next(w.l, s), w.p, if s.StartReply? || s.StopReply? then NoFlight else w.flight)
    case IssueCall(c) =>
      World(L.Next(w.l, Issue(w.l.life)), P.Next(w.p, Asks(w.l.life, c)), Open(c))
    case PeerStep(s) =>
      var p := P.Next(w.p, s);
      World(w.l, p, FlightAfter(w.flight, w.p, s, p))
  }

  // ----- invariant

  predicate CallOpen(life: L.Life) {
    life.Starting? || life.Stopping?
  }

  predicate Answerable(phase: P.Phase) {
    phase.Announce? || phase.First? || phase.Await? || phase.AwaitBlocked? || phase.Poll? || phase.PollBlocked?
  }

  predicate Recovers(life: L.Life) {
    life.RecoverEntered? || life.RecoverChecking? || life.RecoverStatus? || life.RecoverStart?
  }

  /** The open call asks for what the lease thread wants, and nobody turned the
      lease since. */
  predicate FlightOk(flight: Flight, life: L.Life, p: P.World) {
    match flight
    case NoFlight => !CallOpen(life)
    case Answered(_) => CallOpen(life)
    case Open(c) =>
      && CallOpen(life)
      && c in p.calls
      && Answerable(p.calls[c].phase)
      && p.calls[c].request == S.Lease(life.Starting?)
      && p.calls[c].revision == p.p.desiredRevision
  }

  predicate Joint(w: World) {
    && w.l.desired == w.p.p.desiredActive
    && FlightOk(w.flight, w.l.life, w.p)
    && w.l.recoveries == multiset{}
    && !Recovers(w.l.life)
  }

  ghost predicate Inv(w: World) {
    L.Inv(w.l) && w.l.kind == Camera && !w.l.closing && I.Inv(w.p) && Joint(w)
  }

  // ----- every step keeps it

  /** A step other than a caller's leaves the calls alone, and what is desired. */
  predicate Leaves(p: P.World, q: P.World) {
    q.calls == p.calls && q.p.desiredActive == p.p.desiredActive && q.p.desiredRevision == p.p.desiredRevision
  }

  lemma LoopLeaves(p: P.World, a: P.WorkerAction)
    requires P.WorkerEnabled(p, a) && !Steps.WritesLease(a) && !Steps.Connects(a)
    ensures Leaves(p, P.WorkerNext(p, a))
  {
  }

  lemma ConnectLeaves(p: P.World, a: P.WorkerAction)
    requires P.WorkerEnabled(p, a) && Steps.Connects(a)
    ensures Leaves(p, P.WorkerNext(p, a))
  {
  }

  lemma WriteLeaves(p: P.World, a: P.WorkerAction)
    requires P.WorkerEnabled(p, a) && Steps.WritesLease(a)
    ensures Leaves(p, P.WorkerNext(p, a))
  {
  }

  lemma OthersLeave(p: P.World, s: P.Action, q: P.World)
    requires P.Enabled(p, s) && q == P.Next(p, s) && !s.Caller?
    ensures Leaves(p, q)
  {
    if s.Work? {
      if Steps.WritesLease(s.work) {
        WriteLeaves(p, s.work);
      } else if Steps.Connects(s.work) {
        ConnectLeaves(p, s.work);
      } else {
        LoopLeaves(p, s.work);
      }
    }
  }

  lemma CallerLeavesLease(p: P.World, c: nat, a: P.CallerAction)
    requires P.CallerEnabled(p, c, a) && !(a.BeginCall? && a.request.Lease?)
    ensures P.CallerNext(p, c, a).p.desiredActive == p.p.desiredActive
    ensures P.CallerNext(p, c, a).p.desiredRevision == p.p.desiredRevision
  {
    match a
    case BeginCall(request) =>
      var q := S.BeginDemand(p.p, request);
      assert q.desiredRevision == p.p.desiredRevision && q.desiredActive == p.p.desiredActive;
    case _ =>
  }

  lemma CallerKeepsCall(p: P.World, d: nat, a: P.CallerAction, q: P.World, c: nat)
    requires P.CallerEnabled(p, d, a) && q == P.CallerNext(p, d, a)
    requires c in p.calls && Answerable(p.calls[c].phase) && p.calls[c].request.Lease?
    ensures c in q.calls && q.calls[c] == p.calls[c].(phase := q.calls[c].phase)
    ensures Answerable(q.calls[c].phase) || q.calls[c].phase.Leaving?
  {
  }

  lemma PeerKeepsJoint(w: World, s: P.Action, v: World)
    requires Joint(w) && Enabled(w, PeerStep(s)) && v == Next(w, PeerStep(s))
    ensures Joint(v)
  {
    if s.Caller? {
      CallerLeavesLease(w.p, s.c, s.caller);
      if w.flight.Open? {
        CallerKeepsCall(w.p, s.c, s.caller, v.p, w.flight.c);
      }
    } else {
      OthersLeave(w.p, s, v.p);
    }
  }

  /** Between issues and replies, the lease opens and closes no call. */
  predicate LeavesCalls(l: L.World, s: L.Action, m: L.World) {
    && m.desired == l.desired && m.recoveries == multiset{} && !Recovers(m.life)
    && (if s.StartReply? || s.StopReply? then !CallOpen(m.life)
        else m.life.Starting? == l.life.Starting? && m.life.Stopping? == l.life.Stopping?)
  }

  lemma AcquireLeavesCalls(l: L.World, s: L.Action, m: L.World)
    requires L.Enabled(l, s) && m == L.Next(l, s) && !s.IssueStart? && !s.IssueStop? && L.Acquires(s)
    requires l.kind == Camera && l.recoveries == multiset{} && !Recovers(l.life)
    ensures LeavesCalls(l, s, m)
  {
  }

  lemma ConsumerLeavesCalls(l: L.World, s: L.Action, m: L.World)
    requires L.Enabled(l, s) && m == L.Next(l, s) && !s.IssueStart? && !s.IssueStop? && L.Consumes(s)
    requires l.kind == Camera && l.recoveries == multiset{} && !Recovers(l.life)
    ensures LeavesCalls(l, s, m)
  {
  }

  lemma QueueLeavesCalls(l: L.World, s: L.Action, m: L.World)
    requires L.Enabled(l, s) && m == L.Next(l, s) && L.Queues(s)
    requires l.recoveries == multiset{} && !Recovers(l.life)
    ensures LeavesCalls(l, s, m)
  {
  }

  lemma StopLeavesCalls(l: L.World, s: L.Action, m: L.World)
    requires L.Enabled(l, s) && m == L.Next(l, s) && (s.StopCheck? || s.StopReply?)
    requires l.recoveries == multiset{} && !Recovers(l.life)
    ensures LeavesCalls(l, s, m)
  {
  }

  lemma OtherLeavesCalls(l: L.World, s: L.Action, m: L.World)
    requires L.Enabled(l, s) && m == L.Next(l, s) && !s.IssueStart? && !s.IssueStop?
    requires !L.Acquires(s) && !L.Consumes(s) && !L.Queues(s) && !L.Deactivates(s)
    requires l.kind == Camera && l.recoveries == multiset{} && !Recovers(l.life)
    ensures LeavesCalls(l, s, m)
  {
  }

  lemma LeaseKeepsJoint(w: World, s: L.Action, v: World)
    requires Joint(w) && w.l.kind == Camera && Enabled(w, LeaseStep(s)) && v == Next(w, LeaseStep(s))
    ensures Joint(v)
  {
    if L.Acquires(s) {
      AcquireLeavesCalls(w.l, s, v.l);
    } else if L.Consumes(s) {
      ConsumerLeavesCalls(w.l, s, v.l);
    } else if L.Queues(s) {
      QueueLeavesCalls(w.l, s, v.l);
    } else if L.Deactivates(s) {
      StopLeavesCalls(w.l, s, v.l);
    } else {
      OtherLeavesCalls(w.l, s, v.l);
    }
  }

  lemma IssueKeepsJoint(w: World, c: nat, v: World)
    requires Joint(w) && I.Revisions(w.p.p, w.p.turns) && !w.l.closing
    requires Enabled(w, IssueCall(c)) && v == Next(w, IssueCall(c))
    ensures Joint(v)
  {
  }

  lemma StepKeepsInv(w: World, a: Action, v: World)
    requires Inv(w) && Enabled(w, a) && v == Next(w, a)
    ensures Inv(v)
  {
    match a
    case LeaseStep(s) =>
      L.StepKeepsSound(Camera, w.l, s, v.l);
      LeaseKeepsJoint(w, s, v);
      LeaseStaysOpen(w.l, s);
    case IssueCall(c) =>
      L.StepKeepsSound(Camera, w.l, Issue(w.l.life), v.l);
      Steps.StepKeepsInv(w.p, Asks(w.l.life, c));
      IssueKeepsJoint(w, c, v);
    case PeerStep(s) =>
      Steps.StepKeepsInv(w.p, s);
      PeerKeepsJoint(w, s, v);
  }

  lemma LeaseStaysOpen(l: L.World, s: L.Action)
    requires L.Enabled(l, s) && !s.BeginClose?
    ensures L.Next(l, s).closing == l.closing
  {
  }

  // ----- over every run

  ghost predicate Run(ws: seq<World>, acts: seq<Action>) {
    && |ws| == |acts| + 1
    && ws[0] == START
    && forall i {:trigger acts[i]} :: 0 <= i < |acts| ==> Enabled(ws[i], acts[i]) && ws[i + 1] == Next(ws[i], acts[i])
  }

  lemma {:induction false} RunKeepsInv(ws: seq<World>, acts: seq<Action>, i: nat)
    requires Run(ws, acts) && i < |ws|
    ensures Inv(ws[i])
  {
    if i > 0 {
      RunKeepsInv(ws, acts, i - 1);
      StepKeepsInv(ws[i - 1], acts[i - 1], ws[i]);
    }
  }

  /** Until the edge closes, every granted viewer or recording has its peer want
      the source started, whatever the peer is busy with. */
  lemma GrantedIsWanted(ws: seq<World>, acts: seq<Action>, i: nat)
    requires Run(ws, acts) && i < |ws| && L.AnyGranted(ws[i].l)
    ensures ws[i].p.p.desiredActive
    ensures ws[i].p.worker.ParkIdle? ==> I.Signalled(ws[i].p)
  {
    RunKeepsInv(ws, acts, i);
  }

  /** End to end: when the peer's worker has settled on its connection, the bound
      incarnation is active if any consumer is granted, and idle if lifecycleMu is
      free and the lease was given back. */
  lemma SettledMeansServed(ws: seq<World>, acts: seq<Action>, i: nat)
    requires Run(ws, acts) && i < |ws|
    requires ws[i].p.worker.ParkConnected? && !I.Signalled(ws[i].p) && ws[i].p.p.desiredRevision > 0
    ensures ws[i].p.p.bound in ws[i].p.native
    ensures L.AnyGranted(ws[i].l) ==> ws[i].p.native[ws[i].p.p.bound]
    ensures ws[i].l.life.Free? && !ws[i].l.s.active ==> !ws[i].p.native[ws[i].p.p.bound]
  {
    RunKeepsInv(ws, acts, i);
  }

  /** When the lease thread's call is about to succeed, the bound incarnation has
      acknowledged exactly the revision and the direction that it asked for. */
  lemma LeaseCallIsExact(ws: seq<World>, acts: seq<Action>, i: nat)
    requires Run(ws, acts) && i < |ws| && ws[i].flight.Open? && ws[i].flight.c in ws[i].p.calls
    requires ws[i].p.calls[ws[i].flight.c].phase.Poll?
    requires S.LeaseLook(ws[i].p.p, ws[i].p.calls[ws[i].flight.c].revision).Proceed?
    ensures ws[i].l.life.Starting? || ws[i].l.life.Stopping?
    ensures ws[i].p.p.bound != 0 && ws[i].p.p.appliedInstance == ws[i].p.p.bound
    ensures ws[i].p.p.appliedRevision == ws[i].p.p.desiredRevision == ws[i].p.calls[ws[i].flight.c].revision
    ensures ws[i].p.p.receipt.applied && ws[i].p.p.receipt.active == ws[i].l.life.Starting?
  {
    RunKeepsInv(ws, acts, i);
    assert I.CallOk(ws[i].p.p, ws[i].p.turns, ws[i].p.calls[ws[i].flight.c]);
  }

  /** The lease thread's call is answered when its caller leaves, and successfully exactly
      when that look found a connection with the call's revision, or a later one, applied. */
  lemma AnsweredExactly(ws: seq<World>, acts: seq<Action>, i: nat, ok: bool)
    requires Run(ws, acts) && i < |acts| && ws[i].flight.Open? && ws[i + 1].flight == Answered(ok)
    ensures ws[i].flight.c in ws[i].p.calls && ws[i].flight.c in ws[i + 1].p.calls
    ensures var c := ws[i].flight.c;
            && ws[i + 1].p.calls[c].phase.Leaving?
            && (ok <==>
                  && acts[i] == PeerStep(P.Caller(c, P.LookPoll))
                  && ws[i].p.p.connected && ws[i].p.calls[c].revision <= ws[i].p.p.appliedRevision)
  {
    RunKeepsInv(ws, acts, i);
    assert Enabled(ws[i], acts[i]) && ws[i + 1] == Next(ws[i], acts[i]);
    if acts[i].PeerStep? {
      LeavesByItsOwnLook(ws[i].p, acts[i].p, ws[i + 1].p, ws[i].flight.c);
    }
  }

  lemma LeavesByItsOwnLook(p: P.World, s: P.Action, q: P.World, c: nat)
    requires P.Enabled(p, s) && q == P.Next(p, s) && c in p.calls && Answerable(p.calls[c].phase) && p.calls[c].request.Lease?
    requires c in q.calls && q.calls[c].phase.Leaving?
    ensures s.Caller? && s.c == c
    ensures s.caller.LookPoll? && p.p.connected ==> p.calls[c].revision <= p.p.appliedRevision
    ensures s.caller.LookPoll? || s.caller.LookAwait? || s.caller.Expire?
  {
    if s.Caller? {
      CallerLeavesByItsLook(p, s.c, s.caller, c);
    } else {
      OthersLeave(p, s, q);
    }
  }

  lemma CallerLeavesByItsLook(p: P.World, d: nat, a: P.CallerAction, c: nat)
    requires P.CallerEnabled(p, d, a) && c in p.calls && Answerable(p.calls[c].phase) && p.calls[c].request.Lease?
    requires c in P.CallerNext(p, d, a).calls && P.CallerNext(p, d, a).calls[c].phase.Leaving?
    ensures d == c && (a.LookPoll? || a.LookAwait? || a.Expire?)
    ensures a.LookPoll? && p.p.connected ==> p.calls[c].revision <= p.p.appliedRevision
  {
  }
}
