/** The inductive invariant of `PeerProtocol`, one predicate a concern. Each one
    takes the parts of the world that it is about. */
module PeerInvariant {
  import opened PeerSections
  import opened PeerProtocol

  // ----- revisions and instances

  ghost predicate Alternates(turns: seq<bool>) {
    forall i :: 0 < i < |turns| ==> turns[i] != turns[i - 1]
  }

  ghost predicate Revisions(p: Peer, turns: seq<bool>) {
    && p.desiredRevision == |turns|
    && p.desiredActive == (turns != [] && turns[|turns| - 1])
    && Alternates(turns)
    && p.appliedRevision <= p.sentRevision <= p.desiredRevision
  }

  ghost predicate Instances(p: Peer, current: nat, born: nat, native: map<nat, bool>) {
    && (current != 0 ==> current == born)
    && (forall i :: i in native <==> 1 <= i <= born)
    && p.appliedInstance <= p.sentInstance <= born
    && (p.bound != 0 ==> p.sentInstance <= p.bound <= born)
    && (p.sentRevision == 0 <==> p.sentInstance == 0)
    && (p.appliedRevision == 0 <==> p.appliedInstance == 0)
  }

  /** The pair last applied is the pair last sent. */
  predicate AllSentApplied(p: Peer) {
    p.appliedInstance == p.sentInstance && p.appliedRevision == p.sentRevision
  }

  /** The applied pair was acknowledged in the direction of its revision, and as
      long as nothing newer was sent the incarnation is in that state. */
  ghost predicate Agreement(p: Peer, turns: seq<bool>, native: map<nat, bool>, log: seq<Event>) {
    0 < p.appliedRevision ==>
      && p.appliedRevision <= |turns|
      && p.receipt.applied
      && p.receipt.active == turns[p.appliedRevision - 1]
      && Confirm(p.appliedInstance, p.appliedRevision) in log
      && (AllSentApplied(p) ==>
            p.appliedInstance in native && native[p.appliedInstance] == turns[p.appliedRevision - 1])
  }

  // ----- the transport

  /** Everything sent was applied by the bound instance. */
  predicate Clean(p: Peer) {
    p.sentRevision > 0 ==> AllSentApplied(p) && p.sentInstance == p.bound
  }

  predicate Connection(p: Peer) {
    p.connected ==>
      && !p.invalidated
      && p.bound != 0
      && (p.appliedRevision > 0 ==> p.appliedInstance == p.bound)
  }

  /** What the position of the worker says about the transport. */
  predicate Transport(p: Peer, worker: Worker) {
    match worker
    case Top => p.bound != 0 ==> (p.connected || p.invalidated) && Clean(p)
    case Discard(_) => !p.connected
    case Need(held, _) => if held then p.bound != 0 && Clean(p) else p.bound == 0 && !p.connected
    case Begin(held, _) => if held then p.bound != 0 && Clean(p) else p.bound == 0 && !p.connected
    case ReadStatus => p.bound != 0 && !p.connected
    case Resolve(_) => p.bound != 0 && !p.connected
    case ReadLease(held) => p.bound != 0 && (if held then Clean(p) else !p.connected)
    case Mark(held, _, _, _) => p.bound != 0 && (!held ==> !p.connected)
    case Calling(held, _, _, _) => p.bound != 0 && (!held ==> !p.connected)
    case Commit(held, _, _, _, _) => p.bound != 0 && (!held ==> !p.connected)
    case Finish(held, ok) => (ok ==> p.bound != 0 && Clean(p)) && (!held ==> !p.connected)
    case Publish(held, _) =>
      if held then p.bound != 0 && Clean(p) && (p.connected || p.invalidated) else !p.connected
    case ParkConnected => p.bound != 0 && Clean(p) && (p.connected || p.invalidated)
    case Retire => !p.connected
    case _ => p.bound == 0 && !p.connected
  }

  // ----- writes

  /** Since its last write, a status read did not confirm the pair. */
  ghost predicate Doubted(log: seq<Event>, instance: nat, revision: nat) {
    exists m :: 0 <= m < |log| && log[m] == Unconfirmed(instance, revision) &&
      forall k :: m <= k < |log| ==> log[k] != Write(instance, revision)
  }

  ghost predicate ReplayIsJustified(log: seq<Event>) {
    forall p, q :: 0 <= p < q < |log| && log[p].Write? && log[q] == log[p] ==>
      Unconfirmed(log[p].instance, log[p].revision) in log[p..q]
  }

  ghost predicate ConfirmedIsFinal(log: seq<Event>) {
    forall p, q :: 0 <= p < q < |log| && log[p].Confirm? ==>
      log[q] != Write(log[p].instance, log[p].revision)
  }

  ghost predicate LogBounds(p: Peer, log: seq<Event>) {
    forall e :: e in log ==>
      && (e.Write? ==> e.instance <= p.sentInstance && e.revision <= p.sentRevision)
      && (e.Confirm? ==> e.instance <= p.appliedInstance && e.revision <= p.appliedRevision)
  }

  ghost predicate Log(p: Peer, log: seq<Event>) {
    LogBounds(p, log) && ReplayIsJustified(log) && ConfirmedIsFinal(log)
  }

  ghost predicate InFlight(p: Peer, turns: seq<bool>, native: map<nat, bool>, i: nat, r: nat, active: bool) {
    && i == p.bound == p.sentInstance
    && 1 <= r == p.sentRevision <= |turns|
    && i in native
    && active == turns[r - 1]
    && !AllSentApplied(p)
  }

  /** What the worker carries into a write. */
  ghost predicate Pending(p: Peer, worker: Worker, turns: seq<bool>, native: map<nat, bool>, log: seq<Event>) {
    match worker
    case Resolve(reply) => p.bound in native && Truthful(reply, native[p.bound])
    case ReadLease(_) =>
      p.sentInstance == p.bound && p.sentRevision == p.desiredRevision && p.sentRevision > 0 && !AllSentApplied(p)
      ==> Doubted(log, p.sentInstance, p.sentRevision)
    case Mark(_, i, r, active) =>
      && i == p.bound
      && 1 <= r <= |turns|
      && p.sentRevision <= r
      && active == turns[r - 1]
      && !(p.appliedInstance == i && p.appliedRevision == r)
      && (p.sentInstance == i && p.sentRevision == r ==> Doubted(log, i, r))
    case Calling(_, i, r, active) => InFlight(p, turns, native, i, r, active)
    case Commit(_, i, r, active, reply) =>
      InFlight(p, turns, native, i, r, active) && native[i] == active && AcceptsReceipt(active, reply)
    case _ => true
  }

  // ----- wake-ups

  predicate Unsignalled(call: Call) {
    call.phase.Announce? || call.phase.Departing?
  }

  ghost predicate AnyUnsignalled(calls: map<nat, Call>) {
    exists c :: c in calls && Unsignalled(calls[c])
  }

  /** A wake token is there, or a thread is on its way to put one. */
  ghost predicate Signalled(w: World) {
    w.p.wake || w.invalidators > 0 || AnyUnsignalled(w.calls)
  }

  /** Whether the worker would overlook something if nobody woke it. */
  predicate Overlooks(p: Peer, worker: Worker) {
    || (p.invalidated && !worker.Top? && !worker.BackoffLook?)
    || (worker.ParkIdle? && Needed(p))
    || (worker.ParkConnected? && p.desiredRevision != p.appliedRevision)
    || (worker.Publish? && worker.connected && !worker.pending && p.desiredRevision != p.appliedRevision)
  }

  // ----- callers

  ghost predicate CallOk(p: Peer, turns: seq<bool>, call: Call) {
    && call.revision <= |turns|
    && (call.request.Lease? ==> call.revision >= 1 && turns[call.revision - 1] == call.request.active)
    && (call.phase.AwaitBlocked? ==>
          call.phase.generation <= p.changed && (call.phase.generation == p.changed ==> !p.connected))
    && (call.phase.PollBlocked? ==>
          && call.phase.generation <= p.changed
          && (call.phase.generation == p.changed ==> p.connected && p.appliedRevision < call.revision))
  }

  ghost predicate CallsOk(p: Peer, turns: seq<bool>, calls: map<nat, Call>) {
    forall c :: c in calls ==> CallOk(p, turns, calls[c])
  }

  /** The calls whose demand has not ended. */
  function Counted(calls: map<nat, Call>): set<nat> {
    set c | c in calls && !calls[c].phase.Departing?
  }

  /** Everything but the callers and the wake-ups. */
  ghost predicate Core(p: Peer, worker: Worker, current: nat, born: nat, native: map<nat, bool>, turns: seq<bool>,
                       log: seq<Event>)
  {
    && Revisions(p, turns)
    && Instances(p, current, born, native)
    && Agreement(p, turns, native, log)
    && Connection(p)
    && Transport(p, worker)
    && Log(p, log)
    && Pending(p, worker, turns, native, log)
  }

  ghost predicate Inv(w: World) {
    && Core(w.p, w.worker, w.current, w.born, w.native, w.turns, w.log)
    && (Overlooks(w.p, w.worker) ==> Signalled(w))
    && CallsOk(w.p, w.turns, w.calls)
    && w.p.callers == |Counted(w.calls)|
  }
}
