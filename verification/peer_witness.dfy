/** Runs that do what the peer is for, so that nothing holds over every run for want of
    runs. A start reaches the first incarnation and its reply is lost. Then either the
    source restarts, the lease is replayed to the replacement and the caller succeeds; or
    the same incarnation answers with a state that settles nothing, and is written to
    again although it had applied the lease. And a worker that nobody needs parks. */
module PeerWitness {
  import opened PeerSections
  import opened PeerProtocol
  import opened PeerTheorems

  ghost predicate Reachable(w: World) {
    exists ws: seq<World>, acts: seq<Action> :: Run(ws, acts) && ws[|ws| - 1] == w
  }

  lemma StartIsReachable()
    ensures Reachable(START)
  {
    assert Run([START], []);
  }

  lemma StepIsReachable(w: World, a: Action, v: World)
    requires Reachable(w) && Enabled(w, a) && v == Next(w, a)
    ensures Reachable(v)
  {
    var ws: seq<World>, acts: seq<Action> :| Run(ws, acts) && ws[|ws| - 1] == w;
    var longer, more := ws + [v], acts + [a];
    forall i | 0 <= i < |more| ensures Enabled(longer[i], more[i]) && longer[i + 1] == Next(longer[i], more[i]) {
      if i < |acts| {
        assert longer[i] == ws[i] && longer[i + 1] == ws[i + 1] && more[i] == acts[i];
      }
    }
    assert Run(longer, more);
  }

  lemma WorkIsReachable(w: World, a: WorkerAction, v: World)
    requires Reachable(w) && WorkerEnabled(w, a) && v == WorkerNext(w, a)
    ensures Reachable(v)
  {
    StepIsReachable(w, Work(a), v);
  }

  lemma SourceIsReachable(w: World, a: SourceAction, v: World)
    requires Reachable(w) && SourceEnabled(w, a) && v == SourceNext(w, a)
    ensures Reachable(v)
  {
    StepIsReachable(w, Source(a), v);
  }

  lemma CallerIsReachable(w: World, c: nat, a: CallerAction, v: World)
    requires Reachable(w) && CallerEnabled(w, c, a) && v == CallerNext(w, c, a)
    ensures Reachable(v)
  {
    StepIsReachable(w, Caller(c, a), v);
  }

  const STARTED := Reply(true, true, true, true, 1, Active)

  const WAITING := Reply(true, true, false, false, 1, Idle)

  const CALLER := map[0 := Call(Lease(true), true, 1, 1, First)]

  /** The peer of a caller that wants a start. */
  const DEMANDED := FRESH_PEER.(desiredActive := true, desiredRevision := 1, callers := 1, wake := true)

  const ASKED := World(DEMANDED, Top, false, CALLER, 0, 1, 1, map[1 := false], [true], [])

  const SEARCHING := ASKED.(p := DEMANDED.(attempting := true, attempts := 1), worker := Discover)

  /** The peer bound to the first incarnation. */
  const BOUND := DEMANDED.(attempting := true, attempts := 1, bound := 1)

  const CHECKED := ASKED.(p := BOUND, worker := Resolve(WAITING))

  const FOUND := ASKED.(p := BOUND, worker := Mark(false, 1, 1, true))

  /** The native side after the start, when the n-th incarnation is the one that lives. */
  function Native(n: nat): map<nat, bool> {
    if n == 1 then map[1 := true] else map[1 := true, 2 := false]
  }

  /** The lease was applied, but its reply is lost. */
  function Lost(n: nat): World {
    World(BOUND.(sentInstance := 1, sentRevision := 1), Calling(false, 1, 1, true), false, CALLER, 0, n, n, Native(n), [true],
          [Write(1, 1)])
  }

  /** The peer that tries again. */
  const OWING := DEMANDED.(attempts := 1, sentInstance := 1, sentRevision := 1, changed := 1)

  function Failed(n: nat): World {
    Lost(n).(worker := Finish(false, false))
  }

  function GivenUp(n: nat): World {
    Lost(n).(p := OWING.(bound := 1), worker := Publish(false, true))
  }

  function Retiring(n: nat): World {
    GivenUp(n).(worker := Retire, first := true)
  }

  function Doubtful(n: nat): World {
    Retiring(n).(p := OWING, worker := Backoff)
  }

  function Retrying(n: nat): World {
    Doubtful(n).(worker := Top)
  }

  function SearchingAgain(n: nat): World {
    Retrying(n).(p := OWING.(attempting := true, attempts := 2), worker := Discover)
  }

  /** The peer bound to the incarnation that lives. */
  function Rebound(n: nat): Peer {
    OWING.(attempting := true, attempts := 2, bound := n)
  }

  function CheckedAgain(n: nat, reply: Reply): World {
    Retrying(n).(p := Rebound(n), worker := Resolve(reply))
  }

  const FOUND_AGAIN := Retrying(2).(p := Rebound(2), worker := Mark(false, 2, 1, true))

  const ACKNOWLEDGED := World(Rebound(2).(sentInstance := 2), Commit(false, 2, 1, true, STARTED), true, CALLER, 0, 2, 2,
                              map[1 := true, 2 := true], [true], [Write(1, 1), Write(2, 1)])

  const ACCEPTED := ACKNOWLEDGED.(
    p := Rebound(2).(sentInstance := 2, attempting := false, connected := true, appliedInstance := 2, appliedRevision := 1,
                  receipt := STARTED, changed := 3),
    worker := Publish(true, false), log := [Write(1, 1), Write(2, 1), Confirm(2, 1)])

  lemma AskedIsReachable()
    ensures Reachable(ASKED)
  {
    StartIsReachable();
    var w1 := SourceNext(START, Restart(false));
    SourceIsReachable(START, Restart(false), w1);
    var w2 := CallerNext(w1, 0, BeginCall(Lease(true)));
    CallerIsReachable(w1, 0, BeginCall(Lease(true)), w2);
    var w3 := CallerNext(w2, 0, SignalCall);
    CallerIsReachable(w2, 0, SignalCall, w3);
    var w4 := WorkerNext(w3, Launch(true));
    WorkIsReachable(w3, Launch(true), w4);
    assert w4 == ASKED;
  }

  lemma SearchingIsReachable()
    ensures Reachable(SEARCHING)
  {
    AskedIsReachable();
    var w1 := WorkerNext(ASKED, TakeTop);
    WorkIsReachable(ASKED, TakeTop, w1);
    var w2 := WorkerNext(w1, CheckNeed);
    WorkIsReachable(w1, CheckNeed, w2);
    var w3 := WorkerNext(w2, BeginTry);
    WorkIsReachable(w2, BeginTry, w3);
    assert w3 == SEARCHING;
  }

  lemma CheckedIsReachable()
    ensures Reachable(CHECKED)
  {
    SearchingIsReachable();
    var w1 := WorkerNext(SEARCHING, DiscoverPeer(true));
    WorkIsReachable(SEARCHING, DiscoverPeer(true), w1);
    var w2 := WorkerNext(w1, StatusReply(WAITING));
    WorkIsReachable(w1, StatusReply(WAITING), w2);
    assert w2 == CHECKED;
  }

  lemma FoundIsReachable()
    ensures Reachable(FOUND)
  {
    CheckedIsReachable();
    var w1 := WorkerNext(CHECKED, ResolveSent);
    WorkIsReachable(CHECKED, ResolveSent, w1);
    var w2 := WorkerNext(w1, ReadDesired);
    WorkIsReachable(w1, ReadDesired, w2);
    assert w2 == FOUND;
  }

  lemma LostIsReachable(n: nat)
    requires n == 1 || n == 2
    ensures Reachable(Lost(n))
  {
    FoundIsReachable();
    var w1 := WorkerNext(FOUND, MarkAndSend);
    WorkIsReachable(FOUND, MarkAndSend, w1);
    SourceIsReachable(w1, Effect, Lost(1));
    if n == 2 {
      SourceIsReachable(Lost(1), Restart(false), Lost(2));
    }
  }

  lemma FailedIsReachable(n: nat)
    requires n == 1 || n == 2
    ensures Reachable(Failed(n))
  {
    LostIsReachable(n);
    WorkIsReachable(Lost(n), LeaseFails, Failed(n));
  }

  lemma GivenUpIsReachable(n: nat)
    requires n == 1 || n == 2
    ensures Reachable(GivenUp(n))
  {
    FailedIsReachable(n);
    WorkIsReachable(Failed(n), FinishTry, GivenUp(n));
  }

  lemma RetiringIsReachable(n: nat)
    requires n == 1 || n == 2
    ensures Reachable(Retiring(n))
  {
    GivenUpIsReachable(n);
    WorkIsReachable(GivenUp(n), PublishFirst, Retiring(n));
  }

  lemma DoubtfulIsReachable(n: nat)
    requires n == 1 || n == 2
    ensures Reachable(Doubtful(n))
  {
    RetiringIsReachable(n);
    var w1 := WorkerNext(Retiring(n), RetireTransport);
    WorkIsReachable(Retiring(n), RetireTransport, w1);
    WorkIsReachable(w1, CheckOwed, Doubtful(n));
  }

  lemma RetryingIsReachable(n: nat)
    requires n == 1 || n == 2
    ensures Reachable(Retrying(n))
  {
    DoubtfulIsReachable(n);
    WorkIsReachable(Doubtful(n), TimerFires, Retrying(n));
  }

  lemma SearchingAgainIsReachable(n: nat)
    requires n == 1 || n == 2
    ensures Reachable(SearchingAgain(n))
  {
    RetryingIsReachable(n);
    var w1 := WorkerNext(Retrying(n), TakeTop);
    WorkIsReachable(Retrying(n), TakeTop, w1);
    var w2 := WorkerNext(w1, CheckNeed);
    WorkIsReachable(w1, CheckNeed, w2);
    WorkIsReachable(w2, BeginTry, SearchingAgain(n));
  }

  lemma CheckedAgainIsReachable(n: nat, reply: Reply)
    requires n == 1 || n == 2
    requires reply.sourceMatches && Truthful(reply, n == 1)
    ensures Reachable(CheckedAgain(n, reply))
  {
    SearchingAgainIsReachable(n);
    var w1 := WorkerNext(SearchingAgain(n), DiscoverPeer(true));
    WorkIsReachable(SearchingAgain(n), DiscoverPeer(true), w1);
    WorkIsReachable(w1, StatusReply(reply), CheckedAgain(n, reply));
  }

  lemma FoundAgainIsReachable()
    ensures Reachable(FOUND_AGAIN)
  {
    CheckedAgainIsReachable(2, WAITING);
    var w1 := WorkerNext(CheckedAgain(2, WAITING), ResolveSent);
    WorkIsReachable(CheckedAgain(2, WAITING), ResolveSent, w1);
    var w2 := WorkerNext(w1, ReadDesired);
    WorkIsReachable(w1, ReadDesired, w2);
    assert w2 == FOUND_AGAIN;
  }

  lemma AcknowledgedIsReachable()
    ensures Reachable(ACKNOWLEDGED)
  {
    FoundAgainIsReachable();
    var w1 := WorkerNext(FOUND_AGAIN, MarkAndSend);
    WorkIsReachable(FOUND_AGAIN, MarkAndSend, w1);
    var w2 := SourceNext(w1, Effect);
    SourceIsReachable(w1, Effect, w2);
    var w3 := WorkerNext(w2, LeaseReply(STARTED));
    WorkIsReachable(w2, LeaseReply(STARTED), w3);
    assert w3 == ACKNOWLEDGED;
  }

  lemma AcceptedIsReachable()
    ensures Reachable(ACCEPTED)
  {
    AcknowledgedIsReachable();
    var w1 := WorkerNext(ACKNOWLEDGED, CommitLease);
    WorkIsReachable(ACKNOWLEDGED, CommitLease, w1);
    var w2 := WorkerNext(w1, FinishTry);
    WorkIsReachable(w1, FinishTry, w2);
    assert w2 == ACCEPTED;
  }

  /** The caller's start succeeds on the replacement, after one write to each. */
  lemma LostReplyIsReplayed() returns (w: World)
    ensures Reachable(w)
    ensures 0 in w.calls && w.calls[0].phase.Poll? && LeaseLook(w.p, w.calls[0].revision).Proceed?
    ensures w.log == [Write(1, 1), Write(2, 1), Confirm(2, 1)]
    ensures w.p.bound == 2 && 2 in w.native && w.native[2]
  {
    AcceptedIsReachable();
    var w1 := CallerNext(ACCEPTED, 0, PassFirst);
    CallerIsReachable(ACCEPTED, 0, PassFirst, w1);
    w := CallerNext(w1, 0, LookAwait);
    CallerIsReachable(w1, 0, LookAwait, w);
  }

  /** After which the worker parks on its connection. */
  lemma SuccessParks() returns (w: World)
    ensures Reachable(w) && w.worker.ParkConnected? && w.p.connected && w.p.bound == 2
  {
    AcceptedIsReachable();
    w := WorkerNext(ACCEPTED, PublishFirst);
    WorkIsReachable(ACCEPTED, PublishFirst, w);
  }

  /** The encoder runs, but the state is neither active nor idle. */
  const UNSETTLED := Reply(true, true, false, true, 1, Other)

  const UNRESOLVED := Retrying(1).(p := Rebound(1), worker := Mark(false, 1, 1, true), log := [Write(1, 1), Unconfirmed(1, 1)])

  lemma UnresolvedIsReachable()
    ensures Reachable(UNRESOLVED)
  {
    CheckedAgainIsReachable(1, UNSETTLED);
    var w0 := CheckedAgain(1, UNSETTLED);
    var w1 := WorkerNext(w0, ResolveSent);
    WorkIsReachable(w0, ResolveSent, w1);
    var w2 := WorkerNext(w1, ReadDesired);
    WorkIsReachable(w1, ReadDesired, w2);
    assert w2 == UNRESOLVED;
  }

  /** A status that contradicts nothing can still lead to a second write: the same
      revision goes again to the incarnation that had applied it. */
  lemma UnsettledStatusIsReplayed() returns (w: World)
    ensures Reachable(w)
    ensures w.log == [Write(1, 1), Unconfirmed(1, 1), Write(1, 1)]
    ensures w.born == 1 && w.native == map[1 := true] && UNSETTLED.appliedActive == w.p.desiredActive
  {
    UnresolvedIsReachable();
    w := WorkerNext(UNRESOLVED, MarkAndSend);
    WorkIsReachable(UNRESOLVED, MarkAndSend, w);
  }

  const GONE := World(FRESH_PEER.(wake := true), Top, false, map[], 0, 0, 0, map[], [], [])

  const EXPIRED := Call(Read, true, 1, 0, Leaving)

  lemma LeavingIsReachable()
    ensures Reachable(GONE.(p := FRESH_PEER.(callers := 1, wake := true), calls := map[0 := EXPIRED]))
  {
    StartIsReachable();
    var w1 := CallerNext(START, 0, BeginCall(Read));
    CallerIsReachable(START, 0, BeginCall(Read), w1);
    var w2 := CallerNext(w1, 0, SignalCall);
    CallerIsReachable(w1, 0, SignalCall, w2);
    var w3 := WorkerNext(w2, Launch(true));
    WorkIsReachable(w2, Launch(true), w3);
    var w4 := CallerNext(w3, 0, Expire);
    CallerIsReachable(w3, 0, Expire, w4);
    assert w4 == GONE.(p := FRESH_PEER.(callers := 1, wake := true), calls := map[0 := EXPIRED]);
  }

  lemma GoneIsReachable()
    ensures Reachable(GONE)
  {
    LeavingIsReachable();
    var w0 := GONE.(p := FRESH_PEER.(callers := 1, wake := true), calls := map[0 := EXPIRED]);
    var w1 := CallerNext(w0, 0, EndCall);
    CallerIsReachable(w0, 0, EndCall, w1);
    var w2 := CallerNext(w1, 0, SignalCall);
    CallerIsReachable(w1, 0, SignalCall, w2);
    assert w2 == GONE;
  }

  /** A worker that nobody needs any more parks without looking for the source. */
  lemma UnneededWorkerParks() returns (w: World)
    ensures Reachable(w) && w.worker.ParkIdle? && w.calls == map[] && w.p.attempts == 0
  {
    GoneIsReachable();
    var w1 := WorkerNext(GONE, TakeTop);
    WorkIsReachable(GONE, TakeTop, w1);
    w := WorkerNext(w1, CheckNeed);
    WorkIsReachable(w1, CheckNeed, w);
  }
}
