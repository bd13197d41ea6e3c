/** The camera peer as a step system: its one worker, its callers, the socket
    watcher and the native incarnations behind the socket, interleaved freely.

    Every mutex section of source_peer.go is one step. A call to the source is
    split into its send, its effect and its reply; the environment may lose the
    reply, restart the source, or let it vanish. What is assumed of the
    environment is what `Enabled` grants it: instance identifiers are not reused,
    a command reaches only the live instance it is fenced to and only while its
    call is open, native lifecycle state changes by such commands alone, and
    replies tell the truth about the native state. */
module PeerProtocol {
  import opened PeerSections

  /** Where the worker of `cameraPeer.run` stands. `connected` is its local copy. */
  datatype Worker =
    | Unstarted
    | Stopped                                          // the watcher could not be set up
    | Top
    | Discard(socket: bool)                            // about to close the old transport
    | Stat(socket: bool)                               // about to look for the socket
    | Need(connected: bool, revalidate: bool)
    | ParkIdle
    | Begin(connected: bool, revalidate: bool)
    | Discover
    | ReadStatus
    | Resolve(reply: Reply)
    | ReadLease(connected: bool)
    | Mark(connected: bool, instance: nat, revision: nat, active: bool)
    | Calling(connected: bool, instance: nat, revision: nat, active: bool)
    | Commit(connected: bool, instance: nat, revision: nat, active: bool, reply: Reply)
    | Finish(connected: bool, ok: bool)
    | Publish(connected: bool, pending: bool)          // about to close `first`
    | ParkConnected
    | Retire
    | Owed
    | Backoff
    | BackoffLook                                      // took the wake token during backoff

  datatype Phase =
    | Announce                                         // demand recorded, not yet signalled
    | First
    | Await
    | AwaitBlocked(generation: nat)
    | Poll
    | PollBlocked(generation: nat)
    | Using                                            // a read on the bound transport
    | Leaving
    | Departing                                        // demand ended, not yet signalled

  datatype Call = Call(request: Request, joined: bool, target: nat, revision: nat, phase: Phase)

  /** What happened on the wire, in order. */
  datatype Event =
    | Write(instance: nat, revision: nat)
    | Unconfirmed(instance: nat, revision: nat)        // a status read did not confirm the sent lease
    | Confirm(instance: nat, revision: nat)            // receipt accepted, or status agreed

  datatype World = World(
    p: Peer,
    worker: Worker,
    first: bool,                                       // the `first` channel is closed
    calls: map<nat, Call>,
    invalidators: nat,                                 // threads between invalidating and signalling
    current: nat,                                      // live incarnation, 0 when the source is down
    born: nat,                                         // incarnations so far
    native: map<nat, bool>,                            // is the incarnation's encoder active
    turns: seq<bool>,                                  // direction of each revision, in order
    log: seq<Event>)

  const START := World(FRESH_PEER, Unstarted, false, map[], 0, 0, 0, map[], [], [])

  datatype SourceAction =
    | Restart(initial: bool)
    | Vanish
    | Effect

  datatype CallerAction =
    | BeginCall(request: Request)
    | SignalCall
    | PassFirst
    | LookAwait
    | Awaken
    | LookPoll
    | Expire
    | UseBound(lost: bool)
    | EndCall

  datatype WatcherAction =
    | SocketEvent
    | SignalInvalidation

  datatype WorkerAction =
    | Launch(ok: bool)
    | TakeTop
    | CloseOld
    | LookForSocket(present: bool)
    | CheckNeed
    | TakeWake
    | BeginTry
    | DiscoverPeer(ok: bool)
    | StatusReply(reply: Reply)
    | StatusFails
    | ResolveSent
    | ReadDesired
    | MarkAndSend
    | LeaseReply(answer: Reply)
    | LeaseFails
    | CommitLease
    | FinishTry
    | PublishFirst
    | RetireTransport
    | CheckOwed
    | TimerFires
    | LookInBackoff

  datatype Action =
    | Source(source: SourceAction)
    | Caller(c: nat, caller: CallerAction)
    | Watcher(watcher: WatcherAction)
    | Work(work: WorkerAction)

  /** A reply is truthful when what it says about the state is so. */
  predicate Truthful(reply: Reply, active: bool) {
    && reply.appliedActive == active
    && (reply.state == Active ==> active)
    && (reply.state == Idle ==> !active)
  }

  // ----- the source process

  predicate SourceEnabled(w: World, a: SourceAction) {
    a.Effect? ==> w.worker.Calling? && w.current == w.worker.instance && w.worker.instance in w.native
  }

  function SourceNext(w: World, a: SourceAction): World
    requires SourceEnabled(w, a)
  {
    match a
    case Restart(initial) =>
      w.(born := w.born + 1, current := w.born + 1, native := w.native[w.born + 1 := initial])
    case Vanish => w.(current := 0)
    case Effect => w.(native := w.native[w.worker.instance := w.worker.active])
  }

  // ----- the callers

  predicate CallerEnabled(w: World, c: nat, a: CallerAction) {
    if a.BeginCall? then c !in w.calls else
    c in w.calls &&
    var phase := w.calls[c].phase;
    match a
    case BeginCall(_) => false
    case SignalCall => phase.Announce? || phase.Departing?
    case PassFirst => phase.First? && w.first
    case LookAwait => phase.Await?
    case Awaken => (phase.AwaitBlocked? || phase.PollBlocked?) && phase.generation != w.p.changed
    case LookPoll => phase.Poll?
    case Expire => phase.First? || phase.AwaitBlocked? || phase.PollBlocked?
    case UseBound(_) => phase.Using?
    case EndCall => phase.Leaving? && w.p.callers > 0
  }

  /** Where a caller goes that only looks at the peer. */
  function Moved(p: Peer, call: Call): Phase {
    match call.phase
    case First => Await
    case Await =>
      (match AwaitLook(p, call.joined, call.target)
       case Proceed => Poll
       case Refuse => Leaving
       case Block => AwaitBlocked(p.changed))
    case AwaitBlocked(_) => Await
    case PollBlocked(_) => Poll
    case Poll =>
      if call.request.Read? then (if p.connected then Using else Leaving)
      else if LeaseLook(p, call.revision).Block? then PollBlocked(p.changed)
      else Leaving
    case _ => Leaving
  }

  function SetPhase(calls: map<nat, Call>, c: nat, phase: Phase): map<nat, Call>
    requires c in calls
  {
    calls[c := calls[c].(phase := phase)]
  }

  function CallerNext(w: World, c: nat, a: CallerAction): World
    requires CallerEnabled(w, c, a)
  {
    match a
    case BeginCall(request) =>
      var p := BeginDemand(w.p, request);
      w.(p := p,
         turns := if Turns(w.p, request) then w.turns + [request.active] else w.turns,
         calls := w.calls[c := Call(request, JoinsDiscovery(w.p), TargetAttempt(w.p), p.desiredRevision, Announce)])
    case SignalCall =>
      w.(p := Signal(w.p),
         calls := if w.calls[c].phase.Announce? then SetPhase(w.calls, c, First) else w.calls - {c})
    case Expire => w.(calls := SetPhase(w.calls, c, Leaving))
    case UseBound(lost) =>
      if lost then
        w.(calls := SetPhase(w.calls, c, Leaving), p := Invalidate(w.p, false), invalidators := w.invalidators + 1)
      else
        w.(calls := SetPhase(w.calls, c, Leaving))
    case EndCall => w.(p := EndDemand(w.p), calls := SetPhase(w.calls, c, Departing))
    case _ => w.(calls := SetPhase(w.calls, c, Moved(w.p, w.calls[c])))
  }

  // ----- the socket watcher

  predicate WatcherEnabled(w: World, a: WatcherAction) {
    match a
    case SocketEvent => !w.worker.Unstarted? && !w.worker.Stopped?
    case SignalInvalidation => w.invalidators > 0
  }

  function WatcherNext(w: World, a: WatcherAction): World
    requires WatcherEnabled(w, a)
  {
    match a
    case SocketEvent => w.(p := Invalidate(w.p, true), invalidators := w.invalidators + 1)
    case SignalInvalidation => w.(p := Signal(w.p), invalidators := w.invalidators - 1)
  }

  // ----- the worker

  predicate WorkerEnabled(w: World, a: WorkerAction) {
    match a
    case Launch(_) => w.worker.Unstarted? && w.calls != map[]
    case TakeTop => w.worker.Top?
    case CloseOld => w.worker.Discard?
    case LookForSocket(_) => w.worker.Stat?
    case CheckNeed => w.worker.Need?
    case TakeWake => (w.worker.ParkIdle? || w.worker.ParkConnected? || w.worker.Backoff?) && w.p.wake
    case BeginTry => w.worker.Begin?
    case DiscoverPeer(ok) => w.worker.Discover? && (ok ==> w.current != 0 || w.p.bound != 0)
    case StatusReply(reply) =>
      && w.worker.ReadStatus?
      && w.current == w.p.bound
      && w.p.bound in w.native
      && reply.sourceMatches
      && Truthful(reply, w.native[w.p.bound])
    case StatusFails => w.worker.ReadStatus?
    case ResolveSent => w.worker.Resolve?
    case ReadDesired => w.worker.ReadLease?
    case MarkAndSend => w.worker.Mark?
    case LeaseReply(answer) =>
      && w.worker.Calling?
      && w.worker.instance in w.native
      && Truthful(answer, w.native[w.worker.instance])
      && AcceptsReceipt(w.worker.active, answer)
    case LeaseFails => w.worker.Calling?
    case CommitLease => w.worker.Commit?
    case FinishTry => w.worker.Finish?
    case PublishFirst => w.worker.Publish?
    case RetireTransport => w.worker.Retire?
    case CheckOwed => w.worker.Owed?
    case TimerFires => w.worker.Backoff?
    case LookInBackoff => w.worker.BackoffLook?
  }

  /** What a status read says about the lease that was sent. */
  function StatusEvents(p: Peer, reply: Reply): seq<Event> {
    if p.sentInstance != p.bound || p.sentRevision != p.desiredRevision || p.sentRevision == 0 then []
    else if Confirms(p, reply) then [Confirm(p.sentInstance, p.sentRevision)]
    else [Unconfirmed(p.sentInstance, p.sentRevision)]
  }

  function WorkerNext(w: World, a: WorkerAction): World
    requires WorkerEnabled(w, a)
  {
    match a
    case Launch(ok) => w.(worker := if ok then Top else Stopped, first := w.first || !ok)
    case TakeTop =>
      w.(p := TakeInvalidation(w.p),
         worker := if w.p.invalidated then Discard(w.p.socketChanged) else Need(w.p.connected, false))
    case CloseOld => w.(p := CloseTransport(w.p), worker := Stat(w.worker.socket))
    case LookForSocket(present) =>
      w.(worker := Need(false, w.worker.socket && RevalidatesStop(w.p, present)))
    case CheckNeed =>
      var parks := Parks(w.p, w.worker.connected, w.worker.revalidate);
      w.(p := SetIdle(w.p, parks),
         worker := if parks then ParkIdle else Begin(w.worker.connected, w.worker.revalidate))
    case TakeWake => w.(p := TakeToken(w.p), worker := if w.worker.Backoff? then BackoffLook else Top)
    case BeginTry =>
      w.(p := BeginAttempt(w.p, w.worker.connected, w.worker.revalidate),
         worker := if w.worker.connected then ReadLease(true) else Discover)
    case DiscoverPeer(ok) =>
      if ok then w.(p := BindTransport(w.p, w.current), worker := ReadStatus)
      else w.(worker := Finish(false, false))
    case StatusReply(reply) => w.(worker := Resolve(reply))
    case StatusFails => w.(worker := Finish(false, false))
    case ResolveSent =>
      w.(p := ResolveStatus(w.p, w.worker.reply),
         log := w.log + StatusEvents(w.p, w.worker.reply),
         worker := ReadLease(false))
    case ReadDesired =>
      w.(worker := if NothingToWrite(w.p) then Finish(w.worker.connected, true)
                   else Mark(w.worker.connected, w.p.bound, w.p.desiredRevision, w.p.desiredActive))
    case MarkAndSend =>
      var m := w.worker;
      w.(p := MarkSent(w.p, m.instance, m.revision), log := w.log + [Write(m.instance, m.revision)],
         worker := Calling(m.connected, m.instance, m.revision, m.active))
    case LeaseReply(answer) =>
      var m := w.worker;
      w.(worker := Commit(m.connected, m.instance, m.revision, m.active, answer))
    case LeaseFails => w.(worker := Finish(w.worker.connected, false))
    case CommitLease =>
      var m := w.worker;
      w.(p := CommitReceipt(w.p, m.instance, m.revision, m.reply),
         log := w.log + [Confirm(m.instance, m.revision)],
         worker := Finish(m.connected, true))
    case FinishTry =>
      var p := FinishAttempt(w.p, w.worker.ok);
      w.(p := p, worker := Publish(p.connected, p.desiredRevision != p.appliedRevision))
    case PublishFirst =>
      w.(first := true,
         worker := if !w.worker.connected then Retire else if w.worker.pending then Top else ParkConnected)
    case RetireTransport => w.(p := CloseTransport(w.p), worker := Owed)
    case CheckOwed => w.(worker := if Needed(w.p) then Backoff else Top)
    case TimerFires => w.(worker := Top)
    case LookInBackoff => w.(worker := if w.p.invalidated then Top else Backoff)
  }

  // ----- all of them

  predicate Enabled(w: World, a: Action) {
    match a
    case Source(s) => SourceEnabled(w, s)
    case Caller(c, s) => CallerEnabled(w, c, s)
    case Watcher(s) => WatcherEnabled(w, s)
    case Work(s) => WorkerEnabled(w, s)
  }

  function Next(w: World, a: Action): World
    requires Enabled(w, a)
  {
    match a
    case Source(s) => SourceNext(w, s)
    case Caller(c, s) => CallerNext(w, c, s)
    case Watcher(s) => WatcherNext(w, s)
    case Work(s) => WorkerNext(w, s)
  }
}
