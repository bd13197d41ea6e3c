/** The state of one camera peer (source_peer.go) and the effect of each of its
    critical sections.

    `Peer` holds the fields that `peer.mu` guards, the one-slot wake channel, the
    broadcast channel as a generation number, and the instance that the transport
    is bound to. Incarnations are numbered; 0 stands for the empty instance. Each
    function below is one mutex section; the class `CameraPeer` performs the same
    sections on its fields and is tied to the functions by its postconditions.
    What the sections guarantee together is proved in `PeerProtocol`. */
module PeerSections {

  /** The lifecycle state a camera source reports. */
  datatype NativeState = Idle | Active | Other

  /** The parts of a source reply that the peer decides on. */
  datatype Reply = Reply(
    sourceMatches: bool,
    applied: bool,          // completion == "applied"
    active: bool,
    appliedActive: bool,
    revision: nat,          // configuration_revision
    state: NativeState)

  /** The native state that a lease in direction `active` asks for. */
  function Settled(active: bool): NativeState {
    if active then Active else Idle
  }

  /** Whether a start (`active`) or stop reply is an applied receipt. */
  predicate AcceptsReceipt(active: bool, reply: Reply) {
    && reply.sourceMatches
    && reply.applied
    && reply.active == active
    && reply.revision != 0
    && reply.state == Settled(active)
  }

  datatype Request = Read | Lease(active: bool)

  datatype Peer = Peer(
    connected: bool,
    invalidated: bool,
    socketChanged: bool,
    attempting: bool,       // an attempt's cancel function is set
    desiredActive: bool,
    desiredRevision: nat,
    appliedRevision: nat,
    appliedInstance: nat,
    sentInstance: nat,
    sentRevision: nat,
    receipt: Reply,
    attempts: nat,
    callers: nat,
    idle: bool,
    validatingStop: bool,
    wake: bool,             // the wake channel holds a token
    changed: nat,           // how often waiters were notified
    bound: nat)             // instance of the transport, 0 when closed

  const NO_RECEIPT := Reply(false, false, false, false, 0, Other)

  const FRESH_PEER := Peer(
    false, false, false, false, false, 0, 0, 0, 0, 0, NO_RECEIPT, 0, 0, false, false, false, 0, 0)

  function Signal(p: Peer): Peer {
    p.(wake := true)
  }

  function TakeToken(p: Peer): Peer {
    p.(wake := false)
  }

  function Invalidate(p: Peer, socketChanged: bool): Peer {
    p.(connected := false, invalidated := true, socketChanged := p.socketChanged || socketChanged,
       changed := p.changed + 1)
  }

  /** Whether the request turns the lease around, which takes a new revision. */
  predicate Turns(p: Peer, request: Request) {
    request.Lease? && (p.desiredRevision == 0 || p.desiredActive != request.active)
  }

  function BeginDemand(p: Peer, request: Request): Peer {
    p.(callers := p.callers + 1,
       desiredRevision := if Turns(p, request) then p.desiredRevision + 1 else p.desiredRevision,
       desiredActive := if Turns(p, request) then request.active else p.desiredActive)
  }

  /** Whether the caller joins a discovery attempt that nobody is making yet. */
  predicate JoinsDiscovery(p: Peer) {
    p.idle || (!p.connected && !p.desiredActive && p.callers == 0 && p.desiredRevision == p.appliedRevision)
  }

  /** The number of the attempt that such a caller waits for. */
  function TargetAttempt(p: Peer): nat {
    if p.attempting && !p.invalidated then p.attempts else p.attempts + 1
  }

  function EndDemand(p: Peer): Peer
    requires p.callers > 0
  {
    p.(callers := p.callers - 1)
  }

  /** Whether a sent lease has no receipt from the instance it went to. */
  predicate ReceiptOwed(p: Peer) {
    p.sentRevision == p.desiredRevision && p.sentInstance != 0 && p.sentInstance != p.appliedInstance
  }

  predicate Needed(p: Peer) {
    p.desiredActive || p.callers > 0 || p.desiredRevision != p.appliedRevision || ReceiptOwed(p)
  }

  /** Whether the last caller's departure cancels the attempt in progress. */
  predicate CancelsAttempt(p: Peer) {
    && p.callers == 0
    && !p.desiredActive
    && p.desiredRevision == p.appliedRevision
    && !p.validatingStop
    && (p.sentInstance == 0 || p.sentInstance == p.appliedInstance || p.sentRevision != p.desiredRevision)
    && p.attempting
  }

  function TakeInvalidation(p: Peer): Peer {
    p.(invalidated := false, socketChanged := false)
  }

  function CloseTransport(p: Peer): Peer {
    p.(bound := 0)
  }

  predicate RevalidatesStop(p: Peer, socketPresent: bool) {
    socketPresent && p.desiredRevision != 0 && !p.desiredActive
  }

  predicate Parks(p: Peer, connected: bool, revalidateStop: bool) {
    !connected && !(revalidateStop || Needed(p))
  }

  function SetIdle(p: Peer, idle: bool): Peer {
    p.(idle := idle)
  }

  function BeginAttempt(p: Peer, connected: bool, revalidateStop: bool): Peer {
    p.(attempting := true, validatingStop := revalidateStop,
       attempts := if connected then p.attempts else p.attempts + 1)
  }

  /** Binds the transport to the discovered instance, unless it still has one. */
  function BindTransport(p: Peer, discovered: nat): Peer {
    if p.bound == 0 then p.(bound := discovered) else p
  }

  /** Whether a status read shows that the sent lease was applied after all. */
  predicate Confirms(p: Peer, reply: Reply) {
    && p.sentInstance == p.bound
    && p.sentRevision == p.desiredRevision
    && p.desiredRevision != 0
    && reply.appliedActive == p.desiredActive
    && reply.state == Settled(p.desiredActive)
  }

  function ResolveStatus(p: Peer, reply: Reply): Peer {
    if Confirms(p, reply) then
      p.(appliedInstance := p.sentInstance, appliedRevision := p.sentRevision,
         receipt := reply.(active := reply.appliedActive, applied := true))
    else
      p
  }

  /** Whether the desired lease needs no write to the bound instance. */
  predicate NothingToWrite(p: Peer) {
    p.desiredRevision == 0 || (p.appliedInstance == p.bound && p.appliedRevision == p.desiredRevision)
  }

  function MarkSent(p: Peer, instance: nat, revision: nat): Peer {
    p.(sentInstance := instance, sentRevision := revision)
  }

  function CommitReceipt(p: Peer, instance: nat, revision: nat, reply: Reply): Peer {
    p.(appliedInstance := instance, appliedRevision := revision, receipt := reply, changed := p.changed + 1)
  }

  function FinishAttempt(p: Peer, ok: bool): Peer {
    p.(attempting := false, validatingStop := false, connected := ok && !p.invalidated,
       changed := p.changed + 1)
  }

  datatype Wait = Proceed | Refuse | Block

  /** One look of awaitConnection at the peer. */
  function AwaitLook(p: Peer, joined: bool, target: nat): Wait {
    if p.connected then Proceed
    else if !joined || (p.attempts >= target && !p.attempting && !p.invalidated) then Refuse
    else Block
  }

  /** One look of a lease call at the peer: it succeeds once its revision, or a
      later one, is applied on a connected transport. */
  function LeaseLook(p: Peer, revision: nat): Wait {
    if !p.connected then Refuse else if p.appliedRevision >= revision then Proceed else Block
  }

  /** What comes back from a call of the source, if anything does. */
  datatype Answer = NoReceipt | Receipt(reply: Reply)

  /** Whether a status shows the lease in this direction. */
  predicate Shows(reply: Reply, active: bool) {
    reply.appliedActive == active && reply.state == Settled(active)
  }

  /** The peer with its fields updated in place, one method a mutex section. */
  class CameraPeer {
    var connected: bool
    var invalidated: bool
    var socketChanged: bool
    var attempting: bool
    var desiredActive: bool
    var desiredRevision: nat
    var appliedRevision: nat
    var appliedInstance: nat
    var sentInstance: nat
    var sentRevision: nat
    var receipt: Reply
    var attempts: nat
    var callers: nat
    var idle: bool
    var validatingStop: bool
    var wake: bool
    var changed: nat
    var bound: nat

    function View(): Peer
      reads this
    {
      Peer(connected, invalidated, socketChanged, attempting, desiredActive, desiredRevision, appliedRevision,
           appliedInstance, sentInstance, sentRevision, receipt, attempts, callers, idle, validatingStop, wake,
           changed, bound)
    }

    constructor ()
      ensures View() == FRESH_PEER
    {
      connected, invalidated, socketChanged, attempting, desiredActive := false, false, false, false, false;
      desiredRevision, appliedRevision, appliedInstance, sentInstance, sentRevision := 0, 0, 0, 0, 0;
      receipt, attempts, callers := NO_RECEIPT, 0, 0;
      idle, validatingStop, wake := false, false, false;
      changed, bound := 0, 0;
    }

    method SignalWorker()
      modifies this
      ensures View() == Signal(old(View()))
    {
      if !wake {
        wake := true;
      }
    }

    method TakeTokenSection()
      requires wake
      modifies this
      ensures View() == TakeToken(old(View()))
    {
      wake := false;
    }

    method InvalidateSection(socket: bool)
      modifies this
      ensures View() == Invalidate(old(View()), socket)
    {
      connected := false;
      invalidated := true;
      socketChanged := socketChanged || socket;
      changed := changed + 1;
    }

    method BeginDemandSection(request: Request) returns (joined: bool, target: nat, revision: nat)
      modifies this`callers, this`desiredRevision, this`desiredActive
      ensures View() == BeginDemand(old(View()), request)
      ensures joined == JoinsDiscovery(old(View()))
      ensures joined <==> idle || !(connected || old(desiredActive) || old(callers) > 0 || old(desiredRevision) != appliedRevision)
      ensures target == TargetAttempt(old(View()))
      ensures target == if attempting && !invalidated then attempts else attempts + 1
      ensures revision == desiredRevision
    {
      joined := idle || (!connected && !desiredActive && callers == 0 && desiredRevision == appliedRevision);
      target := attempts + 1;
      if attempting && !invalidated {
        target := attempts;
      }
      callers := callers + 1;
      revision := Turn(request);
    }

    /** Raises the desired revision if the request turns the direction. */
    method Turn(request: Request) returns (revision: nat)
      modifies this`desiredRevision, this`desiredActive
      ensures revision == desiredRevision == if Turns(old(View()), request) then old(desiredRevision) + 1 else old(desiredRevision)
      ensures desiredActive == if Turns(old(View()), request) then request.active else old(desiredActive)
    {
      if request.Lease? && (desiredRevision == 0 || desiredActive != request.active) {
        desiredRevision, desiredActive := desiredRevision + 1, request.active;
      }
      revision := desiredRevision;
    }

    method EndDemandSection() returns (cancel: bool)
      requires callers > 0
      modifies this
      ensures View() == EndDemand(old(View()))
      ensures cancel == CancelsAttempt(View())
      ensures cancel <==> attempting && !validatingStop && !Needed(View())
    {
      callers := callers - 1;
      cancel := false;
      if callers == 0 && !desiredActive && desiredRevision == appliedRevision && !validatingStop &&
         (sentInstance == 0 || sentInstance == appliedInstance || sentRevision != desiredRevision) {
        cancel := attempting;
      }
    }

    method AwaitSection(joined: bool, target: nat) returns (wait: Wait, generation: nat)
      ensures wait == AwaitLook(View(), joined, target)
      ensures wait.Proceed? <==> connected
      ensures wait.Block? <==> joined && !connected && (attempts < target || attempting || invalidated)
      ensures generation == changed
    {
      generation := changed;
      if connected {
        wait := Proceed;
      } else if !joined || (attempts >= target && !attempting && !invalidated) {
        wait := Refuse;
      } else {
        wait := Block;
      }
    }

    method LeaseSection(revision: nat) returns (wait: Wait, answer: Reply, generation: nat)
      ensures wait == LeaseLook(View(), revision)
      ensures wait.Refuse? <==> !connected
      ensures wait.Proceed? <==> connected && appliedRevision >= revision
      ensures answer == receipt && generation == changed
    {
      answer, generation := receipt, changed;
      if !connected {
        wait := Refuse;
      } else if appliedRevision >= revision {
        wait := Proceed;
      } else {
        wait := Block;
      }
    }

    method TakeInvalidationSection() returns (wasInvalidated: bool, socket: bool, wasConnected: bool)
      modifies this
      ensures View() == TakeInvalidation(old(View()))
      ensures wasInvalidated == old(invalidated) && socket == old(socketChanged) && wasConnected == old(connected)
    {
      wasInvalidated, socket, wasConnected := invalidated, socketChanged, connected;
      invalidated := false;
      socketChanged := false;
    }

    method CloseTransportSection()
      modifies this
      ensures View() == CloseTransport(old(View()))
    {
      bound := 0;
    }

    method RevalidateSection(socketPresent: bool) returns (revalidateStop: bool)
      ensures revalidateStop == RevalidatesStop(View(), socketPresent)
    {
      revalidateStop := socketPresent && desiredRevision != 0 && !desiredActive;
    }

    method NeededSection(isConnected: bool, revalidateStop: bool) returns (parks: bool)
      modifies this
      ensures parks == Parks(old(View()), isConnected, revalidateStop)
      ensures View() == SetIdle(old(View()), parks)
    {
      var needed := revalidateStop || desiredActive || callers > 0 || desiredRevision != appliedRevision ||
                    (sentRevision == desiredRevision && sentInstance != 0 && sentInstance != appliedInstance);
      parks := !isConnected && !needed;
      idle := parks;
    }

    method BeginAttemptSection(isConnected: bool, revalidateStop: bool)
      modifies this
      ensures View() == BeginAttempt(old(View()), isConnected, revalidateStop)
    {
      attempting := true;
      validatingStop := revalidateStop;
      if !isConnected {
        attempts := attempts + 1;
      }
    }

    method BindTransportSection(discovered: nat)
      modifies this
      ensures View() == BindTransport(old(View()), discovered)
    {
      if bound == 0 {
        bound := discovered;
      }
    }

    method ResolveStatusSection(reply: Reply)
      modifies this
      ensures View() == ResolveStatus(old(View()), reply)
    {
      if sentInstance == bound && sentRevision == desiredRevision && desiredRevision != 0 &&
         reply.appliedActive == desiredActive &&
         ((desiredActive && reply.state == Active) || (!desiredActive && reply.state == Idle)) {
        appliedInstance := sentInstance;
        appliedRevision := sentRevision;
        receipt := reply.(active := reply.appliedActive, applied := true);
      }
    }

    method ReadLeaseSection() returns (instance: nat, revision: nat, active: bool, skip: bool)
      ensures instance == bound && revision == desiredRevision && active == desiredActive
      ensures skip == NothingToWrite(View())
    {
      revision, active := desiredRevision, desiredActive;
      instance := bound;
      skip := revision == 0 || (appliedInstance == instance && appliedRevision == revision);
    }

    method MarkSentSection(instance: nat, revision: nat)
      modifies this
      ensures View() == MarkSent(old(View()), instance, revision)
    {
      sentInstance, sentRevision := instance, revision;
    }

    method CommitReceiptSection(instance: nat, revision: nat, reply: Reply)
      modifies this
      ensures View() == CommitReceipt(old(View()), instance, revision, reply)
    {
      appliedInstance, appliedRevision, receipt := instance, revision, reply;
      changed := changed + 1;
    }

    method FinishAttemptSection(ok: bool) returns (isConnected: bool, pending: bool)
      modifies this
      ensures View() == FinishAttempt(old(View()), ok)
      ensures isConnected == connected && pending == (desiredRevision != appliedRevision)
    {
      attempting := false;
      validatingStop := false;
      connected := ok && !invalidated;
      changed := changed + 1;
      isConnected := connected;
      pending := desiredRevision != appliedRevision;
    }

    // ----- whole operations

    /** An invalidation always leaves a wake-up behind it. */
    method InvalidateAndSignal(socket: bool)
      modifies this
      ensures invalidated && !connected && wake && changed > old(changed)
      ensures socketChanged == (old(socketChanged) || socket)
      ensures desiredRevision == old(desiredRevision) && sentRevision == old(sentRevision)
      ensures appliedRevision == old(appliedRevision) && appliedInstance == old(appliedInstance) && bound == old(bound)
    {
      InvalidateSection(socket);
      SignalWorker();
    }

    /** The head of the worker's loop up to its first decision. Parking means that no
        lease is owed, to anybody, by the peer as it is; and a transport that was
        invalidated is never used again. */
    method LookAround(socketPresent: bool) returns (parks: bool)
      modifies this
      ensures !invalidated && !socketChanged
      ensures old(invalidated) ==> bound == 0
      ensures parks <==> (old(invalidated) || !old(connected)) && OwesNothing() &&
                         !(old(invalidated) && old(socketChanged) && socketPresent && StopWasLast())
      ensures parks == idle
      ensures desiredRevision == old(desiredRevision) && desiredActive == old(desiredActive) && callers == old(callers)
    {
      var wasInvalidated, socket, isConnected := TakeInvalidationSection();
      var revalidate := false;
      if wasInvalidated {
        CloseTransportSection();
        isConnected := false;
        if socket {
          revalidate := RevalidateSection(socketPresent);
        }
      }
      parks := NeededSection(isConnected, revalidate);
    }

    /** No start is desired, nobody waits, and the desired lease has its receipt from the
        instance that it was sent to. */
    predicate OwesNothing()
      reads this
    {
      && !desiredActive && callers == 0 && appliedRevision == desiredRevision
      && (sentRevision == desiredRevision ==> sentInstance == 0 || sentInstance == appliedInstance)
    }

    /** The last lease desired is a stop. */
    predicate StopWasLast()
      reads this
    {
      desiredRevision > 0 && !desiredActive
    }

    /** One call of apply against a source that may lose the reply. `meanwhile` are
        demands that come in while the write is under way. What is written is recorded
        even if the reply is lost; only an accepted receipt of the bound instance counts;
        and a demand that turns the lease meanwhile stays owed. */
    method Apply(answer: Answer, meanwhile: seq<Request>) returns (wrote: bool, ok: bool)
      requires answer.Receipt? ==> AcceptsReceipt(desiredActive, answer.reply)
      modifies this
      ensures wrote == !NothingToWrite(old(View()))
      ensures ok == (!wrote || answer.Receipt?)
      ensures wrote ==> sentInstance == old(bound) && sentRevision == old(desiredRevision)
      ensures wrote && ok ==> appliedInstance == old(bound) && appliedRevision == old(desiredRevision) && receipt == answer.reply
      ensures wrote && !ok ==> appliedInstance == old(appliedInstance) && appliedRevision == old(appliedRevision)
      ensures bound == old(bound) && desiredRevision >= old(desiredRevision) && attempts == old(attempts)
      ensures ok ==> old(desiredRevision) == 0 || (appliedInstance == bound && appliedRevision == old(desiredRevision))
    {
      var instance, revision, active, skip := ReadLeaseSection();
      if skip {
        return false, true;
      }
      MarkSentSection(instance, revision);
      for i := 0 to |meanwhile|
        invariant sentInstance == old(bound) == bound && sentRevision == old(desiredRevision) <= desiredRevision
        invariant appliedInstance == old(appliedInstance) && appliedRevision == old(appliedRevision) && attempts == old(attempts)
      {
        var _, _, _ := BeginDemandSection(meanwhile[i]);
      }
      if answer.NoReceipt? {
        return true, false;
      }
      CommitReceiptSection(instance, revision, answer.reply);
      return true, true;
    }

    /** connect against a source that may be down (`discovered` 0) or not answer. A lease
        whose receipt was lost is resolved, exactly when the status shows it applied. */
    method Connect(discovered: nat, status: Answer) returns (ok: bool)
      modifies this
      ensures ok == ((old(bound) != 0 || discovered != 0) && status.Receipt?)
      ensures ok ==> bound != 0
      ensures ok && sentInstance == bound && sentRevision == desiredRevision && desiredRevision != 0 ==>
                (AllApplied() <==> old(AllApplied()) || Shows(status.reply, desiredActive))
      ensures !ok ==> appliedInstance == old(appliedInstance) && appliedRevision == old(appliedRevision)
      ensures sentInstance == old(sentInstance) && sentRevision == old(sentRevision)
      ensures desiredRevision == old(desiredRevision) && desiredActive == old(desiredActive)
      ensures invalidated == old(invalidated) && attempts == old(attempts)
    {
      if bound == 0 && discovered == 0 {
        return false;
      }
      BindTransportSection(discovered);
      if status.NoReceipt? {
        return false;
      }
      ResolveStatusSection(status.reply);
      return true;
    }

    predicate AllApplied()
      reads this
    {
      appliedInstance == sentInstance && appliedRevision == sentRevision
    }

    /** A whole attempt of an unconnected worker. It ends connected only if nothing
        invalidated the transport meanwhile, and then the instance it is bound to has
        acknowledged the lease that was desired when it was written. */
    method Attempt(revalidate: bool, discovered: nat, status: Answer, answer: Answer, meanwhile: seq<Request>, interrupted: bool)
      returns (isConnected: bool, pending: bool)
      requires bound == 0 && (answer.Receipt? ==> AcceptsReceipt(desiredActive, answer.reply))
      modifies this
      ensures isConnected == connected && pending == (desiredRevision != appliedRevision)
      ensures !attempting && !validatingStop && attempts == old(attempts) + 1
      ensures connected ==> !invalidated && bound != 0
      ensures connected && old(desiredRevision) > 0 ==> appliedInstance == bound && appliedRevision >= old(desiredRevision)
      ensures interrupted ==> !connected
    {
      BeginAttemptSection(false, revalidate);
      var ok := Connect(discovered, status);
      if ok {
        var wrote, applied := Apply(answer, meanwhile);
        ok := applied;
      }
      if interrupted {
        InvalidateSection(false);
      }
      isConnected, pending := FinishAttemptSection(ok);
    }
  }
}
