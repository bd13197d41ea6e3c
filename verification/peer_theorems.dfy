/** What holds over every run of the camera peer. */
module PeerTheorems {
  import opened PeerSections
  import opened PeerProtocol
  import opened PeerInvariant
  import opened PeerSteps

  /** `ws` is what the actions `acts` make of a fresh peer, one after the other. */
  ghost predicate Run(ws: seq<World>, acts: seq<Action>) {
    && |ws| == |acts| + 1
    && ws[0] == START
    && forall i {:trigger acts[i]} :: 0 <= i < |acts| ==> Enabled(ws[i], acts[i]) && ws[i + 1] == Next(ws[i], acts[i])
  }

  lemma {:induction false} RunKeepsInv(ws: seq<World>, acts: seq<Action>, i: nat)
    requires Run(ws, acts) && i < |ws|
    ensures Inv(ws[i])
  {
    if i > 0 {
      RunKeepsInv(ws, acts, i - 1);
      StepKeepsInv(ws[i - 1], acts[i - 1]);
    }
  }

  // ----- revisions

  /** Nothing about revisions is taken back: what a revision number means, how
      far the lease was desired, sent and applied, and what was put on the wire. */
  ghost predicate Grows(w: World, v: World) {
    && w.turns <= v.turns
    && w.log <= v.log
    && w.p.desiredRevision <= v.p.desiredRevision
    && w.p.sentRevision <= v.p.sentRevision
    && w.p.appliedRevision <= v.p.appliedRevision
    && w.p.sentInstance <= v.p.sentInstance
    && w.p.appliedInstance <= v.p.appliedInstance
  }

  predicate TouchesLease(a: WorkerAction) {
    a.ResolveSent? || a.MarkAndSend? || a.CommitLease?
  }

  lemma ResolveGrows(w: World)
    requires WorkerEnabled(w, ResolveSent)
    requires w.p.appliedRevision <= w.p.sentRevision && w.p.appliedInstance <= w.p.sentInstance
    ensures Grows(w, WorkerNext(w, ResolveSent))
  {
    var q := ResolveStatus(w.p, w.worker.reply);
    assert q.desiredRevision == w.p.desiredRevision && q.sentRevision == w.p.sentRevision;
    assert q.sentInstance == w.p.sentInstance && w.p.appliedInstance <= q.appliedInstance;
    assert w.p.appliedRevision <= q.appliedRevision;
  }

  lemma MarkGrows(w: World)
    requires WorkerEnabled(w, MarkAndSend)
    requires w.p.sentInstance <= w.worker.instance && w.p.sentRevision <= w.worker.revision
    ensures Grows(w, WorkerNext(w, MarkAndSend))
  {
  }

  lemma CommitGrows(w: World)
    requires WorkerEnabled(w, CommitLease)
    requires w.p.appliedInstance <= w.worker.instance && w.p.appliedRevision <= w.worker.revision
    ensures Grows(w, WorkerNext(w, CommitLease))
  {
  }

  lemma OtherWorkGrows(w: World, a: WorkerAction)
    requires WorkerEnabled(w, a) && !TouchesLease(a)
    ensures Grows(w, WorkerNext(w, a))
  {
    var v := WorkerNext(w, a);
    assert v.log == w.log && v.turns == w.turns;
  }

  lemma CallerGrows(w: World, c: nat, a: CallerAction)
    requires CallerEnabled(w, c, a)
    ensures Grows(w, CallerNext(w, c, a))
  {
    assert CallerNext(w, c, a).log == w.log;
  }

  lemma EnvironmentGrows(w: World, a: Action)
    requires Enabled(w, a) && (a.Source? || a.Watcher?)
    ensures Grows(w, Next(w, a))
  {
    assert Next(w, a).log == w.log && Next(w, a).turns == w.turns;
  }

  lemma WorkGrows(w: World, a: WorkerAction)
    requires Inv(w) && WorkerEnabled(w, a)
    ensures Grows(w, WorkerNext(w, a))
  {
    match a
    case ResolveSent => ResolveGrows(w);
    case MarkAndSend => MarkGrows(w);
    case CommitLease => CommitGrows(w);
    case _ => OtherWorkGrows(w, a);
  }

  lemma StepGrows(w: World, a: Action)
    requires Inv(w) && Enabled(w, a)
    ensures Grows(w, Next(w, a))
  {
    match a
    case Work(s) => WorkGrows(w, s);
    case Caller(c, s) => CallerGrows(w, c, s);
    case _ => EnvironmentGrows(w, a);
  }

  lemma {:induction false} RunGrows(ws: seq<World>, acts: seq<Action>, i: nat, j: nat)
    requires Run(ws, acts) && i <= j < |ws|
    ensures Grows(ws[i], ws[j])
    decreases j - i
  {
    if i < j {
      RunGrows(ws, acts, i, j - 1);
      RunStepGrows(ws, acts, j - 1);
    }
  }

  lemma RunStepGrows(ws: seq<World>, acts: seq<Action>, i: nat)
    requires Run(ws, acts) && i < |acts|
    ensures Grows(ws[i], ws[i + 1])
  {
    RunKeepsInv(ws, acts, i);
    StepGrows(ws[i], acts[i]);
  }

  /** A revision number names one direction for the rest of the run, the next
      number names the other one, and applied <= sent <= desired. */
  lemma RevisionNamesOneDirection(ws: seq<World>, acts: seq<Action>, i: nat, j: nat, revision: nat)
    requires Run(ws, acts) && i <= j < |ws| && 1 <= revision <= ws[i].p.desiredRevision
    ensures revision <= ws[j].p.desiredRevision == |ws[j].turns|
    ensures |ws[i].turns| == ws[i].p.desiredRevision && ws[j].turns[revision - 1] == ws[i].turns[revision - 1]
    ensures revision < ws[j].p.desiredRevision ==> ws[j].turns[revision] != ws[j].turns[revision - 1]
    ensures ws[j].p.desiredActive == ws[j].turns[ws[j].p.desiredRevision - 1]
    ensures ws[j].p.appliedRevision <= ws[j].p.sentRevision <= ws[j].p.desiredRevision
  {
    RunKeepsInv(ws, acts, i);
    RunKeepsInv(ws, acts, j);
    RunGrows(ws, acts, i, j);
  }

  /** Once the applied pair is the pair last sent, the incarnation that applied it
      is in the state its revision names, through lost replies and restarts. */
  lemma AppliedMeansNative(ws: seq<World>, acts: seq<Action>, i: nat)
    requires Run(ws, acts) && i < |ws|
    requires ws[i].p.appliedRevision > 0 && AllSentApplied(ws[i].p)
    ensures ws[i].p.appliedRevision <= |ws[i].turns| && ws[i].p.appliedInstance in ws[i].native
    ensures ws[i].native[ws[i].p.appliedInstance] == ws[i].turns[ws[i].p.appliedRevision - 1]
  {
    RunKeepsInv(ws, acts, i);
  }

  // ----- writes on the wire

  /** A truthful status fails to confirm the lease that was sent exactly when the
      incarnation (`active`) does not do what is desired, or reports a state that
      settles nothing. */
  lemma UnconfirmedExactly(p: Peer, reply: Reply, active: bool)
    requires p.sentInstance == p.bound && p.sentRevision == p.desiredRevision && p.sentRevision > 0
    requires Truthful(reply, active)
    ensures StatusEvents(p, reply) == [Unconfirmed(p.sentInstance, p.sentRevision)] <==>
              active != p.desiredActive || reply.state == Other
  {
  }

  /** The same revision goes to the same incarnation a second time only after a
      status read failed to confirm it, and never after it was confirmed. */
  lemma NoNeedlessReplay(ws: seq<World>, acts: seq<Action>, i: nat, p: nat, q: nat)
    requires Run(ws, acts) && i < |ws| && p < q < |ws[i].log|
    ensures ws[i].log[p].Write? && ws[i].log[q] == ws[i].log[p] ==>
              Unconfirmed(ws[i].log[p].instance, ws[i].log[p].revision) in ws[i].log[p..q]
    ensures ws[i].log[p].Confirm? ==> ws[i].log[q] != Write(ws[i].log[p].instance, ws[i].log[p].revision)
  {
    RunKeepsInv(ws, acts, i);
  }

  // ----- quiescence

  predicate Parked(w: World) {
    w.worker.ParkIdle? || w.worker.ParkConnected?
  }

  /** A parked worker that nobody is about to wake owes nothing: no invalidation
      is outstanding, and the lease desired was applied by the incarnation that it was
      last sent to. */
  lemma ParkedOwesNothing(ws: seq<World>, acts: seq<Action>, i: nat)
    requires Run(ws, acts) && i < |ws| && Parked(ws[i]) && !Signalled(ws[i])
    ensures !ws[i].p.invalidated
    ensures ws[i].p.desiredRevision == ws[i].p.sentRevision == ws[i].p.appliedRevision
    ensures ws[i].p.sentInstance == ws[i].p.appliedInstance
    ensures ws[i].worker.ParkConnected? <==> ws[i].p.connected
  {
    RunKeepsInv(ws, acts, i);
  }

  /** If it parked connected, the incarnation it is bound to does what the latest
      lease asks for. */
  lemma ParkedConnectedMeansNative(ws: seq<World>, acts: seq<Action>, i: nat)
    requires Run(ws, acts) && i < |ws| && ws[i].worker.ParkConnected? && !Signalled(ws[i])
    requires ws[i].p.desiredRevision > 0
    ensures ws[i].p.appliedInstance == ws[i].p.bound && ws[i].p.bound in ws[i].native
    ensures ws[i].native[ws[i].p.bound] == ws[i].p.desiredActive
  {
    RunKeepsInv(ws, acts, i);
  }

  lemma UncountedDepart(calls: map<nat, Call>)
    requires |Counted(calls)| == 0
    ensures forall c :: c in calls ==> Unsignalled(calls[c])
  {
    forall c | c in calls ensures Unsignalled(calls[c]) {
      assert c !in Counted(calls);
    }
  }

  /** If it parked without a connection, no lease is wanted and no caller is left. */
  lemma ParkedIdleMeansUnwanted(ws: seq<World>, acts: seq<Action>, i: nat)
    requires Run(ws, acts) && i < |ws| && ws[i].worker.ParkIdle? && !Signalled(ws[i])
    ensures !ws[i].p.desiredActive
    ensures ws[i].calls.Keys == {}
  {
    RunKeepsInv(ws, acts, i);
    UncountedDepart(ws[i].calls);
  }

  /** Nor does it strand a caller: one that still waits has been notified since it
      last looked. */
  lemma ParkedStrandsNobody(ws: seq<World>, acts: seq<Action>, i: nat, c: nat)
    requires Run(ws, acts) && i < |ws| && Parked(ws[i]) && !Signalled(ws[i]) && c in ws[i].calls
    ensures ws[i].calls[c].phase.AwaitBlocked? || ws[i].calls[c].phase.PollBlocked? ==>
              ws[i].calls[c].phase.generation < ws[i].p.changed
  {
    RunKeepsInv(ws, acts, i);
    if ws[i].worker.ParkIdle? {
      ParkedIdleMeansUnwanted(ws, acts, i);
    } else {
      assert CallOk(ws[i].p, ws[i].turns, ws[i].calls[c]);
    }
  }

  // ----- what success means

  /** A start or stop call succeeds only on the word of the incarnation that is
      bound at that moment: it acknowledged the caller's revision or a later one,
      and if nobody turned the lease since, in the direction asked for. */
  lemma SuccessIsCurrent(ws: seq<World>, acts: seq<Action>, i: nat, c: nat)
    requires Run(ws, acts) && i < |ws| && c in ws[i].calls
    requires ws[i].calls[c].phase.Poll? && ws[i].calls[c].request.Lease?
    requires LeaseLook(ws[i].p, ws[i].calls[c].revision).Proceed?
    ensures ws[i].p.bound != 0 && ws[i].p.appliedInstance == ws[i].p.bound
    ensures 1 <= ws[i].calls[c].revision <= ws[i].p.appliedRevision <= |ws[i].turns|
    ensures Confirm(ws[i].p.bound, ws[i].p.appliedRevision) in ws[i].log
    ensures ws[i].p.receipt.applied && ws[i].p.receipt.active == ws[i].turns[ws[i].p.appliedRevision - 1]
    ensures ws[i].p.appliedRevision == ws[i].calls[c].revision ==>
              ws[i].p.receipt.active == ws[i].calls[c].request.active
  {
    RunKeepsInv(ws, acts, i);
    assert CallOk(ws[i].p, ws[i].turns, ws[i].calls[c]);
  }
}
