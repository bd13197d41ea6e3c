/** The demand lease of one media source (mediamtx_server.go): who wants the
    source, whether its lease is active, and who has to give it back.

    `Lease` holds the fields that `source.mu` guards. Each function is one
    section under that mutex; the class `SourceLease` performs the sections on
    its fields. The interleavings are in `LeaseProtocol`. */
module LeaseSections {

  datatype Kind = Camera | Pipeline

  datatype Lease = Lease(
    pending: nat,               // demands that are not a session or a recording yet
    sessions: set<nat>,
    recording: nat,             // 0: none
    active: bool,
    uncertain: bool,            // deactivateUncertain
    epoch: nat,                 // deactivateEpoch
    armed: bool,                // deactivateTimer is set and has not fired
    armedEpoch: nat)            // the epoch its callback carries

  const UNUSED := Lease(0, {}, 0, false, false, 0, false, 0)

  predicate HasConsumers(s: Lease) {
    s.pending != 0 || s.sessions != {} || s.recording != 0
  }

  function CancelTimer(s: Lease): Lease {
    s.(epoch := s.epoch + 1, armed := false)
  }

  /** First section of `acquire`: the demand counts from here on. */
  function Demand(s: Lease): Lease {
    s.(pending := s.pending + 1, epoch := s.epoch + 1, armed := false)
  }

  /** A pipeline lease that is confirmed active needs no further start. */
  predicate SharesLease(s: Lease, kind: Kind) {
    s.active && !s.uncertain && kind.Pipeline?
  }

  /** A start that failed: its lost reply can follow an applied activation. */
  function FailDemand(s: Lease): Lease
    requires s.pending > 0
  {
    s.(pending := s.pending - 1, active := true, uncertain := true)
  }

  function ConfirmDemand(s: Lease): Lease {
    s.(active := true, uncertain := false)
  }

  function ReleasePending(s: Lease, session: nat): Lease {
    s.(pending := if s.pending > 0 then s.pending - 1 else 0,
       sessions := if session != 0 then s.sessions + {session} else s.sessions)
  }

  function RemoveSession(s: Lease, session: nat): Lease {
    s.(sessions := s.sessions - {session})
  }

  /** StartRecording hands its pending demand to the recording in one section. */
  function BeginRecording(s: Lease, recording: nat): Lease {
    s.(pending := if s.pending > 0 then s.pending - 1 else 0, recording := recording)
  }

  function EndRecording(s: Lease, recording: nat): Lease {
    if s.recording == recording then s.(recording := 0) else s
  }

  predicate Unused(s: Lease) {
    s.active && !HasConsumers(s)
  }

  function Schedule(s: Lease): Lease {
    if Unused(s) then s.(epoch := s.epoch + 1, armed := true, armedEpoch := s.epoch + 1) else s
  }

  /** Whether a deactivation that carries `epoch` is still the owner of the stop. */
  predicate StillOwed(s: Lease, epoch: nat) {
    epoch == s.epoch && Unused(s)
  }

  function DisarmTimer(s: Lease): Lease {
    s.(armed := false)
  }

  /** The reply of a stop. A camera peer keeps retrying on its own; a pipeline
      lease stays active and arms the retry, if the epoch is still its own. */
  function StopReplied(s: Lease, epoch: nat, kind: Kind, ok: bool, cancelled: bool): Lease {
    if ok then s.(active := false, uncertain := false)
    else if kind.Camera? then s.(active := false, uncertain := true)
    else if !cancelled && epoch == s.epoch && !HasConsumers(s) then s.(uncertain := true, armed := true, armedEpoch := epoch)
    else s.(uncertain := true)
  }

  /** The lease with its fields updated in place. */
  class SourceLease {
    const kind: Kind
    var pending: nat
    var sessions: set<nat>
    var recording: nat
    var active: bool
    var uncertain: bool
    var epoch: nat
    var armed: bool
    var armedEpoch: nat

    function View(): Lease
      reads this
    {
      Lease(pending, sessions, recording, active, uncertain, epoch, armed, armedEpoch)
    }

    constructor (kind: Kind)
      ensures View() == UNUSED && this.kind == kind
    {
      this.kind := kind;
      pending, sessions, recording := 0, {}, 0;
      active, uncertain, epoch, armed, armedEpoch := false, false, 0, false, 0;
    }

    method HasConsumersLocked() returns (used: bool)
      ensures used == HasConsumers(View())
    {
      used := pending != 0 || sessions != {} || recording != 0;
    }

    method CancelTimerLocked()
      modifies this
      ensures View() == CancelTimer(old(View()))
    {
      epoch := epoch + 1;
      if armed {
        armed := false;
      }
    }

    method DemandSection() returns (shares: bool)
      modifies this
      ensures View() == Demand(old(View()))
      ensures shares == SharesLease(View(), kind)
    {
      pending := pending + 1;
      CancelTimerLocked();
      shares := active && !uncertain && kind.Pipeline?;
    }

    method FailDemandSection() returns (unused: bool)
      requires pending > 0
      modifies this
      ensures View() == FailDemand(old(View()))
      ensures unused == !HasConsumers(View())
    {
      pending := pending - 1;
      active := true;
      uncertain := true;
      var used := HasConsumersLocked();
      unused := !used;
    }

    method ConfirmDemandSection()
      modifies this
      ensures View() == ConfirmDemand(old(View()))
    {
      active := true;
      uncertain := false;
    }

    method ReleasePendingSection(session: nat) returns (unused: bool)
      modifies this
      ensures View() == ReleasePending(old(View()), session)
      ensures unused == Unused(View())
    {
      if pending > 0 {
        pending := pending - 1;
      }
      if session != 0 {
        sessions := sessions + {session};
      }
      var used := HasConsumersLocked();
      unused := !used && active;
    }

    method RemoveSessionSection(session: nat) returns (empty: bool)
      modifies this
      ensures View() == RemoveSession(old(View()), session)
      ensures empty == !HasConsumers(View())
    {
      sessions := sessions - {session};
      var used := HasConsumersLocked();
      empty := !used;
    }

    method BeginRecordingSection(id: nat)
      modifies this
      ensures View() == BeginRecording(old(View()), id)
    {
      if pending > 0 {
        pending := pending - 1;
      }
      recording := id;
    }

    method EndRecordingSection(id: nat) returns (unused: bool)
      modifies this
      ensures View() == EndRecording(old(View()), id)
      ensures unused == !HasConsumers(View())
    {
      if recording == id {
        recording := 0;
      }
      var used := HasConsumersLocked();
      unused := !used;
    }

    /** scheduleDeactivate: arm the timer for an unused lease. */
    method ScheduleSection()
      modifies this
      ensures View() == Schedule(old(View()))
      ensures if Unused(old(View())) then epoch == old(epoch) + 1 && armed && armedEpoch == epoch else View() == old(View())
    {
      var used := HasConsumersLocked();
      if !active || used {
        return;
      }
      CancelTimerLocked();
      armed := true;
      armedEpoch := epoch;
    }

    /** deactivateUnusedNow: take the duty to stop under a new epoch. */
    method ClaimStopSection() returns (claimed: bool, mine: nat)
      modifies this
      ensures claimed == Unused(old(View()))
      ensures View() == if claimed then CancelTimer(old(View())) else old(View())
      ensures mine == epoch
    {
      var used := HasConsumersLocked();
      claimed := active && !used;
      if claimed {
        CancelTimerLocked();
      }
      mine := epoch;
    }

    /** deactivateIfUnused, before the stop. */
    method CheckStopSection(mine: nat) returns (owed: bool)
      modifies this
      ensures owed == StillOwed(old(View()), mine)
      ensures View() == if owed then DisarmTimer(old(View())) else old(View())
    {
      var used := HasConsumersLocked();
      owed := mine == epoch && active && !used;
      if owed {
        armed := false;
      }
    }

    method StopRepliedSection(mine: nat, ok: bool, cancelled: bool)
      modifies this
      ensures View() == StopReplied(old(View()), mine, kind, ok, cancelled)
    {
      if !ok {
        uncertain := true;
        if kind.Camera? {
          active := false;
          return;
        }
        var used := HasConsumersLocked();
        if !cancelled && mine == epoch && !used {
          armed := true;
          armedEpoch := mine;
        }
        return;
      }
      active := false;
      uncertain := false;
    }

    // ----- whole operations, under lifecycleMu

    /** acquire. A demand is granted on a confirmed lease only; one that fails leaves no
        demand, but a lease that may be active, and if nobody else wants it, an armed
        timer to give it back. */
    method Acquire(startOk: bool) returns (granted: bool, called: bool)
      modifies this
      ensures called == !(kind.Pipeline? && old(active) && !old(uncertain))
      ensures granted == (!called || startOk)
      ensures granted ==> pending == old(pending) + 1 && active && !uncertain && epoch == old(epoch) + 1 && !armed
      ensures !granted ==> pending == old(pending) && active && uncertain && epoch > old(epoch)
      ensures !granted && !HasConsumers(View()) ==> armed && armedEpoch == epoch
      ensures sessions == old(sessions) && recording == old(recording)
    {
      var shares := DemandSection();
      if shares {
        return true, false;
      }
      if startOk {
        ConfirmDemandSection();
        return true, true;
      }
      var unused := FailDemandSection();
      if unused {
        ScheduleSection();
      }
      return false, true;
    }

    /** deactivateIfUnused. Only the owner of the current epoch stops, and only an unused
        lease; a stop that failed leaves a camera to its peer and a pipeline active with a
        timer for the next attempt. */
    method Deactivate(mine: nat, stopOk: bool, cancelled: bool) returns (called: bool)
      modifies this
      ensures called == (mine == old(epoch) && Unused(old(View())))
      ensures !called ==> View() == old(View())
      ensures called && stopOk ==> !active && !uncertain && !armed
      ensures called && !stopOk && kind.Camera? ==> !active && uncertain
      ensures called && !stopOk && kind.Pipeline? ==> active && uncertain && armed == !cancelled && (armed ==> armedEpoch == epoch)
      ensures epoch == old(epoch) && pending == old(pending) && sessions == old(sessions) && recording == old(recording)
    {
      called := CheckStopSection(mine);
      if called {
        StopRepliedSection(mine, stopOk, cancelled);
      }
    }

    /** The last demand that ends gives the lease back: after a granted demand of an
        otherwise unused source is released and its stop confirmed, the lease is as it was
        but for its epoch. */
    method UseOnce() returns (granted: bool)
      requires View() == UNUSED.(epoch := epoch)
      modifies this
      ensures granted && View() == UNUSED.(epoch := epoch, armedEpoch := armedEpoch) && epoch == old(epoch) + 2
    {
      var called;
      granted, called := Acquire(true);
      var unused := ReleasePendingSection(0);
      var claimed, mine := ClaimStopSection();
      called := Deactivate(mine, true, false);
    }
  }
}
