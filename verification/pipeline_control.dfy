/** The state of a pipeline source (pipeline_source.go) and its sections.

    `Control` holds the fields that `control.mu` guards. Runs are numbered; 0
    stands for no run. The class `PipelineControl` performs the sections on its
    fields; how they interleave with runs that end on their own is in
    `PipelineProtocol`. */
module PipelineSections {

  datatype State = Idle | Starting | Active | Stopping | Faulted

  datatype Control = Control(
    state: State,
    desiredActive: bool,
    run: nat,               // 0: none recorded
    generation: nat,
    lastError: bool,
    closed: bool)

  const FRESH_CONTROL := Control(Idle, false, 0, 0, false, false)

  datatype Entry = Refused | Already | Go

  function StartEntry(c: Control): Entry {
    if c.closed then Refused else if c.run != 0 && c.state == Active then Already else Go
  }

  function EnterStart(c: Control): Control {
    match StartEntry(c)
    case Refused => c
    case Already => c.(desiredActive := true)
    case Go => c.(desiredActive := true, state := Starting)
  }

  function Fail(c: Control): Control {
    c.(state := Faulted, lastError := true)
  }

  function RecordRun(c: Control, run: nat): Control {
    c.(generation := c.generation + 1, run := run)
  }

  function SettleRun(c: Control, run: nat): Control {
    if c.run == run && c.state == Starting then c.(state := Active, lastError := false) else c
  }

  function RunEnded(c: Control, run: nat, stopping: bool): Control {
    if c.run != run then c
    else if stopping then c.(run := 0, state := Idle)
    else c.(run := 0, state := Faulted, lastError := true)
  }

  function EnterStop(c: Control): Control {
    if c.run == 0 then c.(desiredActive := false, state := Idle, lastError := false)
    else c.(desiredActive := false, state := Stopping)
  }

  function FinishStop(c: Control, run: nat): Control {
    c.(run := if c.run == run then 0 else c.run, state := Idle, lastError := false)
  }

  datatype KeyframeEntry = NotRunning | Coalesced | Restart

  function KeyframeCheck(c: Control, young: bool): KeyframeEntry {
    if c.run == 0 || c.state != Active then NotRunning else if young then Coalesced else Restart
  }

  function EnterKeyframe(c: Control, young: bool): Control {
    if KeyframeCheck(c, young).Restart? then c.(state := Stopping) else c
  }

  function ForgetRun(c: Control, run: nat): Control {
    if c.run == run then c.(run := 0) else c
  }

  function EnterClose(c: Control): Control {
    c.(closed := true, desiredActive := false, run := 0, state := Idle)
  }

  /** How a new run fares until its start returns: it lives, its end is seen, or the
      settling time is over first. */
  datatype Fate = Lives | EndSeen | EndMissed

  /** The control with its fields updated in place. */
  class PipelineControl {
    var state: State
    var desiredActive: bool
    var run: nat
    var generation: nat
    var lastError: bool
    var closed: bool

    function View(): Control
      reads this
    {
      Control(state, desiredActive, run, generation, lastError, closed)
    }

    constructor ()
      ensures View() == FRESH_CONTROL
    {
      state, desiredActive, run, generation, lastError, closed := Idle, false, 0, 0, false, false;
    }

    method StartSection() returns (entry: Entry)
      modifies this
      ensures entry == StartEntry(old(View()))
      ensures View() == EnterStart(old(View()))
    {
      if closed {
        return Refused;
      }
      desiredActive := true;
      if run != 0 && state == Active {
        return Already;
      }
      state := Starting;
      return Go;
    }

    method FailSection()
      modifies this
      ensures View() == Fail(old(View()))
    {
      state := Faulted;
      lastError := true;
    }

    method RecordSection(launched: nat)
      modifies this
      ensures View() == RecordRun(old(View()), launched)
    {
      generation := generation + 1;
      run := launched;
    }

    method SettleSection(launched: nat)
      modifies this
      ensures View() == SettleRun(old(View()), launched)
    {
      if run == launched && state == Starting {
        state := Active;
        lastError := false;
      }
    }

    method RunEndedSection(ended: nat, stopping: bool)
      modifies this
      ensures View() == RunEnded(old(View()), ended, stopping)
    {
      if run != ended {
        return;
      }
      run := 0;
      if stopping {
        state := Idle;
        return;
      }
      state := Faulted;
      lastError := true;
    }

    method StopSection() returns (toEnd: nat)
      modifies this
      ensures View() == EnterStop(old(View()))
      ensures toEnd == old(run)
    {
      desiredActive := false;
      toEnd := run;
      if toEnd == 0 {
        state := Idle;
        lastError := false;
        return;
      }
      state := Stopping;
    }

    method FinishStopSection(ended: nat)
      modifies this
      ensures View() == FinishStop(old(View()), ended)
    {
      if run == ended {
        run := 0;
      }
      state := Idle;
      lastError := false;
    }

    method KeyframeSection(young: bool) returns (entry: KeyframeEntry, toEnd: nat)
      modifies this
      ensures entry == KeyframeCheck(old(View()), young)
      ensures entry.Restart? <==> old(run) != 0 && old(state) == Active && !young
      ensures entry.Coalesced? <==> old(run) != 0 && old(state) == Active && young
      ensures state == if entry.Restart? then Stopping else old(state)
      ensures View() == EnterKeyframe(old(View()), young)
      ensures toEnd == old(run)
    {
      toEnd := run;
      if run == 0 || state != Active {
        return NotRunning, toEnd;
      }
      if young {
        return Coalesced, toEnd;
      }
      state := Stopping;
      return Restart, toEnd;
    }

    method ForgetSection(ended: nat)
      modifies this
      ensures View() == ForgetRun(old(View()), ended)
    {
      if run == ended {
        run := 0;
      }
    }

    method CloseSection() returns (toEnd: nat)
      modifies this
      ensures View() == EnterClose(old(View()))
      ensures toEnd == old(run)
    {
      closed := true;
      desiredActive := false;
      toEnd := run;
      run := 0;
      state := Idle;
    }

    // ----- whole operations, under opMu

    /** What holds whenever opMu is free. */
    predicate AtRest()
      reads this
    {
      && (run != 0 <==> state == Active)
      && (state == Idle || state == Active || state == Faulted)
      && (closed ==> run == 0)
    }

    /** startLocked, from rest or after a keyframe request ended the run. `watched`: its watcher recorded
        the end already. A start that misses the end reports success. */
    method StartLocked(prepared: bool, launched: nat, fate: Fate, watched: bool) returns (ok: bool)
      requires AtRest() || (run == 0 && !closed)
      modifies this
      ensures AtRest() && closed == old(closed)
      ensures old(closed) ==> !ok && View() == old(View())
      ensures !old(closed) ==> desiredActive
      ensures !old(closed) && old(run) != 0 ==> ok && run == old(run) && generation == old(generation)
      ensures !old(closed) && old(run) == 0 ==> ok == (prepared && launched != 0 && !fate.EndSeen?)
      ensures !old(closed) && old(run) == 0 && ok && fate.Lives? ==>
                state == Active && run == launched && generation == old(generation) + 1 && !lastError
      ensures !old(closed) && !ok ==> state == Faulted && run == 0 && lastError
    {
      var entry := StartSection();
      if entry.Refused? {
        return false;
      }
      if entry.Already? {
        return true;
      }
      if !prepared || launched == 0 {
        FailSection();
        return false;
      }
      RecordSection(launched);
      if !fate.Lives? && watched {
        RunEndedSection(launched, false);
      }
      if fate.EndSeen? {
        RunEndedSection(launched, false);
        return false;
      }
      SettleSection(launched);
      return true;
    }

    /** A stop leaves nothing recorded, whether the run's watcher comes first or not. */
    method Stop(watched: bool)
      requires AtRest()
      modifies this
      ensures AtRest() && run == 0 && state == Idle && !desiredActive && !lastError
      ensures closed == old(closed) && generation == old(generation)
    {
      var toEnd := StopSection();
      if toEnd != 0 {
        if watched {
          RunEndedSection(toEnd, true);
        }
        FinishStopSection(toEnd);
      }
    }

    /** A keyframe request restarts a running pipeline exactly when it is not young; the old
        run is forgotten before the new one starts. */
    method RequestKeyframe(young: bool, watched: bool, prepared: bool, launched: nat, fate: Fate) returns (entry: KeyframeEntry)
      requires AtRest()
      modifies this
      ensures AtRest() && closed == old(closed)
      ensures entry.NotRunning? <==> old(run) == 0
      ensures entry.Coalesced? <==> old(run) != 0 && young
      ensures entry.Restart? <==> old(run) != 0 && !young
      ensures !entry.Restart? ==> View() == old(View())
      ensures entry.Restart? && prepared && launched != 0 && fate.Lives? ==>
                state == Active && run == launched && generation == old(generation) + 1
      ensures entry.Restart? && !(prepared && launched != 0 && !fate.EndSeen?) ==> state == Faulted && run == 0 && lastError
    {
      var toEnd;
      entry, toEnd := KeyframeSection(young);
      if entry.Restart? {
        if watched {
          RunEndedSection(toEnd, true);
        }
        ForgetSection(toEnd);
        var _ := StartLocked(prepared, launched, fate, false);
      }
    }

    /** A close is for good: nothing is recorded, and every later start is refused. */
    method Close() returns (toEnd: nat)
      requires AtRest()
      modifies this
      ensures AtRest() && closed && run == 0 && state == Idle && !desiredActive && toEnd == old(run)
    {
      toEnd := CloseSection();
    }
  }
}
