/** Recordings of one source on top of its demand lease (mediamtx_recording.go).

    `starter` is the StartRecording call that holds recordingLifecycleMu, if one
    does. A registered recording is finalized by one thread whose place is its
    phase. Other users of the lease interleave freely; they leave alone the demand
    that the starter was granted. The source's `recordingID` is the lease's. */
module RecordingProtocol {
  import opened Basics
  import opened LeaseSections
  import opened Recordings
  import L = LeaseProtocol

  datatype Starter =
    | NoStarter
    | Checking
    | Acquiring
    | Preparing                       // holds a demand from here on
    | Enabling(id: nat, applied: bool)
    | Accepted(id: nat)
    | Registered(id: nat)
    | GivingUp

  datatype Phase =
    | Running
    | Begun                           // the stop was requested
    | Disabling
    | Scanning
    | Finishing(scan: Scan)
    | Persisting
    | Releasing                       // waits for recordingLifecycleMu
    | Retiring
    | Retired

  /** `disabled`: the disable call took effect. */
  datatype Item = Item(phase: Phase, disabled: bool, m: Manifest)

  datatype World = World(
    l: L.World,
    starter: Starter,
    items: map<nat, Item>,
    recorder: nat)                    // whose directory the native recorder writes to, 0: none

  function Start(kind: Kind): World {
    World(L.Start(kind), NoStarter, map[], 0)
  }

  /** StartRecording, under recordingLifecycleMu. */
  datatype StarterAction =
    | Begin | Check | AcquireReturns(ok: bool) | Prepare(ok: bool, given: nat)
    | EnableApplies | EnableReply(ok: bool) | Register(createdAt: int, stopped: bool) | HandOver | GiveUp

  /** A registered recording. */
  datatype ItemAction =
    | Flows | RequestStop(failure: Reason) | BeginStop
    | DisableApplies | DisableReply(ok: bool) | ScanReturns(scan: Scan)
    | Finish | PersistReply(ok: bool) | Release | Retire

  datatype Action = LeaseStep(l: L.Action) | StarterStep(s: StarterAction) | ItemStep(id: nat, r: ItemAction)

  /** Demands granted to the starter. */
  function Own(s: Starter): nat {
    if s.NoStarter? || s.Checking? || s.Acquiring? then 0 else 1
  }

  predicate LeaseEnabled(l: L.World, starter: Starter, a: L.Action) {
    && L.Enabled(l, a) && !a.StartRecording? && !a.FinishRecording?
    && (a.Release? ==> l.granted > Own(starter))
  }

  predicate StarterEnabled(w: World, a: StarterAction) {
    match a
    case Begin => w.starter.NoStarter?
    case Check => w.starter.Checking?
    case AcquireReturns(ok) => w.starter.Acquiring? && (ok ==> w.l.granted > 0)
    case Prepare(_, given) => w.starter.Preparing? && given != 0 && given !in w.items && given != w.recorder
    case EnableApplies => w.starter.Enabling?
    case EnableReply(ok) => w.starter.Enabling? && (ok ==> w.starter.applied)
    case Register(_, _) => w.starter.Accepted?
    case HandOver => w.starter.Registered? && L.Enabled(w.l, L.StartRecording(w.starter.id))
    case GiveUp => w.starter.GivingUp? && L.Enabled(w.l, L.Release(0))
  }

  ghost predicate ItemEnabled(item: Item, r: ItemAction, starter: Starter) {
    match r
    case Flows => !item.phase.Retired?
    case RequestStop(failure) => !item.phase.Retired? && (failure.NoReason? || failure.Requested?)
    case BeginStop => item.phase.Begun?
    case DisableApplies => item.phase.Disabling?
    case DisableReply(ok) => item.phase.Disabling? && (ok ==> item.disabled)
    case ScanReturns(scan) =>
      item.phase.Scanning? && ScanOk(scan, item.m.createdAt) && (scan.Err? ==> scan.error != NoReason)
    case Finish => item.phase.Finishing?
    case PersistReply(_) => item.phase.Persisting?
    case Release => item.phase.Releasing? && starter.NoStarter?
    case Retire => item.phase.Retiring?
  }

  ghost predicate Enabled(w: World, a: Action) {
    match a
    case LeaseStep(s) => LeaseEnabled(w.l, w.starter, s)
    case StarterStep(s) => StarterEnabled(w, s)
    case ItemStep(id, r) => id in w.items && id != 0 && ItemEnabled(w.items[id], r, w.starter)
  }

  function StarterNext(w: World, a: StarterAction): World
    requires StarterEnabled(w, a)
  {
    match a
    case Begin => w.(starter := Checking)
    case Check => w.(starter := if w.l.s.recording != 0 then NoStarter else Acquiring)
    case AcquireReturns(ok) => w.(starter := if ok then Preparing else NoStarter)
    case Prepare(ok, given) => w.(starter := if ok then Enabling(given, false) else GivingUp)
    case EnableApplies => w.(starter := Enabling(w.starter.id, true), recorder := w.starter.id)
    case EnableReply(ok) => w.(starter := if ok then Accepted(w.starter.id) else GivingUp)
    case Register(createdAt, stopped) =>
      if w.l.closing then w.(starter := GivingUp, recorder := if stopped then 0 else w.recorder)
      else w.(starter := Registered(w.starter.id), items := w.items[w.starter.id := Item(Running, false, New(createdAt))])
    case HandOver => w.(starter := NoStarter, l := L.Next(w.l, L.StartRecording(w.starter.id)))
    case GiveUp => w.(starter := NoStarter, l := L.Next(w.l, L.Release(0)))
  }

  ghost function ItemNext(item: Item, r: ItemAction, starter: Starter): Item
    requires ItemEnabled(item, r, starter)
  {
    match r
    case Flows => item.(m := MarkedActive(item.m))
    case RequestStop(failure) =>
      Item(if item.phase.Running? then Begun else item.phase, item.disabled,
           if failure.NoReason? then item.m else Note(item.m, failure))
    case BeginStop => item.(phase := Disabling, m := Stopped(item.m))
    case DisableApplies => item.(disabled := true)
    case DisableReply(ok) => item.(phase := Scanning, m := AfterDisable(item.m, ok))
    case ScanReturns(scan) => item.(phase := Finishing(scan), m := AfterScan(item.m, scan))
    case Finish => item.(phase := Persisting, m := Finished(item.m, item.phase.scan))
    case PersistReply(ok) => item.(phase := Releasing, m := AfterPersist(item.m, ok))
    case Release => item.(phase := Retiring)
    case Retire => item.(phase := Retired)
  }

  ghost function Next(w: World, a: Action): World
    requires Enabled(w, a)
  {
    match a
    case LeaseStep(s) => w.(l := L.Next(w.l, s))
    case StarterStep(s) => StarterNext(w, s)
    case ItemStep(id, r) =>
      World(if r.Release? then L.Next(w.l, L.FinishRecording(id)) else w.l, w.starter,
            w.items[id := ItemNext(w.items[id], r, w.starter)], if r.DisableApplies? then 0 else w.recorder)
  }

  // ----- invariant

  /** The recording still counts as demand. */
  predicate Held(phase: Phase) {
    !phase.Retiring? && !phase.Retired?
  }

  predicate Past(s: Starter) {
    !s.NoStarter? && !s.Checking?
  }

  /** The starter, the lease's recording and the recordings that count agree on who is
      underway. */
  predicate Underway(recording: nat, starter: Starter, items: map<nat, Item>) {
    && 0 !in items
    && (forall id :: id in items && Held(items[id].phase) ==> recording == id || starter == Registered(id))
    && (recording != 0 ==> recording in items && Held(items[recording].phase))
    && (Past(starter) ==> recording == 0)
    && (starter.Registered? ==> starter.id in items && Held(items[starter.id].phase))
    && (starter.Enabling? || starter.Accepted? ==> starter.id != 0 && starter.id !in items)
  }

  /** The native recorder writes where the recording underway wants it. */
  predicate Written(starter: Starter, items: map<nat, Item>, recorder: nat) {
    && (starter.Enabling? ==> (starter.applied <==> recorder == starter.id))
    && (starter.Accepted? ==> recorder == starter.id)
    && forall id :: id in items ==>
         && (items[id].phase.Running? || items[id].phase.Begun? ==> recorder == id && !items[id].disabled)
         && (items[id].disabled ==> recorder != id)
  }

  ghost predicate ItemOk(item: Item) {
    var m := item.m;
    match item.phase
    case Running => Rank(m.state) <= 1
    case Begun => Rank(m.state) <= 1
    case Disabling => m.state.Stopping?
    case Scanning => m.state.Stopping? && (m.reason.NoReason? ==> item.disabled)
    case Finishing(scan) =>
      && m.state.Stopping? && (m.reason.NoReason? ==> item.disabled && scan.Ok?)
      && ScanOk(scan, m.createdAt)
    case _ => Rank(m.state) >= 3 && (m.state.Completed? ==> item.disabled && Complete(m))
  }

  ghost predicate Inv(w: World) {
    && L.Inv(w.l)
    && Own(w.starter) <= w.l.granted
    && Underway(w.l.s.recording, w.starter, w.items)
    && Written(w.starter, w.items, w.recorder)
    && forall id :: id in w.items ==> ItemOk(w.items[id])
  }

  // ----- every step keeps it

  /** Nobody else touches the recording, or the starter's demand. */
  lemma LeaseLeaves(l: L.World, starter: Starter, s: L.Action, k: L.World)
    requires LeaseEnabled(l, starter, s) && Own(starter) <= l.granted && k == L.Next(l, s)
    ensures k.s.recording == l.s.recording && Own(starter) <= k.granted
  {
    L.StepFrame(l, s, k);
  }

  lemma StarterKeepsInv(w: World, a: StarterAction, v: World)
    requires Inv(w) && StarterEnabled(w, a) && !a.HandOver? && !a.GiveUp? && v == StarterNext(w, a)
    ensures Inv(v)
  {
  }

  lemma StarterEndsKeepInv(w: World, a: StarterAction, v: World)
    requires Inv(w) && StarterEnabled(w, a) && (a.HandOver? || a.GiveUp?) && v == StarterNext(w, a)
    ensures Inv(v)
  {
    var s := if a.HandOver? then L.StartRecording(w.starter.id) else L.Release(0);
    L.StepKeepsInv(w.l, s);
    L.StepFrame(w.l, s, v.l);
  }

  lemma ItemStaysOk(item: Item, r: ItemAction, starter: Starter, next: Item)
    requires ItemOk(item) && ItemEnabled(item, r, starter) && next == ItemNext(item, r, starter)
    ensures ItemOk(next)
    ensures Rank(item.m.state) <= Rank(next.m.state)
    ensures Held(next.phase) == (Held(item.phase) && !r.Release?)
  {
  }

  lemma ItemStaysWritten(w: World, id: nat, r: ItemAction, v: World)
    requires Inv(w) && Enabled(w, ItemStep(id, r)) && v == Next(w, ItemStep(id, r))
    ensures Written(v.starter, v.items, v.recorder)
  {
  }

  lemma ItemStaysUnderway(w: World, id: nat, r: ItemAction, v: World)
    requires Inv(w) && Enabled(w, ItemStep(id, r)) && v == Next(w, ItemStep(id, r))
    ensures Underway(v.l.s.recording, v.starter, v.items) && L.Inv(v.l) && Own(v.starter) <= v.l.granted
  {
    ItemStaysOk(w.items[id], r, w.starter, v.items[id]);
    if r.Release? {
      L.StepKeepsInv(w.l, L.FinishRecording(id));
      L.StepFrame(w.l, L.FinishRecording(id), v.l);
    }
  }

  lemma StepKeepsInv(w: World, a: Action, v: World)
    requires Inv(w) && Enabled(w, a) && v == Next(w, a)
    ensures Inv(v)
  {
    match a
    case LeaseStep(s) =>
      L.StepKeepsInv(w.l, s);
      LeaseLeaves(w.l, w.starter, s, v.l);
    case StarterStep(s) =>
      if s.HandOver? || s.GiveUp? {
        StarterEndsKeepInv(w, s, v);
      } else {
        StarterKeepsInv(w, s, v);
      }
    case ItemStep(id, r) =>
      ItemStaysOk(w.items[id], r, w.starter, v.items[id]);
      ItemStaysWritten(w, id, r, v);
      ItemStaysUnderway(w, id, r, v);
  }

  // ----- over every run

  ghost predicate Run(kind: Kind, ws: seq<World>, acts: seq<Action>) {
    && |ws| == |acts| + 1
    && ws[0] == Start(kind)
    && forall i {:trigger acts[i]} :: 0 <= i < |acts| ==> Enabled(ws[i], acts[i]) && ws[i + 1] == Next(ws[i], acts[i])
  }

  lemma {:induction false} RunKeepsInv(kind: Kind, ws: seq<World>, acts: seq<Action>, i: nat)
    requires Run(kind, ws, acts) && i < |ws|
    ensures Inv(ws[i])
  {
    if i > 0 {
      RunKeepsInv(kind, ws, acts, i - 1);
      StepKeepsInv(ws[i - 1], acts[i - 1], ws[i]);
    }
  }

  /** The starter's steps on the lease are never refused: no guard was added to them. */
  lemma LeaseTakesTheStarter(kind: Kind, ws: seq<World>, acts: seq<Action>, i: nat)
    requires Run(kind, ws, acts) && i < |ws|
    ensures ws[i].starter.Registered? ==> L.Enabled(ws[i].l, L.StartRecording(ws[i].starter.id))
    ensures ws[i].starter.GivingUp? ==> L.Enabled(ws[i].l, L.Release(0))
  {
    RunKeepsInv(kind, ws, acts, i);
  }

  /** A recording is demand without a gap, from the grant to the end of finalization:
      all that time the source has a consumer, and until the edge closes its lease is
      active and no stop of it is under way. */
  lemma DemandWithoutGap(kind: Kind, ws: seq<World>, acts: seq<Action>, i: nat, id: nat)
    requires Run(kind, ws, acts) && i < |ws|
    requires Own(ws[i].starter) == 1 || (id in ws[i].items && Held(ws[i].items[id].phase))
    ensures HasConsumers(ws[i].l.s) && !L.StopInFlight(ws[i].l.life)
    ensures !ws[i].l.closing ==> ws[i].l.s.active
  {
    RunKeepsInv(kind, ws, acts, i);
  }

  /** At most one recording of a source is between its registration and the end of its
      finalization. */
  lemma OneAtATime(kind: Kind, ws: seq<World>, acts: seq<Action>, i: nat, a: nat, b: nat)
    requires Run(kind, ws, acts) && i < |ws|
    requires a in ws[i].items && Held(ws[i].items[a].phase)
    requires b in ws[i].items && Held(ws[i].items[b].phase)
    ensures a == b
  {
    RunKeepsInv(kind, ws, acts, i);
  }

  predicate ScanReturned(phase: Phase) {
    phase.Finishing? || phase.Persisting? || phase.Releasing? || phase.Retiring? || phase.Retired?
  }

  /** While another recording is being enabled, every earlier one has had its disable
      call and its segment scan return. */
  lemma SecondWaitsForTheFirst(kind: Kind, ws: seq<World>, acts: seq<Action>, i: nat, id: nat)
    requires Run(kind, ws, acts) && i < |ws|
    requires ws[i].starter.Enabling? || ws[i].starter.Accepted?
    requires id in ws[i].items
    ensures ScanReturned(ws[i].items[id].phase) && !Held(ws[i].items[id].phase)
  {
    RunKeepsInv(kind, ws, acts, i);
  }

  /** Until it is asked to stop, a recording has the native recorder to itself; and once
      completed, the recorder never writes into it. */
  lemma RecorderFollows(kind: Kind, ws: seq<World>, acts: seq<Action>, i: nat, id: nat)
    requires Run(kind, ws, acts) && i < |ws| && id in ws[i].items
    ensures ws[i].items[id].phase.Running? ==> ws[i].recorder == id
    ensures ws[i].items[id].m.state.Completed? ==> ws[i].recorder != id
  {
    RunKeepsInv(kind, ws, acts, i);
    assert ItemOk(ws[i].items[id]);
  }

  /** A completed recording has segments, numbered from 1 without a gap in time, and
      their sizes add up to its own. */
  lemma CompletedIsComplete(kind: Kind, ws: seq<World>, acts: seq<Action>, i: nat, id: nat)
    requires Run(kind, ws, acts) && i < |ws| && id in ws[i].items && ws[i].items[id].m.state.Completed?
    ensures Complete(ws[i].items[id].m)
  {
    RunKeepsInv(kind, ws, acts, i);
    assert ItemOk(ws[i].items[id]);
  }

  /** Finalization completes a recording exactly when no failure was noted and the scan
      brought segments; then its disable call is known to have taken effect. */
  lemma CompletesUnlessFailed(kind: Kind, ws: seq<World>, acts: seq<Action>, i: nat, id: nat)
    requires Run(kind, ws, acts) && i < |acts| && acts[i] == ItemStep(id, Finish)
    ensures id in ws[i].items && id in ws[i + 1].items && ws[i].items[id].phase.Finishing?
    ensures ws[i + 1].items[id].m.state.Completed? <==>
              ws[i].items[id].m.reason.NoReason? && ws[i].items[id].phase.scan.Ok? && ws[i].items[id].phase.scan.value != []
    ensures !ws[i + 1].items[id].m.state.Completed? ==> ws[i + 1].items[id].m.state.Failed? && !ws[i + 1].items[id].m.reason.NoReason?
    ensures ws[i + 1].items[id].m.state.Completed? ==> ws[i].items[id].disabled
  {
    RunKeepsInv(kind, ws, acts, i);
    assert Enabled(ws[i], acts[i]) && ws[i + 1] == Next(ws[i], acts[i]);
    assert ItemOk(ws[i].items[id]);
  }

  /** A recording that exists stays, and its state has not moved back. */
  ghost predicate Forward(before: map<nat, Item>, after: map<nat, Item>, id: nat) {
    id in before && id in after && Rank(before[id].m.state) <= Rank(after[id].m.state) && before[id].m.createdAt == after[id].m.createdAt
  }

  lemma StepMovesForward(w: World, a: Action, v: World, id: nat)
    requires Inv(w) && Enabled(w, a) && v == Next(w, a) && id in w.items
    ensures Forward(w.items, v.items, id)
  {
    if a.ItemStep? && a.id == id {
      ItemStaysOk(w.items[id], a.r, w.starter, v.items[id]);
    }
  }

  lemma RunMovesForward(kind: Kind, ws: seq<World>, acts: seq<Action>, j: nat, id: nat)
    requires Run(kind, ws, acts) && j < |acts| && id in ws[j].items
    ensures Forward(ws[j].items, ws[j + 1].items, id)
  {
    RunKeepsInv(kind, ws, acts, j);
    StepMovesForward(ws[j], acts[j], ws[j + 1], id);
  }

  /** States only move forward: waiting, recording, stopping, completed, failed. */
  lemma {:induction false} StatesMoveForward(kind: Kind, ws: seq<World>, acts: seq<Action>, i: nat, j: nat, id: nat)
    requires Run(kind, ws, acts) && i <= j < |ws| && id in ws[i].items
    ensures id in ws[j].items && Forward(ws[i].items, ws[j].items, id)
  {
    if i < j {
      StatesMoveForward(kind, ws, acts, i, j - 1, id);
      RunMovesForward(kind, ws, acts, j - 1, id);
    }
  }

  // ----- failures

  /** A failure has been noted. */
  predicate Doomed(m: Manifest) {
    !m.reason.NoReason? && !m.state.Completed?
  }

  lemma StepStaysDoomed(w: World, a: Action, v: World, id: nat)
    requires Inv(w) && Enabled(w, a) && v == Next(w, a) && id in w.items && Doomed(w.items[id].m)
    ensures id in v.items && Doomed(v.items[id].m)
  {
  }

  lemma RunStaysDoomed(kind: Kind, ws: seq<World>, acts: seq<Action>, j: nat, id: nat)
    requires Run(kind, ws, acts) && j < |acts| && id in ws[j].items && Doomed(ws[j].items[id].m)
    ensures id in ws[j + 1].items && Doomed(ws[j + 1].items[id].m)
  {
    RunKeepsInv(kind, ws, acts, j);
    StepStaysDoomed(ws[j], acts[j], ws[j + 1], id);
  }

  lemma {:induction false} DoomedForGood(kind: Kind, ws: seq<World>, acts: seq<Action>, i: nat, j: nat, id: nat)
    requires Run(kind, ws, acts) && i <= j < |ws| && id in ws[i].items && Doomed(ws[i].items[id].m)
    ensures id in ws[j].items && Doomed(ws[j].items[id].m)
    decreases j - i
  {
    if i < j {
      DoomedForGood(kind, ws, acts, i, j - 1, id);
      RunStaysDoomed(kind, ws, acts, j - 1, id);
    }
  }

  /** What makes a recording fail. */
  predicate Spoils(r: ItemAction) {
    (r.RequestStop? && r.failure.Requested?) || r == DisableReply(false) || (r.ScanReturns? && r.scan.Err?) || r == PersistReply(false)
  }

  /** A recording that was stopped for a failure, whose disable call, scan or last write
      failed, never counts as completed afterwards; unless it had completed before. */
  lemma FailuresAreFinal(kind: Kind, ws: seq<World>, acts: seq<Action>, i: nat, j: nat, id: nat, r: ItemAction)
    requires Run(kind, ws, acts) && i < j < |ws| && acts[i] == ItemStep(id, r) && Spoils(r)
    ensures id in ws[i].items && id in ws[j].items
    ensures !ws[i].items[id].m.state.Completed? || r == PersistReply(false) ==>
              !ws[j].items[id].m.state.Completed? && !ws[j].items[id].m.reason.NoReason?
  {
    RunKeepsInv(kind, ws, acts, i);
    assert Enabled(ws[i], acts[i]) && ws[i + 1] == Next(ws[i], acts[i]);
    StatesMoveForward(kind, ws, acts, i, j, id);
    if !ws[i].items[id].m.state.Completed? || r == PersistReply(false) {
      DoomedForGood(kind, ws, acts, i + 1, j, id);
    }
  }
}
