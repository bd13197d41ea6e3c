# media-edge lease control plane, modelled and proved in Dafny

media-edge turns viewers, recordings and captures into demand for a media source, and demand into
exactly one start or stop at the process that owns the camera or the encoder. This project models
that control plane and proves what it keeps in every interleaving of its threads with sources that
restart, replies that get lost, timers and pipelines that end on their own.

Run `dafny verify dfyconfig.toml` here to check everything.

## How the model is built

Each concurrent part has two layers.

- **Sections.** What a mutex guards is a datatype, every critical section is a function on it, and a
  class with the original's fields performs the same sections in place (`CameraPeer`, `SourceLease`,
  `PipelineControl`, `WhepSession`, `SlotTable`, `Recording`, `EdgeGate`). Whole operations (`Attempt`, `Acquire`,
  `Deactivate`, `StartLocked`, `Finalize`, `CloseUnknown`, `OpenSlot`) are methods that perform their
  sections in order and state what the operation as a whole guarantees.
- **Protocol.** A step system interleaves those sections with the environment. A world holds the
  guarded state, where every thread stands, and the state on the other side of the wire. `Enabled` is
  what may happen, `Next` what it does. An inductive invariant is kept by every step, and the theorems
  are about every index of every run from the initial world. Runs that reach a goal show that the
  theorems are not empty. Lemmas that spell out what a single step answers (`PollAnswersExactly`,
  `RecoveryGoesOnExactly`, `ShutdownStopsExactly`, `EndsExactly`, …) are there too, without a row below.

Sequential parts (snapshot store, cleanup pass, template parsing, line splitting, segment scan) are
methods with loops, proved against functions or predicates about which the properties are then
proved.

| file | models |
|---|---|
| `camera_peer`, `peer_protocol`, `peer_invariant`, `peer_steps`, `peer_theorems`, `peer_waiting`, `peer_loop`, `peer_witness` | the worker that reconciles a lease with native incarnations |
| `source_lease`, `lease_protocol`, `lease_progress` | the demand lease of a source: acquire, release, deactivate, recover, and that its owners get on |
| `pipeline_control`, `pipeline_protocol`, `pipeline_run` | operations and runs of a pipeline, and the processes of one run |
| `lease_pipeline`, `lease_camera`, `recording_protocol`, `recording_witness` | the lease composed with a pipeline, with a camera peer, with recordings |
| `whep_session`, `whep_protocol`, `session_slots`, `session_hold`, `cleanup_rotation` | sessions whose creation is uncertain, slot conservation, both together with the lease, fair cleanup |
| `snapshot_retention`, `snapshot_store`, `snapshot_runs` | the bounded snapshot store |
| `recording` | manifest, segment scan, waiting for stable files |
| `placeholder_grammar`, `pipeline_template`, `pipeline_resolution` | which templates are accepted and what filling them in does |
| `diagnostic_writer` | cutting child output into lines |
| `basics` | what several of the models need |
| `shutdown` | admission and the repeatable close, down to the pipelines |

### What is assumed of the environment

- A recorder enable or disable call takes effect at most between its send and its return.
- An incarnation identifier is never used twice. A start or stop takes effect at most between its send
  and the end of its call, and only on the incarnation it is fenced to. Native lifecycle state changes
  by such commands alone. Status replies are truthful.
- One POST creates at most one native session. Session inventories are complete. A full HTTP failure
  response comes only after the creation has finished.
- Random identifiers are new. A child that was waited for is gone.
- Time appears as "the timer may fire" and "the deadline may pass". Expiry and file times are integers.

### Where the code does not keep a stronger promise

- The lines forwarded by the diagnostic writer do not depend on how the bytes arrive **if and only if**
  every line, without the carriage returns at its end, has at most 4097 bytes (`IndependentOfChunks`):
  a line is cut once more than 4096 bytes of it are waiting, and one more byte always fits before.
- An inventory without the token does not show that an unknown session is gone.
  `LateCreationIsPossible` exhibits the run, and `LostCreationMayBeOver` one that looks the same and in
  which it is gone; `ClosesExactlyWhenCertain` shows that the code closes the session exactly when what
  it knows makes absence final.
- A session whose creation succeeded, but that the inventory of a reconcile pass lacks, may be closed
  while its native side lives. `PrematureCloseIsPossible` exhibits the run: the pass takes its
  inventory, the session is created and answered, and the pass comes to it. `PrematureExactly` says
  when that is so, and `SoundExactlyWhenAnswered` what a caller could check: giving up is sound **if
  and only if** the creation had been answered when the inventory was taken.
- A deletion forgets the snapshot, but not always its identifier: if a lookup found it expired before, the
  deletion finds nothing and the mention in the order is left to the next store (`MentionMayStay`).
  `DeletedIsForgottenExactly` gives the condition.
- The same lease may be written twice to an incarnation that had applied it
  (`UnsettledStatusIsReplayed`): a status that shows the right direction but neither `active` nor
  `idle` confirms nothing. `UnconfirmedExactly` gives the condition.

## Model

| member | source | states |
|---|---|---|
| PeerSections.CameraPeer.SignalWorker | internal/mediaedge/source_peer.go:65-70 | a wake token is present afterwards; signals coalesce |
| PeerSections.CameraPeer.BeginDemandSection | internal/mediaedge/source_peer.go:108-130 | the revision rises exactly when the direction turns; who joins a discovery, and which attempt they may wait for |
| PeerSections.CameraPeer.EndDemandSection | internal/mediaedge/source_peer.go:132-145 | one caller fewer; an attempt is cancelled exactly when nobody needs it, it is under way and no stop is being revalidated |
| PeerSections.CameraPeer.AwaitSection | internal/mediaedge/source_peer.go:151-174 | goes on exactly when connected; waits exactly if it joined and its attempt is not over; else is refused |
| PeerSections.CameraPeer.LeaseSection | internal/mediaedge/source_peer.go:197-221 | a lease call succeeds only when connected with its revision or a later one applied |
| PeerSections.CameraPeer.NeededSection | internal/mediaedge/source_peer.go:347-360 | the worker idles exactly when it is unconnected and nothing is owed |
| PeerSections.CameraPeer.ResolveStatusSection | internal/mediaedge/source_peer.go:260-279 | a status that shows the sent lease applied stands in for the lost receipt, and nothing else does |
| PeerSections.CameraPeer.ReadLeaseSection | internal/mediaedge/source_peer.go:282-290 | a write is needed unless the bound instance has the desired revision |
| PeerSections.CameraPeer.FinishAttemptSection | internal/mediaedge/source_peer.go:376-384 | connected only if nothing was invalidated meanwhile |
| PeerSections.CameraPeer.InvalidateAndSignal | internal/mediaedge/source_peer.go:79-91 | an invalidation always leaves a wake-up behind it, and no lease is touched |
| PeerSections.CameraPeer.LookAround | internal/mediaedge/source_peer.go:328-360 | the worker parks exactly when nothing is owed and no new socket has to be told the last stop; an invalidated transport is gone by then |
| PeerSections.CameraPeer.Apply | internal/mediaedge/source_peer.go:282-309 | the pair written is recorded even if the reply is lost, counts only with an accepted receipt, and a demand that turns the lease meanwhile stays owed |
| PeerSections.CameraPeer.Connect | internal/mediaedge/source_peer.go:245-280 | a lost receipt is resolved exactly when the status shows the lease applied |
| PeerSections.CameraPeer.Attempt | internal/mediaedge/source_peer.go:361-384 | connected at the end only without invalidation, with the lease acknowledged by the bound instance |
| PeerSteps.StepKeepsInv | internal/mediaedge/source_peer.go:108-442 | every step of worker, callers, watcher and source keeps the invariant |
| PeerTheorems.RevisionNamesOneDirection | internal/mediaedge/source_peer.go:108-130 | a revision names one direction for the whole run, neighbours differ, applied <= sent <= desired |
| PeerTheorems.RunGrows | internal/mediaedge/source_peer.go:245-309 | desired, sent and applied revisions, the instances and the log only grow |
| PeerTheorems.AppliedMeansNative | internal/mediaedge/source_peer.go:245-309 | when the applied pair is the sent pair, that incarnation is in the state the revision names |
| PeerTheorems.NoNeedlessReplay | internal/mediaedge/source_peer.go:245-309 | the same write happens twice only after a status read failed to confirm it, and never after it was confirmed |
| PeerTheorems.UnconfirmedExactly | internal/mediaedge/source_peer.go:266-275 | a truthful status fails to confirm the sent lease exactly when the incarnation does not do what is desired, or its state settles nothing |
| PeerTheorems.ParkedOwesNothing | internal/mediaedge/source_peer.go:347-399 | a parked worker nobody is about to wake owes no lease and no invalidation, and the incarnation last written to has the lease |
| PeerTheorems.ParkedConnectedMeansNative | internal/mediaedge/source_peer.go:389-399 | parked on its connection, the bound incarnation does what is desired |
| PeerTheorems.ParkedIdleMeansUnwanted | internal/mediaedge/source_peer.go:350-358 | parked without connection, no lease is wanted and no caller is left |
| PeerTheorems.ParkedStrandsNobody | internal/mediaedge/source_peer.go:65-91 | a caller that waits while the worker is parked has been notified since it looked |
| PeerTheorems.SuccessIsCurrent | internal/mediaedge/source_peer.go:176-222 | a start or stop succeeds only on the word of the incarnation bound at that moment |
| PeerWaiting.JoinedWaitsForItsAttempt | internal/mediaedge/source_peer.go:108-174 | a call that joined goes on exactly when connected, waits exactly until the attempt it joined or the first one begun since is over with no invalidation outstanding, and is refused only after an attempt ended |
| PeerWaiting.WhoWaitsJoined | internal/mediaedge/source_peer.go:147-174 | nobody else ever waits for a connection |
| PeerWaiting.WhoJoins | internal/mediaedge/source_peer.go:108-117 | a call joins if it finds the worker parked or the source unwanted, and not during an outage |
| PeerWaiting.WakingGetsAnAttempt | internal/mediaedge/source_peer.go:147-174 | a call that wakes a parked peer is refused only after a whole attempt since |
| PeerWaiting.WaitsForAnAttempt | internal/mediaedge/source_peer.go:151-174 | nobody waits in vain: an attempt is under way, about to begin or still to come, or an invalidation is to be seen |
| PeerLoop.FirstIsOver | internal/mediaedge/source_peer.go:311-325 | nobody hangs on the first attempt, not even if the worker could not be set up |
| PeerLoop.BackoffIsKept | internal/mediaedge/source_peer.go:418-441 | callers cannot hurry a backoff; its timer or an invalidation ends it |
| PeerLoop.BacksOffExactlyWhenNeeded | internal/mediaedge/source_peer.go:402-411 | after a failure the worker backs off exactly when somebody needs the source |
| PeerLoop.SocketEventIsSeen | internal/mediaedge/source_peer.go:79-91 | a socket event is seen by the worker's next round, whatever happens until then |
| PeerLoop.NewSocketIsTold | internal/mediaedge/source_peer.go:334-360 | a new socket after a stop is connected to, although nobody wants the source |
| PeerLoop.ToldStopIsNotCancelled | internal/mediaedge/source_peer.go:132-145 | an attempt that has to tell a stop is never cancelled by the last caller's leaving |
| PeerWitness.LostReplyIsReplayed | internal/mediaedge/source_peer.go:282-309 | a run in which a lost reply and a restart end in one write to each incarnation and success |
| PeerWitness.SuccessParks | internal/mediaedge/source_peer.go:389-399 | and after which the worker parks on its connection |
| PeerWitness.UnsettledStatusIsReplayed | internal/mediaedge/source_peer.go:245-309 | a run in which a status that contradicts nothing leads to a second write of an applied lease |
| PeerWitness.UnneededWorkerParks | internal/mediaedge/source_peer.go:347-360 | a run in which the only caller leaves and the worker parks without an attempt |
| LeaseSections.SourceLease.DemandSection | internal/mediaedge/mediamtx_server.go:737-746 | the demand counts before the start, the old deactivation is fenced off; only a confirmed pipeline lease is shared |
| LeaseSections.SourceLease.FailDemandSection | internal/mediaedge/mediamtx_server.go:750-756 | a failed start leaves the lease active and uncertain |
| LeaseSections.SourceLease.ReleasePendingSection | internal/mediaedge/mediamtx_server.go:776-789 | demand becomes a session or ends, in one section |
| LeaseSections.SourceLease.RemoveSessionSection | internal/mediaedge/mediamtx_server.go:791-799 | exactly that session is gone |
| LeaseSections.SourceLease.BeginRecordingSection | internal/mediaedge/mediamtx_recording.go:207-212 | the pending demand becomes the recording in one section |
| LeaseSections.SourceLease.EndRecordingSection | internal/mediaedge/mediamtx_recording.go:340-345 | only the recording that ends is cleared |
| LeaseSections.SourceLease.CancelTimerLocked | internal/mediaedge/mediamtx_server.go:813-819 | no timer is armed and every older epoch is stale |
| LeaseSections.SourceLease.ScheduleSection | internal/mediaedge/mediamtx_server.go:825-835 | an unused lease is armed under a new epoch |
| LeaseSections.SourceLease.ClaimStopSection | internal/mediaedge/mediamtx_server.go:845-852 | whoever claims the stop does so under a new epoch |
| LeaseSections.SourceLease.CheckStopSection | internal/mediaedge/mediamtx_server.go:862-868 | only the current epoch of an unused active lease goes on |
| LeaseSections.SourceLease.StopRepliedSection | internal/mediaedge/mediamtx_server.go:874-905 | what a stop reply leaves: given back, left to the peer, or armed for retry |
| LeaseSections.SourceLease.Acquire | internal/mediaedge/mediamtx_server.go:731-774 | a demand is granted on a confirmed lease only; a failed one leaves no demand but a possibly active lease with a timer to give it back |
| LeaseSections.SourceLease.Deactivate | internal/mediaedge/mediamtx_server.go:856-906 | only the owner of the current epoch stops, only an unused lease; a failed stop keeps an owner |
| LeaseSections.SourceLease.UseOnce | internal/mediaedge/mediamtx_server.go:731-906 | a demand granted, released and stopped leaves the lease as it was but for its epoch |
| LeaseProtocol.NeverForgotten | internal/mediaedge/mediamtx_server.go:731-906 | an unused active source always has an owner of its stop, until the edge closes |
| LeaseProgress.StopComes | internal/mediaedge/mediamtx_server.go:821-874 | from any reachable world with an unused source every schedule of its owners ends within the rank, and one that cannot go on has issued the stop |
| LeaseProgress.OwnersLowerTheRank | internal/mediaedge/mediamtx_server.go:821-874 | every step of an owner lowers the rank |
| LeaseProgress.OwnerCanAct | internal/mediaedge/mediamtx_server.go:821-874 | until the stop is issued some owner can act |
| LeaseProgress.OlderStopsAreFenced | internal/mediaedge/mediamtx_server.go:737-868 | after a demand, a claim or a new timer no deactivation of an older epoch ever issues a stop |
| LeaseProgress.ClosingStartsNothing | internal/mediaedge/mediamtx_server.go:731-868 | once the edge closes no demand is granted, no stop claimed and nothing asked of the controller but by the shutdown itself |
| LeaseProgress.EpochsGrow | internal/mediaedge/mediamtx_server.go:813-819 | epochs never go back |
| LeaseProgress.StalledSourceIsRestarted | internal/mediaedge/mediamtx_server.go:1096-1150 | a run in which a stalled source is started again for its viewer |
| LeaseProtocol.NoStopWhileConsumed | internal/mediaedge/mediamtx_server.go:856-906 | no stop is issued or under way while there is any consumer |
| LeaseProtocol.GrantedMeansActive | internal/mediaedge/mediamtx_server.go:731-803 | a granted consumer has an active lease: certain for a pipeline, desired for a camera |
| LeaseProtocol.DesiredIsActive | internal/mediaedge/mediamtx_server.go:731-906 | with lifecycleMu free, the camera peer was last asked for what `active` says |
| LeaseProtocol.StepKeepsInv | internal/mediaedge/mediamtx_server.go:731-931 | every step of acquire, release, deactivate, recover and close keeps the lease invariant |
| PipelineSections.PipelineControl.StartSection | internal/mediaedge/pipeline_source.go:199-211 | a closed control refuses, an active one is shared, else the state is starting |
| PipelineSections.PipelineControl.RunEndedSection | internal/mediaedge/pipeline_source.go:252-265 | an end is recorded only for the recorded run |
| PipelineSections.PipelineControl.SettleSection | internal/mediaedge/pipeline_source.go:233-240 | only the run still recorded becomes active |
| PipelineSections.PipelineControl.StopSection | internal/mediaedge/pipeline_source.go:273-285 | what a stop finds and claims |
| PipelineSections.PipelineControl.FinishStopSection | internal/mediaedge/pipeline_source.go:287-293 | after the run is gone the control is idle |
| PipelineSections.PipelineControl.KeyframeSection | internal/mediaedge/pipeline_source.go:302-314 | refused without an active run, coalesced if it is young, else the restart begins |
| PipelineSections.PipelineControl.StartLocked | internal/mediaedge/pipeline_source.go:199-241 | a start is refused once closed, shared while active, and else ends active with the new run or faulted with none; a missed end still reports success |
| PipelineSections.PipelineControl.Stop | internal/mediaedge/pipeline_source.go:273-297 | a stop leaves nothing recorded, whoever records the end first |
| PipelineSections.PipelineControl.RequestKeyframe | internal/mediaedge/pipeline_source.go:299-324 | refused, coalesced and restarted exactly by whether there is a run and how old it is; a restart ends with the new run recorded and active, or faulted with none |
| PipelineSections.PipelineControl.Close | internal/mediaedge/pipeline_source.go:326-342 | closed for good with nothing recorded |
| PipelineProtocol.AtMostOneRun | internal/mediaedge/pipeline_source.go:193-324 | at most one run is alive |
| PipelineProtocol.RecordedExactlyWhenActive | internal/mediaedge/pipeline_source.go:193-342 | with opMu free a run is recorded exactly when the state is active |
| PipelineProtocol.LiveRunStaysRecorded | internal/mediaedge/pipeline_source.go:193-324 | whatever late watchers and further starts do, a live run stays recorded and active until a stop, close or restart takes hold of it |
| PipelineProtocol.ClosedNeverLaunches | internal/mediaedge/pipeline_source.go:326-342 | a closed control never launches again and ends with nothing alive |
| PipelineProtocol.KeyframeRestartsExactly | internal/mediaedge/pipeline_source.go:299-314 | a request takes hold of the recorded run exactly when there is one that is not young, and changes nothing else |
| PipelineProtocol.RestartFollows | internal/mediaedge/pipeline_source.go:314-324 | once the old run is gone a new start follows, with nothing alive |
| PipelineProtocol.KeyframeReplacesTheRun | internal/mediaedge/pipeline_source.go:299-324 | a run in which a keyframe request replaces run 1 by run 2 |
| PipelineRun.DoneMeansReaped | internal/mediaedge/pipeline_source.go:576-640 | a run is done only after each started process was waited for, failed launches included |
| PipelineRun.FailureNamesTheCause | internal/mediaedge/pipeline_source.go:607-626 | the recorded failure begins with the process that ended the run |
| PipelineRun.FailureIsReportedExactly | internal/mediaedge/pipeline_source.go:607-626 | the end of a run is a failure exactly when nobody had asked for it, and then reports every exit taken so far |
| PipelineRun.FailureIsReported | internal/mediaedge/pipeline_source.go:576-640 | a run whose process exits on its own and is reported |
| LeasePipeline.NoResurrection | internal/mediaedge/mediamtx_server.go:856-931 | with lifecycleMu free a live run has an active lease, and a lease given back leaves nothing that could launch |
| LeasePipeline.GrantedIsServed | internal/mediaedge/mediamtx_server.go:731-774 | a granted consumer has a confirmed lease and no stop of its pipeline is under way |
| LeasePipeline.ReturnsExactly | internal/mediaedge/pipeline_source.go:199-241 | a start succeeds exactly when the pipeline was running or came to the end of its settling; a stop always does |
| LeasePipeline.ViewerIsServed | internal/mediaedge/mediamtx_server.go:731-774 | a run in which a demand starts the pipeline and is granted on its live run |
| LeaseCamera.GrantedIsWanted | internal/mediaedge/source_peer.go:108-130 | a granted viewer means the peer wants a start, and a parked worker is about to wake for it |
| LeaseCamera.SettledMeansServed | internal/mediaedge/source_peer.go:389-399 | end to end: a settled worker's incarnation is active for granted consumers and idle for a lease given back |
| LeaseCamera.LeaseCallIsExact | internal/mediaedge/source_peer.go:197-215 | the lease's call succeeds on exactly its own revision and direction |
| LeaseCamera.AnsweredExactly | internal/mediaedge/source_peer.go:192-221 | the lease call succeeds exactly by a look that finds a connection with its revision applied |
| RecordingProtocol.DemandWithoutGap | internal/mediaedge/mediamtx_recording.go:132-217 | a recording is demand from the grant to the end of finalization, with an active lease and no stop |
| RecordingProtocol.OneAtATime | internal/mediaedge/mediamtx_recording.go:132-139 | one recording of a source at a time |
| RecordingProtocol.SecondWaitsForTheFirst | internal/mediaedge/mediamtx_recording.go:291-348 | another recording is enabled only after the earlier one's disable call and scan returned |
| RecordingProtocol.RecorderFollows | internal/mediaedge/mediamtx_recording.go:192-206 | a running recording has the native recorder, a completed one never again |
| RecordingProtocol.CompletedIsComplete | internal/mediaedge/mediamtx_recording.go:291-329 | a completed manifest has segments, contiguous, with their sizes adding up |
| RecordingProtocol.CompletesUnlessFailed | internal/mediaedge/mediamtx_recording.go:296-329 | finalization completes exactly when no failure was noted and the scan brought segments, and then the disable call took effect |
| RecordingProtocol.FailuresAreFinal | internal/mediaedge/mediamtx_recording.go:275-338 | after a failed stop, disable, scan or last write a recording never counts as completed |
| RecordingProtocol.StatesMoveForward | internal/mediaedge/mediamtx_recording.go:291-365 | recording states only move forward |
| RecordingProtocol.LeaseTakesTheStarter | internal/mediaedge/mediamtx_recording.go:207-213 | the hand-over to the recording is never refused by the lease |
| RecordingWitness.RecordingCompletes | internal/mediaedge/mediamtx_recording.go:132-348 | a run from the request to a completed recording that leaves its source unused |
| Recordings.ScanSegments | internal/mediaedge/mediamtx_recording.go:367-399 | the segments are exactly the video files, each once, in name order, numbered from 1 without a gap in time |
| Recordings.DurationsAddUp | internal/mediaedge/mediamtx_recording.go:387-394 | they last from the creation to the last end |
| Recordings.BytesAddUp | internal/mediaedge/mediamtx_recording.go:313-317 | the size is that of the segments, however they are put together |
| Recordings.VideosExactly | internal/mediaedge/mediamtx_recording.go:367-386 | the files listed are the video entries, as often as they occur |
| Recordings.WaitForFinalizedSegments | internal/mediaedge/mediamtx_recording.go:401-438 | ends at the first error, third equal observation or deadline; success is never empty |
| Recordings.Recording.RequestStop | internal/mediaedge/mediamtx_recording.go:275-289 | keeps the first failure; exactly one request begins finalization |
| Recordings.Recording.MarkActive | internal/mediaedge/mediamtx_recording.go:357-365 | only a waiting recording becomes active |
| Recordings.Recording.TakeScan | internal/mediaedge/mediamtx_recording.go:305-312 | a scan that failed is the reason if there is none yet |
| Recordings.Recording.Finish | internal/mediaedge/mediamtx_recording.go:313-329 | segments, size sum, reason and final state |
| Recordings.Recording.Finalize | internal/mediaedge/mediamtx_recording.go:291-338 | a recording completes exactly when nothing failed, and then it is complete; else it fails with exactly this reason |
| Recordings.Recording.TakePersistReply | internal/mediaedge/mediamtx_recording.go:330-338 | a manifest that cannot be written fails the recording |
| WhepSections.WhepSession.FindInInventory | internal/mediaedge/mediamtx_server.go:694-716 | finds the one session that carries the token, or says why none can be named |
| WhepSections.WhepSession.CreationRepliedSection | internal/mediaedge/mediamtx_server.go:579-595 | what each way the creation call ends leaves behind, and whether the session is closed at once |
| WhepSections.WhepSession.DecideSection | internal/mediaedge/mediamtx_server.go:716-729 | what was found is kicked and remembered; absence counts if the session was observed or answered in full; else it is retained |
| WhepSections.WhepSession.CloseUnknown | internal/mediaedge/mediamtx_server.go:658-729 | kicked exactly when the one entry with its token can be it; closed exactly on that kick confirmed, or on absence of a session that was observed before or answered in full |
| WhepProtocol.InventoryTellsTheTruth | internal/mediaedge/mediamtx_server.go:694-716 | what the loop finds in a complete inventory is what the protocol assumes |
| WhepProtocol.FailedCreationIsHeld | internal/mediaedge/mediamtx_server.go:658-729 | a session whose creation failed is closed only when no native session carries its token on any continuation |
| WhepProtocol.ClosesExactlyWhenCertain | internal/mediaedge/mediamtx_server.go:716-729 | after an inventory without the token the close goes through exactly when what is known of the session makes absence final in every reachable world |
| WhepProtocol.FoundIsKicked | internal/mediaedge/mediamtx_server.go:716-729 | after an inventory the session is kicked exactly when one entry could be it, by that entry's identifier |
| WhepProtocol.LiveUnknownCanBeClosed | internal/mediaedge/mediamtx_server.go:658-729 | a session of a failed creation that is there natively is never stuck: one close in which no call fails ends it for good |
| WhepProtocol.LocatedCanBeClosed | internal/mediaedge/mediamtx_server.go:658-692 | nor is a located session: one deletion that does not fail ends it |
| WhepProtocol.FailedCloseIsRetried | internal/mediaedge/mediamtx_server.go:671-684 | a call of a close that fails changes nothing of the session, and the next close may begin at once |
| WhepProtocol.LostCreationEndsClosed | internal/mediaedge/mediamtx_server.go:577-729 | a run in which the creation's reply is lost and the session ends kicked and closed |
| WhepProtocol.PrematureExactly | internal/mediaedge/mediamtx_server.go:1046-1058 | a closed session is still there natively exactly when a pass gave it up by an inventory from before its creation and nothing dropped it since |
| WhepProtocol.SoundExactlyWhenAnswered | internal/mediaedge/mediamtx_server.go:973-1058 | giving a session up is sound if and only if its creation had been answered when the pass took its inventory |
| WhepProtocol.PrematureCloseIsPossible | internal/mediaedge/mediamtx_server.go:973-1058 | a run that ends with a closed session and its native one alive |
| WhepProtocol.LateCreationIsPossible | internal/mediaedge/mediamtx_server.go:716-729 | a run in which the inventory lacks the session and it is created next |
| WhepProtocol.LostCreationMayBeOver | internal/mediaedge/mediamtx_server.go:716-729 | a run that looks the same to the code and in which absence is final |
| WhepProtocol.FinalExactly | internal/mediaedge/mediamtx_server.go:658-729 | absence is final exactly when no session is there and the creation is over, whatever the code knows |
| SlotSections.SlotTable.ReserveSection | internal/mediaedge/mediamtx_server.go:532-538 | a slot is reserved exactly when there is room |
| SlotSections.SlotTable.InsertSection | internal/mediaedge/mediamtx_server.go:565-573 | the reservation becomes the session, unless the edge closes |
| SlotSections.SlotTable.OpenSlot | internal/mediaedge/mediamtx_server.go:532-573 | a session takes a slot exactly when sessions and reservations were below the limit, its source was acquired and the edge stayed open; else nothing is left behind |
| SlotSections.SlotTable.UseSlot | internal/mediaedge/mediamtx_server.go:532-690 | opened and deleted, the slots are as before |
| SlotProtocol.SlotsAreConserved | internal/mediaedge/mediamtx_server.go:532-576 | sessions plus reservations stay within the limit, reservations equal the openers holding one |
| SlotProtocol.SessionsAreCovered | internal/mediaedge/mediamtx_server.go:570-576 | every session is covered by its source, its opener's demand, or its remover |
| SlotProtocol.RemovedExactlyOnce | internal/mediaedge/mediamtx_server.go:658-692 | no session is deleted twice |
| SlotProtocol.SessionComesAndGoes | internal/mediaedge/mediamtx_server.go:532-690 | a run from the first reservation to the last deletion |
| SlotProtocol.OpenerGivesBack | internal/mediaedge/mediamtx_server.go:532-576 | runs in which an opener fails and nothing is left behind |
| SlotProtocol.ClosingAddsNothing | internal/mediaedge/mediamtx_server.go:565-573 | no session is added once the edge closes |
| SessionHold.HeldUntilClosed | internal/mediaedge/mediamtx_server.go:532-692 | from insertion to close a session holds its slot and its source demand without a gap, with an active lease and no stop |
| SessionHold.FailedCreationHoldsSlotAndDemand | internal/mediaedge/mediamtx_server.go:577-729 | after a failed creation, as long as a native session carries the token or still can, slot and source demand are held |
| SessionHold.ReleasedInTheEnd | internal/mediaedge/mediamtx_server.go:686-690 | once its remover is done neither server nor source has the session |
| SessionHold.StepKeepsInv | internal/mediaedge/mediamtx_server.go:515-729 | native side, slots and lease keep their invariants and agree, step by step |
| CleanupRotation.Reconciler.CleanupPass | internal/mediaedge/mediamtx_server.go:1011-1045 | tries the first few of what is due and leaves the cursor behind them |
| CleanupRotation.RotationContinues | internal/mediaedge/mediamtx_server.go:1011-1040 | what a pass did not reach comes first in the next |
| CleanupRotation.TriedInTurn | internal/mediaedge/mediamtx_server.go:1011-1045 | passes together try the due sessions one after the other, whatever the deadlines allow |
| CleanupRotation.EveryoneIsTried | internal/mediaedge/mediamtx_server.go:1011-1045 | everyone is tried within ceil(k/4) whole passes, or k passes of one attempt |
| CleanupRotation.PassIsBounded | internal/mediaedge/mediamtx_server.go:1029-1041 | a pass tries everything due up to four and to what the deadline allows, none twice |
| SnapshotStore.SnapshotShelf.Compact | internal/mediaedge/mediamtx_server.go:1383-1397 | the in-place filter keeps exactly the live entries in order, and counts their bytes |
| SnapshotStore.SnapshotShelf.Remove | internal/mediaedge/mediamtx_server.go:1401-1411 | removes one entry in place and frees its size |
| SnapshotStore.SnapshotShelf.Add | internal/mediaedge/mediamtx_server.go:1398-1399 | appended to the order and put into the map |
| SnapshotStore.Store.CompactAll | internal/mediaedge/mediamtx_server.go:1381-1397 | every source compacted, and what they retain together |
| SnapshotStore.Store.Admit | internal/mediaedge/mediamtx_server.go:1380-1414 | all compacted, the new one added, its source capped, the total known |
| SnapshotStore.Store.CapOne | internal/mediaedge/mediamtx_server.go:1412-1414 | drops the oldest of the source down to the cap |
| SnapshotStore.Store.FindOldest | internal/mediaedge/mediamtx_server.go:1416-1425 | finds the earliest expiry but for the new snapshot, or shows there is none |
| SnapshotStore.Store.MakeRoom | internal/mediaedge/mediamtx_server.go:1415-1431 | ends, evicts oldest first, stops when everything fits, and never gives up |
| SnapshotStore.Store.StoreSnapshot | internal/mediaedge/mediamtx_server.go:1362-1432 | succeeds exactly when the snapshot fits alone, keeps it, changes nothing otherwise |
| SnapshotStore.Store.ReadSnapshot | internal/mediaedge/mediamtx_server.go:1434-1454 | found exactly when live; an expired one leaves the map; no other snapshot and no order is touched |
| SnapshotStore.Store.DeleteSnapshot | internal/mediaedge/mediamtx_server.go:1456-1480 | found exactly when present; gone afterwards, with its mention in the order; every other snapshot stays where and as it was |
| SnapshotRetention.CappedOrder | internal/mediaedge/mediamtx_server.go:1412-1414 | the cap keeps the last two of the order, or all if fewer |
| SnapshotRetention.CompactedOk | internal/mediaedge/mediamtx_server.go:1383-1397 | compaction keeps exactly the live entries, without duplicates |
| SnapshotRetention.EvictionKeepsTheNewOne | internal/mediaedge/mediamtx_server.go:1415-1431 | afterwards everything fits, two per source, and the new one is there |
| SnapshotRetention.OnlyVictimsAreGone | internal/mediaedge/mediamtx_server.go:1401-1411 | exactly the victims are gone, everything else is untouched |
| SnapshotRetention.VictimsByExpiry | internal/mediaedge/mediamtx_server.go:1415-1430 | victims leave in nondecreasing expiry |
| SnapshotRetention.NoVictimTooMany | internal/mediaedge/mediamtx_server.go:1415-1430 | with the last victim back it would not fit |
| SnapshotRetention.SomethingToEvict | internal/mediaedge/mediamtx_server.go:1426-1428 | giving up is unreachable |
| SnapshotRuns.RunStaysBounded | internal/mediaedge/mediamtx_server.go:1362-1480 | after any calls: within budget, two per source, orders cover the maps without duplicates |
| SnapshotRuns.WhatAStoreKeeps | internal/mediaedge/mediamtx_server.go:1362-1432 | snapshot by snapshot: kept are the new one and what was live, not evicted and among its source's newest |
| SnapshotRuns.HeldWasStored | internal/mediaedge/mediamtx_server.go:1362-1480 | nothing is held that was not stored, as it is, on that source |
| SnapshotRuns.GoneUntilStored | internal/mediaedge/mediamtx_server.go:1434-1480 | after a deletion, or a lookup that found it expired, a snapshot is held again only if a later call stores it |
| SnapshotRuns.OthersAreUntouched | internal/mediaedge/mediamtx_server.go:1434-1480 | lookups and deletions touch no other snapshot |
| SnapshotRetention.DeletedIsForgottenExactly | internal/mediaedge/mediamtx_server.go:1463-1478 | a deletion leaves a mention in the order exactly when the map had lost the snapshot before |
| SnapshotRuns.MentionMayStay | internal/mediaedge/mediamtx_server.go:1434-1480 | calls after which a deleted identifier is still in the order |
| PlaceholderGrammar.AcceptedExactly | internal/mediaedge/pipeline_template.go:286-299 | accepted are exactly the arguments made of $-free texts and placeholders with known names |
| PlaceholderGrammar.OneReading | internal/mediaedge/pipeline_template.go:286-299 | an argument has only one such reading |
| PlaceholderGrammar.ValuesAreNotRescanned | internal/mediaedge/pipeline_template.go:363-371 | values are inserted as they are, whatever they contain |
| PlaceholderGrammar.FilledWhereWritten | internal/mediaedge/pipeline_template.go:363-371 | where a placeholder and text are written, value and text come out |
| PlaceholderGrammar.PlainStays | internal/mediaedge/pipeline_template.go:363-371 | text without $ stays |
| PlaceholderGrammar.PlaceholderGivesWay | internal/mediaedge/pipeline_template.go:363-371 | a placeholder becomes its value, or nothing |
| PlaceholderGrammar.PartByPart | internal/mediaedge/pipeline_template.go:363-371 | what is written together is filled in part by part |
| PipelineTemplate.CheckPlaceholders | internal/mediaedge/pipeline_template.go:286-299 | the loop decides acceptance and whether the snapshot directory is used |
| PipelineTemplate.CheckArguments | internal/mediaedge/pipeline_template.go:125-135 | at most 128 arguments, each nonempty, without NUL and at most 1024 bytes |
| PipelineTemplate.CheckVector | internal/mediaedge/pipeline_template.go:275-299 | the limits, the program and every argument |
| PipelineTemplate.CheckParameters | internal/mediaedge/pipeline_template.go:241-265 | names, built-in names, patterns and defaults |
| PipelineTemplate.Parse | internal/mediaedge/pipeline_template.go:215-311 | accepts exactly the acceptable documents; an error names something that is wrong |
| PipelineResolution.Resolve | internal/mediaedge/pipeline_template.go:313-377 | succeeds exactly when every parameter has a permitted value and the producers agree, and then every parameter has what the source gives, or else its default; an error is justified |
| PipelineResolution.Choose | internal/mediaedge/pipeline_template.go:343-362 | every parameter gets what the source gives, or else the default, if that is allowed; nothing else changes |
| PipelineResolution.CheckSource | internal/mediaedge/pipeline_template.go:314-332 | who must and may bring a producer, and which parameters exist |
| PipelineResolution.ExpandAll | internal/mediaedge/pipeline_template.go:363-371 | argument by argument |
| PipelineResolution.ExpansionIsTotal | internal/mediaedge/pipeline_template.go:363-376 | every placeholder of an accepted template gets a value |
| PipelineResolution.ScratchOnlyWithBranch | internal/mediaedge/pipeline_template.go:338-342 | the scratch directory is a value exactly for templates with a snapshot branch |
| PipelineResolution.SourceValuesAreItsOwn | internal/mediaedge/pipeline_template.go:333-342 | size, rate, address and payload type come from the source, and no parameter hides them |
| PipelineResolution.DecimalIsExact | internal/mediaedge/pipeline_template.go:333-337 | numbers are written with their digits and no leading zero |
| PipelineResolution.FramesGoToScratch | internal/mediaedge/pipeline_template.go:302-309 | such a pipeline is told to write into the source's scratch directory |
| PipelineResolution.NothingUnfilled | internal/mediaedge/pipeline_template.go:363-376 | arguments of command and producer keep their number, and no $ is left if no value has one |
| DiagnosticLines.DiagnosticWriter.Write | internal/mediaedge/pipeline_source.go:730-752 | lines taken, rest kept, overlong rest cut, last 4096 bytes retained |
| DiagnosticLines.DiagnosticWriter.Emit | internal/mediaedge/pipeline_source.go:754-758 | a line is forwarded without trailing carriage returns, and not at all if nothing is left |
| DiagnosticLines.TrimIsExact | internal/mediaedge/pipeline_source.go:754-758 | exactly the carriage returns at the end go |
| DiagnosticLines.DiagnosticWriter.Flush | internal/mediaedge/pipeline_source.go:760-765 | the rest becomes a line |
| DiagnosticLines.NothingIsLost | internal/mediaedge/pipeline_source.go:730-765 | for any chunks, the lines together are the stream without newlines |
| DiagnosticLines.IndependentOfChunks | internal/mediaedge/pipeline_source.go:738-750 | exactly the stream's lines are forwarded for every chunking if and only if no line, trimmed, exceeds 4097 bytes |
| DiagnosticLines.RecentIsTheTail | internal/mediaedge/pipeline_source.go:733-736 | the retained bytes are the last 4096 of the stream |
| ShutdownSections.EdgeGate.BeginOperationSection | internal/mediaedge/mediamtx_server.go:471-484 | admits exactly when not closing and below the limit |
| ShutdownSections.EdgeGate.StartBackgroundSection | internal/mediaedge/mediamtx_server.go:503-513 | starts exactly when not closing |
| ShutdownSections.EdgeGate.RunOperation | internal/mediaedge/mediamtx_server.go:471-513 | admitted exactly when open and below the limit; an operation gives back what it was admitted for |
| ShutdownSections.EdgeGate.CloseGate | internal/mediaedge/mediamtx_server.go:471-513 | nothing is admitted once closing has begun |
| ShutdownProtocol.CompleteMeansGone | internal/mediaedge/mediamtx_server.go:1485-1601 | recorded completion: no sessions, no recordings, child exited, every source stopped, every pipeline closed and reaped |
| ShutdownProtocol.StoppedOnlyForCause | internal/mediaedge/mediamtx_server.go:1530-1575 | a source counts as stopped only by a confirmed stop, or when nothing of it was active, uncertain or used |
| ShutdownProtocol.WaitingInVainReturns | internal/mediaedge/mediamtx_server.go:1500-1523 | a Close that waits in vain returns, can be called again, and the edge stays closed |
| ShutdownProtocol.CompletesExactly | internal/mediaedge/mediamtx_server.go:1485-1601 | a Close completes exactly when no host, recording, stop, child or control API failed it |
| ShutdownProtocol.OperationsAreBounded | internal/mediaedge/mediamtx_server.go:471-484 | never more operations than the limit |
| ShutdownProtocol.GoneForGood | internal/mediaedge/mediamtx_server.go:471-513 | after it nothing is admitted and no pipeline launched |
| ShutdownProtocol.WhatIsDoneStaysDone | internal/mediaedge/mediamtx_server.go:1485-1601 | a Close that fails loses nothing it achieved: stopped sources and reaped pipelines stay so |
| ShutdownProtocol.CloseCanComplete | internal/mediaedge/mediamtx_server.go:1485-1601 | a run in which Close completes, on an edge whose source was never used |

## Left out

- HTTP and XRPC hosts, WHEP negotiation, multipart bodies, inotify, the file system, JPEG decoding and
  GStreamer: each is a step of the environment with the contract stated above.
- The peer's worker loop is a set of steps with a program counter rather than a method, because it blocks
  and never returns; its sections are methods.
- Describing a source (`describeSourceWith`) only succeeds or fails.
- Calls of the camera peer after the lifecycle context is cancelled, which bypass the worker; the lease
  protocol only records that such a call may happen while closing.
- Revisions, epochs and run numbers are unbounded; 64-bit wrap-around is not modelled.
- Durations, jitter and the backoff schedule of the worker.
- That a run is still active when a start receipt is taken: it can end just after settling, and nothing
  here claims otherwise. Neither is it claimed that snapshot sequence numbers are monotone across a
  restart or that `controlHealthy` implies a connection.
- Capacity admission of recordings (floating point), the manifest's constant fields, and reloading the
  history of earlier processes.
- Recordings.ScanSegments: file names are numbers in lexical order, and a directory entry's checks are one
  flag.
- Recordings.WaitForFinalizedSegments: two observations count as equal when their segment lists are equal,
  where the source compares a text made of names, sizes and times.
- PipelineTemplate.CheckArguments: lengths are counted in characters, which stand for bytes.
- CleanupRotation.Reconciler.CleanupPass: the flags of all sessions are read once at the start of the
  pass, and the sessions that the pass gives up as absent are left to WhepProtocol.
- SessionHold.HeldUntilClosed: Close drops sessions after the child's exit only when no opener is left,
  because operations have drained by then.
- SlotProtocol.SessionsAreCovered: the opener's demand is its position here; SessionHold counts it in the
  lease.
- ShutdownProtocol.CloseCanComplete: one run only, on an edge whose source was never used.
- PipelineTemplate.Parse: decoding of the JSON document and compiling of patterns are given; errors carry
  no text.
- PipelineResolution.Resolve: the address comes already split; the frame rate is the integer it is
  truncated to.
- DiagnosticLines.DiagnosticWriter.Write: the tail as one line for status texts (`tail`) is not modelled.
- SnapshotStore.Store.ReadSnapshot: one reading of the clock serves all sources, and no other call comes
  in between two of them.
- PipelineRun.DoneMeansReaped: signals have no effect in the model beyond that a process may exit.
- ShutdownProtocol.CompleteMeansGone: leases change arbitrarily during Close, except for its own record.
- Config normalization, CORS, origins, the player, the command line.
