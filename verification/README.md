# EggVision: the protocols, as a verified model

EggVision captures paired frames from a camera, encodes one stream to H.264, serves it over RTSP and
writes event clips when a person is detected. This project models the parts of it in which threads
share state, and the byte-level algorithms underneath, and proves what they guarantee over every
run and every input. Foreign calls (GStreamer, GLib, libcamera, the kernel) appear only as the
outcomes they can have.

## How it is organised

- **Access units and the ring** (`Basics`, `AccessUnits`, `RingSpec`, `RingHistory`, `RingBuffer`). The
  bounded history of encoded units is a class with the source's deque and loops. It is proved against
  functions on sequences, and those against a log that forgets nothing.
- **Event clips** (`EventSpec`, `EventClips`, `EventGaps`, `EventFront`, `EventWindows`, `EventRecorder`).
  The recorder is a class whose methods are its critical sections. `EventClips` interleaves them with the
  encoder's two separate steps per unit (push, then observe), the clip writer, clearing and stopping.
- **RTSP recovery and lifecycle** (`RtspSections`, `RtspSystem`, `RtspInvariants`, `RtspOwnership`,
  `RtspFeeder`, `RtspTheorems`, `RtspFeederStart`, `RtspListener`, `RtspResponses`, `RtspRuns`,
  `RtspServer`). Every `source_mutex_` section is a function of the guarded fields, and `RtspServer`
  performs each in place and keeps the invariants. `RtspSystem` interleaves any number of callbacks, the
  watchdog, the recovery worker, the feeder and repeated start/stop. Each appsrc reference that is taken has
  an identity, and each unref is a step under the condition that the code tests before it, so that
  ownership can be counted.
- **Camera leases** (`LatestFrameQueue`, `CameraLeases`, `CameraStarvation`, `CameraCapture`). Requests
  move between the camera, the callback, the encoder, inference, lease destructors and the recycler.
- **Algorithms** (`I420Layout`, `I420`, `AnnexB`, `DmaBufSync`, `Nms`).

A machine is a function `Apply(state, step)` in which a step that is not enabled changes nothing, so a
statement about `Run(steps)` for every list of steps is one about every interleaving.

## Premises

- Event clips: the encoder delivers units that have a payload, are not larger than the ring's byte
  limit, carry a non-zero generation and timestamp, and have strictly increasing sensor timestamps while
  the generation stays the same. This is a condition on runs (`EventClips.Orderly`), not a guard of the
  machine: `EventGaps.OversizeUnitLeavesGap` is a run without it whose clip has a gap,
  `EventGaps.OversizeLeavesGapBetween` says when that happens after any run, and the counting of events
  needs no premise.
- I420: the bytes a plane claims to contain can be read (`I420Layout.Backed`), and `size_t` has at least
  32 bits. Everything else about a view is arbitrary.
- Camera: completion callbacks do not overlap, and one start-to-stop epoch is modelled.
- Detections have comparable confidences; intersection-over-union is an arbitrary function.

## Where the code gives less than one might expect

- **Starvation.** `createRequests` accepts any number of pairs from four up, while the encoder's limit is
  computed from the configured `buffer_count`. The consumers can hold every request exactly when fewer
  pairs than `buffer_count` were allocated (`CameraStarvation.StarvationExactly`).
- **Feeder.** If a buffer cannot be made for the unit that opens a stream, the feeder does not wait for
  another decodable one. Streams start decodable in a run, whatever undecodable unit comes next, if and
  only if no opening unit was left without a buffer (`RtspFeederStart.OpenersDecide`);
  `RtspRuns.StreamCanStartUndecodable` is a run that starts otherwise.
- **Reopening.** Nothing here says that a recovery is ever finished: a bus error can turn Running back
  into Requested, a new configuration can withdraw it and a listener may fail to be created. All these
  steps are in the model, and the safety statements hold with them. A listener that could not be created
  stays closed until new media is configured or the server stops (`RtspListener.FailedListenerIsFinal`),
  and one whose recovery was withdrawn until the next recovery (`RtspListener.ClosedUntilNextRecovery`).
  `RtspRuns` has a run for each, and one in which the listener does reopen.
- **Cooldown.** An event waits for the cooldown after the one before it, and a trigger that comes later than
  that does open one (`EventWindows.TriggerOpensExactly`). After an event before the last it waits for sure
  only if triggers come in the order of their times (`EventWindows.CooldownOfAny`);
  `EventWindows.CooldownCanBeForgotten` is a run in which they do not.
- **Annex B.** Neither a non-zero header nor a non-zero last byte is needed for the scan to invert
  serialisation, but every unit needs a byte: a unit is missed exactly when it is hidden, that is, when it
  has a three-byte start code and follows an empty unit that is not itself hidden
  (`AnnexB.ScanShowsUnits`).
- **Pre-roll.** A clip with a complete pre-roll may start earlier than it need, namely if and only if some
  trigger finds the encoder behind the whole pre-roll (`EventFront.LagDecides`, with a run in
  `EventFront.ClipCanStartEarly`).

## Model

| member | source | states |
|---|---|---|
| `RingSpec.PushKeepsInvariant` | src/encoded_ring_buffer.cpp:18-46 | every push, accepted or rejected, keeps: bytes are the exact sum and within the limit, so is the peak, one generation, times never decrease, the front is decodable, the last unit is the one accepted |
| `RingSpec.NewestStartIs` | src/encoded_ring_buffer.cpp:66-75 | the chosen start is decodable and in bound, and no later unit is |
| `RingSpec.FirstStartIs` | src/encoded_ring_buffer.cpp:76-87 | the fallback start is the oldest decodable unit in bound |
| `RingSpec.SelectMeans` | src/encoded_ring_buffer.cpp:48-102 | the selection in terms of trigger and pre-roll: it asks for trigger minus pre-roll, starts at the newest decodable unit at or before that, else at the oldest at or before the trigger, has no units exactly when there is neither, and is complete exactly in the first case |
| `RingSpec.ResultMeans` | src/encoded_ring_buffer.cpp:18-35 | a push is rejected exactly when the unit is unusable, and resets exactly when the generation changes or time goes back, named for which |
| `RingSpec.PruneIsSuffix` | src/encoded_ring_buffer.cpp:122-161 | pruning keeps a suffix that fits the byte limit and is empty or starts decodable |
| `RingHistory.EveryRunKeepsInv` | src/encoded_ring_buffer.cpp:18-170 | over every run of pushes and clears the ring invariant holds, the ring is a suffix of the unbounded log, and without byte evictions only stale units were dropped |
| `RingHistory.StaleUnitsGo` | src/encoded_ring_buffer.cpp:122-150 | over every run old units do go: all but the front that a clip could start with are later than the retention cutoff, and only usable units are held |
| `RingHistory.LogIsReference` | src/encoded_ring_buffer.cpp:18-46 | the log is the usable units since the last clear and the last break, by the operations alone |
| `RingHistory.CompleteSelectionIsExact` | src/encoded_ring_buffer.cpp:48-102 | whenever a selection reports a complete pre-roll it equals the selection on the unbounded log, even after byte evictions |
| `RingHistory.RetainedSelectionAgrees` | src/encoded_ring_buffer.cpp:48-161 | without byte evictions the ring and the log choose the same clip for every trigger whose requested start is not older than the retention window |
| `RingHistory.PreRollCompleteIff` | src/encoded_ring_buffer.cpp:63-100 | in that window a pre-roll is reported complete if and only if the stream produced a decodable unit at or before its start |
| `RingBuffer.EncodedRingBuffer.Make` | src/encoded_ring_buffer.cpp:8-16 | a ring exists if and only if both limits are positive, and it is empty |
| `RingBuffer.EncodedRingBuffer.Push` | src/encoded_ring_buffer.cpp:18-46 | the in-place push computes the specified result and new ring, counts resets and peak, and keeps the invariant, with nothing unusable and nothing too old but the front |
| `RingBuffer.EncodedRingBuffer.SelectPreRoll` | src/encoded_ring_buffer.cpp:48-102 | the scans give the specified selection, which is what trigger and pre-roll ask for, although they stop at the first unit beyond the bound |
| `RingBuffer.EncodedRingBuffer.PruneByTime` | src/encoded_ring_buffer.cpp:122-150 | the result is the time-pruned history; the loop for a history without a keyframe discards nothing |
| `RingSpec.PruneTimeIsRecent` | src/encoded_ring_buffer.cpp:122-150 | time pruning leaves no decodable unit at or before the cutoff but the front |
| `RingBuffer.EncodedRingBuffer.PruneByBytes` | src/encoded_ring_buffer.cpp:152-161 | discarding from the front leaves the specified suffix, with exact byte count |
| `RingSpec.ByteLimitKeepsLongest` | src/encoded_ring_buffer.cpp:152-161 | that suffix is the longest: any end of the history that fits and starts decodable is still there |
| `RingBuffer.EncodedRingBuffer.DiscardFront` | src/encoded_ring_buffer.cpp:163-170 | one unit goes, the byte count follows, and an emptied ring forgets generation and time |
| `RingBuffer.EncodedRingBuffer.Clear` | src/encoded_ring_buffer.cpp:104-120 | the ring is empty, its peak stays and a reset is counted |
| `EventSpec.WindowCuts` | src/event_recorder.cpp:790-799 | the copied window ends with the first unit at or after the requested end, or is the whole selection |
| `EventClips.EveryRunKeepsInv` | src/event_recorder.cpp:538-866 | stream, clip and counting invariants over every interleaving of push, observe, trigger, clear, worker, start and stop |
| `EventClips.FinishedClipsAreSlices` | src/event_recorder.cpp:790-848 | every finished event is a gap-free, duplicate-free slice of one generation's output that begins decodable and covers the ends it claims |
| `EventClips.MuxRejectionsUnreachable` | src/event_recorder.cpp:217-246 | muxVideo's start and mixed-generation rejections never happen: an event has no units or is muxable |
| `EventClips.CompleteClipSpansWindow` | src/event_recorder.cpp:778-848 | a clip complete at both ends starts at or before the requested start and ends with the first unit at or after the requested end |
| `EventClips.EventsAreConserved` | src/event_recorder.cpp:538-671 | whatever is delivered: triggered = completed + failed + queued (at most 2) + being written + open; the gate collects if and only if an event is open; after the join triggered = completed + failed |
| `EventWindows.WindowsAreAsAsked` | src/event_recorder.cpp:761-782 | over every run each event, open or over, was opened by one trigger step, the one that counted it, and asks for the pre-roll before that trigger and the post-roll after it |
| `EventWindows.WindowOfEvent` | src/event_recorder.cpp:778-782 | the same written out: start is the trigger minus the pre-roll or 0, end is the trigger plus the post-roll or the largest 64-bit value |
| `EventWindows.TriggerOpensExactly` | src/event_recorder.cpp:476-487 | over every run a trigger opens an event if and only if storage is available, the recorder accepts, none is open and the cooldown after the last event is over; otherwise it is counted as suppressed |
| `EventWindows.CooldownSeparates` | src/event_recorder.cpp:484-487 | over every run an event's trigger is at or after the end of the event before it plus the cooldown, also when the queue had no room for that one |
| `EventWindows.CooldownOfAny` | src/event_recorder.cpp:476-487 | the same for any two events, as long as the triggers that open events come in the order of their times |
| `EventWindows.EarlierCooldowns` | src/event_recorder.cpp:476-487 | the next event waits for every earlier cooldown, whenever it comes, if and only if none is over later than the last one |
| `EventWindows.CooldownCanBeForgotten` | src/event_recorder.cpp:476-487 | a run in which a third event opens inside the cooldown after the first, its trigger being earlier than the second's |
| `EventWindows.ReleasedInOrder` | src/event_recorder.cpp:538-585 | over every run the worker gets exactly the events the queue had room for, in order, each once |
| `EventWindows.QueueHasRoomForTwo` | src/event_recorder.cpp:558-568 | an event that ends is refused by the queue if and only if two jobs wait |
| `EventWindows.TriggersAreCounted` | src/event_recorder.cpp:751-823 | over every run every trigger is counted as opening or suppressed, and partial pre-rolls and post-rolls are counted as they are |
| `EventWindows.CompletedExactly` | src/event_recorder.cpp:587-671 | over every orderly run an event is completed if and only if directory, metadata and rename succeed and, with units, its video, without, its snapshot |
| `EventWindows.ClipsStartWithKeyFrames` | src/event_recorder.cpp:217-246 | every clip with units starts with a key frame that carries both parameter sets |
| `EventWindows.ClearForgets` | app/main.cpp:313-328 | after the history is cleared no clip reaches back behind that |
| `EventWindows.LatestIsNewest` | src/event_recorder.cpp:761-765 | the latest time is that of the newest trigger or observed unit |
| `EventGaps.OversizeUnitLeavesGap` | src/event_recorder.cpp:826-848 | a run in which a unit the ring rejects as oversize is missing from a finished clip that muxVideo accepts |
| `EventGaps.OversizeLeavesGapBetween` | src/event_recorder.cpp:790-848 | after every orderly run: an oversize unit leaves a gap in the next clip whenever the gate is free and the clip takes the units on both sides |
| `EventFront.FrontIsMinimal` | src/event_recorder.cpp:778-799 | whatever is delivered, if no trigger finds the encoder behind its whole pre-roll, no clip with a complete pre-roll has a later decodable unit at or before its requested start |
| `EventFront.LagDecides` | src/event_recorder.cpp:778-848 | with a positive pre-roll that condition is exact: it holds if and only if, whichever unit an orderly encoder delivers late, every clip starts as late as it could |
| `EventFront.ClipCanStartEarly` | src/event_recorder.cpp:778-848 | an orderly run from the initial state whose trigger finds the encoder behind, and whose clip then starts earlier than it need |
| `EventFront.AppendStartsLatest` | src/event_recorder.cpp:836-842 | an observed unit spoils that exactly when it is decodable and at or before the requested start |
| `EventClips.NewEventUnits` | src/event_recorder.cpp:778-799 | a new event's units are a slice of the output, and reach its end while the post-roll is open |
| `EventClips.ObserveAppends` | src/event_recorder.cpp:826-848 | observing the pending unit appends exactly that unit to the open clip, unless the clip already ends with it, and hands the clip over once the unit reaches its end |
| `EventClips.ObserveSameGeneration` | src/event_recorder.cpp:826-848 | observing the pending unit keeps the open clip, or the clip it finishes, a slice of the output |
| `EventRecorders.EventRecorder.Start` | src/event_recorder.cpp:729-749 | accepts triggers if and only if it runs already or its worker could be created, and keeps the conservation of events |
| `EventRecorders.EventRecorder.FinishLocked` | src/event_recorder.cpp:538-569 | seals the event and queues it, or counts it failed when two jobs wait; the cooldown runs from where it ended; conservation kept |
| `EventRecorders.EventRecorder.TriggerLocked` | src/event_recorder.cpp:761-823 | the in-place trigger is the specified one; it begins if and only if the recorder accepts and the gate is open, and an event left open asks for the pre-roll before and the post-roll after it |
| `EventRecorders.EventRecorder.CopyWindow` | src/event_recorder.cpp:790-799 | the copying loop gives the window and says whether it reaches the end |
| `EventRecorders.EventRecorder.ObserveEncoded` | src/event_recorder.cpp:826-848 | the in-place observation is the specified one |
| `EventRecorders.EventRecorder.TakeJob` | src/event_recorder.cpp:571-585 | queued jobs are taken in order and drained before the worker leaves |
| `EventRecorders.EventRecorder.CountWritten` | src/event_recorder.cpp:587-671 | every written event adds to exactly one of completed and failed, completed exactly for the outcomes written out |
| `EventRecorders.EventRecorder.StopLocked` | src/event_recorder.cpp:850-866 | stop closes admission and finishes the open event as partial; conservation kept |
| `EventRecorders.RecordClip` | src/event_recorder.cpp:538-848 | from new objects: delivery, trigger, a unit past the window, worker and counter give a muxable clip of exactly the two units, counted as its files turned out |
| `RtspTheorems.EveryRunKeepsInv` | src/rtsp_server.cpp:270-1744 | all invariants below hold after every list of steps, over any number of start/stop cycles |
| `RtspTheorems.RecoveryStates` | src/rtsp_server.cpp:865-1377 | Running or Completed means no source and a closed listener; Requested means current media, matching generation and a token; Completed means no media |
| `RtspTheorems.JobsAreForTheCurrentMedia` | src/rtsp_server.cpp:1191-1255 | a teardown job is only ever published for the current media generation and for the request that asked for it |
| `RtspTheorems.ReopensSafely` | src/rtsp_server.cpp:1313-1377 | after start's own opening, clients are accepted again only with no media, no bound source and every published job finished |
| `RtspTheorems.ReferencesAreLinear` | src/rtsp_server.cpp:865-1035 | each appsrc reference ever taken is in exactly one variable that still has to let it go, or in none and released exactly once |
| `RtspTheorems.StopReleasesEverything` | src/rtsp_server.cpp:1552-1714 | when stop has returned every reference ever taken has been released exactly once |
| `RtspTheorems.EpochsQuiesce` | src/rtsp_server.cpp:1541-1545 | once the wait returns no body of that callback epoch runs or will ever run, whatever is started later |
| `RtspTheorems.StreamsStartDecodable` | src/rtsp_server.cpp:1425-1480 | a new binding or encoder generation starts with a decodable unit at offset 0, offsets count up, one generation value means one source |
| `RtspFeederStart.FirstPushIsOpener` | src/rtsp_server.cpp:1425-1501 | over every run that leaves no stream-opening unit without a buffer, the first unit handed to push of every stream, source binding and encoder generation is decodable and has offset 0 |
| `RtspFeederStart.OpenersDecide` | src/rtsp_server.cpp:1464-1501 | that condition on a run is exact: it holds if and only if, whichever undecodable unit follows at any moment, every stream starts decodable |
| `RtspFeederStart.FailedOpenerStrands` | src/rtsp_server.cpp:1480-1484 | after any run, a stream-opening unit without a buffer lets an undecodable unit become the stream's first push |
| `RtspRuns.StreamCanStartUndecodable` | src/rtsp_server.cpp:1464-1501 | a run from creation in which that happens |
| `RtspTheorems.FailuresAreAttributed` | src/rtsp_server.cpp:1503-1537 | the feeder touches recovery only when the log ends with at least three failures of the current media generation and no success, flush, configuration, prepare, unprepare, recovery start, start or stop among them |
| `RtspTheorems.StaleResultIsIgnored` | src/rtsp_server.cpp:1503-1510 | a push result of an older media changes no field |
| `RtspResponses.ThreeFailuresAskForRecovery` | src/rtsp_server.cpp:1510-1523 | over every run a result of the current media that leaves three charged failures in a row always asks for its recovery, under a token |
| `RtspResponses.UnitsArePassedOn` | src/rtsp_server.cpp:1453-1484 | with a source bound a unit is passed on if and only if it is decodable or continues the feeder's stream |
| `RtspResponses.FeederStays` | src/rtsp_server.cpp:1432-1436 | the feeder leaves only when the server is stopping |
| `RtspResponses.WatchdogGoesAfterOverdue` | src/rtsp_server.cpp:1142-1187 | over every run a watchdog body goes on to recover the current media if and only if that is requested, in error, unpreparing for three seconds or preparing for ten |
| `RtspResponses.RecoveryBeginsExactly` | src/rtsp_server.cpp:1203-1255 | a teardown is published if and only if the server runs, that media is current, no recovery is under way and the slot is free |
| `RtspResponses.StaleRequestIsWithdrawn` | src/rtsp_server.cpp:1204-1213 | a request that has become stale is withdrawn and the source kept |
| `RtspResponses.FailedDispatchIsRetryable` | src/rtsp_server.cpp:1276-1300 | when a teardown cannot be dispatched the request is withdrawn and source and listener are kept |
| `RtspResponses.RecoveryFinishesExactly` | src/rtsp_server.cpp:1313-1377 | over every run a running recovery is completed if and only if its media is gone and every job done, and the listener then opens if and only if one could be created |
| `RtspResponses.NotificationsAreRecorded` | src/rtsp_server.cpp:956-1084 | what setup failure, prepare, unprepare, target state and bus error leave behind for the current media, with the token a request gets |
| `RtspResponses.BindsExactly` | src/rtsp_server.cpp:865-888 | a source is bound if and only if its media is current and not under recovery; the same element again changes nothing |
| `RtspResponses.StopWaitsForTeardown` | src/rtsp_server.cpp:1600-1650 | over every run stop asks the worker to leave only when no running recovery has an unfinished teardown |
| `RtspResponses.HealthyMediaStays` | src/rtsp_server.cpp:917-923 | over every run preparing or prepared media stays current, whatever is configured, until it is unprepared, retired or in neither status |
| `RtspTheorems.QuietForever` | src/rtsp_server.cpp:71-92 | a switched-off and drained epoch stays without bodies over every continuation |
| `RtspRuns.RecoveryCanComplete` | src/rtsp_server.cpp:1063-1377 | a run leads from a bound media through error, teardown, unprepare and completion to a reopened listener |
| `RtspRuns.HungMediaIsRecovered` | src/rtsp_server.cpp:1183-1186 | a run from creation in which media that never gets prepared is torn down |
| `RtspRuns.FailedPushesAreRecovered` | src/rtsp_server.cpp:1503-1523 | a run from creation in which three failed pushes lead to a teardown |
| `RtspListener.FailedListenerIsFinal` | src/rtsp_server.cpp:1348-1390 | once a listener could not be created after a finished recovery, no continuation opens it until new media is configured or the server stops |
| `RtspListener.ClosedUntilNextRecovery` | src/rtsp_server.cpp:917-936 | with no recovery under way, a closed listener stays closed in every continuation until another teardown is published or the server stops |
| `RtspListener.NewMediaKeepsItClosed` | src/rtsp_server.cpp:917-936 | new media of the current factory, and only that, ends the finished recovery, and leaves the listener closed |
| `RtspRuns.ListenerCanStayClosed` | src/rtsp_server.cpp:1373-1376 | a run from creation reaches the state with the listener that could not be created |
| `RtspRuns.RecoveryCanBeWithdrawn` | src/rtsp_server.cpp:917-936 | a run from creation in which new media withdraws a running recovery and leaves the listener closed |
| `RtspSections.JobsMatchTheirGeneration` | src/rtsp_server.cpp:1203-1255 | the job carries the requested generation and its token |
| `RtspSections.ResumeIsSafe` | src/rtsp_server.cpp:1348-1377 | the section that reopens finds no media, no source and no unfinished job |
| `RtspSections.WatchdogSectionsKeep` | src/rtsp_server.cpp:1191-1377 | beginning, cancelling, finishing and resuming keep the recovery and job invariants |
| `RtspSections.UnpreparedKeeps` | src/rtsp_server.cpp:988-1042 | unprepare keeps them, whether or not it ends a recovery |
| `RtspSections.ConfiguredKeeps` | src/rtsp_server.cpp:902-968 | a new configuration keeps them, even out of Running |
| `RtspSections.RequestsKeep` | src/rtsp_server.cpp:1063-1084 | a failed setup and a bus error keep them, even out of Running |
| `RtspOwnership.UnrefsOwn` | src/rtsp_server.cpp:889-894 | the conditions before the unrefs outside the lock are right: each releases exactly what its callback owns there, never more and never less |
| `RtspOwnership.LeaveOwns` | src/rtsp_server.cpp:84-92 | a callback may end at any time after its last statement: it owns nothing then |
| `RtspOwnership.TaskOwns` | src/rtsp_server.cpp:831-1042 | every callback step keeps each reference in exactly one place |
| `RtspOwnership.WorkerOwns` | src/rtsp_server.cpp:683-733 | the worker releases the source of the job it has taken, once |
| `RtspOwnership.StopOwns` | src/rtsp_server.cpp:1552-1714 | stop takes the field's reference into a local and releases it |
| `RtspFeeder.ReportKeepsEvents` | src/rtsp_server.cpp:1503-1537 | a current result is charged or clears the counter, any other leaves it |
| `RtspServers.RtspServer.OnMediaConfigure` | src/rtsp_server.cpp:902-968 | keeps the invariants; it accepts if and only if the server runs, the factory is current and there is no media or media on its way out; accepted media is current, preparing, has no source yet and no recovery, under a newer generation; the old source is handed to the callback |
| `RtspServers.RtspServer.BindMediaSource` | src/rtsp_server.cpp:865-900 | keeps the invariants; it accepts if and only if the media is current and no recovery is asked for or running, and then the element is bound; the source it replaces is handed back |
| `RtspServers.RtspServer.OnMediaUnprepared` | src/rtsp_server.cpp:988-1042 | keeps the invariants; media and source are gone, a running recovery goes on and any other state is withdrawn |
| `RtspSections.StatusesKeep` | src/rtsp_server.cpp:970-1054 | the sections that only record a media status keep the recovery and job invariants |
| `RtspServers.RtspServer.OnMediaError` | src/rtsp_server.cpp:1063-1106 | keeps the invariants; recovery of the current generation is asked for under a non-zero token, a new one for a first request only |
| `RtspServers.RtspServer.WatchdogTick` | src/rtsp_server.cpp:1108-1189 | it asks for recovery, of the current media, if and only if that is requested, in error, unpreparing for three seconds or preparing for ten |
| `RtspServers.RtspServer.RecoverMedia` | src/rtsp_server.cpp:1191-1311 | keeps the invariants; it begins if and only if the server runs, that media is current, no recovery is under way and the slot is free; the job is for the current generation and under the request's token, owns the source, and leaves no source and no listener |
| `RtspServers.RtspServer.FinishRecovery` | src/rtsp_server.cpp:1313-1337 | keeps the invariants; it completes a recovery if and only if the server runs, one is running, no media is current and every job ever published is done |
| `RtspServers.RtspServer.ResumeListener` | src/rtsp_server.cpp:1348-1390 | keeps the invariants; it resumes if and only if the server runs, a recovery is completed and a listener could be created, and then there is no media, no source and no job undone |
| `RtspServers.RtspServer.ReportPush` | src/rtsp_server.cpp:1503-1537 | keeps the invariants; failures of the current media are counted in a row, the third and every later one asks for its recovery, nothing else does, and a stale result changes nothing |
| `RtspServers.RtspServer.StopRetire` | src/rtsp_server.cpp:1660-1690 | keeps the invariants; no media, source or recovery is left, and the source is handed to a local |
| `RtspServers.RtspServer.StartWorker` | src/rtsp_server.cpp:655-681 | keeps the invariants; a new worker starts with every earlier job done |
| `RtspServers.RtspServer.WorkerDone` | src/rtsp_server.cpp:726-731 | keeps the invariants; with nothing in the slot every job ever published is done |
| `RtspServers.RtspServer.WorkerLoop` | src/rtsp_server.cpp:683-733 | once a stop is asked for, the worker deals with the slot, releases exactly that job's source, and leaves no job undone and no source behind |
| `RtspServers.RecoverOnce` | src/rtsp_server.cpp:270-1390 | from a new object: start, bound media, bus error, teardown, release of the source, unprepare and completion end with the listener open again |
| `LatestFrameQueues.LatestFrameQueue.Push` | include/eggvision/latest_frame_queue.hpp:15-24 | the newest value replaces the old one, a shut queue takes nothing |
| `LatestFrameQueues.LatestFrameQueue.WaitPop` | include/eggvision/latest_frame_queue.hpp:26-35 | takes the value; none is taken exactly when the queue is shut |
| `LatestFrameQueues.LatestFrameQueue.Close` | include/eggvision/latest_frame_queue.hpp:42-47 | a shut queue holds nothing |
| `LatestFrameQueues.LatestFrameQueue.Reopen` | include/eggvision/latest_frame_queue.hpp:49-56 | no value crosses into the next opening |
| `CameraLeases.EveryRunKeepsInv` | src/camera_capture.cpp:238-431 | placement, counting and admission invariants over every interleaving |
| `CameraLeases.AdmissionWithin` | src/h264_encoder.cpp:159-171 | a frame that passes the test leaves the encoder, with that frame, below the limit |
| `CameraStarvation.RequestsAreConserved` | src/camera_capture.cpp:341-431 | each request start has reached is in exactly one of queued, completing, leased, dying, releasing, returning, recycling, popped, failed, dropped |
| `CameraStarvation.OutstandingCountsLeases` | src/camera_capture.cpp:362-387 | outstanding_leases equals the number of leases not yet released, and its peak never exceeds the number of requests |
| `CameraStarvation.ConsumersLeaveOne` | src/h264_encoder.cpp:159-171 | the encoder holds at most buffer_count - reserve - 1 leases, inference at most two, and outside the callback at most buffer_count - 1 requests are leased |
| `CameraStarvation.ClosingLetsGo` | include/eggvision/latest_frame_queue.hpp:42-47 | a queue that is closed holds nothing, and what it held is held by another or on its way back |
| `CameraStarvation.StarvationExactly` | src/camera_capture.cpp:216-236 | some run lets the consumers hold every request if and only if fewer pairs than buffer_count were allocated |
| `CameraStarvation.CameraIsFed` | src/camera_capture.cpp:402-431 | with buffer_count pairs and no failed queueing, whatever order destructors and recycler work in, they finish within a bound and then the camera has a request, though no consumer let go of one |
| `CameraCaptures.CameraCapture.QueueAll` | src/camera_capture.cpp:263-269 | the start loop succeeds if and only if every request is accepted, and then all are queued; otherwise the capture is stopping and the refused request is the last one reached |
| `CameraCaptures.CameraCapture.OnRequestCompleted` | src/camera_capture.cpp:341-366 | a finished request, and only that, comes under a counted lease; a failed one waits; a cancelled one, or any when stopping, is left alone; every request stays in exactly one place |
| `CameraCaptures.CameraCapture.Release` | src/camera_capture.cpp:378-387 | a lease that ends is uncounted and its request goes to the end of the deque, or is given up when stopping; every request stays in exactly one place |
| `CameraCaptures.CameraCapture.RecycleOne` | src/camera_capture.cpp:411-431 | one turn of the recycler: it leaves exactly when stopping, else the request that waited longest, and waits no more, is with the camera or counted as failed |
| `CameraCaptures.CameraCapture.GiveUpWaiting` | src/camera_capture.cpp:286-293 | nothing waits any more, everything that waited is given up, and every request stays in exactly one place |
| `CameraCaptures.CaptureOne` | src/camera_capture.cpp:262-431 | from a new object: a request is queued, completed, leased, released and recycled, and is with the camera again |
| `CameraCaptures.Submit` | src/h264_encoder.cpp:159-171 | the slot takes the frame unless the encoder is off or the counter has reached the limit |
| `I420Layout.LumaPixel` | src/i420.cpp:163-235 | every Y byte of the copy is the specified source pixel, for one- and three-plane strided layouts |
| `I420Layout.ChromaPixels` | src/i420.cpp:163-235 | the same for U and V at half resolution |
| `I420Layout.CopyReadsInBounds` | src/i420.cpp:190-234 | every row the copy reads lies inside a plane |
| `I420Layout.PackedSize` | src/i420.cpp:222-234 | the copy has exactly the frame's size |
| `I420Layout.ZeroCopyIsTheCopy` | src/i420.cpp:84-131 | a compact layout can be copied, and its mapping already holds exactly the bytes of the copy |
| `I420.CheckedMultiply` | src/i420.cpp:16-22 | succeeds if and only if the product fits size_t |
| `I420.CalculateSizes` | src/i420.cpp:24-36 | succeeds if and only if the dimensions are even, positive and the frame size fits; no step wraps |
| `I420.RequiredRowSpan` | src/i420.cpp:38-52 | succeeds if and only if the rows are well formed and their span fits |
| `I420.ContainsBytes` | src/i420.cpp:54-68 | true if and only if the bytes are inside length, payload and mapping |
| `I420.CopyRows` | src/i420.cpp:70-80 | the target becomes its old contents with the rows written over it, and nothing else |
| `I420.InspectCompactI420` | src/i420.cpp:84-131 | Compatible if and only if the layout is compact; any other status is the one of the first requirement that fails, in the order of the checks |
| `I420.LocatePlanes` | src/i420.cpp:169-220 | plane origins exist if and only if the layout is copyable and the size fits; otherwise the error is the one of six disjoint conditions that holds |
| `I420.CopyMappedI420` | src/i420.cpp:163-235 | succeeds if and only if the layout is copyable and the size fits, with exactly the packed frame; otherwise the destination is empty |
| `I420.WideSizesFit` | src/i420.cpp:24-36 | where size_t has 64 bits a copyable layout never fails for its size |
| `I420.PathsAgree` | src/i420.cpp:84-235 | whenever inspection says Compatible the copy succeeds with the same bytes |
| `AnnexB.InspectH264ByteStream` | src/h264_bitstream.cpp:21-43 | on arbitrary bytes the flags name exactly the recognised start codes with headers of types 5, 7 and 8 |
| `AnnexB.ScanInvertsSerialise` | src/h264_bitstream.cpp:6-43 | for NAL units with a header and without a start code inside, joined by any mix of start codes, the flags say exactly which types occur |
| `AnnexB.ScanShowsUnits` | src/h264_bitstream.cpp:6-43 | for any list of NAL units without a start code inside, empty ones allowed, the flags say exactly which types a unit has that is not hidden by the empty unit before it |
| `AnnexB.RecognisedUnless` | src/h264_bitstream.cpp:26-41 | a unit's start code is recognised if and only if a byte follows it and the unit is not hidden: three-byte code, empty unit before it, and that one not hidden |
| `AnnexB.StartsAreUnits` | src/h264_bitstream.cpp:6-16 | in such a stream only the units' own codes are starts |
| `AnnexB.EmptyUnitHidesTheNext` | src/h264_bitstream.cpp:26-41 | after one empty unit the next is reported if and only if its code has four bytes; after two, if and only if its code has four or the second empty unit's has three |
| `DmaBufSync.DistinctIsFirstSeen` | src/dma_buf_sync.cpp:46-56 | the descriptors are listed once each, in the order first seen |
| `DmaBufSync.UniqueFds` | src/dma_buf_sync.cpp:46-56 | fails if and only if a descriptor is negative, else gives the distinct ones |
| `DmaBufSync.DmaBufReadSync.constructor` | src/dma_buf_sync.cpp:35-77 | starts every distinct descriptor in order, or undoes the started prefix when one fails |
| `DmaBufSync.DmaBufReadSync.Synchronize` | src/dma_buf_sync.cpp:84-91 | it returns the first result that is neither EINTR (4) nor EAGAIN (11), in exactly one completed call |
| `DmaBufSync.DmaBufReadSync.Finish` | src/dma_buf_sync.cpp:93-106 | one completed END per started descriptor, last first, reporting the first failure |
| `DmaBufSync.Lifetime` | src/dma_buf_sync.cpp:35-106 | whether closed by finish, a failed constructor or the destructor, the device sees the STARTs of a prefix and the matching ENDs in reverse |
| `DmaBufSync.EndedOnce` | src/dma_buf_sync.cpp:93-106 | each successful START is ended exactly once, nothing else is |
| `DmaBufSync.SessionsNest` | src/dma_buf_sync.cpp:93-98 | the first descriptor started is the last ended, and so inwards |
| `Nms.NonMaximumSuppression` | src/inference.cpp:156-176 | the result is the survivors of some confidence order, sorted, part of the input, and separate within each class |
| `Nms.ResultIsSeparate` | src/inference.cpp:156-176 | for every order std::sort may give: sorted sub-multiset, no two kept boxes of a class over the threshold |
| `Nms.EveryDroppedBoxIsCovered` | src/inference.cpp:164-175 | every dropped box is over the threshold with a kept one of its class that is at least as confident |
| `Nms.DroppedIsCovered` | src/inference.cpp:164-175 | a position is kept if and only if no survivor before it covers it |
| `Nms.SecondRunIsIdle` | src/inference.cpp:156-176 | with distinct confidences a second run changes nothing |
| `Nms.SecondRunDropsNothing` | src/inference.cpp:156-176 | with ties too a second run drops nothing when overlap is symmetric |
| `Nms.OrderDoesNotMatter` | src/inference.cpp:156-163 | with distinct confidences the order of the input does not matter |

## Left out

- Wrap-around of 64-bit counters and generations (`bytes_`, `generation_`, `media_generation_`, tokens, metrics): they are unbounded naturals; size_t arithmetic of the I420 code and the saturating addition of timestamps are modelled with their limits.
- Liveness: that a recovery ends, that a thread is scheduled, that a wait returns; how long a status has lasted is a free choice of a step.
- RTSP session cleanup and clients: their state lives inside the session pool.
- RtspServers.RtspServer: each method is one critical section on its own object; the interleaving of the sections and the releases outside the lock are modelled on values in `RtspSystem`.
- CameraCaptures.CameraCapture: the deque and the flag; the leases and the interleaving are in `CameraLeases`, and metrics other than the lease counter are not modelled.
- Camera restart after stop: the application captures once.
- Failure paths of start (a thread or source that cannot be created): start is modelled as its steps in order, and stop may follow any of them.
- Muxing, JPEG encoding, metadata, directories and renames: only whether each succeeded.
- Encoder threads beyond the leases they hold, and the construction of access units from GStreamer buffers: the encoder's output is constrained by the premises above.
- Letterbox, box restoration, tensor normalisation and the value of intersection-over-union: single-precision rounding is their point.
- Destination memory running out in the I420 copy, logging, metrics, error texts, test hooks, argument parsing, inference backends and scripts: input/output or easy members.
