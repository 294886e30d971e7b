# MatrixMedia media switch: a verified model

MatrixMedia's media plane is the Go service `mm-switch`. It forwards RTP packets from publishers and
file sources to viewers, records broadcasts to WebM, and meters egress. The Rust crate `mm-api`
drives it for ad breaks and watches its servers. This project models the logic of both
in Dafny and proves what they are meant to guarantee, over all inputs, all interleavings and all runs.

`dafny verify dfyconfig.toml` checks everything. Nothing was executed.

| file | subject |
|---|---|
| `Media.dfy` | wrapped integers, shared types |
| `TrackClock.dfy` | a recorder track's 32-bit clock, and the unbounded ledger it stands for |
| `RecorderCore.dfy` | what each critical section of the recorder does |
| `WebMRecorder.dfy` | the recorder as a class, method by method |
| `RecorderMachine.dfy` | every interleaving of fan-out, writer, pause, resume and teardown |
| `RecorderTimeline.dfy`, `RecorderPauses.dfy` | the clocks are on the ledger; what pausing takes out of the file |
| `RecorderRuns.dfy` | runs that end in a wrong file |
| `RecorderFrames.dfy`, `RecorderKeyframe.dfy`, `RecorderErrors.dfy` | what is in the file, how it starts, when it fails |
| `RecorderLocks.dfy` | teardown cannot deadlock, and when a viewer can |
| `Dispatch.dfy` | panic-contained fan-out |
| `ViewerTimeline.dfy`, `ViewerInterleaving.dfy` | the spliced timeline a viewer sees; two handlers at once |
| `ViewerActivation.dfy` | the pending slot |
| `MediaSwitch.dfy`, `Egress.dfy` | routing, ownership; metering and conservation |
| `Vp8.dfy`, `Ivf.dfy` | the two parsers and their round trips |
| `AdBreak.dfy` | the race that ends an ad break |
| `Probe.dfy`, `PublisherState.dfy` | server status; whether a source is active |

How it is built: an object the source updates in place is a class whose methods are proved equal to
a specification function on values (`View() == Spec(old(View()), ...)`). The same functions are the steps of
a state machine. A run is any sequence of actions, and an action that is not possible leaves the state
alone. The theorems are about every run. Packets carry the sender's true clock; the code only ever sees it
modulo 2^32. Map iteration takes any order. I/O outcomes (disk writes, panics, timeouts) are part of the input.

Where the code falls short of a property the model keeps the code, gives a run that shows it, and states
exactly when the property does hold:

- Pausing takes out more than the paused time if the last packet seen was not written as a block. Resume's
  comment says the shift stays the same if no packets arrived during the pause; the code adds last seen less
  last written. `PausedMidFrame`, `PauseAloneShiftsIff`, `PausedTimeIsRemoved`.
- A second pause before a write, a resume before the first keyframe and a packet still queued at a pause
  break the timeline. `PausedTwice`, `ResumedBeforeKeyframe`, `QueuedAtPause`; `ResumeAgreesIff`,
  `ResumeBeforeFirstBlock`, `LateWriteGoesBack`.
- An empty frame start after a keyframe start lets an inter frame, or an empty block, open the file.
  `EmptyStartLetsAnInterFrameThrough`, `EmptyFrameOpensTheFile`; `FrameStartIsSafeIff`.
- A displaced viewer's bytes are never folded, a viewer changing programme takes its past bytes along, a
  viewer between the map and the fold is missed by a poll, and one folded after the poll copied its list is
  counted twice. `DisplacedBytesAreLost`, `ProgrammeChangeTakesPastBytes`, `RemovalHidesUntilFold`,
  `FoldedAfterTheCopyCountsTwice`; `OwedDropsIff`, `PollCounts`.
- Overlapping activations leave two subscriptions, whose packets may then overtake each other.
  `OverlapLeavesTwo`, `OverlapReorders`; `CleanActivationIff`, `InOrderIff`, `BridgesHeldIff`.
- A closed or detached viewer is subscribed again by an activation that was pending or under way.
  `LateActivationAfterClose`, `ClosedInFlight`, `ClosedUnpublished`, `DetachedButPending`;
  `UnsubscribedForGoodIff`.
- `SwitchTo`, `activateSource` and `DetachSource` unsubscribe under the viewer's mutex, the order that the
  comment on `Close` warns against. `LeavingDeadlocks`; `ViewerDeadlocksIff`.
- A viewer moved while a skip waits out the minimum view time is sent back on the old node.
  `MovedDuringTheWait`; `SentWhereTheViewerIsIff`.

## Model

| member | source | states |
|---|---|---|
| `TrackClock.WritePosition` | services/mm-switch/record_webm.go:613-616 | two wrapped uint32 subtractions land exactly on the unbounded ledger's position, at or after everything already in the file, for every write at or past the mark |
| `TrackClock.WholeMilliseconds` | services/mm-switch/record_webm.go:613-661 | a position is n milliseconds if and only if it lies between 90 n and 90 (n + 1) ticks of the video clock, or 48 n and 48 (n + 1) of the audio clock |
| `TrackClock.LateWriteGoesBack` | services/mm-switch/record_webm.go:613-615 | a packet from before the mark (still queued at a Pause) is written at or after the end of the file if and only if it is at or past the mark or underflows, and an underflowing one lands 2^32 too far |
| `TrackClock.ReleaseShift` | services/mm-switch/record_webm.go:387-392 | what Resume adds to the shift, in unbounded integers: last seen less the timestamp captured at Pause |
| `TrackClock.ResumeAgreesIff` | services/mm-switch/record_webm.go:363-396 | Resume keeps the clock on the ledger if and only if the timestamp captured at Pause is the ledger's mark |
| `TrackClock.SecondPauseCountsTheGapTwice` | services/mm-switch/record_webm.go:370-392 | pausing again before a write cuts the first gap out twice, and the clock stays right if and only if that gap was empty |
| `TrackClock.PauseAloneShiftsIff` | services/mm-switch/record_webm.go:375-396 | with no packet in between, Pause and Resume leave the shift alone if and only if the track has not begun or the last packet seen was the last one written |
| `TrackClock.ResumeBeforeFirstBlock` | services/mm-switch/record_webm.go:604-615 | a Resume between the first packet and the first keyframe: the first block starts at zero if and only if the last timestamp seen is zero |
| `RecorderTimeline.WriteKeepsClock` | services/mm-switch/record_webm.go:613-616 | one write, the first or a later one, stays on the ledger and never before the previous block |
| `RecorderTimeline.RunKeeps` | services/mm-switch/record_webm.go:363-396 | over every disciplined interleaving the clocks of both tracks, the queue, the writer and the blocks stay on the ledgers |
| `RecorderTimeline.BlocksAreOnTheLedger` | services/mm-switch/record_webm.go:613-616 | over every disciplined run each block carries its ledger position in milliseconds; positions start at zero, never underflow and never decrease |
| `RecorderPauses.PausedTimeIsRemoved` | services/mm-switch/record_webm.go:363-396 | over every disciplined run, from nothing but the clocks of arrivals and blocks: a block is stamped with the sender's time since the first block, less all time between Pause and Resume, less all time between a last block and a Pause; and nothing but paused time is gone if and only if at every Pause the last packet seen was a block's |
| `RecorderPauses.OnlyPausedTimeIsRemoved` | services/mm-switch/record_webm.go:363-396 | then every stamp is the floor, in milliseconds, of the elapsed time less exactly the paused time |
| `RecorderPauses.LostStep` | services/mm-switch/record_webm.go:378-396 | only a Resume loses recorded time, and only if the last packet seen before the Pause was no block's |
| `RecorderRuns.PausedMidFrame` | services/mm-switch/record_webm.go:363-396 | a run: paused and resumed with nothing in between, mid-frame, 100 ms of recorded time are gone |
| `RecorderRuns.PausedTwice` | services/mm-switch/record_webm.go:370-392 | a run: paused twice with no block in between, the next block is stamped almost 2^32 ticks late |
| `RecorderRuns.ResumedBeforeKeyframe` | services/mm-switch/record_webm.go:604-615 | a run: resumed before the first keyframe, the file starts almost 2^32 ticks late |
| `RecorderRuns.QueuedAtPause` | services/mm-switch/record_webm.go:363-396 | a run: a packet queued at the Pause is stamped almost 2^32 ticks late and the next block goes back to 20 ms |
| `WebMRecorder.WebMRecorder.constructor` | services/mm-switch/record_webm.go:163-273 | a new recorder is the initial state of the interleaving model |
| `WebMRecorder.WebMRecorder.AcceptPacket` | services/mm-switch/record_webm.go:530-558 | the critical section: closed ignores, paused only notes the timestamp, async enqueues or drops; whether the caller goes on inline |
| `WebMRecorder.WebMRecorder.OnPacket` | services/mm-switch/record_webm.go:530-562 | the whole callback with nothing between the critical section and the inline processing |
| `WebMRecorder.WebMRecorder.HandleVP8` | services/mm-switch/record_webm.go:567-623 | the new video state is the specification's, and a block is handed over exactly when the track grew |
| `WebMRecorder.WebMRecorder.AssembleVP8` | services/mm-switch/record_webm.go:574-596 | frame assembly refines the specification FrameReassembles is about |
| `WebMRecorder.WebMRecorder.EmitVP8` | services/mm-switch/record_webm.go:593-622 | keyframe gate, rebase, time stamp and block refine the specification of the timeline theorem |
| `WebMRecorder.WebMRecorder.HandleOpus` | services/mm-switch/record_webm.go:654-669 | the same for an Opus packet |
| `WebMRecorder.WebMRecorder.NoteWriteResult` | services/mm-switch/record_webm.go:632-650 | counting a write outcome and failing at the threshold, as WriteErrorRule takes it |
| `WebMRecorder.WebMRecorder.MarkFailed` | services/mm-switch/record_webm.go:316-331 | fails an open recorder and leaves a closed one alone |
| `WebMRecorder.WebMRecorder.ProcessItem` | services/mm-switch/record_webm.go:300-307 | one packet through the writer, write outcome included |
| `WebMRecorder.WebMRecorder.WriteNext` | services/mm-switch/record_webm.go:280-296 | one turn of the writer loop takes the oldest queued packet |
| `WebMRecorder.WebMRecorder.WriteLoop` | services/mm-switch/record_webm.go:280-296 | the loop over a closed queue is the drain the specification defines, and leaves the queue empty |
| `WebMRecorder.WebMRecorder.Pause` | services/mm-switch/record_webm.go:363-373 | only a recording recorder is paused; both tracks capture the last written timestamp |
| `WebMRecorder.WebMRecorder.Resume` | services/mm-switch/record_webm.go:378-396 | only a paused recorder resumes; each begun track's shift grows by a wrapped difference |
| `WebMRecorder.WebMRecorder.WriteUpTo` | services/mm-switch/record_webm.go:280-296 | the writer during the wait: the turns the drain timeout lets through, oldest packet first |
| `WebMRecorder.WebMRecorder.Finalise` | services/mm-switch/record_webm.go:407-449 | intake stops first, the queue is drained with the tracks open until empty or timed out, then the tracks close; a no-op once closed |
| `RecorderCore.WholeDrain` | services/mm-switch/record_webm.go:426-434 | a drain that does not time out is the writer loop run to its end, with nothing left queued |
| `RecorderFrames.FinaliseWritesTheQueue` | services/mm-switch/record_webm.go:407-449 | Finalise on an open recorder, for every disk and timeout: the packets it has time for are written, the oldest first, before the tracks close, every Opus payload and every VP8 packet among them; the rest stays queued |
| `RecorderFrames.CallbackMeans` | services/mm-switch/record_webm.go:530-562 | the callback in each state: nothing once closed, only the clock while paused; recording, the inline recorder has the packet in the file at once and never fails itself |
| `RecorderMachine.Teardown` | services/mm-switch/record_webm.go:316-449 | in every interleaving: who closed the recorder, in which final state it is, that only an open one has intake, and how often the queue has been closed |
| `RecorderMachine.FinalStatesAbsorb` | services/mm-switch/record_webm.go:316-449 | finished and failed are absorbing, whatever happens afterwards |
| `RecorderMachine.QueueSafety` | services/mm-switch/record_webm.go:530-558 | in every interleaving the queue is closed at most once and never sent to afterwards; offered equals dropped plus queued plus taken; handled is a prefix of enqueued |
| `RecorderMachine.TakesUpTo1024` | services/mm-switch/record_webm.go:546-556 | an open, recording recorder queues every packet until 1024 are queued, and drops and counts any further one |
| `RecorderMachine.DropsIffFull` | services/mm-switch/record_webm.go:530-558 | after any run, a step drops a packet if and only if one arrives while recording with 1024 queued; any other is queued last |
| `RecorderMachine.FinaliseFlushes` | services/mm-switch/record_webm.go:407-449 | a Finalise that neither times out nor meets a writer panic has every enqueued packet handled before the tracks may close |
| `RecorderMachine.FinaliseIsARun` | services/mm-switch/record_webm.go:407-449 | from any open state with the writer idle, the fine-grained run of a Finalise that drains, and of one that times out after any number of turns, ends in exactly the sequential Finalise the class implements |
| `RecorderMachine.FailuresAreRuns` | services/mm-switch/record_webm.go:316-360 | the quarantine hook on any open recorder fails it and closes its queue once; so does a writer panic, which also ends the writer |
| `RecorderMachine.UndisturbedTurn` | services/mm-switch/record_webm.go:280-307 | the writer's fine steps, run alone, are the turn of the sequential writer the class implements, on the oldest packet |
| `RecorderFrames.FrameReassembles` | services/mm-switch/record_webm.go:574-622 | whatever lost packets left in the buffer, a frame that arrives whole is written as one block with its packets' bodies in order and its own key flag, or dropped before the first keyframe |
| `RecorderFrames.CleanFinaliseKeepsAllAudio` | services/mm-switch/record_webm.go:407-449 | after a clean Finalise the audio track holds every enqueued Opus packet, unchanged and in order |
| `RecorderFrames.CleanFinaliseKeepsAllFrames` | services/mm-switch/record_webm.go:407-449 | after a clean Finalise every VP8 frame enqueued whole, from a whole keyframe on, is a block of the file with its own bytes and key flag, whatever was lost around it |
| `RecorderFrames.FramesStayInOrder` | services/mm-switch/record_webm.go:574-622 | frames that follow each other are blocks that follow each other |
| `RecorderErrors.WriteErrorRule` | services/mm-switch/record_webm.go:632-650 | over every run: an open recorder never had ten failures in a row, one failed by write errors was failed at the first such point, and a streak during a Finalise leaves it finished |
| `RecorderErrors.TenFailuresFail` | services/mm-switch/record_webm.go:632-650 | the other half: an open recorder whose last ten writes failed is failed by its writer's next step |
| `RecorderErrors.NothingWrittenAfter` | services/mm-switch/record_webm.go:316-331 | after a write-error failure no block is handed to either track, ever |
| `RecorderErrors.StreakIsLastTen` | services/mm-switch/record_webm.go:632-646 | the streak counter is at the threshold if and only if the last ten outcomes are failures |
| `RecorderKeyframe.FileStartsOnKeyframe` | services/mm-switch/record_webm.go:574-616 | over every run with non-empty frame starts and any losses, the first block is flagged key and its first byte has the P bit clear |
| `RecorderKeyframe.FileStartsAtZero` | services/mm-switch/record_webm.go:598-616 | over every run with no Resume between the first video packet and the first block, the first block is at time zero |
| `RecorderKeyframe.FirstBlockTime` | services/mm-switch/record_webm.go:598-616 | the first block is at time zero if and only if the shift is zero or within the clock's last millisecond |
| `RecorderKeyframe.FrameStartKeepsKeyInvIff` | services/mm-switch/record_webm.go:580-611 | which frame starts, with or without the marker, keep the invariant that the pending frame is what its key flag says |
| `RecorderKeyframe.FrameStartIsSafeIff` | services/mm-switch/record_webm.go:580-616 | after a frame start, every file that can follow starts on a keyframe if and only if the start is not empty, or no keyframe start was pending, or a block is already written, or the tracks are closed |
| `RecorderRuns.EmptyStartLetsAnInterFrameThrough` | services/mm-switch/record_webm.go:580-611 | a run: after a keyframe start, an empty start opens the file with whatever follows |
| `RecorderRuns.EmptyFrameOpensTheFile` | services/mm-switch/record_webm.go:580-611 | a run: after a keyframe start, an empty frame opens the file with an empty block flagged key |
| `RecorderLocks.TeardownCannotDeadlock` | services/mm-switch/record_webm.go:316-434 | any number of goroutines doing fan-out to recorders and viewers, quarantine, Finalise, markFailed, Pause, Resume, subscription, registration, source removal, and viewers routed, activated and closed, in any interleaving: a holder of a recorder's or viewer's mutex never waits for a lock, nobody enters or leaves a recorder's section under the switch lock, someone can always move, and all can finish |
| `RecorderLocks.SafeFanOut` | services/mm-switch/dispatch.go:56-99 | fan-out to any handlers, with quarantine and its hooks, takes locks only upwards in the order switch, source, recorder or viewer |
| `RecorderLocks.SafeFinalise` | services/mm-switch/record_webm.go:407-449 | Finalise takes locks only upwards in that order |
| `RecorderLocks.SafeMarkFailed` | services/mm-switch/record_webm.go:316-349 | markFailed takes locks only upwards in that order |
| `RecorderLocks.TeardownWaits` | services/mm-switch/record_webm.go:316-449 | what markFailed, Finalise and the hook wait for, in order |
| `RecorderLocks.FanOutWaits` | services/mm-switch/dispatch.go:56-99 | a fan-out waits for the source, then every handler's mutex, and after a panic for the source again and every hook's locks |
| `RecorderLocks.SafeHook` | services/mm-switch/switch.go:64-78 | the quarantine hook takes locks upwards and has let go of the switch lock before it touches the recorder's |
| `RecorderLocks.SafeRemoval` | services/mm-switch/switch.go:123-145 | stopping a source and detaching idle viewers under the switch lock takes locks upwards |
| `RecorderLocks.SafeActivation` | services/mm-switch/viewer.go:224-319 | an activation with nothing to unsubscribe takes locks one at a time, the replayed keyframe included |
| `RecorderLocks.SafeClosing` | services/mm-switch/viewer.go:435-457 | Close unsubscribes and waits with the viewer's mutex released |
| `RecorderLocks.SomeoneCanMove` | services/mm-switch/record_webm.go:316-434 | with locks taken upwards, unfinished goroutines always include one that can move, even with writers barring readers |
| `RecorderLocks.ViewerDeadlocksIff` | services/mm-switch/viewer.go:182-191 | a viewer that unsubscribes from a source under its own mutex while a source fans out to any handlers: some schedule ends in a deadlock if and only if it is the same source and the viewer is among the handlers |
| `RecorderLocks.LeavingDeadlocks` | services/mm-switch/viewer.go:321-329 | the schedule that gets there, wherever the viewer stands among the handlers |
| `Dispatch.Source.SafeDispatch` | services/mm-switch/dispatch.go:40-51 | the handler is called once and the result says whether it returned |
| `Dispatch.Source.DispatchBurstTo` | services/mm-switch/dispatch.go:70-81 | one subscriber's share of a burst stops at its first panic |
| `Dispatch.Source.DispatchAllPackets` | services/mm-switch/dispatch.go:70-81 | in whatever order the map is walked, deliveries are the burst's and the returned ids are exactly the subscribers that panicked, each once |
| `Dispatch.Source.DispatchAll` | services/mm-switch/dispatch.go:56-64 | the same for one packet: a panic does not stop the walk |
| `Dispatch.Source.QuarantineSubscribers` | services/mm-switch/dispatch.go:87-99 | exactly the named subscribers leave the map, then the hook is called for each, in order |
| `Dispatch.Source.Fanout` | services/mm-switch/source_file.go:298-303 | dispatch and quarantine together are a burst of one, with one hook call for each subscriber that left and no other |
| `Dispatch.Source.FanoutPackets` | services/mm-switch/source_file.go:307-312 | the same for the specified burst |
| `Dispatch.BurstIsSingles` | services/mm-switch/dispatch.go:70-99 | a burst gives every subscriber the same deliveries and leaves the same map as one fan-out with quarantine per packet |
| `Dispatch.HandedAPrefix` | services/mm-switch/dispatch.go:70-81 | a handler gets a prefix of the burst: all of it, or up to and including the packet it first panicked on |
| `Dispatch.RunsAreIsolated` | services/mm-switch/dispatch.go:40-99 | over any run of bursts, whoever else panics, subscribes or unsubscribes, a subscriber gets exactly what it would get alone, and is still subscribed if and only if it never panicked |
| `Dispatch.QuarantinedGetsNothing` | services/mm-switch/dispatch.go:83-99 | a quarantined subscriber gets nothing more until it subscribes again |
| `Dispatch.SurvivorGetsEverything` | services/mm-switch/dispatch.go:40-99 | one that never panics gets every packet in order, whoever else panics |
| `Dispatch.JoiningAndLeaving` | services/mm-switch/source_webrtc.go:178-200 | a handler that joins is handed the next burst up to its first panic, one that leaves is not, and neither changes what others are handed |
| `ViewerTimeline.Viewer.OnVideo` | services/mm-switch/viewer.go:248-287 | what is skipped, what is sent, and the new counters and offset of viewer and activation |
| `ViewerTimeline.Viewer.OnAudio` | services/mm-switch/viewer.go:288-312 | the same for audio, which has no gate |
| `ViewerTimeline.ViewerSeesOneTimeline` | services/mm-switch/viewer.go:238-313 | over any activations and packets, stragglers included: sequence numbers 1, 2, 3, ... modulo 2^16 without a gap, source spacing within an activation, one frame after the last packet at the next, every activation's video starting on a keyframe, payloads untouched |
| `ViewerTimeline.OnlyLeadInIsDropped` | services/mm-switch/viewer.go:248-256 | per activation every audio packet, and every video packet from the first keyframe start on, is forwarded once and in order |
| `ViewerInterleaving.WhatSurvivesOverlap` | services/mm-switch/viewer.go:258-283 | two handlers of a kind at once, in every interleaving of their sections: packets are numbered 1, 2, 3, ... without a gap, keep their spacing and payload, are delivered once and in order within their activation, and an activation starts one step after the last packet delivered by then |
| `ViewerInterleaving.InOrderIff` | services/mm-switch/viewer.go:258-283 | the next packet keeps the delivery in order, whichever handler goes on first, if and only if no other activation is between its two sections |
| `ViewerInterleaving.BridgesHeldIff` | services/mm-switch/viewer.go:262-278 | an activation beginning while another packet is between the sections is bridged to that packet if and only if it repeats the timestamp delivered last, or nothing was delivered and it happens to fit |
| `ViewerInterleaving.AloneIsOneStep` | services/mm-switch/viewer.go:258-283 | with nobody between the sections, the two in a row are the handler as one step |
| `ViewerInterleaving.OverlapReorders` | services/mm-switch/viewer.go:258-283 | a run: number 2 is delivered before number 1, and the second source is not bridged |
| `ViewerActivation.Viewer.SwitchSource` | services/mm-switch/viewer.go:182-201 | the new slot: the old source unsubscribed, the new one pending, one goroutine waiting; a closed viewer ignores it |
| `ViewerActivation.Viewer.ConsumePending` | services/mm-switch/viewer.go:224-236 | the slot is consumed only by a goroutine whose source is the pending one |
| `ViewerActivation.Viewer.DetachSource` | services/mm-switch/viewer.go:321-329 | unsubscribes and leaves the pending slot as it is |
| `ViewerActivation.Viewer.CloseViewer` | services/mm-switch/viewer.go:435-447 | closes once and leaves the pending slot as it is |
| `ViewerActivation.ActivationsNeverOutnumberSwitches` | services/mm-switch/viewer.go:182-236 | in every interleaving activations, with the one pending, never outnumber SwitchTo calls |
| `ViewerActivation.OnlyTheLatestIsConsumed` | services/mm-switch/viewer.go:182-236 | after any run an activation begins only for the source of the latest SwitchTo that found the viewer open; an attempt for any other subscribes nothing and takes nothing |
| `ViewerActivation.OnlyTheLatestIsSubscribed` | services/mm-switch/viewer.go:182-319 | over every run, whatever source holds a handler for the viewer, or is about to, was activated as the source of the then latest SwitchTo |
| `ViewerActivation.AtMostOneSubscription` | services/mm-switch/viewer.go:224-319 | with activations one at a time and everything else anywhere, a viewer never has two live subscriptions |
| `ViewerActivation.CleanActivationIff` | services/mm-switch/viewer.go:224-319 | an activation ends with one subscription if and only if no other was between consuming and publishing, or it was for the same source; otherwise Close leaves the first source subscribed |
| `ViewerActivation.OverlapLeavesTwo` | services/mm-switch/viewer.go:182-319 | a run from a new viewer to two live subscriptions, of which Close reaches one |
| `ViewerActivation.UnsubscribedForGoodIff` | services/mm-switch/viewer.go:321-329 | DetachSource and Close end the subscriptions for good, over every continuation without another effective SwitchTo, if and only if the stored function reaches every handler, nothing is pending and no activation is between consuming and subscribing |
| `ViewerActivation.CalledOnce` | services/mm-switch/viewer.go:321-329 | a stored unsubscribe function is used once: after DetachSource no handler is taken away until an activation publishes another, and a second Close does nothing |
| `ViewerActivation.LateActivationAfterClose` | services/mm-switch/viewer.go:435-447 | a run: SwitchTo, Close, and the waiting goroutine subscribes |
| `ViewerActivation.ClosedInFlight` | services/mm-switch/viewer.go:236-246 | a run: Close between consuming and subscribing; nobody waits, nothing is pending, and the closed viewer is subscribed |
| `ViewerActivation.ClosedUnpublished` | services/mm-switch/viewer.go:314-316 | a run: Close between subscribing and publishing finds nothing to call |
| `ViewerActivation.DetachedButPending` | services/mm-switch/viewer.go:321-329 | a run: DetachSource leaves the slot, and the waiting goroutine subscribes |
| `MediaSwitch.MediaSwitch.Register` | services/mm-switch/switch.go:96-101 | a source id is taken over without touching the previous owner |
| `MediaSwitch.MediaSwitch.Unregister` | services/mm-switch/switch.go:123-145 | compare, stop, delete and detach every viewer on the id, in any map order |
| `MediaSwitch.MediaSwitch.DetachViewers` | services/mm-switch/switch.go:138-143 | the loop over the map, in any order, detaches exactly the registered viewers on the id |
| `MediaSwitch.MediaSwitch.RegisterViewer` | services/mm-switch/switch.go:152-163 | any viewer goes under any id, and only the id's previous viewer is displaced, its bytes not folded; for a new viewer it is the registration step |
| `MediaSwitch.MediaSwitch.AdmitViewer` | services/mm-switch/main.go:454-504 | make, register once answered, route; a failed request displaces nobody |
| `MediaSwitch.AdmittedMeans` | services/mm-switch/main.go:495-502 | the new viewer has the id, watches the source asked for if there is one and is billed to it if it is a programme; only the id's previous viewer notices |
| `MediaSwitch.MediaSwitch.TakeViewer` | services/mm-switch/switch.go:177-185 | the critical section: off the map if and only if the comparison allows, nothing folded yet |
| `MediaSwitch.MediaSwitch.FoldEgress` | services/mm-switch/switch.go:191-201 | the counter goes into the closed totals once |
| `MediaSwitch.MediaSwitch.UnregisterViewer` | services/mm-switch/switch.go:177-204 | with nothing in between, removal and fold in sequence |
| `MediaSwitch.MediaSwitch.RecordClosedViewerEgress` | services/mm-switch/egress.go:128-135 | adds to one source's total, or to none without a source or bytes |
| `MediaSwitch.MediaSwitch.Route` | services/mm-switch/switch.go:208-225 | an unknown viewer or source is an error and changes nothing; a programme source moves the billing, any other only the picture |
| `MediaSwitch.MediaSwitch.WriteTrack` | services/mm-switch/viewer.go:374-392 | the packet's bytes go on this viewer's counter and no other, or, after the fold, where no poll looks |
| `MediaSwitch.EveryViewerIsRouted` | services/mm-switch/switch.go:96-225 | in every reachable state each registered viewer's current source is empty or registered |
| `MediaSwitch.RoutedViewerWatches` | services/mm-switch/switch.go:208-225 | a viewer routed to a registered source watches it, whatever it watched before, and nobody else changes |
| `MediaSwitch.ViewerWatchesItsLastRoute` | services/mm-switch/viewer.go:182-201 | over every run a registered viewer watches the source it was last routed to, or nothing if it never was or that source has been removed since |
| `MediaSwitch.RegistrationTakesTheId` | services/mm-switch/switch.go:96-101 | a second registration of an id takes it over and stops nobody |
| `MediaSwitch.ProgrammesAndAds` | services/mm-switch/egress.go:200-206 | every id starting "stream-" names a programme, no id starting "ad-" does, and neither does the empty one |
| `MediaSwitch.RemovedSourceIsNamedByNobody` | services/mm-switch/switch.go:123-145 | after any run, removing a source leaves no registered viewer naming it |
| `MediaSwitch.ConditionalRemovalTouchesOnlyItsOwn` | services/mm-switch/switch.go:118-204 | after any run, a removal that asks for an object changes nothing unless that object has the id; then viewers on other sources keep theirs, those detached keep billing and bytes, and no other viewer or source changes |
| `MediaSwitch.OnlyNamedViewersGo` | services/mm-switch/viewer.go:164-175 | however late other viewers' callbacks come, a viewer stays registered and open until an action names it |
| `MediaSwitch.OnlyNamedSourcesStop` | services/mm-switch/switch.go:106-145 | a source stays registered and running through every removal of other ids, conditional or not, every removal that asks for another object, and every registration of other ids |
| `Egress.EgressSnapshot` | services/mm-switch/egress.go:161-188 | one reading per source, no source twice, of the closed totals plus the listed viewers |
| `Egress.AddViewers` | services/mm-switch/egress.go:170-176 | the loop adds every listed viewer once to its billing source |
| `Egress.ListReadings` | services/mm-switch/egress.go:184-187 | in any map order, one reading per source with that source's total |
| `Egress.TallyAt` | services/mm-switch/egress.go:161-176 | a source's total is its closed total plus the sum over the listed viewers billed to it |
| `Egress.Books` | services/mm-switch/switch.go:177-204 | over every run the closed totals are the sums over the folded viewers, and the metered bytes are all counters together with what came after a fold |
| `Egress.PollCounts` | services/mm-switch/main.go:523-525 | with a list copied at any time, a reading counts each viewer once per appearance: twice if folded after the copy, not at all if in neither |
| `Egress.PollIsExact` | services/mm-switch/egress.go:161-188 | polled in one step, a reading is what the source is owed less the viewers between the map and the fold |
| `Egress.BytesAreConserved` | services/mm-switch/egress.go:128-188 | over every run: reported totals, bytes never given a programme, bytes of displaced viewers and of those between map and fold, and bytes written after a fold are the sizes of all packets ever written |
| `Egress.MeteredIsSent` | services/mm-switch/viewer.go:374-384 | the bytes metered are the sizes of all packets written to registered viewers |
| `Egress.RemovalHidesUntilFold` | services/mm-switch/switch.go:177-201 | taking a viewer off the map hides exactly its bytes from the poll, and the fold brings exactly those back |
| `Egress.OwedChanges` | services/mm-switch/viewer.go:182-201 | exactly what each step adds to and takes from what a source is owed |
| `Egress.OwedDropsIff` | services/mm-switch/viewer.go:192-198 | what a source is owed drops if and only if a viewer billed to it with bytes is displaced or moved to another programme |
| `Egress.OwedNeverGoesDown` | services/mm-switch/egress.go:137-188 | over every run without such a step it never goes down |
| `Egress.ReadingsNeverGoDown` | services/mm-switch/egress.go:161-188 | between two polls of such a run a reading goes down by no more than the bytes of viewers between map and fold at the later poll |
| `Egress.AdBytesBillTheProgramme` | services/mm-switch/viewer.go:192-198 | through any ad break, among any steps of the others: the viewer stays billed to the interrupted programme, its counter grows by exactly the bytes sent to it, and unless displaced all of them are owed by that programme and none by any other |
| `Egress.BroadcastIsBilledThroughAds` | services/mm-switch/viewer.go:192-198 | a viewer billed to "stream-" and an id, then switched only to ids starting "ad-", stays billed to it for every byte sent meanwhile |
| `Egress.RoutingToABroadcastBills` | services/mm-switch/viewer.go:196-198 | being routed to "stream-" and an id bills the viewer to it |
| `Egress.DisplacedBytesAreLost` | services/mm-switch/switch.go:152-163 | a run: the same id registered again, and the programme is owed nothing for the bytes already sent |
| `Egress.ProgrammeChangeTakesPastBytes` | services/mm-switch/viewer.go:192-198 | a run: a viewer moved to another programme, and all its past bytes are owed by the new one |
| `Egress.FoldedAfterTheCopyCountsTwice` | services/mm-switch/main.go:523-525 | a run: the list is copied, the viewer removed and folded, and the poll reads twice the bytes sent |
| `Vp8.ExtractVP8Payload` | services/mm-switch/vp8util.go:32-68 | the index-advancing parser computes the specified suffix |
| `Vp8.ExtractIsProperSuffix` | services/mm-switch/vp8util.go:32-68 | on any bytes: nothing, or a non-empty proper suffix |
| `Vp8.ExtractInvertsEncode` | services/mm-switch/vp8util.go:32-68 | every descriptor of section 4.2 of RFC 7741, in front of any non-empty payload, is stripped exactly |
| `Vp8.KeyframeIff` | services/mm-switch/vp8util.go:19-28 | an encoded packet starts a keyframe if and only if S is set and the payload's P bit is clear |
| `Vp8.AgreesWithRecorderIff` | services/mm-switch/record_webm.go:580-586 | the viewer's test and the recorder model's own agree except on a keyframe-looking start of a later partition, and only there |
| `Ivf.Reader.ReadFull` | services/mm-switch/source_file.go:56-68 | all the bytes asked for, or everything left is consumed and lost |
| `Ivf.Reader.ParseIVFHeader` | services/mm-switch/source_file.go:35-53 | the header or the first of its three errors, with 32 bytes consumed |
| `Ivf.Reader.ReadIVFFrame` | services/mm-switch/source_file.go:56-68 | a frame is read if and only if all of it is there |
| `Ivf.Reader.PlayOnce` | services/mm-switch/source_file.go:374-390 | the read loop yields the frames up to the end of file, or up to where the stop signal is first found, and no others |
| `Ivf.LittleEndianRoundTrip` | services/mm-switch/source_file.go:46-62 | little-endian numbers of any width read back |
| `Ivf.HeaderAcceptedIff` | services/mm-switch/source_file.go:35-53 | a header is accepted if and only if there are 32 octets, the first four are DKIF and octets 8 to 11 are VP80; which error each fault gives |
| `Ivf.HeaderRoundTrip` | services/mm-switch/source_file.go:35-53 | every header reads back, whatever follows it |
| `Ivf.CutFrame` | services/mm-switch/source_file.go:56-68 | a frame cut anywhere is read if and only if it is complete |
| `Ivf.CutYieldsCompleteFrames` | services/mm-switch/source_file.go:374-390 | frames cut anywhere read back as exactly the longest prefix of complete ones |
| `Ivf.FileRoundTrip` | services/mm-switch/source_file.go:35-68 | a file cut anywhere: refused inside the header, otherwise the header and exactly the longest prefix of complete frames with data and PTS; uncut, all of them |
| `AdBreak.ResolveIff` | crates/mm-api/src/ad_affinity.rs:84-117 | a client is resolved if and only if the viewer is bound where the ad was set up and that node is known; which reason each refusal carries |
| `AdBreak.RouteThenResolve` | crates/mm-api/src/switch_pool.rs:152-167 | a billable route resolves again as long as nothing moved, except a viewer left bound to a node that is gone |
| `AdBreak.RouteMeans` | crates/mm-api/src/switch_pool.rs:152-167 | a viewer's call goes to the node holding the viewer if that node is known, else to the origin; it may be billed if and only if it went to a node or there is no fleet |
| `AdBreak.FleetSteps` | crates/mm-api/src/switch_pool.rs:105-127 | what binding, unbinding, adding and evicting mean for each viewer and each node, the origin always having a client |
| `AdBreak.SetUpStarts` | crates/mm-api/src/ads.rs:422-462 | a fresh token, on a node or the origin, gets its entry and a timer due after the longer of the ad and 30 seconds, and 10 more |
| `AdBreak.AdBreakEndsAtMostOnce` | crates/mm-api/src/ads.rs:422-494 | for every interleaving of timers, events and re-placement: one switch-back per token at most, for the viewer and node its set-up named, after its own check that saw the viewer there and its own fetch that found the node's client, not before the minimum view time configured at that fetch or, by the timer, before the set-up's ad length and grace are over |
| `AdBreak.SentWhereTheViewerIsIff` | crates/mm-api/src/ads.rs:627-664 | when a switch-back is sent the viewer is on the node it goes to if and only if nothing touched the viewer's binding since it was checked, or the last thing that did left the viewer there |
| `AdBreak.BindingIsLastTouch` | crates/mm-api/src/switch_pool.rs:105-127 | over any stretch of a run a viewer's binding is what the last bind, unbind or eviction that touched it made it |
| `AdBreak.DueTimerSendsBack` | crates/mm-api/src/ads.rs:455-494 | a due timer whose entry is still there, with the viewer still bound to a known node, does send the viewer back |
| `AdBreak.EventSendsBack` | crates/mm-api/src/ads.rs:618-668 | a skip or complete for an ad still in the table, with the viewer still bound to a known node or still on the origin, sends exactly one switch-back once the minimum view time is over |
| `AdBreak.TableHasLiveTimers` | crates/mm-api/src/ads.rs:422-468 | an entry in the table always has a timer that has not fired |
| `AdBreak.FiredTokenIsGone` | crates/mm-api/src/ads.rs:462-470 | once the timer has fired, the token is out of the table for good |
| `AdBreak.MovedDuringTheWait` | crates/mm-api/src/ads.rs:627-664 | the check is made before the minimum view time is waited out, so a viewer moved during the wait is sent back on the old node |
| `AdBreak.AdSwitches.Remember` | crates/mm-api/src/ads.rs:422-460 | the entry goes into the table; for a fresh token, entry and timer are the set-up step of the protocol |
| `AdBreak.AdSwitches.TakeIfPending` | crates/mm-api/src/ads.rs:464-468 | removing the entry decides the race |
| `AdBreak.AdSwitches.TimerFires` | crates/mm-api/src/ads.rs:461-470 | the timer's step of the protocol |
| `AdBreak.AdSwitches.AdEnds` | crates/mm-api/src/ads.rs:618-625 | the skip or complete event's step of the protocol |
| `Probe.ProbeTracker.RecordProbe` | crates/mm-api/src/broadcast_servers.rs:243-268 | the returned status and the kept fields are those defined over the whole history |
| `Probe.StatusIsHistory` | crates/mm-api/src/broadcast_servers.rs:237-268 | for every probe sequence the incremental status is that of the last probe that did not fail since the last NotConfigured if fewer than three failures follow it, otherwise unreachable |
| `Probe.OkNeedsRecentSuccess` | crates/mm-api/src/broadcast_servers.rs:237-268 | Ok is shown if and only if a successful probe is among the last three and only failures follow it |
| `Probe.LastProbeShows` | crates/mm-api/src/broadcast_servers.rs:237-268 | an answer is shown as it is and an unconfigured server as such, whatever came before; a failure is shown as unreachable if it is the first probe or the third failure in a row, and otherwise changes nothing shown |
| `PublisherState.WebRTCSource.RecordTrack` | services/mm-switch/source_webrtc.go:85-97 | a track is accepted if and only if the publisher is not gone |
| `PublisherState.WebRTCSource.ConnectionStateChanged` | services/mm-switch/source_webrtc.go:101-113 | failed and closed end the source, other states leave it |
| `PublisherState.ActiveIffNeverGone` | services/mm-switch/source_webrtc.go:42-113 | over any order of events a source is active if and only if a track has arrived and the connection never failed or closed |

## Left out

- RecorderPauses.PausedTimeIsRemoved: holds for runs with an empty queue at each Pause, a block on each begun track between a Resume and the next Pause, no Resume between the first video packet and the first keyframe, and each track's clock non-decreasing within one turn of 2^32; the TrackClock lemmas say exactly what a step outside does, and RecorderRuns where it leads.
- RecorderKeyframe.FileStartsOnKeyframe: holds for runs whose frame starts are not empty; FrameStartIsSafeIff says exactly which empty start breaks it.
- ViewerActivation.AtMostOneSubscription: holds for activations one at a time; CleanActivationIff says exactly when an overlapping one leaves two subscriptions.
- Egress.OwedNeverGoesDown: holds for runs without a displaced viewer or a change of programme; OwedDropsIff says exactly which steps lower it.
- Egress.PollIsExact: takes the copied list and the counters from one state; PollCounts is the same for a list copied at any earlier time, with closed totals and counters still read together, and without bytes written to a listed viewer after its fold.
- MediaSwitch.MediaSwitch.RegisterViewer: the run theorems step with a new viewer, or again the one already registered under that id; runs with one viewer object under two ids, or one that was closed before, are not covered.
- RecorderMachine.QueueSafety: covers the async recorder. The inline recorder releases its mutex before it processes the packet; its two halves are the methods AcceptPacket and ProcessItem, and their interleavings are not modelled.
- WebMRecorder.WebMRecorder.OnPacket: composes those two halves with nothing in between.
- RecorderLocks.TeardownCannotDeadlock: the viewers in it have no stored unsubscribe function when they are routed, activated or detached; ViewerDeadlocksIff says when one that has can deadlock with a fan-out, for one such viewer and one fan-out.
- AdBreak.AdSwitches.Remember: the protocol is stepped with fresh tokens, which the ad engine draws at random, and with an ad length that is not negative.
- Dispatch.Source.QuarantineSubscribers: a subscriber replaced under its id between dispatch and quarantine is not modelled.
- The VP8 depacketizer of the RTP library: its result (malformed, or start bit, partition and body) is an input.
- A panic inside one of the recorder's own critical sections.
- ViewerTimeline.ViewerSeesOneTimeline: takes the handler as one step; ViewerInterleaving splits it at its critical sections, with at most one packet of an activation between them, so a file source's replay of its cached keyframe beside its own fan-out is not covered.
- The viewer's bounded write queue and its writer loop: the same drop-or-append queue as the recorder's, never closed.
- FileSource's cached keyframe, pacing, silence and RTP packetisation; only its read loop and fan-out are modelled.
- Counters as 64-bit integers, the failure count as a 32-bit one: unbounded here. Packet sizes already include the per-packet overhead.
- The egress report's epoch, start time and overhead fields.
- HTTP, JSON, environment and signature handling; PLI, thumbnails, transcoding, logs and metrics.
- The relay and LiveKit sources, WebM demuxing, media probing, rate limiting and the database-backed handlers: they would add easy members, or their deciding code is in libraries.
- The fleet's placement of viewers: the pool's tables and their changes are modelled, the choice of node is not.
