# TaskTrooper desktop runner and embedder: a verified model

This project models, in Dafny 4.11, the concurrent core of the TaskTrooper
desktop programs and proves what that core promises. `dafny verify
dfyconfig.toml` checks all of it.

- **Durable runs** (`desktop/runner/runs.go`). Agent runs outlive the request
  and the tunnel that started them. `FrameRing.dfy` is the byte-bounded ring of
  segments behind a run, as classes tied to the run's full history;
  `WithSeq.dfy` the numbering of frames; `DurableRun.dfy` one run with its one
  done; `StreamRun.dfy` a subscriber beside every interleaving of the other
  goroutines' sections. `RegistryProtocol.dfy` is the registry as a transition
  system, one step per critical section, context operation, timer move and
  semaphore move; `RegistrySafety.dfy` says what holds over all its runs,
  `RegistryOutcomes.dfy` what comes of a request's end, a shutdown or an expiry;
  `RunRegistry.dfy` proves the registry's own sections, as a class, to be steps
  of that protocol. `DrainGate.dfy` is the counting of work in flight and the
  waiting for its end, in the registry and in `desktop/runner/rpc.go`.
- **The on-demand Appium hub** (`desktop/runner/appium_hub.go`), in the same
  three parts: `AppiumHubProtocol.dfy`, `AppiumHubSafety.dfy`, `AppiumHub.dfy`;
  `AppiumHubOutcomes.dfy` follows calls, failures, quiet times and restarts.
  `HubOutput.dfy` is what is kept of its output.
- **The executor's supervisor** (`desktop/runner/executor.go`):
  `ExecutorProtocol.dfy`, `ExecutorSafety.dfy`, `ExecutorSupervisor.dfy`.
- **Bounded line reading** (`desktop/runner/session.go`, `executor.go`):
  `LimitedLines.dfy`, over a reader whose buffer may cut the stream anywhere.
- **The embedder** (`desktop/embedder/src`): `EmbedderProtocol.dfy`,
  `EmbedderSafety.dfy` and `EmbeddingsServer.dfy` for the lazy load and idle
  unload, `WorkerEngine.dfy` for the table of requests, `SerialQueue.dfy`.
- **Two encoders with a decoder**: `DesktopEntry.dfy` against the Desktop Entry
  Specification 1.5 (sections 4 and 7) and `SigningFile.dfy` against the Shell
  Command Language of POSIX.1-2017 (sections 2.2.1 and 2.2.2).

How to read it. A protocol is a value `State`, a total step function `Next` and
an invariant; a step whose turn it is not leaves the state as it is, so a
statement about every sequence of steps is one about every interleaving. A
number stands for a pointer (a run, a flight, a process, an engine, a channel
by its generation), and tables keep every one that ever was, so a stale pointer
is a number like any other. A class beside a protocol has the program's fields
and its sections as methods; `View()` is its state, and each method ensures
that the new view is the protocol's step of the old one. Methods of a single
section or branch have no row below: their contracts are links of the proof, and
the rows are for loops, compositions and what holds over whole runs. Time is a
number that only grows. The world (processes dying, disks refusing a write,
requests ending, timers firing, what a health check finds) is steps or
parameters.

What the code does that a reader might not expect, and how the results say it:

- A carriage return is cut from a line only when the reader's buffer holds it
  together with the line feed. `CutsAgree` says when the buffer makes no
  difference, `CrStays` exactly when it does for a buffer of a fixed size.
- A frame cut at the length limit may still end in a brace; its number is then
  not a member of the outer object. `WithSeqMembers` has the exact condition.
- A write is one frame however it ends its line. A write that holds a line feed
  before its end would be sent as several lines; the calls write one JSON line
  each (`desktop/runner/rpc.go`), and what is said of reading a stream back is
  said of such writes.
- A run's session slot comes back before the run is done, so `SlotsConserved`
  bounds the bodies that execute, not the runs in the running phase.
- A segment that cannot be read turns its frames into a gap. What is said about
  gaps never covering the newest frame is said of readable segments; the
  accounting of numbers holds either way.
- A subscriber may ask to start after a number not reached yet. Then it is
  served nothing of what is there, and the range covered is empty.
- A line of the hub's output that grows past 64 KiB is given up where the write
  was cut; `CutHarmless` says that is the only place where cuts matter.
- A mobile call may release the hub while its own ensure still waits
  (`desktop/runner/mobile.go`), so what is promised of a held hub is promised
  to callers that have not released it.
- An autostart path with a control character, a character beyond ASCII or an
  equals sign makes an entry that names no command: the Desktop Entry
  Specification allows the first two in no string value (section 4) and the
  third in no executable's name (section 7). `RefusedPaths` names two.
- A hub's record is removed by pid alone. When the system gives a dead hub's pid
  to the next one, the dead one's late exit removes the living one's record;
  `LateExit` says that this is the only case, `PidGivenAgain` shows it.
- A frame cut right after its opening brace gets its number without a comma, so
  it cannot stand before members that were lost. `CutFrameMembers` has the exact
  condition.

## Model

| member | source | states |
|---|---|---|
| RingModel.BufferBounds | desktop/runner/runs.go:757-785 | The byte bounds after an append: the total is the sum of the segments' sizes, within the limit or all of it one oversized frame in the only segment; when every frame fits a segment and something was evicted, more than limit minus segLimit is kept. |
| RingModel.BufferGrows | desktop/runner/runs.go:777-778 | Placing a frame keeps the tiling of the history by segments, each segment's bound, and the total as the bytes kept. |
| RingModel.BufferShrinks | desktop/runner/runs.go:779-784 | Dropping the oldest segment of a ring over its limit keeps an unbroken suffix of the history and never drops more than a segment below the limit. |
| RingModel.NoneNeeded | desktop/runner/runs.go:779 | As long as the frames fit the limit, taking no segment without need is taking none. |
| RingModel.SameLeast | desktop/runner/runs.go:771-784 | Whatever segments an append makes, what it drops is of those there were, the last of them with need. |
| RingModel.TilingSum | desktop/runner/runs.go:778-784 | The sum of the segments' sizes is the number of bytes of the history after the last evicted frame. |
| RingModel.PartFrames | desktop/runner/runs.go:836-862 | Frames of one segment are the history's frames of the same numbers. |
| FrameRings.RingSegment.Write | desktop/runner/runs.go:811-822 | A write adds the line at the end, or is refused by the file and leaves everything below size as it was, whatever the torn write left behind. |
| FrameRings.RingSegment.Index | desktop/runner/runs.go:777 | The index entry of the last write: offsets tile the segment from 0 and numbers run on from its base. |
| FrameRings.RingSegment.Cut | desktop/runner/runs.go:838-851 | Whole frames after a number: starting at the next one the segment has, at least one, at most max bytes unless one, and no fewer than fit; the bytes found at the offset are those frames. |
| FrameRings.FrameRing.Append | desktop/runner/runs.go:765-785 | The history grows by exactly the frame, the newest frame is kept, what survives is an unbroken suffix, whatever files refuse to be created or written. Within the limit nothing is evicted; otherwise no segment is that did not have to be: with the last one dropped, what is kept was over the limit. When no frame is larger than a quarter of the limit and something was evicted, more than three quarters of it are kept. |
| FrameRings.FrameRing.Rotate | desktop/runner/runs.go:794-809 | A new newest segment that continues the numbering: a file exactly when the ring is not in memory and one could be created; when it could not, the ring stays in memory from then on. |
| FrameRings.FrameRing.Place | desktop/runner/runs.go:771-777 | The frame ends up last in the newest segment even when its file refuses the write. |
| FrameRings.FrameRing.Evict | desktop/runner/runs.go:779-784 | Eviction ends within the limit or at one segment, never takes the newest frame, and takes each segment only while the total is over the limit. |
| FrameRings.FrameRing.Read | desktop/runner/runs.go:836-862 | The bytes returned are the history's frames from `from` to `last`, whole, after both the cursor and what was evicted; without unreadable segments nothing is skipped, and nothing is returned only when nothing is left. |
| SeqField.WithSeqOneLine | desktop/runner/runs.go:293-317 | A frame without a line feed is sent as exactly one line. |
| SeqField.OtherFramesStay | desktop/runner/runs.go:316 | A frame that is no object is sent as it is, without the blanks at its end. |
| SeqField.BatchLines | desktop/runner/runs.go:568-569 | Frames written one after another are read back as the same frames by splitting at line feeds. |
| SeqField.WithSeqMembers | desktop/runner/runs.go:297-306 | A braced frame stays an object on one line; it keeps its members and gets its number as one more, last, if and only if it closes what it opens. |
| SeqField.CutFrameMembers | desktop/runner/runs.go:307-315 | A frame cut at the length limit gets its number first. However its object went on before it was cut, its members follow that one, all of them and no others, if and only if something of the first member is left; of a frame cut down to the brace no comma is written for what is lost. |
| SeqField.WithSeqDecodes | desktop/runner/runs.go:290-306 | A decoder that lets the last member win reads the run's number, whatever seq the frame carried before. |
| SeqField.DigitsNumber | desktop/runner/runs.go:294 | The decimal digits written are read back as the number. |
| DurableRuns.TranscriptHasOneDone | desktop/runner/runs.go:235-251 | Whatever a body writes and however it ends, its transcript is its frames in order up to a done, and that done, its own or the one supplied, is the only one and the last. |
| DurableRuns.FrameBefore | desktop/runner/runs.go:273 | The frame of a write is what comes before the carriage returns and line feeds it ends in. |
| DurableRuns.FramesWritten | desktop/runner/runs.go:258-275 | A body that writes each frame with a line end has written exactly those frames. |
| DurableRuns.TranscriptClean | desktop/runner/runs.go:269-283 | When every write is one line, no frame of the transcript holds a line feed. |
| DurableRuns.DurableRun.Append | desktop/runner/runs.go:269-283 | The frame without its line ends is numbered next and kept, unless it is empty, a done went before, or the buffer is gone; who waits is told whenever something was added; a write that is one line adds a frame of one line. |
| DurableRuns.DurableRun.Complete | desktop/runner/runs.go:237-249 | A completed run that was not released ends in a done: its own, or the one supplied when it wrote none. |
| DurableRuns.DurableRun.Execute | desktop/runner/runs.go:220-251 | For every list of writes a body got through: the run is done, its frames are the transcript, exactly one of them is a done, it is the last, and it is still in the ring; no frame holds a line feed when every write is one line. |
| DurableRuns.DurableRun.Read | desktop/runner/runs.go:520-540 | A batch accounts for every number from the cursor to `last`: a gap first if frames are missing, then the very frames, within the size asked for or one frame; without unreadable segments a gap is exactly the evicted part and never reaches the newest frame; finished means done and all delivered. |
| RunStreams.CoversEach | desktop/runner/runs.go:553-591 | In what a subscriber was written every number of the range is in exactly one event, and the events are in order. |
| RunStreams.CoversBelow | desktop/runner/runs.go:553-591 | No event reaches beyond what was served, and nothing beyond the run's last number is served. |
| RunStreams.FramesReadBack | desktop/runner/runs.go:568-570 | The lines of a delivered batch are the frames of its numbers, and a well-formed frame decodes to the number it was appended under. |
| RunStreams.CoversReadBack | desktop/runner/runs.go:553-591 | All that a subscriber of a run of one-line writes was sent splits at its line feeds into the frames of its numbers, and every frame that is a closed object decodes to its own number. |
| RunStreams.Deliver | desktop/runner/runs.go:560-578 | Writing a batch extends the coverage to the batch's end; it stops short only when the caller refused a write. |
| RunStreams.Wait | desktop/runner/runs.go:585-589 | While the channel a read saw stays open, no frame was added and the run neither completed nor was released. |
| RunStreams.StreamRun | desktop/runner/runs.go:553-591 | For every interleaving of writes, completion, release, unreadable segments, refused writes and the caller's end: the events cover the numbers after the cursor without break or repetition; finished means all of them up to the done, the done as a frame and not in a gap; a subscriber left waiting on an open channel has missed nothing. And it gets there: every turn serves more or was woken by a change, a turn that waits for nothing serves more, only a refused write or the caller's end stops the loop early, and the stream of a run that is done and stays in memory is finished within as many turns as it has frames after the cursor. Of a run whose writes are one line each, everything sent reads back as its frames and their numbers. |
| RunStreams.LastIsFrames | desktop/runner/runs.go:579-581 | A subscriber served to the end got the newest frame itself. |
| RegistryProtocol.NextKeeps | desktop/runner/runs.go:151-481 | Every step of every handler, run, request, cancel, timer and shutdown keeps the registry's invariant. |
| RegistryProtocol.ReserveKeeps | desktop/runner/runs.go:151-168 | Reserving keeps it, a finished run under the same id being replaced. |
| RegistryProtocol.ForgetPlaces | desktop/runner/runs.go:378-389 | Forgetting a run takes it out of the map and the list and changes no other run's place. |
| RegistryProtocol.TrimKeeps | desktop/runner/runs.go:362-364 | Forgetting the oldest finished runs leaves the newest ones in order, at most 64, and the newest as it was. |
| RegistryProtocol.FinishKeeps | desktop/runner/runs.go:355-370 | Listing a completed run, evicting the oldest and arming the timer keeps it; a replaced run is left alone. |
| RegistryProtocol.ActedContext | desktop/runner/runs.go:177-218 | No section of a run's owner lets the request's end reach a started run's context, or loses a cancel. |
| RegistryProtocol.ActedCounts | desktop/runner/runs.go:599-657 | The active count and the semaphore follow exactly who entered and who holds a slot, on every path of queueDurable, serveDurable, start and execute. |
| RegistryProtocol.OwnerKeeps | desktop/runner/runs.go:177-251 | The owner's sections keep the invariant. |
| RegistryProtocol.TimerKeeps | desktop/runner/runs.go:367-376 | A retention timer that fires, perhaps for a run replaced since, keeps it. |
| RegistryProtocol.OutsideKeeps | desktop/runner/runs.go:418-435 | Requests' ends, cancels and timers keep it. |
| RegistryProtocol.SweepKeeps | desktop/runner/runs.go:472-480 | The closing section that forgets every run keeps it. |
| RegistryProtocol.CallKeeps | desktop/runner/mobile_release.go:1187-1200 | A release call takes at most one session token and gives it back on every path. |
| RegistrySafety.Safety | desktop/runner/runs.go:151-389 | After any steps: each key is mapped to a run of that id with its buffer, at most one run of an id is running, and the finished list has no duplicates, holds only mapped done runs and at most 64. |
| RegistrySafety.SlotsConserved | desktop/runner/runs.go:599-657 | After any steps: the tokens taken are the runs and the release calls (`desktop/runner/mobile_release.go:1187-1200`) that hold one, at most 16 bodies and releases are at work together, and once every owner and every call is through every token is back and nothing is counted active. |
| RegistrySafety.OthersKeep | desktop/runner/runs.go:151-481 | A step of one run changes nothing of another but its buffer; the registry's flags only go up; once closed no run is added and none is counted in. |
| RegistrySafety.NeverStarts | desktop/runner/runs.go:197-218 | If a cancel, the shutdown or the end of the request comes before start's section, the body never runs, in any continuation. |
| RegistrySafety.StartedContext | desktop/runner/runs.go:206-214 | Once started, the end of the request cannot cancel the run; when no cancel is between its two sections, one that marked the run has cancelled it. |
| RegistrySafety.CancelHolds | desktop/runner/runs.go:418-435 | A cancel whose call to the context has come holds in every continuation, whatever other cancels are under way: the run is cancelled, and one that had not started never runs its body. |
| RegistryOutcomes.NotTurnedAway | desktop/runner/runs.go:197-218 | A reserved run goes on towards its start in every continuation, unless its handler refuses it, the registry closes, or a cancel, its context's or its request's end comes first. |
| RegistryOutcomes.QueuedFollowsRequest | desktop/runner/runs.go:151-168 | A request that ends before its run started ends the run with it, for good, and its wait for a slot. |
| RegistryOutcomes.ShutdownReaches | desktop/runner/runs.go:439-444 | The shutdown ends the context of every run, for good, and no run that has not started ever does. |
| RegistryOutcomes.ExpiredIsForgotten | desktop/runner/runs.go:367-389 | A finished run whose time is up leaves the map and the list with its buffer; no other run changes at all. |
| RegistryOutcomes.ConfigRefusedGivesUp | desktop/runner/runs.go:177-192 | A run refused by its handler ends cancelled, released and unmapped, its slot back once, and nothing else changes. |
| RegistryOutcomes.SweepEmpties | desktop/runner/runs.go:472-480 | The closing sweep leaves nothing mapped or listed, and every mapped run without its buffer and its timer. |
| RegistryOutcomes.ReleaseWorks | desktop/runner/mobile_release.go:1187-1200 | A release call that finds a token and a live context works with it and gives it back. |
| RegistrySafety.StaleTouchesNothing | desktop/runner/runs.go:355-389 | The timer and the late finish of a replaced run change nothing of the newer run with its id, nor the map or the list. |
| RegistrySafety.ClosedOnlyDrains | desktop/runner/runs.go:439-481 | After the gate closes no run is reserved and the active count never rises; after close no run is mapped, for good. |
| RegistrySafety.IdleForGood | desktop/runner/runs.go:446-463 | What wait answers true to stays true: no body executes any more. |
| RegistrySafety.OwnerGetsThrough | desktop/runner/runs.go:599-657 | Every section brings its owner nearer its end, on every path, and only a run waiting for a slot can have to wait. |
| RunRegistries.RunRegistry.ForgetLocked | desktop/runner/runs.go:378-389 | The loop that cuts a run out of the finished list, the map entry and the release are the protocol's Forget. |
| RunRegistries.RunRegistry.Reserve | desktop/runner/runs.go:151-168 | A run is reserved exactly when the registry is open and the id is free or its run done: it is new, mapped, nothing has been done to it, and its context has not ended. A refusal changes nothing and says which of the two it was. |
| RunRegistries.AbandonSections | desktop/runner/runs.go:177-192 | abandon's three sections in a row take a run that never started out of the map, cancel it and give its buffer up, and leave a started one alone. |
| RunRegistries.RunRegistry.TakeASlot | desktop/runner/runs.go:612-619 | A token taken is put back at once when the context ended meanwhile. |
| RunRegistries.RunRegistry.WaitForSlot | desktop/runner/runs.go:605-626 | Whatever the select picks, the run goes on with exactly one token, or without one when its context has ended. |
| RunRegistries.RunRegistry.NeverStarted | desktop/runner/runs.go:639-652 | A run that never starts ends unmapped, released and cancelled, its cleanups run in reverse and its token back. |
| RunRegistries.RunRegistry.StartRun | desktop/runner/runs.go:197-218 | Counted in and running with its body on its way, exactly when nothing ended it before and the registry is open; otherwise counted out again. |
| RunRegistries.RunRegistry.ServeDurable | desktop/runner/runs.go:632-653 | Either the body is on its way with the run's token, or the run is gone, its cleanups were run in reverse and its token is back, on each of the three ways to be refused. |
| RunRegistries.RunRegistry.QueueDurable | desktop/runner/runs.go:599-627 | With nobody else about: a reserved run holding a slot, exactly when the registry is open and the id free or done; otherwise nothing changes. |
| RunRegistries.RunRegistry.CallAlone | desktop/runner/runs.go:599-657 | A call whose run nobody interferes with has its body running, mapped, counted and with a slot, exactly when the registry is open, the id free or done and the response can be streamed; otherwise nothing is taken. |
| RunRegistries.RunRegistry.RunCleanup | desktop/runner/runs.go:633-637 | The loop runs the cleanups last to first; the token is held until the last of them. |
| RunRegistries.SlotLast | desktop/runner/rpc.go:604 | In reverse the slot, which is first in the list, is given back after every other cleanup has run. |
| RunRegistries.RunRegistry.EndRun | desktop/runner/runs.go:220-251 | From the body's end on: the cleanups run in reverse, the run is done and its context cancelled, its token is back and it is counted out, each once. One that is still the map's own joins the newest 64 finished runs, with its buffer and an armed timer; one that is not changes neither. |
| RunRegistries.FinishLists | desktop/runner/runs.go:355-370 | A completed run that is still the map's own joins the newest 64 finished ones with a timer; one that is not changes nothing. |
| RunRegistries.RunRegistry.EvictFinished | desktop/runner/runs.go:362-364 | The loop forgets the oldest finished runs down to the bound. |
| RunRegistries.RunRegistry.Finish | desktop/runner/runs.go:355-370 | Listing, evicting and arming the timer are the protocol's step. |
| RunRegistries.RunRegistry.CancelRun | desktop/runner/runs.go:418-435 | Answers true exactly for a mapped run not done, which is then marked and its context cancelled. |
| RunRegistries.RunRegistry.CloseRuns | desktop/runner/runs.go:472-480 | Forgetting the mapped runs one by one, in any order, is the protocol's sweep. |
| DrainGates.ClosedOnlyFalls | desktop/runner/rpc.go:190-229 | Once the gate has closed the number in flight never rises. |
| DrainGates.DrainedForGood | desktop/runner/rpc.go:216-229 | A drain returns only when nothing is in flight, and nothing ever is again. |
| DrainGates.ClosedOnceAndInTime | desktop/runner/rpc.go:200-214 | No idle channel is closed twice, and every channel a drain waits on is closed once nothing is in flight. |
| DrainGates.LeavesEnd | desktop/runner/rpc.go:200-214 | When everything in flight has left, nothing is in flight and no drain is left waiting. |
| DrainGates.SessionGate.Leave | desktop/runner/runs.go:345-353 | The registry's leave, which does not ask whether the gate has closed, is the same step. |
| AppiumHubProtocol.NextKeeps | desktop/runner/appium_hub.go:193-504 | Every step of callers, starts, idle stops, deaths, exits and close keeps the hub's invariant. |
| AppiumHubProtocol.FlyKeeps | desktop/runner/appium_hub.go:283-355 | Every move of a start or an idle stop keeps it: asking, taking back, spawning, waiting, recording, settling, stopping. |
| AppiumHubProtocol.EventKeeps | desktop/runner/appium_hub.go:382-392 | Deaths and late exits keep it. |
| AppiumHubProtocol.EnsureKeeps | desktop/runner/appium_hub.go:193-229 | One pass of ensure keeps it. |
| AppiumHubProtocol.IdleKeeps | desktop/runner/appium_hub.go:452-460 | Beginning an idle stop keeps it: nobody who holds the hub was handed it. |
| AppiumHubProtocol.CloseKeeps | desktop/runner/appium_hub.go:476-504 | close's sections keep it. |
| AppiumHubSafety.Safety | desktop/runner/appium_hub.go:193-504 | From any processes and any record found at the start, after any steps: one flight at most is in progress, one owned process at most is alive, and stop was never applied to a process this runner neither spawned nor could prove a previous runner's. |
| AppiumHubSafety.LateExit | desktop/runner/appium_hub.go:382-392 | The exit of one process, noticed however late, never takes the place of one that lives; it takes its record if and only if the system gave the dead one's pid again. |
| AppiumHubSafety.PidGivenAgain | desktop/runner/appium_hub.go:587-596 | For every pid, a run from a fresh hub in which that happens: the second hub is current and alive, and no record is left of it. |
| AppiumHubSafety.CurrentStays | desktop/runner/appium_hub.go:283-297 | A current hub that goes on living stays the current one through every step but its own idle stop and close. |
| AppiumHubSafety.NeverPulled | desktop/runner/appium_hub.go:245-262 | When a holding caller is handed the hub no idle stop is in progress, and none is until that caller releases, in any continuation. |
| AppiumHubSafety.HeldThrough | desktop/runner/appium_hub.go:452-458 | From any moment a held hub is not being idle-stopped, it is not until the holder lets go. |
| AppiumHubSafety.IdleOnly | desktop/runner/appium_hub.go:452-460 | An idle stop begins only when nobody holds the hub and every caller's last use is the idle time ago. |
| AppiumHubSafety.StartsOnlyWhenNeeded | desktop/runner/appium_hub.go:197-217 | A start begins only in an open hub without a flight, after the cooldown of the last failure, and when no process this runner owns is alive. |
| AppiumHubSafety.ClosedBeginsNothing | desktop/runner/appium_hub.go:480-487 | Once close has taken the lock no flight begins any more. |
| AppiumHubSafety.ShutForGood | desktop/runner/appium_hub.go:488-504 | When close has returned, and ever after: no owned process lives and no flight is in progress or begins. |
| AppiumHubSafety.FlightEnds | desktop/runner/appium_hub.go:278-297 | Each move of a flight brings it nearer the close of its channel and there is one to make until then. |
| AppiumHubSafety.FlightAlone | desktop/runner/appium_hub.go:283-297 | Nothing but its own moves changes a flight. |
| AppiumHubSafety.WaitsForSomething | desktop/runner/appium_hub.go:214-226 | The flight somebody waits on is in progress or about to close its channel; the one close waits on is the one in progress. |
| AppiumHubOutcomes.StartAnswers | desktop/runner/appium_hub.go:214-226 | A start that succeeded hands the hub to every caller that waits for it and replaces the current one; one that failed refuses them all and is remembered with its time. |
| AppiumHubOutcomes.OthersAskAgain | desktop/runner/appium_hub.go:221-227 | A caller that waits for anything else asks again once that is over, and not before. |
| AppiumHubOutcomes.FailureCools | desktop/runner/appium_hub.go:209-217 | For half a minute after a start failed no start begins, whoever asks and whatever else happens. |
| AppiumHubOutcomes.UsedHubStays | desktop/runner/appium_hub.go:245-262 | For ten minutes after it was used no idle stop of the hub begins, in any continuation. |
| AppiumHubOutcomes.IdleHubStops | desktop/runner/appium_hub.go:452-470 | A hub nobody holds and nobody used for ten minutes is stopped: its process ends and the record no longer names it. |
| AppiumHubOutcomes.TakenBack | desktop/runner/appium_hub.go:564-639 | Round trip: what a runner wrote down of its living hub is what the next one takes the same process back by. |
| AppiumHubs.AppiumHub.Ensure | desktop/runner/appium_hub.go:198-220 | Exactly: the hub is handed out when it is open, no flight is in progress and its process is not done; refused when closed, or with no flight and no such process within half a minute of a failure; told to wait for the flight in progress if there is one; otherwise a start begins. Every pass counts as use. |
| AppiumHubs.AppiumHub.Reclaim | desktop/runner/appium_hub.go:619-639 | A hub is taken back exactly when there is a record, it is of this address, its pid is above 1 and lives, that process started when the record says, and its command line is appium on this port. |
| AppiumHubs.AppiumHub.WaitReady | desktop/runner/appium_hub.go:394-413 | A hub that never answered is stopped, and then no hub process lives. |
| AppiumHubs.AppiumHub.BringUp | desktop/runner/appium_hub.go:329-355 | start and resume for every way the world answers: which of a process, an adopted hub or an error comes out, exactly when each does, and that an error leaves nothing alive. |
| AppiumHubs.NothingLives | desktop/runner/appium_hub.go:346-352 | While a failed start waits to settle no hub process lives. |
| AppiumHubs.AppiumHub.BeginIdleStop | desktop/runner/appium_hub.go:452-460 | An idle stop begins exactly when the hub is open, current, without a flight, held by nobody and unused for ten minutes. |
| AppiumHubs.AppiumHub.EndIdleStop | desktop/runner/appium_hub.go:462-470 | The rest of the idle stop is the protocol's two steps. |
| AppiumHubs.AppiumHub.EndClose | desktop/runner/appium_hub.go:492-503 | After it no hub process lives, there is no flight, and the record does not name the hub that was stopped. |
| HubOutputs.Clip | desktop/runner/appium_hub.go:751-759 | The longest beginning of at most n bytes that does not end inside a rune. |
| HubOutputs.HubOutput.ClipLine | desktop/runner/appium_hub.go:751-759 | The loop finds it. |
| HubOutputs.HubOutput.Write | desktop/runner/appium_hub.go:703-721 | One write: the lines it ends are kept in order, the rest waits or is given up past 64 KiB. |
| HubOutputs.CutHarmless | desktop/runner/appium_hub.go:703-721 | Where a write is cut makes no difference to anything that may follow if and only if the line it is cut in is not yet too long. |
| HubOutputs.CutTells | desktop/runner/appium_hub.go:715-719 | After a line too long was given up, one more byte tells the two ways apart. |
| HubOutputs.OutputKept | desktop/runner/appium_hub.go:697-732 | However the output is cut into writes, what is kept is the last twelve lines that are not blank, clipped, and the unended line, when no line is too long. |
| HubOutputs.LinesTold | desktop/runner/appium_hub.go:697-732 | Whatever visible lines the hub writes and however they arrive, the twelve newest are kept, in order and as they were written. |
| HubOutputs.BlankIsNone | desktop/runner/appium_hub.go:724-727 | A line of spaces, tabs and carriage returns is not shown. |
| LimitedLines.LineReader.ReadSlice | desktop/runner/session.go:745-748 | What the buffered reader gives: a piece up to a line feed, a full buffer, or the end. |
| LimitedLines.ReadLimitedLine | desktop/runner/session.go:741-774 | The line's first limit bytes, how many more it had, and the whole line consumed, for every way the buffer cuts it. |
| LimitedLines.Forward | desktop/runner/session.go:692-726 | The texts of the non-empty lines are passed on in order, a cut one with the sentence that says how many bytes it lost, until a write fails; either way the stream is read to its end. |
| LimitedLines.TextsTell | desktop/runner/session.go:697-706 | From the texts a caller can tell what every line kept and how much it lost: a cut line is never taken for one that stops there. |
| LimitedLines.LinesTold | desktop/runner/session.go:692-726 | The lines a child writes are what the caller is told, in order, the longer ones cut at the limit with a note of what is missing, whatever the buffer. |
| LimitedLines.SentAll | desktop/runner/session.go:694-707 | Every line is passed on within the limit, and one that lost bytes is exactly at it. |
| LimitedLines.CutsAgree | desktop/runner/session.go:748-756 | Every way the buffer may cut a stream gives the same lines if and only if no carriage return stands before a line feed; then they are the plain ones. |
| LimitedLines.PlainLinesAre | desktop/runner/session.go:741-774 | Plain splitting: the lines between line feeds and what follows the last. |
| LimitedLines.CrStays | desktop/runner/session.go:748-756 | With a buffer of b bytes a carriage return before a line feed stays exactly when it is the byte that fills the buffer. |
| LimitedLines.Accounted | desktop/runner/session.go:757-768 | Every byte of a stream is passed on, counted as dropped, a line feed, or one of the carriage returns that stand right before a line feed; a buffer that holds every line takes all of those away. |
| LimitedLines.CrLfsNone | desktop/runner/session.go:752-756 | There are none of those carriage returns exactly when no line ends in one. |
| LimitedLines.RelayFrames | desktop/runner/executor.go:955-977 | Frames go on in order through the first whole done and no further; true exactly when that done was written. |
| LimitedLines.LinesRelayed | desktop/runner/executor.go:955-977 | Frames an executor writes, a line each and within the limit, are relayed whole, up to its done. |
| LimitedLines.RelayStops | desktop/runner/executor.go:965-975 | No whole done is relayed but as the last frame, and a done went exactly when that is one. |
| EmbedderProtocol.NextKeeps | desktop/embedder/src/server.ts:97-199 | Every callback keeps the embedder's invariant. |
| EmbedderProtocol.AcquireKeeps | desktop/embedder/src/server.ts:140-169 | acquire up to its await keeps it. |
| EmbedderProtocol.UnloadKeeps | desktop/embedder/src/server.ts:122-130 | The idle timer's callback keeps it. |
| EmbedderSafety.Safety | desktop/embedder/src/server.ts:97-199 | Over all orders of events: at most one load outstanding, none began before the time the last failure set, every release was idle long enough with no request in flight, a loaded engine nobody uses has its timer, and no request computes with an engine released for being idle. |
| EmbedderSafety.WaitIsAnswered | desktop/embedder/src/server.ts:166-174 | A request awaiting a load has one to await, and is answered by how that load ended. |
| EmbedderSafety.RefusedUntil | desktop/embedder/src/server.ts:148-150 | However requests, timers and deaths go on: before the time a refusal names no load begins and there is no engine, unless one is set from outside, and whoever asks is told that same time; whoever asks from then on begins the load. |
| EmbedderSafety.FailureRefuses | desktop/embedder/src/server.ts:157-168 | A load that failed leaves the embedder refusing, for the time of the backoff. |
| EmbedderSafety.FirstRequest | desktop/embedder/src/server.ts:140-174 | The first request of a loadable embedder begins the load and computes with the engine it brings. |
| EmbedderSafety.IdleReleases | desktop/embedder/src/server.ts:115-130 | A model nobody uses is released once its time has come. |
| EmbedderSafety.BackoffDoubles | desktop/embedder/src/server.ts:158-161 | The wait starts at five seconds, doubles with each failure in a row, and is five minutes exactly from the seventh on. |
| EmbeddingsServers.EmbeddingsServer.Acquire | desktop/embedder/src/server.ts:140-170 | Exactly: the current engine while it answers; otherwise a refusal without a loader, the load outstanding, a refusal until the time of the next load, or a load begun. |
| EmbeddingsServers.EmbeddingsServer.Lands | desktop/embedder/src/server.ts:152-156 | A load that brought an engine makes it the current one, forgets the failures and arms the timer. |
| EmbeddingsServers.EmbeddingsServer.Fails | desktop/embedder/src/server.ts:157-164 | A load that failed is counted and puts the next one off by five seconds at least. |
| EmbeddingsServers.EmbeddingsServer.Resume | desktop/embedder/src/server.ts:170-174 | After its await a request holds the load's own engine, not unloaded since, exactly when the load brought one, or is refused for the time left. |
| WorkerEngines.EmbedSettles | desktop/embedder/src/worker-engine.ts:62-89 | In any run, every embed is settled exactly by the first event that concerns it: its own reply or the worker's death; at once when the worker is gone. |
| WorkerEngines.SettledByFate | desktop/embedder/src/worker-engine.ts:76-89 | What settles a pending call is the first such event, whatever else happens. |
| WorkerEngines.SettledForGood | desktop/embedder/src/worker-engine.ts:76-83 | A settled call is never settled again. |
| WorkerEngines.DeadForGood | desktop/embedder/src/worker-engine.ts:85-89 | After death the table is empty and stays so, every call is settled once, and late replies and further failures change nothing. |
| WorkerEngines.NextKeeps | desktop/embedder/src/worker-engine.ts:45-90 | A call is settled at most once, and is in the table under its own number exactly until then. |
| WorkerEngines.WorkerEngine.Fail | desktop/embedder/src/worker-engine.ts:85-89 | The loop rejects exactly the pending calls, each once. |
| SerialQueues.Serial | desktop/embedder/src/limits.ts:40-51 | One at a time in the order of arrival, and whatever the earlier ones came to there is one to go on with until all are finished. |
| SerialQueues.NextKeeps | desktop/embedder/src/limits.ts:43-50 | Each waits for the one that arrived before it, and nothing starts before everything earlier has settled. |
| ExecutorProtocol.NextKeeps | desktop/runner/executor.go:364-567 | Every step of the loop, of spawn, of readers, of processes and of close keeps the supervisor's invariant. |
| ExecutorProtocol.Doubles | desktop/runner/executor.go:422 | Doubling and capping a wait already capped is doubling before the cap. |
| ExecutorSafety.Safety | desktop/runner/executor.go:383-482 | After any steps: one executor alive at most, only one that passed the health check is published or handed to a call, no reader sleeps on the open channel while there is an answer; every wait is in bounds, doubles, and is waited: no process is made before it is over; the wait is the shortest again exactly after a process that ran the stable time from being published to its end; and the loop is over only when it was cancelled or met a mismatch. |
| ExecutorSafety.FailedSpawnLeavesNothing | desktop/runner/executor.go:484-567 | Every failing end of spawn leaves no process alive. |
| ExecutorSafety.ReaderIsAnswered | desktop/runner/executor.go:456-482 | A reader that waits while there is an executor, or none to come, is woken and answered. |
| ExecutorSafety.MismatchIsFinal | desktop/runner/executor.go:392-396 | After a protocol mismatch nothing is ever spawned again. |
| ExecutorSafety.FailureWaits | desktop/runner/executor.go:387-422 | After a failed spawn that is no mismatch no process is made before the backoff is over, in any continuation, and the loop is over only after a cancel or a mismatch. |
| ExecutorSafety.WaitEnds | desktop/runner/executor.go:417-422 | When its wait is over the loop tries again, with the wait doubled. |
| ExecutorSafety.ClosedForGood | desktop/runner/executor.go:373-381 | When close returns no executor lives, and none ever will. |
| ExecutorSafety.LoopEnds | desktop/runner/executor.go:383-424 | Once cancelled, every move brings the loop nearer its end and there is one to make until then. |
| ExecutorSafety.Bounds | desktop/runner/executor.go:410-422 | The waits of a run's log lie between the shortest and the longest and follow one another as they should. |
| ExecutorSupervisors.ExecutorSupervisor.Spawn | desktop/runner/executor.go:484-567 | A healthy process exactly when everything went well, or none alive, for every way the world may answer; a mismatch exactly when the health check found another protocol. |
| ExecutorSupervisors.ExecutorSupervisor.AfterSpawn | desktop/runner/executor.go:387-401 | What the loop does with spawn's result is the protocol's step; after a failure that is no mismatch it sleeps for the backoff from now. |
| ExecutorSupervisors.ExecutorSupervisor.AfterRun | desktop/runner/executor.go:402-415 | What it does when an executor exits or close comes is the protocol's steps; after an exit it sleeps from now for the backoff, which is the shortest when the executor ran long enough. |
| ExecutorSupervisors.ExecutorSupervisor.Ready | desktop/runner/executor.go:459-468 | A call gets the current, healthy executor exactly when there is one, a refusal exactly when there will be none, or the channel that is open now. |
| DesktopEntries.AllAtOnce | desktop/src/main/login-item.ts:30-33 | The three replacements, each over the whole text, are one map over its characters. |
| DesktopEntries.QuotedArgument | desktop/src/main/login-item.ts:24-33 | Undoing the Exec quoting and the doubled percent signs gives the argument back, whatever follows it. |
| DesktopEntries.UnescapedAll | desktop/src/main/login-item.ts:24-33 | Undoing the string's escapes gives the Exec-quoted argument. |
| DesktopEntries.EntryValue | desktop/src/main/login-item.ts:35-48 | The entry's Exec value is what follows the key up to the first line break there is. |
| DesktopEntries.EntryRoundTrip | desktop/src/main/login-item.ts:24-48 | The entry starts exactly the given path with the hidden flag if and only if the path is ASCII without control characters, has no equals sign, and is a full path or a bare name; otherwise it names no command. |
| DesktopEntries.RefusedPaths | desktop/src/main/login-item.ts:35-48 | Two paths the program writes and that start nothing: one with an equals sign, one with a letter beyond ASCII. |
| SigningFiles.SortedSorts | desktop/runner/mobile_release.go:681-685 | The names, each once, in increasing order. |
| SigningFiles.SortNames | desktop/runner/mobile_release.go:681-685 | Computes that order. |
| SigningFiles.SigningText | desktop/runner/mobile_release.go:678-694 | The text written piece by piece is the assignments in the order of the names. |
| SigningFiles.EscapedWord | desktop/runner/mobile_release.go:687-693 | A shell reads the quoted value back, apostrophes and line feeds in it or not, and stops at its line's end. |
| SigningFiles.SigningRoundTrip | desktop/runner/mobile_release.go:678-694 | Sourcing the file assigns exactly the secrets in the order of their names if and only if none holds a NUL. |
| SigningFiles.CheckReleaseSecrets | desktop/runner/mobile_release.go:538-576 | In whatever order the map is walked: all the secrets are returned exactly when there are at most 32, every name and value is acceptable and the total size is within the bound; otherwise none. |
| SigningFiles.AcceptedRoundTrip | desktop/runner/mobile_release.go:554-558 | Whatever is accepted can be sourced back as it is. |

## Left out

- JSON: which frames are a done, and the done supplied for a body that wrote none, are parameters; frames are byte strings, and `Closes` is the small grammar of strings and brackets that withSeq needs.
- The request handlers, headers, status codes, run.status and run.attach parsing, yamux, WebSocket and proxying: plumbing over libraries.
- Real files, directories, process groups, signals and `ps`: only their outcomes are modelled, and stopping a process is taken to end it.
- The resolution of start times: a process's start time is its place in the order of starting, so no two processes share one.
- RunRegistries.RunRegistry.Start: the directory and the file a new ring may get are the ring's own parameters, in `DurableRun.Start`.
- Updates in place of a run's and a flight's own record: a class keeps all of them in a table of values, so two pointers to one record are two equal numbers.
- The pointers of slices in the ring, the trimming of buffers and the reuse of memory: segments hold values.
- A run's execution and its retention by the registry are modelled in two places, `DurableRun` for its frames and `RegistryProtocol` for its place; that both see the same phase is the program's one field.
- rpc.go's table of calls and `call.finish`: a set and a flag with easy contracts.
- handleClaudeRun beyond its use of slots, and redaction of secrets in output.
- `hubOutput.tail` and the executor's own output buffer: the former trims on both sides, the latter repeats hubOutput with another width.
- LimitedLines.Forward: hands its texts on as bytes; the JSON event around each is the call's, as for all its output.
- `truncateEncoding`, `defaultWasmThreads` and the readers of request bodies: one-branch members.
- Model loading, inference and pooling in the embedder.
- The size limits of integers: sequence numbers, byte counts and times are far below them.
- Windows and macOS login items, and the sweepers of leftover files.
