# A model of radio-server's stateful cores

radio-server drives an amateur radio over a sound card and a serial line: it decodes touch-tones into
login codes and commands, keys and tunes the transmitter, squelches what it hears, fans events out to
clients and swaps radio backends while running. This project models the parts of it whose behaviour
depends on history, and proves what each does over every run.

Objects the program updates in place are classes whose methods are proved against a specification: a
step function of the old state, or a ghost history that the object's invariant ties its fields to. What
the program promises is then proved about those specifications, for all inputs, interleavings and
clocks. Calls into devices (tuner, serial line, streams, factories, clocks) either take their answer as a
parameter or may succeed or raise at every call. Times are real numbers; the tones of a code, the
classification of an audio block and the decoding of a window are arbitrary functions.

| file | component |
|---|---|
| `KeyRuns.dfy` | run heads, the de-duplication rule shared by both touch-tone decoders |
| `Goertzel.dfy` | the in-process tone stream: block buffer and onset/gap machine |
| `Framing.dfy` | the framing grammar: timed keys to entries |
| `DtmfInput.dfy` | the streaming and buffered inputs, end to end |
| `WriteQueue.dfy` | the bounded hand-off to the external decoder's writer thread |
| `Subscriber.dfy`, `EventHub.dfy` | bounded event queues with two overflow policies, and the fan-out |
| `Keying.dfy` | key-up and key-down, assignment by assignment, with failures |
| `Tuning.dfy`, `Presets.dfy` | staged channels, nested batches, and presets over them |
| `Totp.dfy`, `Session.dfy` | one-time codes and the login plane |
| `Squelch.dfy` | hysteresis and hang |
| `BroadcastFm.dfy` | the second-receiver cadence |
| `Holder.dfy` | the live backend swap with rollback |

`dafny verify dfyconfig.toml` checks the whole project.

Main results: the keys and entries of the native decoder are a function of the sample stream, however it
is chunked and read (`DtmfInput.StreamingDtmfInput.Pump`); a drop-oldest subscriber is a window on an
unbounded log (`Subscriber.DropOldestIsAWindow`); every instant of a key-up is announced before the line
is high (`Keying.AiocKeyer.KeyOn`); pending-or-tuned is the fold of the accepted requests whatever fails
(`Tuning.PendingOrTunedIsTheFold`); a pruned burn set is indistinguishable from an unpruned one, and a
login succeeds exactly on a fresh step (`Totp.ForgettingIsInvisible`, `Session.LoginIffClosedAndFresh`);
the squelch passes a frame exactly when the level trace says so (`Squelch.PassesIffOpenSince`); and a
swap ends bound to one freshly built radio whatever fails short of the rollback itself
(`Holder.RadioHolder.Rebuild`).

One place where the code and its documentation differ, and the code is followed. The cadence is said to
lose nothing by pausing, because the firmware refuses the probe for as long as the station is keyed. The
pause hook wired in `radio_server/api/app.py` asks `cadence_paused()`, which is already true while a
key-up has only reserved the wire and the line is still low (`Keying.AiocKeyer.KeyOn` proves that every
key-up from idle begins with such an instant), so a probe skipped there could have been answered. What
does hold: the two cadences agree, up to the accounting of skips, if and only if no skipped probe would
have answered (`BroadcastFm.PausingIsExactIffNothingIsLost`), and they hold the same reading at every
instant if and only if each answer lost would only have confirmed it
(`BroadcastFm.ReadingsAgreeIffLostAnswersConfirm`).

## Model

| member | source | states |
|---|---|---|
| `KeyRuns.KeysAreExactlyTheHeads` | radio_server/audio/dtmf.py:764-787 | The emitted keys are exactly the blocks that name a key their predecessor did not, each once, in order |
| `KeyRuns.RunHeadsOfConcat` | radio_server/audio/dtmf.py:764-787 | Joining two streams merges at most the one press held across the join |
| `KeyRuns.RepeatAfterGapRegisters` | radio_server/audio/dtmf.py:174-178 | After any gap the same key registers again |
| `KeyRuns.HoldingLongerChangesNothing` | radio_server/audio/dtmf.py:693-697 | A held tone emits once: lengthening any block's stay changes no key |
| `Goertzel.BlocksFillTheStream` | radio_server/audio/dtmf.py:729-735 | As many blocks are cut as fit, and the leftover is what follows them |
| `Goertzel.BlockIsItsSlice` | radio_server/audio/dtmf.py:729-735 | Blocks are contiguous and do not overlap: block i is samples 205i to 205i+205 |
| `Goertzel.BlocksDoNotSeeChunks` | radio_server/audio/dtmf.py:722-735 | Cutting a leftover followed by the next chunk yields the blocks and leftover of the joined stream |
| `Goertzel.ChunkingIsInvisible` | radio_server/audio/dtmf.py:722-735 | Any splitting of the samples into writes yields the same blocks and the same leftover |
| `Goertzel.GoertzelStream.Write` | radio_server/audio/dtmf.py:722-735 | Keys handed out and pending are always the run heads of everything heard; under 205 samples wait; a closed stream hears nothing |
| `Goertzel.GoertzelStream.Advance` | radio_server/audio/dtmf.py:764-787 | One block moves the onset/gap machine from one classified stream to the stream with that block appended |
| `Goertzel.GoertzelStream.Read` | radio_server/audio/dtmf.py:737-740 | Reading drains the keys and disturbs nothing else, so when it is called is invisible |
| `Framing.RunStartIsTheOnlyPendingRun` | radio_server/audio/dtmf.py:339-347 | There is exactly one maximal pending digit run, delimited by terminators and timeout gaps |
| `Framing.EntryIsTheSubmittedRun` | radio_server/audio/dtmf.py:367-377 | A key returns entry w if and only if it is `#`, in time, and w is the non-empty pending run |
| `Framing.EntriesAreDigitRuns` | radio_server/audio/dtmf.py:358-361 | Entries are never empty and never contain a terminator |
| `Framing.PendingOfSnoc` | radio_server/audio/dtmf.py:364-377 | What one key, timely or late, does to the pending run |
| `Framing.TimingIsInvisibleWhileNothingStalls` | radio_server/audio/dtmf.py:385-387 | While no gap reaches the timeout, entries depend on the keys alone |
| `Framing.FramerReturnsTheDenotedEntries` | radio_server/audio/dtmf.py:355-387 | Over any run of keys and polls the framer returns exactly the entries the timed keys denote |
| `Framing.PollingChangesNoEntry` | radio_server/audio/dtmf.py:379-387 | Inserting polls consistent with the clock changes no entry |
| `Framing.DtmfFramer.Feed` | radio_server/audio/dtmf.py:355-377 | Feeding a key is the framer's press step: new state and returned entry |
| `Framing.DtmfFramer.PollTimeout` | radio_server/audio/dtmf.py:379-383 | Polling is the framer's tick step |
| `Framing.DtmfFramer.Expire` | radio_server/audio/dtmf.py:385-387 | The buffer is dropped exactly when the gap reaches the timeout |
| `DtmfInput.StreamingDtmfInput.Pump` | radio_server/audio/dtmf.py:814-818 | Keys fed are those of the whole sample stream, entries returned are those the timed keys denote, and without a stall they depend on the samples alone |
| `DtmfInput.StreamingDtmfInput.Flush` | radio_server/audio/dtmf.py:820-822 | Flushing reports what is decoded, under the same end-to-end statement |
| `DtmfInput.StreamingDtmfInput.Deliver` | radio_server/audio/dtmf.py:828-836 | Every key read is framed once, in order, at the time of the call |
| `DtmfInput.SilentWindowSeparates` | radio_server/audio/dtmf.py:420-424 | A silent window separates the de-dup completely |
| `DtmfInput.DedupCollapsesRepeats` | radio_server/audio/dtmf.py:469-478 | Between silent windows the keys fed are the decoder output with adjacent repeats collapsed, across window boundaries |
| `DtmfInput.BufferedDtmfInput.Pump` | radio_server/audio/dtmf.py:451-457 | No audio is lost or repeated, less than a window is left buffered, and the decoded window is the whole buffer |
| `DtmfInput.BufferedDtmfInput.Flush` | radio_server/audio/dtmf.py:459-461 | After a flush the decoded windows are all the audio pumped |
| `DtmfInput.BufferedDtmfInput.DecodeWindow` | radio_server/audio/dtmf.py:463-484 | Decoding empties the buffer into one window and keeps keys, de-dup memory and entries as denoted |
| `DtmfInput.BufferedDtmfInput.FeedChunk` | radio_server/audio/dtmf.py:468-484 | Keys fed after one more window are those all windows denote, with or without the de-dup |
| `WriteQueue.ActKeepsTheQueueContiguous` | radio_server/audio/dtmf.py:609-619 | Each atomic queue operation of either thread keeps the queue a contiguous run of the newest writes |
| `WriteQueue.EveryInterleavingIsContiguous` | radio_server/audio/dtmf.py:607-619 | Over every interleaving the second put never fails, and a chunk leaves the queue untaken only by eviction as the oldest |
| `WriteQueue.UndisturbedWriteKeepsTheNewest` | radio_server/audio/dtmf.py:607-619 | A write to a full queue replaces exactly its oldest chunk |
| `Subscriber.DepthIsBounded` | radio_server/api/events.py:191-223 | A bounded queue never exceeds its bound |
| `Subscriber.ReaderMovesForward` | radio_server/api/events.py:214-223 | What is read are log positions in strictly increasing order |
| `Subscriber.DropOldestIsAWindow` | radio_server/api/events.py:214-223 | Drop-oldest refines an unbounded log: queue, reads and losses are those of a window behind a cursor |
| `Subscriber.WindowIsLongestFittingSuffix` | radio_server/api/events.py:93-96 | That window is the longest suffix of the unread events that fits |
| `Subscriber.DropSubscriberIsGapFreeThenFinal` | radio_server/api/events.py:225-234 | Drop-subscriber delivers an exact prefix, then at most one notice whose count is the bound plus one and completes the prefix |
| `Subscriber.NothingIsUnaccountedFor` | radio_server/api/events.py:203-243 | Every event offered to a subscriber was read, is queued, or is counted lost |
| `EventHub.EventHub.Subscribe` | radio_server/api/events.py:182-193 | A new empty queue is registered under the given policy, from this point of the log on; every other queue is untouched |
| `EventHub.EventHub.Unsubscribe` | radio_server/api/events.py:195-201 | The queue is unregistered, idempotently, keeping its contents |
| `EventHub.EventHub.Get` | radio_server/api/events.py:182-193 | A subscriber reads the oldest item of its own queue, if any |
| `EventHub.EventHub.Publish` | radio_server/api/events.py:203-212 | The log of published events grows by this one, which every registered queue is offered; every queue registered still has been offered exactly the log since it subscribed; no queue operation fails |
| `EventHub.EventHub.FanOut` | radio_server/api/events.py:207-212 | Every queue registered at the start is offered the event once, whichever the fan-out drops on the way; no other queue's history moves |
| `EventHub.EventHub.Deliver` | radio_server/api/events.py:207-212 | One queue's offer leaves every other queue and registration as it was |
| `EventHub.EventHub.PutOrOverflow` | radio_server/api/events.py:208-211 | The queue, its registration and the counters move exactly as that subscriber's own history says |
| `EventHub.EventHub.Overflow` | radio_server/api/events.py:214-234 | A full queue loses its oldest event, or is unregistered and left one notice naming what it lost |
| `EventHub.EventHub.GetStats` | radio_server/api/events.py:245-259 | Of the counters returned: offered equals read plus queued plus the dropped deliveries, the dropped subscribers are the notices left, the deepest queue is a depth reached, never exceeded and within the limit, and the subscribers are the queues still live |
| `EventHub.EventHub.EachQueueIsItsOwn` | radio_server/api/events.py:203-243 | What a subscriber finds depends on its own policy and history alone: the longest fitting suffix, or the gap-free prefix then the notice, of the events published since it subscribed |
| `EventHub.EventHub.LossIsExactlyAccounted` | radio_server/api/events.py:245-259 | Over all subscribers, offered equals read plus queued plus dropped deliveries; the deepest-queue counter is a depth some queue reached, none exceeded and the limit allows |
| `Keying.AiocKeyer.WriteLine` | radio_server/backends/aioc_baofeng.py:629-629 | A line write may raise; the line is raised only with the flag up and playback open |
| `Keying.AiocKeyer.DropLine` | radio_server/backends/aioc_baofeng.py:622-630 | The line goes low and then the flag; if the write raises the flag stays up |
| `Keying.AiocKeyer.KeyOff` | radio_server/backends/aioc_baofeng.py:1219-1243 | Un-keying drives the line low unconditionally before any teardown |
| `Keying.AiocKeyer.PacerMayFail` | radio_server/backends/soundcard.py:300-317 | A failing playback thread un-keys and never raises the line |
| `Keying.AiocKeyer.KeyOn` | radio_server/backends/aioc_baofeng.py:1115-1165 | From reservation to release every instant pauses the cadences, the first with the line not yet moved; a key-up that raises leaves the line low and the depth as it was, and raises only if a device call did; one that returns raised the line, whatever the playback thread did since |
| `Keying.AiocKeyer.KeyOnLocked` | radio_server/backends/aioc_baofeng.py:1167-1217 | Stream, flag, line in that order; a failed assert is undone; the playback thread may fail before or after its writer is attached, and the flag still tells the line if its low-write succeeds |
| `Keying.AiocKeyer.Ptt` | radio_server/backends/aioc_baofeng.py:1285-1296 | Every instant is safe; if low-writes succeed, a failed key-up and every un-key end with the line low, and between calls the line is high only while held |
| `Keying.AiocKeyer.Transmit` | radio_server/backends/aioc_baofeng.py:1247-1276 | A one-shot clip always ends with the line low if low-writes succeed; a wrong format changes nothing |
| `Tuning.BandsLeaveNoHole` | radio_server/backends/uvk5/vfo.py:173-195 | A frequency has a band exactly within the outer edges, and it is the last band starting at or below it |
| `Tuning.StepFollowsTheWish` | radio_server/backends/aioc_baofeng.py:1318-1455 | Any single operation changes pending-or-tuned only by the request it carries |
| `Tuning.PendingOrTunedIsTheFold` | radio_server/backends/aioc_baofeng.py:1318-1455 | Over any run, with failures and refusals, pending-or-tuned is the fold of the supported requests, each as it was accepted or refused |
| `Tuning.TunedIsTheLastConfirmed` | radio_server/backends/aioc_baofeng.py:1443-1455 | From any configured station power, the tuned channel is always the last one the tuner confirmed |
| `Tuning.FoldStaysConsistent` | radio_server/backends/aioc_baofeng.py:1415-1424 | Every channel held is a real one at the station's power level |
| `Tuning.SettledIffClean` | radio_server/backends/aioc_baofeng.py:1426-1455 | With nothing pending outside a batch, one operation leaves it so if and only if no commit it makes fails and it does not unwind an outermost batch with something pending |
| `Tuning.CleanRunsSettle` | radio_server/backends/aioc_baofeng.py:1426-1441 | When no commit fails, nothing is left pending outside a batch, whatever is keyed or unwound inside one |
| `Tuning.BatchingIsInvisible` | radio_server/backends/aioc_baofeng.py:1426-1441 | When no commit fails, any grouping and nesting of the same requests, with keying between commits and inner batches unwound, ends on the same channel, which is their fold |
| `Tuning.OpenBatchNeverTunes` | radio_server/backends/aioc_baofeng.py:1426-1441 | Nothing inside an open batch reaches the tuner |
| `Tuning.BatchTunesAtMostOnce` | radio_server/backends/aioc_baofeng.py:1432-1441 | An outermost batch costs at most one tune |
| `Tuning.TunableRadio.Create` | radio_server/backends/aioc_baofeng.py:310-318 | A new backend is untuned at the configured power level, and a level that does not exist is refused |
| `Tuning.TunableRadio.Apply` | radio_server/backends/aioc_baofeng.py:1452-1453 | The tuner may refuse any channel, and is only reachable while not transmitting |
| `Tuning.TunableRadio.CommitTuning` | radio_server/backends/aioc_baofeng.py:1443-1455 | Commit is a no-op without a change, refuses while transmitting, keeps the pending channel on failure |
| `Tuning.TunableRadio.AutoCommit` | radio_server/backends/aioc_baofeng.py:1426-1430 | Commit only outside a batch |
| `Tuning.TunableRadio.Stage` | radio_server/backends/aioc_baofeng.py:1318-1342 | The pending channel is the base with the changes, or nothing changes and the refusal says why |
| `Tuning.TunableRadio.SetFrequencyTo` | radio_server/backends/aioc_baofeng.py:1344-1349 | Refused without the capability; otherwise setting the frequency clears any split |
| `Tuning.TunableRadio.SetSplitTo` | radio_server/backends/aioc_baofeng.py:1351-1357 | A split needs a channel; no split means transmitting on the receive frequency |
| `Tuning.TunableRadio.SetToneTo` | radio_server/backends/aioc_baofeng.py:1359-1362 | No tone means none, not the last one |
| `Tuning.TunableRadio.SetModeTo` | radio_server/backends/aioc_baofeng.py:1364-1370 | Only FM and NFM are accepted |
| `Tuning.TunableRadio.SetPowerTo` | radio_server/backends/aioc_baofeng.py:1391-1424 | The level is the station's when untuned, and moves with the pending channel otherwise |
| `Tuning.TunableRadio.EndBatch` | radio_server/backends/aioc_baofeng.py:1438-1441 | The outermost normal exit commits; an unwinding exit never does |
| `Presets.SplitPresetFields` | radio_server/presets.py:238-261 | Present fields are split by capability in table order, and a receive tone is always skipped |
| `Presets.AppliedIsHonoured` | radio_server/presets.py:208-219 | On a radio that can set its frequency, the applied report equals the honoured list, in order |
| `Presets.AcceptedIsTheFold` | radio_server/presets.py:300-341 | Accepted requests end where the pending-or-tuned fold does |
| `Presets.PresetDeterminesTheChannel` | radio_server/presets.py:300-341 | From any consistent state a preset is accepted exactly when its channel is tunable, and then nothing of the previous channel survives but the station's power |
| `Presets.OnlyTheLastPresetSurvives` | radio_server/presets.py:328-341 | After any history the channel is the last preset's, at the last power level named |
| `Presets.ApplyFields` | radio_server/presets.py:300-341 | The setter calls, gated by capability, are exactly the preset's requests, and the report names what was written |
| `Presets.CloseBatch` | radio_server/presets.py:278-280 | The commit at the end keeps what is wanted, and either tunes it or leaves the tuned channel with the cause |
| `Presets.ApplyPreset` | radio_server/presets.py:264-280 | One batch: refused, changing nothing, exactly when the radio cannot set its frequency; on success the applied list is the honoured list and the radio is tuned to the preset's channel after at most one tune; a failure has its cause and leaves the tuned channel; either way the batch is closed |
| `Totp.StepAtIsMonotone` | radio_server/auth/totp.py:66-67 | A non-decreasing clock gives non-decreasing time steps |
| `Totp.ForgettingIsInvisible` | radio_server/auth/totp.py:94-99 | Pruning changes no answer, and keeps exactly the burns inside the window |
| `Totp.AcceptedIffStepIsFresh` | radio_server/auth/totp.py:69-92 | A code is accepted if and only if it matches a step of the window and its first matching step was not accepted before |
| `Totp.NoStepIsAcceptedTwice` | radio_server/auth/totp.py:33-38 | No time step is ever accepted twice, as section 5.2 of RFC 6238 requires |
| `Totp.AtMostThreeBurnsRetained` | radio_server/auth/totp.py:57-59 | At most three burns are ever retained |
| `Totp.AcceptsAreBoundedByTheClock` | radio_server/auth/totp.py:69-92 | A run spanning steps a to b accepts at most b - a + 3 times |
| `Totp.TotpVerifier.VerifyAndBurn` | radio_server/auth/totp.py:69-92 | Prune, then try the three offsets in order and burn what is accepted |
| `Totp.TotpVerifier.PruneTo` | radio_server/auth/totp.py:94-99 | Exactly the burns from the previous step on are kept |
| `Session.PollingIsInvisible` | radio_server/auth/session.py:93-108 | Polling for idle sessions at any times changes no entry's outcome |
| `Session.LiveIffKeptAlive` | radio_server/auth/session.py:104-150 | A session is live exactly when a login or open, with no logout since, was kept alive by stamps no further apart than the timeout |
| `Session.CommandIffLoggedIn` | radio_server/auth/session.py:139-167 | An entry is a command exactly in that case |
| `Session.GateBurnsAreTheVerifiers` | radio_server/auth/session.py:160-164 | The burns a run leaves are those of the verifier calls it made |
| `Session.LoginIffClosedAndFresh` | radio_server/auth/session.py:160-164 | A login succeeds exactly when the session is closed and the code's first matching step is unused by every session |
| `Session.AuthGate.ExpireIfIdle` | radio_server/auth/session.py:93-108 | Closes exactly a stale open session, and says so |
| `Session.AuthGate.LogOut` | radio_server/auth/session.py:110-121 | Closes on demand; reports whether it was open |
| `Session.AuthGate.OpenDirectly` | radio_server/auth/session.py:123-137 | Opens without a code, always stamping; reports whether it was closed |
| `Session.AuthGate.OnDtmf` | radio_server/auth/session.py:139-167 | Expire, stamp, then route by state, with the unenforced mode always a command |
| `Squelch.OpenGateIsTimedFromItsLastHold` | radio_server/activity/gate.py:133-142 | An open gate is timed from the last frame that reached the threshold in force |
| `Squelch.PassesIffOpenSince` | radio_server/activity/gate.py:127-142 | A frame passes exactly when some frame reached the on-threshold and every frame since is held by one that reached the off-threshold within the hang |
| `Squelch.LouderPassesMore` | radio_server/activity/gate.py:127-142 | A louder trace, or an easier gate, passes every frame the quieter one passes |
| `Squelch.AudioLevelGate.Create` | radio_server/activity/gate.py:111-115 | Construction is refused exactly when the thresholds leave no hysteresis |
| `Squelch.AudioLevelGate.Relay` | radio_server/activity/gate.py:127-142 | The verdict on each frame is that of the whole trace judged so far |
| `BroadcastFm.SkipsAreExactlyAccounted` | radio_server/activity/broadcast_fm_poll.py:118-151 | Whatever the probes would have answered, the two cadences' counters differ by exactly the ticks skipped, the answers lost to them and the hook's own failures |
| `BroadcastFm.PausingIsExactIffNothingIsLost` | radio_server/activity/broadcast_fm_poll.py:118-138 | A paused cadence knows what an unpaused one knows, every skip being a poll that would have counted as unknown, if and only if no skipped probe would have answered |
| `BroadcastFm.PausingIsAnExactSimulation` | radio_server/activity/broadcast_fm_poll.py:118-138 | In that case the two agree on the reading, its age and every report |
| `BroadcastFm.ReadingsAgreeIffLostAnswersConfirm` | radio_server/activity/broadcast_fm_poll.py:118-125 | The two hold the same reading at every instant if and only if each answer lost would only have confirmed it |
| `BroadcastFm.PausingAnAnsweringProbeLosesAReading` | radio_server/activity/broadcast_fm_poll.py:118-125 | A run in which a probe skipped would have answered, and the reading is lost |
| `BroadcastFm.HoldsDoNotDisarmEachOther` | radio_server/activity/broadcast_fm_poll.py:91-94 | The counter is the number of open holds |
| `BroadcastFm.OpenHoldReportsOn` | radio_server/activity/broadcast_fm_poll.py:159-178 | While any hold is open the report is on, whatever landed meanwhile |
| `BroadcastFm.HoldsLeaveTheReadingAlone` | radio_server/activity/broadcast_fm_poll.py:208-224 | A hold writes nothing that is measured |
| `BroadcastFm.ReleasedHoldsLeaveNoTrace` | radio_server/activity/broadcast_fm_poll.py:208-224 | Once every hold is closed the cadence's own knowledge decides |
| `BroadcastFm.BroadcastFmPoller.Poll` | radio_server/activity/broadcast_fm_poll.py:127-151 | A tick skips, holds the reading, or records a definite answer |
| `BroadcastFm.BroadcastFmPoller.Current` | radio_server/activity/broadcast_fm_poll.py:159-178 | The report is the held or measured reading over the snapshot's other fields |
| `BroadcastFm.BroadcastFmPoller.ObserveReading` | radio_server/activity/broadcast_fm_poll.py:180-195 | Records another's reading and returns the one displaced |
| `Holder.RadioHolder.ConstructRadio` | radio_server/api/holder.py:360-364 | The factory gives a radio never seen before, or raises having constructed none |
| `Holder.RadioHolder.CloseRadio` | radio_server/api/holder.py:297-310 | A backend with no close counts as released; a bounded close may not come back |
| `Holder.RadioHolder.MakeController` | radio_server/api/holder.py:215-216 | The controller, if any, is made for the active radio and settings |
| `Holder.RadioHolder.Start` | radio_server/api/holder.py:203-240 | Builds the pipeline against the active radio; a second call changes nothing |
| `Holder.RadioHolder.Stop` | radio_server/api/holder.py:242-310 | Always reaches the close and rebinds nothing |
| `Holder.RadioHolder.Rebuild` | radio_server/api/holder.py:312-379 | Ends bound to one freshly built radio: under the new settings exactly when nothing fails, under the previous ones exactly when one step does; refuses, touching nothing, exactly when the close was not released; no radio is dropped without being closed |
| `Holder.RadioHolder.BringUp` | radio_server/api/holder.py:365-379 | A target whose pipeline fails to start is closed and rolled back |
| `Holder.RadioHolder.Restore` | radio_server/api/holder.py:381-396 | The rollback binds everything to a freshly rebuilt radio under the previous settings, unless it fails itself |

## Left out

- Goertzel.GoertzelStream.Write: takes samples already resampled to the detector rate; the resampler and the tone arithmetic of a block's classification are floating-point numerics, so a classification is an arbitrary function of one block.
- Framing.DtmfFramer.Feed: takes the clock reading as a parameter; floating-point rounding of time differences is not modelled, here or in any other timed component.
- DtmfInput.StreamingDtmfInput.Pump: the per-digit display hook and per-frame resampling are not modelled.
- WriteQueue.EveryInterleavingIsContiguous: covers one writing thread and one draining thread as interleaved steps on a value, not as an object updated in place; what the writer thread does with a chunk it took (it drops it when no decoder process is live), the close sentinel, process respawn and reaping are not modelled.
- EventHub.EventHub.Publish: queues are named by the handle `subscribe` returned instead of being objects shared with their readers; awaiting an empty queue is a read that finds nothing.
- Keying.AiocKeyer.KeyOn: one keying thread, as the code takes no lock around the line; the drain barrier, the transmit lockout wait and the wire counters change no modelled field and are omitted.
- Keying.AiocKeyer.KeyOnLocked: does not promise that a key-up that returns still has its playback attached, because the playback thread may have failed and torn it down by then.
- Keying.AiocKeyer.PacerMayFail: the playback thread's un-key is one step with respect to the keying thread.
- Tuning.TunableRadio.Stage: tones are in tenths of Hz and requests arrive with their text stripped and folded. A setter is refused exactly when its capability is not advertised, as on every backend: the AIOC's tuners advertise all five, and with no tuner none is.
- Presets.ApplyPreset: setting the demodulator may fail but its value is session state of the tuner, not part of a channel, and is not tracked.
- Totp.TotpVerifier.VerifyAndBurn: the code generator is an arbitrary function of the time step, and comparison is plain equality.
- Session.AuthGate.OnDtmf: the dispatch hook runs after the outcome is decided; a logout it makes is a separate event of the run.
- Squelch.AudioLevelGate.Relay: takes the frame's level; computing it from samples is not modelled.
- BroadcastFm.BroadcastFmPoller.Poll: the probe's answer is a parameter; the polling thread's start and stop counting is omitted because it would only add easy members.
- Holder.RadioHolder.Rebuild: rebuilds are serialized by the holder's lock, so they are sequential here; building the receive gate is total, and dropping the key, stopping the scan and the pump inside a stop are guarded steps that rebind nothing.
- The validation of preset tables, the polled hardware squelch, the signal-strength cadence, the talker and arbiter state, channel-list import and log redaction: easy members, or text processing.
- HTTP and WebSocket routes, settings forms, the web client, example services, device discovery and the shutdown time budget: plumbing with no state of its own to prove things about.
