# Verified models of sip_core

This project models the parts of sip_core, a C++ SIP telephony core, whose correctness rests on state kept across many
calls and threads, and proves what they promise. Each model is a datatype of the state, a function that performs one
step, and a fold of that function over an arbitrary list of steps; steps that are not enabled change nothing. The main
theorems are about every list of steps. Where the C++ updates fields in place there is also a class whose methods carry
out the same code, loops included, are proved equal to the step they implement, and keep the invariant that the
theorems rest on.

What a run should have achieved is also read off the list of steps alone, without the model's state: the guards taken
and given back, the flags last set, the messages logged, the requests made of a conference. The theorems then compare
the model with that reading.

- **Scheduler** (`Scheduler`, `SchedulerRuns`, `ScheduledExecutor`): time-keyed buckets of jobs, a worker that pops the
  earliest due bucket, cancellable tasks, repeated tasks that renew themselves, `stop` and `start`.
- **Voice-activity throttle** (`VoiceThrottle`): the leading/trailing-edge limit of 250 ms between broadcasts. The
  scheduler's state is part of its state, so that its timing is proved from the scheduler's theorems.
- **Audio streams** (`AudioStream`): counted guards on a device stream with a stop deferred by 750 ms, again on top of
  the scheduler, with the firing of the stop split into leaving the queue and running under the lock.
- **Calls** (`CallState`, `CallFork`): the transition rules of one call and what its client is told; a parent call that
  forks subcalls, listens to them through a queue, takes over the first to answer and ends the others.
- **Conferences** (`ConferenceMute`, `Membership`): the microphone filter under two independent mute flags; the movement
  of calls between conferences and the dissolution of those that shrink.
- **Conference protocol** (`ConfOrder`, `ConfOrderLaws`, `ConfProtocolParser`, `ConfInfo`): the order builders and the
  versioned parser with its handlers; equality, merging and per-destination views of conference information.
- **Thread loop** (`ThreadLoop`): a restartable worker shared with its owner, interleaved at each access to shared state.
- **Log file** (`FileLog`): a double-buffered queue between producers and a writer, and rotation by size.
- **NV21 rotation** (`Nv21`): index arithmetic over luma and chroma planes in arrays.

Several promises hold only under a condition. The condition is then stated exactly, and concrete runs show failing
sides:

- along every run the audio guards match the stream exactly when the driver is only recreated while no deferred stop is
  pending (`AudioStream.RecreateIsSafeIff`);
- a deferred stop keeps its 750 ms exactly when it finds the slot empty or due, and pairs with a start exactly when it
  finds the slot occupied (`AudioStream.StopsAreDeferredIff`);
- voice-activity broadcasts keep the 250 ms of their decisions less the longest delay between a decision and its
  broadcast, and no more (`VoiceThrottle.BroadcastsAreSpaced`, `VoiceThrottle.DelayBunches`);
- a client of a call with re-entrant listeners is up to date exactly when the last visible change outside any other is
  left as it was (`CallState.UpToDateAfterAll`);
- a parent call that was answered takes subcalls again exactly after an outside change that reopens it
  (`CallFork.ReopenedIff`);
- an update of the voice activity is stranded exactly by stopping the scheduler while its trailing send is queued
  (`VoiceThrottle.StrandedOnlyByStop`);
- an answered subcall connects its parent exactly when its state at delivery, not the state the event carried, is one
  the parent may take over (`CallFork.AnswerConnectsIff`);
- the microphone filter agrees with the mute flags along a run exactly when each mute of the local host finds an audio
  source to remember it and each un-mute no unset one (`ConferenceMute.MicFilterAgreesIff`);
- joining two conferences yields their union exactly when every call that moves belongs to the first account
  (`Membership.JoinIsUnion`), and joining a conference with itself dissolves it;
- the account uris `version` and `layout` are exactly those whose orders do not come back
  (`ConfOrderLaws.ReservedUriIsLost`);
- the equality test on conference information is right exactly for lists without duplicates (`ConfInfo.TestIsRightIff`);
- a timed join can be misled about a live worker exactly when the done flag is up already or an older worker is live
  (`ThreadLoop.TimedJoinMisledIff`);
- a conference has at least two members unless an account spared it (`Membership.ConferencesHaveTwoMembers`);
- a write keeps the log file within its limit unless every rename of a due rotation fails (`FileLog.WithinLimitIff`);
- the chroma plane of a rotated picture fits exactly when its width is even (`Nv21.ChromaFitsIff`), and the copy without
  rotation takes twice the usual chroma plane (`Nv21.PlainCopyFitsIff`).

Verify the whole project with `dafny verify dfyconfig.toml`.

## Model

| member | source | states |
|---|---|---|
| `Scheduler.RunKeeps` | src/scheduled_executor.cpp:55-178 | every interleaving of submit, poll, start of a job, end of a job, renewal, cancel, stop and start keeps the invariant: ids unique, each job in one place, nothing due early, entries on their grid, one live entry per task |
| `SchedulerRuns.Conservation` | src/scheduled_executor.cpp:55-178 | after every run each submitted job is in exactly one of waiting, popped, run and dropped, exactly once, and nothing else is anywhere |
| `SchedulerRuns.NeverEarly` | src/scheduled_executor.cpp:152-178 | no job starts before its due time, and starts are in clock order |
| `SchedulerRuns.OrderOfStarts` | src/scheduled_executor.cpp:92-178 | of two jobs waiting at one moment the one with the smaller due time, then submission order, starts first unless a stop drops it |
| `SchedulerRuns.PoppedIsNeverDropped` | src/scheduled_executor.cpp:83-178 | a stop drops waiting jobs only, never one the worker has popped |
| `SchedulerRuns.FixedRate` | src/scheduled_executor.cpp:119-139 | the k-th entry a repeated task ever queues is due exactly k periods after its first, however late earlier runs were |
| `SchedulerRuns.OneEntryPerTask` | src/scheduled_executor.cpp:119-150 | a task never has two entries that can still run |
| `SchedulerRuns.EntryComesFrom` | src/scheduled_executor.cpp:129-139 | a known task without a live entry gets one only from its own renewal |
| `SchedulerRuns.LaunchConsumesEntry` | src/scheduled_executor.cpp:152-178 | starting an entry leaves no entry of its task in the queue, and the task can run on if and only if its repeated function was just entered |
| `SchedulerRuns.AfterCancel` | src/scheduled_executor.h:132-168 | after cancel the function is never entered again on any run, and at most one leftover entry is started, as a no-op |
| `SchedulerRuns.FinishOrThrowEndsChain` | src/scheduled_executor.h:132-156 | a function that returns false or throws leaves no entry behind, although a throw does not mark the task as cancelled |
| `SchedulerRuns.EndedChainStaysOver` | src/scheduled_executor.cpp:129-178 | on every run after a function has returned false or thrown, no entry of its task is ever started again |
| `SchedulerRuns.ExceptionsAreContained` | src/scheduled_executor.cpp:171-177 | whatever each job of a popped batch does and whatever callers submit, cancel or stop meanwhile, every job after it is started too, in order |
| `SchedulerRuns.TaskRepeats` | src/scheduled_executor.cpp:129-139 | on every run, a repeated task whose function returned true has an entry again, and after whatever callers do and the renewal a new one waits, one period after the previous due time and next in its count |
| `SchedulerRuns.SubmissionIsQueued` | src/scheduled_executor.cpp:92-150 | on every run each submission queues exactly one job, with its own due time, behind what was submitted before |
| `SchedulerRuns.PollTakesTheEarliest` | src/scheduled_executor.cpp:152-169 | on every run polling takes all the jobs of the earliest due time and no others if the worker is free and something is due, and otherwise changes nothing |
| `SchedulerRuns.StartLaunchesTheHead` | src/scheduled_executor.h:86-156 | the first job of the batch is launched now, and its function is called if and only if its task is neither cancelled nor released |
| `SchedulerRuns.CancelledIff` | src/scheduled_executor.h:132-168 | on every run a task becomes cancelled by its owner or by returning false, and by nothing else |
| `SchedulerRuns.EmptiedIff` | src/scheduled_executor.h:132-168 | on every run the function of a task is released by returning false, by its owner while no call of it is under way, or by a leftover entry of a cancelled repeated task, and by nothing else |
| `SchedulerRuns.RunsUntilStopped` | src/scheduled_executor.cpp:55-90 | an executor that nobody stops is running after every run |
| `ScheduledExecutor.Executor.Enqueue` | src/scheduled_executor.cpp:141-150 | appends the job to the bucket of its time and keeps the invariant, for an entry on its grid that is the only live one of its task |
| `ScheduledExecutor.Executor.AddTask` | src/scheduled_executor.cpp:102-127 | a new task with its first entry, which is always welcome |
| `ScheduledExecutor.Executor.Run` | src/scheduled_executor.cpp:92-100 | submits a job due at once |
| `ScheduledExecutor.Executor.ScheduleIn` | src/scheduled_executor.cpp:111-117 | submits a cancellable task due after the delay |
| `ScheduledExecutor.Executor.ScheduleAtFixedRate` | src/scheduled_executor.cpp:119-127 | submits the first entry of a repeated task, due at once |
| `ScheduledExecutor.Executor.CancelTask` | src/scheduled_executor.h:109-168 | marks a task as cancelled and touches no entry |
| `ScheduledExecutor.Executor.EmptyTask` | src/scheduled_executor.h:161-168 | releases the function of a cancelled task unless a call of it is under way |
| `ScheduledExecutor.Executor.StopWorker` | src/scheduled_executor.cpp:83-90 | clears the running flag and drops exactly the waiting jobs |
| `ScheduledExecutor.Executor.StartWorker` | src/scheduled_executor.cpp:55-81 | runs again, from an empty batch |
| `ScheduledExecutor.Executor.FirstKey` | src/scheduled_executor.cpp:152-169 | the smallest key of the bucket map |
| `ScheduledExecutor.Executor.PollDue` | src/scheduled_executor.cpp:152-169 | pops the earliest bucket if and only if it is due |
| `ScheduledExecutor.Executor.StartJob` | src/scheduled_executor.h:86-156 | starts the head of the batch, or skips the function of a cancelled task |
| `ScheduledExecutor.Executor.ReturnFromTask` | src/scheduled_executor.h:132-156 | a repeated task that returns true goes on to its renewal, which `SchedulerRuns.TaskRepeats` follows up; one that returns false is cancelled |
| `ScheduledExecutor.Executor.Reschedule` | src/scheduled_executor.cpp:129-139 | renews a task that is not cancelled, one period after the previous due time |
| `ScheduledExecutor.Executor.PerformJob` | src/scheduled_executor.cpp:171-177 | one job of the batch with what callers do meanwhile; a throw skips only its own renewal |
| `ScheduledExecutor.Executor.Loop` | src/scheduled_executor.cpp:152-178 | one turn of the worker: pops what is due and starts every popped job, in order, whether or not earlier ones threw and whatever callers do meanwhile |
| `ScheduledExecutor.Executor.Serve` | src/scheduled_executor.cpp:83-150 | the calls other threads make while the worker is busy, as a run of the scheduler |
| `VoiceThrottle.FiresOnTime` | src/conference.cpp:907-947 | a trailing send that fires does so no earlier than one interval after the last send, by the scheduler's invariant |
| `VoiceThrottle.SendsAreSpaced` | src/conference.cpp:907-947 | on every run the i-th and k-th sends are decided at least (k - i) times 250 ms apart |
| `VoiceThrottle.FloodBound` | src/conference.h:511-517 | a window of W milliseconds holds the decisions of at most W / 250 + 1 sends |
| `VoiceThrottle.BroadcastsAreSpaced` | src/conference.cpp:907-971 | on every run whose broadcasts go out at most d after their decision, the i-th and k-th broadcasts are at least (k - i) times 250 ms, less d, apart; with d = 0 they are as far apart as the decisions |
| `VoiceThrottle.BroadcastBound` | src/conference.h:511-517 | on every such run a window of W milliseconds holds at most (W + d) / 250 + 1 broadcasts |
| `VoiceThrottle.DelayBunches` | src/conference.cpp:934-947 | the loss of d is real: for every d up to 250 ms a run has two broadcasts 250 - d apart, for 250 at one instant |
| `VoiceThrottle.NoUpdateIsLost` | src/conference.cpp:907-971 | in every reachable state the flags shown are those last set, read off the steps, or a send is under way, or a trailing send is queued, or the trailing send was stranded and nothing is sent any more |
| `VoiceThrottle.StrandedOnlyByStop` | src/conference.cpp:918-936 | a step strands the trailing send if and only if it stops the scheduler while that send is queued and neither popped nor under way |
| `VoiceThrottle.StrandedForever` | src/conference.cpp:907-947 | once stranded no run sends anything |
| `VoiceThrottle.RequestIsServed` | src/conference.cpp:907-936 | a caller is served at once if and only if no send is pending and the last is an interval ago by its clock, and otherwise by a trailing send due exactly one interval after the last, later only by the time between reading the clock and entering |
| `VoiceThrottle.TrailingSendFires` | src/conference.cpp:924-947 | on every run, when the trailing send is the next job, starting it and taking the lock decides one send at that moment |
| `VoiceThrottle.BroadcastShowsTheLatest` | src/conference.cpp:949-971 | on every run a broadcast shows the flags last set, at the time it goes out |
| `VoiceThrottle.TrailingSendStartsIff` | src/conference.cpp:918-947 | on every run the trailing send is entered if and only if the worker starts it |
| `VoiceThrottle.Limiter.UpdateVoiceActivity` | src/conference.cpp:1674-1714 | sets the flags and asks for a send |
| `VoiceThrottle.Limiter.SendVoiceActivity` | src/conference.cpp:907-936 | leading edge, or one trailing send for the rest of the interval, or nothing if one is pending |
| `VoiceThrottle.Limiter.StartFlush` | src/conference.cpp:924-929 | the worker takes the trailing send out of the queue; the rate limit stays pending until it has the lock |
| `VoiceThrottle.Limiter.FlushVoiceActivity` | src/conference.cpp:938-947 | under the lock the trailing edge records its time and decides to send |
| `VoiceThrottle.Limiter.DoSendVoiceActivity` | src/conference.cpp:949-971 | one decided send broadcasts the flags as they are at that moment |
| `AudioStream.GuardsMatchTheStream` | src/manager.cpp:2437-2490 | on every run that recreates the driver only while no stop is pending: guards taken and not given back mean started and no stop pending, a pending stop means no such guards and started, neither means stopped |
| `AudioStream.EveryGuardCounts` | src/manager.cpp:2437-2467 | on every run the counter is the number of guards taken and not given back, counted from the steps alone, and the last release is where the steps have it |
| `AudioStream.PendingStopComes` | src/manager.cpp:2461-2490 | on every run without a stop of the scheduler or a recreation during a pending stop, a pending stop is queued or waits for the lock, and once it is the next job it stops the stream |
| `AudioStream.StopWaitsIff` | src/manager.cpp:2478-2487 | on every such run a stop waits for the lock if and only if the worker has started one that is not cancelled |
| `AudioStream.RecreateIsSafeIff` | src/manager.cpp:2889-2903 | along every run all states have that agreement if and only if each recreation of the driver finds no stop pending |
| `AudioStream.RecreateThenAcquireIsSilent` | src/manager.cpp:2445-2458 | after a recreation during a pending stop the next guard holds a stream that was never started |
| `AudioStream.StopsAreDeferred` | src/manager.cpp:2461-2490 | with atomic firing starts and stops alternate and every stop comes at least 750 ms after the last release |
| `AudioStream.StopIsOnTimeIff` | src/manager.cpp:2478-2487 | on every run without a recreation during a pending stop, a body that finds no guard held stops the stream 750 ms after the last release if and only if the slot is empty or its own task is due, and stops a started stream if and only if the slot is occupied; guards, clock and release are read off the steps |
| `AudioStream.StopsAreDeferredIff` | src/manager.cpp:2461-2490 | over whole runs: every stop is on time if and only if each finds the slot empty or due, and starts and stops alternate if and only if each finds it occupied |
| `AudioStream.OrderlyRun` | src/manager.cpp:2437-2490 | on every run at most one stop has lost its slot, and it starts before the one in the slot |
| `AudioStream.SlotLaunchesLast` | src/manager.cpp:2452-2487 | when the stop in the slot leaves the queue no stop without a slot is left, by the order of starts |
| `AudioStream.RacedStopIsEarly` | src/manager.cpp:2452-2487 | a guard taken and released while a stop waits for the lock is stopped without its linger, and once more when its own stop fires |
| `AudioStream.Device.AcquireGuard` | src/manager.cpp:2437-2459 | counts the guard; the first one cancels the pending stop or starts the stream |
| `AudioStream.Device.ReleaseGuard` | src/manager.cpp:2461-2490 | the last guard schedules a stop in 750 ms |
| `AudioStream.Device.RecreateAudioDriver` | src/manager.cpp:2889-2903 | the streams in use are started anew; the invariant is kept when no stop is pending |
| `AudioStream.Device.StopBody` | src/manager.cpp:2478-2487 | empties the slot and stops the stream unless it is in use |
| `CallState.PhaseAfterAll` | src/call.cpp:145-251 | over every run of accepted and rejected requests, re-entrant ones included, the phase of a call never goes back |
| `CallState.OverIsAbsorbing` | src/call.cpp:145-251 | a call that is over stays over |
| `CallState.AcceptedIff` | src/call.cpp:145-199 | a transition is accepted if and only if it ends the call, swaps active and hold, or moves the phase forward other than by the four listed exceptions |
| `CallState.RequestTakesEffect` | src/call.cpp:201-251 | a request without re-entrant listeners sets both state and connection if it is accepted, and neither if not |
| `CallState.ViewIff` | src/call.cpp:267-323 | for each state the client can be told, exactly which calls are presented as it |
| `CallState.ClientSeesEveryChange` | src/call.cpp:201-323 | without re-entrant listeners the emitted states have no equal neighbours and the last one is the current state |
| `CallState.SubcallAll` | src/call.cpp:201-251 | a subcall never emits anything |
| `CallState.ReentrantListenerReversesTheStory` | src/call.cpp:201-251 | with a listener that ends the call, the client is last told that the ended call is current |
| `CallState.ReentrancyIsHarmlessIff` | src/call.cpp:201-251 | with listeners that re-enter, themselves not re-entered, the whole story told to the client stays faithful if and only if the outer change or everything the listeners do is invisible |
| `CallState.VisibleChangeIff` | src/call.cpp:201-251 | with listeners nested to any depth, after a visible change the last state told is the current one if and only if the listeners leave the call looking as the change made it look |
| `CallState.UpToDateAfterAll` | src/call.cpp:201-251 | over every run of such requests the client ends up to date if and only if the last visible change that is not inside another one is left as it was, or there is none and it was up to date before |
| `CallState.NestedListenersCanCancel` | src/call.cpp:201-251 | a listener inside a listener can undo what the first one did and leave the client up to date |
| `CallFork.OneFateEach` | src/call.cpp:393-546 | on every run, outside changes of the parent included, every accepted subcall is still pending without a fate, or gone with exactly one of merged, hung up and failed |
| `CallFork.LateEventsAreIgnored` | src/call.cpp:440-527 | once a subcall has left, no event of it changes the parent, the other subcalls or any fate |
| `CallFork.AnswerConnectsIff` | src/call.cpp:440-546 | an answer empties the subcalls, and connects a parent that is not connected if and only if the subcall's state at delivery is one the parent may take over |
| `CallFork.AnswerAdmitsIff` | src/call.cpp:393-546 | after an answer a new subcall is accepted if and only if the parent took over a state in which it is neither connected, disconnected nor over, or rejected the state and took subcalls before |
| `CallFork.FirstAnswerWins` | src/call.cpp:393-546 | after a merge that connects the parent no run accepts, merges or ends a subcall until an outside change reopens the parent |
| `CallFork.ReopenedIff` | src/call.cpp:393-438 | a closed parent accepts the next new subcall if and only if an accepted outside change took it to a connection that is neither connected nor disconnected, in a state other than over |
| `CallFork.HeldAnswerLetsASecondSubcallIn` | src/call.cpp:393-546 | on a run from a fresh call, a subcall held between its answer and the delivery is merged without connecting the parent, and a second one is accepted and merged |
| `CallFork.FailsWithTheLast` | src/call.cpp:440-527 | a busy or failed subcall leaves the parent alone while others remain, and the last one ends it |
| `CallFork.ProgressIsCopied` | src/call.cpp:517-524 | an event of a pending subcall that neither answers, hangs up nor fails changes no subcall and no fate; the connection of the parent follows it if and only if it is further on the way to ringing, its state if and only if an inactive parent hears of an active subcall, and a client that was up to date still is |
| `CallFork.PeerHangUpEndsAll` | src/call.cpp:467-478 | a peer that hangs up on one subcall leaves the parent over and disconnected and every pending subcall hung up |
| `CallFork.LastFailureIsReported` | src/call.cpp:480-515 | the last failing subcall leaves the parent over and disconnected, and the client is told the reason and then that it is over, and nothing else |
| `CallFork.PendingMeansNotOver` | src/call.cpp:201-251 | on every run a parent with pending subcalls is not over |
| `CallFork.AnswerIsTakenOver` | src/call.cpp:454-546 | an answer merges its subcall and hangs up every other; the parent takes over state and connection as they are at delivery if and only if it may |
| `CallFork.TakenOnIff` | src/call.cpp:393-438 | a new subcall is taken on if and only if the parent is neither connected, disconnected nor over |
| `CallFork.HandedOver` | src/call.cpp:393-438 | a subcall that is handed over is silenced if it is taken on and ended if it is refused |
| `CallFork.SubcallsAreSilent` | src/call.cpp:393-438 | on every run the subcalls that were taken on say nothing to the client |
| `CallFork.HeardIff` | src/call.cpp:420-437 | the parent hears of a change if and only if it took the subcall on and the change is one; the event carries that change |
| `CallFork.EndEndsAll` | src/call.cpp:110-120 | ending a parent ends every pending subcall and leaves its connection |
| `CallFork.HangUpIf` | src/call.cpp:55-67 | exactly the calls that are not kept are hung up |
| `CallFork.CallObject.HangUpSubcalls` | src/call.cpp:620-629 | pops all subcalls and gives each that is not kept its fate |
| `CallFork.CallObject.SetCallState` | src/call.cpp:201-251 | performs an accepted change, ignores a rejected one, ends the subcalls of a call that is over |
| `CallFork.CallObject.RemoveCall` | src/call.cpp:110-120 | ends the call and leaves its connection as it is |
| `CallFork.CallObject.AddSubCall` | src/call.cpp:393-438 | accepts a subcall unless the call is connected, disconnected or over, in which case the subcall is removed |
| `CallFork.CallObject.SubcallStateChanged` | src/call.cpp:440-527 | the reaction of the parent to a delivered event: forget, merge, disconnect and end, copy or fail; what each branch achieves is in `CallFork.AnswerIsTakenOver`, `CallFork.PeerHangUpEndsAll`, `CallFork.LastFailureIsReported` and `CallFork.ProgressIsCopied` |
| `CallFork.CallObject.TakeOver` | src/call.cpp:529-546 | hangs up the other subcalls and takes over what the subcall holds now |
| `CallFork.CallObject.DropSubcall` | src/call.cpp:488-515 | forgets a busy or failed subcall and ends the call with the last |
| `ConferenceMute.MicFilterAgrees` | src/conference.cpp:999-1205 | once default sources were set, after every sequence of operations an attached conference filters the microphone of each bound live participant if and only if one of the two switches mutes the host, where switches, participants and live calls follow the requests alone, in a bookkeeping without filter and sources |
| `ConferenceMute.MicFilterAgreesIff` | src/conference.cpp:1029-1205 | over every run of a new conference, with sources or without, the filter agrees with the flags in every state if and only if each effective mute of the attached local host that no moderator flag covers finds an audio source, and each such un-mute no unset source |
| `ConferenceMute.LocalMuteWorksIff` | src/conference.cpp:2075-2107 | muting keeps that agreement if and only if there is an audio source, un-muting if and only if every source is set |
| `ConferenceMute.WithoutSourcesAMuteCannotBeUndone` | src/conference.cpp:380-411 | without sources a mute silences the microphone, reads as un-muted and refuses to be undone |
| `ConferenceMute.DetachForgetsTheSourceMute` | src/conference.cpp:1089-1119 | detaching and attaching again un-mutes the source and keeps the moderator flag |
| `ConferenceMute.OneFlagIsEnough` | src/conference.cpp:1762-1788 | with both flags set, clearing either one keeps every bound participant filtered |
| `ConferenceMute.BoardRun` | src/conference.cpp:999-1205 | on every run of a conference with its sources set, participants, live calls, mutes and both switches are what the requests made them |
| `ConferenceMute.DetachedMuteIs` | src/conference.cpp:2095-2107 | while the host is not attached its mute is recorded and sets the filter of every participant and nobody else |
| `ConferenceMute.LeavingIsForgotten` | src/conference.cpp:999-1027 | a call that leaves is taken out of the filter, a participant or not, and no other call is |
| `ConferenceMute.Conference.IsMediaSourceMuted` | src/conference.cpp:388-411 | true when not attached, or when an audio source is muted or a source is unset, and only then |
| `ConferenceMute.Conference.SetLocalHostMuteState` | src/conference.cpp:380-386 | sets the mute of every source of one media type |
| `ConferenceMute.Conference.SetLocalHostDefaultMediaSource` | src/conference.cpp:330-363 | replaces the sources by the defaults, after which the agreement is kept by every other method |
| `ConferenceMute.Conference.SetMicMuted` | src/media/audio/ringbufferpool.cpp:294-301 | adds the ids to the filter or removes them, and no others |
| `ConferenceMute.Conference.AttachLocalParticipant` | src/conference.cpp:1029-1087 | the new state after attaching, or no change when already attached, keeping the agreement |
| `ConferenceMute.Conference.DetachLocalParticipant` | src/conference.cpp:1089-1119 | the new state after detaching, keeping the agreement |
| `ConferenceMute.Conference.AddParticipant` | src/conference.cpp:667-753 | the new state after a call joins; the first participant of an attached conference hands its audio and video mute to the host |
| `ConferenceMute.Conference.TakeOverMediaSourceControl` | src/conference.cpp:415-535 | the host takes over the mute states of the first participant of an attached conference, and of no other |
| `ConferenceMute.Conference.BindParticipant` | src/conference.cpp:1121-1156 | the new state after binding, keeping the agreement |
| `ConferenceMute.Conference.RemoveParticipant` | src/conference.cpp:999-1027 | the new state after a call leaves, keeping the agreement |
| `ConferenceMute.Conference.MuteHostFlag` | src/conference.cpp:1762-1788 | the new state after the moderator mutes or un-mutes the host, keeping the agreement |
| `ConferenceMute.Conference.MuteLocalHostAudio` | src/conference.cpp:2075-2107 | mutes or un-mutes the source, or refuses a repeated request, keeping the agreement |
| `ConferenceMute.Conference.MuteParticipantCall` | src/conference.cpp:1790-1805 | mutes or un-mutes one call, keeping the agreement |
| `ConferenceMute.Conference.MuteLocalPlayback` | src/conference.cpp:1807-1850 | recomputes the filter of every participant from the two flags when attached, and changes only the playback flag otherwise, keeping the agreement |
| `Membership.OneConferencePerCall` | src/manager.cpp:1375-1744 | after every run a live call is a member of exactly the conference it points at, if any |
| `Membership.JoinMovesTheFirstAccountsCalls` | src/manager.cpp:1692-1744 | joining two conferences moves exactly the first account's calls, removes the first conference and frees its other live members |
| `Membership.JoinIsUnion` | src/manager.cpp:1720-1741 | the result is the union if and only if every call that has to move is a live call of the first account |
| `Membership.JoinWithItselfDissolves` | src/manager.cpp:1720-1741 | joining a conference with itself destroys it and leaves its live members without one |
| `Membership.JoinHoldsBoth` | src/manager.cpp:1478-1591 | a new conference of two calls holds exactly those two, wherever they were |
| `Membership.JoinIff` | src/manager.cpp:1477-1591 | joining two calls makes a conference of exactly those two if both are live calls of the accounts named, and changes nothing otherwise |
| `Membership.AddIff` | src/manager.cpp:1374-1423 | adding a call puts it into the conference if it is a live call of the account named and not there yet, and changes nothing otherwise |
| `Membership.MergeIff` | src/manager.cpp:1691-1744 | joining two conferences removes the first and keeps the second if both are registered with the accounts named, and changes nothing otherwise |
| `Membership.DetachFrees` | src/manager.cpp:1669-1689 | detaching takes the call out of its conference; every other conference is unchanged, and other calls lose theirs only if it dissolves |
| `Membership.ConferencesHaveTwoMembers` | src/manager.cpp:446-495 | after every run every registered conference has at least two members, apart from those spared when a participant left because the account was lost or the last one is a call of a rendezvous or lost account |
| `Membership.OrdinaryConferencesHaveTwoMembers` | src/manager.cpp:446-495 | on every run in which no account is lost or made a rendezvous point, every registered conference has at least two members |
| `Membership.LastMemberIsFreed` | src/conference.cpp:263-311 | when a conference dissolves the member left behind points at none |
| `Membership.Manager.RemoveFromConference` | src/conference.cpp:999-1027 | removes the member and clears its pointer |
| `Membership.Manager.AddToConference` | src/conference.cpp:667-677 | adds the member and points it at the conference |
| `Membership.Manager.DestroyConference` | src/conference.cpp:263-311 | unregisters the conference; every live participant leaves |
| `Membership.Manager.ProcessRemainingParticipants` | src/manager.cpp:446-495 | keeps or destroys the conference by what remains in it |
| `Membership.Manager.RemoveCallFromItsConference` | src/manager.cpp:1669-1689 | removes the call from the conference it points at and processes the rest |
| `Membership.Manager.BindCallToConference` | src/manager.cpp:584-626 | takes the call out of its conference and into the new one |
| `Membership.Manager.AddParticipant` | src/manager.cpp:1374-1423 | binds a call of the account to a conference it is not in, or an error without effect |
| `Membership.Manager.JoinParticipant` | src/manager.cpp:1477-1591 | a new conference of two calls, or an error without effect |
| `Membership.Manager.JoinConference` | src/manager.cpp:1691-1744 | detaches what can move, attaches it, and lets the first conference go last, as its object does; or an error without effect |
| `Membership.Manager.DetachMovable` | src/manager.cpp:1725-1736 | detaches exactly the participants the account can resolve |
| `Membership.Manager.AttachAll` | src/manager.cpp:1740-1741 | adds each of them to the second conference |
| `ConfOrderLaws.EveryActionIsAuthorised` | src/conference_protocol.cpp:151-303 | for every order, also one that throws half way, every action taken was open to the sender |
| `ConfOrderLaws.OutsidersAreConfined` | src/conference_protocol.cpp:151-303 | without moderation rights an order only announces a version, reports voice and moves the sender's own hand |
| `ConfOrderLaws.ActionsAreWhatIsAsked` | src/conference_protocol.cpp:151-303 | for every order of either version on which no conversion throws, an action is taken if and only if the JSON asks for it, the sender may ask for it and it is handled |
| `ConfOrderLaws.ThrowsIff` | src/conference_protocol.cpp:151-303 | for every JSON value, parsing throws if and only if some value that this sender makes the parser read cannot be converted |
| `ConfOrderLaws.StreamInPlace` | src/conference_protocol.cpp:265-296 | the actions of one stream come in the order voice, video, audio, active, each at most once, also when a later one throws |
| `ConfOrderLaws.DeviceInPlace` | src/conference_protocol.cpp:245-298 | the hand of a device comes before its hang-up and that before its streams |
| `ConfOrderLaws.RootInPlace` | src/conference_protocol.cpp:168-214 | the actions of a version 0 order come in the order hand, layout, active participant, mute, kick, each at most once |
| `ConfOrderLaws.StreamsInTurn` | src/conference_protocol.cpp:258-298 | streams are handled one after the other in key order |
| `ConfOrderLaws.DevicesInTurn` | src/conference_protocol.cpp:242-299 | so are devices |
| `ConfOrderLaws.AccountsInTurn` | src/conference_protocol.cpp:216-303 | and accounts |
| `ConfOrderLaws.PutFinds` | src/conference_protocol.cpp:57-122 | building an order sets the member that is named and no other |
| `ConfOrderLaws.PutKeepsOrder` | src/conference_protocol.cpp:57-122 | and keeps the members in key order |
| `ConfOrderLaws.MissingHandlersOnlyFilter` | src/conference_protocol.cpp:168-303 | with fewer handlers the trace is the full trace filtered to those handlers, for every order that does not throw |
| `ConfOrderLaws.ParseDeviceOrder` | src/conference_protocol.cpp:57-68 | parsing a built device order announces the version and then does what its one device asks for |
| `ConfOrderLaws.MuteAudioRoundTrip` | src/conference_protocol.cpp:70-112 | for every uri but the reserved keys a moderator's muteAudio comes back as exactly that action |
| `ConfOrderLaws.ActiveStreamRoundTrip` | src/conference_protocol.cpp:113-122 | the same for setActiveStream |
| `ConfOrderLaws.HangupRoundTrip` | src/conference_protocol.cpp:96-102 | the same for hangupParticipant |
| `ConfOrderLaws.RaiseHandRoundTrip` | src/conference_protocol.cpp:88-94 | a built raiseHand is dispatched if and only if the peer is its target or a moderator lowers the hand |
| `ConfOrderLaws.ReservedUriIsLost` | src/conference_protocol.cpp:57-68 | under the uri version or layout no action survives; under layout parsing throws |
| `ConfProtocolParser.Parser.ParseOrder` | src/conference_protocol.cpp:151-166 | what the parser does to its handlers is the specified outcome of the order |
| `ConfProtocolParser.Parser.ParseVersion0` | src/conference_protocol.cpp:168-214 | the flat protocol: hand first, then moderation |
| `ConfProtocolParser.Parser.RaiseOrLowerByUri` | src/conference_protocol.cpp:180-193 | a hand by uri, moved by its owner or lowered by a moderator |
| `ConfProtocolParser.Parser.ParseModeration` | src/conference_protocol.cpp:200-213 | layout, active participant, mute and kick, each if present and handled |
| `ConfProtocolParser.Parser.ParseVersion1` | src/conference_protocol.cpp:216-303 | every member of the root in key order, up to the first that throws |
| `ConfProtocolParser.Parser.ParseAccount` | src/conference_protocol.cpp:226-241 | version skipped, layout for moderators, otherwise the devices of an object |
| `ConfProtocolParser.Parser.ParseDevices` | src/conference_protocol.cpp:242-299 | the loop over devices |
| `ConfProtocolParser.Parser.ParseDevice` | src/conference_protocol.cpp:245-298 | hand, hang-up and medias of one device |
| `ConfProtocolParser.Parser.RaiseOrLower` | src/conference_protocol.cpp:249-253 | a hand by device |
| `ConfProtocolParser.Parser.ParseMedias` | src/conference_protocol.cpp:258-298 | the loop over streams |
| `ConfProtocolParser.Parser.ParseMedia` | src/conference_protocol.cpp:265-296 | voice for anyone, the three moderation actions for a moderator |
| `ConfInfo.Equal` | src/conference.h:164-181 | the nested search returns the size-plus-containment test |
| `ConfInfo.TestIsEquality` | src/conference.h:140-181 | with a duplicate-free left side the test holds if and only if the lists are permutations of each other up to call ids and width, height and layout agree |
| `ConfInfo.EqualPasses` | src/conference.h:164-181 | a reordering always passes, duplicates or not |
| `ConfInfo.DuplicatesFoolTheTest` | src/conference.h:164-181 | with two equal entries, replacing one by a stranger still passes |
| `ConfInfo.TestIsRightIff` | src/conference.h:140-181 | the test decides equality against every other value if and only if its left side has no duplicates |
| `ConfInfo.MergeUpdatesIff` | src/conference.cpp:2199-2231 | for a stored description without duplicates, merging asks for an update if and only if the new one is not empty and nothing was stored or what was stored really differs from it, and asks for a send if and only if it is empty |
| `ConfInfo.ResendIsQuiet` | src/conference.cpp:2217-2231 | sending the same information again, reordered, changes nothing |
| `ConfInfo.StoredIsLastSaid` | src/conference.cpp:2199-2231 | after every run of merges something is stored for a peer if and only if its last description was not empty, and it passes for that description; when no description has duplicates it is that description up to order |
| `ConfInfo.StoreFinds` | src/conference.cpp:2219-2231 | storing changes the entry of one peer only |
| `ConfInfo.EraseKeeps` | src/conference.cpp:2202-2211 | erasing removes the entry of one peer only and keeps the key order |
| `ConfInfo.RemoteHosts.MergeConfInfo` | src/conference.cpp:2199-2242 | stores, ignores or erases as specified, reports update and send, keeps the map ordered |
| `ConfInfo.OwnEntries` | src/conference.cpp:1964-1979 | erasing while iterating yields the local entries that do not stand for a remote host, in order, uris filled for a remote destination |
| `ConfInfo.GetConfInfoHostUri` | src/conference.cpp:1960-1991 | those entries followed by the entries of every host but the destination, in key order |
| `ConfInfo.ViewHoldsIff` | src/conference.cpp:1960-1991 | an entry is sent if and only if it is a local entry of no remote host, its empty uri filled in for a remote destination only, or an entry of a host other than the destination; size and layout are the local ones |
| `ThreadLoop.NeverAssignsOverAThread` | src/threadloop.cpp:107-137 | no run assigns a thread over one that is still joinable |
| `ThreadLoop.OneLiveWorker` | src/threadloop.cpp:55-206 | unless one was launched beside a live one, at most one worker is live, the done flag is exact, and RUNNING means a worker has yet to close the run |
| `ThreadLoop.WithoutDetachNoOverlap` | src/threadloop.cpp:107-206 | on every run without a detach there is no such launch, and every worker but the one that is held has gone |
| `ThreadLoop.CleanupAtMostOnce` | src/threadloop.cpp:66-78 | each worker enters cleanup at most once, and exactly once if and only if the answers of its callbacks along the run were a setup that returned true and no exception from setup or process; it processes only after such a setup |
| `ThreadLoop.SetupDecides` | src/threadloop.cpp:66-78 | after a setup that failed or threw the worker never processes and never cleans up on any continuation; after one that succeeded it is at the test |
| `ThreadLoop.TestDecides` | src/threadloop.cpp:68-70 | at the test a worker processes once more if and only if the loop is running, and otherwise enters its only cleanup |
| `ThreadLoop.CallbackDecides` | src/threadloop.cpp:66-78 | a process call that returns leads back to the test; one that throws, and a cleanup however it ends, to no further callback on any continuation |
| `ThreadLoop.TailEnds` | src/threadloop.cpp:79-86 | what is left of a worker closes the run if it was running, raises the flag and is gone |
| `ThreadLoop.StartTakesEffect` | src/threadloop.cpp:107-137 | a start leaves the loop running, with a new worker in its setup if none had to be waited for, or waits to launch one |
| `ThreadLoop.LaunchesOverNothing` | src/threadloop.cpp:118-132 | on every run a worker is launched only when none is held, or the one that was has gone or is the caller, now detached |
| `ThreadLoop.StopsTheRunIff` | src/threadloop.cpp:139-199 | stop and both joins end the run and waiting for completion does not; a caller waits for the worker that is held unless it is that worker |
| `ThreadLoop.TimedWaitEndsIff` | src/threadloop.cpp:169-192 | a timed wait goes on to join if and only if the flag is up, and detaches otherwise |
| `ThreadLoop.JoinReturnsAfterEveryWorker` | src/threadloop.cpp:107-199 | on every run, when a waiting join returns every worker ever launched has gone or was detached, and so has every one before the worker that a waiting start launches |
| `ThreadLoop.JoinMeansFinished` | src/threadloop.cpp:146-199 | on a run without detached workers, when join or a successful timed join returns every worker ever launched has gone |
| `ThreadLoop.TimedJoinIsPrompt` | src/threadloop.cpp:169-184 | with the flag down and no older worker live, no schedule lets a timed join see the flag before the held worker has signalled |
| `ThreadLoop.LeftoverFoolsTimedJoin` | src/threadloop.cpp:169-184 | from every state with an older live worker some schedule makes a timed join take its signal for that of the held worker, which has not moved |
| `ThreadLoop.StaleFlagFoolsTimedJoin` | src/threadloop.cpp:169-184 | a flag that is up while the held worker is live is taken at once for its own |
| `ThreadLoop.TimedJoinMisledIff` | src/threadloop.cpp:154-192 | from every state that holds a live worker some schedule misleads a timed join about it if and only if the flag is up already or an older worker is live |
| `ThreadLoop.StaleFlagIsReached` | src/threadloop.cpp:79-192 | a run reaches a state with the flag up, the held worker live and every older one gone |
| `ThreadLoop.RestartAfterTimeoutOverlaps` | src/threadloop.cpp:107-192 | a timeout followed by a start reaches such a state with two workers processing |
| `ThreadLoop.StopIsBounded` | src/threadloop.cpp:55-86 | after a stop and until a start no process call begins and every worker ends within seven of its own steps |
| `ThreadLoop.Loop.StartLoop` | src/threadloop.cpp:107-137 | returns when running, joins a stopping worker first, then launches |
| `ThreadLoop.Loop.StopLoop` | src/threadloop.cpp:139-144 | RUNNING becomes STOPPING, anything else stays |
| `ThreadLoop.Loop.JoinHeld` | src/threadloop.cpp:37-53 | nothing to join, detach of a caller that is the worker, or a wait |
| `ThreadLoop.Loop.Spawn` | src/threadloop.cpp:124-132 | a new worker in its setup with the flags reset |
| `ThreadLoop.Loop.JoinLoop` | src/threadloop.cpp:146-152 | stops and joins |
| `ThreadLoop.Loop.JoinLoopFor` | src/threadloop.cpp:154-167 | stops and begins the timed wait |
| `ThreadLoop.Loop.EndOfWait` | src/threadloop.cpp:169-192 | join if the flag is up, detach otherwise, and the result says which |
| `ThreadLoop.Loop.WaitForCompletion` | src/threadloop.cpp:194-199 | joins without stopping |
| `ThreadLoop.Loop.Resume` | src/threadloop.cpp:118-137 | a waiting call returns, or goes on to launch |
| `FileLog.EstimateIsExact` | src/logger.cpp:836-862 | the size accounted for a message is the number of bytes written for it |
| `FileLog.WithinLimitIff` | src/logger.cpp:767-834 | a write leaves the file below the limit or with exactly one message if and only if no rotation was due, a rename worked, or the file could not be reopened and was within the limit before |
| `FileLog.RotatesIff` | src/logger.cpp:767-834 | a write archives the file if and only if there is a limit, the file is not empty, the message would reach the limit and one of ten renames works; the message is then the only one in the new file |
| `FileLog.WrittenIsAPrefix` | src/logger.cpp:520-572 | on every run what is written is a prefix of the messages logged, in the order of the calls, what reached the files is a prefix of that, and the size count is exact while the file is open |
| `FileLog.StopWritesEverything` | src/logger.cpp:546-572 | once closed, exactly the messages logged before the writer left are written, among them everything logged before the handler was disabled |
| `FileLog.EveryMessageIsEnqueued` | src/logger.cpp:520-532 | on every run every message logged is enqueued, in the order of the calls |
| `FileLog.WriterCatchesUp` | src/logger.cpp:864-889 | from every reachable state in which the writer has not left, finishing its batch, swapping and writing the next one writes everything logged so far, whatever the file system answers |
| `FileLog.WriterLeavesIff` | src/logger.cpp:546-572 | the writer leaves if and only if the handler is disabled and nothing is queued or half written, and the file is closed after that and not before |
| `FileLog.WriteKeeps` | src/logger.cpp:787-862 | a write adds its message at the end of what archives and file hold together, rotating or not |
| `FileLog.FilesStayWithinLimit` | src/logger.cpp:767-834 | with a fixed limit and successful renames, whether or not files can be reopened, on every run the file after each write and every archive are below the limit or hold one message, or hold what was there before the session |
| `FileLog.FailedRenamesOnlyGrow` | src/logger.cpp:811-819 | when renames fail nothing is lost and the file grows by every message |
| `FileLog.Log.constructor` | src/logger.cpp:452-480 | an open session on a file of a given size |
| `FileLog.Log.Consume` | src/logger.cpp:520-532 | enqueues, or in synchronous mode writes if enabled and open |
| `FileLog.Log.TakeBatch` | src/logger.cpp:876-884 | leaves if and only if disabled with an empty queue, otherwise swaps the buffers |
| `FileLog.Log.WriteBatch` | src/logger.cpp:864-870 | writes the whole batch in order |
| `FileLog.Log.WriteMsg` | src/logger.cpp:847-862 | rotates if needed, then appends and accounts |
| `FileLog.Log.Rotate` | src/logger.cpp:787-834 | up to ten renames, then a new file, or the old one reopened with its size read back |
| `FileLog.Log.DisableHandler` | src/logger.cpp:546-560 | disables the handler |
| `FileLog.Log.CloseFile` | src/logger.cpp:561-572 | closes the file and drops what is queued |
| `Nv21.EveryLumaCellOnce` | src/client/videomanager.cpp:836-858 | the loop's luma addresses are exactly the cells of the output picture, each reached from exactly one pixel, for every size |
| `Nv21.ChromaWritesAgree` | src/client/videomanager.cpp:836-858 | for even sizes two pixels share a chroma pair if and only if they lie in one block, and then write the same values |
| `Nv21.ChromaFitsIff` | src/client/videomanager.cpp:836-858 | all chroma writes lie within the rounded-up plane if and only if the output width is even |
| `Nv21.PlainCopyFitsIff` | src/client/videomanager.cpp:826-830 | the copy without rotation fits the usual chroma plane if and only if the rows are empty or there is at most one: it takes as many chroma rows as luma rows |
| `Nv21.LumaComposes` | src/client/videomanager.cpp:831-858 | rotating the luma twice is rotating it by the sum of the angles |
| `Nv21.ChromaComposes` | src/client/videomanager.cpp:831-858 | the same for the chroma pairs |
| `Nv21.FullTurnRestoresLuma` | src/client/videomanager.cpp:831-858 | two rotations that make a full turn restore a tightly packed luma plane of any size |
| `Nv21.FullTurnRestoresChroma` | src/client/videomanager.cpp:831-858 | and the chroma plane of a picture of even size |
| `Nv21.UsualSizesAreRoomy` | src/client/videomanager.cpp:836-858 | at the angles for which the loop runs, buffers of the usual sizes hold every address it touches |
| `Nv21.Addresses` | src/client/videomanager.cpp:838-849 | the address arithmetic of one pixel |
| `Nv21.Coordinates` | src/client/videomanager.cpp:831-849 | where each pixel goes: at 90 to (height - 1 - j, i), at 180 to (width - 1 - i, height - 1 - j), at 270 to (j, width - 1 - i) |
| `Nv21.RotateNV21` | src/client/videomanager.cpp:815-860 | a copy for 0, from buffers that hold as many chroma rows as luma rows; nothing for an angle other than 0, 90, 180 and 270; otherwise every luma byte at the coordinates that a turn to the right by that angle gives it, every chroma byte as the last pixel that writes it left it, for even sizes every chroma pair at those coordinates, and nothing written past either picture |

## Left out

- CallState.ReentrancyIsHarmlessIff: covers one level of re-entrant listeners; for deeper nesting `CallState.UpToDateAfterAll` covers the last state told, not equal neighbours.
- Nv21.RotateNV21: sizes are unbounded, so 32-bit wrap-around of the addresses is not modelled.
- VoiceThrottle.BroadcastsAreSpaced: a broadcast to all calls of a conference is one instant, not one per call.
- ConfInfo.MergeUpdatesIff: compares the information as merged; the floating-point rescaling that precedes the comparison in video builds is not modelled.
- CallFork.CallObject.AddSubCall: keeps one fate per subcall only when a subcall that has left is not handed over again.
- FileLog.WithinLimitIff: assumes that reading back the size of an existing file succeeds and that 64-bit sizes do not wrap.
- FileLog.WrittenIsAPrefix: archives are those ever made; compression, pruning of old archives, and a rename onto an existing name are not modelled.
- CallFork.FirstAnswerWins: media and message transfer during a merge are not modelled.
- Membership.OneConferencePerCall: entering and leaving a conference on the side of the SIP call sets and clears its pointer; creation of a conference from a list of numbers is not modelled.
- ConferenceMute.MicFilterAgrees: `requestMediaChange` and the recorder's own reader are not operations of the model, and call ids differ from the key that stands for the host.
- Scheduler jobs that throw something other than a standard exception, and `start` called from a job, are outside the model.
- ThreadLoop: test and assignment are one step in `stop` and at the end of the main loop; priorities and the interruptible variant are not modelled.
- JSON numbers with a fractional part are not modelled.
- SIP signalling, RTP, codecs, the video mixer, sinks and ring-buffer bindings.
- Moderator mute as heard by other participants, which depends on ring-buffer bindings.
- Preferences, YAML and map serialisation, file utilities, base64, vCard and URI helpers, and the client interface, which would only add easy members.
