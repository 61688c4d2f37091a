# Verification of mirakc's schedulers, allocators and readers

mirakc is a DVR backend. Its components are actors that handle one message at a
time. This project models the ones whose correctness is decided by their code, in
Dafny 4.11, and proves what they promise over all inputs, runs and interleavings.
`dafny verify dfyconfig.toml` checks everything.

| file | component |
|---|---|
| Tuner, TunerProperties, TunerEffects, TunerManager | the tuner allocator: reservation, sharing, exclusion, preemption |
| Recording, RecordingProperties, RecordingLifecycle, RecordingEffects, RecordingManager | the recording scheduler: schedules, queue, history, recorders |
| WakeUp | both actors together: no wake-up is lost between them |
| ContentStream | following a content file while it is being recorded |
| Broadcaster | the broadcaster and the credits of its chunk source |
| RebuildScanner | rebuilding timeshift records from a ring file |
| EpgSchedule, EpgPrograms, EpgStore | the ring of nine EPG days and the programs collected from it |
| RingReaders | the two readers of a timeshift ring file |
| Promoter, EmitterRegistry | the actor runtime: shutdown and identifiers |

A handler is specified by a function from a state to the new state, the messages
emitted in order, and the reply. The actors are classes whose methods update
fields in place, with the loops of the source, and are proved to perform exactly
these functions. The properties are lemmas about the functions and about runs of
them; the files named Effects tell what each handler does in terms of the fields of
its state alone. Protocols between concurrent parties are state machines whose steps are what
one party does between two points where it can be suspended.

What the environment decides is a parameter: the time, exit codes, the outcome of
starting a process, of seeking or of loading a record, EPG data, the timestamps in
a chunk, and the order in which a `HashMap` is iterated (`order`).

## Assumptions

- Added schedules are in the state Scheduled and have a start time; runs of the
  scheduler start with no schedule being recorded or waiting. Where a run must be
  admissible, no schedule is added for a program that is not scheduled but still has
  a recorder; the first item below says what that excludes.
- The user for whom a channel-restricted tuner is reserved asks for the channel of
  that tuner, where a lemma says so, and stream identifiers in requests were issued
  by the tuner manager.
- Session and serial numbers do not wrap.
- The broadcaster has a stream when a subscription reaches it; the last item below
  says when that is so.
- EIT sections are of valid tables (mirakc-core/src/epg/eit_feeder.rs:238-241), and
  where a run must be possible they are well dated; see the item on midnight below.

## Where the code falls short

- A schedule that is removed while it is recorded leaves its recorder running
  (`RecordingProperties.LeftOverIff`), and the source does not look for one when the
  program is added again (mirakc-core/src/recording/mod.rs:668-687): the end of the
  old recording finishes the new schedule
  (`RecordingProperties.LeftOverFinishesAdded`).
  `RecordingProperties.AddKeepsIff` and, over runs,
  `RecordingLifecycle.HoldsThroughoutIff` are the exact conditions.
- The priority queue is not always the set of ready schedules. An on-air update
  decides whether to rebuild it by the result of `next` alone, which overwrites that
  of `current` (mirakc-core/src/recording/mod.rs:2557-2568).
  `RecordingLifecycle.OnairExactIff` is the exact condition.
- A waiting schedule whose channel is changed by an update of the services can wait
  next to an idle tuner: `WakeUps.MovedChannelIsForgotten`.
  `WakeUps.UpdateKeepsAllIff` and, over runs, `WakeUps.NoneEverForgottenIff` are the
  exact conditions, and `WakeUps.ForgottenWasMoved` shows that there is no other cause.
- The reserved path does not compare the channel of an active tuner with the
  requested one (mirakc-core/src/tuner.rs:196-206), so that a stream of another
  station can be granted (`TunerProperties.ReservedUserGetsOtherStation`; the exact
  condition is `TunerProperties.GrantIsOnStationIff`), and a later request can panic
  (`TunerProperties.OffStationPanics`, with `TunerProperties.StartPanicsIff`).
- The feeder prepares the schedule of a service once in a collection
  (mirakc-core/src/epg/eit_feeder.rs:268-272) and does not look at dates. When the
  collection lasts past midnight, sections dated for the new day go to the units of
  the day before: `EpgSchedules.MidnightMisaligns`. `EpgSchedules.UpdateKeepsIff`
  and, over runs, `EpgSchedules.AlignedThroughoutIff` are the exact conditions, and
  `EpgSchedules.UndatedFirstEventPanics` says when preparing panics.
- Rebuilding fails for every ring that starts at chunk 1: the last end is the number
  of chunks and is compared with 0 (mirakc/src/rebuild_timeshift.rs:455-461).
  `RebuildScanners.SelfChecks` is the exact condition.
- A FUSE read of no bytes inside a record returns the whole file
  (`RingReaders.ReadIsSliceIff`), and a poll of the streaming reader without room
  makes it seek to the beginning (`RingReaders.EmptyBufferRewinds`).
- Moving the streaming reader while it waits for a seek to end fails the assertion of
  the poll that learns of the end (mirakc-core/src/timeshift/filereader.rs:95-98),
  unless it is moved to the beginning (`RingReaders.PollPanicsIff`,
  `RingReaders.NeverAsserts`). The callers move it only before the first poll.
- A broadcaster whose stream has ended goes on while subscribers are left
  (`Broadcasters.EndsWithSubscriber`), and a request that shares the tuner then
  subscribes to it and fails its assertion (mirakc-core/src/broadcaster.rs:113).
  `Broadcasters.BoundIff` says when a subscription is taken.

## Model

| member | source | states |
|---|---|---|
| `WakeUps.NoLostWakeUp` | mirakc-core/src/recording/mod.rs:1267-1304 | In every interleaving of the two actors that starts with nothing waiting and does not shut down: while a schedule waits on the channel it was refused and an unrestricted, non-excluding tuner of that channel type is idle, the mailbox of the recording manager holds a message that wakes it up |
| `WakeUps.StepKeepsCovered` | mirakc-core/src/tuner.rs:288-305 | Each step of either actor, including those between the request and its answer, keeps that promise, also for a refusal still under way |
| `WakeUps.IdleIsAnnounced` | mirakc-core/src/tuner.rs:274-305 | A tuner that is active before a request or a stop and idle after it is announced with its own channel types |
| `WakeUps.RefusedFindsNoneIdle` | mirakc-core/src/tuner.rs:236-271 | A request refused for want of a tuner changes nothing and found every tuner that serves its channel active |
| `WakeUps.NoneStartsWaiting` | mirakc-core/src/recording/mod.rs:1290-1296 | Of all messages only `ProcessRecording` and a direct start of a program that is not scheduled yet can make a schedule wait |
| `WakeUps.JobIsStep` | mirakc-core/src/recording/mod.rs:1124-1153 | A job that is interrupted at every request to the tuner manager leaves the scheduler where handling its message in one step, with the outcomes it had, would leave it |
| `WakeUps.TunersRun` | mirakc-core/src/tuner.rs:503-549 | The part of the tuner manager in a run of both actors is its own run with the messages it is sent |
| `WakeUps.RecordingRuns` | mirakc-core/src/recording/mod.rs:1124-1153 | The part of the recording manager, seen between its handlers, is its own run with the messages it has handled, an interrupted job counting as one |
| `WakeUps.RequestMeans` | mirakc-core/src/recording/mod.rs:1324-1340 | A recording asks for the channel of its service, under its own name, with the priority of its schedule clamped to the range of priorities |
| `WakeUps.OutcomeMeans` | mirakc-core/src/recording/mod.rs:1267-1304 | A program is recorded exactly if it is granted a stream and its pipeline is built, and waits exactly if no tuner is available |
| `WakeUps.NoticesMean` | mirakc-core/src/tuner.rs:248-305 | Exactly the announcements of idle tuners reach the recording manager, in order |
| `WakeUps.AskedProgramsAreFresh` | mirakc-core/src/recording/mod.rs:1308-1316 | In every interleaving the program a job is about to start is ready and not queued any more; it has no recorder if it was due, and if it was requested directly exactly if none was left over when the request came |
| `WakeUps.UpdateKeepsAllIff` | mirakc-core/src/recording/mod.rs:2394-2432 | If every waiting schedule is covered before an update of the services, every one is afterwards if and only if each that stays keeps its channel or is moved to one for which no serving tuner is idle or a message is in the mailbox; read off the state and the message before the update |
| `WakeUps.StepKeepsAll` | mirakc-core/src/recording/mod.rs:2333-2362 | No other action of either actor leaves a waiting schedule uncovered |
| `WakeUps.NoneEverForgottenIff` | mirakc-core/src/recording/mod.rs:2394-2432 | In a run every waiting schedule is covered all along if and only if every update of the services in it meets that condition |
| `WakeUps.ForgottenWasMoved` | mirakc-core/src/recording/mod.rs:2394-2432 | In every run, a schedule that waits next to an unannounced idle tuner that could serve it was moved to another channel by an update of the services while it waited, and has waited ever since |
| `WakeUps.UnrefusedWasMoved` | mirakc-core/src/recording/mod.rs:2394-2432 | In every run, a schedule that waits on a channel it was not refused was moved by an update of the services while it waited, and has waited ever since |
| `WakeUps.OnlyUpdatesMove` | mirakc-core/src/recording/mod.rs:2551-2613 | No message but an update of the services changes the channel of a schedule that goes on waiting |
| `WakeUps.MovedChannelIsForgotten` | mirakc-core/src/recording/mod.rs:2394-2432 | A run in which an update of the services fails the condition above: afterwards a schedule waits next to an idle tuner that could serve it, with an empty mailbox |
| `TunerProperties.StartPanicsIff` | mirakc-core/src/tuner.rs:801-823 | A request whose stream identifier, if any, names an existing tuner panics exactly if no tuner is reserved or shareable for it, the first one available for it is busy and restricted to its station, and starting the process is reached: a condition on the state before the request |
| `TunerProperties.NeverPanics` | mirakc-core/src/tuner.rs:190-268 | In every run whose requests ask a channel-restricted tuner for its own channel, an active restricted tuner is on its own channel and no request or stop panics |
| `TunerProperties.OffStationPanics` | mirakc-core/src/tuner.rs:196-206 | A run in which the user a restricted tuner is reserved for asks for another channel, after which a request for its own channel panics |
| `TunerProperties.GrantIsOnStationIff` | mirakc-core/src/tuner.rs:169-271 | A granted stream is on the requested station if and only if the request neither names a stream nor comes from a user with a reserved tuner, or the tuner was idle, or it was on that station already; a condition on the state before the request |
| `TunerProperties.RestrictedGrantsAreOnStation` | mirakc-core/src/tuner.rs:190-268 | In every run whose requests ask a channel-restricted tuner for its own channel, a grant of such a tuner to a request without a stream identifier is on the requested station |
| `TunerProperties.ReservedUserGetsOtherStation` | mirakc-core/src/tuner.rs:196-206 | From a state as it is loaded: an on-air tracker that asks for a second channel on the tuner reserved for it is granted the stream of the first, for any two channels of different stations |
| `TunerProperties.StepKeepsInv` | mirakc-core/src/tuner.rs:956-999 | At handler boundaries every active tuner has a session of its own, at least one subscriber, and serial numbers below the next one |
| `TunerProperties.StepKeepsConfig` | mirakc-core/src/tuner.rs:594-627 | No message changes the configuration of a tuner |
| `TunerProperties.StartTouchesChosen` | mirakc-core/src/tuner.rs:169-271 | A request changes no tuner but the one it is directed to |
| `TunerProperties.LeastCandidateIsLeast` | mirakc-core/src/tuner.rs:240-246 | The tuner found is a candidate of the least rank, and the first of these; none is found exactly if there is no candidate; what the rank means is the next row |
| `TunerEffects.RanksBelowMeans` | mirakc-core/src/tuner.rs:778-784 | Of two tuners with users one is taken rather than the other if some user of the other has a priority above all of its users, or their highest priorities are equal and it has fewer users, or as many and comes first |
| `TunerEffects.ChosenMeans` | mirakc-core/src/tuner.rs:169-271 | Which tuner a request without a stream identifier is directed to, told by the fields of the tuners: the first reserved for the user, else the first that can be shared, else the first that seems idle, else the one taken before all others that can be taken from their users |
| `TunerEffects.GrabTakesTheLeast` | mirakc-core/src/tuner.rs:238-268 | When the session of a tuner ends for a request, for every other unrestricted tuner that supports the channel, does not exclude it and has only users the request outranks: some user of it has a priority above all users of the one taken, or the highest priorities are equal and the one taken has fewer users, or as many and comes first |
| `TunerEffects.StreamRequestMeans` | mirakc-core/src/tuner.rs:178-190 | A request that names a stream is granted exactly if its serial number is subscribed at the tuner it names and the broadcaster answers, whatever the session number; otherwise it is refused without effect, and panics if there is no such tuner |
| `TunerEffects.StartReplyMeans` | mirakc-core/src/tuner.rs:503-549 | Of a request without a stream identifier that does not panic: granted exactly if it joins a session or a process was started, and the broadcaster answers; which error tells what failed |
| `TunerEffects.OpenedSessionMeans` | mirakc-core/src/tuner.rs:801-823 | A new session is for the channel of the request and has its user as the only one |
| `TunerEffects.StopMeans` | mirakc-core/src/tuner.rs:288-305 | A stop replies the user whose stream it was, tells of the change and of the tuner if that becomes idle, and does nothing if the session has ended |
| `TunerEffects.StoppingMeans` | mirakc-core/src/tuner.rs:357-368 | Once stopping, every request is refused and every stop ignored |
| `TunerEffects.ShutdownMeans` | mirakc-core/src/tuner.rs:357-368 | Shutting down ends every session, changes nothing else and is permanent |
| `TunerProperties.GrabIsSound` | mirakc-core/src/tuner.rs:238-268 | A session is ended for a request only if no tuner is reserved for it, shareable or idle; the tuner is unrestricted, its users all rank lower unless the request has the GRAB priority, and it is the first of the least ranked candidates, which `TunerEffects.GrabTakesTheLeast` says by the priorities of the users |
| `TunerProperties.RefusedIff` | mirakc-core/src/tuner.rs:236-271 | A request is refused exactly if no tuner is reserved, shareable or idle for it and every eligible unrestricted tuner has a user of at least its priority |
| `TunerProperties.ActivateMoves` | mirakc-core/src/tuner.rs:169-271 | All that finding a tuner can do: nothing, end a session and announce it, join a session, or open one in which the requester is the only user |
| `TunerProperties.LostOnlyTo` | mirakc-core/src/tuner.rs:692-698 | A subscription disappears only by its own stop, a broadcaster that does not answer on that tuner, shutdown, or a request that outranks it and had no other choice |
| `TunerProperties.GainedOnlyByGrant` | mirakc-core/src/tuner.rs:956-965 | A subscription appears only by being granted, to the user who asked |
| `TunerProperties.StopEndsOne` | mirakc-core/src/tuner.rs:861-875 | A stop ends that subscription and no other, and frees the tuner exactly if it was the last |
| `TunerProperties.WakesExactlyOnce` | mirakc-core/src/tuner.rs:248-305 | A step announces a tuner as available once if the tuner was active at some point in it and is idle after it, and otherwise not at all |
| `TunerProperties.PastStays` | mirakc-core/src/tuner.rs:33-41 | A subscription identifier that has been issued is never issued again |
| `TunerProperties.IssuedAreUnique` | mirakc-core/src/tuner.rs:956-965 | The identifiers issued in a run are pairwise different |
| `TunerProperties.StaleStopsAreHarmless` | mirakc-core/src/tuner.rs:861-875 | Once a session has ended, a stop with one of its identifiers changes nothing and emits nothing, however the run goes on |
| `TunerManagers.TunerManager.HandleStartStreaming` | mirakc-core/src/tuner.rs:503-549 | Performs the specified step in place: tuners, session counter, messages in order, and the reply |
| `TunerManagers.TunerManager.FindGrabbable` | mirakc-core/src/tuner.rs:238-246 | The loop keeps the first of the least ranked candidates, so that `TunerEffects.GrabTakesTheLeast` holds of it |
| `TunerManagers.TunerManager.FindAvailable` | mirakc-core/src/tuner.rs:222-226 | The loop stops at the first tuner that does not exclude the channel and is available for it |
| `TunerManagers.TunerManager.HandleStopStreaming` | mirakc-core/src/tuner.rs:288-305 | Performs the specified step for a stop, messages and reply included |
| `TunerManagers.TunerManager.HandleStopping` | mirakc-core/src/tuner.rs:357-368 | Deactivates all tuners in a loop and refuses streaming from then on |
| `RecordingLifecycle.EveryRun` | mirakc-core/src/recording/mod.rs:1267-1473 | After every run whose messages are admissible: a schedule is being recorded exactly if its program has a recorder, has a start time, has a reason if it waits, and is not done; the history holds only done ones; queued programs are distinct, ready and without a recorder |
| `RecordingLifecycle.HoldsThroughoutIff` | mirakc-core/src/recording/mod.rs:668-690 | These facts hold after each message of a run if and only if no schedule is added for a program that is not scheduled but still has a recorder |
| `RecordingProperties.StepKeepsInvIff` | mirakc-core/src/recording/mod.rs:2036-2131 | A well-formed message keeps these facts exactly if it is admissible; then no start time or reason is missing when the source unwraps it and `update_by_schedule` never meets an unexpected state |
| `RecordingProperties.AddKeepsIff` | mirakc-core/src/recording/mod.rs:607-690 | Whatever is on air, adding a schedule keeps these facts exactly if it is refused or the program has no recorder |
| `RecordingProperties.LeftOverFinishesAdded` | mirakc-core/src/recording/mod.rs:2036-2131 | When a schedule is added for a program with a left-over recorder, the successful end of that recorder puts the new schedule into the history as Finished and leaves its item in the queue |
| `RecordingProperties.LeftOverIff` | mirakc-core/src/recording/mod.rs:713-739 | Removing a schedule leaves a recorder over exactly if it is being recorded |
| `RecordingProperties.StartHandlerKeeps` | mirakc-core/src/recording/mod.rs:1035-1055 | A direct start keeps these facts for every outcome, also if the program has a left-over recorder, in which case the start fails |
| `RecordingProperties.StepKeepsTimed` | mirakc-core/src/recording/mod.rs:1267-1473 | Every well-formed message keeps all start times, admissible or not |
| `RecordingProperties.MaintainedKeeps` | mirakc-core/src/recording/mod.rs:1157-1219 | Maintenance keeps the schedules and the history well-formed |
| `RecordingProperties.StoppedKeeps` | mirakc-core/src/recording/mod.rs:2036-2131 | The end of a pipeline keeps the invariant for every exit code and every outcome of loading the record |
| `RecordingEffects.ProcessMeans` | mirakc-core/src/recording/mod.rs:1124-1219 | The whole of `ProcessRecording` for each schedule: it fails with ScheduleExpired exactly if it is not being recorded 15 hours after its start; otherwise it is postponed, if Scheduled or Tracking, or given up, if Waiting, exactly if its program has an end that has passed; otherwise, if it is ready and starts within 15 seconds, it is started once, and recorded, left waiting or failed by the outcome; otherwise it stays as it is |
| `RecordingEffects.MaintenanceMeans` | mirakc-core/src/recording/mod.rs:1157-1219 | The same for maintenance alone, with what is announced and what enters the history |
| `RecordingEffects.ProcessTells` | mirakc-core/src/recording/mod.rs:1124-1304 | The announcements of maintenance come first, then those of the starts, one by one |
| `RecordingEffects.KeptMeans` | mirakc-core/src/recording/mod.rs:1236-1250 | The history keeps exactly the entries that started less than 72 hours ago, in order |
| `RecordingEffects.StartMeans` | mirakc-core/src/recording/mod.rs:1267-1304 | A start makes the schedule recorded with a recorder, waiting, or failed and in the history, by the outcome, and fails if there is a recorder; it changes nothing else and announces what happened |
| `RecordingEffects.DirectStartMeans` | mirakc-core/src/recording/mod.rs:1035-1055 | A direct start does so with a new schedule, and is refused without effect for a known one |
| `RecordingEffects.RecordingStoppedMeans` | mirakc-core/src/recording/mod.rs:2036-2131 | By the exit codes: rescheduled with NeedRescheduling exactly if 222 is one of them; Finished in the history exactly if none is other than 0; otherwise Failed in the history with the first that is; the record is saved with the same status, and the messages come in order |
| `RecordingEffects.UnscheduledStopMeans` | mirakc-core/src/recording/mod.rs:2036-2131 | The end of a recording whose schedule was removed cancels its record |
| `RecordingEffects.QueueMeans` | mirakc-core/src/recording/mod.rs:195-208 | An exact queue holds the schedules in the states Scheduled and Tracking, each once with its start and priority, and nothing else |
| `RecordingEffects.StopRequestMeans` | mirakc-core/src/recording/mod.rs:1080-1104 | A stop takes the trigger of the recorder and changes nothing else; without a recorder it is refused |
| `RecordingEffects.RemovalMeans` | mirakc-core/src/recording/mod.rs:713-739 | A removal takes out that schedule, replies it, and takes the trigger of its recorder |
| `RecordingEffects.RemovalOfAllMeans` | mirakc-core/src/recording/mod.rs:824-832 | All schedules go and the recorders of those being recorded lose their triggers |
| `RecordingEffects.RemovalByTagMeans` | mirakc-core/src/recording/mod.rs:834-865 | A schedule with the tag stays exactly if it is tracked, waits, is being recorded, or is scheduled to start within 15 seconds or has started |
| `RecordingEffects.AdditionMeans` | mirakc-core/src/recording/mod.rs:607-690 | A new schedule is added with the on-air programs applied to it and to all others, and replied |
| `RecordingEffects.OnairHandlerMeans` | mirakc-core/src/recording/mod.rs:2551-2613 | Each of the two reported programs replaces that of its schedule and makes it tracked unless it is being recorded; moved starts are announced and records of recordings saved |
| `RecordingEffects.TunerAvailableMeans` | mirakc-core/src/recording/mod.rs:2333-2362 | Exactly the waiting schedules of the channel types become Scheduled |
| `RecordingEffects.ServicesMean` | mirakc-core/src/recording/mod.rs:2394-2432 | A schedule stays exactly if it is being recorded or its service is still there, and gets the new service if it is not being recorded |
| `RecordingEffects.ServicesAnnounce` | mirakc-core/src/recording/mod.rs:2394-2432 | Exactly the schedules that do not stay are announced as failed |
| `RecordingEffects.ProgramsMean` | mirakc-core/src/recording/mod.rs:2452-2530 | A schedule of the service that is not being recorded fails if its program is gone; if the program is to come it takes it over, and becomes Scheduled exactly if the start has moved |
| `RecordingEffects.ProgramsAnnounce` | mirakc-core/src/recording/mod.rs:2452-2530 | Exactly those that fail and those whose start has moved are announced |
| `RecordingProperties.QueuedStartsAreFresh` | mirakc-core/src/recording/mod.rs:1314-1316 | Whatever came of the programs before it, a dequeued program is started while ready and without a recorder, so it never fails with `AlreadyExists` |
| `RecordingLifecycle.Lifecycle` | mirakc-core/src/recording/mod.rs:2695-2805 | For each well-formed message, every schedule takes at most one documented transition; those that leave enter the history, each once and done, except on removal or an update of the services, and those updates keep all states |
| `RecordingLifecycle.EveryScheduleIsAccountedFor` | mirakc-core/src/recording/mod.rs:2695-2805 | Over every admissible run: each program follows the documented transitions from the step it is added until it is removed or enters the history as done; the programs scheduled at first or added are, each as often, those still scheduled, removed and moved to the history; and the history is what it held at first and then those, in the order in which they left, as far as it has not been pruned |
| `RecordingLifecycle.ProcessFlows` | mirakc-core/src/recording/mod.rs:1124-1153 | The same for a whole `ProcessRecording`: expiry, ended programs, dequeuing and all starts together |
| `RecordingLifecycle.FlowCompose` | mirakc-core/src/recording/mod.rs:2695-2805 | Two successive parts of a handler that change different schedules compose to one transition each, with the arrivals in the history in order |
| `RecordingLifecycle.QueueStaysExact` | mirakc-core/src/recording/mod.rs:195-208 | Every well-formed message but an on-air update keeps the queue equal to the set of ready schedules |
| `RecordingLifecycle.OnairExactIff` | mirakc-core/src/recording/mod.rs:2557-2568 | An on-air update keeps the queue exact if and only if its last part that applies moves a schedule that is not being recorded, or neither part adds or moves a ready schedule (a second part for the same program does not count); a condition on the state and the message |
| `RecordingLifecycle.TrackedButNotQueued` | mirakc-core/src/recording/mod.rs:2577-2613 | A concrete state in which a waiting schedule becomes tracked without being queued, and then is not woken up by an available tuner |
| `Recordings.ExitOf` | mirakc-core/src/recording/mod.rs:3026-3041 | A recording is retried exactly if some command exits with the retry code, succeeds exactly if no exit code is nonzero, and otherwise fails with the code of a command |
| `RecordingManagers.RecordingManager.HandleProcessRecording` | mirakc-core/src/recording/mod.rs:1124-1153 | Updates the collections in place and emits messages in order as specified: maintenance, dequeuing by repeated removal of a first item, starts, and pruning of the history; for some picked sequence that the specification allows; what it does to each schedule is `RecordingEffects.ProcessMeans` |
| `RecordingManagers.RecordingManager.HandleAddSchedule` | mirakc-core/src/recording/mod.rs:607-690 | Updates the collections in place and emits messages in order as specified: adding, with the on-air programs applied, recorder or not |
| `RecordingManagers.RecordingManager.HandleRemoveSchedule` | mirakc-core/src/recording/mod.rs:713-739 | Updates the collections in place and emits messages in order as specified: removing one schedule |
| `RecordingManagers.RecordingManager.HandleRemoveAllSchedules` | mirakc-core/src/recording/mod.rs:824-832 | Updates the collections in place and emits messages in order as specified: removing all, with the triggers of running recorders taken |
| `RecordingManagers.RecordingManager.HandleRemoveTaggedSchedules` | mirakc-core/src/recording/mod.rs:834-865 | Updates the collections in place and emits messages in order as specified: removing by tag, schedule by schedule |
| `RecordingManagers.RecordingManager.HandleStartRecording` | mirakc-core/src/recording/mod.rs:1035-1055 | Updates the collections in place and emits messages in order as specified: starting a recording directly, recorder or not |
| `RecordingManagers.RecordingManager.HandleStopRecording` | mirakc-core/src/recording/mod.rs:1080-1104 | Updates the collections in place and emits messages in order as specified: taking the trigger of a recorder |
| `RecordingManagers.RecordingManager.HandlePipelineStopped` | mirakc-core/src/recording/mod.rs:2036-2131 | Updates the collections in place and emits messages in order as specified: the end of a pipeline; what it does by the exit codes is `RecordingEffects.RecordingStoppedMeans` |
| `RecordingManagers.RecordingManager.HandleTunerAvailableMsg` | mirakc-core/src/recording/mod.rs:2333-2362 | Updates the collections in place and emits messages in order as specified: waking up the waiting schedules of the channel types |
| `RecordingManagers.RecordingManager.HandleServicesUpdated` | mirakc-core/src/recording/mod.rs:2382-2432 | Updates the collections in place and emits messages in order as specified: an update of the services |
| `RecordingManagers.RecordingManager.HandleProgramsUpdated` | mirakc-core/src/recording/mod.rs:2452-2530 | Updates the collections in place and emits messages in order as specified: an update of the programs of a service |
| `RecordingManagers.RecordingManager.HandleOnairChanged` | mirakc-core/src/recording/mod.rs:2551-2613 | Updates the collections in place and emits messages in order as specified: a change of the on-air program |
| `RecordingManagers.RecordingManager.DequeueNextSchedules` | mirakc-core/src/recording/mod.rs:1221-1234 | Popping the first item of the queue while it is due yields exactly the items due within the preparation time, by start time and then by descending priority, and leaves the others |
| `ContentStreams.OutputIsPrefix` | mirakc-core/src/recording/content_source.rs:125-153 | At every interleaving of writer, disk and follower the output is at most `count` bytes, each equal to the byte of the file, and of what the writer accepted, at the same distance from `first` |
| `ContentStreams.WaitsWithNothingUnsent` | mirakc-core/src/recording/content_source.rs:136-150 | A follower that waits and cannot be woken up yet has sent as many bytes as were on disk from `first` on, up to `count`, at the latest notification |
| `ContentStreams.EndsAfterTheWriter` | mirakc-core/src/recording/content_source.rs:138-150 | A following stream ends only after the writer: if the writer finished, with as many bytes as the file has from `first` on, up to `count`; otherwise with at least as many as were on disk when the sender was dropped |
| `ContentStreams.UnfollowedIsWhole` | mirakc-core/src/recording/content_source.rs:138-145 | Without a recorder the stream is the bytes from `first` on, up to `count`, of the file as it was when its end was found |
| `ContentStreams.NeverEndsEarly` | mirakc-core/src/recording/content_source.rs:143-150 | While the writer goes on a following stream does not end, even if its range has been sent |
| `ContentStreams.EndIsReached` | mirakc-core/src/recording/content_source.rs:136-150 | Once the sender is dropped the follower always has a step, and each step decreases a rank |
| `ContentStreams.ReadMeans` | mirakc-core/src/recording/content_source.rs:125-150 | A read goes on after what has been sent, and the flag is looked at anew after it; when nothing is left the flag read before decides between ending and waiting |
| `ContentStreams.CanFinish` | mirakc-core/src/recording/content_source.rs:20-82 | From every reachable state of the copying writer all bytes accepted can be brought to the disk and the recording can finish, with notifications |
| `ContentStreams.ContentOnlyGrows` | mirakc-core/src/recording/content_source.rs:58-82 | No step loses or reorders a byte between the pipeline and the disk |
| `ContentStreams.StepKeepsInv` | mirakc-core/src/recording/content_source.rs:20-82 | The invariant behind these: what the follower knows of the cell, what it has sent, and how both relate to the stage of the writer |
| `ContentStreams.Stream.PollNext` | mirakc-core/src/recording/content_source.rs:134-151 | The loop of the stream, suspended between any two of its operations, is a run of the system; a chunk it yields is not empty and extends the output, which are bytes of the file from `first` on |
| `Broadcasters.CreditsAreCovered` | mirakc-core/src/broadcaster.rs:365-392 | In every reachable state each attached subscriber has room for all chunks the source may send without asking again, unless its queue has been full at the last query and at all queries for its maximum stuck time before |
| `Broadcasters.QueryMeans` | mirakc-core/src/broadcaster.rs:395-430 | A query grants the least capacity if that is more than 128, and is repeated otherwise |
| `Broadcasters.BurstIsExact` | mirakc-core/src/broadcaster.rs:365-392 | Exactly as many chunks as granted can be sent before the next query |
| `Broadcasters.SendMeans` | mirakc-core/src/broadcaster.rs:125-173 | A chunk is queued for an attached subscriber exactly if fewer than 1024 are, and otherwise counted as dropped; a subscriber whose receiver is gone is let go |
| `Broadcasters.QueryNotes` | mirakc-core/src/broadcaster.rs:175-208 | A query notes since when a queue has been full, and forgets it when there is room |
| `Broadcasters.SubscriptionMeans` | mirakc-core/src/broadcaster.rs:112-118 | A subscriber joins attached, with an empty queue, after all others |
| `Broadcasters.DetachingMeans` | mirakc-core/src/broadcaster.rs:104-123 | The end of the stream lets go all subscribers, and an unsubscription that one |
| `Broadcasters.ReceivedInOrder` | mirakc-core/src/broadcaster.rs:125-173 | A subscriber receives the queued chunks in order, each once, and `dropped_bytes` is the number of bytes dropped since the last queued one; while it is attached the chunks offered to it are exactly those sent in the run since it subscribed, and if none was dropped all of them were queued |
| `Broadcasters.BoundIff` | mirakc-core/src/broadcaster.rs:86-118 | In every run a subscription meets a bound broadcaster, as it asserts, exactly if a stream has been bound and not ended since |
| `Broadcasters.EndsWithSubscriber` | mirakc-core/src/broadcaster.rs:104-110 | A run in which the stream ends while a subscriber is left, after which the broadcaster is still there but unbound |
| `Broadcasters.RebuildDropsNothing` | mirakc-core/src/broadcaster.rs:181-187 | In the rebuild mode an attached subscriber has received or queued, in order, exactly the chunks sent in the run since it subscribed |
| `Broadcasters.DropsAreOverdue` | mirakc-core/src/broadcaster.rs:188-208 | A dropped chunk belongs to a burst whose opening query found the queue full, and so did all queries for at least the maximum stuck time before |
| `Broadcasters.LeftOutIffOverdue` | mirakc-core/src/broadcaster.rs:188-205 | A query leaves out exactly the subscribers that are overdue by it |
| `Broadcasters.StepKeepsInv` | mirakc-core/src/broadcaster.rs:104-208 | Joining, leaving, draining, closing, querying, sending and unbinding keep room for the credits |
| `Broadcasters.LeastCapacity` | mirakc-core/src/broadcaster.rs:177-208 | The least capacity of the subscribers that count, or that of an empty queue |
| `Broadcasters.Broadcaster.Broadcast` | mirakc-core/src/broadcaster.rs:125-173 | The loop over the subscribers offers the chunk to each |
| `Broadcasters.Broadcaster.MinCapacity` | mirakc-core/src/broadcaster.rs:175-208 | The loop updates the stuck time of each subscriber and returns the least capacity |
| `Broadcasters.Broadcaster.UnsubscribeFrom` | mirakc-core/src/broadcaster.rs:120-123 | Retains the other subscribers in order |
| `Broadcasters.Broadcaster.UnbindStream` | mirakc-core/src/broadcaster.rs:104-110 | Drops all senders |
| `Broadcasters.ChunkSource.FeedChunks` | mirakc-core/src/broadcaster.rs:365-430 | The nested loops of asking and feeding, with other messages handled in between, are a run of the system |
| `RebuildScanners.FindStartIsBoundary` | mirakc/src/rebuild_timeshift.rs:356-373 | The recursive search returns exactly the boundary `k` if timestamps rise before it and none from it on exceeds the first |
| `RebuildScanners.StartIsFound` | mirakc/src/rebuild_timeshift.rs:327-342 | If timestamps rise along the ring from a chunk on, that chunk is found to be the start, with or without a wrap |
| `RebuildScanners.StartMeans` | mirakc/src/rebuild_timeshift.rs:327-373 | For any timestamps at all: chunk 0 if it is earlier than the last one, and otherwise a chunk that is not later than the one before it |
| `RebuildScanners.SegmentsPartitionRing` | mirakc/src/rebuild_timeshift.rs:383-426 | For every start the segments list each chunk once from the start on, and separate two neighbours exactly if the first timestamp of the latter is more than ten seconds after the last one of the former |
| `RebuildScanners.TrimmedPartitionRing` | mirakc/src/rebuild_timeshift.rs:430-453 | Trimming in place removes the first and the last chunk, keeps all others in place and separated as before, and leaves no empty range or segment, for every start |
| `RebuildScanners.OrderListsEachOnce` | mirakc/src/rebuild_timeshift.rs:387-389 | The chunks in ring order are all chunks, each once |
| `RebuildScanners.SelfChecks` | mirakc/src/rebuild_timeshift.rs:428-461 | The self-check passes before trimming; after trimming it passes if and only if the ring does not start at chunk 1 |
| `RebuildScanners.RingFromOneIsNotRebuilt` | mirakc/src/rebuild_timeshift.rs:455-461 | A ring that starts at chunk 1 always fails its last self-check although its segments partition it |
| `RebuildScanners.ModIsRemainder` | mirakc/src/rebuild_timeshift.rs:388-389 | The remainder used in the statements is that of the source |
| `RebuildScanners.ValidateSegments` | mirakc/src/rebuild_timeshift.rs:581-602 | The nested loops accept exactly the segments whose ranges are nonempty, chained on the ring, and have the expected end and total |
| `RebuildScanners.Scanner.ScanTimestamp` | mirakc/src/rebuild_timeshift.rs:466-487 | The cache always equals the scanned timestamps |
| `RebuildScanners.Scanner.FindStartChunk` | mirakc/src/rebuild_timeshift.rs:356-373 | The cached recursion terminates and refines the search |
| `RebuildScanners.Scanner.CollectSegments` | mirakc/src/rebuild_timeshift.rs:375-464 | Panics exactly if a gap is negative or the ring starts at chunk 1, otherwise yields the trimmed segments |
| `RebuildScanners.Scanner.Scan` | mirakc/src/rebuild_timeshift.rs:303-354 | The whole scan, too small files included |
| `EpgSchedules.CalendarStaysAligned` | mirakc-core/src/epg/mod.rs:860-889 | Over any run of prepares and updates with well-dated sections, on any days, forward or backward, the unit at `start_index` is that of today and every dated basic section is of the day of its unit modulo nine; preparing does not panic |
| `EpgSchedules.AlignedThroughoutIff` | mirakc-core/src/epg/mod.rs:860-889 | In a run the schedule is aligned after every step if and only if each section is well dated on the day of the last prepare: its first event, if it is a basic section with events, has a start time of the day of its unit modulo nine |
| `EpgSchedules.UpdateKeepsIff` | mirakc-core/src/epg/mod.rs:886-973 | Storing a valid section keeps the schedule aligned exactly if the section is well dated |
| `EpgSchedules.MidnightMisaligns` | mirakc-core/src/epg/eit_feeder.rs:268-272 | A section dated for the next day, fed without preparing again, breaks the alignment, and does not if the schedule is prepared for that day first |
| `EpgSchedules.PreparedIsToday` | mirakc-core/src/epg/mod.rs:860-884 | Preparing makes `start_index` the unit of the new day without shifting the days of the units |
| `EpgSchedules.NewIsAligned` | mirakc-core/src/epg/mod.rs:851-858 | A new schedule is aligned on any day |
| `EpgSchedules.UpdateKeeps` | mirakc-core/src/epg/mod.rs:886-889 | A valid section whose first date is that of its unit modulo nine is stored in the unit of that day, and the unit of yesterday is left alone |
| `EpgSchedules.UpdateMeans` | mirakc-core/src/epg/mod.rs:959-973 | What an update does to each of the 9x8x8x2 sections, by the numbers in the table and the section: stored, cleared because it is after the last one of its segment, or kept |
| `EpgSchedules.DateMeans` | mirakc-core/src/epg/mod.rs:994-999 | A date begins at midnight in Japan |
| `EpgSchedules.SlotsAreAddressed` | mirakc-core/src/epg/mod.rs:1190-1199 | A valid table ID and section number address one slot of eight days, from which they can be recovered |
| `EpgSchedules.EverySlotIsAddressed` | mirakc-core/src/epg/models.rs:28-54 | Every slot of eight days is addressed by a valid table ID and a section number |
| `EpgSchedules.RemainderWraps` | mirakc-core/src/epg/mod.rs:871-878 | The truncating remainder with its correction is the remainder modulo nine |
| `EpgSchedules.UndatedFirstEventPanics` | mirakc-core/src/epg/mod.rs:994-999 | Preparing panics exactly if, in some unit, the first basic section with events has a first event without start time |
| `EpgStores.EpgSchedule.UpdateStartIndex` | mirakc-core/src/epg/mod.rs:860-884 | The loop over the units finds the first earliest date and sets the start index as specified, or panics as specified |
| `EpgStores.EpgSchedule.Update` | mirakc-core/src/epg/mod.rs:886-973 | Updates one segment of one unit in place as specified, and panics exactly for other tables |
| `EpgStores.EpgSchedule.CollectPrograms` | mirakc-core/src/epg/mod.rs:891-983 | The nested traversal yields what visiting the events in order yields: programs for exactly the IDs of the stored events that have a start time and a duration |
| `EpgPrograms.CollectedMeans` | mirakc-core/src/epg/mod.rs:1001-1017 | One program for each event ID, in the order of first occurrence; its times and scrambling from the last event, each other field from the last descriptor of its kind, audio by component tag |
| `EpgPrograms.AppliedAllDescribes` | mirakc-core/src/epg/mod.rs:1145-1187 | Applying descriptors leaves each field as the last descriptor that sets it says; a short event sets both name and description |
| `EpgPrograms.LastMeans` | mirakc-core/src/epg/mod.rs:1145-1187 | What the last element with a property is |
| `EpgPrograms.VisitsInOrder` | mirakc-core/src/epg/mod.rs:891-904 | Units are visited once each, that of the previous day first |
| `EpgPrograms.EveryEventIsVisited` | mirakc-core/src/epg/mod.rs:891-983 | An event is visited, once, exactly if it has a start time and a duration and is stored in any section, extended or basic, of any unit; the order is by day from yesterday on, by segment, extended sections before basic ones, by section and by position |
| `EpgPrograms.ProgramsAreThoseStored` | mirakc-core/src/epg/mod.rs:1001-1017 | There is a program exactly for each ID of a stored event with a start time and a duration |
| `RingReaders.ReadIsSliceIff` | mirakc-timeshift-fs/src/filesystem.rs:790-821 | A read returns that part of the record if and only if it asks for at least one byte or begins after the record; otherwise it returns the whole file, once around the ring from where the read begins |
| `RingReaders.ReadsReassemble` | mirakc-timeshift-fs/src/filesystem.rs:790-821 | Consecutive reads of any positive sizes reassemble the record |
| `RingReaders.RangesAreOrdered` | mirakc-timeshift-fs/src/filesystem.rs:709-727 | There is no second range without a first, and it starts where the file does |
| `RingReaders.ReadersAgree` | mirakc-core/src/timeshift/filereader.rs:50-115 | The file system and the streaming reader return the same bytes from the same position, however the reader is polled |
| `RingReaders.PollYieldsNext` | mirakc-core/src/timeshift/filereader.rs:57-115 | A poll with room yields the next bytes of the ring whatever the file does, at least one unless it is stopped, and an error or a pending operation loses none |
| `RingReaders.RoundMeans` | mirakc-core/src/timeshift/filereader.rs:66-115 | What one round comes to in each state and for each outcome of the operation: pending, an error, bytes, the end, a panic, or the next state; how many bytes a read takes |
| `RingReaders.PollMeans` | mirakc-core/src/timeshift/filereader.rs:66-115 | A poll goes on from round to round up to the first with a result, which it returns, and is pending if there is none |
| `RingReaders.PollRewinds` | mirakc-core/src/timeshift/filereader.rs:72-115 | At the end of the file a poll returns bytes from the beginning, if no operation fails |
| `RingReaders.EmptyBufferRewinds` | mirakc-core/src/timeshift/filereader.rs:72-88 | An answered poll without room makes the reader seek: the polls that follow return the ring from the beginning, which is right only if the reader was at the end |
| `RingReaders.SetPositionWorksIff` | mirakc-core/src/timeshift/filereader.rs:50-53 | Moving the reader has the intended effect exactly if it reads or is moved to the beginning; if it is about to seek, the polls that follow return the ring from the beginning, and if it waits for a seek to end they return nothing and the first one the file answers fails the assertion on the position |
| `RingReaders.PollPanicsIff` | mirakc-core/src/timeshift/filereader.rs:95-98 | A poll of a reader that is not stopped fails the assertion that a seek ends at the beginning exactly if the reader waits elsewhere and the file answers |
| `RingReaders.NeverAsserts` | mirakc-core/src/timeshift/filereader.rs:57-115 | However a reader is polled and moved, no poll before it is stopped fails the assertion unless it is moved away from the beginning while it waits for a seek |
| `RingReaders.RecordBuffer.Serve` | mirakc-timeshift-fs/src/filesystem.rs:572-594 | Filling the buffer range by range with a moving file position yields the specified bytes |
| `RingReaders.TimeshiftFileReader.Poll` | mirakc-core/src/timeshift/filereader.rs:57-115 | The loop over read, seek and wait, with its assertion, refines the specification |
| `Promoters.StopsAfterAllActors` | actlet/src/lib.rs:1117-1143 | However spawns, shutdowns and reports interleave, the promoter has stopped itself exactly if it was told to, no started actor is still running and all reports have arrived |
| `Promoters.StoppedIff` | actlet/src/lib.rs:1117-1150 | In every run the promoter has stopped itself exactly if a shutdown was handled, no actor runs and no report is under way; identifiers are given in turn from 1 on |
| `Promoters.NoneStartsWhileStopping` | actlet/src/lib.rs:1083-1090 | Once the promoter is stopping no actor is started, and a promoter that has stopped stays so |
| `Promoters.IdsAreNeverReused` | actlet/src/lib.rs:1145-1150 | No identifier is given to two actors, started or not |
| `Promoters.ReportsAreKnown` | actlet/src/lib.rs:1129-1139 | A report is always of an actor the promoter knows |
| `Promoters.StepKeepsInv` | actlet/src/lib.rs:895-912 | The promoter knows exactly the actors that run or whose report is under way |
| `Promoters.PromoterActor.HandleSpawn` | actlet/src/lib.rs:1074-1115 | Gives the next identifier, and starts the actor unless stopping |
| `Promoters.PromoterActor.HandleShutdown` | actlet/src/lib.rs:1117-1127 | Tells every known actor once and stops if there are none |
| `Promoters.PromoterActor.HandleActorStopped` | actlet/src/lib.rs:1129-1143 | Forgets the actor and stops after the last one |
| `EmitterRegistries.FailsIffFull` | actlet/src/lib.rs:645-653 | In every run a registration returns 0 exactly if all identifiers are in use, otherwise one in range that is free |
| `EmitterRegistries.EntryIsKept` | actlet/src/lib.rs:645-659 | Between being registered and unregistered an emitter stays under its identifier, which no one else is given |
| `EmitterRegistries.RunKeepsInv` | actlet/src/lib.rs:661-679 | In every run the keys are within 1 and the capacity, and so is the next identifier |
| `EmitterRegistries.SomeIdIsFree` | actlet/src/lib.rs:661-674 | Fewer entries than identifiers leave one free |
| `EmitterRegistries.FirstFreeIsUnique` | actlet/src/lib.rs:661-674 | The first free identifier from a position on is determined |
| `EmitterRegistries.FirstFreeMeans` | actlet/src/lib.rs:661-674 | The identifier given is free and all from the next one on up to it, going round, are in use |
| `EmitterRegistries.EmitterRegistry.UniqueId` | actlet/src/lib.rs:661-674 | The loop ends, by the distance to a free identifier, and returns the first free one in turn |
| `EmitterRegistries.EmitterRegistry.Add` | actlet/src/lib.rs:645-653 | Registers as specified, leaving all other entries |
| `EmitterRegistries.EmitterRegistry.Remove` | actlet/src/lib.rs:656-659 | Removes that entry only; the source asserts that it exists |

## Left out

- Broadcasters.LeftOutIffOverdue: only for a positive maximum stuck time, which is one or
  five seconds in the source (mirakc-core/src/models.rs:295-300).
- Starting processes, pipelines, filters, mustache templates, HTTP, FUSE replies,
  tracing, JSON and YAML: their outcomes are parameters.
- Saving schedules and records to disk, and failures of doing so; of a record only
  the status written to it is modelled.
- Timers and `set_timer`: `ProcessRecording` may be handled at any time.
- Liveness: mailbox capacities, deadlocks and fairness of `select!`. The broadcaster
  makes no promise of progress when a queue keeps 1 to 128 free slots.
- Wrap-around of session and serial numbers (u32) and of file offsets (u64): integers
  are unbounded.
- The structs that Rust nests by value (tuner, activity and session; unit and segment
  of the EPG ring; subscriber of the broadcaster) are values held by the classes, so
  aliasing between them, which Rust excludes, is not modelled.
- Deleting the recording history on request, and removing, querying and hashing
  records and contents.
- Registration of emitters in the managers; observers see the messages in `outbox`.
- `TunerManager` after shutdown has begun: streaming is refused; the wake-up results
  exclude it.
- The draining of a mailbox after an actor has been told to stop, except that the
  promoter may handle any message after it has stopped itself.
- Polling a content stream before it can go on: a step that is not possible yet is
  not taken.
- The contents of a chunk in the rebuild: `scan_last_timestamp`, `sync-clocks` and the
  check of the sync bytes, which only logs.
- Events whose time cannot be represented as a date, and event and series descriptors
  beyond the fields the collection copies.
- What tokio's `File` reports after a seek that has failed: a later poll takes the
  seek for completed.
- Reading with `read_to_end` when the file changes at the same time.
- The timeshift recorder and its manager, configuration, on-air trackers, EPG jobs,
  web API and the rest of the repository: they would add easier members only.
