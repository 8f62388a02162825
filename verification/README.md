# Verification of the Zakuro load engine

Zakuro drives many simulated WebRTC clients from one process. This project models the part of it
that decides what happens and when: the scenario player, the session protocol of a client, the
event loop that composes them, and the file, audio and message code that feeds them. It proves what
those parts guarantee over every input and every run, and for the guarantees that turn out not to
hold without a condition it proves which condition.

| file | what it models |
|---|---|
| `virtual_client.dfy` | connect, close, reconnect and retry of one client (`src/virtual_client.cpp`) |
| `reconnects.dfy` | where a client's sessions come from, the reconnect budget, and the answers to closes |
| `scenario.dfy` | what one client's record in the player goes through, in every interleaving (`src/scenario_player.h`) |
| `scenario_player.dfy` | the player as an object, with nested players (`src/scenario_player.h`) |
| `scenario_builder.dfy` | the operation lists that `Zakuro::Run` builds (`src/zakuro.cpp`) |
| `data_channels.dfy`, `channel_settings.dfy` | `ParseDataChannels`, and what the value means (`src/zakuro.cpp`) |
| `binary_pool.dfy`, `message.dfy` | the ring of random bytes and the messages cut from it |
| `load_engine.dfy` | the event loop: main player, nested players, all clients, one handler at a time |
| `projection.dfy` | each client of the event loop obeys the single-client theorems |
| `counters.dfy`, `deliveries.dfy` | the numbers of messages across all clients, and the sessions that they are handed to |
| `schedule.dfy` | the ready queue and the deadlines of `io_context`: the schedules that a run can have |
| `prompt_run.dfy`, `client_run.dfy`, `timeline.dfy`, `setup.dfy` | schedules in which nothing is late, from the start of a configuration on |
| `punctual.dfy`, `timetable.dfy`, `voices.dfy`, `retry_time.dfy` | every schedule in which nothing is late: when clients connect, disconnect, exit, send, speak and retry |
| `shutdown.dfy`, `shutdown_race.dfy`, `shutdown_condition.dfy` | when the event loop stops, in what state, and under exactly which condition |
| `faults.dfy` | when a run has thrown |
| `repeating.dfy`, `throw_condition.dfy` | scenarios that never exit: reconnecting, and which of them can throw |
| `y4m_reader.dfy`, `y4m_playback.dfy`, `y4m_header.dfy`, `y4m_picture.dfy`, `y4m_accept.dfy` | the looping video file reader, its header, its pictures, and what it accepts |
| `audio_thread.dfy` | a cyclic sample stream cut into 10 ms buffers against a clock |
| `wav_reader.dfy` | the RIFF chunk walk |
| `convert_env.dfy` | `${name}` expansion and instance numbering |
| `text.dfy`, `base.dfy` | `atoi`, `to_string`, `find`, `split`; options, bytes, division and slices |

Code that updates fields or loops in the source is a class or a method here, proved against a
function of its inputs and old state; the theorems are about those functions, and about runs of
them.

## Assumptions

- The event loop has one thread, so a handler is one atomic step. What holds of every run is proved
  for handlers in any order. What can happen, and every if-and-only-if about it, is proved of
  schedules: what is posted first runs first, and waits complete in the order of their deadlines.
  The schedules that are exhibited, and those that have a timetable, are moreover prompt: time
  passes only while nothing is ready, and no further than to the next deadline, nested players
  included.
- A wait that is cancelled (`cancel`, `expires_after`, a new wait) never completes successfully.
- A signaling object delivers `OnDisconnect` at most once, later than the call that caused it, and
  only while it is the client's current one. An event that is not possible in a state leaves that
  state as it is. `Clear` comes after the last event.
- Calling an empty `std::function` throws. `Close()` without a callback can do so; that is the
  outcome `Faulted`, and a run in which a handler has thrown takes no further step.
- Pausing, resuming, connecting and closing by hand come from the key trigger, and happen only if
  there is one.
- Random draws, the clock, connection ids and the messages of a disconnect are parameters. A file
  is a sequence of octets and a cursor. Durations are reals, truncated to milliseconds where the
  source converts them to `int`.

## What does not hold unconditionally

- **Shutdown.** With a duration and no repeat interval the last Exit callback is meant to stop the
  loop with all sessions closed. Without a key trigger that is so in every run
  (`StopsQuiescentWithoutTrigger`). With one, after a pause and a resume the last client's Exit can
  run a second time, is answered "already closing", and stops the loop while the session is live
  (`ResumeCanStopEarly`); and a client that is reconnected by hand after its exit can be left
  behind (`ConnectCanStopEarly`). `StopsAtRestExactly` is the exact condition, when all clients
  hatch before the first session is over: all schedules with up to so many resumes and manual
  connects stop with every client quiescent if and only if there are no resumes, and no manual
  connects either unless there is only one client. Run by run, exited clients stay quiescent if and
  only if every Exit found no callback pending and no retry timer armed
  (`ExitedClientsAreQuiescentIffExitsAreClean`), which is enough for a stop at rest
  (`CleanExitsStopQuiescent`).
- **Disconnect without a session.** No key is needed for the scenario's own Disconnect to throw.
  `Close()` has neither session nor callback when the session was lost before the duration was
  over: the first client's always can be, and in a shutdown configuration that of every client that
  hatches within the duration (`DisconnectAfterLossCanThrow`). So it is when the first client, which
  has exited, comes back to its Disconnect before another one's session has ended
  (`DisconnectAfterExitCanThrow`). `RunsThrowExactly` says of every run when it has thrown, and
  `CanThrowExactly` which of the scenarios that never exit can throw: those with a client, and a
  key trigger or a duration.
- **Retry budget.** A retry wait that is already armed is not counted in what is left of the
  budget. `RetriesConserved` is the exact law of the waits, and `BudgetHoldsIffNotArmed` says that
  the bound holds for them if and only if no wait is armed at the start of the stretch. Of the
  sessions themselves, where nobody connects, it holds if and only if moreover the client is not
  closing in order to reconnect (`ReconnectBudgetExactly`).
- **Audio.** Samples are lost unless the channel count divides a nonzero buffer size
  (`LosslessIffWholeFrames`); 22050 Hz in stereo is such a rate.
- **External audio.** A wakeup drops what is left of its samples after the last whole buffer.
  Nothing is lost if and only if every wakeup asks for none or, in mono, for whole buffers
  (`ExternalIsLosslessIffWhole`). At the 16000 Hz in mono of the game audio that means wakeups after
  multiples of 10 ms only (`GameIsLosslessIffTens`); after 11 ms, 16 of 176 frames are lost
  (`GameLoses`).
- **WAV.** The pad byte after a chunk of odd size is not skipped: when all chunks before it are
  even, the one just before the data decides whether the file is read (`FileIsReadIffEven`).
- **Y4M.** The frame number is an `int`; a call reaches its frame if and only if the number fits
  (`DeliversIffFits`).

## Model

| member | source | states |
|---|---|---|
| `VirtualClients.VirtualClient.Connect` | src/virtual_client.cpp:28-84 | a request during a close is remembered, a live session is closed first, otherwise the retry wait is cancelled and a session starts |
| `VirtualClients.VirtualClient.Close` | src/virtual_client.cpp:86-102 | whole new state, which callback is invoked at once and with what message, and when an empty callback is called |
| `VirtualClients.VirtualClient.OnDisconnect` | src/virtual_client.cpp:165-201 | an unexpected loss arms a retry within the budget, a requested close completes and may reconnect, and the pending callback is called once and dropped |
| `VirtualClients.VirtualClient.OnRetryTimer` | src/virtual_client.cpp:177-185 | an expired retry wait connects unless a callback is pending |
| `VirtualClients.VirtualClient.OnNotify` | src/virtual_client.cpp:202-210 | only connection.created resets the retry count |
| `VirtualClients.VirtualClient.SendMessage` | src/virtual_client.cpp:109-115 | a message reaches the session exactly when there is one that is not closing |
| `VirtualClients.VirtualClient.Clear` | src/virtual_client.cpp:104-107 | nothing is left that could deliver an event |
| `VirtualClients.RunInvariant` | src/virtual_client.cpp:28-210 | over every run: callback pending implies closing implies live, armed retry implies no session, every callback passed to Close was invoked once or is the pending one, sessions created are sessions lost plus the live one, retry count within the budget |
| `VirtualClients.FromStart` | src/virtual_client.cpp:25-26 | the same from the constructed client, with no assumption |
| `VirtualClients.FaultsExactlyOnUnanswerableClose` | src/virtual_client.cpp:86-102 | in every reachable state an event throws if and only if it is Close without a callback while no session is live or a callback is pending |
| `VirtualClients.RetriesConserved` | src/virtual_client.cpp:170-186 | between resets, waits fired and cancelled plus the one armed equal the one armed before plus the growth of the retry count |
| `VirtualClients.RetryBudget` | src/virtual_client.cpp:170-186 | between resets, the waits that fire are at most the remaining budget, plus one if a wait was armed |
| `VirtualClients.BudgetHoldsIffNotArmed` | src/virtual_client.cpp:170-186 | the bound on waits without the extra one holds over all continuations if and only if no wait is armed |
| `VirtualClients.ArmedWaitIsExtra` | src/virtual_client.cpp:170-186 | a run from the start that reaches a spent budget and a wait that still fires |
| `VirtualClients.RequestsWhileClosing` | src/virtual_client.cpp:28-102 | until the session ends, what is pending depends only on what was requested during the close |
| `VirtualClients.CloseCompletes` | src/virtual_client.cpp:165-201 | when a requested close completes, a new session starts if and only if Connect was requested and no callback was; no retry is armed; the callback is invoked once |
| `Reconnects.RetryReconnects` | src/virtual_client.cpp:170-186 | in every reachable state a retry wait that ends leaves a new session, no wait armed, and one more session created |
| `Reconnects.SessionsComeFrom` | src/virtual_client.cpp:28-195 | over every run, sessions created are waits fired, plus Connects that opened one at once, plus closes completed with a reconnect wanted and no callback |
| `Reconnects.ReconnectBudget` | src/virtual_client.cpp:165-195 | a client that nobody connects and that sees no connection.created opens at most as many sessions as the budget has left, one more with a wait armed, one more when closing to reconnect |
| `Reconnects.ReconnectBudgetExactly` | src/virtual_client.cpp:165-195 | the bound without extras holds over all such continuations if and only if no wait is armed and the client is not closing to reconnect |
| `Reconnects.CreatedRestoresBudget` | src/virtual_client.cpp:170-210 | after connection.created exactly max_retry losses in a row are each followed by a new session, and the next leaves neither session nor wait; after any other event only what was left |
| `Reconnects.CloseIsAnswered` | src/virtual_client.cpp:86-201 | in every run a close with a callback is answered at once with its reason, or when the session ends with the message of that end |
| `RetryTimes.RetryIsTimely` | src/virtual_client.cpp:170-186 | in every schedule in which nothing is late, a retry wait ends exactly the retry interval after the loss it belongs to |
| `Scenarios.DelaysAre` | src/scenario_player.h:144-149 | the delays a Sleep can have are exactly those from its least to its greatest |
| `Scenarios.InterleavingInvariant` | src/scenario_player.h:95-159 | in every interleaving of continuations, timer expiries, pauses and resumes: indices in range, an armed timer belongs to the Sleep at the index, repeats and continuations are conserved against resumes, and the executed operations form a walk |
| `Scenarios.PlayedOnce` | src/scenario_player.h:95-109 | the same for every scenario that passes Play's guard |
| `Scenarios.RepeatsArePaidFor` | src/scenario_player.h:116-139 | repeats are at most the resumes, continuations at most one more; without a resume no operation repeats and a client that is not paused has exactly one continuation |
| `Scenarios.PositionMoves` | src/scenario_player.h:130-133 | the closed form of the index after any number of moves follows the code's successor, with the loop |
| `Scenarios.PausedStepShrinks` | src/scenario_player.h:110-139 | while paused the index stays and 2·posted + armed strictly falls with each handler |
| `Scenarios.PauseQuiesces` | src/scenario_player.h:110-139 | from a pause to the next resume exactly as many operations run as posted continuations are used up |
| `ScenarioPlayers.ScenarioPlayer.Play` | src/scenario_player.h:95-109 | the guard, and the whole record afterwards; nothing changes when the guard fails |
| `ScenarioPlayers.ScenarioPlayer.PauseAll` | src/scenario_player.h:110-115 | every client is paused with its wait cancelled, and nothing posted is withdrawn |
| `ScenarioPlayers.ScenarioPlayer.ResumeAll` | src/scenario_player.h:116-121 | every client is resumed and gets one more continuation |
| `ScenarioPlayers.ScenarioPlayer.Next` | src/scenario_player.h:124-135 | the index moves, or wraps to the loop, and one continuation is posted, unless paused |
| `ScenarioPlayers.ScenarioPlayer.DoNext` | src/scenario_player.h:136-139 | one more continuation for that client only |
| `ScenarioPlayers.ScenarioPlayer.OnTimer` | src/scenario_player.h:151-157 | an expired wait is over and moves on |
| `ScenarioPlayers.ScenarioPlayer.OnExited` | src/scenario_player.h:220-231 | marks the client and stops the loop exactly when all are marked |
| `ScenarioPlayers.ScenarioPlayer.SendMessage` | src/scenario_player.h:173-210 | the client is sent the specified message and the channel's counter moves on even if it is not taken |
| `ScenarioPlayers.ScenarioPlayer.PlaySub` | src/scenario_player.h:160-167 | the named nested player is created once and reused, starts this client, and every other nested player is untouched |
| `ScenarioPlayers.ScenarioPlayer.PerformOp` | src/scenario_player.h:168-233 | the effect of each operation that acts on a client: on the player, the client and the event loop |
| `ScenarioPlayers.ScenarioPlayer.OnNext` | src/scenario_player.h:141-237 | one continuation: a Sleep draws a delay in its range and arms, anything else takes effect and moves on, a throw does not move on |
| `ScenarioPlayers.RunOpIsOnNext` | src/scenario_player.h:141-237 | seen from the records, a turn is one interpreter step of one client |
| `ScenarioBuilder.AddReconnectScenario` | src/zakuro.cpp:528-551 | the appended operations for each duration and repeat interval |
| `ScenarioBuilder.PushChannels` | src/zakuro.cpp:518-525 | one sub-scenario per channel, in order |
| `ScenarioBuilder.BuildScenario` | src/zakuro.cpp:553-594 | the operation list and loop index of each kind of scenario; no index for an unknown kind |
| `ScenarioBuilder.BuiltScenarioIsSound` | src/zakuro.cpp:553-604 | every built scenario passes Play's guard, its loop contains a Sleep and starts no sub-scenario, and every channel's sub-scenario stands before the loop |
| `ScenarioBuilder.SleepInEveryWindow` | src/zakuro.cpp:596-604 | among any as many consecutive positions as there are operations, one is a Sleep |
| `ScenarioBuilder.SleepRunsInEveryWindow` | src/scenario_player.h:124-159 | without a resume, of any as many operations run in a row as the scenario has, one is a Sleep, in every run |
| `ScenarioBuilder.SubScenarioPlayedOnce` | src/zakuro.cpp:556-604 | without a resume an operation before the loop runs exactly at its own turn and never again, in every run |
| `DataChannels.ParseInt` | src/zakuro.cpp:87-156 | a numeric option is absent, rejected, throws or is taken, and only its own keys can be erased |
| `DataChannels.ParseOptions` | src/zakuro.cpp:158-196 | the signaling options are recorded, or the first that does not convert throws |
| `DataChannels.ParseEntry` | src/zakuro.cpp:56-196 | the first failing check decides between rejecting and throwing; an accepted entry yields the fields read from the original object, although keys are erased on the way |
| `DataChannels.ParseDataChannels` | src/zakuro.cpp:50-206 | true exactly when every entry is acceptable; then all are signaled and exactly the sending ones are sent on, in order; it throws exactly when the first entry that is not acceptable does, and returns false otherwise |
| `DataChannels.ThrowsMeans` | src/zakuro.cpp:56-204 | the verdict over the entries is a throw if and only if some entry throws behind acceptable ones only |
| `DataChannels.AcceptedChannelsAreServable` | src/zakuro.cpp:87-156 | every accepted channel has a positive interval and 48 ≤ size min ≤ size max ≤ 256000 |
| `ChannelSettings.SettingsAreTaken` | src/zakuro.cpp:50-206 | every JSON array that says a list of allowed settings is accepted; entries of direction sendonly or sendrecv give one channel each, in order, with label, interval or 500, sizes or 48 under either spelling, the largest raised to the smallest; every entry is announced with its label, direction and five options |
| `ChannelSettings.RoundTrip` | src/zakuro.cpp:50-206 | every list of allowed settings can be written, with either spelling, and is read back as the same channels |
| `ChannelSettings.AcceptedIffDescribed` | src/zakuro.cpp:50-206 | exactly the arrays that describe allowed settings are accepted |
| `ChannelSettings.EntryThrowsExactly` | src/zakuro.cpp:56-196 | an entry throws if and only if, behind string texts, the first thing wrong with it is a number that is no 32-bit integer or an option of another type |
| `BinaryPools.BinaryPool.constructor` | src/binary_pool.h:11-26 | the size is rounded up to words, and every byte comes from the engine |
| `BinaryPools.BinaryPool.Get` | src/binary_pool.h:27-42 | byte i of the result is pool[(pos + i) mod size], for any number of wraps, and the length is in range |
| `Messages.BuildHeader` | src/scenario_player.h:178-202 | the filled-in buffer is magic, big-endian time, big-endian counter, padded or cut connection id |
| `Messages.BigEndianRoundTrip` | src/scenario_player.h:187-198 | decoding what the shifts wrote gives the number modulo 256 to the number of bytes |
| `Messages.BigEndianAt` | src/scenario_player.h:187-198 | each written byte is the shifted and masked number |
| `Messages.MessageDecodes` | src/scenario_player.h:173-204 | every message has a length in range and decodes to its time and counter, byte 22+i is byte i of the connection id or zero behind its end, and its tail reads around the pool |
| `Messages.EveryDrawIsPossible` | src/binary_pool.h:27-42 | every length in the requested range and every place in the pool can be drawn |
| `Projection.ClientsFollowTheirScenario` | src/scenario_player.h:95-237 | in every run of the whole loop that has not thrown, each client's record is an interleaving of its own events, so the walk, conservation and repeat bounds hold for it |
| `Projection.ClientsRunInOrder` | src/scenario_player.h:124-159 | in every run without a resume that has not thrown, the k-th operation each client runs is the one at position k of its scenario, so each operation before the loop runs once, and of any as many in a row as there are operations one is a Sleep |
| `Projection.ClientsPauseQuiesces` | src/scenario_player.h:110-139 | from any state of any run in which a client is paused, up to the next resume, its index does not move and it runs exactly as many operations as posted continuations are used up |
| `Projection.ClientsResumeWhereTheyPaused` | src/scenario_player.h:110-139 | from any state of any run: a pause ends the waits of the main player and touches no session and no nested player; after the next resume each client is at the operation it was paused at, unpaused, with one continuation more than the pause has left |
| `Counters.SendBuilds` | src/scenario_player.h:193-208 | a send appends one message that carries its channel's counter |
| `Counters.CountersAreConsecutive` | src/scenario_player.h:160-208 | for every accepted channel list and every run over any number of clients, the counters decoded from one channel's messages are 0, 1, 2, … modulo 2^64 in build order; every message has a length its channel allows, within 48..256000, decodes to its own time, its counter and the connection id of its client's session, or zeros if there was none, and ends in bytes around the pool |
| `Deliveries.EverySessionGetsItsMessages` | src/scenario_player.h:168-210 | in every run each message is built by one send, in order, with the id of the session that its client then had; and what a live session was handed is exactly the messages built for its client since it was opened and before it was asked to close |
| `Shutdown.BootsToShutdown` | src/zakuro.cpp:528-604 | with a duration and no repeat interval every client's scenario loops over Sleep, Disconnect, Exit |
| `Shutdown.CleanExitsStopQuiescent` | src/scenario_player.h:219-233 | when every Exit of a run was clean and nobody connected by hand, the loop has stopped exactly when every Exit callback has run, and then every client has no session, close, callback or retry wait |
| `Shutdown.StopsOnlyWhenAllQuiescent` | src/scenario_player.h:219-233 | the same of every run without resume and manual connect |
| `Shutdown.StopsQuiescentWithoutTrigger` | src/zakuro.cpp:606-609 | the same of every run without a key trigger |
| `Shutdown.ExitedClientsAreQuiescentIffExitsAreClean` | src/scenario_player.h:219-233 | with resumes: exited clients are quiescent in every state of the run if and only if every Exit met no pending callback and no armed retry wait |
| `Shutdown.UncleanExitUnsettles` | src/virtual_client.cpp:86-102 | an Exit that meets one leaves its client marked as exited and not quiescent |
| `Shutdown.DisconnectAfterExitThrows` | src/virtual_client.cpp:86-102 | a Disconnect throws if and only if no session is live or a callback is pending, hence always after the client has exited |
| `LoadEngine.KeysAreDead` | src/zakuro.cpp:606-609 | without a key trigger, what keys would ask for makes no difference to a run |
| `Schedules.SchedulesAreRuns` | src/zakuro.cpp:495 | the handlers that a schedule of queue and deadlines runs are an event sequence of the loop, so what holds of all sequences holds of all schedules |
| `Schedules.UnaskedNeverRuns` | src/fake_audio_key_trigger.h:46-75 | a resume or manual connect runs only if another thread has posted it |
| `PromptRuns.Background` | src/scenario_player.h:141-159 | nested players can run promptly up to any moment before which no client of the main player has something to do, and leave the main player and the sessions as they are |
| `ClientRuns.Hatch` | src/scenario_player.h:141-237 | from its first wait a client connects, starts its nested players and waits for its duration, in queue order and with no time passing, while all others stay as they are |
| `Timelines.Drive` | src/zakuro.cpp:596-604 | with all clients hatching, leaving and exiting at their deadlines in order, a prompt schedule reaches the end of any client's session that comes before a second round of another |
| `Timetables.ClientsKeepTime` | src/scenario_player.h:124-159 | in every schedule in which nothing is late and nobody pauses, each client runs its operations in order, each exactly when the waits before it are over, and none is overdue |
| `Timetables.NestedKeepTime` | src/scenario_player.h:141-167 | the same of a nested player, from the moment its client hatches |
| `Timetables.Timetable` | src/zakuro.cpp:528-604 | in every such schedule client i connects i / rate seconds after the start; with a duration it disconnects that long after each connect, and then connects again after the repeat interval, forever, or exits at once if there is none; all in truncated milliseconds, and until the loop stops or throws no move is overdue |
| `Timetables.ChannelTimetable` | src/zakuro.cpp:518-525 | in every such schedule each client sends on each channel every interval, first an interval after it has connected, with the channel's label and sizes |
| `Voices.VoiceTimetable` | src/zakuro.cpp:563-573 | in every such schedule each client speaks 1 to 5 seconds after it has connected, and 1 to 5 seconds after each time |
| `Voices.ReconnectTimetable` | src/zakuro.cpp:574-593 | in the reconnect scenario each client speaks eight times between two connects, which are 9 to 45 seconds apart |
| `ShutdownRace.DisconnectAfterLossCanThrow` | src/scenario_player.h:211-214 | for the first client of every configuration with a duration, and in shutdown configurations every client that hatches within it, a prompt schedule without keys in which a lost session makes its Disconnect throw |
| `ShutdownRace.DisconnectAfterExitCanThrow` | src/scenario_player.h:211-233 | with two clients or more, a prompt schedule without keys in which the first client, which has exited, throws at its next Disconnect |
| `ShutdownRace.ResumeCanStopEarly` | src/fake_audio_key_trigger.h:46-51 | with a key trigger and all clients hatching in time, a prompt schedule with one pause and one resume that stops with a client not quiescent |
| `ShutdownRace.ConnectCanStopEarly` | src/fake_audio_key_trigger.h:70-75 | with two clients or more, such a schedule with one manual connect |
| `ShutdownCondition.RestsWithoutEither` | src/scenario_player.h:219-233 | every schedule without resumes and manual connects stops at rest only |
| `ShutdownCondition.RestsAlone` | src/scenario_player.h:219-233 | a single client stops at rest in every schedule, retries or not, however often it is connected by hand: a session opened while its Exit is ready cannot end before that has run |
| `ShutdownCondition.StopsAtRestExactly` | src/scenario_player.h:110-233 | with a key trigger and all clients hatching in time, all schedules, or all prompt ones, with up to so many resumes and manual connects stop with every client quiescent if and only if there are no resumes, and no manual connects unless there is only one client |
| `Faults.RunsThrowExactly` | src/virtual_client.cpp:86-102 | a run of any configuration, with any keys, has thrown if and only if one of its Disconnects or manual closes met a client without a session or with a callback pending |
| `Repeating.FaultsIffSomethingUnanswered` | src/virtual_client.cpp:86-102 | in every run of a scenario that never exits, with any keys, the loop does not stop and no callback is ever pending, so it has thrown if and only if a Disconnect or a manual close met a client without a session |
| `Repeating.ReconnectIsHonoured` | src/virtual_client.cpp:28-40 | in every such run a Reconnect opens a session at once, or is remembered through everything until the old session ends, which opens the new one |
| `ThrowCondition.CanThrowExactly` | src/zakuro.cpp:528-551 | a scenario that never exits throws in some schedule, or some prompt one, if and only if there is a client, and a key trigger or a duration |
| `Y4M.Y4MReader.ReadHeader` | src/y4m_reader.cpp:94-182 | every error code, the format that is left, and where the frames start |
| `Y4M.Y4MReader.ReadFrameHeader` | src/y4m_reader.cpp:184-218 | every error code, and cursor and position after the line |
| `Y4M.Y4MReader.SkipFrame` | src/y4m_reader.cpp:220-247 | one frame further, back to the first frame at the exact end, or an error code |
| `Y4M.Y4MReader.GetFrame` | src/y4m_reader.cpp:41-92 | code, `updated`, reader state and the whole buffer, in every case |
| `Y4MPlayback.FrameAtOffset` | src/y4m_reader.cpp:184-247 | frame k stands at the sum of the lengths of the frames before it |
| `Y4MPlayback.SkipToStaysInStep` | src/y4m_reader.cpp:57-63 | the skip loop succeeds and keeps cursor = pos = offset of frame mod N, around any number of wraps |
| `Y4MPlayback.GetFrameDelivers` | src/y4m_reader.cpp:41-92 | a call succeeds, updates exactly when the number changed, and delivers payload number mod N |
| `Y4MPlayback.PlaysEveryTime` | src/y4m_reader.cpp:41-92 | over every nondecreasing sequence of times the buffer always shows frame floor(ms·num/(1000·den)) mod N |
| `Y4MPlayback.DeliversIffFits` | src/y4m_reader.cpp:45 | a call reaches the frame of its time if and only if the number is below 2^31 |
| `Y4MPlayback.FrameNumberOverflows` | src/y4m_reader.cpp:45-55 | numbers from 2^31 to 2^32 turn negative and the call returns -1 |
| `Y4MHeader.HeaderRoundTrip` | src/y4m_reader.cpp:94-182 | any printed fields with numbers below 2^31, on a line of less than 1024 octets, are read back with code 0 and the frames start after the line, or -9 if size or rate is zero |
| `Y4MHeader.FieldIsRecovered` | src/y4m_reader.cpp:116-165 | a field that no other contradicts is recovered wherever it stands |
| `Y4MHeader.OrderDoesNotMatter` | src/y4m_reader.cpp:116-165 | any two orders of the same fields are read as the same format |
| `Y4MHeader.FilePlays` | src/y4m_reader.cpp:41-247 | a whole printed file opens and plays every nondecreasing sequence of times as the ideal loop does |
| `Y4MPictures.PicturesPlay` | src/y4m_reader.cpp:24-92 | a whole file of pictures in three planes, luma of width times height octets and each chroma of one octet per two by two pixels, cut at odd edges, opens and shows at any nondecreasing times all octets of all planes of picture floor(ms·num/(1000·den)) mod N |
| `Y4MAcceptance.AcceptsExactly` | src/y4m_reader.cpp:94-182 | of all files exactly those are accepted whose first newline is among the first 1024 octets and whose first line has the magic word first and behind it only what is understood, progressive and 4:2:0, with a size and a rate |
| `Y4MAcceptance.FrameLineExactly` | src/y4m_reader.cpp:184-218 | a frame starts exactly where it says FRAME with the newline within 1024 octets behind that, and its picture starts behind the line; the other codes by what is there |
| `Text.AtoiReadsDecimal` | src/y4m_reader.cpp:121-134 | `atoi` of a printed number below 2^31, whatever non-digit follows, is the number |
| `Text.SplitJoin` | src/y4m_reader.cpp:110-111 | splitting at single spaces undoes joining |
| `AudioThreads.AudioThread.PushFrame` | src/zakuro_audio_device_module.cpp:94-106 | one frame is pushed, a full buffer is delivered, the data starts over at its end |
| `AudioThreads.AudioThread.Wakeup` | src/zakuro_audio_device_module.cpp:91-107 | a wakeup is that many frames |
| `AudioThreads.AudioThread.WakeupExternal` | src/zakuro_audio_device_module.cpp:108-117 | an external source is asked for the quotient of the sample count and the buffer size |
| `AudioThreads.RenderedAgainstClock` | src/zakuro_audio_device_module.cpp:82-118 | over any wakeups, the buffers rendered and the remainders dropped make up the count the clock gives |
| `AudioThreads.ExternalIsLosslessIffWhole` | src/zakuro_audio_device_module.cpp:108-117 | the frames rendered never exceed the clock's, and equal them if and only if every wakeup asks for none or, in mono, for whole buffers |
| `AudioThreads.ExternalIsSilentIffShort` | src/zakuro_audio_device_module.cpp:108-117 | nothing is rendered if and only if no wakeup's count reaches a buffer |
| `AudioThreads.GameIsLosslessIffTens` | src/zakuro.cpp:277-281 | at the external source's 16000 Hz in mono nothing is lost if and only if every wakeup comes after a multiple of 10 ms |
| `AudioThreads.GameLoses` | src/zakuro.cpp:277-281 | a wakeup after 11 ms asks for 176 frames and renders 160 |
| `AudioThreads.StreamIsCut` | src/zakuro_audio_device_module.cpp:73-107 | after any number of frames, delivered buffers are consecutive equal cuts of the repeated data, the partial buffer continues them, and the index is the count modulo the data |
| `AudioThreads.LosslessIffWholeFrames` | src/zakuro_audio_device_module.cpp:76-103 | deliveries and the partial buffer make up a prefix of the repeated data after every number of frames if and only if channels divides a nonzero buffer size; deliveries then have exactly that size |
| `AudioThreads.BuffersAreTenMs` | src/zakuro_audio_device_module.cpp:76-103 | after any number of frames every delivered buffer holds the whole frames of 10 ms and is cut from the repeated data a fixed step behind the last, the step being the frames that make up 10 ms |
| `AudioThreads.LosslessIffTenMsAreFrames` | src/zakuro_audio_device_module.cpp:76-103 | nothing is lost if and only if rate·channels/100 is at least one and a multiple of channels |
| `AudioThreads.StereoAt22050IsLossy` | src/zakuro_audio_device_module.cpp:76-103 | a common rate at which that condition fails |
| `AudioThreads.ClockBound` | src/zakuro_audio_device_module.cpp:82-90 | the samples asked for never run ahead of the clock, and lag by less than one per wakeup |
| `AudioThreads.WakeupsFollowStream` | src/zakuro_audio_device_module.cpp:83-119 | over any wakeups the output is the prefix of the repeated data whose length the clock gives |
| `Wav.WavReader.Load` | src/wav_reader.cpp:38-108 | every error code, channels, rate and appended samples |
| `Wav.WavReader.LoadChunks` | src/wav_reader.cpp:88-107 | chunks are skipped up to the data, whose samples are appended; the rest of the buffer is the measure |
| `Wav.WavReader.AppendSamples` | src/wav_reader.cpp:99-105 | the samples of the data chunk are appended in order |
| `Wav.WavRoundTrip` | src/wav_reader.cpp:38-108 | every 16-bit PCM file of one or two channels, with any format extension, any even-sized chunks before the data and anything after it, gives back channels, rate and every sample |
| `Wav.OddChunkHidesData` | src/wav_reader.cpp:88-97 | a chunk of odd size just before the data makes the walk fail with -10 |
| `Wav.FileIsReadIffEven` | src/wav_reader.cpp:38-108 | of a whole file whose chunks are even up to the last one before the data, the format or another, channels, rate and every sample are recovered if and only if that one is even too; otherwise -10 |
| `Wav.LoadedIsPcm16` | src/wav_reader.cpp:38-87 | a file that loads has RIFF, WAVE, fmt, coding 1, one or two channels and 16 bits in the octets where the format says so, and channels and rate are those octets |
| `Wav.FormatDecides` | src/wav_reader.cpp:58-87 | behind a complete format chunk the code is -9, 1 or -4 if and only if the coding, the channels or the depth is the first that is wrong, and otherwise 0 or -10 |
| `ConvertEnv.Convert` | src/util.cpp:466-491 | the match iterator's prefixes, values and suffix make up the left-to-right expansion |
| `ConvertEnv.Scan` | src/util.cpp:469 | a name ends at the first closing brace, and there is none if a line terminator comes before it |
| `ConvertEnv.NextMatchIsFirst` | src/util.cpp:469-473 | the iterator's match is the leftmost one |
| `ConvertEnv.UnknownNamesStay` | src/util.cpp:478-482 | references to names that are not defined stay as they are |
| `ConvertEnv.TemplateExpands` | src/util.cpp:466-491 | every template of literals and references expands to its literals and, for each reference, the value of its name or the reference itself |
| `ConvertEnv.InstanceIsNumbered` | src/util.cpp:506-518 | `${}` stands for the number of the instance, counted from one, in decimal |
| `ConvertEnv.ExpandIsIdempotent` | src/util.cpp:466-491 | with values that hold no dollar sign or brace, expanding again changes nothing |
| `ConvertEnv.NumberingIsIdempotent` | src/util.cpp:506-518 | so it is for the instance numbers |
| `ConvertEnv.ExpandIsInjective` | src/util.cpp:466-491 | a template that contains `${}` gives different values different texts |
| `ConvertEnv.InstancesDiffer` | src/util.cpp:506-518 | different instances get different option values from such a template |

## Left out

- Shutdown.StopsOnlyWhenAllQuiescent: assumes that no resume and no manual connect happens, because with them it is false; `StopsAtRestExactly` is the exact condition.
- ShutdownCondition.StopsAtRestExactly: assumes that the last client hatches before the first session is over, so that it can exit before the first client comes back to its Disconnect. For other configurations only the if-half is stated (`RestsWithoutEither`).
- ShutdownRace.DisconnectAfterExitCanThrow: is about the first client, because the first one to exit is the first to come back to its Disconnect.
- VirtualClients.RetryBudget: states one wait more than the remaining budget when a wait is armed at the start, because that many do happen.
- Reconnects.ReconnectBudget: states up to two sessions more than the remaining budget, because that many do start; `ReconnectBudgetExactly` is the exact condition.
- Timetables.ChannelTimetable: is about a channel whose label no other channel has; a label that two channels share starts the nested player of that name twice.
- Timetables.Timetable: assumes that nobody pauses or resumes; what pauses do is stated without times (`ClientsResumeWhereTheyPaused`).
- VirtualClients.VirtualClient.OnNotify: takes the event type of a notification; a text that is not JSON or has no event type, which the server does not send, would throw.
- ScenarioPlayers.ScenarioPlayer.PerformOp: PlayVoiceNumberClient plays samples to the game audio mixer, which is not modelled.
- ScenarioPlayers.ScenarioPlayer.OnNext: the same operation has no effect but to move on.
- Wav.WavReader.Load: says nothing about a format chunk that runs past the buffer, and about the sizes, within 8 of 2^31 or of 2^32, for which the chunk length overflows.
- Wav.WavReader.LoadChunks: says nothing about those sizes either.
- Wav.WavRoundTrip: assumes even chunk sizes, because odd ones are read out of step, and sizes that do not overflow.
- Wav.OddChunkHidesData: covers data of less than 16 MiB with no more than about 255 times as much behind it; beyond that, what the shifted header says depends on the bytes.
- Wav.FileIsReadIffEven: the same, and after an odd chunk that is not the last one before the data it depends on the bytes of the next chunk.
- Y4M.Y4MReader.GetFrame: assumes a nonzero rate denominator and a nonnegative frame size that the buffer holds; 64-bit products and the size product are taken not to overflow, and fseek not to fail (code -12).
- Y4M.Y4MReader.SkipFrame: fseek is taken not to fail at the wrap (code -7).
- Y4M.Y4MReader.ReadHeader: `atoi` is taken not to overflow, and fopen, file_size and fseek (code -10) not to fail.
- AudioThreads.AudioThread.WakeupExternal: says how many buffers are rendered, not what the external source puts into them; what is dropped is stated by `RenderedAgainstClock`.
- VirtualClients.VirtualClient.Connect: the tracks, the signaling configuration and the network are not modelled, only that a new session exists.
- ConvertEnv.Convert: the regular expression engine is replaced by its meaning for this one pattern; the option tables around it are left out.
- ScenarioBuilder.BuildScenario: with a scenario name other than the known ones the loop index is uninitialised in the source; there is no index here.
- Wall-clock time in the theorems about every run: there, when a wait ends is arbitrary. Schedules have deadlines, in whole milliseconds, and waits with the same deadline complete in any order.
- Waits whose end is ready already when they are cancelled: they are taken not to complete.
- Voice samples and the audio they are played to, GetStats beyond the connection id, the stats timer, stopping by a signal.
- HTTP server, proxy, JSON-RPC, command line and configuration file, rendering and capture, codecs, key reading, the game audio mixer, and the inside of the Sora SDK and WebRTC.
