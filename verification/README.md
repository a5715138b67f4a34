# A model of the remote microphone appliance

This project models birdnet-go-remote-mic, an appliance that captures audio devices and serves them over RTSP,
and proves what its run loop and the protocols around it promise. `dafny verify dfyconfig.toml` checks all of it.

## The device lifecycle

`Lifecycle` says what each operation of the run loop does to one device: its record, its down condition, its
unattended-retry state, its encode fault, its capture-period escalation, and the history of its two notification
keys. A run is a sequence of operations, each allowed where it happens. `LifecycleInvariant` proves the coupling of
all that state over every run. `Outcomes` says of each operation, field by field, what it leaves of the device, in terms
of the state before it and of what the world answered, and proves that the operation's result is exactly the one
described. `LifecycleRuns`, `FaultRuns`, `ReportRuns`, `BackoffRuns` and `LadderRuns` prove what whole runs promise.
`Geometry` is the open loop that falls back rung by rung.

`RunLoop.Appliance` is the appliance itself: a class with the run loop's maps, counters and timer, updated in place by
its events. Every operation it performs is recorded in a ghost trace per device, and its invariant says that the maps
at each name are what `Lifecycle` makes of that trace. So every property of runs holds of every device in every
reachable state, and the contracts of the events say exactly which operations each device is given. `Pumps` keeps the
counters, mounted paths and hardware exclusive, `Reload` is the plan of a save, and `Traces` holds what the events are
checked against. What the host answers (how ids resolve, how opens turn out, how long they take) is an input.

## The protocols and the smaller cores

`Wakeup` is the handshake between stages and run loop, `TokenRegister` the supervisor, run lock and token command
over the config file, `ExitDecision` the decision to end the process; each is a state machine whose steps interleave
freely. `FanOut` and `Samples` are the audio path, `Names` and `Utf8` the advertised names, `TokenGuard` the
compare-and-swap on the access token, and `Certificates` the pinned certificate store.

Some properties hold only under a condition, and that condition is proved exact:

- A serving API's store is the config file at every point exactly when no attempt to bring the API back came up after
  finding the file momentarily missing while it held an edit the appliance had not read
  (`TokenRegister.StoreIsFileExactly`). A misread attempt that fails costs nothing (`MisreadThatFails`); one that comes up
  can cost an edit (`MisreadLosesAnEdit`).
- The file is every change written, merged in order, exactly when no API saved back a field of its store that the file has
  otherwise, and the same of the token alone (`TokenRegister.FileIsEveryChange`, `TokenIsLastChange`). No API does
  unless it came up on a misread file.
- The token on disk is the last one *reported* at every point exactly when no such save brings an earlier one back and
  no live change to another token is saved with its answer lost (`TokenRegister.KnownExactly`, and `LostAnswer` for a
  run that loses one).
- Between turns of the run loop, a pump, the handle or a pending signal keeps the process from sticking, exactly unless
  no pump is alive and the supervisor stands between marking the handle and signalling (`ExitDecision.NeverSticks`, and
  `StandsBetween` for a run that stands there).
- A certificate regenerated while it is in date keeps a DNS name exactly if it is neither empty nor an IP literal, which
  comes back as an IP name (`Certificates.CarriedNamesSurvive`, and `BadNamesAreNotKept` for a start that drops them).

Escalation leaves a device as available as the default does, exactly unless a rung on the way fails in a way that
forbids falling back (`Geometry.NoLessAvailable`).

## Model

| member | source | states |
|---|---|---|
| Outcomes.StepIsOutcome | cmd/remotemic/appliance.go:590-1127 | what an operation leaves of a device is exactly what is described of it field by field, from the state before and the world's answer: record, cause and what was reported of it, encode fault, retry state, and ladder with its condition |
| Outcomes.OpenRecord | cmd/remotemic/appliance.go:590-720 | an open serves exactly if it is not refused and some rung opens below rungs passed over, at that rung, and else leaves the cause that refused it |
| Outcomes.OpenLadder | cmd/remotemic/geometry.go:189-233 | an open forgets an escalation of another capture, drops ceiling and step below the lowest rung refused on the way, and leaves the capture-period condition up exactly as long as a larger period is in effect or still asked for |
| Outcomes.OpenCause | cmd/remotemic/appliance.go:246-285 | a failed open raises its cause over the one on record, rewriting a condition that reads alike, replacing another, and keeping the first cause of an outage being retried |
| Outcomes.PassOutcome | cmd/remotemic/retry.go:349-402 | a pass that attempts nothing moves a waiting restart on to its last settle exactly when every faulted stream it serves has encoded; a window that is over ends the outage, or waits exactly when one has not |
| Outcomes.DueOutcome | cmd/remotemic/retry.go:384-471 | a timer attempt serves into a settle window, or counts one failure more and backs off by the next delay |
| Outcomes.ForcedOutcome | cmd/remotemic/retry.go:493-511 | a forced restart that is not refused consumes any pending attempt and keeps the count, or starts it over |
| Outcomes.RefusedOutcome | cmd/remotemic/retry.go:493-511 | one that is refused refreshes the record and schedules the next attempt |
| Outcomes.StartOutcome | cmd/remotemic/appliance.go:778-789 | a start forgets the outage: serving, it clears the condition; failed, it is the first failure of a new one |
| Outcomes.DieOutcome | cmd/remotemic/appliance.go:999-1127 | a death records its cause; one that stays on the backoff records the stream whose encoder faulted, exactly the earlier ones and that one, and counts a shortfall at its own rung; a lost device stays off the backoff |
| LifecycleInvariant.StepKeepsInv | cmd/remotemic/retry.go:199-227 | every operation of the run loop keeps the coupling of record, condition, retry state, encode fault and ladder that no single operation establishes |
| LifecycleInvariant.RunKeepsInv | cmd/remotemic/retry.go:319-413 | that coupling holds at every point of every run of operations on a device |
| LifecycleInvariant.OpenKeepsBase | cmd/remotemic/appliance.go:590-720 | an open leaves either a serving record with its condition untouched or a skipped one with a cause on record, the ladder within bounds, and retry state and encode fault as they were |
| LifecycleInvariant.AttemptKeepsInv | cmd/remotemic/retry.go:434-471 | a restart attempt from a consumed retry state restores the coupling, whether it serves or not |
| LifecycleInvariant.StartKeepsInv | cmd/remotemic/appliance.go:778-789 | so does a fresh start, from any state |
| LifecycleInvariant.RestartKeepsInv | cmd/remotemic/retry.go:493-511 | so does the forced restart of a faulted device, refused or not, with or without a reset of its backoff |
| LifecycleInvariant.TickKeepsInv | cmd/remotemic/retry.go:352-402 | so does a device's share of a pass over the due retries |
| LifecycleInvariant.DieKeepsInv | cmd/remotemic/appliance.go:999-1127 | so does a pump that stops on its own, lost or failed while present |
| LifecycleRuns.EveryPointOfARun | cmd/remotemic/retry.go:342-402 | in every reachable state a retry state is in exactly one of its four modes, pending on a down record and the others on a serving one; down devices have an active condition, disabled and unconfigured ones none, serving ones exactly while their restart has not settled |
| LifecycleRuns.DefensiveGuardsHold | cmd/remotemic/retry.go:359-391 | the guards on a due settle and on a due attempt never fail |
| FaultRuns.FaultKept | cmd/remotemic/retry.go:91-109 | an encode fault survives an operation, with its condition active and its streams listed, exactly unless the operation is one of the four releases |
| FaultRuns.EncodeSeenHasWitness | cmd/remotemic/retry.go:349-382 | a proof under way goes back to a tick that saw every faulted stream encoded on the runtime that has served ever since, one settle window before its deadline |
| FaultRuns.FaultOutlivesAllButItsProof | cmd/remotemic/retry.go:91-109 | over every run, once a fault is recorded the down key stays active until a proof completes, a save changes the parameters, or the device is disabled or removed |
| ReportRuns.QuietStep | cmd/remotemic/appliance.go:246-285 | an operation of the backoff raises no fresh report of a device that stays down, except the one re-raise after an encode fault |
| ReportRuns.QuietEnds | cmd/remotemic/retry.go:361-402 | an operation of the backoff ends an outage, and clears its condition, exactly if it completes a settle |
| ReportRuns.OneReportPerOutage | cmd/remotemic/appliance.go:246-285 | until an operation completes a settle, an outage has its key active at every point and is reported once over any number of retries and deaths, at most twice with an encode fault |
| ReportRuns.SettlingSince | cmd/remotemic/retry.go:434-471 | a settle window under way was opened, one window before its deadline, by a timer attempt or a forced restart on the runtime that has served ever since |
| ReportRuns.RecoveryServedItsWindow | cmd/remotemic/retry.go:46-51 | a recovery without an encode fault comes no sooner than a full settle window after the attempt that opened the device, on the runtime that has served ever since |
| BackoffRuns.ScheduledBy | cmd/remotemic/retry.go:117-126 | a pending deadline was there before or lies one current delay after the operation that set it |
| BackoffRuns.PendingSince | cmd/remotemic/retry.go:199-227 | every pending deadline goes back to the operation that set it, with nothing touching it since |
| BackoffRuns.AttemptsAreSpaced | cmd/remotemic/retry.go:384-402 | two timer attempts of a device are at least the current backoff delay apart |
| BackoffRuns.FailureAdvances | cmd/remotemic/retry.go:206-224 | the count of attempts moves on by one exactly for a death or a failed open, and starts over exactly for a save, a fresh state, or a death ten minutes or more after the last recovery |
| BackoffRuns.BackoffGrows | cmd/remotemic/retry.go:117-126 | the delays never shrink as attempts grow, from five seconds to five minutes |
| Geometry.DescendServesHighest | cmd/remotemic/appliance.go:656-695 | the fallback loop serves exactly at the highest rung that opens below rungs whose failures allow a fallback, and reports the lowest rung refused |
| Geometry.NoLessAvailable | cmd/remotemic/geometry.go:61-78 | a device the default would have opened is served at any asked rung, exactly unless some rung on the way fails in a way that forbids falling back |
| LadderRuns.LadderStep | cmd/remotemic/geometry.go:161-200 | the ceiling never rises, a step rises only by a counted shortfall, and a refusal lowers the ceiling below the refused rung |
| LadderRuns.LadderBirth | cmd/remotemic/geometry.go:161-181 | an escalation is born only of a shortfall at the default, with one counted |
| LadderRuns.OpenedBy | cmd/remotemic/appliance.go:656-695 | every serving runtime goes back to the operation that opened it, and its record carries the rung that opened: the highest one that opens below rungs passed over, from the rung asked for |
| LadderRuns.TwoShortfallsPerRung | cmd/remotemic/geometry.go:161-181 | a step is raised only by the second of two shortfalls, neither forgotten in between, of runtimes whose opening operations each succeeded at exactly that step |
| LadderRuns.RefusedRungIsNotAskedAgain | cmd/remotemic/geometry.go:183-200 | once the driver refused a rung no later open asks for it or a higher one until the escalation is forgotten |
| LadderRuns.CapturePeriodConditionIsTrue | cmd/remotemic/geometry.go:202-233 | the capture-period condition is active only while an escalation exists, and a serving device with it active runs at an escalated rung |
| Pumps.ServedRecord | cmd/remotemic/appliance.go:699-720 | a runtime that opens, with its paths free and its hardware unowned, keeps pumps counted and paths and hardware exclusive |
| Pumps.StoppedRecord | cmd/remotemic/appliance.go:796-807 | a stopped runtime loses its paths at once and stays counted until its pump reports |
| Pumps.DiedRecord | cmd/remotemic/appliance.go:999-1009 | a pump that ends on its own takes its own paths and count with it, and no other's |
| Pumps.ReportedStop | cmd/remotemic/appliance.go:1000-1003 | the late result of a stopped pump changes only the counts |
| Pumps.ConfiguredPathsFree | cmd/remotemic/appliance.go:853-898 | while every live device is one the configuration lists, a configured device that is not live finds its paths free |
| Pumps.Conserved | cmd/remotemic/appliance.go:364-374 | live pumps are the live runtimes and the stopped ones yet to report; the mounted paths are exactly the live runtimes', each served by the current one; no two live devices share a hardware address |
| Reload.PlanIsComplete | internal/reload/plan.go:43-83 | a running device is stopped for good, stopped to be restarted, or kept: exactly one of the three |
| Reload.KeptExactly | internal/reload/plan.go:62-76 | a running device is left running exactly when the configuration lists it enabled with the id, rate, format and streams it runs with |
| Config.StableExactly | internal/config/config.go:319-333 | an id is stable exactly if it is, past leading whitespace, a usb: id or an hw: id that names a property |
| RunLoop.Appliance.MarkDown | cmd/remotemic/appliance.go:246-251 | the first of two causes the backoff retries keeps the condition; any other change of cause rewrites or replaces it |
| RunLoop.Appliance.ReplaceDown | cmd/remotemic/appliance.go:271-285 | one condition is rewritten in place, another resolves the old one and raises its own |
| RunLoop.Appliance.FinishRecovery | cmd/remotemic/retry.go:518-534 | the condition clears once, and a healthy device clears nothing |
| RunLoop.Appliance.ScheduleRetry | cmd/remotemic/retry.go:199-227 | the retry state moves as the specification says, or is dropped for a card index or a cause no retry fixes, and the timer covers every deadline |
| RunLoop.Appliance.DropRetry | cmd/remotemic/retry.go:252-258 | the state goes, and the timer covers what is left |
| RunLoop.Appliance.EarliestDeadline | cmd/remotemic/retry.go:266-277 | the earliest of every pending attempt and settle, none exactly when there is none |
| RunLoop.Appliance.ArmRetryTimer | cmd/remotemic/retry.go:266-290 | the timer is armed at or before every deadline, or a signal is pending |
| RunLoop.Appliance.GeometryStep | cmd/remotemic/geometry.go:121-131 | the rung asked for is the earned one, and a rung earned under another capture identity is dropped with its condition |
| RunLoop.Appliance.GeometryRunEnded | cmd/remotemic/geometry.go:136-152 | a run of an hour forgets the escalation and clears its condition |
| RunLoop.Appliance.GeometryShortfall | cmd/remotemic/geometry.go:161-181 | a shortfall counts only at the current rung below the ceiling, and the second raises it |
| RunLoop.Appliance.GeometryRefuse | cmd/remotemic/geometry.go:189-200 | a refusal lowers ceiling and step below the refused rung and forgets the count |
| RunLoop.Appliance.GeometryOpened | cmd/remotemic/geometry.go:212-233 | the condition follows the rung in effect, but for a transient fallback |
| RunLoop.Appliance.HardwareOwner | cmd/remotemic/appliance.go:364-374 | some other live device holds the address, exactly when one is returned |
| RunLoop.Appliance.OpenRefused | cmd/remotemic/appliance.go:583-585 | refused exactly when an open would be before it opens anything |
| RunLoop.Appliance.RefreshHardware | cmd/remotemic/appliance.go:319-357 | every configured id reads as the host resolves it now |
| RunLoop.Appliance.OpenDescending | cmd/remotemic/appliance.go:656-674 | the loop over step, error and lowest refusal is the descent of module Geometry |
| RunLoop.Appliance.OpenAndStart | cmd/remotemic/appliance.go:590-720 | the maps move as the specification says of the world's answer, no other device's do, and pumps, paths and hardware stay exclusive |
| RunLoop.Appliance.SkipDevice | cmd/remotemic/appliance.go:738-760 | a refused or failed open leaves a skipped record with its cause and the condition marked |
| RunLoop.Appliance.StartDevice | cmd/remotemic/appliance.go:778-789 | a start forgets the outage, opens, and clears the condition or schedules the first retry |
| RunLoop.Appliance.AttemptRetry | cmd/remotemic/retry.go:434-471 | an attempt that serves starts its settle and, after an encode fault, asks its stages to wake the loop; one that fails schedules the next |
| RunLoop.Appliance.RestartFaulted | cmd/remotemic/retry.go:493-511 | a refused restart only refreshes the record; another consumes the pending attempt and keeps the fault |
| RunLoop.Appliance.Stop | cmd/remotemic/appliance.go:796-807 | the runtime is marked superseded, its long run forgets the escalation, and its paths go |
| RunLoop.Appliance.ServeDue | cmd/remotemic/retry.go:342-402 | one device's share of the pass: an encode wait, a settle or an attempt, with ids resolved once before the first attempt |
| RunLoop.Appliance.OnRetryDue | cmd/remotemic/retry.go:319-413 | every device with a retry takes exactly one share of the pass, refused for contested hardware exactly if another device holds it at its turn; no deadline at or before the pass is left, nothing is pruned in a reachable state, and the timer is armed for the earliest of the rest, never for one already past; a restart that waits for its encoders moves on exactly when every faulted stream it serves has encoded |
| RunLoop.Appliance.PumpDied | cmd/remotemic/appliance.go:1004-1126 | a death marks the record failed, ends the run for the ladder, and either drops the retry of a lost device or schedules one and blames the stream |
| RunLoop.Appliance.OnPumpDone | cmd/remotemic/appliance.go:999-1127 | a superseded pump's result changes only the counts; any other is one recorded death of its own device, with the outcome of a death: the encode fault on record holds exactly the earlier streams and the one blamed, or is untouched; and so is every other device |
| RunLoop.Appliance.StopPlanned | cmd/remotemic/appliance.go:867-879 | exactly the running devices the plan does not keep are stopped, all of them before any start, and what still runs is what the configuration lists |
| RunLoop.Appliance.Launch | cmd/remotemic/appliance.go:883-899 | a device in the start pass is restarted as faulted exactly when its fault is under the saved parameters |
| RunLoop.Appliance.ReconcileRecords | cmd/remotemic/appliance.go:924-972 | afterwards the records match the configuration one to one, and disabled and removed devices have lost all their state |
| RunLoop.Appliance.Reconcile | cmd/remotemic/appliance.go:814-918 | a save gives each device exactly the operations its change calls for: nothing while it runs unchanged, a stop and a start when its parameters changed, a restart as faulted or a fresh start when it was down, and its stop and disposal otherwise; two devices that resolve to one piece of hardware get it in the order of kept, restarted and started devices, each group in the order of the configuration |
| RunLoop.Appliance.RetryDown | cmd/remotemic/appliance.go:1145-1187 | a hardware change restarts exactly the enabled devices that are down under a stable id, as faulted while a fault is on record, each refused for contested hardware exactly if another device holds it at its turn |
| Traces.Turn | cmd/remotemic/appliance.go:839-851 | a device whose turn comes finds its hardware held exactly if the records it leaves show it captured by a device the pass kept or one whose turn came before, and no later turn changes that for those before it |
| RunLoop.Appliance.FrameEncoded | cmd/remotemic/main.go:156-164 | a stream's first frame sets its flag and wakes a waiting loop, and a later one changes nothing |
| RunLoop.Appliance.TracesAreRuns | cmd/remotemic/appliance.go:62-65 | in every reachable state each device's maps are where a run of operations led, so what holds of all runs holds of every device |
| RunLoop.Appliance.StateIsSound | cmd/remotemic/retry.go:342-402 | the same coupling read off the maps: modes, conditions, faults, and nothing under a name that is not an enabled device |
| RunLoop.Appliance.PumpsAreConserved | cmd/remotemic/appliance.go:999-1009 | conservation and exclusivity read off the fields, after every event |
| Wakeup.NextKeepsInv | cmd/remotemic/main.go:225-242 | every load, store and channel step of a stage or the loop keeps a wakeup on its way for every flag the loop read unset |
| Wakeup.NoLostWakeup | cmd/remotemic/main.go:153-164 | over all interleavings, passes before the settle is due among them, a restart that waits while every faulted stream has encoded has a signal pending or a stage about to send one |
| Wakeup.NoLostWakeupInPass | cmd/remotemic/retry.go:361-380 | nor is the wakeup lost while a pass is deciding to wait |
| Wakeup.WakeArrives | cmd/remotemic/main.go:156-164 | a stage about to wake the loop does so with its own next steps, whatever else runs in between |
| Wakeup.PassProves | cmd/remotemic/retry.go:349-377 | a pass that reads the flags once every faulted stream has encoded decides that they are proven |
| Wakeup.StateIsHistory | cmd/remotemic/main.go:153-164 | a flag is set exactly once a stage stored it, the stages are awaited exactly once the loop asked, and a signal is pending exactly if one was sent since the last pass began |
| Wakeup.StageFollows | cmd/remotemic/main.go:225-242 | a stage sets its flag at its first frame, then checks, then wakes the loop exactly if the loop had asked by then |
| Wakeup.DecidesExactly | cmd/remotemic/retry.go:349-380 | a pass decides that the encoders are proven only once every faulted stream has encoded, that it waits exactly if it read a flag unset, and looks only at a restart that waits or whose window is over |
| TokenRegister.NextKeepsInv | cmd/remotemic/management_retry.go:182-238 | every step of the supervisor, the API and the token commands keeps lock and phase in agreement, and leaves a store that handlers can save from behind the file exactly if it brings an API up on a configuration that is not the file's |
| TokenRegister.EditsAreSafe | cmd/remotemic/management.go:891-912 | in every run the lock invites a file edit only while no handler can save and no attempt has read the file |
| TokenRegister.StaleStep | cmd/remotemic/management_retry.go:195-214 | a move leaves an attempt about to seed its API from something other than the file exactly if it misreads the file, or the attempt was so already and the move does not end it |
| TokenRegister.StaleSince | cmd/remotemic/management_retry.go:158-165 | an attempt about to seed its API from something other than the file goes back to its own misread of it |
| TokenRegister.StaysStale | cmd/remotemic/management_retry.go:158-165 | and a misread attempt stays so until it ends |
| TokenRegister.StoreIsFileExactly | cmd/remotemic/management_retry.go:195-229 | at every point of a run up to any given one a serving API's store equals the file, across deaths, failed attempts, misreads and recoveries, exactly when no attempt came up on a file it had misread as missing |
| TokenRegister.MisreadThatFails | cmd/remotemic/management_retry.go:198-205 | a run whose attempt misreads the file and fails: the next one reads the edit and serves it |
| TokenRegister.ReloadsExactly | cmd/remotemic/management_retry.go:195-214 | an attempt goes on past its reload exactly if the file is missing, or is the one it holds, or applies, and then holds the file it found; else it fails |
| TokenRegister.MisreadNeedsEdit | cmd/remotemic/management_retry.go:158-165 | an attempt can be behind the file only by a token edit made since the last API drained or the process started: what an API saved is never misread |
| TokenRegister.QuietUntilExit | cmd/remotemic/management_retry.go:206-220 | an API the configuration disables stays off until the process ends |
| TokenRegister.DeadUntilReload | cmd/remotemic/management.go:891-912 | an API that stopped on its own serves no more, and none comes up before an attempt reloads the file |
| TokenRegister.FileIsEveryChange | internal/mgmtserver/config.go:319-350 | at every point up to any given one the file is every change written, merged in order, exactly when no API that merges into the configuration it holds saved back a field the file has otherwise; and none does unless an attempt came up on a misread file |
| TokenRegister.TokenIsLastChange | cmd/remotemic/token.go:421-468 | the token on disk is the last one asked for and written at every point up to any given one, exactly when no API saved an earlier one back |
| TokenRegister.ReportedChangeSurvives | cmd/remotemic/token.go:492-507 | a token change reported successful is on disk until a later token change is written, unless an API saved an earlier one back, which takes an attempt that came up on a misread file |
| TokenRegister.StepTracks | cmd/remotemic/token.go:455-467 | a move takes the token on disk away from the last one reported exactly if it is a live change to another token that is saved and whose answer is lost, or saves an earlier token back; a reported token brings it back |
| TokenRegister.KnownExactly | cmd/remotemic/token.go:455-467 | in every run the token on disk is the last one reported at every point up to any given one exactly when no move before it does either |
| TokenRegister.LostUntilWritten | cmd/remotemic/token.go:455-467 | once it is not, it stays so until a token is written again or saved back |
| TokenRegister.LostAnswer | cmd/remotemic/token.go:455-462 | a run with a lost answer and no misread |
| TokenRegister.MisreadLosesAnEdit | cmd/remotemic/management_retry.go:158-165 | the run that shows the cost of a served misread: a reported edit, the last asked for, reverted by the next save of anything else |
| ExitDecision.NextKeepsInv | cmd/remotemic/main.go:938-963 | every step of pumps, supervisor and loop keeps a reason to stay up or a way to notice there is none |
| ExitDecision.NeverSticks | cmd/remotemic/main.go:853-895 | between turns a pump is alive, the handle keeps the process up, or a signal is pending, exactly unless no pump is alive and the supervisor stands between marking the handle and signalling, which it does next |
| ExitDecision.StandsBetween | cmd/remotemic/management_retry.go:106-114 | a run that stands there |
| ExitDecision.LostSignalEnds | cmd/remotemic/main.go:957-963 | with nothing left and the supervisor gone the signal is pending, and taking it ends the loop |
| ExitDecision.NeverExitsEarly | cmd/remotemic/main.go:918-951 | the exit decision of a turn ends the loop only with no pump alive and the API disabled or given up |
| ExitDecision.DecidesExactly | cmd/remotemic/main.go:918-963 | a startup ends the process exactly if nothing serves, and a turn that takes a pump's end or the supervisor's signal exactly if no pump is left and nothing keeps the process up |
| ExitDecision.StateIsHistory | cmd/remotemic/main.go:918-963 | every pump is counted from its start until the loop takes its result, and each flag is what the last move that set or cleared it left |
| ExitDecision.GivesUpInOrder | cmd/remotemic/management_retry.go:106-114 | the supervisor gives up only with the API enabled, none serving and no shutdown begun, and then marks and signals, once each and in that order |
| FanOut.GapIsWhatWasSkipped | internal/audio/source.go:16-23 | the gap in position between two consecutive periods is the frames of exactly the periods read between them, modulo the 64-bit counter |
| FanOut.Consumer.Offer | internal/audio/fanout.go:141-183 | one period goes to one consumer: skipped while idle, dropped when eight are queued, else queued with its session, and every read stays accounted for |
| FanOut.Consumer.Read | internal/audio/fanout.go:209-215 | periods come out in the order they were sent, and the end of the feed only after the last of them |
| FanOut.Fanout.Distribute | internal/audio/fanout.go:141-183 | each consumer is offered the period at the position of every earlier read, sent or not, and reads stay sent plus dropped plus idle for each |
| FanOut.Fanout.Run | internal/audio/fanout.go:108-120 | over any run, with any interleaving of gate flips and consumer reads, every read stays accounted for and positioned for every consumer, and the feeds close when the source ends |
| FanOut.Fanout.CloseConsumers | internal/audio/fanout.go:187-191 | every feed is closed, and what was queued is still there to read |
| Samples.SampleIsTwosComplement | internal/audio/convert.go:3-34 | a sample is the two's complement value of its little-endian bytes, in each format |
| Samples.KeptBytesAreShift | internal/audio/convert.go:3-34 | in every wide format the two kept bytes are the arithmetic right shift of the sample |
| Samples.DownconvertS32ToS16 | internal/audio/convert.go:11-21 | every whole 32-bit sample is reduced to its shift by 16, a partial one is ignored, and the rest of the buffer is left alone |
| Samples.DownconvertS24ToS16 | internal/audio/convert.go:35-45 | every whole 24-bit sample, packed or in words, is reduced to its shift by 8 |
| Samples.PaddingIgnored | internal/audio/convert.go:23-34 | the padding byte of a 24-bit word does not matter |
| Samples.SelectingSource.Read | internal/audio/capture.go:300-327 | the reused buffer starts with the selected channels of every frame, and the capture is not touched |
| Samples.SelectedSample | internal/audio/capture.go:300-327 | sample (f, j) delivered is the sample of the j-th selected channel in frame f, both bytes of it |
| Samples.DeliveredIsShift | internal/audio/capture.go:390-397 | end to end, the sample delivered is the captured sample of that channel and frame shifted right to 16 bits |
| Samples.NativeIsExact | internal/audio/capture.go:333-339 | a 16-bit capture is delivered sample for sample |
| Samples.NewSelectingSource | internal/audio/capture.go:277-296 | the capture is passed through unwrapped exactly when the selection is every channel in order |
| Samples.PassthroughIsCopy | internal/audio/capture.go:277-296 | and then it is what the strided copy would deliver |
| Names.FoldsAlikeExactly | internal/announce/announce.go:96-105 | two valid names are taken for one exactly if they differ in nothing but the case of their ASCII letters |
| Names.FoldsRune | internal/announce/announce.go:96-105 | folding goes code point by code point, and changes none but ASCII capitals |
| Names.FoldsToReplacement | internal/announce/announce.go:96-105 | a byte that begins no encoding folds to U+FFFD, as mapping a Go string does |
| Names.FoldJoins | internal/announce/announce.go:96-105 | folding ASCII case goes piece by piece across an ASCII boundary, even after bytes that encode nothing |
| Names.CutName | internal/announce/announce.go:110-119 | the two loops cut at the last rune start within the limit and trim the spaces left there |
| Names.CutFits | internal/announce/announce.go:107-119 | a cut name is a prefix within the limit at the last rune boundary that fits, still valid UTF-8, and a name that fits is not touched |
| Names.LabelFits | cmd/remotemic/main.go:1102-1117 | a label fits the budget, is cut only between runes, and keeps the suffix that tells a device's streams apart |
| Names.CandidatesDiffer | internal/announce/announce.go:86-89 | different numbers make names that DNS tells apart |
| Names.FirstFree | internal/announce/announce.go:86-90 | the loop ends by pigeonhole on the names taken, with the name itself when it is free and else with the first candidate that is |
| Names.DistinctNames | internal/announce/announce.go:81-94 | the names are pairwise distinct as DNS compares them; one not taken by an earlier name is kept, and one that is becomes its first candidate not taken |
| Names.AdvertisedFits | internal/announce/announce.go:28-35 | names that fit the budget are advertised under names that fit it, cut only between runes |
| Names.AdvertisedNames | internal/announce/announce.go:76-94 | the names advertised for any list of streams are distinct, fit the budget, are cut only between runes; a label not taken is advertised as it is, and one that is as its first candidate not taken |
| Utf8.WholeExactly | internal/announce/announce.go:96-105 | what reads as a whole encoding is exactly the encoding of a code point that is no surrogate, as section 3 of RFC 3629 has it |
| Utf8.CutAtRuneStart | internal/announce/announce.go:114-117 | the prefix of valid UTF-8 up to where a rune starts is valid |
| TokenGuard.SwapInstalls | internal/auth/guard.go:70-86 | a successful swap installs its setter's token, at the next generation exactly if it differs from the token held; nothing else changes what readers see |
| TokenGuard.SetRetries | internal/auth/guard.go:70-86 | a Set loads, swaps, and after a lost swap loads again with the same token, until one wins |
| TokenGuard.TokenIsLastSet | internal/auth/guard.go:61-69 | over every run the token readers see is the one the last successful Set was called with |
| TokenGuard.OpenUntilSet | internal/auth/guard.go:61-69 | and before the first it is none |
| TokenGuard.GenerationCountsChanges | internal/auth/guard.go:70-86 | the generation advances exactly once per change of the token, in swap order, modulo the 64-bit counter |
| TokenGuard.EqualGenerationsMeanNoChange | internal/auth/guard.go:32-38 | two snapshots of equal generation saw one token with no change between, even away and back, exactly unless the counter wrapped all the way round |
| TokenGuard.FailureMeansProgress | internal/auth/guard.go:81-84 | a failed swap lost to another setter's that succeeded since the load |
| TokenGuard.HeldIsReal | internal/auth/guard.go:47-51 | the pair a setter loaded is one the guard held, and is unchanged while it is held |
| TokenGuard.SucceedsExactly | internal/auth/guard.go:70-86 | a swap succeeds exactly when no pair was installed since its load, even if the token came back |
| Certificates.Store.WritePairToDisk | internal/mgmtcert/install.go:144-174 | a failure to stage either file leaves the pair as it was, success leaves both files of the new one, and no staging file outlives the write unless it cannot be removed |
| Certificates.Store.Install | internal/mgmtcert/install.go:107-132 | nothing is written of a pair that fails validation; a completed install leaves the validated pair and its marker, and the pair parses |
| Certificates.Store.Regenerate | internal/mgmtcert/install.go:76-88 | the pin goes only once the fresh pair is written |
| Certificates.Store.EnsureOnDisk | internal/mgmtcert/cert.go:48-87 | a start refuses a pinned pair that may be there unread, serves a pinned pair that parses and an unpinned one in date and good for every name, and else generates one, for the carried names exactly if the old one is in date; what it leaves of both files and the pin, with every fault of the write |
| Certificates.ReusedExactly | internal/mgmtcert/cert.go:64-87 | an unpinned pair is reused exactly when both files are read, they match, and the certificate is in date and good for every current name; in every other case a new one is generated |
| Certificates.PinnedReplacedExactly | internal/mgmtcert/cert.go:52-86 | a pinned pair is replaced exactly when neither file can be there unread and what was read does not parse |
| Certificates.InstalledSurvives | internal/mgmtcert/cert.go:48-87 | an installed pair that parses survives every sequence of starts under read faults, dangling links, expiry and changed names, and each start serves it or refuses |
| Certificates.ServedExactly | internal/mgmtcert/cert.go:100-135 | an installed pair behind symlinks is served exactly when every link has its target, and refused until then |
| Certificates.CarryForward | internal/mgmtcert/install.go:324-344 | the names are the union of hosts and carried names, each once and none empty, hosts first |
| Certificates.SubjectNames | internal/mgmtcert/cert.go:214-220 | IP literals become IP names and the rest DNS names |
| Certificates.GeneratedKeeps | internal/mgmtcert/install.go:320-344 | a certificate generated for carried names has every IP of the old one, and exactly those of its DNS names that are neither empty nor IP literals, which come back as IPs |
| Certificates.StartKeepsNames | internal/mgmtcert/cert.go:64-76 | a start that finds an in-date unpinned pair leaves it alone, or replaces it by one that keeps those names, unless the write fails between its two renames |
| Certificates.ExpiredStartsOver | internal/mgmtcert/cert.go:58-61 | a broken or expired unpinned pair is replaced by one for the appliance's own names alone |
| Certificates.CarriedNamesSurvive | internal/mgmtcert/cert.go:56-61 | over any sequence of starts, an unpinned certificate that stays in date never loses an IP it carried, and keeps a DNS name exactly if it is neither empty nor an IP literal or no new pair was written |
| Certificates.BadNamesAreNotKept | internal/mgmtcert/cert.go:214-220 | a start that drops an empty DNS name and turns an IP literal into an IP |

## Left out

- The mDNS advertisement's bookkeeping (which devices are advertised, when it is rebuilt), the provider's published
  snapshot, and arming the enumeration retry: they read the state modelled here and change none of it.
- Log lines, their gating by failure count, and the wording of notifications; only the events and their keys are kept.
- The capability cache, the meters, and the formats and rates negotiated at an open: ALSA and the capture library are
  arbitrary answers.
- Shutdown of the run loop: the invariants are stated for runs before it, and a pump that ends on its own carries an
  error.
- A device runtime is a value with a unique identity rather than an object the run loop and its pump share; a result
  names the runtime it belongs to.
- The clock advances between events and while a device opens, not within other steps of an event.
- The wakeup model covers one restarted runtime at a time; a death starts a new one.
- A run lock that cannot be written, and the retry that writes it later: lock writes succeed in the model.
- A token command's lock read and its action are one step; a command that acts on what it read earlier is
  not modelled.
- The delays between attempts to bring the management API back, and the wording of its condition.
- HTTP, TLS and the drain of a dead API's handlers: a drain completes, and until then its handlers may still save.
- The fan-out's queued periods hold their bytes as values, so that consumers share one copy of the upstream buffer is
  not modelled.
- The drop counter a stream shares with its clients counts only the fan-out's drops.
- X.509 and IP parsing, host verification, the validation of an uploaded pair and key generation are functions given
  to the model, constrained only to agree with each other; the limits on extra names are not part of it.
- Directory synchronisation and power loss: a rename that succeeded stays. A symlink whose target is there resolves.
- Configuration decoding and its range checks; a saved configuration is valid: unique names, ids and paths.
- The host monitors, the release updater, the CLI, systemd integration, levels and stream-flap detection.
