# GRR AFF4 cron scheduler, modelled in Dafny

This project models GRR's AFF4 cron scheduler: the job record and its state
machine (`CronJob`), the manager operations over the store of job records
(`CronManager`), and the registration of the built-in system cron flows
(`ScheduleSystemCronFlows`).

A job record holds its arguments (periodicity, lifetime, overrun policy,
start time, payload), a `disabled` flag, the URN of the flow it currently
tracks, the time that flow was started, the versioned list of run
statuses, the state dictionary of stateful system jobs, and the flows it
started (its run history). An evaluation of a job (`Run`) checks the lock,
kills a flow that overran its lifetime, records the outcome of a flow that
finished, and starts a new flow when forced or due.

Everything is a pure function:

- the clock is a parameter `now`;
- the execution engine is a snapshot `Engine = map<FlowUrn, FlowState>`. A
  URN missing from the map is one the engine cannot open;
- the URN a new flow would get is a parameter: `launch` for one
  evaluation (None means starting the flow raises), and `launches`, a queue
  of URNs per job, for a polling pass. Each start takes the next URN of the
  job's queue, and starting from an empty queue raises. A flow started
  during a pass is running for the rest of that pass;
- the leases other workers hold during a polling pass are a set of job ids;
- the order `ListJobs` and the flow registry enumerate their entries is a
  parameter (`listing`, `registryOrder`);
- the store's age test for run history is a parameter `older(created, cutoff)`.

Conventions:

- Timestamps are `int` and durations `nat`, in one unit (seconds).
- `Expiry(t, periodicity) = t + periodicity`.
- A lifetime of 0 means unset, and so does a start time of 0. The source
  tests both for truthiness.
- A `Run` returns the record as persisted, the flow it asked the engine to
  terminate, the flow it started, and the exception it raised, if any.

Files: `wrappers.dfy` (Option, Result), `cron_job.dfy` (record and state
machine), `cron_job_properties.dfy`, `cron_manager.dfy`,
`cron_manager_properties.dfy`, `system_cron.dfy`.

At these points the model follows the code as written:

- a forced run starts even when the job is disabled, and it replaces a
  tracked flow without terminating it;
- the timeout check fires only when the engine reports the tracked flow
  running;
- enabling and disabling a job do not take its lease;
- `ScheduleSystemCronFlows` does not carry an existing start time forward,
  although the comment above that code says it should.

## Model

| member | source | states |
|---|---|---|
| CronJobs.NewJob | grr/server/grr_response_server/aff4_objects/cronjobs.py:77-82 | A newly created record tracks no flow, has never run, and has no statuses, state or run history |
| CronJobs.LastStatus | grr/server/grr_response_server/aff4_objects/cronjobs.py:378-383 | The last run status is unset exactly when no status was ever recorded; otherwise it is the most recently recorded status |
| CronJobProperties.LastStatusIsNewest | grr/server/grr_response_server/aff4_objects/cronjobs.py:378-383 | After a status is recorded, the last status is that status |
| CronJobs.DueToRun | grr/server/grr_response_server/aff4_objects/cronjobs.py:410-439 | A disabled job is never due. A job is never due before its start time. With a recorded last run, the job is due only strictly after that run's expiry. Without overruns, a job is due only when no flow is tracked. Conversely, a job meeting all of these conditions is due |
| CronJobs.IsRunning | grr/server/grr_response_server/aff4_objects/cronjobs.py:392-408 | The answer is "running" exactly when the tracked flow can be opened and its runner reports it running. An unopenable flow is dropped from the record. Nothing else is written |
| CronJobs.StopCurrentRun | grr/server/grr_response_server/aff4_objects/cronjobs.py:441-451 | When a flow is tracked: it is terminated, TIMEOUT is appended to the statuses, and the flow is no longer tracked. With no flow tracked the record is unchanged |
| CronJobs.KillOldFlows | grr/server/grr_response_server/aff4_objects/cronjobs.py:453-475 | The tracked flow is terminated exactly when the engine reports it running, a lifetime is set, and now minus the last run time exceeds that lifetime. It then gets status TIMEOUT. Otherwise the only possible change is that an unopenable flow is dropped without a status. A running flow with no recorded start time raises, and this cannot happen on a valid record |
| CronJobs.FinishedStatus | grr/server/grr_response_server/aff4_objects/cronjobs.py:502-514 | A finished flow is recorded as ERROR exactly when its runner state is ERROR; it is never recorded as TIMEOUT |
| CronJobs.ReapFinished | grr/server/grr_response_server/aff4_objects/cronjobs.py:497-522 | A tracked flow that is no longer running is recorded (ERROR exactly when its runner failed, OK otherwise) and stops being tracked. On the OK path, a record without a start time raises when the latency is computed: the status stays appended and the flow stays tracked. A running flow, or no flow, leaves the record unchanged. Only the tracked flow and the statuses change, and a valid record never raises |
| CronJobs.Started | grr/server/grr_response_server/aff4_objects/cronjobs.py:527-539 | A start tracks the new flow, sets the last run time to now and files the flow under the job. Nothing else changes |
| CronJobs.Run | grr/server/grr_response_server/aff4_objects/cronjobs.py:477-539 | Without the lock the call raises LockError and changes nothing. Arguments, the disabled flag and the state dictionary are never written. At most one status is appended, and none when no flow was tracked. A start sets the tracked flow and the last run time to now; without a start, the last run time and run history are untouched and the tracked flow is kept or dropped, never replaced. Unforced, a disabled job never starts, and a start happens only once the start time is reached and the last run's period is over. An evaluation that neither starts nor raises was unforced and left a job that is not due. A forced evaluation of a valid record, and an evaluation of a due job tracking no flow, start the flow the engine hands out. Validity is preserved |
| CronJobs.RunIgnoresOtherFlows | grr/server/grr_response_server/aff4_objects/cronjobs.py:392-522 | An evaluation depends on the engine only through the job's own tracked flow |
| CronJobProperties.NotDueWithinPeriod | grr/server/grr_response_server/aff4_objects/cronjobs.py:423-425 | After a start at `now`, the job is not due at any time up to `now` plus one period |
| CronJobProperties.TimeoutReapedOnNextEvaluation | grr/server/grr_response_server/aff4_objects/cronjobs.py:459-468 | A running flow past its set lifetime is terminated by the next locked evaluation and recorded as TIMEOUT, whether or not the job is due. It stays untracked unless a new flow starts in the same call |
| CronJobProperties.RunningFlowLeftAlone | grr/server/grr_response_server/aff4_objects/cronjobs.py:497-525 | A flow running within its lifetime, in a job without overruns, makes an unforced evaluation a no-op |
| CronJobProperties.NoOverlappingStart | grr/server/grr_response_server/aff4_objects/cronjobs.py:431-437 | Without overruns, an unforced start over a tracked flow happens only after that flow was reaped: it was unopenable, it had finished, or it was terminated |
| CronJobProperties.TimedOutJobRestartsInSameCall | grr/server/grr_response_server/aff4_objects/cronjobs.py:495-539 | A job that was not due before the call (its flow was running) can be timed out and restarted in the same call |
| CronJobProperties.ForceOverwritesRunningFlow | grr/server/grr_response_server/aff4_objects/cronjobs.py:524-537 | A forced evaluation starts a flow over a running one, even for a disabled job. The old flow is not terminated and no status is written |
| CronJobProperties.FinishedFlowRecorded | grr/server/grr_response_server/aff4_objects/cronjobs.py:499-522 | On a valid record, a finished flow's last status is ERROR exactly when the engine reports it failed, and OK otherwise. It stays untracked unless a new flow starts |
| CronJobProperties.FinishedOkWithoutStartTimeRaises | grr/server/grr_response_server/aff4_objects/cronjobs.py:511-521 | A flow that finished OK on a record without a start time gets status OK, after which the evaluation raises: the flow stays tracked and nothing starts, even when forced |
| CronJobProperties.UnopenableFlowDroppedSilently | grr/server/grr_response_server/aff4_objects/cronjobs.py:398-406 | An unopenable flow is dropped without any status being recorded |
| CronJobProperties.FirstRunThenWait | grr/server/grr_response_server/aff4_objects/cronjobs.py:424-437 | A job that never ran and whose start time has passed is due, and running it tracks the new flow at `now`. Re-evaluating it within one period while that flow runs starts nothing |
| CronJobProperties.DueStaysDue | grr/server/grr_response_server/aff4_objects/cronjobs.py:424-428 | On an unchanged record, a later clock never makes a due job undue |
| CronManager.Decimal | grr/server/grr_response_server/aff4_objects/cronjobs.py:57 | The decimal rendering of a number is non-empty and all digits, it is one digit long exactly for numbers below ten, and it starts with 0 only for 0 itself (no leading zeros) |
| CronManager.DecimalRoundTrip | grr/server/grr_response_server/aff4_objects/cronjobs.py:57 | Reading back the decimal rendering yields the number |
| CronManager.JobIdFor | grr/server/grr_response_server/aff4_objects/cronjobs.py:55-57 | A given non-empty id is used as is. Otherwise the id is the flow name, an underscore, and the decimal rendering of the 16-bit random number, which reads back as that number |
| CronManager.ArgsFromRequest | grr/server/grr_response_server/aff4_objects/cronjobs.py:59-74 | The stored arguments carry the request's description, frequency, lifetime and overrun policy, and no start time. The payload is a generic hunt of the requested flow |
| CronManager.Upsert | grr/server/grr_response_server/aff4_objects/cronjobs.py:77-93 | The record `id` is created or kept. Its arguments become the given ones and are written only if they differ. Its disabled flag becomes "not enabled". An existing record keeps its run state. Other records are unchanged |
| CronManager.CreateJob | grr/server/grr_response_server/aff4_objects/cronjobs.py:42-95 | Creating or redefining a job keeps an existing non-zero start time, and the start time is unset otherwise. The other arguments come from the request, the disabled flag is "not enabled", the run state is kept, the arguments are rewritten only if they differ, and other jobs are unchanged |
| CronManager.SetDisabled | grr/server/grr_response_server/aff4_objects/cronjobs.py:117-131 | On an existing job, only that job's disabled flag changes. A missing job raises |
| CronManager.EnableJob | grr/server/grr_response_server/aff4_objects/cronjobs.py:117-123 | The job becomes enabled and nothing else changes. A missing job raises |
| CronManager.DisableJob | grr/server/grr_response_server/aff4_objects/cronjobs.py:125-131 | The job becomes disabled and nothing else changes. A missing job raises |
| CronManager.DeleteJob | grr/server/grr_response_server/aff4_objects/cronjobs.py:133-136 | The job is removed and every other job is kept unchanged |
| CronManager.ProcessJob | grr/server/grr_response_server/aff4_objects/cronjobs.py:149-164 | A job leased elsewhere is skipped without error. A name with no job behind it counts one error. Otherwise the job is evaluated under its lease, and an error is counted when the evaluation raises. A flow it starts is the job's next launch, is running for the rest of the pass, and is used up. No other job changes |
| CronManager.ProcessJobKeepsOthers | grr/server/grr_response_server/aff4_objects/cronjobs.py:149-164 | When the launches are fresh (new to the engine, tracked by no job, all distinct), processing one job keeps them fresh and changes the evaluation of no other job |
| CronManager.RunEach | grr/server/grr_response_server/aff4_objects/cronjobs.py:149-164 | A job leased elsewhere, or not named, is unchanged. With fresh launches, a job named once ends up evaluated from its original record and the original engine, whatever the other jobs raised or started. Validity is preserved |
| CronManager.RunOnce | grr/server/grr_response_server/aff4_objects/cronjobs.py:138-164 | With no names given, every job not leased elsewhere is evaluated. With names given, unnamed jobs are untouched and each job named once is evaluated. Leased jobs are never changed. With fresh launches and no repeated names, the error count is the number of jobs whose evaluation raises or that do not exist. Validity is preserved |
| CronManager.ListingCountsOnce | grr/server/grr_response_server/aff4_objects/cronjobs.py:97-100 | A listing of the store names every job exactly once |
| CronManager.RunEachCountsFailures | grr/server/grr_response_server/aff4_objects/cronjobs.py:149-164 | Over names without repeats and with fresh launches, the error count is exactly the number of named jobs whose evaluation raises, each evaluated from the original state |
| CronManager.FilterChildren | grr/server/grr_response_server/aff4_objects/cronjobs.py:171 | The selected children are exactly those passing the test, each as many times as in the input. When every child passes, the sequence is unchanged |
| CronManager.FilterSplits | grr/server/grr_response_server/aff4_objects/cronjobs.py:171-176 | Every child falls on exactly one side of the age test |
| CronManager.DeleteOldRuns | grr/server/grr_response_server/aff4_objects/cronjobs.py:166-176 | A missing cutoff raises. Otherwise exactly the runs older than the cutoff are destroyed and removed, the rest are kept, the removed and the kept runs together are the original runs with their multiplicities, the returned count is the number removed, and nothing else in the record changes |
| CronManager.ReadCronState | grr/server/grr_response_server/aff4_objects/cronjobs.py:229-239 | The state of an existing job is returned; a missing job raises StateReadError |
| CronManager.WriteCronState | grr/server/grr_response_server/aff4_objects/cronjobs.py:241-250 | An empty state is never written, even for a missing job. Otherwise the write waits for the job's lease and raises when that wait runs out. Once the lease is had, only the job's state dictionary is replaced, and a missing job raises StateWriteError |
| CronManagerProperties.WrittenStateReadBack | grr/server/grr_response_server/aff4_objects/cronjobs.py:229-250 | A non-empty state written to an existing job is what reading that job's state returns |
| CronManagerProperties.CreateJobIdempotent | grr/server/grr_response_server/aff4_objects/cronjobs.py:84-93 | Repeating the same creation writes no arguments and leaves the store unchanged |
| CronManagerProperties.RedefinitionKeepsSchedule | grr/server/grr_response_server/aff4_objects/cronjobs.py:84-88 | Redefining a job whose start time is set keeps that start time and its run state |
| CronManagerProperties.DisableThenEnableRestores | grr/server/grr_response_server/aff4_objects/cronjobs.py:117-131 | Disabling an enabled job and enabling it again gives back the original store |
| CronManagerProperties.DisabledJobNeverStarts | grr/server/grr_response_server/aff4_objects/cronjobs.py:416-417 | After disabling, the job is not due and an unforced evaluation starts nothing |
| CronManagerProperties.ManagementKeepsValid | grr/server/grr_response_server/aff4_objects/cronjobs.py:77-131 | Creating, enabling and disabling jobs keep every record valid |
| CronManagerProperties.ValidPassRaisesOnlyOnStart | grr/server/grr_response_server/aff4_objects/cronjobs.py:462-465 | On a valid record an evaluation raises only when the engine refuses to start a flow |
| CronManagerProperties.RepeatedNameKeepsStartedFlow | grr/server/grr_response_server/aff4_objects/cronjobs.py:146-164 | A due idle job named twice in one pass starts its flow once and still tracks it afterwards. Forced, the second occurrence finds no flow left to start and raises |
| CronManagerProperties.LeasedJobSkippedOthersProcessed | grr/server/grr_response_server/aff4_objects/cronjobs.py:151-164 | While another worker leases A, a pass over A and B leaves A untouched and evaluates B |
| CronManagerProperties.DeleteOldRunsIdempotent | grr/server/grr_response_server/aff4_objects/cronjobs.py:166-176 | Pruning twice with the same cutoff removes nothing the second time |
| SystemCron.DisabledListErrors | grr/server/grr_response_server/aff4_objects/cronjobs.py:259-269 | Every disabled-list entry that names no registered flow, or a flow that is not a system cron flow, is reported. No other entry is reported |
| SystemCron.SystemArgs | grr/server/grr_response_server/aff4_objects/cronjobs.py:280-284 | A system job's arguments are its class's frequency, lifetime and overrun policy, with no start time, and it runs the flow named after the class |
| SystemCron.SystemEnabled | grr/server/grr_response_server/aff4_objects/cronjobs.py:286-289 | A system job is enabled exactly when its class is enabled and the disabled list does not name it |
| SystemCron.ScheduleOne | grr/server/grr_response_server/aff4_objects/cronjobs.py:275-306 | A system cron flow's job gets the class arguments and the disabled flag, and an existing job keeps its run state. A non-system class leaves the store unchanged, and no other job changes |
| SystemCron.ScheduleEach | grr/server/grr_response_server/aff4_objects/cronjobs.py:274-306 | An unregistered name raises UnknownFlow for the first such name. Every system cron flow named before it gets its class arguments and its disabled flag, and an existing job keeps its run state. Non-system classes, unnamed jobs, and names after the first unregistered one are untouched |
| SystemCron.FirstUnregistered | grr/server/grr_response_server/aff4_objects/cronjobs.py:273-274 | The position returned is that of the first name with no registered flow class, or the length when all are registered |
| SystemCron.AllRegisteredIsWhole | grr/server/grr_response_server/aff4_objects/cronjobs.py:273-274 | All names are registered exactly when no name is left before the first unregistered one |
| SystemCron.ScheduleSystemCronFlows | grr/server/grr_response_server/aff4_objects/cronjobs.py:253-310 | With no names, every registered system cron flow is scheduled. An unregistered name to schedule raises UnknownFlow for the first such name. When every name is registered, bad disabled-list entries are raised, and only after all jobs were written; they do not change what was written |
| SystemCron.StartTimeNotCarriedForward | grr/server/grr_response_server/aff4_objects/cronjobs.py:299-304 | Rescheduling overwrites a set start time with an unset one |

## Left out

- Time units: the source stores timestamps in microseconds and durations in seconds, and converts between them inside `rdfvalue`. That module is not part of this model, which uses one unit for both.
- CronJobs.Run: one clock reading `now` serves the timeout check (line 465), the due test (line 421) and the recorded last run time (line 538), which the source reads separately; a polling pass likewise evaluates every job at the same `now`. Clock advances within a call or a pass are not modelled.
- CronManager.RunEach: a job is guaranteed to be evaluated from its original record only when the launches are fresh (new URNs, as the engine hands out); with colliding URNs the model still runs, but no property is stated.
- Exceptions other than those modelled (LockError in `Run`, a lease wait that runs out in `WriteCronState`, a missing last run time, a refused start, a missing job): failures of `TerminateAFF4Flow`, of the store, or of the engine's open calls are not modelled.
- CronManager.WriteCronState: the model assumes the lease is taken before the record is opened as a cron job, so a lease wait that runs out raises even for a missing job. The AFF4 factory code that decides this order is not part of this model.
- The lease lifetime (600 seconds) and lease expiry: leases held elsewhere are an input set for the duration of one pass.
- `CronWorker`, the daemon thread, its sleep loop and `CronHook`: process and thread plumbing.
- `DualDBSystemCronJob`, `LegacyCronJobAdapterMixin`, `GetCronManager`, and the relational-database branch of `ScheduleSystemCronFlows`: backend selection and class-generation glue.
- Stats counters, latency events and logging, except the `cron_internal_error` counter (lines 160-161), which a pass reports as `errors`. The floating-point latency at line 517 is not computed; only the failure of its read of a missing start time is modelled.
- AFF4 store internals: versioning of the arguments attribute, `Flush`, `MultiDelete`, `QueueManager.MultiDestroyFlowStates`. `DeleteOldRuns` reports the destroyed children instead.
- Read-only listing and reads (`ListJobs`, `ReadJob`, `ReadJobs`, `ReadJobRuns`): a listing is an input of `RunOnce`.
- The random 16-bit number of an automatic job id is an input.
- Opening a missing record: the model assumes that enabling, disabling, or reading state from a missing job raises, and that a polling pass counts a missing job as one error and creates nothing. The AFF4 factory code that decides this is not part of this model.
- Empty flow URNs are not distinguished from absent ones. The source tests the tracked URN for truthiness in some places and for `None` in `DueToRun`.
