/**
  The AFF4 cron job record and its state machine: the due test, the timeout
  reaping of an overrunning flow, the reaping of a finished flow, and the
  start of a new flow. Every decision is a pure function of the record, the
  current time and a snapshot of the execution engine.
 */
module CronJobs {
  import opened Wrappers

  /** URN of a flow started by the execution engine on behalf of a cron job. */
  datatype FlowUrn = FlowUrn(path: string)

  /** Runner state the execution engine reports for a flow it can open. */
  datatype FlowState = Running | Terminated | Failed

  /** Snapshot of the execution engine. A URN missing from the map cannot be opened as a flow. */
  type Engine = map<FlowUrn, FlowState>

  /** Outcome recorded for a completed run. */
  datatype RunStatus = Ok | Error | Timeout

  /** Arguments of the generic hunt a user-defined cron job starts. */
  datatype HuntSpec = HuntSpec(flowName: string, flowArgs: string, huntRunnerArgs: string, huntName: string)

  /** What the job hands to the engine: the runner's flow name and, for user jobs, the hunt it wraps. */
  datatype Payload = Payload(runnerFlow: string, hunt: Option<HuntSpec>)

  /**
    The job arguments. Durations are naturals, timestamps integers, in one
    abstract unit. A `lifetime` of 0 is an unset lifetime and a `startTime`
    of 0 an unset start time: the scheduler tests both values for
    truthiness, and a zero value is false.
   */
  datatype CronArgs = CronArgs(
    description: string,
    periodicity: nat,
    lifetime: nat,
    allowOverruns: bool,
    startTime: int,
    payload: Payload)

  /** A flow started by the job, kept under the job as run history. */
  datatype Child = Child(urn: FlowUrn, created: int)

  /**
    One job record. `statuses` is the versioned run-status attribute, oldest
    first; `state` is the dictionary stateful system jobs keep between runs.
   */
  datatype CronJob = CronJob(
    args: CronArgs,
    disabled: bool,
    currentRun: Option<FlowUrn>,
    lastRunTime: Option<int>,
    statuses: seq<RunStatus>,
    state: map<string, string>,
    children: seq<Child>)

  /** Exceptions `Run` can raise. */
  datatype RunError =
    | LockError            // the job was not opened with a lease
    | MissingLastRunTime   // a flow that runs, or finished OK, is tracked but no start time was recorded
    | StartFailed          // the engine refused to start the flow

  /**
    What one evaluation leaves behind: the record as persisted, the flow it
    asked the engine to terminate, the flow it started, and what it raised.
   */
  datatype RunResult = RunResult(
    job: CronJob,
    terminated: Option<FlowUrn>,
    started: Option<FlowUrn>,
    error: Option<RunError>)

  /** A record as first created: no run tracked, none ever started. */
  function NewJob(args: CronArgs): (j: CronJob)
    ensures j.args == args && !j.disabled
    ensures j.currentRun.None? && j.lastRunTime.None?
    ensures j.statuses == [] && j.children == [] && j.state == map[]
  {
    CronJob(args, false, None, None, [], map[], [])
  }

  /** A tracked flow always comes with the time it was started. */
  ghost predicate Valid(job: CronJob) {
    job.currentRun.Some? ==> job.lastRunTime.Some?
  }

  /** The latest recorded run status, if any. */
  function LastStatus(job: CronJob): (s: Option<RunStatus>)
    ensures s.None? <==> job.statuses == []
    ensures s.Some? ==> s.value in job.statuses
    ensures job.statuses != [] ==> s == Some(job.statuses[|job.statuses| - 1])
  {
    if job.statuses == [] then None else Some(job.statuses[|job.statuses| - 1])
  }

  /** The time at which a run started at `t` stops blocking the next one. */
  function Expiry(t: int, periodicity: nat): int {
    t + periodicity
  }

  /** The tracked flow is openable and its runner reports it running. */
  predicate TrackedRunning(job: CronJob, engine: Engine) {
    job.currentRun.Some? && job.currentRun.value in engine && engine[job.currentRun.value] == Running
  }

  /** A flow is tracked but the engine cannot open it. */
  predicate TrackedUnopenable(job: CronJob, engine: Engine) {
    job.currentRun.Some? && job.currentRun.value !in engine
  }

  /** An unset (zero) lifetime never expires. */
  predicate LifetimeExceeded(lifetime: nat, elapsed: int) {
    lifetime != 0 && elapsed > lifetime
  }

  /** Whether the job should start a new run at time `now`. */
  function DueToRun(job: CronJob, now: int): (due: bool)
    ensures job.disabled ==> !due
    ensures now < job.args.startTime ==> !due
    ensures due && job.lastRunTime.Some? ==> now > Expiry(job.lastRunTime.value, job.args.periodicity)
    ensures due && !job.args.allowOverruns ==> job.currentRun.None?
    ensures !job.disabled && now >= job.args.startTime
            && (job.lastRunTime.None? || now > Expiry(job.lastRunTime.value, job.args.periodicity))
            && (job.args.allowOverruns || job.currentRun.None?)
            ==> due
  {
    if job.disabled then false
    else if job.lastRunTime.None? || now > Expiry(job.lastRunTime.value, job.args.periodicity) then
      if now < job.args.startTime then false
      else if job.args.allowOverruns then true
      else job.currentRun.None?
    else false
  }

  /** The result of asking whether the tracked flow is running. */
  datatype Probe = Probe(job: CronJob, running: bool)

  /**
    Asks the engine about the tracked flow. A flow the engine cannot open is
    dropped from the record; nothing else is written.
   */
  function IsRunning(job: CronJob, engine: Engine): (p: Probe)
    ensures p.running <==> TrackedRunning(job, engine)
    ensures p.job == job.(currentRun := p.job.currentRun)
    ensures p.job.currentRun.Some? ==> p.job.currentRun.value in engine
    ensures p.job.currentRun != job.currentRun ==> TrackedUnopenable(job, engine) && p.job.currentRun.None?
    ensures !TrackedUnopenable(job, engine) ==> p.job == job
  {
    match job.currentRun
    case None => Probe(job, false)
    case Some(urn) =>
      if urn !in engine then Probe(job.(currentRun := None), false)
      else Probe(job, engine[urn] == Running)
  }

  /** Terminates the tracked flow, records a timeout and stops tracking it. */
  function StopCurrentRun(job: CronJob): (r: RunResult)
    ensures r.terminated == job.currentRun
    ensures r.started.None? && r.error.None?
    ensures r.job.currentRun.None?
    ensures job.currentRun.Some? ==> r.job.statuses == job.statuses + [Timeout]
    ensures job.currentRun.None? ==> r.job == job
    ensures r.job == job.(currentRun := None, statuses := r.job.statuses)
  {
    match job.currentRun
    case None => RunResult(job, None, None, None)
    case Some(urn) =>
      RunResult(job.(currentRun := None, statuses := job.statuses + [Timeout]), Some(urn), None, None)
  }

  /**
    Kills the tracked flow when the engine reports it running and its
    lifetime is set and exceeded. A flow the engine cannot open is dropped
    silently; in every other case the record is left alone.
   */
  function KillOldFlows(job: CronJob, now: int, engine: Engine): (r: RunResult)
    ensures r.started.None?
    ensures r.terminated.Some? <==>
              TrackedRunning(job, engine) && job.lastRunTime.Some?
              && LifetimeExceeded(job.args.lifetime, now - job.lastRunTime.value)
    ensures r.terminated.Some? ==>
              r.terminated == job.currentRun && r.error.None?
              && r.job == job.(currentRun := None, statuses := job.statuses + [Timeout])
    ensures r.error.Some? <==> TrackedRunning(job, engine) && job.lastRunTime.None?
    ensures r.error.Some? ==> r.error == Some(MissingLastRunTime)
    ensures r.terminated.None? ==> r.job == IsRunning(job, engine).job
    ensures r.job.currentRun.Some? ==> r.job.currentRun.value in engine
    ensures Valid(job) ==> r.error.None? && Valid(r.job)
  {
    var p := IsRunning(job, engine);
    if !p.running then RunResult(p.job, None, None, None)
    else if p.job.lastRunTime.None? then RunResult(p.job, None, None, Some(MissingLastRunTime))
    else if LifetimeExceeded(p.job.args.lifetime, now - p.job.lastRunTime.value) then StopCurrentRun(p.job)
    else RunResult(p.job, None, None, None)
  }

  /** The status recorded for a flow that is no longer running. */
  function FinishedStatus(state: FlowState): (s: RunStatus)
    ensures s == Error <==> state == Failed
    ensures s != Timeout
  {
    if state == Failed then Error else Ok
  }

  /**
    Records the outcome of a tracked flow that has finished and stops
    tracking it. A flow still running is left alone. On the OK path the
    source then reads the start time to report the run's latency: without a
    recorded start time that read raises, after the status was set and
    before the flow is untracked.
   */
  function ReapFinished(job: CronJob, engine: Engine): (r: RunResult)
    requires job.currentRun.Some? ==> job.currentRun.value in engine
    ensures r.terminated.None? && r.started.None?
    ensures job.currentRun.None? ==> r == RunResult(job, None, None, None)
    ensures TrackedRunning(job, engine) ==> r == RunResult(job, None, None, None)
    ensures job.currentRun.Some? && !TrackedRunning(job, engine) ==>
              r.job.statuses == job.statuses + [if engine[job.currentRun.value] == Failed then Error else Ok]
    // The latency read fails exactly on a successful flow with no recorded start time.
    ensures r.error.Some? <==>
              job.currentRun.Some? && !TrackedRunning(job, engine)
              && engine[job.currentRun.value] != Failed && job.lastRunTime.None?
    ensures r.error.Some? ==> r.error == Some(MissingLastRunTime) && r.job.currentRun == job.currentRun
    ensures job.currentRun.Some? && !TrackedRunning(job, engine) && r.error.None? ==> r.job.currentRun.None?
    ensures r.job == job.(currentRun := r.job.currentRun, statuses := r.job.statuses)
    ensures Valid(job) ==> r.error.None?
  {
    match job.currentRun
    case None => RunResult(job, None, None, None)
    case Some(urn) =>
      if engine[urn] == Running then RunResult(job, None, None, None)
      else
        var recorded := job.(statuses := job.statuses + [FinishedStatus(engine[urn])]);
        if engine[urn] != Failed && job.lastRunTime.None? then RunResult(recorded, None, None, Some(MissingLastRunTime))
        else RunResult(recorded.(currentRun := None), None, None, None)
  }

  /** Tracks a newly started flow and files it under the job. */
  function Started(job: CronJob, urn: FlowUrn, now: int): (r: CronJob)
    ensures r.currentRun == Some(urn) && r.lastRunTime == Some(now)
    ensures r.children == job.children + [Child(urn, now)]
    ensures r == job.(currentRun := r.currentRun, lastRunTime := r.lastRunTime, children := r.children)
  {
    job.(currentRun := Some(urn), lastRunTime := Some(now), children := job.children + [Child(urn, now)])
  }

  /**
    One evaluation of the job: lock check, timeout reaping, reaping of a
    finished flow, then a start when forced or due. `launch` is the URN the
    engine returns for a new flow, or None when starting it raises.
   */
  function Run(job: CronJob, locked: bool, force: bool, now: int, engine: Engine, launch: Option<FlowUrn>): (r: RunResult)
    // Without the lease nothing is read or written.
    ensures !locked ==> r == RunResult(job, None, None, Some(LockError))
    // Arguments, the disabled flag and the state dictionary are never written.
    ensures r.job.args == job.args && r.job.disabled == job.disabled && r.job.state == job.state
    // At most one status is appended, and only when a flow was tracked.
    ensures job.statuses <= r.job.statuses && |r.job.statuses| <= |job.statuses| + 1
    ensures job.currentRun.None? ==> r.job.statuses == job.statuses
    // A start records the new flow and the time; otherwise the start time is untouched.
    ensures r.started.Some? ==>
              locked && launch == r.started && r.error.None?
              && r.job.currentRun == r.started && r.job.lastRunTime == Some(now)
    ensures r.started.None? ==> r.job.lastRunTime == job.lastRunTime && r.job.children == job.children
    // Without a start the tracked flow is kept or dropped, never replaced.
    ensures r.started.None? ==> r.job.currentRun == job.currentRun || r.job.currentRun.None?
    // Unforced, a disabled job never starts.
    ensures !force && job.disabled ==> r.started.None?
    // An unforced start happens only once the start time is reached and the last run's period is over.
    ensures r.started.Some? && !force ==>
              !job.disabled && now >= job.args.startTime
              && (job.lastRunTime.None? || now > Expiry(job.lastRunTime.value, job.args.periodicity))
    // A quiet evaluation (no start, nothing raised) means it was unforced and the job was not due.
    ensures locked && r.error.None? && r.started.None? ==> !force && !DueToRun(r.job, now)
    // A forced evaluation of a valid record starts the flow the engine hands out.
    ensures locked && force && launch.Some? && Valid(job) ==> r.started == launch
    // A due job with nothing tracked starts the flow the engine hands out.
    ensures locked && launch.Some? && job.currentRun.None? && DueToRun(job, now) ==> r.started == launch
    ensures Valid(job) ==> Valid(r.job) && r.error != Some(MissingLastRunTime)
  {
    if !locked then RunResult(job, None, None, Some(LockError))
    else
      var k := KillOldFlows(job, now, engine);
      if k.error.Some? then k
      else
        var reap := ReapFinished(k.job, engine);
        var reaped := reap.job;
        if reap.error.Some? then RunResult(reaped, k.terminated, None, reap.error)
        else if !force && !DueToRun(reaped, now) then RunResult(reaped, k.terminated, None, None)
        else match launch
          case None => RunResult(reaped, k.terminated, None, Some(StartFailed))
          case Some(urn) => RunResult(Started(reaped, urn, now), k.terminated, Some(urn), None)
  }

  /**
    An evaluation consults the engine only about the job's own tracked
    flow: what the engine says about any other flow does not matter.
   */
  lemma RunIgnoresOtherFlows(job: CronJob, force: bool, now: int, engine: Engine, urn: FlowUrn,
                             state: FlowState, launch: Option<FlowUrn>)
    requires job.currentRun != Some(urn)
    ensures Run(job, true, force, now, engine[urn := state], launch) == Run(job, true, force, now, engine, launch)
  {
  }
}
