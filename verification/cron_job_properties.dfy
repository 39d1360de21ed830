/**
  Properties relating several calls of the cron job state machine: the due
  test against time, timeout reaping against the start step, and the guard
  against overlapping runs.
 */
module CronJobProperties {
  import opened Wrappers
  import opened CronJobs

  /** The last status is always the one recorded most recently. */
  lemma LastStatusIsNewest(job: CronJob, s: RunStatus)
    ensures LastStatus(job.(statuses := job.statuses + [s])) == Some(s)
  {
  }

  /** A later clock never makes a due job undue. */
  lemma DueStaysDue(job: CronJob, now: int, later: int)
    requires DueToRun(job, now) && now <= later
    ensures DueToRun(job, later)
  {
  }

  /**
    After an evaluation starts a flow at `now`, the job is not due again
    until strictly after one period has passed.
   */
  lemma NotDueWithinPeriod(job: CronJob, locked: bool, force: bool, now: int, engine: Engine, launch: Option<FlowUrn>, t: int)
    requires Run(job, locked, force, now, engine, launch).started.Some?
    requires t <= Expiry(now, job.args.periodicity)
    ensures !DueToRun(Run(job, locked, force, now, engine, launch).job, t)
  {
  }

  /**
    A tracked flow reported running past a set lifetime is terminated by the
    very next evaluation with a timeout status, whether or not the job is
    due; it stays untracked unless a new flow is started in the same call.
   */
  lemma TimeoutReapedOnNextEvaluation(job: CronJob, force: bool, now: int, engine: Engine, launch: Option<FlowUrn>)
    requires Valid(job) && TrackedRunning(job, engine)
    requires LifetimeExceeded(job.args.lifetime, now - job.lastRunTime.value)
    ensures var r := Run(job, true, force, now, engine, launch);
            && r.terminated == job.currentRun
            && r.job.statuses == job.statuses + [Timeout]
            && (r.started.None? ==> r.job.currentRun.None?)
  {
  }

  /**
    A tracked flow that is running within its lifetime, or with no lifetime,
    is neither terminated nor recorded, and an unforced evaluation of a job
    without overruns starts nothing beside it.
   */
  lemma RunningFlowLeftAlone(job: CronJob, now: int, engine: Engine, launch: Option<FlowUrn>)
    requires Valid(job) && TrackedRunning(job, engine)
    requires !LifetimeExceeded(job.args.lifetime, now - job.lastRunTime.value)
    requires !job.args.allowOverruns
    ensures Run(job, true, false, now, engine, launch) == RunResult(job, None, None, None)
  {
  }

  /**
    Without overruns, an unforced evaluation starts a flow over a tracked
    one only after that flow was reaped: it could not be opened, it had
    finished, or it was terminated for exceeding its lifetime.
   */
  lemma NoOverlappingStart(job: CronJob, now: int, engine: Engine, launch: Option<FlowUrn>)
    requires !job.args.allowOverruns && job.currentRun.Some?
    requires Run(job, true, false, now, engine, launch).started.Some?
    ensures var urn := job.currentRun.value;
            || urn !in engine
            || engine[urn] != Running
            || Run(job, true, false, now, engine, launch).terminated == Some(urn)
  {
  }

  /**
    A job not due before the call can still start in the same call once
    its timed-out flow has been reaped.
   */
  lemma TimedOutJobRestartsInSameCall(job: CronJob, now: int, engine: Engine, urn: FlowUrn)
    requires Valid(job) && TrackedRunning(job, engine)
    requires LifetimeExceeded(job.args.lifetime, now - job.lastRunTime.value)
    requires !job.disabled && !job.args.allowOverruns && now >= job.args.startTime
    requires now > Expiry(job.lastRunTime.value, job.args.periodicity)
    ensures !DueToRun(job, now)
    ensures var r := Run(job, true, false, now, engine, Some(urn));
            r.terminated == job.currentRun && r.started == Some(urn) && r.job.currentRun == Some(urn)
  {
  }

  /**
    A forced evaluation starts a flow even for a disabled job with a flow
    still running; the old flow is dropped without a terminate request.
   */
  lemma ForceOverwritesRunningFlow(job: CronJob, now: int, engine: Engine, urn: FlowUrn)
    requires Valid(job) && TrackedRunning(job, engine)
    requires !LifetimeExceeded(job.args.lifetime, now - job.lastRunTime.value)
    ensures var r := Run(job, true, true, now, engine, Some(urn));
            && r.started == Some(urn) && r.terminated.None?
            && r.job.currentRun == Some(urn) && r.job.statuses == job.statuses
  {
  }

  /**
    A finished flow is recorded as an error exactly when the engine reports
    it failed, and as ok otherwise; an unforced evaluation of a job that is
    not due then leaves it untracked.
   */
  lemma FinishedFlowRecorded(job: CronJob, force: bool, now: int, engine: Engine, launch: Option<FlowUrn>)
    requires Valid(job) && job.currentRun.Some? && job.currentRun.value in engine
    requires engine[job.currentRun.value] != Running
    ensures var r := Run(job, true, force, now, engine, launch);
            && r.terminated.None? && r.error != Some(MissingLastRunTime)
            && LastStatus(r.job) == Some(if engine[job.currentRun.value] == Failed then Error else Ok)
            && (r.started.None? ==> r.job.currentRun.None?)
  {
  }

  /**
    A flow that finished OK on a record without a start time: the status is
    set, then reading the start time for the latency report raises, so the
    flow stays tracked and nothing new starts, even when forced.
   */
  lemma FinishedOkWithoutStartTimeRaises(job: CronJob, force: bool, now: int, engine: Engine, launch: Option<FlowUrn>)
    requires job.currentRun.Some? && job.lastRunTime.None?
    requires job.currentRun.value in engine && engine[job.currentRun.value] == Terminated
    ensures var r := Run(job, true, force, now, engine, launch);
            && r.error == Some(MissingLastRunTime) && r.started.None? && r.terminated.None?
            && r.job.currentRun == job.currentRun
            && LastStatus(r.job) == Some(Ok)
  {
  }

  /** An unopenable flow is dropped without any status being recorded. */
  lemma UnopenableFlowDroppedSilently(job: CronJob, force: bool, now: int, engine: Engine, launch: Option<FlowUrn>)
    requires TrackedUnopenable(job, engine)
    ensures var r := Run(job, true, force, now, engine, launch);
            && r.terminated.None? && r.error != Some(MissingLastRunTime)
            && r.job.statuses == job.statuses
            && (r.started.None? ==> r.job.currentRun.None?)
  {
  }

  /**
    A job that never ran and whose start time has passed is due; running it
    tracks the new flow, and evaluating it again while that flow runs within
    one period starts nothing.
   */
  lemma FirstRunThenWait(args: CronArgs, now: int, later: int, urn: FlowUrn, next: Option<FlowUrn>)
    requires args.startTime <= now && !args.allowOverruns
    requires now <= later <= Expiry(now, args.periodicity)
    requires !LifetimeExceeded(args.lifetime, later - now)
    ensures DueToRun(NewJob(args), now)
    ensures var first := Run(NewJob(args), true, false, now, map[], Some(urn));
            && first.started == Some(urn) && first.job.currentRun == Some(urn)
            && first.job.lastRunTime == Some(now)
            && Run(first.job, true, false, later, map[urn := Running], next).started.None?
  {
  }
}
