/**
  Properties relating several manager operations: idempotent redefinition,
  enabling against disabling, the record invariant across operations, the
  lease rule of the polling pass, and pruning.
 */
module CronManagerProperties {
  import opened Wrappers
  import opened CronJobs
  import opened CronManager

  /** Creating the same job twice with the same request changes nothing the second time. */
  lemma CreateJobIdempotent(store: Store, req: CreateCronJobArgs, jobId: JobId, uid: nat, enabled: bool)
    requires uid < 0x1_0000
    ensures var c1 := CreateJob(store, req, jobId, uid, enabled);
            var c2 := CreateJob(c1.store, req, jobId, uid, enabled);
            c2.id == c1.id && c2.store == c1.store && !c2.argsWritten
  {
    var c1 := CreateJob(store, req, jobId, uid, enabled);
    var c2 := CreateJob(c1.store, req, jobId, uid, enabled);
    assert c2.store[c1.id] == c1.store[c1.id];
  }

  /**
    Redefining a job whose start time is set, with any other request, keeps
    that start time and the job's run state.
   */
  lemma RedefinitionKeepsSchedule(store: Store, req: CreateCronJobArgs, id: JobId, uid: nat, enabled: bool)
    requires uid < 0x1_0000 && id != "" && id in store && store[id].args.startTime != 0
    ensures var c := CreateJob(store, req, id, uid, enabled);
            && c.store[id].args.startTime == store[id].args.startTime
            && c.store[id].currentRun == store[id].currentRun
            && c.store[id].lastRunTime == store[id].lastRunTime
            && c.store[id].statuses == store[id].statuses
  {
  }

  /** Disabling an enabled job and enabling it again restores the store. */
  lemma DisableThenEnableRestores(store: Store, id: JobId)
    requires id in store && !store[id].disabled
    ensures DisableJob(store, id).Success?
    ensures EnableJob(DisableJob(store, id).value, id) == Success(store)
  {
    var d := DisableJob(store, id).value;
    assert d[id := d[id].(disabled := false)] == store;
  }

  /** A disabled job is never due, and an unforced pass leaves its run state alone. */
  lemma DisabledJobNeverStarts(store: Store, id: JobId, now: int, engine: Engine, launches: Launches)
    requires DisableJob(store, id).Success?
    ensures var s := DisableJob(store, id).value;
            && !DueToRun(s[id], now)
            && Evaluate(PassState(s, engine, launches), id, false, now).started.None?
  {
  }

  /** Creating, enabling and disabling jobs keep every record valid. */
  lemma ManagementKeepsValid(store: Store, req: CreateCronJobArgs, jobId: JobId, uid: nat, enabled: bool, id: JobId)
    requires uid < 0x1_0000 && AllValid(store)
    ensures AllValid(CreateJob(store, req, jobId, uid, enabled).store)
    ensures EnableJob(store, id).Success? ==> AllValid(EnableJob(store, id).value)
    ensures DisableJob(store, id).Success? ==> AllValid(DisableJob(store, id).value)
  {
    var c := CreateJob(store, req, jobId, uid, enabled);
    forall other | other in c.store ensures Valid(c.store[other]) {
      if other != c.id {
        assert c.store[other] == store[other];
      }
    }
  }

  /**
    On a store of valid records, a pass raises only where a named job does
    not exist or the engine refuses to start a flow.
   */
  lemma ValidPassRaisesOnlyOnStart(st: PassState, id: JobId, force: bool, now: int)
    requires id in st.store && Valid(st.store[id])
    ensures var r := Evaluate(st, id, force, now);
            r.error.Some? ==> r.error == Some(StartFailed) && LaunchFor(st.launches, id).None?
  {
  }

  /**
    Two workers racing over jobs A and B: while the other worker holds A's
    lease, this pass leaves A untouched and still evaluates B.
   */
  lemma LeasedJobSkippedOthersProcessed(st: PassState, a: JobId, b: JobId, force: bool, now: int)
    requires a != b && a in st.store && b in st.store
    ensures var p := RunEach(st, {a}, [a, b], force, now);
            && p.state.store[a] == st.store[a]
            && p.state.store[b] == Evaluate(st, b, force, now).job
  {
    assert [a, b][1..] == [b];
    assert [b][1..] == [];
  }

  /**
    A job named twice in one pass: the flow its first occurrence starts is
    running when the second occurrence looks, so it stays tracked and is
    started only once. Forced, the second occurrence asks for another flow
    and, with none left to hand out, raises.
   */
  lemma RepeatedNameKeepsStartedFlow(job: CronJob, id: JobId, f: FlowUrn, force: bool, now: int, engine: Engine)
    requires job.currentRun.None? && DueToRun(job, now) && f !in engine
    ensures var p := RunEach(PassState(map[id := job], engine, map[id := [f]]), {}, [id, id], force, now);
            && p.state.store[id].currentRun == Some(f)
            && p.state.store[id].lastRunTime == Some(now)
            && p.started == [f]
            && p.errors == (if force then 1 else 0)
  {
    var st := PassState(map[id := job], engine, map[id := [f]]);
    var mid := PassState(map[id := Started(job, f, now)], engine[f := Running], map[id := []]);
    var e := if force then 1 else 0;
    FirstOccurrence(job, id, f, force, now, engine);
    SecondOccurrence(job, id, f, force, now, engine);
    assert RunEach(mid, {}, [], force, now) == Pass(mid, 0, [], []);
    assert [id][1..] == [];
    assert RunEach(mid, {}, [id], force, now) == Pass(mid, e, [], []);
    assert [id, id][1..] == [id];
    assert RunEach(st, {}, [id, id], force, now) == Pass(mid, e, [], [f]);
  }

  lemma FirstOccurrence(job: CronJob, id: JobId, f: FlowUrn, force: bool, now: int, engine: Engine)
    requires job.currentRun.None? && DueToRun(job, now)
    ensures ProcessJob(PassState(map[id := job], engine, map[id := [f]]), {}, id, force, now)
         == Pass(PassState(map[id := Started(job, f, now)], engine[f := Running], map[id := []]), 0, [], [f])
  {
    FirstLookStarts(job, f, force, now, engine);
    var st := PassState(map[id := job], engine, map[id := [f]]);
    assert st.launches[id][1..] == [];
  }

  lemma SecondOccurrence(job: CronJob, id: JobId, f: FlowUrn, force: bool, now: int, engine: Engine)
    ensures var mid := PassState(map[id := Started(job, f, now)], engine[f := Running], map[id := []]);
            ProcessJob(mid, {}, id, force, now) == Pass(mid, if force then 1 else 0, [], [])
  {
    SecondLookKeeps(job, f, force, now, engine);
    var mid := PassState(map[id := Started(job, f, now)], engine[f := Running], map[id := []]);
    assert mid.store[id := Started(job, f, now)] == mid.store;
  }

  /** The first look at a due, idle job starts the flow handed out. */
  lemma FirstLookStarts(job: CronJob, f: FlowUrn, force: bool, now: int, engine: Engine)
    requires job.currentRun.None? && DueToRun(job, now)
    ensures Run(job, true, force, now, engine, Some(f)) == RunResult(Started(job, f, now), None, Some(f), None)
  {
  }

  /** The second look sees the flow just started running and within its lifetime, and the period not over. */
  lemma SecondLookKeeps(job: CronJob, f: FlowUrn, force: bool, now: int, engine: Engine)
    ensures var again := Started(job, f, now);
            Run(again, true, force, now, engine[f := Running], None)
              == RunResult(again, None, None, if force then Some(StartFailed) else None)
  {
    var again := Started(job, f, now);
    assert KillOldFlows(again, now, engine[f := Running]) == RunResult(again, None, None, None);
    assert ReapFinished(again, engine[f := Running]).job == again;
    assert !DueToRun(again, now);
  }

  /** A state written to an existing job, once the lease is had, is what the next read returns. */
  lemma WrittenStateReadBack(store: Store, id: JobId, state: map<string, string>)
    requires id in store && state != map[]
    ensures WriteCronState(store, id, state, false).Success?
    ensures ReadCronState(WriteCronState(store, id, state, false).value, id) == Success(state)
  {
  }

  /** Pruning twice with the same cutoff removes nothing the second time. */
  lemma DeleteOldRunsIdempotent(job: CronJob, cutoff: int, older: (int, int) -> bool)
    ensures var first := DeleteOldRuns(job, Some(cutoff), older);
            && first.Success?
            && DeleteOldRuns(first.value.job, Some(cutoff), older) == Success(Pruned(first.value.job, [], 0))
  {
  }
}
