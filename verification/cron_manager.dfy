/**
  The cron manager: operations over the store of job records, keyed by job
  id, and the polling pass that leases each job and evaluates it.
 */
module CronManager {
  import opened Wrappers
  import opened CronJobs

  type JobId = string

  /** The job records under the cron root, keyed by job id. */
  type Store = map<JobId, CronJob>

  /** Errors the manager operations raise to their caller. */
  datatype ManagerError =
    | NoSuchJob(id: JobId)   // the record cannot be opened as a cron job
    | MissingCutoff          // DeleteOldRuns was given no cutoff
    | StateReadError(id: JobId)
    | StateWriteError(id: JobId)
    | StateLockTimeout(id: JobId)   // the wait for the job's lease before writing its state ran out

  /** Every record in the store tracks a flow only together with its start time. */
  ghost predicate AllValid(store: Store) {
    forall id :: id in store ==> Valid(store[id])
  }

  /** No id occurs twice. */
  predicate NoRepeats(names: seq<JobId>) {
    forall i, j :: 0 <= i < j < |names| ==> names[i] != names[j]
  }

  /** `listing` names every job of the store exactly once. */
  ghost predicate IsListing(listing: seq<JobId>, store: Store) {
    && (forall id :: id in listing <==> id in store)
    && NoRepeats(listing)
  }

  // ---------------------------------------------------------------------------
  // Job ids

  function DigitChar(d: nat): (c: char)
    requires d < 10
    ensures '0' <= c <= '9'
  {
    "0123456789"[d]
  }

  function DigitValue(c: char): nat {
    if '0' <= c <= '9' then (c as int - '0' as int) as nat else 0
  }

  /** Decimal rendering of a natural, most significant digit first. */
  function Decimal(n: nat): (s: string)
    ensures |s| >= 1
    ensures forall i :: 0 <= i < |s| ==> '0' <= s[i] <= '9'
    ensures n < 10 <==> |s| == 1
    ensures s[0] == '0' <==> n == 0
  {
    if n < 10 then [DigitChar(n)] else Decimal(n / 10) + [DigitChar(n % 10)]
  }

  /** The natural a string of decimal digits denotes. */
  function DecimalValue(s: string): nat {
    if s == [] then 0 else 10 * DecimalValue(s[..|s| - 1]) + DigitValue(s[|s| - 1])
  }

  /** Reading back the decimal rendering yields the number. */
  lemma {:induction false} DecimalRoundTrip(n: nat)
    ensures DecimalValue(Decimal(n)) == n
  {
    if n >= 10 {
      var s := Decimal(n);
      assert s[..|s| - 1] == Decimal(n / 10);
      DecimalRoundTrip(n / 10);
    }
  }

  /**
    The id a new job gets: the given one, or when none is given the flow name
    joined by an underscore to a random 16-bit number.
   */
  function JobIdFor(jobId: JobId, flowName: string, uid: nat): (id: JobId)
    requires uid < 0x1_0000
    ensures jobId != "" ==> id == jobId
    ensures jobId == "" ==> |id| > |flowName| && id[..|flowName| + 1] == flowName + "_"
                            && DecimalValue(id[|flowName| + 1..]) == uid
    ensures jobId == "" ==> id[|flowName| + 1..] == Decimal(uid)
  {
    if jobId != "" then jobId
    else
      var id := flowName + "_" + Decimal(uid);
      assert id[|flowName| + 1..] == Decimal(uid);
      DecimalRoundTrip(uid);
      id
  }

  // ---------------------------------------------------------------------------
  // Creating and redefining jobs

  /** The fields of a user's request to create a cron job. */
  datatype CreateCronJobArgs = CreateCronJobArgs(
    flowName: string,
    flowArgs: string,
    huntRunnerArgs: string,
    description: string,
    frequency: nat,
    allowOverruns: bool,
    lifetime: nat)

  const HuntFlowName := "CreateAndRunGenericHuntFlow"
  const HuntName := "GenericHunt"

  /**
    The stored arguments for a user's request: the job starts a generic hunt
    running the requested flow. No start time is set.
   */
  function ArgsFromRequest(req: CreateCronJobArgs): (a: CronArgs)
    ensures a.description == req.description && a.periodicity == req.frequency
    ensures a.lifetime == req.lifetime && a.allowOverruns == req.allowOverruns
    ensures a.startTime == 0
    ensures a.payload.runnerFlow == HuntFlowName
    ensures a.payload.hunt == Some(HuntSpec(req.flowName, req.flowArgs, req.huntRunnerArgs, HuntName))
  {
    CronArgs(req.description, req.frequency, req.lifetime, req.allowOverruns, 0,
             Payload(HuntFlowName, Some(HuntSpec(req.flowName, req.flowArgs, req.huntRunnerArgs, HuntName))))
  }

  datatype Upserted = Upserted(store: Store, argsWritten: bool)

  /**
    Opens or creates the record `id`, writes `args` only when they differ
    from the stored ones, and sets the disabled flag. An existing record
    keeps its run state.
   */
  function Upsert(store: Store, id: JobId, args: CronArgs, enabled: bool): (r: Upserted)
    ensures r.store.Keys == store.Keys + {id}
    ensures forall other :: other in store && other != id ==> r.store[other] == store[other]
    ensures r.store[id].args == args && r.store[id].disabled == !enabled
    ensures id in store ==> r.store[id] == store[id].(args := args, disabled := !enabled)
    ensures id !in store ==> r.store[id] == NewJob(args).(disabled := !enabled)
    ensures r.argsWritten <==> id !in store || store[id].args != args
  {
    var written := id !in store || store[id].args != args;
    var base := if id in store then store[id] else NewJob(args);
    var job := if written then base.(args := args) else base;
    Upserted(store[id := job.(disabled := !enabled)], written)
  }

  datatype Created = Created(store: Store, id: JobId, argsWritten: bool)

  /**
    Creates the job, or redefines it when the id exists. A start time already
    set on the existing record is kept; the run state is kept too.
   */
  function CreateJob(store: Store, req: CreateCronJobArgs, jobId: JobId, uid: nat, enabled: bool): (r: Created)
    requires uid < 0x1_0000
    ensures r.id == JobIdFor(jobId, req.flowName, uid)
    ensures r.store.Keys == store.Keys + {r.id}
    ensures forall other :: other in store && other != r.id ==> r.store[other] == store[other]
    ensures r.store[r.id].disabled == !enabled
    ensures r.store[r.id].args.startTime ==
              if r.id in store && store[r.id].args.startTime != 0 then store[r.id].args.startTime else 0
    ensures r.store[r.id].args == ArgsFromRequest(req).(startTime := r.store[r.id].args.startTime)
    ensures r.id in store ==> r.store[r.id] == store[r.id].(args := r.store[r.id].args, disabled := !enabled)
    ensures r.id !in store ==> r.store[r.id].currentRun.None? && r.store[r.id].lastRunTime.None?
    ensures r.argsWritten <==> r.id !in store || store[r.id].args != r.store[r.id].args
  {
    var id := JobIdFor(jobId, req.flowName, uid);
    var requested := ArgsFromRequest(req);
    var args := if id in store && store[id].args.startTime != 0
                then requested.(startTime := store[id].args.startTime) else requested;
    var u := Upsert(store, id, args, enabled);
    Created(u.store, id, u.argsWritten)
  }

  // ---------------------------------------------------------------------------
  // Enabling, disabling, deleting

  /** Writes the disabled flag of an existing job, without taking its lease. */
  function SetDisabled(store: Store, id: JobId, disabled: bool): (r: Result<Store, ManagerError>)
    ensures r.Failure? <==> id !in store
    ensures r.Failure? ==> r.error == NoSuchJob(id)
    ensures r.Success? ==>
              && r.value.Keys == store.Keys
              && r.value[id] == store[id].(disabled := disabled)
              && (forall other :: other in store && other != id ==> r.value[other] == store[other])
  {
    if id !in store then Failure(NoSuchJob(id))
    else Success(store[id := store[id].(disabled := disabled)])
  }

  function EnableJob(store: Store, id: JobId): (r: Result<Store, ManagerError>)
    ensures r.Failure? <==> id !in store
    ensures r.Success? ==> id in r.value && !r.value[id].disabled && r.value == store[id := r.value[id]]
                           && r.value[id] == store[id].(disabled := false)
  {
    SetDisabled(store, id, false)
  }

  function DisableJob(store: Store, id: JobId): (r: Result<Store, ManagerError>)
    ensures r.Failure? <==> id !in store
    ensures r.Success? ==> id in r.value && r.value[id].disabled && r.value == store[id := r.value[id]]
                           && r.value[id] == store[id].(disabled := true)
  {
    SetDisabled(store, id, true)
  }

  /** Removes the job record together with its run history. */
  function DeleteJob(store: Store, id: JobId): (r: Store)
    ensures r.Keys == store.Keys - {id}
    ensures forall other :: other in r ==> r[other] == store[other]
  {
    store - {id}
  }

  // ---------------------------------------------------------------------------
  // The polling pass

  /**
    The flows the engine hands out, per job and in order: each start the job
    makes takes the next one, and once its queue is used up starting raises.
   */
  type Launches = map<JobId, seq<FlowUrn>>

  /** What the pass carries from one job to the next: the records, the engine's flows and the unused launches. */
  datatype PassState = PassState(store: Store, engine: Engine, launches: Launches)

  /** What one pass over the jobs leaves behind. */
  datatype Pass = Pass(state: PassState, errors: nat, terminated: seq<FlowUrn>, started: seq<FlowUrn>)

  /** The flow the engine would start next for `id`, or None when starting it raises. */
  function LaunchFor(launches: Launches, id: JobId): Option<FlowUrn> {
    if id in launches && launches[id] != [] then Some(launches[id][0]) else None
  }

  /** The evaluation of `id` under its lease, from the record and the engine of `st`. */
  function Evaluate(st: PassState, id: JobId, force: bool, now: int): RunResult
    requires id in st.store
  {
    Run(st.store[id], true, force, now, st.engine, LaunchFor(st.launches, id))
  }

  /**
    Every flow still to be handed out is new: unknown to the engine, tracked
    by no job, and distinct from every other one.
   */
  ghost predicate Fresh(st: PassState) {
    && (forall id, k :: id in st.launches && 0 <= k < |st.launches[id]| ==> st.launches[id][k] !in st.engine)
    && (forall id, k, j :: id in st.launches && 0 <= k < |st.launches[id]| && j in st.store ==>
          st.store[j].currentRun != Some(st.launches[id][k]))
    && (forall id, k, id2, k2 ::
          (&& id in st.launches && id2 in st.launches
           && 0 <= k < |st.launches[id]| && 0 <= k2 < |st.launches[id2]|
           && (id != id2 || k != k2))
          ==> st.launches[id][k] != st.launches[id2][k2])
  }

  /**
    One job of the pass. A job whose lease another worker holds is skipped
    without error. A name with no cron job behind it raises inside the
    leased block and is counted. Otherwise the job is evaluated and what it
    raised is counted; a flow it starts is running for the rest of the pass
    and uses up the job's next launch.
   */
  function ProcessJob(st: PassState, leased: set<JobId>, id: JobId, force: bool, now: int): (p: Pass)
    ensures p.state.store.Keys == st.store.Keys
    ensures forall other :: other in st.store && other != id ==> p.state.store[other] == st.store[other]
    ensures id in leased ==> p == Pass(st, 0, [], [])
    ensures id !in leased && id !in st.store ==> p == Pass(st, 1, [], [])
    ensures id !in leased && id in st.store ==>
              var r := Evaluate(st, id, force, now);
              && p.state.store[id] == r.job
              && p.errors == (if r.error.Some? then 1 else 0)
              && (r.started.None? ==> p.state.engine == st.engine && p.state.launches == st.launches)
              && (r.started.Some? ==>
                    && id in st.launches && st.launches[id] != [] && r.started.value == st.launches[id][0]
                    && p.state.engine == st.engine[r.started.value := Running]
                    && p.state.launches == st.launches[id := st.launches[id][1..]])
    ensures p.errors <= 1
    ensures AllValid(st.store) ==> AllValid(p.state.store)
  {
    if id in leased then Pass(st, 0, [], [])
    else if id !in st.store then Pass(st, 1, [], [])
    else
      var r := Evaluate(st, id, force, now);
      var next := match r.started
        case None => st.(store := st.store[id := r.job])
        case Some(urn) =>
          PassState(st.store[id := r.job], st.engine[urn := Running], st.launches[id := st.launches[id][1..]]);
      Pass(next, if r.error.Some? then 1 else 0,
           if r.terminated.Some? then [r.terminated.value] else [],
           if r.started.Some? then [r.started.value] else [])
  }

  /**
    Processing one job keeps the remaining launches fresh and changes the
    evaluation of no other job.
   */
  lemma ProcessJobKeepsOthers(st: PassState, leased: set<JobId>, x: JobId, force: bool, now: int)
    ensures var s1 := ProcessJob(st, leased, x, force, now).state;
            Fresh(st) ==>
              && Fresh(s1)
              && forall id :: id in st.store && id != x ==> id in s1.store && Evaluate(s1, id, force, now) == Evaluate(st, id, force, now)
  {
    var s1 := ProcessJob(st, leased, x, force, now).state;
    if Fresh(st) && x !in leased && x in st.store {
      var r := Evaluate(st, x, force, now);
      assert s1.store == st.store[x := r.job];
      if r.started.Some? {
        StartKeepsFresh(st, x, r.job);
      } else {
        QuietKeepsFresh(st, x, r.job);
      }
      forall id | id in st.store && id != x
        ensures Evaluate(s1, id, force, now) == Evaluate(st, id, force, now)
      {
        assert LaunchFor(s1.launches, id) == LaunchFor(st.launches, id);
        if r.started.Some? {
          RunIgnoresOtherFlows(st.store[id], force, now, st.engine, r.started.value, Running, LaunchFor(st.launches, id));
        }
      }
    }
  }

  /** A job that starts the next flow of its queue leaves the remaining launches fresh. */
  lemma StartKeepsFresh(st: PassState, x: JobId, job: CronJob)
    requires Fresh(st) && x in st.launches && st.launches[x] != []
    requires job.currentRun == Some(st.launches[x][0])
    ensures Fresh(PassState(st.store[x := job], st.engine[st.launches[x][0] := Running],
                            st.launches[x := st.launches[x][1..]]))
  {
    var u := st.launches[x][0];
    var s1 := PassState(st.store[x := job], st.engine[u := Running], st.launches[x := st.launches[x][1..]]);
    forall id, k | id in s1.launches && 0 <= k < |s1.launches[id]|
      ensures id in st.launches
      ensures s1.launches[id][k] == st.launches[id][if id == x then k + 1 else k]
      ensures s1.launches[id][k] != u && s1.launches[id][k] !in s1.engine
    {
      if id == x {
        assert s1.launches[id][k] == st.launches[x][k + 1];
      } else {
        assert s1.launches[id][k] == st.launches[id][k];
      }
    }
    forall id, k, j | id in s1.launches && 0 <= k < |s1.launches[id]| && j in s1.store
      ensures s1.store[j].currentRun != Some(s1.launches[id][k])
    {
      if j != x {
        assert s1.store[j] == st.store[j];
        assert s1.launches[id][k] == st.launches[id][if id == x then k + 1 else k];
      }
    }
    forall id, k, id2, k2 |
      id in s1.launches && id2 in s1.launches && 0 <= k < |s1.launches[id]| && 0 <= k2 < |s1.launches[id2]|
      && (id != id2 || k != k2)
      ensures s1.launches[id][k] != s1.launches[id2][k2]
    {
      assert s1.launches[id][k] == st.launches[id][if id == x then k + 1 else k];
      assert s1.launches[id2][k2] == st.launches[id2][if id2 == x then k2 + 1 else k2];
    }
  }

  /** A job that keeps or drops its tracked flow, starting none, leaves the launches fresh. */
  lemma QuietKeepsFresh(st: PassState, x: JobId, job: CronJob)
    requires Fresh(st) && x in st.store
    requires job.currentRun == st.store[x].currentRun || job.currentRun.None?
    ensures Fresh(st.(store := st.store[x := job]))
  {
    var s1 := st.(store := st.store[x := job]);
    forall id, k, j | id in s1.launches && 0 <= k < |s1.launches[id]| && j in s1.store
      ensures s1.store[j].currentRun != Some(s1.launches[id][k])
    {
      if j != x {
        assert s1.store[j] == st.store[j];
      }
    }
  }

  /**
    Processes the names in order, each against the state the previous ones
    left. A job leased elsewhere, or not named, is unchanged. When the
    launches are fresh, a job named once ends up evaluated from its original
    record, whatever the other jobs raised or started.
   */
  function RunEach(st: PassState, leased: set<JobId>, names: seq<JobId>, force: bool, now: int): (p: Pass)
    ensures p.state.store.Keys == st.store.Keys
    ensures forall id :: id in st.store && (id in leased || id !in names) ==> p.state.store[id] == st.store[id]
    ensures Fresh(st) ==>
              forall id :: id in st.store && id !in leased && multiset(names)[id] == 1 ==>
                p.state.store[id] == Evaluate(st, id, force, now).job
    ensures p.errors <= |names|
    ensures AllValid(st.store) ==> AllValid(p.state.store)
    decreases |names|
  {
    if names == [] then Pass(st, 0, [], [])
    else
      var first := ProcessJob(st, leased, names[0], force, now);
      var rest := RunEach(first.state, leased, names[1..], force, now);
      ProcessJobKeepsOthers(st, leased, names[0], force, now);
      RunEachStep(st, leased, names, force, now, first, rest);
      Pass(rest.state, first.errors + rest.errors,
           first.terminated + rest.terminated, first.started + rest.started)
  }

  /** The guarantees of the first job and of the rest of the pass combine. */
  lemma RunEachStep(st: PassState, leased: set<JobId>, names: seq<JobId>, force: bool, now: int, first: Pass, rest: Pass)
    requires names != []
    requires first.state.store.Keys == st.store.Keys && rest.state.store.Keys == st.store.Keys
    requires forall other :: other in st.store && other != names[0] ==> first.state.store[other] == st.store[other]
    requires names[0] in leased && names[0] in st.store ==> first.state.store[names[0]] == st.store[names[0]]
    requires names[0] !in leased && names[0] in st.store ==> first.state.store[names[0]] == Evaluate(st, names[0], force, now).job
    requires Fresh(st) ==>
               && Fresh(first.state)
               && forall id :: id in st.store && id != names[0] ==>
                    id in first.state.store && Evaluate(first.state, id, force, now) == Evaluate(st, id, force, now)
    requires forall id :: id in first.state.store && (id in leased || id !in names[1..]) ==>
               rest.state.store[id] == first.state.store[id]
    requires Fresh(first.state) ==>
               forall id :: id in first.state.store && id !in leased && multiset(names[1..])[id] == 1 ==>
                 rest.state.store[id] == Evaluate(first.state, id, force, now).job
    ensures forall id :: id in st.store && (id in leased || id !in names) ==> rest.state.store[id] == st.store[id]
    ensures Fresh(st) ==>
              forall id :: id in st.store && id !in leased && multiset(names)[id] == 1 ==>
                rest.state.store[id] == Evaluate(st, id, force, now).job
  {
    assert names == [names[0]] + names[1..];
    assert multiset(names) == multiset{names[0]} + multiset(names[1..]);
  }

  /**
    Tries to lease and evaluate the named jobs, or every listed job when no
    names are given. `leased` holds the jobs whose lease another worker
    holds; they are skipped. Leases this pass takes are released before it
    returns. `launches` are the flows the engine hands out during the pass.
   */
  function RunOnce(store: Store, leased: set<JobId>, names: seq<JobId>, listing: seq<JobId>, force: bool,
                   now: int, engine: Engine, launches: Launches): (p: Pass)
    requires IsListing(listing, store)
    ensures p.state.store.Keys == store.Keys
    ensures forall id :: id in store && id in leased ==> p.state.store[id] == store[id]
    ensures names == [] && Fresh(PassState(store, engine, launches)) ==>
              forall id :: id in store && id !in leased ==>
                p.state.store[id] == Evaluate(PassState(store, engine, launches), id, force, now).job
    ensures names != [] ==>
              forall id :: id in store && id !in names ==> p.state.store[id] == store[id]
    ensures names != [] && Fresh(PassState(store, engine, launches)) ==>
              forall id :: id in store && id !in leased && multiset(names)[id] == 1 ==>
                p.state.store[id] == Evaluate(PassState(store, engine, launches), id, force, now).job
    ensures Fresh(PassState(store, engine, launches)) && (names == [] || NoRepeats(names)) ==>
              p.errors == FailuresIn(PassState(store, engine, launches), leased,
                                     if names == [] then listing else names, force, now)
    ensures AllValid(store) ==> AllValid(p.state.store)
  {
    var st := PassState(store, engine, launches);
    var todo := if names == [] then listing else names;
    ListingCountsOnce(listing, store);
    RunEachCountsFailures(st, leased, todo, force, now);
    RunEach(st, leased, todo, force, now)
  }

  /** A listing without repetitions names each job once. */
  lemma {:induction false} NoRepeatsCountOnce(names: seq<JobId>, id: JobId)
    requires NoRepeats(names)
    requires id in names
    ensures multiset(names)[id] == 1
  {
    TailNoRepeats(names);
    if names[0] != id {
      NoRepeatsCountOnce(names[1..], id);
    }
    assert names == [names[0]] + names[1..];
  }

  lemma ListingCountsOnce(listing: seq<JobId>, store: Store)
    requires IsListing(listing, store)
    ensures forall id :: id in store ==> multiset(listing)[id] == 1
  {
    forall id | id in store
      ensures multiset(listing)[id] == 1
    {
      NoRepeatsCountOnce(listing, id);
    }
  }

  /** The number of names whose job, evaluated from `st`, raises. */
  function FailuresIn(st: PassState, leased: set<JobId>, names: seq<JobId>, force: bool, now: int): nat
    decreases |names|
  {
    if names == [] then 0
    else
      var id := names[0];
      var fails := id !in leased && (id !in st.store || Evaluate(st, id, force, now).error.Some?);
      (if fails then 1 else 0) + FailuresIn(st, leased, names[1..], force, now)
  }

  /** Only the evaluations of the names themselves matter to their failure count. */
  lemma {:induction false} FailuresInFrame(s1: PassState, s2: PassState, leased: set<JobId>, names: seq<JobId>,
                                           force: bool, now: int)
    requires forall id :: id in names ==>
               && (id in s1.store <==> id in s2.store)
               && (id in s1.store ==> Evaluate(s1, id, force, now) == Evaluate(s2, id, force, now))
    ensures FailuresIn(s1, leased, names, force, now) == FailuresIn(s2, leased, names, force, now)
    decreases |names|
  {
    if names != [] {
      assert forall id :: id in names[1..] ==> id in names;
      FailuresInFrame(s1, s2, leased, names[1..], force, now);
    }
  }

  /**
    Over names without repetitions and fresh launches, the pass counts
    exactly the jobs whose evaluation from the original state raises: an
    error in one job neither stops nor changes the evaluation of the others.
   */
  lemma {:induction false} RunEachCountsFailures(st: PassState, leased: set<JobId>, names: seq<JobId>, force: bool, now: int)
    ensures NoRepeats(names) && Fresh(st) ==>
              RunEach(st, leased, names, force, now).errors == FailuresIn(st, leased, names, force, now)
    decreases |names|
  {
    if names != [] && NoRepeats(names) && Fresh(st) {
      var first := ProcessJob(st, leased, names[0], force, now);
      var tail := names[1..];
      var rest := RunEach(first.state, leased, tail, force, now);
      assert RunEach(st, leased, names, force, now).errors == first.errors + rest.errors;
      TailNoRepeats(names);
      ProcessJobKeepsOthers(st, leased, names[0], force, now);
      RunEachCountsFailures(first.state, leased, tail, force, now);
      assert names[0] !in tail;
      FailuresInFrame(first.state, st, leased, tail, force, now);
    }
  }

  lemma TailNoRepeats(names: seq<JobId>)
    requires names != [] && NoRepeats(names)
    ensures NoRepeats(names[1..]) && names[0] !in names[1..]
  {
    var tail := names[1..];
    forall i, j | 0 <= i < j < |tail| ensures tail[i] != tail[j] {
      assert tail[i] == names[i + 1] && tail[j] == names[j + 1];
    }
  }

  // ---------------------------------------------------------------------------
  // Pruning run history

  /** The children that satisfy `keep`, in their original order. */
  function FilterChildren(children: seq<Child>, keep: Child -> bool): (r: seq<Child>)
    ensures forall c :: c in r <==> c in children && keep(c)
    ensures forall c :: multiset(r)[c] == if keep(c) then multiset(children)[c] else 0
    ensures |r| <= |children|
    ensures (forall c :: c in children ==> keep(c)) ==> r == children
    decreases |children|
  {
    if children == [] then []
    else
      assert children == [children[0]] + children[1..];
      if keep(children[0]) then [children[0]] + FilterChildren(children[1..], keep)
      else FilterChildren(children[1..], keep)
  }

  /** Every child lands on exactly one side of a filter and its complement. */
  lemma {:induction false} FilterSplits(children: seq<Child>, keep: Child -> bool)
    ensures |FilterChildren(children, keep)| + |FilterChildren(children, c => !keep(c))| == |children|
    decreases |children|
  {
    if children != [] {
      FilterSplits(children[1..], keep);
    }
  }

  datatype Pruned = Pruned(job: CronJob, destroyed: seq<Child>, count: nat)

  /**
    Deletes the runs older than the cutoff and destroys their flow states,
    returning how many it removed. `older(created, cutoff)` is the store's
    age test for a child created at `created`. A missing cutoff is refused.
   */
  function DeleteOldRuns(job: CronJob, cutoff: Option<int>, older: (int, int) -> bool): (r: Result<Pruned, ManagerError>)
    ensures r.Failure? <==> cutoff.None?
    ensures r.Failure? ==> r.error == MissingCutoff
    ensures r.Success? ==>
              && (forall c :: c in r.value.destroyed <==> c in job.children && older(c.created, cutoff.value))
              && (forall c :: c in r.value.job.children <==> c in job.children && !older(c.created, cutoff.value))
              && r.value.count == |r.value.destroyed|
              && r.value.count + |r.value.job.children| == |job.children|
              && multiset(r.value.destroyed) + multiset(r.value.job.children) == multiset(job.children)
              && r.value.job == job.(children := r.value.job.children)
    ensures r.Success? && (forall c :: c in job.children ==> !older(c.created, cutoff.value)) ==>
              r.value == Pruned(job, [], 0)
  {
    match cutoff
    case None => Failure(MissingCutoff)
    case Some(t) =>
      var isOld := (c: Child) => older(c.created, t);
      var removed := FilterChildren(job.children, isOld);
      var kept := FilterChildren(job.children, c => !isOld(c));
      FilterSplits(job.children, isOld);
      assert removed != [] ==> removed[0] in removed;
      assert forall c :: (multiset(removed) + multiset(kept))[c] == multiset(job.children)[c];
      Success(Pruned(job.(children := kept), removed, |removed|))
  }

  // ---------------------------------------------------------------------------
  // State of stateful system jobs

  /** The state dictionary of job `id`; a job without one reads as empty. */
  function ReadCronState(store: Store, id: JobId): (r: Result<map<string, string>, ManagerError>)
    ensures r.Failure? <==> id !in store
    ensures r.Failure? ==> r.error == StateReadError(id)
    ensures r.Success? ==> r.value == store[id].state
  {
    if id !in store then Failure(StateReadError(id)) else Success(store[id].state)
  }

  /**
    Replaces the state dictionary of job `id`, under the job's lease. An
    empty state is not written at all. `leaseTimedOut` says whether waiting
    for the lease, held elsewhere, ran out; the write then raises.
   */
  function WriteCronState(store: Store, id: JobId, state: map<string, string>, leaseTimedOut: bool)
    : (r: Result<Store, ManagerError>)
    ensures state == map[] ==> r == Success(store)
    ensures state != map[] && leaseTimedOut ==> r == Failure(StateLockTimeout(id))
    ensures state != map[] && !leaseTimedOut ==> (r.Failure? <==> id !in store)
    ensures r.Failure? && !leaseTimedOut ==> r.error == StateWriteError(id)
    ensures state != map[] && r.Success? ==>
              r.value == store[id := store[id].(state := state)]
  {
    if state == map[] then Success(store)
    else if leaseTimedOut then Failure(StateLockTimeout(id))
    else if id !in store then Failure(StateWriteError(id))
    else Success(store[id := store[id].(state := state)])
  }
}
