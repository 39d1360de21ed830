/**
  Registration of the built-in system cron flows: every registered flow
  class that is a system cron flow gets a job named after it, enabled unless
  the class or the configured disabled list turns it off.
 */
module SystemCron {
  import opened Wrappers
  import opened CronJobs
  import opened CronManager

  /** A registered flow class, as far as scheduling is concerned. */
  datatype FlowClass = FlowClass(
    systemCron: bool,     // inherits from the system cron flow base class
    frequency: nat,
    lifetime: nat,
    allowOverruns: bool,
    enabled: bool)

  /** The flow registry: class name to class. */
  type Registry = map<string, FlowClass>

  /** A bad entry of the configured disabled list. */
  datatype EntryError = NoSuchFlow(name: string) | NotSystemCron(name: string)

  datatype ScheduleError =
    | UnknownFlow(name: string)                        // a name to schedule is not registered
    | BadDisabledEntries(entries: seq<EntryError>)     // raised after all jobs were written

  /** Checks every disabled-list entry and collects, in order, those that name no system cron flow. */
  function DisabledListErrors(disabledList: seq<string>, registry: Registry): (errs: seq<EntryError>)
    ensures |errs| <= |disabledList|
    ensures forall name :: NoSuchFlow(name) in errs <==> name in disabledList && name !in registry
    ensures forall name :: NotSystemCron(name) in errs <==>
              name in disabledList && name in registry && !registry[name].systemCron
    ensures errs == [] <==> forall name :: name in disabledList ==> name in registry && registry[name].systemCron
    decreases |disabledList|
  {
    if disabledList == [] then []
    else
      var name := disabledList[0];
      var head := if name !in registry then [NoSuchFlow(name)]
                  else if !registry[name].systemCron then [NotSystemCron(name)]
                  else [];
      var rest := DisabledListErrors(disabledList[1..], registry);
      assert forall n :: n in disabledList <==> n == name || n in disabledList[1..];
      head + rest
  }

  /** The arguments written for a system cron flow: its class settings, no start time. */
  function SystemArgs(name: string, cls: FlowClass): (a: CronArgs)
    ensures a.periodicity == cls.frequency && a.lifetime == cls.lifetime
    ensures a.allowOverruns == cls.allowOverruns
    ensures a.startTime == 0
    ensures a.payload == Payload(name, None)
  {
    CronArgs("", cls.frequency, cls.lifetime, cls.allowOverruns, 0, Payload(name, None))
  }

  /** A system job is enabled when its class is and the disabled list does not name it. */
  function SystemEnabled(name: string, cls: FlowClass, disabledList: seq<string>): (enabled: bool)
    ensures !cls.enabled ==> !enabled
    ensures name in disabledList ==> !enabled
    ensures cls.enabled && name !in disabledList ==> enabled
  {
    if cls.enabled then name !in disabledList else false
  }

  datatype Scheduled = Scheduled(store: Store, error: Option<ScheduleError>)

  /** All the names are registered. */
  ghost predicate AllRegistered(names: seq<string>, registry: Registry) {
    forall name :: name in names ==> name in registry
  }

  /** The record a system flow's job holds once it has been written. */
  ghost predicate Registered(store: Store, before: Store, registry: Registry, disabledList: seq<string>, name: string)
    requires name in registry
  {
    var cls := registry[name];
    && name in store
    && store[name].args == SystemArgs(name, cls)
    && store[name].disabled == !SystemEnabled(name, cls, disabledList)
    && (name in before ==> store[name] == before[name].(args := store[name].args, disabled := store[name].disabled))
    && (name !in before ==> store[name].currentRun.None? && store[name].lastRunTime.None?)
  }

  /** Writes the job of one registered flow when it is a system cron flow; other classes are skipped. */
  function ScheduleOne(store: Store, registry: Registry, disabledList: seq<string>, name: string): (s: Store)
    requires name in registry
    ensures s.Keys == if registry[name].systemCron then store.Keys + {name} else store.Keys
    ensures forall id :: id in store && id != name ==> s[id] == store[id]
    ensures !registry[name].systemCron ==> s == store
    ensures registry[name].systemCron ==> Registered(s, store, registry, disabledList, name)
    ensures AllValid(store) ==> AllValid(s)
  {
    var cls := registry[name];
    if cls.systemCron then Upsert(store, name, SystemArgs(name, cls), SystemEnabled(name, cls, disabledList)).store
    else store
  }

  /** Writing a system flow's job again over a store where it was written leaves it registered. */
  lemma RegisteredRebase(store: Store, next: Store, after: Store, registry: Registry, disabledList: seq<string>, name: string)
    requires name in registry
    requires name in store ==> name in next && next[name] == store[name].(args := next[name].args, disabled := next[name].disabled)
    requires name !in store && name in next ==> next[name].currentRun.None? && next[name].lastRunTime.None?
    requires Registered(after, next, registry, disabledList, name)
    ensures Registered(after, store, registry, disabledList, name)
  {
  }

  /** The position of the first unregistered name, or the length when every name is registered. */
  function FirstUnregistered(names: seq<string>, registry: Registry): (k: nat)
    ensures k <= |names|
    ensures forall i :: 0 <= i < k ==> names[i] in registry
    ensures k < |names| ==> names[k] !in registry
    decreases |names|
  {
    if names == [] || names[0] !in registry then 0
    else 1 + FirstUnregistered(names[1..], registry)
  }

  /** When every name is registered, no name is left unwritten. */
  lemma AllRegisteredIsWhole(names: seq<string>, registry: Registry)
    ensures AllRegistered(names, registry) <==> FirstUnregistered(names, registry) == |names|
    ensures AllRegistered(names, registry) ==> names[..FirstUnregistered(names, registry)] == names
  {
    var k := FirstUnregistered(names, registry);
    if k < |names| {
      assert names[k] in names;
    }
  }

  /**
    Writes the jobs of the system cron flows among `names`, in order. Other
    flow classes are skipped. An unregistered name raises at once; the jobs
    written before it stay written, and none after it is written.
   */
  function ScheduleEach(store: Store, registry: Registry, disabledList: seq<string>, names: seq<string>): (r: Scheduled)
    ensures r.error.Some? <==> FirstUnregistered(names, registry) < |names|
    ensures r.error.Some? ==> r.error == Some(UnknownFlow(names[FirstUnregistered(names, registry)]))
    ensures forall id :: id in store ==> id in r.store
    // Only the names before the first unregistered one are written.
    ensures var done := names[..FirstUnregistered(names, registry)];
            && (forall id :: id in r.store ==> id in store || (id in done && id in registry && registry[id].systemCron))
            && (forall id :: id in store && (id !in done || (id in registry && !registry[id].systemCron)) ==>
                  r.store[id] == store[id])
            && (forall name :: name in done && name in registry && registry[name].systemCron ==>
                  Registered(r.store, store, registry, disabledList, name))
    ensures AllValid(store) ==> AllValid(r.store)
    decreases |names|
  {
    if names == [] then Scheduled(store, None)
    else
      var name := names[0];
      if name !in registry then Scheduled(store, Some(UnknownFlow(name)))
      else
        var next := ScheduleOne(store, registry, disabledList, name);
        var rest := ScheduleEach(next, registry, disabledList, names[1..]);
        var done := names[1..][..FirstUnregistered(names[1..], registry)];
        assert names[..FirstUnregistered(names, registry)] == [name] + done;
        ScheduleEachStep(store, next, rest.store, registry, disabledList, name, done);
        rest
  }

  /** The registration facts of one step and of the names written after it combine. */
  lemma ScheduleEachStep(store: Store, next: Store, after: Store, registry: Registry, disabledList: seq<string>,
                         name: string, done: seq<string>)
    requires name in registry
    requires next == ScheduleOne(store, registry, disabledList, name)
    requires forall id :: id in next ==> id in after
    requires forall id :: id in next && (id !in done || (id in registry && !registry[id].systemCron)) ==>
               after[id] == next[id]
    requires forall n :: n in done && n in registry && registry[n].systemCron ==>
               Registered(after, next, registry, disabledList, n)
    ensures forall n :: (n == name || n in done) && n in registry && registry[n].systemCron ==>
              Registered(after, store, registry, disabledList, n)
  {
    forall n | (n == name || n in done) && n in registry && registry[n].systemCron
      ensures Registered(after, store, registry, disabledList, n)
    {
      if n in done {
        RegisteredRebase(store, next, after, registry, disabledList, n);
      } else {
        assert after[n] == next[n];
      }
    }
  }

  /**
    Schedules the system cron flows among `names`, or among all registered
    flows when `names` is None (`registryOrder` enumerates the registry).
    Bad disabled-list entries are raised only after every job was written.
   */
  function ScheduleSystemCronFlows(store: Store, registry: Registry, registryOrder: seq<string>,
                                   disabledList: seq<string>, names: Option<seq<string>>): (r: Scheduled)
    requires forall name :: name in registryOrder <==> name in registry
    ensures var todo := if names.None? then registryOrder else names.value;
            r.store == ScheduleEach(store, registry, disabledList, todo).store
    ensures names.None? ==>
              forall name :: name in registry && registry[name].systemCron ==>
                Registered(r.store, store, registry, disabledList, name)
    ensures names.None? ==> r.error.None? || r.error.value.BadDisabledEntries?
    ensures r.error.Some? && r.error.value.BadDisabledEntries? ==>
              r.error.value.entries == DisabledListErrors(disabledList, registry) && r.error.value.entries != []
    ensures names.None? && DisabledListErrors(disabledList, registry) != [] ==>
              r.error == Some(BadDisabledEntries(DisabledListErrors(disabledList, registry)))
    ensures DisabledListErrors(disabledList, registry) == [] ==> r.error.None? || r.error.value.UnknownFlow?
    // An unregistered name to schedule raises first; only then are the disabled-list entries reported.
    ensures var todo := if names.None? then registryOrder else names.value;
            FirstUnregistered(todo, registry) < |todo| ==>
              r.error == Some(UnknownFlow(todo[FirstUnregistered(todo, registry)]))
    ensures var todo := if names.None? then registryOrder else names.value;
            FirstUnregistered(todo, registry) == |todo| && DisabledListErrors(disabledList, registry) != [] ==>
              r.error == Some(BadDisabledEntries(DisabledListErrors(disabledList, registry)))
    ensures AllValid(store) ==> AllValid(r.store)
  {
    var errs := DisabledListErrors(disabledList, registry);
    var todo := if names.None? then registryOrder else names.value;
    var s := ScheduleEach(store, registry, disabledList, todo);
    AllRegisteredIsWhole(todo, registry);
    if s.error.Some? then s
    else if errs != [] then Scheduled(s.store, Some(BadDisabledEntries(errs)))
    else s
  }

  /**
    Rescheduling a system flow whose job has a start time set writes its
    class arguments over it: the start time is not carried forward.
   */
  lemma StartTimeNotCarriedForward(store: Store, registry: Registry, registryOrder: seq<string>,
                                   disabledList: seq<string>, name: string)
    requires forall n :: n in registryOrder <==> n in registry
    requires name in registry && registry[name].systemCron
    requires name in store && store[name].args.startTime != 0
    ensures var r := ScheduleSystemCronFlows(store, registry, registryOrder, disabledList, None);
            && r.store[name].args.startTime == 0
            && r.store[name].args != store[name].args
  {
  }
}
