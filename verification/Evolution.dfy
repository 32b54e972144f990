/** What a call can do to waits, leases and their history, as a few kinds of steps. Whatever these steps
    preserve, every run of calls preserves. */
module Evolution {
  import opened Values
  import opened Definition
  import opened EngineState
  import opened Executor
  import opened ExecutorFrame
  import opened Operations
  import opened CallFrames
  import opened IntegrityProofs
  import opened Runs

  /** Tasks are new and unlocked, or old with the lease they had. */
  ghost predicate TasksKept(m: ServiceTasks, m': ServiceTasks, next: Uuid) {
    forall id <- m' ::
      || (id >= next && m'[id].data.workerId.None? && m'[id].data.lockExpiration.None?)
      || (id in m && m'[id].data == m[id].data.(definitionKey := m'[id].data.definitionKey)
          && m'[id].instanceId == m[id].instanceId && m'[id].tokenId == m[id].tokenId)
  }

  ghost predicate TimersKept(m: Timers, m': Timers, next: Uuid) {
    forall id <- m' ::
      || (id >= next && m'[id].data.origin == id && m'[id].data.remaining.None?)
      || (id in m && m'[id] == m[id].(nodeId := m'[id].nodeId))
  }

  ghost predicate CatchesKept(m: Catches, m': Catches, next: Uuid) {
    forall id <- m' :: id >= next || (id in m && m'[id] == m[id].(nodeId := m'[id].nodeId))
  }

  /** Nothing fires and nothing is consumed: entries go, fresh ones come, old ones at most get another
      node. */
  ghost predicate Quiet(a: State, b: State) {
    && a.nextId <= b.nextId && b.fired == a.fired && b.consumed == a.consumed && KeysKept(a, b)
    && TasksKept(a.serviceTasks, b.serviceTasks, a.nextId)
    && TimersKept(a.timers, b.timers, a.nextId) && CatchesKept(a.catches, b.catches, a.nextId)
  }

  /** Timer `id` fires: it and its token's other waits go, the instance runs on, and a recurring timer
      may be scheduled again. */
  ghost predicate FiresTimer(a: State, b: State, id: Uuid, mid: State, env: Env) {
    && id in a.timers && Sane(mid) && Quiet(TimerCleared(a, id), mid)
    && (b == mid || b == Reschedule(mid, a.timers[id], env))
  }

  ghost predicate FiresCatch(a: State, b: State, id: Uuid) {
    id in a.catches && Quiet(CatchCleared(a, id), b)
  }

  /** Service task `id` is completed, resolved or ended by an error. */
  ghost predicate Consumes(a: State, b: State, id: Uuid) {
    id in a.serviceTasks && Quiet(TakeServiceTask(a, id), b)
  }

  /** A step of a call other than the four that change leases. */
  ghost predicate Moves(a: State, b: State) {
    && Sane(a) && Sane(b)
    && (|| Quiet(a, b)
        || (exists id, mid, env :: FiresTimer(a, b, id, mid, env))
        || (exists id :: FiresCatch(a, b, id))
        || (exists id :: Consumes(a, b, id)))
  }

  /** Only leases change, and a worker and an expiry come and go together. */
  ghost predicate Relets(a: State, b: State) {
    && Sane(a) && Sane(b) && b == a.(serviceTasks := b.serviceTasks) && SameRefs(a.serviceTasks, b.serviceTasks)
    && (forall id <- a.serviceTasks :: Paired(a.serviceTasks[id]) ==> Paired(b.serviceTasks[id]))
  }

  ghost predicate Paired(e: Entry<ServiceInfo>) {
    e.data.workerId.Some? <==> e.data.lockExpiration.Some?
  }

  predicate LeaseCall(c: Call) {
    c.Fetch? || c.ServiceFailed? || c.Retry? || c.Extend?
  }

  ghost predicate PreservedBySteps(inv: State -> bool) {
    forall a, b :: Moves(a, b) && inv(a) ==> inv(b)
  }

  ghost predicate PreservedByLeases(inv: State -> bool) {
    forall a, b :: Relets(a, b) && inv(a) ==> inv(b)
  }

  // ---- Frames are steps ----

  lemma RunsOnQuiet(a: State, b: State)
    requires RunsOn(a, b) && KeysKept(a, b)
    ensures Quiet(a, b)
  {}

  lemma RunsOnStep(a: State, b: State)
    requires Sane(a) && Sane(b) && RunsOn(a, b) && KeysKept(a, b)
    ensures Moves(a, b)
  {
    RunsOnQuiet(a, b);
  }

  lemma WithinStep(a: State, b: State, i: Uuid)
    requires Sane(a) && Within(a, b, i)
    ensures Moves(a, b)
  {
    RunsOnStep(a, b);
  }

  lemma ConsumedStep(s: State, s': State, id: Uuid)
    requires Sane(s) && (s' == s || Consumed(s, s', id))
    ensures Moves(s, s')
  {
    if s' == s {
      RunsOnStep(s, s);
    } else {
      RunsOnQuiet(TakeServiceTask(s, id), s');
      assert Consumes(s, s', id);
    }
  }

  lemma RemapQuiet(tasks: ServiceTasks, timers: Timers, catches: Catches, i: Uuid, key: Uuid,
      mapping: map<string, string>, next: Uuid)
    ensures TasksKept(tasks, RemapServices(tasks, i, mapping, key), next)
    ensures TimersKept(timers, RemapEntries(timers, i, mapping), next)
    ensures CatchesKept(catches, RemapEntries(catches, i, mapping), next)
  {
    hide Remap;
  }

  lemma MigratedQuiet(s: State, i: Uuid, key: Uuid, mapping: map<string, string>, order: MigrationOrder)
    requires i in s.instances && key in s.definitions
    ensures Quiet(s, Migrated(s, i, key, mapping, order))
  {
    RemapQuiet(s.serviceTasks, s.timers, s.catches, i, key, mapping, s.nextId);
    assert MigratedInstance(s.instances[i], key, mapping, order).definitionKey
      == key by { hide RemapKeys, RemapActive, Remap; }
    hide MigratedInstance, RemapEntries, RemapServices, TasksKept, TimersKept, CatchesKept;
  }

  lemma MigrateStep(s: State, i: Uuid, key: Uuid, mapping: map<string, string>, order: MigrationOrder)
    requires Sane(s)
    ensures Moves(s, Migrate(s, i, key, mapping, order).0)
  {
    MigrateFrame(s, i, key, mapping, order);
    SameStep(s);
    hide Migrated, FirstOrphan, Sane, TouchesOnly, Quiet, KeysKept;
    if i in s.instances && key in s.definitions {
      MigratedQuiet(s, i, key, mapping, order);
    }
  }

  lemma RescheduleSane(s: State, timer: Entry<TimerInfo>, env: Env)
    requires Sane(s)
    ensures Sane(Reschedule(s, timer, env))
  {}

  lemma StepsParts(s: State, s': State, i: Uuid)
    requires Steps(s, s', i)
    ensures Sane(s') && Quiet(s, s')
  {
    RunsOnQuiet(s, s');
  }

  lemma FireTimerStep(s: State, id: Uuid, defOrder: seq<Uuid>, env: Env)
    requires Sane(s)
    ensures Moves(s, FireTimer(s, id, defOrder, env).0)
  {
    hide Sane, Steps, ResumeTimer, Reschedule, Quiet, RunsOn;
    var s' := FireTimer(s, id, defOrder, env).0;
    if id in s.timers {
      ResumeTimerSteps(s, id, defOrder, env);
      var mid := ResumeTimer(s, id, defOrder, env).0;
      StepsParts(TimerCleared(s, id), mid, s.timers[id].instanceId);
      RescheduleSane(mid, s.timers[id], env);
      assert FiresTimer(s, s', id, mid, env);
    } else {
      SameStep(s);
    }
  }

  lemma SameStep(s: State)
    requires Sane(s)
    ensures Moves(s, s)
  {
    assert Quiet(s, s);
  }

  lemma FireCatchStep(s: State, id: Uuid, variables: Variables, defOrder: seq<Uuid>, env: Env)
    requires Sane(s)
    ensures Moves(s, FireCatch(s, id, variables, defOrder, env).0)
  {
    if id in s.catches {
      hide Sane, Steps, Quiet, RunsOn, FireCatch;
      FireCatchSteps(s, id, variables, defOrder, env);
      StepsParts(CatchCleared(s, id), FireCatch(s, id, variables, defOrder, env).0, s.catches[id].instanceId);
      assert FiresCatch(s, FireCatch(s, id, variables, defOrder, env).0, id);
    } else {
      hide Sane, Quiet;
      SameStep(s);
    }
  }

  // ---- Calls are sequences of steps ----

  lemma {:induction false} FireTimersPreserve(s: State, ids: seq<Uuid>, defOrder: seq<Uuid>, envs: nat -> Env, k: nat,
      inv: State -> bool)
    requires Sane(s) && inv(s) && PreservedBySteps(inv)
    ensures var s' := FireTimers(s, ids, defOrder, envs, k).0; Sane(s') && inv(s')
    decreases |ids|
  {
    hide Sane, FireTimer;
    if ids != [] {
      FireTimerStep(s, ids[0], defOrder, envs(k));
      FireTimersPreserve(FireTimer(s, ids[0], defOrder, envs(k)).0, ids[1..], defOrder, envs, k + 1, inv);
    }
  }

  lemma {:induction false} FireCatchesPreserve(s: State, ids: seq<Uuid>, variables: Variables, defOrder: seq<Uuid>,
      envs: nat -> Env, k: nat, inv: State -> bool)
    requires Sane(s) && inv(s) && PreservedBySteps(inv)
    ensures var s' := FireCatches(s, ids, variables, defOrder, envs, k).0; Sane(s') && inv(s')
    decreases |ids|
  {
    hide Sane, FireCatch;
    if ids != [] {
      FireCatchStep(s, ids[0], variables, defOrder, envs(k));
      FireCatchesPreserve(FireCatch(s, ids[0], variables, defOrder, envs(k)).0, ids[1..], variables, defOrder, envs,
        k + 1, inv);
    }
  }

  lemma {:induction false} StartEachPreserves(s: State, keys: seq<Uuid>, variables: Variables,
      businessKey: Option<string>, envs: nat -> Env, k: nat, inv: State -> bool)
    requires Sane(s) && inv(s) && PreservedBySteps(inv)
    ensures var s' := StartEach(s, keys, variables, businessKey, envs, k).0; Sane(s') && inv(s')
    decreases |keys|
  {
    hide Sane, Within, StartInstance, WithBusinessKey;
    if keys != [] {
      var (s1, r) := StartInstance(s, keys[0], variables, envs(k));
      StartInstanceWithin(s, keys[0], variables, envs(k));
      WithinStep(s, s1, s.nextId);
      if r.Ok? {
        var s2 := WithBusinessKey(s1, r.value, businessKey);
        WithBusinessKeyWithin(s1, r.value, businessKey);
        WithinStep(s1, s2, r.value);
        StartEachPreserves(s2, keys[1..], variables, businessKey, envs, k + 1, inv);
      }
    }
  }

  lemma CorrelatePreserves(s: State, name: string, businessKey: Option<string>, variables: Variables,
                           order: seq<Uuid>, defOrder: seq<Uuid>, envs: nat -> Env, inv: State -> bool)
    requires Sane(s) && inv(s) && PreservedBySteps(inv)
    ensures var s' := CorrelateMessage(s, name, businessKey, variables, order, defOrder, envs).0; Sane(s') && inv(s')
  {
    hide Sane, FireCatches, StartEach, PreservedBySteps;
    var ids := MatchingCatches(s, name, businessKey, order);
    FireCatchesPreserve(s, ids, variables, defOrder, envs, 0, inv);
    var s1 := FireCatches(s, ids, variables, defOrder, envs, 0).0;
    StartEachPreserves(s1, StartedBy(s1.definitions, name, defOrder), variables, businessKey, envs, |ids|, inv);
  }

  /** The calls that are one step. */
  lemma SingleStep(s: State, c: Call)
    requires Sane(s) && !LeaseCall(c) && !c.Timers? && !c.Message?
    ensures Moves(s, Apply(s, c))
  {
    hide Sane, Within, CompleteUserTask, CompleteServiceTask, ResolveIncident, Consumed, Moves, RunsOn, TouchesOnly;
    hide HandleBpmnError, StartInstance, UpdateVariables, Suspend, Resume, MoveToken, DeleteInstance, Migrate;
    var s' := Apply(s, c);
    match c
    case UserDone(id, extra, env) =>
      CompleteUserTaskWithin(s, id, extra, env);
      if id in s.userTasks { WithinStep(s, s', s.userTasks[id].instanceId); } else { SameStep(s); }
    case ServiceDone(id, worker, extra, env) => CompleteServiceTaskFrame(s, id, worker, extra, env);
      ConsumedStep(s, s', id);
    case Resolve(id, extra, env) => ResolveIncidentFrame(s, id, extra, env); ConsumedStep(s, s', id);
    case Error(id, worker, code, env) => HandleBpmnErrorFrame(s, id, worker, code, env); ConsumedStep(s, s', id);
    case Start(key, variables, env) => StartInstanceWithin(s, key, variables, env); WithinStep(s, s', s.nextId);
    case Update(i, update) => InstanceCallsWithin(s, i, update); WithinStep(s, s', i);
    case Pause(i) => InstanceCallsWithin(s, i, map[]); WithinStep(s, s', i);
    case Continue(i) => InstanceCallsWithin(s, i, map[]); WithinStep(s, s', i);
    case Move(i, target, update, cancel, env) => MoveTokenWithin(s, i, target, update, cancel, env);
      WithinStep(s, s', i);
    case MigrateTo(i, key, mapping, order) => MigrateStep(s, i, key, mapping, order);
    case Delete(i, storeOk) => DeleteInstanceFrame(s, i, storeOk); RunsOnStep(s, s');
  }

  lemma CallPreserves(s: State, c: Call, inv: State -> bool)
    requires Sane(s) && inv(s) && PreservedBySteps(inv) && !LeaseCall(c)
    ensures Sane(Apply(s, c)) && inv(Apply(s, c))
  {
    hide Sane, FireTimers, CorrelateMessage;
    match c
    case Timers(now, order, defOrder, envs) => FireTimersPreserve(s, Expired(s, now, order), defOrder, envs, 0, inv);
    case Message(name, businessKey, variables, order, defOrder, envs) =>
      CorrelatePreserves(s, name, businessKey, variables, order, defOrder, envs, inv);
    case _ =>
      hide Apply;
      SingleStep(s, c);
      StepSane(s, Apply(s, c));
  }

  lemma StepSane(a: State, b: State)
    requires Moves(a, b)
    ensures Sane(b)
  {}

  // ---- Calls that change leases ----

  lemma LeasesSane(s: State, m: ServiceTasks)
    requires Sane(s) && SameRefs(s.serviceTasks, m)
    ensures Sane(s.(serviceTasks := m))
  {}

  lemma {:induction false} LockTasksPairs(m: ServiceTasks, order: seq<Uuid>, worker: string, room: nat,
      topics: seq<string>, now: Time, until: Time)
    ensures var m' := LockTasks(m, order, worker, room, topics, now, until).0;
      m'.Keys == m.Keys && forall id <- m :: Paired(m[id]) ==> Paired(m'[id])
    decreases |order|
  {
    if order != [] && room > 0 {
      var id := order[0];
      if id in m && Lockable(m[id], topics, now) {
        LockTasksPairs(m[id := Locked(m[id], worker, until)], order[1..], worker, room - 1, topics, now, until);
      } else {
        LockTasksPairs(m, order[1..], worker, room, topics, now, until);
      }
    }
  }

  lemma FetchRelets(s: State, worker: string, max: nat, topics: seq<string>, duration: int, now: Time, order: seq<Uuid>)
    requires Sane(s)
    ensures Relets(s, FetchAndLock(s, worker, max, topics, duration, now, order).0)
  {
    LockTasksSameRefs(s.serviceTasks, order, worker, max, topics, now, now + duration);
    LockTasksPairs(s.serviceTasks, order, worker, max, topics, now, now + duration);
    hide Sane;
    LeasesSane(s, FetchAndLock(s, worker, max, topics, duration, now, order).0.serviceTasks);
  }

  lemma TaskRelets(s: State, id: Uuid, data: ServiceInfo)
    requires Sane(s) && id in s.serviceTasks
    requires Paired(s.serviceTasks[id]) ==> (data.workerId.Some? <==> data.lockExpiration.Some?)
    ensures Relets(s, s.(serviceTasks := s.serviceTasks[id := s.serviceTasks[id].(data := data)]))
  {
    LeasesSane(s, s.serviceTasks[id := s.serviceTasks[id].(data := data)]);
  }

  lemma SameRelets(s: State)
    requires Sane(s)
    ensures Relets(s, s)
  {}

  lemma ExtendRelets(s: State, id: Uuid, worker: string, duration: int, now: Time)
    requires Sane(s)
    ensures Relets(s, ExtendLock(s, id, worker, duration, now).0)
  {
    SameRelets(s);
    hide Sane, Relets;
    if id in s.serviceTasks && !LockError(s.serviceTasks[id], worker).Failed? {
      TaskRelets(s, id, s.serviceTasks[id].data.(lockExpiration := Some(now + duration)));
    }
  }

  lemma ReleaseRelets(s: State, id: Uuid, left: int, message: Option<string>, details: Option<string>)
    requires Sane(s) && id in s.serviceTasks
    ensures Relets(s, s.(serviceTasks := s.serviceTasks[id := Released(s.serviceTasks[id], left, message, details)]))
  {
    hide Sane, Relets;
    TaskRelets(s, id, Released(s.serviceTasks[id], left, message, details).data);
  }

  lemma FailureRelets(s: State, id: Uuid, worker: string, retries: Option<int>, message: Option<string>,
      details: Option<string>)
    requires Sane(s)
    ensures Relets(s, FailServiceTask(s, id, worker, retries, message, details).0)
  {
    hide Sane, Relets, Released, LockError;
    SameRelets(s);
    if id in s.serviceTasks {
      var left := match retries case Some(r) => r case None => s.serviceTasks[id].data.retries - 1;
      ReleaseRelets(s, id, left, message, details);
    }
  }

  lemma RetryRelets(s: State, id: Uuid, retries: Option<int>)
    requires Sane(s)
    ensures Relets(s, RetryIncident(s, id, retries).0)
  {
    hide Sane, Relets, Released;
    SameRelets(s);
    if id in s.serviceTasks {
      var left := match retries case Some(r) => r case None => 3;
      ReleaseRelets(s, id, left, None, None);
    }
  }

  lemma LeaseCallRelets(s: State, c: Call)
    requires Sane(s) && LeaseCall(c)
    ensures Relets(s, Apply(s, c))
  {
    hide Sane, Relets, FetchAndLock, ExtendLock, FailServiceTask, RetryIncident;
    match c
    case Fetch(worker, max, topics, duration, now, order) => FetchRelets(s, worker, max, topics, duration, now, order);
    case Extend(id, worker, duration, now) => ExtendRelets(s, id, worker, duration, now);
    case ServiceFailed(id, worker, retries, message, details) =>
      FailureRelets(s, id, worker, retries, message, details);
    case Retry(id, retries) => RetryRelets(s, id, retries);
  }

  lemma ReletsSane(a: State, b: State)
    requires Relets(a, b)
    ensures Sane(b)
  {}

  // ---- Runs ----

  /** Whatever the steps preserve holds after every run of calls. */
  lemma {:induction false} RunPreserves(s: State, calls: seq<Call>, inv: State -> bool)
    requires Sane(s) && inv(s) && PreservedBySteps(inv) && PreservedByLeases(inv)
    ensures Sane(RunCalls(s, calls)) && inv(RunCalls(s, calls))
    decreases |calls|
  {
    hide Sane, Apply, PreservedBySteps, Relets;
    if calls != [] {
      var c := calls[0];
      if LeaseCall(c) {
        LeaseCallRelets(s, c);
        ReletsSane(s, Apply(s, c));
      } else {
        CallPreserves(s, c, inv);
      }
      RunPreserves(Apply(s, c), calls[1..], inv);
    }
  }
}
