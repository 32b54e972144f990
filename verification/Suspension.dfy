/** Suspension: the calls that respect it leave a suspended instance exactly as it is, and resuming
    brings back what was suspended (engine-core/src/engine/instance_ops.rs). */
module Suspension {
  import opened Values
  import opened Definition
  import opened EngineState
  import opened Executor
  import opened ExecutorFrame
  import opened Operations
  import opened CallFrames
  import opened Runs
  import opened Evolution
  import opened Waits

  /** Instance `i`, its tokens and its pending entries are as they were. */
  ghost predicate Frozen(s: State, s': State, i: Uuid) {
    View(s', i) == View(s, i)
  }

  lemma ElsewhereFrozen(s: State, s': State, i: Uuid, j: Uuid)
    requires TouchesOnly(s, s', j) && j != i
    ensures Frozen(s, s', i)
  {
    UntouchedView(s, s', j, i);
  }

  lemma WithinFrozen(s: State, s': State, i: Uuid, j: Uuid)
    requires Within(s, s', j) && j != i
    ensures Frozen(s, s', i)
  {
    hide Sane, RunsOn, TouchesOnly, View;
    ElsewhereFrozen(s, s', i, j);
  }

  lemma UserDoneFreezes(s: State, id: Uuid, extra: Variables, env: Env, i: Uuid)
    requires Sane(s) && IsSuspended(s, i)
    ensures Frozen(s, CompleteUserTask(s, id, extra, env).0, i)
  {
    if id in s.userTasks && s.userTasks[id].instanceId == i {
      assert (s.userTasks - {id})[id := s.userTasks[id]] == s.userTasks;
    } else {
      hide CompleteUserTask, Within, View, Sane;
      CompleteUserTaskWithin(s, id, extra, env);
      if id in s.userTasks {
        WithinFrozen(s, CompleteUserTask(s, id, extra, env).0, i, s.userTasks[id].instanceId);
      }
    }
  }

  lemma ConsumedElsewhereFrozen(s: State, s': State, id: Uuid, i: Uuid)
    requires Sane(s) && (s' == s || Consumed(s, s', id))
      && (id in s.serviceTasks ==> s.serviceTasks[id].instanceId != i)
    ensures Frozen(s, s', i)
  {
    if s' != s {
      hide Within, View, Sane, TouchesOnly;
      var j := s.serviceTasks[id].instanceId;
      TakeServiceTaskFrame(s, id);
      ElsewhereFrozen(s, TakeServiceTask(s, id), i, j);
      WithinFrozen(TakeServiceTask(s, id), s', i, j);
    }
  }

  lemma ServiceDoneFreezes(s: State, id: Uuid, worker: string, extra: Variables, env: Env, i: Uuid)
    requires Sane(s) && IsSuspended(s, i)
    ensures Frozen(s, CompleteServiceTask(s, id, worker, extra, env).0, i)
  {
    if id in s.serviceTasks && s.serviceTasks[id].instanceId == i {
      var task := s.serviceTasks[id];
      assert task.id == id && (s.serviceTasks - {id})[id := task] == s.serviceTasks;
    } else {
      hide CompleteServiceTask, Consumed, View, Sane;
      CompleteServiceTaskFrame(s, id, worker, extra, env);
      ConsumedElsewhereFrozen(s, CompleteServiceTask(s, id, worker, extra, env).0, id, i);
    }
  }

  lemma StepsFrozen(s: State, s': State, i: Uuid, j: Uuid)
    requires Steps(s, s', j) && j != i && i < s.nextId
    ensures Frozen(s, s', i)
  {}

  lemma RescheduleFrozen(s: State, e: Entry<TimerInfo>, env: Env, i: Uuid)
    requires Sane(s) && e.instanceId != i
    ensures Frozen(s, Reschedule(s, e, env), i)
  {
    var s' := Reschedule(s, e, env);
    assert OfInstance(s'.timers, i) == OfInstance(s.timers, i);
  }

  lemma FireTimerFreezes(s: State, id: Uuid, defOrder: seq<Uuid>, env: Env, i: Uuid)
    requires Sane(s) && i < s.nextId && id in s.timers && s.timers[id].instanceId != i
    ensures Frozen(s, FireTimer(s, id, defOrder, env).0, i)
  {
    var e, mid := s.timers[id], ResumeTimer(s, id, defOrder, env).0;
    ResumeTimerSteps(s, id, defOrder, env);
    TimerClearedFrame(s, id);
    TimerClearedParts(s, id);
    hide ResumeTimer, TimerCleared, Reschedule, View, Sane, TouchesOnly, Quiet;
    StepsParts(TimerCleared(s, id), mid, e.instanceId);
    ElsewhereFrozen(s, TimerCleared(s, id), i, e.instanceId);
    StepsFrozen(TimerCleared(s, id), mid, i, e.instanceId);
    RescheduleFrozen(mid, e, env, i);
  }

  /** None of the collected timers belongs to the instance, and none can come to. */
  lemma {:induction false} FireTimersFreeze(s: State, ids: seq<Uuid>, defOrder: seq<Uuid>, envs: nat -> Env, k: nat,
      low: Uuid, i: Uuid)
    requires Sane(s) && i < low <= s.nextId
      && (forall id <- ids :: id < low && (id in s.timers ==> s.timers[id].instanceId != i))
    ensures Frozen(s, FireTimers(s, ids, defOrder, envs, k).0, i)
    decreases |ids|
  {
    if ids != [] && ids[0] in s.timers {
      var id := ids[0];
      var s1 := FireTimer(s, id, defOrder, envs(k)).0;
      FireTimerFreezes(s, id, defOrder, envs(k), i);
      FireTimerParts(s, id, defOrder, envs(k), low);
      assert forall x <- ids[1..] :: x in ids;
      hide FireTimer, View, Sane;
      FireTimersFreeze(s1, ids[1..], defOrder, envs, k + 1, low, i);
    }
  }

  lemma {:induction false} ExpiredNotSuspended(s: State, now: Time, order: seq<Uuid>, i: Uuid)
    requires Sane(s) && IsSuspended(s, i)
    ensures forall id <- Expired(s, now, order) :: id in s.timers && id < s.nextId && s.timers[id].instanceId != i
    decreases |order|
  {
    if order != [] {
      ExpiredNotSuspended(s, now, order[1..], i);
    }
  }

  lemma SuspendedDrawn(s: State, i: Uuid)
    requires Sane(s) && IsSuspended(s, i)
    ensures i < s.nextId
  {}

  lemma FrozenSelf(s: State, i: Uuid)
    ensures Frozen(s, s, i)
  {}

  /** The calls that respect suspension: task completion, timers, moving, migration; starting other
      instances and suspending again touch nothing of the instance either. */
  predicate Respects(c: Call) {
    c.UserDone? || c.ServiceDone? || c.Timers? || c.Move? || c.MigrateTo? || c.Start? || c.Pause?
  }

  lemma MoveFreezes(s: State, j: Uuid, target: string, update: Variables, cancel: bool, env: Env, i: Uuid)
    requires Sane(s) && IsSuspended(s, i)
    ensures Frozen(s, MoveToken(s, j, target, update, cancel, env).0, i)
  {
    if j != i {
      MoveTokenWithin(s, j, target, update, cancel, env);
      hide MoveToken, Within, Sane, View;
      WithinFrozen(s, MoveToken(s, j, target, update, cancel, env).0, i, j);
    }
  }

  lemma MigrateFreezes(s: State, j: Uuid, key: Uuid, mapping: map<string, string>, order: MigrationOrder, i: Uuid)
    requires Sane(s) && IsSuspended(s, i)
    ensures Frozen(s, Migrate(s, j, key, mapping, order).0, i)
  {
    if j != i {
      MigrateFrame(s, j, key, mapping, order);
      hide Migrate, Sane, View, TouchesOnly;
      ElsewhereFrozen(s, Migrate(s, j, key, mapping, order).0, i, j);
    }
  }

  lemma StartFreezes(s: State, key: Uuid, variables: Variables, env: Env, i: Uuid)
    requires Sane(s) && IsSuspended(s, i)
    ensures Frozen(s, StartInstance(s, key, variables, env).0, i)
  {
    SuspendedDrawn(s, i);
    hide StartInstance, Within, Sane, View;
    StartInstanceWithin(s, key, variables, env);
    WithinFrozen(s, StartInstance(s, key, variables, env).0, i, s.nextId);
  }

  lemma PauseFreezes(s: State, j: Uuid, i: Uuid)
    requires Sane(s) && IsSuspended(s, i)
    ensures Frozen(s, Suspend(s, j).0, i)
  {
    if j != i {
      InstanceCallsWithin(s, j, map[]);
      hide Suspend, Within, Sane, View;
      WithinFrozen(s, Suspend(s, j).0, i, j);
    }
  }

  lemma TimersFreeze(s: State, now: Time, order: seq<Uuid>, defOrder: seq<Uuid>, envs: nat -> Env, i: Uuid)
    requires Sane(s) && IsSuspended(s, i)
    ensures Frozen(s, ProcessTimers(s, now, order, defOrder, envs).0, i)
  {
    SuspendedDrawn(s, i);
    ExpiredNotSuspended(s, now, order, i);
    hide FireTimers, Sane, View;
    FireTimersFreeze(s, Expired(s, now, order), defOrder, envs, 0, s.nextId, i);
  }

  lemma CallFreezes(s: State, c: Call, i: Uuid)
    requires Sane(s) && IsSuspended(s, i) && Respects(c)
    ensures Frozen(s, Apply(s, c), i)
  {
    hide CompleteUserTask, CompleteServiceTask, StartInstance, ProcessTimers, MoveToken, Migrate, Suspend, Frozen, Sane;
    match c
    case UserDone(id, extra, env) => UserDoneFreezes(s, id, extra, env, i);
    case ServiceDone(id, worker, extra, env) => ServiceDoneFreezes(s, id, worker, extra, env, i);
    case Timers(now, order, defOrder, envs) => TimersFreeze(s, now, order, defOrder, envs, i);
    case Move(j, target, update, cancel, env) => MoveFreezes(s, j, target, update, cancel, env, i);
    case MigrateTo(j, key, mapping, order) => MigrateFreezes(s, j, key, mapping, order, i);
    case Start(key, variables, env) => StartFreezes(s, key, variables, env, i);
    case Pause(j) => PauseFreezes(s, j, i);
  }

  lemma FrozenStaysSuspended(s: State, s': State, i: Uuid)
    requires Frozen(s, s', i) && IsSuspended(s, i)
    ensures IsSuspended(s', i) && s'.instances[i] == s.instances[i]
  {
    assert View(s', i).inst == View(s, i).inst;
  }

  lemma RespectsSane(s: State, c: Call)
    requires Sane(s) && Respects(c)
    ensures Sane(Apply(s, c))
  {
    hide Apply, Sane;
    CallPreserves(s, c, b => true);
  }

  /** Between suspend and resume, any run of these calls leaves the instance, its tokens and its pending
      entries exactly as they were, also through the paths that take an entry and put it back. */
  lemma {:induction false} SuspensionFreezes(s: State, calls: seq<Call>, i: Uuid)
    requires Sane(s) && IsSuspended(s, i) && forall c <- calls :: Respects(c)
    ensures Frozen(s, RunCalls(s, calls), i)
    decreases |calls|
  {
    hide Apply, Sane, Frozen;
    if calls == [] {
      FrozenSelf(s, i);
    } else {
      var s1 := Apply(s, calls[0]);
      CallFreezes(s, calls[0], i);
      RespectsSane(s, calls[0]);
      FrozenStaysSuspended(s, s1, i);
      SuspensionFreezes(s1, calls[1..], i);
      FrozenThen(s, s1, RunCalls(s1, calls[1..]), i);
    }
  }

  lemma FrozenThen(a: State, b: State, c: State, i: Uuid)
    requires Frozen(a, b, i) && Frozen(b, c, i)
    ensures Frozen(a, c, i)
  {}

  /** Suspending, any such run, and resuming give back the instance and its entries as they were. */
  lemma SuspendThenResumeRestores(s: State, calls: seq<Call>, i: Uuid)
    requires Sane(s) && i in s.instances && Suspend(s, i).1.Done? && forall c <- calls :: Respects(c)
    ensures var s' := Resume(RunCalls(Suspend(s, i).0, calls), i);
      s'.1.Done? && Frozen(s, s'.0, i)
  {
    var s1 := Suspend(s, i).0;
    InstanceCallsWithin(s, i, map[]);
    WithinSane(s, s1, i);
    SuspensionFreezes(s1, calls, i);
    var s2 := RunCalls(s1, calls);
    hide RunCalls, Sane, Within;
    FrozenStaysSuspended(s1, s2, i);
    assert View(s2, i).userTasks == View(s, i).userTasks;
    assert View(s2, i).serviceTasks == View(s, i).serviceTasks;
    assert View(s2, i).timers == View(s, i).timers;
    assert View(s2, i).catches == View(s, i).catches;
    assert s.instances[i].(state := Suspended(s.instances[i].state)).(state := s.instances[i].state) == s.instances[i];
  }

  // ---- The calls that do not look at suspension ----

  lemma GoneNotFrozen(s: State, s': State, id: Uuid, i: Uuid)
    requires id in s.serviceTasks && s.serviceTasks[id].instanceId == i && id !in s'.serviceTasks
    ensures !Frozen(s, s', i)
  {
    assert id in OfInstance(s.serviceTasks, i) && id !in OfInstance(s'.serviceTasks, i);
  }

  lemma ConsumedGone(s: State, s': State, id: Uuid)
    requires Sane(s) && Consumed(s, s', id)
    ensures id !in s'.serviceTasks
  {}

  /** Resolving an incident changes a suspended instance exactly when the task is an incident of it. */
  lemma ResolveIgnoresSuspension(s: State, id: Uuid, extra: Variables, env: Env, i: Uuid)
    requires Sane(s) && IsSuspended(s, i)
    ensures Frozen(s, ResolveIncident(s, id, extra, env).0, i)
       <==> !(id in s.serviceTasks && s.serviceTasks[id].instanceId == i && s.serviceTasks[id].data.retries <= 0)
  {
    var s' := ResolveIncident(s, id, extra, env).0;
    ResolveIncidentFrame(s, id, extra, env);
    hide ResolveIncident, Sane, Consumed, Frozen;
    if id in s.serviceTasks && s.serviceTasks[id].instanceId == i {
      if s.serviceTasks[id].data.retries <= 0 {
        ConsumedGone(s, s', id);
        GoneNotFrozen(s, s', id, i);
      } else {
        FrozenSelf(s, i);
      }
    } else {
      ConsumedElsewhereFrozen(s, s', id, i);
    }
  }

  /** A BPMN error changes a suspended instance exactly when the caller holds a task of it. */
  lemma ErrorIgnoresSuspension(s: State, id: Uuid, worker: string, code: string, env: Env, i: Uuid)
    requires Sane(s) && IsSuspended(s, i)
    ensures Frozen(s, HandleBpmnError(s, id, worker, code, env).0, i)
       <==> !(HeldBy(s, id, worker) && s.serviceTasks[id].instanceId == i)
  {
    var s' := HandleBpmnError(s, id, worker, code, env).0;
    HandleBpmnErrorFrame(s, id, worker, code, env);
    hide HandleBpmnError, Sane, Consumed, Frozen;
    if HeldBy(s, id, worker) && s.serviceTasks[id].instanceId == i {
      ConsumedGone(s, s', id);
      GoneNotFrozen(s, s', id, i);
    } else if HeldBy(s, id, worker) {
      ConsumedElsewhereFrozen(s, s', id, i);
    } else {
      FrozenSelf(s, i);
    }
  }

  // ---- Messages ----

  lemma FireCatchFreezes(s: State, id: Uuid, variables: Variables, defOrder: seq<Uuid>, env: Env, i: Uuid)
    requires Sane(s) && i < s.nextId && id in s.catches && s.catches[id].instanceId != i
    ensures Frozen(s, FireCatch(s, id, variables, defOrder, env).0, i)
  {
    var j, s' := s.catches[id].instanceId, FireCatch(s, id, variables, defOrder, env).0;
    FireCatchSteps(s, id, variables, defOrder, env);
    CatchClearedFrame(s, id);
    hide FireCatch, View, Sane, TouchesOnly, RunsOn;
    ElsewhereFrozen(s, CatchCleared(s, id), i, j);
    StepsFrozen(CatchCleared(s, id), s', i, j);
  }

  lemma FireCatchParts(s: State, id: Uuid, variables: Variables, defOrder: seq<Uuid>, env: Env, low: Uuid)
    requires Sane(s) && id in s.catches && low <= s.nextId
    ensures var s' := FireCatch(s, id, variables, defOrder, env).0;
      && Sane(s') && s.nextId <= s'.nextId && id !in s'.catches
      && forall x <- s'.catches :: x < low ==> x in s.catches && s'.catches[x].instanceId == s.catches[x].instanceId
  {
    FireCatchSteps(s, id, variables, defOrder, env);
    hide FireCatch;
    StepsParts(CatchCleared(s, id), FireCatch(s, id, variables, defOrder, env).0, s.catches[id].instanceId);
  }

  /** Catches of other instances fire without touching the suspended one. */
  lemma {:induction false} FireCatchesFreeze(s: State, ids: seq<Uuid>, variables: Variables, defOrder: seq<Uuid>,
      envs: nat -> Env, k: nat, low: Uuid, i: Uuid)
    requires Sane(s) && i < low <= s.nextId
      && (forall id <- ids :: id < low && (id in s.catches ==> s.catches[id].instanceId != i))
    ensures var s' := FireCatches(s, ids, variables, defOrder, envs, k).0;
      Frozen(s, s', i) && Sane(s') && s.nextId <= s'.nextId
    decreases |ids|
  {
    if ids != [] && ids[0] in s.catches {
      var id := ids[0];
      var s1 := FireCatch(s, id, variables, defOrder, envs(k)).0;
      FireCatchFreezes(s, id, variables, defOrder, envs(k), i);
      FireCatchParts(s, id, variables, defOrder, envs(k), low);
      assert forall x <- ids[1..] :: x in ids;
      hide FireCatch, View, Sane;
      FireCatchesFreeze(s1, ids[1..], variables, defOrder, envs, k + 1, low, i);
    }
  }

  /** Once a catch is taken it does not come back. */
  lemma {:induction false} FireCatchesLose(s: State, ids: seq<Uuid>, variables: Variables, defOrder: seq<Uuid>,
      envs: nat -> Env, k: nat, id: Uuid)
    requires Sane(s) && id < s.nextId && id !in s.catches
    ensures var s' := FireCatches(s, ids, variables, defOrder, envs, k).0;
      Sane(s') && id < s'.nextId && id !in s'.catches
    decreases |ids|
  {
    if ids != [] && ids[0] in s.catches {
      FireCatchParts(s, ids[0], variables, defOrder, envs(k), s.nextId);
      hide FireCatch, Sane;
      FireCatchesLose(FireCatch(s, ids[0], variables, defOrder, envs(k)).0,
                      ids[1..], variables, defOrder, envs, k + 1, id);
    }
  }

  lemma {:induction false} MatchesArePending(s: State, name: string, businessKey: Option<string>, order: seq<Uuid>)
    ensures forall id <- MatchingCatches(s, name, businessKey, order) :: id in s.catches
    decreases |order|
  {
    if order != [] {
      MatchesArePending(s, name, businessKey, order[1..]);
    }
  }

  lemma {:induction false} StartEachFreezes(s: State, keys: seq<Uuid>, variables: Variables,
      businessKey: Option<string>, envs: nat -> Env, k: nat, i: Uuid)
    requires Sane(s) && i < s.nextId
    ensures var s' := StartEach(s, keys, variables, businessKey, envs, k).0;
      Frozen(s, s', i) && forall id <- s'.catches :: id < s.nextId ==> id in s.catches
    decreases |keys|
  {
    if keys != [] {
      var n := s.nextId;
      var (s1, r) := StartInstance(s, keys[0], variables, envs(k));
      StartInstanceWithin(s, keys[0], variables, envs(k));
      hide StartInstance;
      WithinFrozen(s, s1, i, n);
      if r.Ok? {
        var s2 := WithBusinessKey(s1, r.value, businessKey);
        WithBusinessKeyWithin(s1, r.value, businessKey);
        WithinFrozen(s1, s2, i, n);
        hide View, WithBusinessKey, TouchesOnly;
        StartEachFreezes(s2, keys[1..], variables, businessKey, envs, k + 1, i);
      }
    }
  }

  /** A message leaves a suspended instance alone when it matches no catch of it. */
  lemma UnmatchedMessageFreezes(s: State, name: string, businessKey: Option<string>, variables: Variables,
                                order: seq<Uuid>, defOrder: seq<Uuid>, envs: nat -> Env, i: Uuid)
    requires Sane(s) && IsSuspended(s, i)
    requires forall id <- MatchingCatches(s, name, businessKey, order) :: id in s.catches ==>
      s.catches[id].instanceId != i
    ensures Frozen(s, CorrelateMessage(s, name, businessKey, variables, order, defOrder, envs).0, i)
  {
    var ids := MatchingCatches(s, name, businessKey, order);
    MatchesArePending(s, name, businessKey, order);
    assert i < s.nextId;
    FireCatchesFreeze(s, ids, variables, defOrder, envs, 0, s.nextId, i);
    var s1 := FireCatches(s, ids, variables, defOrder, envs, 0).0;
    hide FireCatches, View, Sane, MatchingCatches;
    StartEachFreezes(s1, StartedBy(s1.definitions, name, defOrder), variables, businessKey, envs, |ids|, i);
  }

  lemma NothingFires(s: State, variables: Variables, defOrder: seq<Uuid>, envs: nat -> Env)
    ensures FireCatches(s, [], variables, defOrder, envs, 0) == (s, Done)
  {}

  lemma {:induction false} FireCatchesInTwo(s: State, a: seq<Uuid>, b: seq<Uuid>, variables: Variables,
      defOrder: seq<Uuid>, envs: nat -> Env, k: nat)
    ensures var (s1, r) := FireCatches(s, a, variables, defOrder, envs, k);
      FireCatches(s, a + b, variables, defOrder, envs, k)
      == if r.Failed? then (s1, r) else FireCatches(s1, b, variables, defOrder, envs, k + |a|)
    decreases |a|
  {
    hide FireCatch;
    if a == [] {
      assert a + b == b;
    } else {
      assert (a + b)[1..] == a[1..] + b;
      FireCatchesInTwo(FireCatch(s, a[0], variables, defOrder, envs(k)).0, a[1..], b, variables, defOrder, envs, k + 1);
    }
  }

  /** A catch that is taken is missing when the call is over. */
  lemma TakenByMessage(s: State, s1: State, id: Uuid, rest: seq<Uuid>, variables: Variables, defOrder: seq<Uuid>,
      envs: nat -> Env, k: nat,
                       name: string, businessKey: Option<string>, n: nat)
    requires Sane(s) && id in s.catches && s1 == FireCatch(s, id, variables, defOrder, envs(k)).0
    ensures var s2 := FireCatches(s, [id] + rest, variables, defOrder, envs, k).0;
      && id !in s2.catches
      && id !in StartEach(s2, StartedBy(s2.definitions, name, defOrder), variables, businessKey, envs, n).0.catches
  {
    FireCatchParts(s, id, variables, defOrder, envs(k), s.nextId);
    hide FireCatch;
    assert ([id] + rest)[1..] == rest;
    FireCatchesLose(s1, rest, variables, defOrder, envs, k + 1, id);
    var s2 := FireCatches(s, [id] + rest, variables, defOrder, envs, k).0;
    assert Sane(s2) && id < s2.nextId && id !in s2.catches;
    hide FireCatches;
    StartEachFreezes(s2, StartedBy(s2.definitions, name, defOrder), variables, businessKey, envs, n, 0);
  }

  /** The first of `ids` that is a catch of instance `i` stands at `p`. */
  ghost predicate FirstOf(s: State, ids: seq<Uuid>, i: Uuid, p: nat) {
    && p < |ids| && ids[p] in s.catches && s.catches[ids[p]].instanceId == i
    && forall q :: 0 <= q < p ==> ids[q] in s.catches && s.catches[ids[q]].instanceId != i
  }

  lemma FrozenCatch(s: State, s1: State, i: Uuid, id: Uuid)
    requires Frozen(s, s1, i) && id in s.catches && s.catches[id].instanceId == i
    ensures id in s1.catches && s1.catches[id].instanceId == i
  {
    assert id in View(s, i).catches;
    assert id in View(s1, i).catches;
  }

  lemma MissingNotFrozen(s: State, s': State, i: Uuid, id: Uuid)
    requires id in s.catches && s.catches[id].instanceId == i && id !in s'.catches
    ensures !Frozen(s, s', i)
  {
    assert id in View(s, i).catches && id !in View(s', i).catches;
  }

  lemma MessageStopsEarly(s: State, name: string, businessKey: Option<string>, variables: Variables,
                          order: seq<Uuid>, defOrder: seq<Uuid>, envs: nat -> Env, p: nat)
    requires p <= |MatchingCatches(s, name, businessKey, order)|
    requires FireCatches(s, MatchingCatches(s, name, businessKey, order)[..p], variables, defOrder, envs, 0).1.Failed?
    ensures CorrelateMessage(s, name, businessKey, variables, order, defOrder, envs).0
         == FireCatches(s, MatchingCatches(s, name, businessKey, order)[..p], variables, defOrder, envs, 0).0
  {
    hide FireCatches, MatchingCatches, StartEach, StartedBy;
    var ids := MatchingCatches(s, name, businessKey, order);
    assert ids == ids[..p] + ids[p..];
    FireCatchesInTwo(s, ids[..p], ids[p..], variables, defOrder, envs, 0);
  }

  lemma MessageTakes(s: State, name: string, businessKey: Option<string>, variables: Variables,
                     order: seq<Uuid>, defOrder: seq<Uuid>, envs: nat -> Env, p: nat)
    requires p < |MatchingCatches(s, name, businessKey, order)|
    requires var ids := MatchingCatches(s, name, businessKey, order);
      var (s1, r) := FireCatches(s, ids[..p], variables, defOrder, envs, 0); r.Done? && Sane(s1) && ids[p] in s1.catches
    ensures MatchingCatches(s, name, businessKey, order)[p]
        !in CorrelateMessage(s, name, businessKey, variables, order, defOrder, envs).0.catches
  {
    hide FireCatches, MatchingCatches, StartEach, StartedBy, FireCatch, Sane;
    var ids := MatchingCatches(s, name, businessKey, order);
    var s1 := FireCatches(s, ids[..p], variables, defOrder, envs, 0).0;
    assert ids == ids[..p] + ([ids[p]] + ids[p + 1..]);
    FireCatchesInTwo(s, ids[..p], [ids[p]] + ids[p + 1..], variables, defOrder, envs, 0);
    TakenByMessage(s1, FireCatch(s1, ids[p], variables, defOrder, envs(p)).0, ids[p], ids[p + 1..], variables, defOrder,
      envs, p, name, businessKey, |ids|);
  }

  /** A message that matches a catch of a suspended instance leaves the instance alone exactly when one
      of the catches it comes to before that fails to resume. */
  lemma MatchedMessageFreezesIff(s: State, name: string, businessKey: Option<string>, variables: Variables,
                                 order: seq<Uuid>, defOrder: seq<Uuid>, envs: nat -> Env, i: Uuid, p: nat)
    requires Sane(s) && IsSuspended(s, i) && FirstOf(s, MatchingCatches(s, name, businessKey, order), i, p)
    ensures Frozen(s, CorrelateMessage(s, name, businessKey, variables, order, defOrder, envs).0, i)
       <==> FireCatches(s, MatchingCatches(s, name, businessKey, order)[..p], variables, defOrder, envs, 0).1.Failed?
  {
    var ids := MatchingCatches(s, name, businessKey, order);
    assert i < s.nextId && forall x <- ids[..p] :: x < s.nextId;
    FireCatchesFreeze(s, ids[..p], variables, defOrder, envs, 0, s.nextId, i);
    hide FireCatches, MatchingCatches, Frozen, CorrelateMessage;
    var (s1, r) := FireCatches(s, ids[..p], variables, defOrder, envs, 0);
    if r.Failed? {
      MessageStopsEarly(s, name, businessKey, variables, order, defOrder, envs, p);
    } else {
      FrozenCatch(s, s1, i, ids[p]);
      MessageTakes(s, name, businessKey, variables, order, defOrder, envs, p);
      MissingNotFrozen(s, CorrelateMessage(s, name, businessKey, variables, order, defOrder, envs).0, i, ids[p]);
    }
  }

  /** Some catch of instance `i` matches the message. */
  ghost predicate Reached(s: State, name: string, businessKey: Option<string>, i: Uuid) {
    exists id <- s.catches :: s.catches[id].instanceId == i && Matches(s, s.catches[id], name, businessKey)
  }

  lemma {:induction false} MatchesMatch(s: State, name: string, businessKey: Option<string>, order: seq<Uuid>)
    ensures forall id <- MatchingCatches(s, name, businessKey, order) ::
      id in s.catches && Matches(s, s.catches[id], name, businessKey)
    decreases |order|
  {
    hide Matches;
    if order != [] {
      MatchesMatch(s, name, businessKey, order[1..]);
    }
  }

  lemma {:induction false} OrderFrom(keys: set<Uuid>, first: Uuid) returns (order: seq<Uuid>)
    requires first in keys
    ensures Enumerates(order, keys) && order != [] && order[0] == first
    decreases |keys|
  {
    var rest := keys - {first};
    if rest == {} {
      order := [first];
    } else {
      var next :| next in rest;
      var tail := OrderFrom(rest, next);
      order := [first] + tail;
      assert forall x <- keys :: x == first || x in rest;
    }
  }

  /** Suspension protects an instance from a message, in whatever order the engine comes to the pending
      catches, exactly when no catch of the instance matches the message. */
  lemma MessageRespectsSuspensionIff(s: State, name: string, businessKey: Option<string>, variables: Variables,
                                     defOrder: seq<Uuid>, envs: nat -> Env, i: Uuid)
    requires Sane(s) && IsSuspended(s, i)
    ensures (forall order :: Enumerates(order, s.catches.Keys) ==>
               Frozen(s, CorrelateMessage(s, name, businessKey, variables, order, defOrder, envs).0, i))
       <==> !Reached(s, name, businessKey, i)
  {
    hide Frozen, CorrelateMessage, Sane, Matches, FireCatches;
    if id :| id in s.catches && s.catches[id].instanceId == i && Matches(s, s.catches[id], name, businessKey) {
      var order := OrderFrom(s.catches.Keys, id);
      assert MatchingCatches(s, name, businessKey, order)[0] == id;
      MatchedMessageFreezesIff(s, name, businessKey, variables, order, defOrder, envs, i, 0);
      assert MatchingCatches(s, name, businessKey, order)[..0] == [];
      NothingFires(s, variables, defOrder, envs);
      assert Enumerates(order, s.catches.Keys);
    } else {
      forall order | Enumerates(order, s.catches.Keys)
        ensures Frozen(s, CorrelateMessage(s, name, businessKey, variables, order, defOrder, envs).0, i)
      {
        MatchesMatch(s, name, businessKey, order);
        UnmatchedMessageFreezes(s, name, businessKey, variables, order, defOrder, envs, i);
      }
    }
  }
}
