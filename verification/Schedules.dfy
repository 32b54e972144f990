/** When timers fire (engine-core/src/engine/timer_processor.rs, domain/timer.rs): never before they are
    due, and then with the first call that comes to them. */
module Schedules {
  import opened Values
  import opened Definition
  import opened EngineState
  import opened ExecutorFrame
  import opened Executor
  import opened Operations
  import opened CallFrames
  import opened Parking
  import opened Runs
  import opened Evolution
  import opened Waits

  // ---- When a recurring timer is due again ----

  /** The definition gives another time after `env.now`: an interval the clock library can hold, or a cron
      expression the cron library has a time for. */
  ghost predicate DueAgain(timer: TimerDefinition, env: Env) {
    || (timer.RepeatingInterval? && timer.interval <= MAX_CHRONO_SECS)
    || (timer.CronCycle? && env.cron(timer.expression, env.now).Some?)
  }

  /** A fired timer is scheduled again exactly when its definition recurs and gives a time, and it may
      fire once more: one interval or cron step after now, under the same token and at the same node, with
      one repetition less. Durations and dates fire once. */
  lemma RescheduledIs(s: State, e: Entry<TimerInfo>, env: Env)
    ensures var s' := Reschedule(s, e, env);
      if e.data.timerDef.Some? && DueAgain(e.data.timerDef.value, env) && e.data.remaining != Some(0)
      then
        && s'.nextId == s.nextId + 1 && s.nextId in s'.timers
        && s' == s.(timers := s.timers[s.nextId := s'.timers[s.nextId]], nextId := s.nextId + 1)
        && var e' := s'.timers[s.nextId];
           && e' == e.(id := s.nextId, data := e.data.(expiresAt := e'.data.expiresAt, remaining := e'.data.remaining))
           && DueFrom(e'.data.expiresAt, e.data.timerDef.value, env)
           && (e.data.remaining.None? ==> e'.data.remaining.None?)
           && (e.data.remaining.Some? ==> e'.data.remaining == Some(e.data.remaining.value - 1))
      else s' == s
  {}

  // ---- Which timers one call fires ----

  /** The timer is due, and its instance is not suspended. */
  ghost predicate FallsDue(s: State, id: Uuid, now: Time) {
    && id in s.timers && s.timers[id].data.expiresAt <= now
    && !(s.timers[id].instanceId in s.instances && s.instances[s.timers[id].instanceId].state.Suspended?)
  }

  lemma {:induction false} ExpiredAre(s: State, now: Time, order: seq<Uuid>)
    ensures forall id :: id in Expired(s, now, order) <==> id in order && FallsDue(s, id, now)
    decreases |order|
  {
    if order != [] {
      ExpiredAre(s, now, order[1..]);
      assert forall id :: id in order <==> id == order[0] || id in order[1..];
    }
  }

  lemma {:induction false} ExpiredInTwo(s: State, now: Time, a: seq<Uuid>, b: seq<Uuid>)
    ensures Expired(s, now, a + b) == Expired(s, now, a) + Expired(s, now, b)
    decreases |a|
  {
    if a == [] {
      assert a + b == b;
    } else {
      assert (a + b)[1..] == a[1..] + b;
      ExpiredInTwo(s, now, a[1..], b);
    }
  }

  ghost predicate FiredIn(fired: seq<Firing>, id: Uuid) {
    exists p :: 0 <= p < |fired| && fired[p].TimerFired? && fired[p].id == id
  }

  lemma FiredOnly(fired: seq<Firing>, f: Firing, after: seq<Firing>, id: Uuid)
    requires fired + [f] <= after
    ensures FiredIn(after[|fired|..], id) <==> ((f.TimerFired? && f.id == id) || FiredIn(after[|fired| + 1..], id))
  {
    var rest, late := after[|fired|..], after[|fired| + 1..];
    assert rest == [f] + late;
    if FiredIn(late, id) {
      var p :| 0 <= p < |late| && late[p].TimerFired? && late[p].id == id;
      assert rest[p + 1] == late[p];
    }
    if FiredIn(rest, id) && !(f.TimerFired? && f.id == id) {
      var p :| 0 <= p < |rest| && rest[p].TimerFired? && rest[p].id == id;
      assert late[p - 1] == rest[p];
    }
    if f.TimerFired? && f.id == id {
      assert rest[0] == f;
    }
  }

  /** Firing collected timers fires none but these. */
  lemma {:induction false} OnlyCollectedFire(s: State, ids: seq<Uuid>, defOrder: seq<Uuid>, envs: nat -> Env, k: nat,
      id: Uuid)
    requires Sane(s)
    ensures var s' := FireTimers(s, ids, defOrder, envs, k).0;
      s.fired <= s'.fired && Sane(s') && (FiredIn(s'.fired[|s.fired|..], id) ==> id in ids)
    decreases |ids|
  {
    if ids == [] || ids[0] !in s.timers {
      assert s.fired[|s.fired|..] == [];
    } else {
      var (s1, r) := FireTimer(s, ids[0], defOrder, envs(k));
      FireTimerParts(s, ids[0], defOrder, envs(k), 0);
      hide FireTimer, Sane, FiredIn;
      var f := TimerFired(ids[0], s.timers[ids[0]].data.origin);
      if r.Failed? {
        FiredOnly(s.fired, f, s1.fired, id);
        NothingFired(s1.fired[|s.fired| + 1..], id);
      } else {
        OnlyCollectedFire(s1, ids[1..], defOrder, envs, k + 1, id);
        FiredOnly(s.fired, f, FireTimers(s1, ids[1..], defOrder, envs, k + 1).0.fired, id);
      }
      assert forall x <- ids[1..] :: x in ids;
    }
  }

  lemma NothingFired(fired: seq<Firing>, id: Uuid)
    requires fired == []
    ensures !FiredIn(fired, id)
  {}

  /** A call of `process_timers` fires no timer before it is due, and none of a suspended instance. */
  lemma NotBeforeDue(s: State, now: Time, order: seq<Uuid>, defOrder: seq<Uuid>, envs: nat -> Env, id: Uuid)
    requires Sane(s)
    ensures var s' := ProcessTimers(s, now, order, defOrder, envs).0;
      s.fired <= s'.fired && (FiredIn(s'.fired[|s.fired|..], id) ==> FallsDue(s, id, now))
  {
    ExpiredAre(s, now, order);
    OnlyCollectedFire(s, Expired(s, now, order), defOrder, envs, 0, id);
    hide FireTimers, Expired, Sane;
  }

  lemma {:induction false} FireTimersInTwo(s: State, a: seq<Uuid>, b: seq<Uuid>, defOrder: seq<Uuid>, envs: nat -> Env,
      k: nat)
    ensures var (mid, r) := FireTimers(s, a, defOrder, envs, k);
      FireTimers(s, a + b, defOrder, envs, k)
      == if r.Failed? then (mid, r) else FireTimers(mid, b, defOrder, envs, k + |a|)
    decreases |a|
  {
    hide FireTimer;
    if a == [] {
      assert a + b == b;
    } else {
      assert (a + b)[1..] == a[1..] + b && (a + b)[0] == a[0];
      var (s1, r) := FireTimer(s, a[0], defOrder, envs(k));
      if r.Done? {
        FireTimersInTwo(s1, a[1..], b, defOrder, envs, k + 1);
      }
    }
  }

  /** The timers that a call comes to before the one at place `p`. */
  ghost function Before(s: State, now: Time, order: seq<Uuid>, p: nat): seq<Uuid>
    requires p <= |order|
  {
    Expired(s, now, order[..p])
  }

  lemma FirstFires(s: State, id: Uuid, rest: seq<Uuid>, defOrder: seq<Uuid>, envs: nat -> Env, k: nat)
    requires Sane(s) && id in s.timers
    ensures var s' := FireTimers(s, [id] + rest, defOrder, envs, k).0;
      s.fired <= s'.fired && FiredIn(s'.fired[|s.fired|..], id)
  {
    assert ([id] + rest)[1..] == rest && ([id] + rest)[0] == id;
    FireTimerParts(s, id, defOrder, envs(k), 0);
    var (s1, r) := FireTimer(s, id, defOrder, envs(k));
    var s' := FireTimers(s, [id] + rest, defOrder, envs, k).0;
    if r.Done? {
      OnlyCollectedFire(s1, rest, defOrder, envs, k + 1, id);
    }
    hide FireTimer, FireTimers, Sane;
    assert s'.fired[|s.fired|..][0] == TimerFired(id, s.timers[id].data.origin);
  }

  /** A timer that is due fires with the next call that walks over it, unless a timer before it in that
      call fails, or clears it because it waits for the same token. */
  lemma FiresWhenDue(s: State, now: Time, order: seq<Uuid>, defOrder: seq<Uuid>, envs: nat -> Env, p: nat)
    requires Sane(s) && p < |order| && FallsDue(s, order[p], now)
    ensures var s' := ProcessTimers(s, now, order, defOrder, envs).0;
      var (mid, r) := FireTimers(s, Before(s, now, order, p), defOrder, envs, 0);
      r.Done? && order[p] in mid.timers ==> s.fired <= s'.fired && FiredIn(s'.fired[|s.fired|..], order[p])
  {
    CollectedInTwo(s, now, order, p);
    hide Expired, FallsDue, FireTimers, Before, FiredIn, Sane;
    FiresAmong(s, Before(s, now, order, p), order[p], Expired(s, now, order[p + 1..]), defOrder, envs);
  }

  lemma FiresAmong(s: State, before: seq<Uuid>, id: Uuid, later: seq<Uuid>, defOrder: seq<Uuid>, envs: nat -> Env)
    requires Sane(s)
    ensures var s' := FireTimers(s, before + ([id] + later), defOrder, envs, 0).0;
      var (mid, r) := FireTimers(s, before, defOrder, envs, 0);
      r.Done? && id in mid.timers ==> s.fired <= s'.fired && FiredIn(s'.fired[|s.fired|..], id)
  {
    hide FireTimers, FiredIn, Sane;
    FireTimersInTwo(s, before, [id] + later, defOrder, envs, 0);
    OnlyCollectedFire(s, before, defOrder, envs, 0, id);
    var (mid, r) := FireTimers(s, before, defOrder, envs, 0);
    if r.Done? && id in mid.timers {
      FirstFires(mid, id, later, defOrder, envs, |before|);
      LaterFired(s.fired, mid.fired, FireTimers(mid, [id] + later, defOrder, envs, |before|).0.fired, id);
    }
  }

  lemma CollectedInTwo(s: State, now: Time, order: seq<Uuid>, p: nat)
    requires p < |order| && FallsDue(s, order[p], now)
    ensures Expired(s, now, order) == Before(s, now, order, p) + ([order[p]] + Expired(s, now, order[p + 1..]))
  {
    assert order == order[..p] + order[p..] && order[p..][1..] == order[p + 1..] && order[p..][0] == order[p];
    ExpiredInTwo(s, now, order[..p], order[p..]);
    assert Expired(s, now, order[p..]) == [order[p]] + Expired(s, now, order[p + 1..]);
  }

  lemma LaterFired(a: seq<Firing>, b: seq<Firing>, c: seq<Firing>, id: Uuid)
    requires a <= b <= c && FiredIn(c[|b|..], id)
    ensures a <= c && FiredIn(c[|a|..], id)
  {
    var p :| 0 <= p < |c[|b|..]| && c[|b|..][p].TimerFired? && c[|b|..][p].id == id;
    assert c[|a|..][p + |b| - |a|] == c[|b|..][p];
  }

  // ---- Over a run ----

  /** Only message catches fired between the two states. */
  ghost predicate NoTimerFired(s: State, s': State) {
    s.fired <= s'.fired && forall p :: |s.fired| <= p < |s'.fired| ==> s'.fired[p].CatchFired?
  }

  lemma NoTimerFiredThen(a: State, b: State, c: State)
    requires NoTimerFired(a, b) && NoTimerFired(b, c)
    ensures NoTimerFired(a, c)
  {}

  lemma CatchFiresOne(s: State, id: Uuid, variables: Variables, defOrder: seq<Uuid>, env: Env)
    requires Sane(s)
    ensures var s' := FireCatch(s, id, variables, defOrder, env).0; Sane(s') && NoTimerFired(s, s')
  {
    if id in s.catches {
      FireCatchSteps(s, id, variables, defOrder, env);
      hide FireCatch, Sane;
      StepsParts(CatchCleared(s, id), FireCatch(s, id, variables, defOrder, env).0, s.catches[id].instanceId);
    }
  }

  lemma {:induction false} CatchesFireNoTimer(s: State, ids: seq<Uuid>, variables: Variables, defOrder: seq<Uuid>,
      envs: nat -> Env, k: nat)
    requires Sane(s)
    ensures var s' := FireCatches(s, ids, variables, defOrder, envs, k).0; Sane(s') && NoTimerFired(s, s')
    decreases |ids|
  {
    if ids != [] {
      hide Sane, FireCatch, NoTimerFired;
      var (s1, r) := FireCatch(s, ids[0], variables, defOrder, envs(k));
      CatchFiresOne(s, ids[0], variables, defOrder, envs(k));
      if r.Done? {
        CatchesFireNoTimer(s1, ids[1..], variables, defOrder, envs, k + 1);
        NoTimerFiredThen(s, s1, FireCatches(s1, ids[1..], variables, defOrder, envs, k + 1).0);
      }
    }
  }

  lemma WithinFiresNothing(s: State, s': State, i: Uuid)
    requires Within(s, s', i)
    ensures Sane(s') && NoTimerFired(s, s')
  {}

  lemma {:induction false} StartsFireNothing(s: State, keys: seq<Uuid>, variables: Variables,
      businessKey: Option<string>, envs: nat -> Env, k: nat)
    requires Sane(s)
    ensures var s' := StartEach(s, keys, variables, businessKey, envs, k).0; Sane(s') && NoTimerFired(s, s')
    decreases |keys|
  {
    if keys != [] {
      hide Sane, Within, StartInstance, WithBusinessKey, NoTimerFired;
      var (s1, r) := StartInstance(s, keys[0], variables, envs(k));
      StartInstanceWithin(s, keys[0], variables, envs(k));
      WithinFiresNothing(s, s1, s.nextId);
      if r.Ok? {
        var s2 := WithBusinessKey(s1, r.value, businessKey);
        WithBusinessKeyWithin(s1, r.value, businessKey);
        WithinFiresNothing(s1, s2, r.value);
        NoTimerFiredThen(s, s1, s2);
        StartsFireNothing(s2, keys[1..], variables, businessKey, envs, k + 1);
        NoTimerFiredThen(s, s2, StartEach(s2, keys[1..], variables, businessKey, envs, k + 1).0);
      }
    }
  }

  lemma MessageFiresNoTimer(s: State, name: string, businessKey: Option<string>, variables: Variables, order: seq<Uuid>,
      defOrder: seq<Uuid>, envs: nat -> Env)
    requires Sane(s)
    ensures NoTimerFired(s, CorrelateMessage(s, name, businessKey, variables, order, defOrder, envs).0)
  {
    hide Sane, FireCatches, StartEach, NoTimerFired;
    var ids := MatchingCatches(s, name, businessKey, order);
    CatchesFireNoTimer(s, ids, variables, defOrder, envs, 0);
    var (s1, r) := FireCatches(s, ids, variables, defOrder, envs, 0);
    if r.Done? {
      var keys := StartedBy(s1.definitions, name, defOrder);
      StartsFireNothing(s1, keys, variables, businessKey, envs, |ids|);
      NoTimerFiredThen(s, s1, StartEach(s1, keys, variables, businessKey, envs, |ids|).0);
    }
  }

  lemma SameFired(s: State, s': State)
    requires s'.fired == s.fired
    ensures NoTimerFired(s, s')
  {}

  lemma ConsumedFiresNothing(s: State, s': State, id: Uuid)
    requires s' == s || Consumed(s, s', id)
    ensures NoTimerFired(s, s')
  {}

  lemma RunsOnFiresNothing(s: State, s': State)
    requires RunsOn(s, s') || Quiet(s, s') || Relets(s, s')
    ensures NoTimerFired(s, s')
  {}

  lemma MigrateFiresNothing(s: State, i: Uuid, key: Uuid, mapping: map<string, string>, order: MigrationOrder)
    ensures NoTimerFired(s, Migrate(s, i, key, mapping, order).0)
  {
    hide Migrated, MigrationError;
    if i in s.instances && key in s.definitions {
      MigratedQuiet(s, i, key, mapping, order);
      hide Quiet, NoTimerFired;
      RunsOnFiresNothing(s, Migrated(s, i, key, mapping, order));
      SameFired(s, s);
    } else {
      NoMigration(s, i, key, mapping, order);
    }
  }

  lemma NoMigration(s: State, i: Uuid, key: Uuid, mapping: map<string, string>, order: MigrationOrder)
    requires i !in s.instances || key !in s.definitions
    ensures Migrate(s, i, key, mapping, order).0 == s
  {}

  /** Timers fire in no call but `process_timers`. */
  lemma OnlyTimersFire(s: State, c: Call)
    requires Sane(s) && !c.Timers?
    ensures NoTimerFired(s, Apply(s, c))
  {
    hide Sane, Within, CompleteUserTask, CompleteServiceTask, ResolveIncident, Consumed, RunsOn, TouchesOnly;
    hide HandleBpmnError, StartInstance, UpdateVariables, Suspend, Resume, MoveToken, DeleteInstance, Migrate;
    hide CorrelateMessage, NoTimerFired, Relets;
    var s' := Apply(s, c);
    SameFired(s, s);
    match c
    case UserDone(id, extra, env) =>
      CompleteUserTaskWithin(s, id, extra, env);
      if id in s.userTasks { WithinFiresNothing(s, s', s.userTasks[id].instanceId); }
    case ServiceDone(id, worker, extra, env) => CompleteServiceTaskFrame(s, id, worker, extra, env);
      ConsumedFiresNothing(s, s', id);
    case Resolve(id, extra, env) => ResolveIncidentFrame(s, id, extra, env); ConsumedFiresNothing(s, s', id);
    case Error(id, worker, code, env) => HandleBpmnErrorFrame(s, id, worker, code, env);
      ConsumedFiresNothing(s, s', id);
    case Start(key, variables, env) => StartInstanceWithin(s, key, variables, env); WithinFiresNothing(s, s', s.nextId);
    case Update(i, update) => InstanceCallsWithin(s, i, update); WithinFiresNothing(s, s', i);
    case Pause(i) => InstanceCallsWithin(s, i, map[]); WithinFiresNothing(s, s', i);
    case Continue(i) => InstanceCallsWithin(s, i, map[]); WithinFiresNothing(s, s', i);
    case Move(i, target, update, cancel, env) => MoveTokenWithin(s, i, target, update, cancel, env);
      WithinFiresNothing(s, s', i);
    case MigrateTo(i, key, mapping, order) => MigrateFiresNothing(s, i, key, mapping, order);
    case Delete(i, storeOk) => DeleteInstanceFrame(s, i, storeOk); RunsOnFiresNothing(s, s');
    case Message(name, businessKey, variables, order, defOrder, envs) =>
      MessageFiresNoTimer(s, name, businessKey, variables, order, defOrder, envs);
    case _ => LeaseCallRelets(s, c); RunsOnFiresNothing(s, s');
  }

  /** The timer, if it is still pending, is due when it was. */
  ghost predicate StillDue(s: State, id: Uuid, at: Time) {
    id < s.nextId && (id in s.timers ==> s.timers[id].data.expiresAt == at)
  }

  lemma QuietKeepsDue(a: State, b: State, id: Uuid, at: Time)
    requires Quiet(a, b) && StillDue(a, id, at)
    ensures StillDue(b, id, at)
  {}

  lemma TakenKeepsDue(a: State, id: Uuid, at: Time)
    requires StillDue(a, id, at)
    ensures forall x <- a.timers :: StillDue(TimerCleared(a, x), id, at)
    ensures forall x <- a.catches :: StillDue(CatchCleared(a, x), id, at)
    ensures forall x <- a.serviceTasks :: StillDue(TakeServiceTask(a, x), id, at)
  {}

  lemma RescheduleKeepsDue(s: State, e: Entry<TimerInfo>, env: Env, id: Uuid, at: Time)
    requires StillDue(s, id, at)
    ensures StillDue(Reschedule(s, e, env), id, at)
  {}

  lemma MovesKeepDue(a: State, b: State, id: Uuid, at: Time)
    requires Moves(a, b) && StillDue(a, id, at)
    ensures StillDue(b, id, at)
  {
    hide Sane, Quiet, StillDue, Reschedule, TimerCleared, CatchCleared, TakeServiceTask;
    TakenKeepsDue(a, id, at);
    if Quiet(a, b) {
      QuietKeepsDue(a, b, id, at);
    } else if x, mid, env :| FiresTimer(a, b, x, mid, env) {
      QuietKeepsDue(TimerCleared(a, x), mid, id, at);
      RescheduleKeepsDue(mid, a.timers[x], env, id, at);
    } else if x :| FiresCatch(a, b, x) {
      QuietKeepsDue(CatchCleared(a, x), b, id, at);
    } else if x :| Consumes(a, b, x) {
      QuietKeepsDue(TakeServiceTask(a, x), b, id, at);
    }
  }

  lemma ReletsKeepDue(a: State, b: State, id: Uuid, at: Time)
    requires Relets(a, b) && StillDue(a, id, at)
    ensures StillDue(b, id, at)
  {}

  lemma CallKeepsDue(s: State, c: Call, id: Uuid, at: Time)
    requires Sane(s) && StillDue(s, id, at)
    ensures Sane(Apply(s, c)) && StillDue(Apply(s, c), id, at)
  {
    hide Apply, Sane, Moves, Relets;
    if LeaseCall(c) {
      LeaseCallRelets(s, c);
      ReletsKeepDue(s, Apply(s, c), id, at);
      ReletsSane(s, Apply(s, c));
    } else {
      var inv := b => StillDue(b, id, at);
      forall a, b | Moves(a, b) && inv(a) ensures inv(b) {
        MovesKeepDue(a, b, id, at);
      }
      CallPreserves(s, c, inv);
    }
  }

  /** Every call of `process_timers` in the run comes before this time. */
  ghost predicate AllBefore(calls: seq<Call>, at: Time) {
    forall c <- calls :: c.Timers? ==> c.now < at
  }

  lemma CallFiresNotEarly(s: State, c: Call, id: Uuid, at: Time)
    requires Sane(s) && StillDue(s, id, at) && (c.Timers? ==> c.now < at)
    ensures s.fired <= Apply(s, c).fired && !FiredIn(Apply(s, c).fired[|s.fired|..], id)
  {
    hide Sane, ProcessTimers;
    if c.Timers? {
      NotBeforeDue(s, c.now, c.order, c.defOrder, c.envs, id);
    } else {
      hide Apply;
      OnlyTimersFire(s, c);
    }
  }

  lemma SplitFired(a: seq<Firing>, b: seq<Firing>, c: seq<Firing>, id: Uuid)
    requires a <= b <= c && !FiredIn(b[|a|..], id) && !FiredIn(c[|b|..], id)
    ensures a <= c && !FiredIn(c[|a|..], id)
  {
    var early, late, all := b[|a|..], c[|b|..], c[|a|..];
    forall p | 0 <= p < |all| ensures !(all[p].TimerFired? && all[p].id == id) {
      assert p < |early| ==> all[p] == early[p];
      assert p >= |early| ==> all[p] == late[p - |early|];
    }
  }

  /** Over any run of calls no timer fires before it is due. */
  lemma {:induction false} NeverEarly(s: State, calls: seq<Call>, id: Uuid, at: Time)
    requires Sane(s) && StillDue(s, id, at) && AllBefore(calls, at)
    ensures s.fired <= RunCalls(s, calls).fired && !FiredIn(RunCalls(s, calls).fired[|s.fired|..], id)
    decreases |calls|
  {
    if calls == [] {
      NothingFired(s.fired[|s.fired|..], id);
    } else {
      var s1 := Apply(s, calls[0]);
      assert calls[0] in calls && forall c <- calls[1..] :: c in calls;
      hide Sane, Apply, FiredIn, StillDue;
      CallFiresNotEarly(s, calls[0], id, at);
      CallKeepsDue(s, calls[0], id, at);
      NeverEarly(s1, calls[1..], id, at);
      SplitFired(s.fired, s1.fired, RunCalls(s1, calls[1..]).fired, id);
    }
  }
}
