/** When the calls on instances and tasks go through, and what they leave (engine-core/src/engine/
    instance_ops.rs, service_task.rs, process_start.rs, executor/next_action.rs). */
module Lifecycle {
  import opened Values
  import opened Definition
  import opened EngineState
  import opened ExecutorFrame
  import opened Executor
  import opened Operations
  import opened CallFrames
  import opened Parking
  import opened Arrivals
  import opened Updates
  import opened Waits
  import opened Schedules
  import Runs
  import Gateway

  // ---- Instances ----

  ghost predicate Ended(state: InstanceState) {
    state == Completed || exists code :: state == CompletedWithError(code)
  }

  /** An instance that has not ended and is not suspended. */
  ghost predicate Live(s: State, i: Uuid) {
    i in s.instances && !Ended(s.instances[i].state) && !s.instances[i].state.Suspended?
  }

  /** Exactly live instances can be suspended, and exactly suspended ones resumed: into the state they were
      suspended in. A refused call changes nothing. */
  lemma SuspendsLiveInstances(s: State, i: Uuid)
    ensures var (s', r) := Suspend(s, i);
      && (r == Done <==> Live(s, i))
      && (Live(s, i) ==> s' == s.WithInstance(i, s.instances[i].(state := Suspended(s.instances[i].state))))
      && (!Live(s, i) ==> s' == s)
    ensures var (s', r) := Resume(s, i);
      && (r == Done <==> i in s.instances && s.instances[i].state.Suspended?)
      && (r == Done ==> i in s'.instances && Suspended(s'.instances[i].state) == s.instances[i].state
                        && s' == s.WithInstance(i, s.instances[i].(state := s'.instances[i].state)))
      && (r.Failed? ==> s' == s)
  {}

  /** Exactly live instances can be moved, to the nodes of their definition. A refused move changes
      nothing. */
  lemma MovesLiveInstances(s: State, i: Uuid, target: string, update: Variables, cancel: bool, env: Env)
    ensures var movable := Live(s, i) && s.instances[i].definitionKey in s.definitions
                           && target in s.definitions[s.instances[i].definitionKey].nodes;
      && (MoveError(s, i, target).None? <==> movable)
      && (!movable ==> MoveToken(s, i, target, update, cancel, env).0 == s
                       && MoveToken(s, i, target, update, cancel, env).1.Failed?)
  {
    hide Run;
  }

  /** Definitions without a start event, and those that start by timer, are not started by hand. */
  ghost predicate Startable(s: State, key: Uuid) {
    && key in s.definitions
    && exists k: nat :: FirstStart(s.definitions[key], s.definitions[key].order, k)
                        && !s.definitions[key].nodes[s.definitions[key].order[k]].TimerStartEvent?
  }

  lemma FirstStartUnique(d: ProcessDefinition, j: nat, k: nat)
    requires FirstStart(d, d.order, j) && FirstStart(d, d.order, k)
    ensures j == k
  {}

  lemma {:induction false} FirstStartExists(d: ProcessDefinition, order: seq<string>)
    requires StartEventOf(d, order).Some?
    ensures exists k: nat :: FirstStart(d, order, k) && StartEventOf(d, order) == Some(order[k])
    decreases |order|
  {
    if order[0] in d.nodes && Starts(d.nodes[order[0]]) {
      assert FirstStart(d, order, 0);
    } else {
      FirstStartExists(d, order[1..]);
      var k: nat :| FirstStart(d, order[1..], k) && StartEventOf(d, order[1..]) == Some(order[1..][k]);
      assert order[k + 1] == order[1..][k] && forall l :: 0 < l < k + 1 ==> order[l] == order[1..][l - 1];
      assert FirstStart(d, order, k + 1);
    }
  }

  /** A start is refused, and then changes nothing, unless its definition can be started; otherwise there is
      a new instance of it, even when its first batch fails. */
  lemma StartsWhatCanStart(s: State, key: Uuid, variables: Variables, env: Env)
    requires Sane(s)
    ensures var (s', r) := StartInstance(s, key, variables, env);
      if Startable(s, key)
      then s.nextId in s'.instances && s'.instances[s.nextId].definitionKey == key && (r.Ok? ==> r.value == s.nextId)
      else r.Err? && s' == s
  {
    if key in s.definitions {
      var d := s.definitions[key];
      if StartEventOf(d, d.order).Some? {
        FirstStartExists(d, d.order);
        var k: nat :| FirstStart(d, d.order, k) && StartEventOf(d, d.order) == Some(d.order[k]);
        forall j: nat | FirstStart(d, d.order, j) ensures j == k {
          FirstStartUnique(d, j, k);
        }
        var s1 := Started(s, key, d.order[k], variables, env);
        StartedIs(s, key, d.order[k], variables, env);
        hide RunBatch, Started, FirstStart, StartEventOf, Listening, OnlyFor, KeyedBy, Sane;
        BatchKeepsIdentity(s1, s.nextId, [Token(s.nextId + 1, d.order[k], variables - {"business_key"}, false)],
                           env.steps, env, 0);
      } else {
        StartsAtFirst(d, d.order);
      }
    }
  }

  // ---- Service tasks ----

  /** The task after its lock was given up: with these retries and this report, free to be fetched. */
  ghost predicate GivenUp(was: Entry<ServiceInfo>, now: Entry<ServiceInfo>, retries: int, message: Option<string>,
      details: Option<string>)
  {
    && now == was.(data := now.data) && now.data.definitionKey == was.data.definitionKey
       && now.data.topic == was.data.topic
    && now.data.retries == retries && now.data.errorMessage == message && now.data.errorDetails == details
    && now.data.workerId == None && now.data.lockExpiration == None
  }

  /** A failure reported by the worker that holds the task takes one retry off it, unless the worker says
      how many are left, and frees it; every other report is refused. */
  lemma FailureTakesRetry(s: State, id: Uuid, worker: string, retries: Option<int>, message: Option<string>,
      details: Option<string>)
    ensures var (s', r) := FailServiceTask(s, id, worker, retries, message, details);
      && (r == Done <==> id in s.serviceTasks && s.serviceTasks[id].data.workerId == Some(worker))
      && (r.Failed? ==> s' == s)
      && (r == Done ==>
            && id in s'.serviceTasks
            && s' == s.(serviceTasks := s.serviceTasks[id := s'.serviceTasks[id]])
            && GivenUp(s.serviceTasks[id], s'.serviceTasks[id],
                       if retries.Some? then retries.value else s.serviceTasks[id].data.retries - 1, message, details))
  {}

  /** Only a task without retries is an incident: it gets the retries given, or three, and is free. */
  lemma RetryRevivesIncident(s: State, id: Uuid, retries: Option<int>)
    ensures var (s', r) := RetryIncident(s, id, retries);
      && (r == Done <==> id in s.serviceTasks && s.serviceTasks[id].data.retries <= 0)
      && (r.Failed? ==> s' == s)
      && (r == Done ==>
            && id in s'.serviceTasks
            && s' == s.(serviceTasks := s.serviceTasks[id := s'.serviceTasks[id]])
            && GivenUp(s.serviceTasks[id], s'.serviceTasks[id], if retries.Some? then retries.value else 3, None, None))
  {}

  /** The worker that holds a task can extend its lock, to `duration` from now. */
  lemma ExtensionMovesExpiry(s: State, id: Uuid, worker: string, duration: int, now: Time)
    ensures var (s', r) := ExtendLock(s, id, worker, duration, now);
      && (r == Done <==> id in s.serviceTasks && s.serviceTasks[id].data.workerId == Some(worker))
      && (r.Failed? ==> s' == s)
      && (r == Done ==>
            && id in s'.serviceTasks && s'.serviceTasks[id].data.lockExpiration == Some(now + duration)
            && s'.serviceTasks[id]
               == s.serviceTasks[id].(data := s.serviceTasks[id].data.(lockExpiration := Some(now + duration)))
            && s' == s.(serviceTasks := s.serviceTasks[id := s'.serviceTasks[id]]))
  {}

  /** The calls of one worker on one task: it fetches the task, and reports a failure. */
  ghost function FetchAndFail(s: State, id: Uuid, worker: string, now: Time, duration: int): State
    requires id in s.serviceTasks
  {
    var fetched := FetchAndLock(s, worker, 1, [s.serviceTasks[id].data.topic], duration, now, [id]).0;
    FailServiceTask(fetched, id, worker, None, None, None).0
  }

  /** A task that is free loses one retry with every failed attempt, and is free again: after as many
      attempts as it has retries it is an incident, and before that it is none. */
  lemma FailedAttempt(s: State, id: Uuid, worker: string, now: Time, duration: int)
    requires id in s.serviceTasks && s.serviceTasks[id].data.lockExpiration.None?
    ensures var s' := FetchAndFail(s, id, worker, now, duration);
      && id in s'.serviceTasks && s'.serviceTasks[id].data.retries == s.serviceTasks[id].data.retries - 1
      && s'.serviceTasks[id].data.lockExpiration.None? && s'.serviceTasks[id].data.workerId.None?
      && s'.serviceTasks[id].data.topic == s.serviceTasks[id].data.topic
      && (RetryIncident(s', id, None).1 == Done <==> s.serviceTasks[id].data.retries <= 1)
  {
    var m, topic := s.serviceTasks, s.serviceTasks[id].data.topic;
    var e := Locked(m[id], worker, now + duration);
    assert [id][0] == id && [id][1..] == [] && topic in [topic];
    assert LockTasks(m[id := e], [], worker, 0, [topic], now, now + duration) == (m[id := e], []);
    assert LockTasks(m, [id], worker, 1, [topic], now, now + duration).0 == m[id := e];
  }

  ghost function FailEach(s: State, id: Uuid, workers: seq<string>, now: Time, duration: int): State
    requires id in s.serviceTasks && s.serviceTasks[id].data.lockExpiration.None?
    decreases |workers|
  {
    if workers == [] then s
    else
      FailedAttempt(s, id, workers[0], now, duration);
      FailEach(FetchAndFail(s, id, workers[0], now, duration), id, workers[1..], now, duration)
  }

  /** A task becomes an incident exactly when as many attempts have failed as it had retries, whoever made
      them. */
  lemma {:induction false} IncidentAfterLastRetry(s: State, id: Uuid, workers: seq<string>, now: Time, duration: int)
    requires id in s.serviceTasks && s.serviceTasks[id].data.lockExpiration.None?
    ensures var s' := FailEach(s, id, workers, now, duration);
      && id in s'.serviceTasks && s'.serviceTasks[id].data.retries == s.serviceTasks[id].data.retries - |workers|
      && (RetryIncident(s', id, None).1 == Done <==> |workers| >= s.serviceTasks[id].data.retries)
    decreases |workers|
  {
    hide FetchAndFail;
    if workers != [] {
      FailedAttempt(s, id, workers[0], now, duration);
      IncidentAfterLastRetry(FetchAndFail(s, id, workers[0], now, duration), id, workers[1..], now, duration);
    }
  }

  // ---- Refusals ----

  /** The instance of a task is there and not suspended. */
  predicate Awake(s: State, i: Uuid) {
    i in s.instances && !s.instances[i].state.Suspended?
  }

  /** The token is there, but the end script fails on its variables and the caller's. */
  predicate ScriptFails(s: State, i: Uuid, t: Uuid, extra: Variables, env: Env) {
    && i in s.instances && t in s.instances[i].tokens && s.instances[i].definitionKey in s.definitions
    && env.endScript(s.instances[i].tokens[t].variables + extra).None?
  }

  /** Why a completion of a user task fails before its token is taken on: the task is not pending, its
      instance is suspended or gone, its token or its definition is missing, or its end script fails. An
      unknown task and a suspended instance leave everything as it was; with the instance or the token
      missing the task is gone all the same. */
  lemma UserTaskRefusals(s: State, id: Uuid, extra: Variables, env: Env)
    ensures var (s', r) := CompleteUserTask(s, id, extra, env);
      && (id !in s.userTasks ==> s' == s && r == Failed(TaskNotPending(id)))
      && (id in s.userTasks ==>
            var i, t := s.userTasks[id].instanceId, s.userTasks[id].tokenId;
            && (i !in s.instances ==> s' == s.(userTasks := s.userTasks - {id}) && r == Failed(NoSuchInstance(i)))
            && (i in s.instances && s.instances[i].state.Suspended? ==> s' == s && r == Failed(InstanceSuspended(i)))
            && (Awake(s, i) && t !in s.instances[i].tokens ==>
                  s' == s.(userTasks := s.userTasks - {id}) && r == Failed(InvalidDefinition))
            && (Awake(s, i) && t in s.instances[i].tokens && s.instances[i].definitionKey !in s.definitions ==>
                  r == Failed(NoSuchDefinition(s.instances[i].definitionKey)))
            && (Awake(s, i) && ScriptFails(s, i, t, extra, env) ==> r == Failed(ScriptError)))
  {
    hide Finish, LeaveTask, RestoreUserTask;
    if id in s.userTasks {
      assert s.userTasks - {id} == s.userTasks - {id} && (s.userTasks - {id})[id := s.userTasks[id]] == s.userTasks;
    }
  }

  /** The same for a service task its worker holds; here a failed end script is not rolled back. */
  lemma ServiceTaskRefusals(s: State, id: Uuid, worker: string, extra: Variables, env: Env)
    requires HeldBy(s, id, worker) && s.serviceTasks[id].id == id
    ensures var (s', r) := CompleteServiceTask(s, id, worker, extra, env);
      var i, t := s.serviceTasks[id].instanceId, s.serviceTasks[id].tokenId;
      && (i !in s.instances ==> s' == TakeServiceTask(s, id) && r == Failed(NoSuchInstance(i)))
      && (i in s.instances && s.instances[i].state.Suspended? ==> s' == s && r == Failed(InstanceSuspended(i)))
      && (Awake(s, i) && t !in s.instances[i].tokens ==> s' == TakeServiceTask(s, id) && r == Failed(InvalidDefinition))
      && (Awake(s, i) && t in s.instances[i].tokens && s.instances[i].definitionKey !in s.definitions ==>
            r == Failed(NoSuchDefinition(s.instances[i].definitionKey)) && id !in s'.serviceTasks)
      && (Awake(s, i) && ScriptFails(s, i, t, extra, env) ==>
            r == Failed(ScriptError) && id !in s'.serviceTasks && t !in s'.instances[i].tokens)
  {
    var task, s1 := s.serviceTasks[id], TakeServiceTask(s, id);
    assert (s.serviceTasks - {id})[id := task] == s.serviceTasks;
    if Awake(s, task.instanceId) {
      LeftTask(s1, task.instanceId, task.tokenId, task.nodeId);
    }
    hide Finish, LeaveTask;
  }

  lemma LeftTask(s: State, i: Uuid, t: Uuid, node: string)
    requires i in s.instances
    ensures var r := LeaveTask(s, i, t, node);
      r.serviceTasks == s.serviceTasks && i in r.instances && t !in r.instances[i].tokens
  {}

  /** The same for an incident, which is resolved whether its instance is suspended or not. */
  lemma IncidentRefusals(s: State, id: Uuid, extra: Variables, env: Env)
    ensures var (s', r) := ResolveIncident(s, id, extra, env);
      && (id !in s.serviceTasks ==> s' == s && r == Failed(ServiceTaskNotFound(id)))
      && (id in s.serviceTasks && s.serviceTasks[id].data.retries > 0 ==> s' == s && r == Failed(InvalidDefinition))
      && (id in s.serviceTasks && s.serviceTasks[id].data.retries <= 0 ==>
            var i, t := s.serviceTasks[id].instanceId, s.serviceTasks[id].tokenId;
            && (i !in s.instances ==> r == Failed(NoSuchInstance(i)))
            && (i in s.instances && t !in s.instances[i].tokens ==> r == Failed(InvalidDefinition))
            && (HasToken(s, i, t) && s.instances[i].definitionKey !in s.definitions ==>
                  r == Failed(NoSuchDefinition(s.instances[i].definitionKey)))
            && (ScriptFails(s, i, t, extra, env) ==> r == Failed(ScriptError)))
  {
    hide Finish, LeaveTask;
  }

  /** A reported error whose instance is gone, or whose token is missing when a boundary event catches it,
      fails; with its definition missing it is accepted. */
  lemma ErrorRefusals(s: State, id: Uuid, worker: string, code: string, env: Env)
    requires HeldBy(s, id, worker)
    ensures var (s', r) := HandleBpmnError(s, id, worker, code, env);
      var i, t := s.serviceTasks[id].instanceId, s.serviceTasks[id].tokenId;
      && (i !in s.instances ==> r == Failed(NoSuchInstance(i)))
      && (i in s.instances && s.instances[i].definitionKey !in s.definitions ==>
         r == Done && s'.instances == s.instances)
      && (i in s.instances && s.instances[i].definitionKey in s.definitions && t !in s.instances[i].tokens ==>
            var d := s.definitions[s.instances[i].definitionKey];
            r == if exists n <- d.order :: Catching(d, n, s.serviceTasks[id].nodeId, code)
                 then Failed(InvalidDefinition) else Done)
  {
    var i := s.serviceTasks[id].instanceId;
    if i in s.instances && s.instances[i].definitionKey in s.definitions {
      var d := s.definitions[s.instances[i].definitionKey];
      FoundCatches(d, d.order, s.serviceTasks[id].nodeId, code);
    }
    hide FindBoundaryError, Catching, MoveOn;
  }

  /** A timer or message catch that is gone, or whose instance, definition or token is missing, fails the
      call; the wait that fired is used up. */
  lemma TimerRefusals(s: State, id: Uuid, defOrder: seq<Uuid>, env: Env)
    ensures id !in s.timers ==> FireTimer(s, id, defOrder, env) == (s, Failed(InvalidDefinition))
    ensures id in s.timers ==>
      var missing := MissingFor(s, s.timers[id].instanceId, s.timers[id].tokenId);
      missing.Some? ==> FireTimer(s, id, defOrder, env).1 == Failed(missing.value)
  {
    hide MoveOn, FireListener, TimerResumes;
  }

  lemma CatchRefusals(s: State, id: Uuid, variables: Variables, defOrder: seq<Uuid>, env: Env)
    ensures id !in s.catches ==> FireCatch(s, id, variables, defOrder, env) == (s, Failed(InvalidDefinition))
    ensures id in s.catches && s.catches[id].tokenId != NIL ==>
      var missing := MissingFor(s, s.catches[id].instanceId, s.catches[id].tokenId);
      missing.Some? ==> FireCatch(s, id, variables, defOrder, env).1 == Failed(missing.value)
  {
    hide MoveOn, FireListener, CatchResumes;
  }

  /** What is missing for a token to be resumed. Scope listeners wait under the nil token and need their
      instance alone. */
  function MissingFor(s: State, i: Uuid, t: Uuid): Option<EngineError> {
    if i !in s.instances then Some(NoSuchInstance(i))
    else if t == NIL then None
    else if s.instances[i].definitionKey !in s.definitions then Some(NoSuchDefinition(s.instances[i].definitionKey))
    else if t !in s.instances[i].tokens then Some(InvalidDefinition)
    else None
  }

  /** Updates and deletions of an instance that is not there are refused and change nothing; a deletion
      the store refuses fails when the instance is gone already. */
  lemma UnknownInstances(s: State, i: Uuid, update: Variables, storeOk: bool)
    ensures i !in s.instances ==> UpdateVariables(s, i, update) == (s, Failed(NoSuchInstance(i)))
    ensures i !in s.instances ==> DeleteInstance(s, i, storeOk) == (s, Failed(NoSuchInstance(i)))
    ensures i in s.instances ==> UpdateVariables(s, i, update).1 == Done
    ensures i in s.instances && !storeOk ==>
      DeleteInstance(s, i, storeOk) == (s.(instances := s.instances - {i}), Failed(PersistenceError))
    ensures i in s.instances && storeOk ==>
      var s' := s.(instances := s.instances - {i}, userTasks := OfOthers(s.userTasks, i),
                   serviceTasks := OfOthers(s.serviceTasks, i), timers := OfOthers(s.timers, i),
                   catches := OfOthers(s.catches, i));
      DeleteInstance(s, i, storeOk) == (s', Done)
  {
    DroppedIsOthers(s.userTasks, i);
    DroppedIsOthers(s.serviceTasks, i);
    DroppedIsOthers(s.timers, i);
    DroppedIsOthers(s.catches, i);
    hide DropInstance, OfOthers;
  }

  // ---- Timers of one call ----

  /** A call of `process_timers` that succeeds answers with the number of timers it fired: each that was
      due when it began, in the order it walks them. */
  lemma AnswersWithNumberFired(s: State, now: Time, order: seq<Uuid>, defOrder: seq<Uuid>, envs: nat -> Env)
    requires Sane(s)
    ensures var (s', r) := ProcessTimers(s, now, order, defOrder, envs);
      r.Ok? ==>
        && s.fired <= s'.fired && |s'.fired| == |s.fired| + r.value
        && (forall p :: |s.fired| <= p < |s'.fired| ==> s'.fired[p].TimerFired? && FallsDue(s, s'.fired[p].id, now))
        && (forall id <- order :: FallsDue(s, id, now) ==> FiredIn(s'.fired[|s.fired|..], id))
  {
    var ids := Expired(s, now, order);
    ExpiredAre(s, now, order);
    AllFire(s, ids, defOrder, envs, 0);
    hide FireTimers, Expired, FallsDue, FiredNext, FiredIn, Sane;
    var (s', r) := FireTimers(s, ids, defOrder, envs, 0);
    if r.Done? {
      FiredAre(s.fired, s'.fired, ids);
    }
  }

  /** Two timers of one token that are due in the same call, say a reminder and a deadline of one activity,
      make the call fail: the one that fires clears the other, which the call then misses. */
  lemma SiblingsFailTheCall(s: State, now: Time, order: seq<Uuid>, defOrder: seq<Uuid>, envs: nat -> Env, x: Uuid,
      y: Uuid)
    requires Sane(s) && x != y && x in order && y in order && FallsDue(s, x, now) && FallsDue(s, y, now)
    requires s.timers[x].instanceId == s.timers[y].instanceId && s.timers[x].tokenId == s.timers[y].tokenId
    ensures ProcessTimers(s, now, order, defOrder, envs).1.Err?
  {
    var i, t := s.timers[x].instanceId, s.timers[x].tokenId;
    var call := Runs.Timers(now, order, defOrder, envs);
    OneEventPerWait(s, [call], i, t);
    AnswersWithNumberFired(s, now, order, defOrder, envs);
    var (s', r) := ProcessTimers(s, now, order, defOrder, envs);
    hide ProcessTimers, FallsDue, Sane;
    assert [call][1..] == [] && Runs.RunCalls(Runs.Apply(s, call), []) == s';
    if r.Ok? {
      BothFired(s.fired, s'.fired, x, y, WaitsOf(s, i, t));
    }
  }

  lemma BothFired(before: seq<Firing>, after: seq<Firing>, x: Uuid, y: Uuid, group: Group)
    requires x != y && x in group.timers && y in group.timers
    requires before <= after && FiredIn(after[|before|..], x) && FiredIn(after[|before|..], y)
    ensures !FiredAtMostOnce(after, |before|, group)
  {
    var later := after[|before|..];
    var p :| 0 <= p < |later| && later[p].TimerFired? && later[p].id == x;
    var q :| 0 <= q < |later| && later[q].TimerFired? && later[q].id == y;
    assert group.Has(after[|before| + p]) && group.Has(after[|before| + q]);
  }

  lemma FiredAre(before: seq<Firing>, after: seq<Firing>, ids: seq<Uuid>)
    requires FiredNext(before, after, ids)
    ensures before <= after && |after| == |before| + |ids|
    ensures forall id <- ids :: FiredIn(after[|before|..], id)
    ensures forall p :: |before| <= p < |after| ==> after[p].TimerFired? && after[p].id in ids
  {
    forall id | id in ids ensures FiredIn(after[|before|..], id) {
      var p :| 0 <= p < |ids| && ids[p] == id;
      assert after[|before|..][p] == after[|before| + p] && after[|before| + p].id == ids[p];
    }
  }

  lemma {:induction false} AllFire(s: State, ids: seq<Uuid>, defOrder: seq<Uuid>, envs: nat -> Env, k: nat)
    requires Sane(s)
    ensures var (s', r) := FireTimers(s, ids, defOrder, envs, k);
      r.Done? ==> FiredNext(s.fired, s'.fired, ids)
    decreases |ids|
  {
    if ids != [] && ids[0] in s.timers {
      FireTimerParts(s, ids[0], defOrder, envs(k), 0);
      var (s1, r) := FireTimer(s, ids[0], defOrder, envs(k));
      hide FireTimer, Sane, FiredNext;
      if r.Done? {
        AllFire(s1, ids[1..], defOrder, envs, k + 1);
        var (s', rest) := FireTimers(s1, ids[1..], defOrder, envs, k + 1);
        if rest.Done? {
          FiredFirst(s.fired, s'.fired, ids, s.timers[ids[0]].data.origin);
        }
      }
    }
  }

  /** These timers fired, one after the other, and nothing else. */
  ghost predicate FiredNext(before: seq<Firing>, after: seq<Firing>, ids: seq<Uuid>) {
    && before <= after && |after| == |before| + |ids|
    && forall p :: |before| <= p < |after| ==> after[p].TimerFired? && after[p].id == ids[p - |before|]
  }

  lemma FiredFirst(before: seq<Firing>, after: seq<Firing>, ids: seq<Uuid>, origin: Uuid)
    requires ids != [] && FiredNext(before + [TimerFired(ids[0], origin)], after, ids[1..])
    ensures FiredNext(before, after, ids)
  {
    var more := before + [TimerFired(ids[0], origin)];
    forall p | |before| <= p < |after| ensures after[p].TimerFired? && after[p].id == ids[p - |before|] {
      if p == |before| {
        assert after[p] == more[p];
      } else {
        assert ids[1..][p - |more|] == ids[p - |before|];
      }
    }
  }

  // ---- Scope listeners ----

  /** Definition `key` is a newest version of the process: no other registered one has a higher version. */
  ghost predicate Newest(defs: Definitions, order: seq<Uuid>, bpmnId: string, key: Uuid) {
    && key in order && key in defs && defs[key].id == bpmnId
    && forall k <- order :: k in defs && defs[k].id == bpmnId ==> defs[k].version <= defs[key].version
  }

  lemma {:induction false} LatestIsNewest(defs: Definitions, order: seq<Uuid>, bpmnId: string)
    ensures var r := LatestOf(defs, order, bpmnId);
      && (r.None? <==> forall k <- order :: k in defs ==> defs[k].id != bpmnId)
      && (r.Some? ==> Newest(defs, order, bpmnId, r.value))
    decreases |order|
  {
    if order != [] {
      LatestIsNewest(defs, order[1..], bpmnId);
      assert forall k :: k in order <==> k == order[0] || k in order[1..];
    }
  }

  /** A scope listener that fires starts an instance of the newest version of its process, with the
      variables of the instance it belongs to and those of the message over them; without such a process
      it fails and changes nothing. */
  lemma ListenerStartsNewest(s: State, i: Uuid, target: string, variables: Variables, defOrder: seq<Uuid>, env: Env)
    requires i in s.instances
    ensures var (s', r) := FireListener(s, i, target, variables, defOrder, env);
      if forall k <- defOrder :: k in s.definitions ==> s.definitions[k].id != target
      then s' == s && r.Failed?
      else exists key ::
        && Newest(s.definitions, defOrder, target, key)
        && s' == StartInstance(s, key, s.instances[i].variables + variables, env).0
        && (r == Done <==> StartInstance(s, key, s.instances[i].variables + variables, env).1.Ok?)
  {
    hide StartInstance;
    LatestIsNewest(s.definitions, defOrder, target);
  }

  /** A scope listener's timer fires once, however often it is meant to repeat: afterwards no timer waits
      for the instance's listeners. */
  lemma ScopeTimersFireOnce(s: State, id: Uuid, defOrder: seq<Uuid>, env: Env)
    requires Sane(s) && id in s.timers && s.timers[id].tokenId == NIL && s.timers[id].instanceId in s.instances
    ensures var s', i := FireTimer(s, id, defOrder, env).0, s.timers[id].instanceId;
      forall x <- s'.timers :: !(s'.timers[x].instanceId == i && s'.timers[x].tokenId == NIL)
  {
    var i := s.timers[id].instanceId;
    var taken := TimerTaken(s, id);
    assert FireTimer(s, id, defOrder, env).0 == FireListener(taken, i, s.timers[id].nodeId, map[], defOrder, env).0;
    assert forall x <- taken.timers :: !(taken.timers[x].instanceId == i && taken.timers[x].tokenId == NIL);
    FewerSane(s, taken);
    hide FireTimer, ResumeTimer, Sane, TimerTaken;
    ListenerAddsElsewhere(taken, i, s.timers[id].nodeId, defOrder, env);
  }

  lemma ListenerAddsElsewhere(s: State, i: Uuid, target: string, defOrder: seq<Uuid>, env: Env)
    requires Sane(s) && i in s.instances
    ensures var s' := FireListener(s, i, target, map[], defOrder, env).0;
      forall x <- s'.timers :: s'.timers[x].instanceId == i ==> x in s.timers && s'.timers[x] == s.timers[x]
  {
    var key := LatestOf(s.definitions, defOrder, target);
    if key.Some? {
      StartInstanceWithin(s, key.value, s.instances[i].variables + map[], env);
    }
    hide StartInstance, LatestOf;
  }

  // ---- What is left of a batch's actions ----

  /** A call activity parks its token in the state of its instance, unless several branches are active, and
      stores it nowhere else. */
  lemma CallActivityParks(s: State, i: Uuid, tok: Token, rest: seq<Token>, env: Env)
    requires CanAct(s, i, tok, WaitForCallActivity)
    ensures var (s', queue) := Act(s, i, tok, rest, WaitForCallActivity, env);
      && queue == rest && i in s'.instances && s'.instances == s.instances[i := s'.instances[i]]
      && s'.userTasks == s.userTasks && s'.serviceTasks == s.serviceTasks
      && s'.instances[i] == s.instances[i].(currentNode := tok.currentNode, state := s'.instances[i].state)
      && (s.instances[i].state.ParallelExecution? ==> s'.instances[i].state == s.instances[i].state)
      && (!s.instances[i].state.ParallelExecution? ==>
            s'.instances[i].state.WaitingOnCallActivity? && s'.instances[i].state.token == tok)
  {
    hide RegisterBoundary;
  }

  /** An escalation that does not interrupt sends its token on and a fresh one to each handler; an action
      that only continues moves its token. */
  lemma SendsOn(s: State, i: Uuid, tok: Token, rest: seq<Token>, main: string, spawned: seq<string>, env: Env)
    requires CanAct(s, i, tok, SpawnAndContinue(main, spawned))
    ensures var (s', queue) := Act(s, i, tok, rest, SpawnAndContinue(main, spawned), env);
      && s' == s.(nextId := s.nextId + |spawned|) && |queue| == |rest| + 1 + |spawned| && rest <= queue
      && queue[|rest|] == tok.(currentNode := main)
      && forall k :: 0 <= k < |spawned| ==>
           queue[|rest| + 1 + k] == Token(s.nextId + k, spawned[k], tok.variables, false)
  {
    hide Gateway.Forked;
  }
}
