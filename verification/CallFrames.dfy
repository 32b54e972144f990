/** What each call leaves alone, on any definitions and any state: the instances it does not name, the
    entries it does not take, and the ids that were drawn before. */
module CallFrames {
  import opened Values
  import opened Definition
  import opened EngineState
  import opened Executor
  import opened ExecutorFrame
  import opened Operations

  /** Every instance that existed before, except `i`, looks the same. */
  ghost predicate Except(s: State, s': State, i: Uuid) {
    forall j: Uuid :: j != i && j < s.nextId ==> View(s', j) == View(s, j)
  }

  /** A run of steps of instance `i`, and of instances it started. */
  ghost predicate Steps(s: State, s': State, i: Uuid) {
    Sane(s') && RunsOn(s, s') && KeysKept(s, s') && Except(s, s', i)
  }

  lemma StepsThen(a: State, b: State, c: State, i: Uuid)
    requires Steps(a, b, i) && Steps(b, c, i)
    ensures Steps(a, c, i)
  {
    hide View, Sane;
    RunsOnTransitive(a, b, c);
  }

  lemma WithinSteps(s: State, s': State, i: Uuid)
    requires Within(s, s', i)
    ensures Steps(s, s', i)
  {
    hide RunsOn, Sane, TouchesOnly;
    forall j: Uuid | j != i && j < s.nextId ensures View(s', j) == View(s, j) {
      UntouchedView(s, s', i, j);
    }
  }

  /** Steps of an instance that did not exist yet touch none that did. */
  lemma NewWithinSteps(s: State, s': State, i: Uuid)
    requires Within(s, s', s.nextId)
    ensures Steps(s, s', i)
  {
    WithinSteps(s, s', s.nextId);
  }

  lemma InstanceChanges(s: State, i: Uuid, inst: Instance)
    requires Sane(s) && i in s.instances && inst.definitionKey == s.instances[i].definitionKey
    ensures Within(s, s.WithInstance(i, inst), i)
  {
    InstanceWithin(s, i, inst, s.nextId);
    assert s.WithInstance(i, inst).(nextId := s.nextId) == s.WithInstance(i, inst);
  }

  // ---- Shared steps ----

  lemma MoveOnWithin(s: State, i: Uuid, tok: Token, d: ProcessDefinition, from: string, env: Env)
    requires Sane(s)
    ensures Within(s, MoveOn(s, i, tok, d, from, env).0, i)
  {
    var next := ResolveNext(d.NextNodes(from), tok.variables);
    NothingWithin(s, i);
    if next.Some? && i in s.instances {
      var s1 := Shown(s, i, next.value);
      InstanceChanges(s, i, s.instances[i].(currentNode := next.value));
      WithinSane(s, s1, i);
      hide Within, Sane, Run;
      RunWithin(s1, i, tok.(currentNode := next.value), env);
      WithinTransitive(s, s1, Run(s1, i, tok.(currentNode := next.value), env).0, i);
    }
  }

  lemma FinishWithin(s: State, i: Uuid, tok: Token, variables: Variables, node: string, env: Env)
    requires Sane(s) && i in s.instances && s.instances[i].definitionKey in s.definitions
    ensures Within(s, Finish(s, i, tok, variables, node, env).0, i)
  {
    var s1 := Synced(s, i, variables);
    InstanceChanges(s, i, s.instances[i].(variables := variables));
    WithinSane(s, s1, i);
    hide Within, Sane, MoveOn;
    var d := s.definitions[s.instances[i].definitionKey];
    MoveOnWithin(s1, i, tok.(variables := variables), d, node, env);
    WithinTransitive(s, s1, MoveOn(s1, i, tok.(variables := variables), d, node, env).0, i);
  }

  lemma CancelWithin(s: State, i: Uuid, node: string)
    requires Sane(s)
    ensures Within(s, CancelBoundary(s, i, node), i)
  {
    RemovalWithin(s, CancelBoundary(s, i, node), i);
  }

  lemma LeaveTaskWithin(s: State, i: Uuid, t: Uuid, node: string)
    requires Sane(s) && i in s.instances
    ensures Within(s, LeaveTask(s, i, t, node), i)
  {
    var s1 := WithoutToken(s, i, t);
    InstanceChanges(s, i, s1.instances[i]);
    var s2 := CancelBoundary(s1, i, node);
    RemovalWithin(s1, s2, i);
    InstanceChanges(s2, i, s2.instances[i].Resumed());
    hide Within;
    WithinTransitive(s, s1, s2, i);
    WithinTransitive(s, s2, LeaveTask(s, i, t, node), i);
  }

  /** The task is left, then one field of the instance changes. */
  lemma LeaveThenWithin(s: State, i: Uuid, t: Uuid, node: string, variables: Variables)
    requires Sane(s) && i in s.instances
    ensures Within(s, Shown(LeaveTask(s, i, t, node), i, node), i)
    ensures Within(s, Synced(LeaveTask(s, i, t, node), i, variables), i)
  {
    LeaveTaskWithin(s, i, t, node);
    hide LeaveTask;
    var s' := LeaveTask(s, i, t, node);
    WithinSane(s, s', i);
    InstanceChanges(s', i, s'.instances[i].(currentNode := node));
    InstanceChanges(s', i, s'.instances[i].(variables := variables));
    hide Within;
    WithinTransitive(s, s', Shown(s', i, node), i);
    WithinTransitive(s, s', Synced(s', i, variables), i);
  }

  lemma FinishAfter(s: State, s3: State, i: Uuid, tok: Token, variables: Variables, node: string, env: Env)
    requires Within(s, s3, i) && i in s3.instances && s3.instances[i].definitionKey in s3.definitions
    ensures Within(s, Finish(s3, i, tok, variables, node, env).0, i)
  {
    WithinSane(s, s3, i);
    hide Within;
    FinishWithin(s3, i, tok, variables, node, env);
    WithinTransitive(s, s3, Finish(s3, i, tok, variables, node, env).0, i);
  }

  // ---- User tasks ----

  lemma PutBack(m: UserTasks, m3: UserTasks, id: Uuid, next: Uuid, next': Uuid)
    requires id in m && Keyed(m, next) && Keyed(m3, next') && next <= next'
    requires KeptOrNew(m - {id}, m3, next) && SameElsewhere(m - {id}, m3, m[id].instanceId)
    ensures var m' := m3[id := m[id]];
      Keyed(m', next') && KeptOrNew(m, m', next) && SameElsewhere(m, m', m[id].instanceId)
  {}

  lemma PutBackElsewhere(m: UserTasks, m3: UserTasks, id: Uuid)
    requires id in m && SameElsewhere(m - {id}, m3, m[id].instanceId)
    ensures SameElsewhere(m, m3[id := m[id]], m[id].instanceId)
  {}

  lemma RestoreRunsOn(s: State, s3: State, id: Uuid, tok: Token)
    requires Sane(s) && id in s.userTasks && Within(s.(userTasks := s.userTasks - {id}), s3, s.userTasks[id].instanceId)
    requires s.userTasks[id].instanceId in s3.instances
    ensures var s' := RestoreUserTask(s3, id, s.userTasks[id], tok); Sane(s') && RunsOn(s, s')
  {
    PutBack(s.userTasks, s3.userTasks, id, s.nextId, s3.nextId);
    hide Keyed, KeptOrNew, SameElsewhere, TouchesOnly, KeysKept;
  }

  /** The task goes back under its own id: no entry is new or changed. */
  lemma RestoreWithin(s: State, s3: State, id: Uuid, tok: Token)
    requires Sane(s) && id in s.userTasks && Within(s.(userTasks := s.userTasks - {id}), s3, s.userTasks[id].instanceId)
    requires s.userTasks[id].instanceId in s3.instances
    ensures Within(s, RestoreUserTask(s3, id, s.userTasks[id], tok), s.userTasks[id].instanceId)
  {
    hide RunsOn, Sane, SameElsewhere;
    RestoreRunsOn(s, s3, id, tok);
    PutBackElsewhere(s.userTasks, s3.userTasks, id);
  }

  lemma CompleteUserTaskWithin(s: State, id: Uuid, extra: Variables, env: Env)
    requires Sane(s)
    ensures var s' := CompleteUserTask(s, id, extra, env).0;
      if id in s.userTasks then Within(s, s', s.userTasks[id].instanceId) else s' == s
  {
    if id in s.userTasks {
      var task := s.userTasks[id];
      var i, t := task.instanceId, task.tokenId;
      var s1 := s.(userTasks := s.userTasks - {id});
      RemovalWithin(s, s1, i);
      NothingWithin(s, i);
      assert s1.userTasks[id := task] == s.userTasks;
      WithinSane(s, s1, i);
      hide Sane, LeaveTask, Finish, RestoreUserTask, Within;
      if i in s.instances && !IsSuspended(s, i) && t in s.instances[i].tokens {
        LeaveThenWithin(s1, i, t, task.nodeId, map[]);
        var s3 := Shown(LeaveTask(s1, i, t, task.nodeId), i, task.nodeId);
        var tok := MergedToken(s1, i, t, extra);
        WithinTransitive(s, s1, s3, i);
        if s3.instances[i].definitionKey in s3.definitions {
          match env.endScript(tok.variables)
          case None => RestoreWithin(s, s3, id, tok);
          case Some(variables) => FinishAfter(s, s3, i, tok, variables, task.nodeId, env);
        }
      }
    }
  }

  // ---- Service tasks ----

  /** The task was consumed and its instance ran on. */
  ghost predicate Consumed(s: State, s': State, id: Uuid) {
    id in s.serviceTasks && Within(TakeServiceTask(s, id), s', s.serviceTasks[id].instanceId)
  }

  lemma TakeServiceTaskFrame(s: State, id: Uuid)
    requires Sane(s) && id in s.serviceTasks
    ensures Sane(TakeServiceTask(s, id))
    ensures TouchesOnly(s, TakeServiceTask(s, id), s.serviceTasks[id].instanceId)
  {}

  /** The shared tail of completion and resolution. */
  lemma EndsWithin(s: State, s3: State, i: Uuid, tok: Token, node: string, env: Env)
    requires Within(s, s3, i) && i in s3.instances && s3.instances[i].definitionKey in s3.definitions
    ensures var after := match env.endScript(tok.variables)
        case None => s3
        case Some(v) => Finish(s3, i, tok, v, node, env).0;
      Within(s, after, i)
  {
    hide Within, Finish;
    match env.endScript(tok.variables)
    case None =>
    case Some(variables) => FinishAfter(s, s3, i, tok, variables, node, env);
  }

  lemma CompleteServiceTaskFrame(s: State, id: Uuid, worker: string, extra: Variables, env: Env)
    requires Sane(s)
    ensures var s' := CompleteServiceTask(s, id, worker, extra, env).0;
      if HeldBy(s, id, worker) && !IsSuspended(s, s.serviceTasks[id].instanceId) then Consumed(s, s', id) else s' == s
  {
    if HeldBy(s, id, worker) {
      var task := s.serviceTasks[id];
      var i, t := task.instanceId, task.tokenId;
      var s1 := TakeServiceTask(s, id);
      TakeServiceTaskFrame(s, id);
      NothingWithin(s1, i);
      assert s1.serviceTasks[task.id := task] == s.serviceTasks;
      hide Sane, LeaveTask, Finish, Within, TouchesOnly;
      if i in s.instances && !IsSuspended(s, i) && t in s.instances[i].tokens {
        var tok := MergedToken(s1, i, t, extra);
        LeaveThenWithin(s1, i, t, task.nodeId, tok.variables);
        var s3 := Synced(LeaveTask(s1, i, t, task.nodeId), i, tok.variables);
        if s3.instances[i].definitionKey in s3.definitions {
          EndsWithin(s1, s3, i, tok, task.nodeId, env);
        }
      }
    }
  }

  lemma ResolveIncidentFrame(s: State, id: Uuid, extra: Variables, env: Env)
    requires Sane(s)
    ensures var s' := ResolveIncident(s, id, extra, env).0;
      if id in s.serviceTasks && s.serviceTasks[id].data.retries <= 0 then Consumed(s, s', id) else s' == s
  {
    if id in s.serviceTasks && s.serviceTasks[id].data.retries <= 0 {
      var task := s.serviceTasks[id];
      var i, t := task.instanceId, task.tokenId;
      var s1 := TakeServiceTask(s, id);
      hide Sane, LeaveTask, Finish, Within, TouchesOnly, MergedToken;
      TakeServiceTaskFrame(s, id);
      NothingWithin(s1, i);
      if i in s.instances && t in s.instances[i].tokens {
        var tok := MergedToken(s1, i, t, extra);
        LeaveThenWithin(s1, i, t, task.nodeId, tok.variables);
        var s3 := Shown(LeaveTask(s1, i, t, task.nodeId), i, task.nodeId);
        if s3.instances[i].definitionKey in s3.definitions {
          EndsWithin(s1, s3, i, tok, task.nodeId, env);
        }
      }
    }
  }

  /** The token leaves through the boundary error event. */
  lemma ErrorLeavesWithin(s2: State, i: Uuid, t: Uuid, d: ProcessDefinition, boundary: string, env: Env)
    requires Sane(s2) && i in s2.instances && t in s2.instances[i].tokens
    ensures var s3 := s2.WithInstance(i, s2.instances[i].(state := Running));
      && Within(s2, s3, i)
      && Within(s2, MoveOn(WithoutToken(s3, i, t), i, s3.instances[i].tokens[t], d, boundary, env).0, i)
  {
    var s3 := s2.WithInstance(i, s2.instances[i].(state := Running));
    var s4 := WithoutToken(s3, i, t);
    InstanceChanges(s2, i, s3.instances[i]);
    InstanceChanges(s3, i, s4.instances[i]);
    WithinSane(s3, s4, i);
    hide Sane, MoveOn, Within;
    MoveOnWithin(s4, i, s3.instances[i].tokens[t], d, boundary, env);
    WithinTransitive(s2, s3, s4, i);
    WithinTransitive(s2, s4, MoveOn(s4, i, s3.instances[i].tokens[t], d, boundary, env).0, i);
  }

  /** What follows when the task is gone and its boundary events are cancelled. */
  lemma ErrorRoutedWithin(s2: State, i: Uuid, t: Uuid, node: string, code: string, env: Env)
    requires Sane(s2) && i in s2.instances && s2.instances[i].definitionKey in s2.definitions
    ensures var d := s2.definitions[s2.instances[i].definitionKey];
      var s3 := s2.WithInstance(i, s2.instances[i].(state := Running));
      Within(s2,
        (match FindBoundaryError(d, d.order, node, code)
         case None => s2
         case Some(boundary) =>
           if t !in s3.instances[i].tokens then s3
           else MoveOn(WithoutToken(s3, i, t), i, s3.instances[i].tokens[t], d, boundary, env).0), i)
  {
    var d := s2.definitions[s2.instances[i].definitionKey];
    NothingWithin(s2, i);
    InstanceChanges(s2, i, s2.instances[i].(state := Running));
    hide MoveOn, Within, Sane, FindBoundaryError;
    var boundary := FindBoundaryError(d, d.order, node, code);
    if boundary.Some? && t in s2.instances[i].tokens {
      ErrorLeavesWithin(s2, i, t, d, boundary.value, env);
    }
  }

  lemma HandleBpmnErrorFrame(s: State, id: Uuid, worker: string, code: string, env: Env)
    requires Sane(s)
    ensures var s' := HandleBpmnError(s, id, worker, code, env).0;
      if HeldBy(s, id, worker) then Consumed(s, s', id) else s' == s
  {
    if HeldBy(s, id, worker) {
      var task := s.serviceTasks[id];
      var i, t := task.instanceId, task.tokenId;
      var s1 := TakeServiceTask(s, id);
      TakeServiceTaskFrame(s, id);
      NothingWithin(s1, i);
      CancelWithin(s1, i, task.nodeId);
      var s2 := CancelBoundary(s1, i, task.nodeId);
      hide Sane, MoveOn, Within, CancelBoundary, TouchesOnly, FindBoundaryError;
      WithinSane(s1, s2, i);
      if i in s2.instances && s2.instances[i].definitionKey in s2.definitions {
        ErrorRoutedWithin(s2, i, t, task.nodeId, code, env);
        WithinTransitive(s1, s2, HandleBpmnError(s, id, worker, code, env).0, i);
      }
    }
  }

  // ---- Starting ----

  lemma {:induction false} RegisterListenersAdds(s: State, listeners: seq<ScopeEventListener>, i: Uuid, env: Env)
    requires Sane(s)
    ensures var s' := RegisterListeners(s, listeners, i, env); Sane(s') && AddsWaits(s, s', i, NIL)
    decreases |listeners|
  {
    if listeners != [] {
      match listeners[0] {
        case TimerListener(timer, target) => AddTimerAdds(s, i, NIL, target, timer, env);
        case MessageListener(name, target) => AddCatchAdds(s, i, NIL, target, name);
        case ErrorListener(_) =>
      }
      var s1 := match listeners[0]
        case TimerListener(timer, target) => AddTimer(s, i, NIL, target, timer, env)
        case MessageListener(name, target) => AddCatch(s, i, NIL, target, name)
        case ErrorListener(_) => s;
      hide AddTimer, AddCatch, Sane;
      RegisterListenersAdds(s1, listeners[1..], i, env);
      AddsWaitsTransitive(s, s1, RegisterListeners(s1, listeners[1..], i, env), i, NIL);
    }
  }

  lemma NewInstanceWithin(s: State, inst: Instance)
    requires Sane(s) && inst.definitionKey in s.definitions
    ensures Within(s, s.WithInstance(s.nextId, inst).(nextId := s.nextId + 2), s.nextId)
  {}

  lemma StartedWithin(s: State, key: Uuid, start: string, variables: Variables, env: Env)
    requires Sane(s) && key in s.definitions
    ensures Within(s, Started(s, key, start, variables, env), s.nextId)
  {
    hide BusinessKeyOf;
    var i := s.nextId;
    var inst := InitialInstance(key, BusinessKeyOf(variables, i), start, variables - {"business_key"});
    var s1 := s.WithInstance(i, inst).(nextId := i + 2);
    NewInstanceWithin(s, inst);
    RegisterListenersAdds(s1, s.definitions[key].eventListeners, i, env);
    hide RegisterListeners;
    var s2 := RegisterListeners(s1, s.definitions[key].eventListeners, i, env);
    WaitsWithin(s1, s2, i, NIL);
    WithinTransitive(s, s1, s2, i);
  }

  lemma RunStartedWithin(s: State, key: Uuid, start: string, variables: Variables, tok: Token, env: Env)
    requires Sane(s) && key in s.definitions
    ensures var s' := Run(Started(s, key, start, variables, env), s.nextId, tok, env).0;
      Within(s, s', s.nextId) && s.nextId < s'.nextId
  {
    var s2 := Started(s, key, start, variables, env);
    hide Sane, Started, Run, RunsOn, TouchesOnly;
    StartedWithin(s, key, start, variables, env);
    WithinSane(s, s2, s.nextId);
    StartedDraws(s, key, start, variables, env);
    RunWithin(s2, s.nextId, tok, env);
    WithinTransitive(s, s2, Run(s2, s.nextId, tok, env).0, s.nextId);
    WithinDraws(s2, Run(s2, s.nextId, tok, env).0, s.nextId);
  }

  lemma StartInstanceWithin(s: State, key: Uuid, variables: Variables, env: Env)
    requires Sane(s)
    ensures var (s', r) := StartInstance(s, key, variables, env);
      Within(s, s', s.nextId) && (r.Ok? ==> r.value == s.nextId < s'.nextId)
  {
    hide Sane, Within, Started, Run;
    NothingWithin(s, s.nextId);
    if key in s.definitions && StartEventOf(s.definitions[key], s.definitions[key].order).Some? {
      var start := StartEventOf(s.definitions[key], s.definitions[key].order).value;
      RunStartedWithin(s, key, start, variables, Token(s.nextId + 1, start, variables - {"business_key"}, false), env);
    }
  }

  lemma WithinDraws(s: State, s': State, i: Uuid)
    requires Within(s, s', i)
    ensures s.nextId <= s'.nextId && s'.definitions == s.definitions && s'.fired == s.fired && s'.consumed == s.consumed
  {}

  lemma StartedDraws(s: State, key: Uuid, start: string, variables: Variables, env: Env)
    requires Sane(s) && key in s.definitions
    ensures s.nextId < Started(s, key, start, variables, env).nextId
  {
    hide BusinessKeyOf;
    var i := s.nextId;
    var inst := InitialInstance(key, BusinessKeyOf(variables, i), start, variables - {"business_key"});
    var s1 := s.WithInstance(i, inst).(nextId := i + 2);
    NewInstanceWithin(s, inst);
    RegisterListenersAdds(s1, s.definitions[key].eventListeners, i, env);
  }

  lemma FireListenerSteps(s: State, i: Uuid, target: string, variables: Variables, defOrder: seq<Uuid>, env: Env)
    requires Sane(s)
    ensures Steps(s, FireListener(s, i, target, variables, defOrder, env).0, i)
  {
    hide Within, Sane, View, StartInstance;
    NothingWithin(s, i);
    WithinSteps(s, s, i);
    var key := LatestOf(s.definitions, defOrder, target);
    if key.Some? && i in s.instances {
      StartInstanceWithin(s, key.value, s.instances[i].variables + variables, env);
      NewWithinSteps(s, StartInstance(s, key.value, s.instances[i].variables + variables, env).0, i);
    }
  }

  // ---- Timers and messages ----

  lemma CloneWithin(s: State, i: Uuid, t: Uuid)
    requires Sane(s) && i in s.instances && t in s.instances[i].tokens
    ensures Within(s, CloneToken(s, i, t).0, i)
  {
    var s' := CloneToken(s, i, t).0;
    InstanceWithin(s, i, s'.instances[i], s'.nextId);
    assert s' == s.WithInstance(i, s'.instances[i]).(nextId := s'.nextId);
  }

  lemma InterruptWithin(s: State, i: Uuid, t: Uuid)
    requires Sane(s) && i in s.instances && t in s.instances[i].tokens
    ensures Within(s, InterruptToken(s, i, t).0, i)
  {
    var s' := InterruptToken(s, i, t).0;
    var s1 := s.(userTasks := s'.userTasks, serviceTasks := s'.serviceTasks);
    RemovalWithin(s, s1, i);
    InstanceChanges(s1, i, s'.instances[i]);
    assert s' == s1.WithInstance(i, s'.instances[i]);
    hide Within;
    WithinTransitive(s, s1, s', i);
  }

  /** The wait is gone, and with it every other wait of its token. */
  function TimerCleared(s: State, id: Uuid): State
    requires id in s.timers
  {
    ClearWaits(TakeTimer(s, id), s.timers[id].instanceId, s.timers[id].tokenId)
  }

  function CatchCleared(s: State, id: Uuid): State
    requires id in s.catches
  {
    ClearWaits(TakeCatch(s, id), s.catches[id].instanceId, s.catches[id].tokenId)
  }

  lemma TimerClearedFrame(s: State, id: Uuid)
    requires Sane(s) && id in s.timers
    ensures Sane(TimerCleared(s, id)) && TouchesOnly(s, TimerCleared(s, id), s.timers[id].instanceId)
  {}

  lemma CatchClearedFrame(s: State, id: Uuid)
    requires Sane(s) && id in s.catches
    ensures Sane(CatchCleared(s, id)) && TouchesOnly(s, CatchCleared(s, id), s.catches[id].instanceId)
  {}

  lemma TimerTakenWithin(s: State, id: Uuid)
    requires Sane(s) && id in s.timers && s.timers[id].instanceId in s.instances
    ensures Within(TimerCleared(s, id), TimerTaken(s, id), s.timers[id].instanceId)
  {
    TimerClearedFrame(s, id);
    hide Sane, Within, TouchesOnly;
    var s1, i := TimerCleared(s, id), s.timers[id].instanceId;
    InstanceChanges(s1, i, s1.instances[i].(state := Running));
  }

  lemma TimerResumesWithin(s: State, id: Uuid)
    requires Sane(s) && id in s.timers && s.timers[id].instanceId in s.instances
    requires s.timers[id].tokenId in s.instances[s.timers[id].instanceId].tokens
    requires s.instances[s.timers[id].instanceId].definitionKey in s.definitions
    ensures Within(TimerCleared(s, id), TimerResumes(s, id).0, s.timers[id].instanceId)
  {
    var i, t, s2 := s.timers[id].instanceId, s.timers[id].tokenId, TimerTaken(s, id);
    TimerTakenWithin(s, id);
    WithinSane(TimerCleared(s, id), s2, i);
    CloneWithin(s2, i, t);
    InterruptWithin(s2, i, t);
    hide Within, Sane, CloneToken, InterruptToken;
    WithinTransitive(TimerCleared(s, id), s2, CloneToken(s2, i, t).0, i);
    WithinTransitive(TimerCleared(s, id), s2, InterruptToken(s2, i, t).0, i);
  }

  /** After the timer and its token's other waits are gone, the instance runs on. */
  lemma ResumeTimerSteps(s: State, id: Uuid, defOrder: seq<Uuid>, env: Env)
    requires Sane(s) && id in s.timers
    ensures Steps(TimerCleared(s, id), ResumeTimer(s, id, defOrder, env).0, s.timers[id].instanceId)
  {
    var timer, s1 := s.timers[id], TimerCleared(s, id);
    var i, t := timer.instanceId, timer.tokenId;
    TimerClearedFrame(s, id);
    NothingWithin(s1, i);
    hide Within, Sane, View, FireListener, MoveOn, TimerResumes, TimerTaken, TouchesOnly;
    WithinSteps(s1, s1, i);
    if i in s.instances {
      TimerTakenWithin(s, id);
      WithinSteps(s1, TimerTaken(s, id), i);
      if t == NIL {
        WithinSane(s1, TimerTaken(s, id), i);
        FireListenerSteps(TimerTaken(s, id), i, timer.nodeId, map[], defOrder, env);
        StepsThen(s1, TimerTaken(s, id), FireListener(TimerTaken(s, id), i, timer.nodeId, map[], defOrder, env).0, i);
      } else if s.instances[i].definitionKey in s.definitions && t in s.instances[i].tokens {
        var d := s.definitions[s.instances[i].definitionKey];
        TimerResumesWithin(s, id);
        var (s3, tok) := TimerResumes(s, id);
        WithinSane(s1, s3, i);
        MoveOnWithin(s3, i, tok, d, timer.nodeId, env);
        WithinTransitive(s1, s3, MoveOn(s3, i, tok, d, timer.nodeId, env).0, i);
        WithinSteps(s1, MoveOn(s3, i, tok, d, timer.nodeId, env).0, i);
      }
    }
  }

  lemma CatchResumesWithin(s: State, i: Uuid, t: Uuid, d: ProcessDefinition, node: string, variables: Variables)
    requires Sane(s) && i in s.instances && t in s.instances[i].tokens
    ensures Within(s, CatchResumes(s, i, t, d, node, variables).0, i)
  {
    CloneWithin(s, i, t);
    InterruptWithin(s, i, t);
    var s2 := (if NonInterruptingMessage(d, node) then CloneToken(s, i, t) else InterruptToken(s, i, t)).0;
    hide CloneToken, InterruptToken;
    WithinSane(s, s2, i);
    InstanceChanges(s2, i, s2.instances[i].Resumed());
    WithinTransitive(s, s2, s2.WithInstance(i, s2.instances[i].Resumed()), i);
  }

  lemma FireCatchSteps(s: State, id: Uuid, variables: Variables, defOrder: seq<Uuid>, env: Env)
    requires Sane(s) && id in s.catches
    ensures Steps(CatchCleared(s, id), FireCatch(s, id, variables, defOrder, env).0, s.catches[id].instanceId)
  {
    var c, s1 := s.catches[id], CatchCleared(s, id);
    var i, t := c.instanceId, c.tokenId;
    CatchClearedFrame(s, id);
    NothingWithin(s1, i);
    hide Within, Sane, View, FireListener, MoveOn, CatchResumes, TouchesOnly;
    WithinSteps(s1, s1, i);
    if t == NIL {
      FireListenerSteps(s1, i, c.nodeId, variables, defOrder, env);
    } else if i in s1.instances && s1.instances[i].definitionKey in s1.definitions && t in s1.instances[i].tokens {
      var d := s1.definitions[s1.instances[i].definitionKey];
      CatchResumesWithin(s1, i, t, d, c.nodeId, variables);
      var (s2, tok) := CatchResumes(s1, i, t, d, c.nodeId, variables);
      WithinSane(s1, s2, i);
      MoveOnWithin(s2, i, tok, d, c.nodeId, env);
      WithinTransitive(s1, s2, MoveOn(s2, i, tok, d, c.nodeId, env).0, i);
      WithinSteps(s1, MoveOn(s2, i, tok, d, c.nodeId, env).0, i);
    }
  }

  // ---- Whole instances ----

  lemma InstanceCallsWithin(s: State, i: Uuid, update: Variables)
    requires Sane(s)
    ensures Within(s, UpdateVariables(s, i, update).0, i)
    ensures Within(s, Suspend(s, i).0, i) && Within(s, Resume(s, i).0, i)
  {
    hide Within, Sane, RefreshedToken, Merged;
    NothingWithin(s, i);
    if i in s.instances {
      InstanceChanges(s, i, UpdateVariables(s, i, update).0.instances[i]);
      InstanceChanges(s, i, Suspend(s, i).0.instances[i]);
      InstanceChanges(s, i, Resume(s, i).0.instances[i]);
    }
  }

  lemma WithBusinessKeyWithin(s: State, i: Uuid, businessKey: Option<string>)
    requires Sane(s)
    ensures Within(s, WithBusinessKey(s, i, businessKey), i)
  {
    NothingWithin(s, i);
    if i in s.instances {
      InstanceChanges(s, i, WithBusinessKey(s, i, businessKey).instances[i]);
    }
  }

  lemma RelocatedWithin(s: State, i: Uuid, tok: Token)
    requires Sane(s) && i in s.instances
    ensures Within(s, Relocated(s, i, tok), i)
  {
    InstanceWithin(s, i, Relocated(s, i, tok).instances[i], s.nextId + 1);
  }

  lemma DropPendingWithin(s: State, i: Uuid)
    requires Sane(s)
    ensures Within(s, DropPending(s, i), i)
  {
    RemovalWithin(s, DropPending(s, i), i);
  }

  lemma RelocateRunWithin(s: State, s1: State, i: Uuid, tok: Token, env: Env)
    requires Sane(s) && Within(s, s1, i) && i in s1.instances
    ensures Within(s, Run(Relocated(s1, i, tok), i, tok, env).0, i)
  {
    WithinSane(s, s1, i);
    RelocatedWithin(s1, i, tok);
    var s2 := Relocated(s1, i, tok);
    hide Within, Run, Sane, Relocated;
    WithinSane(s1, s2, i);
    RunWithin(s2, i, tok, env);
    WithinTransitive(s, s1, s2, i);
    WithinTransitive(s, s2, Run(s2, i, tok, env).0, i);
  }

  lemma MoveTokenWithin(s: State, i: Uuid, target: string, update: Variables, cancel: bool, env: Env)
    requires Sane(s)
    ensures Within(s, MoveToken(s, i, target, update, cancel, env).0, i)
  {
    NothingWithin(s, i);
    if MoveError(s, i, target).None? {
      DropPendingWithin(s, i);
      assert i in DropPending(s, i).instances;
      hide Within, Sane, Run, Relocated, DropPending, MovedToken, MoveError;
      RelocateRunWithin(s, if cancel then DropPending(s, i) else s, i, MovedToken(s, i, target, update), env);
    }
  }

  lemma GoneFrame(s: State, i: Uuid)
    requires Sane(s)
    ensures var s' := s.(instances := s.instances - {i});
      Sane(s') && RunsOn(s, s') && KeysKept(s, s') && TouchesOnly(s, s', i)
  {}

  lemma DeleteInstanceFrame(s: State, i: Uuid, storeOk: bool)
    requires Sane(s)
    ensures var s' := DeleteInstance(s, i, storeOk).0;
      Sane(s') && RunsOn(s, s') && KeysKept(s, s') && TouchesOnly(s, s', i)
  {
    var s1 := s.(instances := s.instances - {i});
    GoneFrame(s, i);
    NothingWithin(s, i);
    DropPendingWithin(s1, i);
    hide Sane, RunsOn, TouchesOnly, DropPending;
    RunsOnTransitive(s, s1, DropPending(s1, i));
    TouchesOnlyTransitive(s, s1, DropPending(s1, i), i);
  }

  lemma RemapFrame<K>(m: map<Uuid, Entry<K>>, i: Uuid, mapping: map<string, string>, next: Uuid)
    requires Keyed(m, next)
    ensures Keyed(RemapEntries(m, i, mapping), next) && SameElsewhere(m, RemapEntries(m, i, mapping), i)
  {}

  lemma RemapServicesFrame(m: ServiceTasks, i: Uuid, mapping: map<string, string>, key: Uuid, next: Uuid)
    requires Keyed(m, next)
    ensures Keyed(RemapServices(m, i, mapping, key), next) && SameElsewhere(m, RemapServices(m, i, mapping, key), i)
  {}

  lemma MigrateFrame(s: State, i: Uuid, key: Uuid, mapping: map<string, string>, order: MigrationOrder)
    requires Sane(s)
    ensures var s' := Migrate(s, i, key, mapping, order).0; Sane(s') && KeysKept(s, s') && TouchesOnly(s, s', i)
  {
    if MigrationError(s, i, key, mapping, order).None? {
      RemapFrame(s.userTasks, i, mapping, s.nextId);
      RemapServicesFrame(s.serviceTasks, i, mapping, key, s.nextId);
      RemapFrame(s.timers, i, mapping, s.nextId);
      RemapFrame(s.catches, i, mapping, s.nextId);
      hide SameElsewhere, Keyed, RemapEntries, RemapServices, MigratedInstance, FirstOrphan;
    } else {
      NothingWithin(s, i);
    }
  }
}
