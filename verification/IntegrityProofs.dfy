/** Every engine call keeps referential integrity; where one does not, exactly when. */
module IntegrityProofs {
  import opened Values
  import opened Definition
  import opened EngineState
  import opened Executor
  import opened ExecutorProofs
  import opened Operations
  import CallFrames

  // ---- Taking a token out of its wait ----

  /** Token `t` of instance `i` has been drawn and nothing refers to it. */
  ghost predicate Free(s: State, i: Uuid, t: Uuid) {
    Integrity(s) && i in s.instances && 0 < t < s.nextId && Detached(s, i, t)
  }

  lemma MoveOnKeeps(s: State, i: Uuid, tok: Token, d: ProcessDefinition, from: string, env: Env)
    requires Free(s, i, tok.id)
    ensures var s' := MoveOn(s, i, tok, d, from, env).0; Integrity(s') && KeepsOtherTokens(s, s', i, [tok])
  {
    var next := ResolveNext(d.NextNodes(from), tok.variables);
    if next.Some? {
      var s1 := s.WithInstance(i, s.instances[i].(currentNode := next.value));
      SameTokensKeepIntegrity(s, i, s1.instances[i], s.nextId);
      assert s1 == s.WithInstance(i, s1.instances[i]).(nextId := s.nextId);
      RunKeeps(s1, i, tok.(currentNode := next.value), env);
      SameIdQueue(tok, next.value);
    }
  }

  lemma SameIdQueue(tok: Token, node: string)
    ensures forall t :: InQueue([tok.(currentNode := node)], t) ==> InQueue([tok], t)
  {
    assert [tok][0] == tok;
  }

  /** Changes to the instance's other fields leave the token free. */
  lemma FreeAfter(s: State, i: Uuid, inst: Instance, t: Uuid)
    requires Free(s, i, t)
    requires inst.tokens == s.instances[i].tokens && inst.definitionKey == s.instances[i].definitionKey
    ensures Free(s.WithInstance(i, inst), i, t)
  {
    SameTokensKeepIntegrity(s, i, inst, s.nextId);
    assert s.WithInstance(i, inst).(nextId := s.nextId) == s.WithInstance(i, inst);
  }

  /** A token without entries can be taken out of the token map. */
  lemma TakenIsFree(s: State, i: Uuid, t: Uuid)
    requires Free(s, i, t)
    ensures Free(WithoutToken(s, i, t), i, t)
  {
    var inst := WithoutToken(s, i, t).instances[i];
    assert inst.tokens - {t} == s.instances[i].tokens - {t};
    DetachedTokenKeepsIntegrity(s, i, inst, t);
  }

  lemma CancelKeeps(s: State, i: Uuid, node: string)
    requires Integrity(s)
    ensures Integrity(CancelBoundary(s, i, node))
  {
    FewerEntriesKeepIntegrity(s, CancelBoundary(s, i, node));
  }

  lemma CancelLater(s: State, i: Uuid, t: Uuid, node: string)
    requires i in s.instances
    ensures CancelBoundary(WithoutToken(s, i, t), i, node) == WithoutToken(CancelBoundary(s, i, node), i, t)
  {}

  /** When a token leaves an activity and its tasks are gone, cancelling the activity's boundary events
      leaves nothing that refers to the token. */
  lemma CancelDetaches(s: State, i: Uuid, t: Uuid, node: string)
    requires Integrity(s) && HasToken(s, i, t) && s.instances[i].tokens[t].currentNode == node
    requires OnActivity(DefOf(s, i), node) && Unreferenced(s.userTasks, i, t) && Unreferenced(s.serviceTasks, i, t)
    ensures Free(CancelBoundary(s, i, node), i, t)
  {
    CancelKeeps(s, i, node);
    assert TokensOk(s.instances[i].tokens, s.nextId);
    var s' := CancelBoundary(s, i, node);
    var place := PlaceOf(s.definitions, s.instances, i, t);
    assert forall id <- s.timers :: TimerOk(EntryPlace(s.definitions, s.instances, s.timers[id]), s.timers[id]);
    assert forall id <- s.catches :: CatchOk(EntryPlace(s.definitions, s.instances, s.catches[id]), s.catches[id]);
    assert Unreferenced(s'.timers, i, t);
    assert Unreferenced(s'.catches, i, t);
  }

  lemma LeaveTaskKeeps(s: State, i: Uuid, t: Uuid, node: string)
    requires Integrity(s) && HasToken(s, i, t) && s.instances[i].tokens[t].currentNode == node
    requires OnActivity(DefOf(s, i), node) && Unreferenced(s.userTasks, i, t) && Unreferenced(s.serviceTasks, i, t)
    ensures Free(LeaveTask(s, i, t, node), i, t)
  {
    CancelDetaches(s, i, t, node);
    TakenIsFree(CancelBoundary(s, i, node), i, t);
    CancelLater(s, i, t, node);
    var s' := CancelBoundary(WithoutToken(s, i, t), i, node);
    hide Free;
    FreeParts(s', i, t);
    FreeAfter(s', i, s'.instances[i].Resumed(), t);
  }

  lemma FreeParts(s: State, i: Uuid, t: Uuid)
    requires Free(s, i, t)
    ensures i in s.instances
  {}

  lemma FreeShown(s: State, i: Uuid, t: Uuid, node: string, variables: Variables)
    requires Free(s, i, t)
    ensures Free(Shown(s, i, node), i, t) && Free(Synced(s, i, variables), i, t)
  {
    FreeAfter(s, i, s.instances[i].(currentNode := node), t);
    FreeAfter(s, i, s.instances[i].(variables := variables), t);
  }

  // ---- User tasks ----

  /** A user task's token stands on it and has no other task. */
  lemma UserTaskToken(s: State, id: Uuid)
    requires Integrity(s) && id in s.userTasks
    ensures var e := s.userTasks[id]; var i, t := e.instanceId, e.tokenId;
      && HasToken(s, i, t) && e.id == id && 0 < t < s.nextId
      && s.instances[i].definitionKey in s.definitions && s.instances[i].tokens[t].id == t
      && s.instances[i].tokens[t].currentNode == e.nodeId
      && OnActivity(DefOf(s, i), e.nodeId) && DefOf(s, i).nodes[e.nodeId].UserTask?
      && Unreferenced(s.userTasks - {id}, i, t) && Unreferenced(s.serviceTasks, i, t)
  {
    var e := s.userTasks[id];
    assert UserOk(EntryPlace(s.definitions, s.instances, e), e);
    assert TokensOk(s.instances[e.instanceId].tokens, s.nextId);
    assert forall x <- s.serviceTasks ::
      ServiceOk(EntryPlace(s.definitions, s.instances, s.serviceTasks[x]), s.serviceTasks[x]);
  }

  lemma WithoutUserTask(s: State, id: Uuid)
    requires Integrity(s)
    ensures Integrity(s.(userTasks := s.userTasks - {id}))
  {
    FewerEntriesKeepIntegrity(s, s.(userTasks := s.userTasks - {id}));
  }

  lemma PutUserTaskKeeps(s: State, task: Entry<UserInfo>)
    requires Integrity(s) && 0 < task.id < s.nextId && task.id !in s.userTasks
    requires Unreferenced(s.userTasks, task.instanceId, task.tokenId)
    requires UserOk(EntryPlace(s.definitions, s.instances, task), task)
    ensures Integrity(s.(userTasks := s.userTasks[task.id := task]))
  {
    UserAdds(s.definitions, s.instances, s.userTasks, task.id, task);
    MapsKeepIntegrity(s, s.userTasks[task.id := task], s.serviceTasks, s.nextId);
    assert s.(userTasks := s.userTasks[task.id := task])
      == s.(userTasks := s.userTasks[task.id := task], nextId := s.nextId);
  }

  /** The rollback puts back a token nothing refers to, and its task. */
  lemma RestoreKeeps(s: State, id: Uuid, task: Entry<UserInfo>, tok: Token)
    requires Free(s, task.instanceId, tok.id) && task.id == id && 0 < id < s.nextId && id !in s.userTasks
    requires task.tokenId == tok.id && task.nodeId == tok.currentNode
    requires s.instances[task.instanceId].definitionKey in s.definitions
    requires OnActivity(DefOf(s, task.instanceId), task.nodeId)
      && DefOf(s, task.instanceId).nodes[task.nodeId].UserTask?
    ensures Integrity(RestoreUserTask(s, id, task, tok))
  {
    hide Integrity;
    var i := task.instanceId;
    var inst := s.instances[i].(state := WaitingOnUserTask(id), tokens := s.instances[i].tokens[tok.id := tok]);
    assert inst.tokens - {tok.id} == s.instances[i].tokens - {tok.id};
    DetachedTokenKeepsIntegrity(s, i, inst, tok.id);
    var s1 := s.WithInstance(i, inst);
    PutUserTaskKeeps(s1, task);
    assert RestoreUserTask(s, id, task, tok) == s1.(userTasks := s1.userTasks[task.id := task]);
  }

  lemma FinishKeeps(s: State, i: Uuid, tok: Token, variables: Variables, node: string, env: Env)
    requires Free(s, i, tok.id) && s.instances[i].definitionKey in s.definitions
    ensures Integrity(Finish(s, i, tok, variables, node, env).0)
  {
    hide Integrity, Detached, MoveOn;
    FreeAfter(s, i, s.instances[i].(variables := variables), tok.id);
    MoveOnKeeps(Synced(s, i, variables), i, tok.(variables := variables), DefOf(s, i), node, env);
  }

  lemma UserTaskShape(s: State, id: Uuid, extra: Variables, env: Env)
    requires id in s.userTasks && HasToken(s, s.userTasks[id].instanceId, s.userTasks[id].tokenId)
    requires !IsSuspended(s, s.userTasks[id].instanceId)
    requires s.instances[s.userTasks[id].instanceId].definitionKey in s.definitions
    ensures var task := s.userTasks[id]; var i, t := task.instanceId, task.tokenId;
      var s1 := s.(userTasks := s.userTasks - {id});
      var s3, tok := Shown(LeaveTask(s1, i, t, task.nodeId), i, task.nodeId), MergedToken(s1, i, t, extra);
      CompleteUserTask(s, id, extra, env).0 ==
        match env.endScript(tok.variables)
        case None => RestoreUserTask(s3, id, task, tok)
        case Some(variables) => Finish(s3, i, tok, variables, task.nodeId, env).0
  {
    hide LeaveTask, Finish, RestoreUserTask, MergedToken;
  }

  /** The state in which a completed user task's token leaves. */
  lemma UserTaskLeaves(s: State, id: Uuid)
    requires Integrity(s) && id in s.userTasks
    ensures var task := s.userTasks[id]; var i, t := task.instanceId, task.tokenId;
      && HasToken(s, i, t) && s.instances[i].definitionKey in s.definitions && s.instances[i].tokens[t].id == t
      && s.instances[i].tokens[t].currentNode == task.nodeId && task.id == id
    ensures var task := s.userTasks[id]; var i, t := task.instanceId, task.tokenId;
      var s3 := Shown(LeaveTask(s.(userTasks := s.userTasks - {id}), i, t, task.nodeId), i, task.nodeId);
      && Free(s3, i, t) && 0 < id < s3.nextId && id !in s3.userTasks && s3.instances[i].definitionKey in s3.definitions
      && OnActivity(DefOf(s3, i), task.nodeId) && DefOf(s3, i).nodes[task.nodeId].UserTask?
  {
    var task := s.userTasks[id];
    var i, t := task.instanceId, task.tokenId;
    UserTaskToken(s, id);
    WithoutUserTask(s, id);
    var s1 := s.(userTasks := s.userTasks - {id});
    LeaveTaskKeeps(s1, i, t, task.nodeId);
    var s2 := LeaveTask(s1, i, t, task.nodeId);
    assert id !in s2.userTasks && s2.nextId == s.nextId;
    hide Free, LeaveTask;
    FreeShown(s2, i, t, task.nodeId, map[]);
  }

  lemma CompleteUserTaskKeeps(s: State, id: Uuid, extra: Variables, env: Env)
    requires Integrity(s)
    ensures Integrity(CompleteUserTask(s, id, extra, env).0)
  {
    if id in s.userTasks && !IsSuspended(s, s.userTasks[id].instanceId) {
      var task := s.userTasks[id];
      hide Free, Integrity, Finish, RestoreUserTask, LeaveTask, CompleteUserTask, Shown;
      UserTaskLeaves(s, id);
      UserTaskShape(s, id, extra, env);
      var s1 := s.(userTasks := s.userTasks - {id});
      var s3 := Shown(LeaveTask(s1, task.instanceId, task.tokenId, task.nodeId), task.instanceId, task.nodeId);
      var tok := MergedToken(s1, task.instanceId, task.tokenId, extra);
      FreeParts(s3, task.instanceId, task.tokenId);
      match env.endScript(tok.variables)
      case None => RestoreKeeps(s3, id, task, tok);
      case Some(variables) => FinishKeeps(s3, task.instanceId, tok, variables, task.nodeId, env);
    } else if id in s.userTasks {
      assert (s.userTasks - {id})[id := s.userTasks[id]] == s.userTasks;
    }
  }

  // ---- Service tasks ----

  lemma ServiceTaskToken(s: State, id: Uuid)
    requires Integrity(s) && id in s.serviceTasks
    ensures var e := s.serviceTasks[id]; var i, t := e.instanceId, e.tokenId;
      && HasToken(s, i, t) && e.id == id && 0 < t < s.nextId
      && s.instances[i].definitionKey in s.definitions && s.instances[i].tokens[t].id == t
      && s.instances[i].tokens[t].currentNode == e.nodeId && OnActivity(DefOf(s, i), e.nodeId)
      && Unreferenced(s.userTasks, i, t) && Unreferenced(s.serviceTasks - {id}, i, t)
  {
    var e := s.serviceTasks[id];
    assert ServiceOk(EntryPlace(s.definitions, s.instances, e), e);
    assert TokensOk(s.instances[e.instanceId].tokens, s.nextId);
    assert forall x <- s.userTasks :: UserOk(EntryPlace(s.definitions, s.instances, s.userTasks[x]), s.userTasks[x]);
  }

  lemma TakeServiceTaskKeeps(s: State, id: Uuid)
    requires Integrity(s)
    ensures Integrity(TakeServiceTask(s, id))
  {
    FewerEntriesKeepIntegrity(s, TakeServiceTask(s, id));
  }

  /** A taken service task whose token moves on: what completion and resolution share. */
  lemma ServiceTaskLeaves(s: State, id: Uuid, extra: Variables)
    requires Integrity(s) && id in s.serviceTasks
    ensures var e := s.serviceTasks[id]; var i, t := e.instanceId, e.tokenId; var s1 := TakeServiceTask(s, id);
      && HasToken(s, i, t) && s.instances[i].definitionKey in s.definitions && MergedToken(s1, i, t, extra).id == t
      && Free(Shown(LeaveTask(s1, i, t, e.nodeId), i, e.nodeId), i, t)
      && Free(Synced(LeaveTask(s1, i, t, e.nodeId), i, MergedToken(s1, i, t, extra).variables), i, t)
  {
    var e := s.serviceTasks[id];
    var i, t := e.instanceId, e.tokenId;
    ServiceTaskToken(s, id);
    TakeServiceTaskKeeps(s, id);
    LeaveTaskKeeps(TakeServiceTask(s, id), i, t, e.nodeId);
    hide Free, LeaveTask;
    FreeShown(LeaveTask(TakeServiceTask(s, id), i, t, e.nodeId), i, t, e.nodeId, MergedToken(s, i, t, extra).variables);
  }

  lemma ServiceTaskShape(s: State, id: Uuid, worker: string, extra: Variables, env: Env)
    requires id in s.serviceTasks && HasToken(s, s.serviceTasks[id].instanceId, s.serviceTasks[id].tokenId)
    requires s.instances[s.serviceTasks[id].instanceId].definitionKey in s.definitions
    ensures var e := s.serviceTasks[id]; var i, t := e.instanceId, e.tokenId;
      var s1 := TakeServiceTask(s, id);
      var tok := MergedToken(s1, i, t, extra);
      var s3 := Synced(LeaveTask(s1, i, t, e.nodeId), i, tok.variables);
      HeldBy(s, id, worker) && !IsSuspended(s, i) ==>
      CompleteServiceTask(s, id, worker, extra, env).0 ==
        match env.endScript(tok.variables)
        case None => s3
        case Some(variables) => Finish(s3, i, tok, variables, e.nodeId, env).0
    ensures var e := s.serviceTasks[id]; var i, t := e.instanceId, e.tokenId;
      var s1 := TakeServiceTask(s, id);
      var s3, tok := Shown(LeaveTask(s1, i, t, e.nodeId), i, e.nodeId), MergedToken(s1, i, t, extra);
      e.data.retries <= 0 ==>
      ResolveIncident(s, id, extra, env).0 ==
        match env.endScript(tok.variables)
        case None => s3
        case Some(variables) => Finish(s3, i, tok, variables, e.nodeId, env).0
  {
    hide LeaveTask, Finish, MergedToken;
  }

  /** The end scripts succeed or fail, and the token moves on or the call stops. */
  lemma EndsKeep(s3: State, i: Uuid, tok: Token, node: string, env: Env)
    requires Free(s3, i, tok.id) && s3.instances[i].definitionKey in s3.definitions
    ensures Integrity(match env.endScript(tok.variables)
      case None => s3
      case Some(variables) => Finish(s3, i, tok, variables, node, env).0)
  {
    hide Integrity, Finish;
    match env.endScript(tok.variables)
    case None =>
    case Some(variables) => FinishKeeps(s3, i, tok, variables, node, env);
  }

  /** A suspended instance's task goes back as it was. */
  lemma SuspendedServiceTask(s: State, id: Uuid, worker: string, extra: Variables, env: Env)
    requires HeldBy(s, id, worker) && IsSuspended(s, s.serviceTasks[id].instanceId) && s.serviceTasks[id].id == id
    ensures CompleteServiceTask(s, id, worker, extra, env)
      == (s, Failed(InstanceSuspended(s.serviceTasks[id].instanceId)))
  {
    assert (s.serviceTasks - {id})[id := s.serviceTasks[id]] == s.serviceTasks;
  }

  lemma CompleteServiceTaskKeeps(s: State, id: Uuid, worker: string, extra: Variables, env: Env)
    requires Integrity(s)
    ensures Integrity(CompleteServiceTask(s, id, worker, extra, env).0)
  {
    hide Free, Integrity, Finish, LeaveTask, ResolveIncident, MergedToken;
    if HeldBy(s, id, worker) {
      var e := s.serviceTasks[id];
      hide CompleteServiceTask;
      ServiceTaskLeaves(s, id, extra);
      if IsSuspended(s, e.instanceId) {
        ServiceTaskToken(s, id);
        SuspendedServiceTask(s, id, worker, extra, env);
      } else {
        ServiceTaskShape(s, id, worker, extra, env);
        var tok := MergedToken(TakeServiceTask(s, id), e.instanceId, e.tokenId, extra);
        var s3 := Synced(LeaveTask(TakeServiceTask(s, id), e.instanceId, e.tokenId, e.nodeId), e.instanceId,
          tok.variables);
        EndsKeep(s3, e.instanceId, tok, e.nodeId, env);
      }
    }
  }

  lemma ResolveIncidentKeeps(s: State, id: Uuid, extra: Variables, env: Env)
    requires Integrity(s)
    ensures Integrity(ResolveIncident(s, id, extra, env).0)
  {
    if id in s.serviceTasks && s.serviceTasks[id].data.retries <= 0 {
      var e := s.serviceTasks[id];
      hide Free, Integrity, Finish, LeaveTask, CompleteServiceTask, ResolveIncident;
      ServiceTaskLeaves(s, id, extra);
      ServiceTaskShape(s, id, "", extra, env);
      var tok := MergedToken(s, e.instanceId, e.tokenId, extra);
      var s3 := Shown(LeaveTask(TakeServiceTask(s, id), e.instanceId, e.tokenId, e.nodeId), e.instanceId, e.nodeId);
      EndsKeep(s3, e.instanceId, tok, e.nodeId, env);
    }
  }

  lemma HandleBpmnErrorKeeps(s: State, id: Uuid, worker: string, code: string, env: Env)
    requires Integrity(s)
    ensures Integrity(HandleBpmnError(s, id, worker, code, env).0)
  {
    if HeldBy(s, id, worker) {
      var e := s.serviceTasks[id];
      var i, t := e.instanceId, e.tokenId;
      ServiceTaskToken(s, id);
      hide Integrity, Unreferenced, MoveOn;
      TakeServiceTaskKeeps(s, id);
      var s1 := TakeServiceTask(s, id);
      CancelDetaches(s1, i, t, e.nodeId);
      var s2 := CancelBoundary(s1, i, e.nodeId);
      var d := DefOf(s2, i);
      var boundary := FindBoundaryError(d, d.order, e.nodeId, code);
      if boundary.Some? {
        var inst3 := s2.instances[i].(state := Running);
        FreeAfter(s2, i, inst3, t);
        var s3 := s2.WithInstance(i, inst3);
        TakenIsFree(s3, i, t);
        MoveOnKeeps(WithoutToken(s3, i, t), i, s3.instances[i].tokens[t], d, boundary.value, env);
      }
    }
  }

  /** Tasks change, but not what they refer to. */
  ghost predicate SameRefs(m: ServiceTasks, m': ServiceTasks) {
    && m.Keys == m'.Keys
    && forall id <- m :: m'[id] == m[id].(data := m'[id].data)
  }

  lemma SameRefsKeepIntegrity(s: State, m': ServiceTasks)
    requires Integrity(s) && SameRefs(s.serviceTasks, m')
    ensures Integrity(s.(serviceTasks := m'))
  {
    forall id | id in m' ensures ServiceOk(EntryPlace(s.definitions, s.instances, m'[id]), m'[id]) {
      var e := s.serviceTasks[id];
      assert ServiceOk(EntryPlace(s.definitions, s.instances, e), e);
    }
  }

  lemma {:induction false} LockTasksSameRefs(m: ServiceTasks, order: seq<Uuid>, worker: string, room: nat,
      topics: seq<string>, now: Time, until: Time)
    ensures SameRefs(m, LockTasks(m, order, worker, room, topics, now, until).0)
    decreases |order|
  {
    if order != [] && room > 0 {
      var id := order[0];
      if id in m && Lockable(m[id], topics, now) {
        LockTasksSameRefs(m[id := Locked(m[id], worker, until)], order[1..], worker, room - 1, topics, now, until);
      } else {
        LockTasksSameRefs(m, order[1..], worker, room, topics, now, until);
      }
    }
  }

  lemma FetchKeeps(s: State, worker: string, max: nat, topics: seq<string>, duration: int, now: Time, order: seq<Uuid>)
    requires Integrity(s)
    ensures Integrity(FetchAndLock(s, worker, max, topics, duration, now, order).0)
  {
    hide Integrity;
    LockTasksSameRefs(s.serviceTasks, order, worker, max, topics, now, now + duration);
    SameRefsKeepIntegrity(s, FetchAndLock(s, worker, max, topics, duration, now, order).0.serviceTasks);
  }

  lemma TaskDataKeeps(s: State, id: Uuid, data: ServiceInfo)
    requires Integrity(s) && id in s.serviceTasks
    ensures Integrity(s.(serviceTasks := s.serviceTasks[id := s.serviceTasks[id].(data := data)]))
  {
    SameRefsKeepIntegrity(s, s.serviceTasks[id := s.serviceTasks[id].(data := data)]);
  }

  lemma ExtendLockKeeps(s: State, id: Uuid, worker: string, duration: int, now: Time)
    requires Integrity(s)
    ensures Integrity(ExtendLock(s, id, worker, duration, now).0)
  {
    hide Integrity;
    if id in s.serviceTasks {
      TaskDataKeeps(s, id, s.serviceTasks[id].data.(lockExpiration := Some(now + duration)));
    }
  }

  lemma ReleaseKeeps(s: State, id: Uuid, worker: string, retries: Option<int>, message: Option<string>,
      details: Option<string>)
    requires Integrity(s)
    ensures Integrity(FailServiceTask(s, id, worker, retries, message, details).0)
    ensures Integrity(RetryIncident(s, id, retries).0)
  {
    hide Integrity;
    if id in s.serviceTasks {
      var e := s.serviceTasks[id];
      var left := match retries case Some(r) => r case None => e.data.retries - 1;
      TaskDataKeeps(s, id, Released(e, left, message, details).data);
      var again := match retries case Some(r) => r case None => 3;
      TaskDataKeeps(s, id, Released(e, again, None, None).data);
    }
  }

  // ---- Starting instances ----

  /** Timers and catches of a whole instance fit as soon as the instance exists. */
  lemma {:induction false} RegisterListenersKeep(s: State, listeners: seq<ScopeEventListener>, i: Uuid, env: Env)
    requires Integrity(s) && i in s.instances
    ensures var s' := RegisterListeners(s, listeners, i, env);
      Integrity(s') && s.nextId <= s'.nextId && (forall t :: t != NIL && Detached(s, i, t) ==> Detached(s', i, t))
    decreases |listeners|
  {
    if listeners != [] {
      match listeners[0] {
        case TimerListener(timer, target) => ScopeTimerKeeps(s, i, target, timer, env);
        case MessageListener(name, target) => ScopeCatchKeeps(s, i, target, name);
        case ErrorListener(_) =>
      }
      hide Integrity, Detached;
      var s1 := match listeners[0]
        case TimerListener(timer, target) => AddTimer(s, i, NIL, target, timer, env)
        case MessageListener(name, target) => AddCatch(s, i, NIL, target, name)
        case ErrorListener(_) => s;
      RegisterListenersKeep(s1, listeners[1..], i, env);
    }
  }

  lemma ScopeTimerKeeps(s: State, i: Uuid, target: string, timer: TimerDefinition, env: Env)
    requires Integrity(s) && i in s.instances
    ensures var s' := AddTimer(s, i, NIL, target, timer, env);
      Integrity(s') && forall t :: t != NIL && Detached(s, i, t) ==> Detached(s', i, t)
  {
    assert InstancesOk(s.definitions, s.instances, s.nextId);
    hide Integrity;
    TimerAddKeeps(s, AddTimer(s, i, NIL, target, timer, env).timers[s.nextId]);
  }

  lemma ScopeCatchKeeps(s: State, i: Uuid, target: string, name: string)
    requires Integrity(s) && i in s.instances
    ensures var s' := AddCatch(s, i, NIL, target, name);
      Integrity(s') && forall t :: t != NIL && Detached(s, i, t) ==> Detached(s', i, t)
  {
    assert InstancesOk(s.definitions, s.instances, s.nextId);
    hide Integrity;
    CatchAddKeeps(s, Entry(s.nextId, i, target, NIL, CatchInfo(name)));
  }

  /** Entries name existing instances. */
  lemma EntriesElsewhere(s: State, i: Uuid)
    requires Integrity(s) && i !in s.instances
    ensures NoEntries(s, i)
  {
    assert forall id <- s.userTasks :: UserOk(EntryPlace(s.definitions, s.instances, s.userTasks[id]), s.userTasks[id]);
    assert forall id <- s.serviceTasks ::
      ServiceOk(EntryPlace(s.definitions, s.instances, s.serviceTasks[id]), s.serviceTasks[id]);
    assert forall id <- s.timers :: TimerOk(EntryPlace(s.definitions, s.instances, s.timers[id]), s.timers[id]);
    assert forall id <- s.catches :: CatchOk(EntryPlace(s.definitions, s.instances, s.catches[id]), s.catches[id]);
  }

  lemma NoEntriesDetached(s: State, s': State, i: Uuid)
    requires NoEntries(s, i) && s'.userTasks == s.userTasks && s'.serviceTasks == s.serviceTasks
    requires s'.timers == s.timers && s'.catches == s.catches
    ensures forall t :: Detached(s', i, t)
  {}

  lemma NewInstanceOk(s: State, inst: Instance)
    requires Integrity(s) && inst.definitionKey in s.definitions && inst.tokens == map[]
    ensures s.nextId !in s.instances && InstancesOk(s.definitions, s.instances[s.nextId := inst], s.nextId + 2)
  {
    assert InstancesOk(s.definitions, s.instances, s.nextId);
    assert forall i <- s.instances :: TokensOk(s.instances[i].tokens, s.nextId + 2);
  }

  /** So a new instance disturbs none of them. */
  lemma NewInstanceKeeps(s: State, inst: Instance)
    requires Integrity(s) && inst.definitionKey in s.definitions && inst.tokens == map[]
    ensures var s' := s.WithInstance(s.nextId, inst).(nextId := s.nextId + 2);
      Integrity(s') && forall t :: Detached(s', s.nextId, t)
  {
    var i, insts := s.nextId, s.instances[s.nextId := inst];
    hide Integrity, Detached, NoEntries, InstancesOk;
    NewInstanceOk(s, inst);
    EntriesElsewhere(s, i);
    assert s.instances - {i} == insts - {i};
    UnboundKeepsIntegrity(s, i, insts, i + 2);
    NoEntriesDetached(s, s.WithInstance(i, inst).(nextId := i + 2), i);
  }

  lemma StartedKeeps(s: State, key: Uuid, start: string, variables: Variables, env: Env)
    requires Integrity(s) && key in s.definitions
    ensures Free(Started(s, key, start, variables, env), s.nextId, s.nextId + 1)
  {
    var i := s.nextId;
    var inst := InitialInstance(key, BusinessKeyOf(variables, i), start, variables - {"business_key"});
    hide Integrity, Detached, BusinessKeyOf;
    NewInstanceKeeps(s, inst);
    var s1 := s.WithInstance(i, inst).(nextId := i + 2);
    hide RegisterListeners;
    RegisterListenersKeep(s1, s.definitions[key].eventListeners, i, env);
    assert Detached(s1, i, i + 1);
  }

  lemma StartInstanceKeeps(s: State, key: Uuid, variables: Variables, env: Env)
    requires Integrity(s)
    ensures Integrity(StartInstance(s, key, variables, env).0)
  {
    if key in s.definitions && StartEventOf(s.definitions[key], s.definitions[key].order).Some? {
      var start := StartEventOf(s.definitions[key], s.definitions[key].order).value;
      var tok := Token(s.nextId + 1, start, variables - {"business_key"}, false);
      hide Integrity, Detached, RegisterListeners, Run, BusinessKeyOf;
      StartedKeeps(s, key, start, variables, env);
      RunKeeps(Started(s, key, start, variables, env), s.nextId, tok, env);
    }
  }

  lemma FireListenerKeeps(s: State, i: Uuid, target: string, variables: Variables, defOrder: seq<Uuid>, env: Env)
    requires Integrity(s)
    ensures Integrity(FireListener(s, i, target, variables, defOrder, env).0)
  {
    var key := LatestOf(s.definitions, defOrder, target);
    if key.Some? && i in s.instances {
      StartInstanceKeeps(s, key.value, s.instances[i].variables + variables, env);
    }
  }

  // ---- Timers and messages ----

  lemma ClearKeeps(s: State, i: Uuid, t: Uuid)
    requires Integrity(s)
    ensures Integrity(ClearWaits(s, i, t))
    ensures Unreferenced(ClearWaits(s, i, t).timers, i, t) && Unreferenced(ClearWaits(s, i, t).catches, i, t)
  {
    FewerEntriesKeepIntegrity(s, ClearWaits(s, i, t));
  }

  lemma CloneKeeps(s: State, i: Uuid, t: Uuid)
    requires Integrity(s) && HasToken(s, i, t)
    ensures var (s', clone) := CloneToken(s, i, t);
      && Free(s', i, clone.id) && clone.id == s.nextId && KeepsOtherTokens(s, s', i, [clone])
  {
    var (s', clone) := CloneToken(s, i, t);
    var inst := s'.instances[i];
    UndrawnDetached(s, i, s.nextId);
    assert TokensOk(s.instances[i].tokens, s.nextId);
    var s1 := s.(nextId := s.nextId + 1);
    SameTokensKeepIntegrity(s, i, s.instances[i], s.nextId + 1);
    assert s.WithInstance(i, s.instances[i]).(nextId := s.nextId + 1) == s1;
    assert inst.tokens - {clone.id} == s1.instances[i].tokens - {clone.id};
    DetachedTokenKeepsIntegrity(s1, i, inst, clone.id);
    assert s1.WithInstance(i, inst) == s';
  }

  /** All tasks of a token stand where the token stands, so the interrupting event removes them. */
  lemma InterruptKeeps(s: State, i: Uuid, t: Uuid)
    requires Integrity(s) && HasToken(s, i, t) && Unreferenced(s.timers, i, t) && Unreferenced(s.catches, i, t)
    ensures var (s', tok) := InterruptToken(s, i, t); Free(s', i, t) && tok.id == t
  {
    var (s', tok) := InterruptToken(s, i, t);
    assert TokensOk(s.instances[i].tokens, s.nextId);
    var s1 := s.(userTasks := s'.userTasks, serviceTasks := s'.serviceTasks);
    assert forall id <- s.userTasks :: UserOk(EntryPlace(s.definitions, s.instances, s.userTasks[id]), s.userTasks[id]);
    assert forall id <- s.serviceTasks ::
      ServiceOk(EntryPlace(s.definitions, s.instances, s.serviceTasks[id]), s.serviceTasks[id]);
    FewerEntriesKeepIntegrity(s, s1);
    TakenIsFree(s1, i, t);
    assert s' == WithoutToken(s1, i, t);
  }

  /** A timer scheduled again fits exactly when it fits the place its token is in by then. */
  lemma RescheduleKeepsIff(s: State, timer: Entry<TimerInfo>, env: Env)
    requires Integrity(s)
    ensures Integrity(Reschedule(s, timer, env))
       <==> (Repeats(timer, env) ==> TimerOk(EntryPlace(s.definitions, s.instances, timer), timer))
  {
    var s' := Reschedule(s, timer, env);
    if Repeats(timer, env) {
      var e := s'.timers[s.nextId];
      assert EntryPlace(s'.definitions, s'.instances, e) == EntryPlace(s.definitions, s.instances, timer);
      if TimerOk(EntryPlace(s.definitions, s.instances, timer), timer) {
        TimerAddKeeps(s, e);
      } else {
        assert !TimerOk(EntryPlace(s'.definitions, s'.instances, e), e);
      }
    }
  }

  /** The timer's token, seen from the timer. */
  lemma TimerToken(s: State, id: Uuid)
    requires Integrity(s) && id in s.timers
    ensures var e := s.timers[id]; var i, t := e.instanceId, e.tokenId;
      && i in s.instances && s.instances[i].definitionKey in s.definitions
      && (t != NIL ==> (
            && HasToken(s, i, t) && 0 < t < s.nextId
            && (Steady(DefOf(s, i)) && Recurring(e) ==> NonInterruptingTimer(DefOf(s, i), e.nodeId))))
  {
    var e := s.timers[id];
    assert TimerOk(EntryPlace(s.definitions, s.instances, e), e);
    assert TokensOk(s.instances[e.instanceId].tokens, s.nextId);
  }

  lemma TimerTakenKeeps(s: State, id: Uuid)
    requires Integrity(s) && id in s.timers && s.timers[id].instanceId in s.instances
    ensures var i, t := s.timers[id].instanceId, s.timers[id].tokenId; var s2 := TimerTaken(s, id);
      && Integrity(s2) && Unreferenced(s2.timers, i, t) && Unreferenced(s2.catches, i, t)
      && s2.nextId == s.nextId && s2.definitions == s.definitions && i in s2.instances
      && s2.instances[i] == s.instances[i].(state := Running)
  {
    var i, t := s.timers[id].instanceId, s.timers[id].tokenId;
    FewerEntriesKeepIntegrity(s, TakeTimer(s, id));
    ClearKeeps(TakeTimer(s, id), i, t);
    var s1 := ClearWaits(TakeTimer(s, id), i, t);
    SameTokensKeepIntegrity(s1, i, s1.instances[i].(state := Running), s1.nextId);
  }

  /** The state a bound timer resumes its token in; a recurring timer's own token still waits. */
  lemma TimerResumesGood(s: State, id: Uuid)
    requires Integrity(s) && id in s.timers && s.timers[id].tokenId != NIL
    ensures var e := s.timers[id]; var i, t := e.instanceId, e.tokenId;
      && HasToken(s, i, t) && s.instances[i].definitionKey in s.definitions
    ensures var e := s.timers[id]; var (s3, tok) := TimerResumes(s, id);
      && Free(s3, e.instanceId, tok.id) && s3.definitions == s.definitions
      && s3.instances[e.instanceId].definitionKey == s.instances[e.instanceId].definitionKey
      && (Steady(DefOf(s, e.instanceId)) && Recurring(e) ==> (
            && tok.id != e.tokenId && e.tokenId in s3.instances[e.instanceId].tokens
            && s3.instances[e.instanceId].tokens[e.tokenId] == s.instances[e.instanceId].tokens[e.tokenId]))
  {
    var e := s.timers[id];
    TimerToken(s, id);
    TimerTakenKeeps(s, id);
    hide TimerTaken, Integrity, Unreferenced, NonInterruptingTimer, Detached, KeepsOtherTokens, Steady;
    if NonInterruptingTimer(DefOf(s, e.instanceId), e.nodeId) {
      CloneKeeps(TimerTaken(s, id), e.instanceId, e.tokenId);
    } else {
      InterruptKeeps(TimerTaken(s, id), e.instanceId, e.tokenId);
    }
  }

  /** The timer fitted its token, and still does when the token has not moved. */
  lemma StillFits(s: State, s': State, e: Entry<TimerInfo>)
    requires Integrity(s) && e.tokenId != NIL && (exists id :: id in s.timers && s.timers[id] == e)
    requires HasToken(s, e.instanceId, e.tokenId) && HasToken(s', e.instanceId, e.tokenId)
      && s'.definitions == s.definitions
    requires s'.instances[e.instanceId].definitionKey == s.instances[e.instanceId].definitionKey
    requires s'.instances[e.instanceId].tokens[e.tokenId] == s.instances[e.instanceId].tokens[e.tokenId]
    ensures TimerOk(EntryPlace(s'.definitions, s'.instances, e), e)
  {
    var id :| id in s.timers && s.timers[id] == e;
    assert TimerOk(EntryPlace(s.definitions, s.instances, s.timers[id]), s.timers[id]);
  }

  lemma NotQueued(tok: Token, t: Uuid)
    requires tok.id != t
    ensures !InQueue([tok], t)
  {}

  /** A bound timer resumes its token; a recurring one that does not interrupt still fits its own. */
  lemma BoundTimerResumes(s: State, id: Uuid, defOrder: seq<Uuid>, env: Env)
    requires Integrity(s) && id in s.timers && s.timers[id].tokenId != NIL
    ensures var e := s.timers[id]; var mid := ResumeTimer(s, id, defOrder, env).0;
      && HasToken(s, e.instanceId, e.tokenId) && s.instances[e.instanceId].definitionKey in s.definitions
      && Integrity(mid) && e.instanceId in mid.instances && mid.definitions == s.definitions
      && mid.instances[e.instanceId].definitionKey == s.instances[e.instanceId].definitionKey
      && (Steady(DefOf(s, e.instanceId)) && Recurring(e) ==> TimerOk(EntryPlace(mid.definitions, mid.instances, e), e))
  {
    hide Integrity, Detached, MoveOn, TimerResumes, TimerOk, InQueue, Steady;
    var timer := s.timers[id];
    var i, t := timer.instanceId, timer.tokenId;
    TimerResumesGood(s, id);
    var (s3, tok) := TimerResumes(s, id);
    var d := s.definitions[s.instances[i].definitionKey];
    MoveOnKeeps(s3, i, tok, d, timer.nodeId, env);
    var s4 := MoveOn(s3, i, tok, d, timer.nodeId, env).0;
    if Steady(d) && Recurring(timer) {
      NotQueued(tok, t);
      StillFits(s, s4, timer);
    }
  }

  lemma FireTimerDefinitions(s: State, id: Uuid, defOrder: seq<Uuid>, env: Env)
    requires Integrity(s)
    ensures FireTimer(s, id, defOrder, env).0.definitions == s.definitions
  {
    assert forall i <- s.instances :: 0 < i < s.nextId;
    hide ResumeTimer;
    if id in s.timers {
      CallFrames.ResumeTimerSteps(s, id, defOrder, env);
    }
  }

  lemma FireTimerKeeps(s: State, id: Uuid, defOrder: seq<Uuid>, env: Env)
    requires Integrity(s) && AllSteady(s.definitions)
    ensures Integrity(FireTimer(s, id, defOrder, env).0)
  {
    if id in s.timers {
      if s.timers[id].tokenId != NIL {
        BoundTimerResumes(s, id, defOrder, env);
        hide Integrity, ResumeTimer, Steady, TimerOk;
        RescheduleKeepsIff(ResumeTimer(s, id, defOrder, env).0, s.timers[id], env);
      } else {
        TimerToken(s, id);
        hide Integrity, FireListener, TimerTaken;
        TimerTakenKeeps(s, id);
        FireListenerKeeps(TimerTaken(s, id), s.timers[id].instanceId, s.timers[id].nodeId, map[], defOrder, env);
      }
    }
  }

  lemma {:induction false} FireTimersKeep(s: State, ids: seq<Uuid>, defOrder: seq<Uuid>, envs: nat -> Env, k: nat)
    requires Integrity(s) && AllSteady(s.definitions)
    ensures Integrity(FireTimers(s, ids, defOrder, envs, k).0)
    decreases |ids|
  {
    hide Integrity, FireTimer;
    if ids != [] {
      FireTimerKeeps(s, ids[0], defOrder, envs(k));
      FireTimerDefinitions(s, ids[0], defOrder, envs(k));
      FireTimersKeep(FireTimer(s, ids[0], defOrder, envs(k)).0, ids[1..], defOrder, envs, k + 1);
    }
  }

  lemma CatchToken(s: State, id: Uuid)
    requires Integrity(s) && id in s.catches
    ensures var e := s.catches[id]; var i, t := e.instanceId, e.tokenId;
      && i in s.instances && s.instances[i].definitionKey in s.definitions
      && (t != NIL ==> HasToken(s, i, t) && 0 < t < s.nextId)
  {
    var e := s.catches[id];
    assert CatchOk(EntryPlace(s.definitions, s.instances, e), e);
    assert TokensOk(s.instances[e.instanceId].tokens, s.nextId);
  }

  lemma CatchTakenKeeps(s: State, id: Uuid)
    requires Integrity(s) && id in s.catches
    ensures var i, t := s.catches[id].instanceId, s.catches[id].tokenId; var s1 := ClearWaits(TakeCatch(s, id), i, t);
      Integrity(s1) && Unreferenced(s1.timers, i, t) && Unreferenced(s1.catches, i, t)
  {
    FewerEntriesKeepIntegrity(s, TakeCatch(s, id));
    ClearKeeps(TakeCatch(s, id), s.catches[id].instanceId, s.catches[id].tokenId);
  }

  lemma ResumesFree(s: State, i: Uuid, t: Uuid)
    requires Integrity(s) && HasToken(s, i, t) && Unreferenced(s.timers, i, t) && Unreferenced(s.catches, i, t)
    ensures Free(CloneToken(s, i, t).0, i, CloneToken(s, i, t).1.id)
    ensures Free(InterruptToken(s, i, t).0, i, InterruptToken(s, i, t).1.id)
  {
    CloneKeeps(s, i, t);
    InterruptKeeps(s, i, t);
  }

  lemma CatchResumesFree(s1: State, i: Uuid, t: Uuid, d: ProcessDefinition, node: string, variables: Variables)
    requires Integrity(s1) && HasToken(s1, i, t) && Unreferenced(s1.timers, i, t) && Unreferenced(s1.catches, i, t)
    ensures var (s3, tok) := CatchResumes(s1, i, t, d, node, variables); Free(s3, i, tok.id)
  {
    hide Integrity, Detached, Unreferenced, CloneToken, InterruptToken;
    ResumesFree(s1, i, t);
    var (s2, tok) := if NonInterruptingMessage(d, node) then CloneToken(s1, i, t) else InterruptToken(s1, i, t);
    FreeAfter(s2, i, s2.instances[i].Resumed(), tok.id);
  }

  lemma FireBoundCatchKeeps(s: State, id: Uuid, variables: Variables, defOrder: seq<Uuid>, env: Env)
    requires Integrity(s) && id in s.catches && s.catches[id].tokenId != NIL
    ensures Integrity(FireCatch(s, id, variables, defOrder, env).0)
  {
    var c := s.catches[id];
    var i, t := c.instanceId, c.tokenId;
    CatchToken(s, id);
    CatchTakenKeeps(s, id);
    var s1 := ClearWaits(TakeCatch(s, id), i, t);
    hide Integrity, Detached, Unreferenced, CatchResumes, MoveOn;
    CatchResumesFree(s1, i, t, DefOf(s, i), c.nodeId, variables);
    FireCatchShape(s, id, variables, defOrder, env);
    var (s3, tok) := CatchResumes(s1, i, t, DefOf(s, i), c.nodeId, variables);
    MoveOnKeeps(s3, i, tok, DefOf(s, i), c.nodeId, env);
  }

  lemma FireCatchShape(s: State, id: Uuid, variables: Variables, defOrder: seq<Uuid>, env: Env)
    requires id in s.catches && s.catches[id].tokenId != NIL
      && HasToken(s, s.catches[id].instanceId, s.catches[id].tokenId)
    requires s.instances[s.catches[id].instanceId].definitionKey in s.definitions
    ensures var c := s.catches[id]; var d := DefOf(s, c.instanceId);
      var (s3, tok) := CatchResumes(ClearWaits(TakeCatch(s, id), c.instanceId, c.tokenId), c.instanceId, c.tokenId, d,
        c.nodeId, variables);
      FireCatch(s, id, variables, defOrder, env) == MoveOn(s3, c.instanceId, tok, d, c.nodeId, env)
  {
    hide MoveOn, CloneToken, InterruptToken;
  }

  lemma FireCatchKeeps(s: State, id: Uuid, variables: Variables, defOrder: seq<Uuid>, env: Env)
    requires Integrity(s)
    ensures Integrity(FireCatch(s, id, variables, defOrder, env).0)
  {
    if id in s.catches {
      var c := s.catches[id];
      if c.tokenId != NIL {
        FireBoundCatchKeeps(s, id, variables, defOrder, env);
      } else {
        CatchToken(s, id);
        CatchTakenKeeps(s, id);
        hide Integrity, FireListener;
        FireListenerKeeps(ClearWaits(TakeCatch(s, id), c.instanceId, NIL),
                          c.instanceId, c.nodeId, variables, defOrder, env);
      }
    }
  }

  lemma {:induction false} FireCatchesKeep(s: State, ids: seq<Uuid>, variables: Variables, defOrder: seq<Uuid>,
      envs: nat -> Env, k: nat)
    requires Integrity(s)
    ensures Integrity(FireCatches(s, ids, variables, defOrder, envs, k).0)
    decreases |ids|
  {
    hide Integrity, FireCatch;
    if ids != [] {
      FireCatchKeeps(s, ids[0], variables, defOrder, envs(k));
      FireCatchesKeep(FireCatch(s, ids[0], variables, defOrder, envs(k)).0, ids[1..], variables, defOrder, envs, k + 1);
    }
  }

  lemma WithBusinessKeyKeeps(s: State, i: Uuid, businessKey: Option<string>)
    requires Integrity(s)
    ensures Integrity(WithBusinessKey(s, i, businessKey))
  {
    if businessKey.Some? && i in s.instances {
      SameTokensKeepIntegrity(s, i, s.instances[i].(businessKey := businessKey.value), s.nextId);
    }
  }

  lemma {:induction false} StartEachKeeps(s: State, keys: seq<Uuid>, variables: Variables, businessKey: Option<string>,
      envs: nat -> Env, k: nat)
    requires Integrity(s)
    ensures Integrity(StartEach(s, keys, variables, businessKey, envs, k).0)
    decreases |keys|
  {
    hide Integrity, StartInstance, WithBusinessKey;
    if keys != [] {
      StartInstanceKeeps(s, keys[0], variables, envs(k));
      var (s1, r) := StartInstance(s, keys[0], variables, envs(k));
      if r.Ok? {
        WithBusinessKeyKeeps(s1, r.value, businessKey);
        StartEachKeeps(WithBusinessKey(s1, r.value, businessKey), keys[1..], variables, businessKey, envs, k + 1);
      }
    }
  }

  lemma CorrelateMessageKeeps(s: State, name: string, businessKey: Option<string>, variables: Variables,
                              order: seq<Uuid>, defOrder: seq<Uuid>, envs: nat -> Env)
    requires Integrity(s)
    ensures Integrity(CorrelateMessage(s, name, businessKey, variables, order, defOrder, envs).0)
  {
    hide Integrity, FireCatches, StartEach;
    var ids := MatchingCatches(s, name, businessKey, order);
    FireCatchesKeep(s, ids, variables, defOrder, envs, 0);
    var s1 := FireCatches(s, ids, variables, defOrder, envs, 0).0;
    StartEachKeeps(s1, StartedBy(s1.definitions, name, defOrder), variables, businessKey, envs, |ids|);
  }

  // ---- Operating on a whole instance ----

  lemma TokensRefreshed<K>(defs: Definitions, insts: Instances, i: Uuid, inst: Instance, m: map<Uuid, Entry<K>>)
    requires i in insts && inst.definitionKey == insts[i].definitionKey && inst.tokens.Keys == insts[i].tokens.Keys
    requires forall t <- inst.tokens :: inst.tokens[t].currentNode == insts[i].tokens[t].currentNode
    ensures SamePlaces(defs, insts, insts[i := inst], m)
  {}

  lemma UpdateVariablesKeeps(s: State, i: Uuid, update: Variables)
    requires Integrity(s)
    ensures Integrity(UpdateVariables(s, i, update).0)
  {
    if i in s.instances {
      var inst := UpdateVariables(s, i, update).0.instances[i];
      assert TokensOk(s.instances[i].tokens, s.nextId);
      TokensRefreshed(s.definitions, s.instances, i, inst, s.userTasks);
      TokensRefreshed(s.definitions, s.instances, i, inst, s.serviceTasks);
      TokensRefreshed(s.definitions, s.instances, i, inst, s.timers);
      TokensRefreshed(s.definitions, s.instances, i, inst, s.catches);
      UndisturbedKeepsIntegrity(s, s.instances[i := inst], s.nextId);
    }
  }

  lemma SuspendResumeKeep(s: State, i: Uuid)
    requires Integrity(s)
    ensures Integrity(Suspend(s, i).0) && Integrity(Resume(s, i).0)
  {
    if i in s.instances {
      var inst := s.instances[i];
      hide Integrity;
      SameTokensKeepIntegrity(s, i, inst.(state := Suspended(inst.state)), s.nextId);
      if inst.state.Suspended? {
        SameTokensKeepIntegrity(s, i, inst.(state := inst.state.previous), s.nextId);
      }
    }
  }

  /** No pending entry belongs to instance `i`. */
  ghost predicate NoEntries(s: State, i: Uuid) {
    && (forall id <- s.userTasks :: s.userTasks[id].instanceId != i)
    && (forall id <- s.serviceTasks :: s.serviceTasks[id].instanceId != i)
    && (forall id <- s.timers :: s.timers[id].instanceId != i)
    && (forall id <- s.catches :: s.catches[id].instanceId != i)
  }

  lemma DropPendingKeeps(s: State, i: Uuid)
    requires Integrity(s)
    ensures Integrity(DropPending(s, i)) && NoEntries(DropPending(s, i), i)
  {
    FewerEntriesKeepIntegrity(s, DropPending(s, i));
  }

  lemma UnboundSamePlaces<K>(defs: Definitions, insts: Instances, insts': Instances, i: Uuid, m: map<Uuid, Entry<K>>)
    requires forall id <- m :: m[id].instanceId != i
    requires insts - {i} == insts' - {i}
    ensures SamePlaces(defs, insts, insts', m)
  {
    forall id | id in m ensures EntryPlace(defs, insts', m[id]) == EntryPlace(defs, insts, m[id]) {
      var j := m[id].instanceId;
      assert j in insts - {i} <==> j in insts' - {i};
      assert j in insts - {i} ==> (insts - {i})[j] == (insts' - {i})[j];
    }
  }

  /** An instance without entries can change in any way, or go. */
  lemma UnboundKeepsIntegrity(s: State, i: Uuid, insts: Instances, next: Uuid)
    requires Integrity(s) && NoEntries(s, i) && next >= s.nextId
    requires s.instances - {i} == insts - {i} && InstancesOk(s.definitions, insts, next)
    ensures Integrity(s.(instances := insts, nextId := next))
  {
    UnboundSamePlaces(s.definitions, s.instances, insts, i, s.userTasks);
    UnboundSamePlaces(s.definitions, s.instances, insts, i, s.serviceTasks);
    UnboundSamePlaces(s.definitions, s.instances, insts, i, s.timers);
    UnboundSamePlaces(s.definitions, s.instances, insts, i, s.catches);
    UndisturbedKeepsIntegrity(s, insts, next);
  }

  lemma RelocatedKeeps(s: State, i: Uuid, tok: Token)
    requires Integrity(s) && i in s.instances && NoEntries(s, i) && tok.id == s.nextId
    ensures Free(Relocated(s, i, tok), i, tok.id)
  {
    var s' := Relocated(s, i, tok);
    assert s.instances - {i} == s'.instances - {i};
    UnboundKeepsIntegrity(s, i, s'.instances, s'.nextId);
    assert s' == s.(instances := s'.instances, nextId := s'.nextId);
    UndrawnDetached(s, i, tok.id);
  }

  lemma MoveTokenKeeps(s: State, i: Uuid, target: string, update: Variables, env: Env)
    requires Integrity(s)
    ensures Integrity(MoveToken(s, i, target, update, true, env).0)
  {
    if MoveError(s, i, target).None? {
      DropPendingKeeps(s, i);
      var s1, tok := DropPending(s, i), MovedToken(s, i, target, update);
      hide DropPending;
      RelocatedKeeps(s1, i, tok);
      hide Relocated;
      RunKeeps(Relocated(s1, i, tok), i, tok, env);
    }
  }

  lemma DeleteCommutes(s: State, i: Uuid)
    ensures DropPending(s.(instances := s.instances - {i}), i) == DropPending(s, i).(instances := s.instances - {i})
  {}

  lemma DeleteInstanceKeeps(s: State, i: Uuid)
    requires Integrity(s)
    ensures Integrity(DeleteInstance(s, i, true).0)
  {
    if i in s.instances {
      DropPendingKeeps(s, i);
      var s1 := DropPending(s, i);
      assert s1.instances - {i} == (s.instances - {i}) - {i};
      UnboundKeepsIntegrity(s1, i, s.instances - {i}, s1.nextId);
      DeleteCommutes(s, i);
      assert s1.(instances := s.instances - {i}, nextId := s1.nextId) == s1.(instances := s.instances - {i});
    }
  }
}
