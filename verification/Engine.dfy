/** The workflow engine as the object it is in the source: maps as fields, methods that update them in
    place (engine-core/src/engine). Each method does what its specification function says; what the
    functions promise is proved beside them. */
module Engine {
  import opened Values
  import opened Condition
  import opened Definition
  import opened EngineState
  import opened Executor
  import opened Operations
  import Gateway
  import Soundness

  class WorkflowEngine {
    var definitions: Definitions
    var instances: Instances
    var userTasks: UserTasks
    var serviceTasks: ServiceTasks
    var timers: Timers
    var catches: Catches
    var nextId: Uuid
    ghost var fired: seq<Firing>
    ghost var consumed: seq<Uuid>

    constructor ()
      ensures Model() == State(map[], map[], map[], map[], map[], map[], 1, [], []) && Valid()
    {
      definitions, instances := map[], map[];
      userTasks, serviceTasks, timers, catches := map[], map[], map[], map[];
      nextId, fired, consumed := 1, [], [];
    }

    /** The state the fields stand for. */
    ghost function Model(): State
      reads this
    {
      State(definitions, instances, userTasks, serviceTasks, timers, catches, nextId, fired, consumed)
    }

    /** What every call keeps, whatever is called before and after it. No method demands it: what a method
        does to `Model()` is the same in every state, and some are called in the middle of another call,
        where a new token is not stored yet. */
    ghost predicate Valid()
      reads this
    {
      Soundness.Sound(Model())
    }

    /** `Uuid::new_v4`. */
    method NewId() returns (id: Uuid)
      modifies this`nextId
      ensures id == old(nextId) && nextId == old(nextId) + 1
    {
      id := nextId;
      nextId := nextId + 1;
    }

    // ---- boundary.rs, handlers/events.rs ----

    method AddPendingTimer(i: Uuid, t: Uuid, node: string, timer: TimerDefinition, env: Env)
      modifies this
      ensures Model() == AddTimer(old(Model()), i, t, node, timer, env)
    {
      var expiresAt := env.now;
      match timer.NextExpiry(env.now, env.cron) {
        case Some(at) => expiresAt := at;
        case None =>
      }
      var id := NewId();
      timers := timers[id := Entry(id, i, node, t, TimerInfo(expiresAt, Some(timer), None, id))];
    }

    method AddPendingCatch(i: Uuid, t: Uuid, node: string, messageName: string)
      modifies this
      ensures Model() == AddCatch(old(Model()), i, t, node, messageName)
    {
      var id := NewId();
      catches := catches[id := Entry(id, i, node, t, CatchInfo(messageName))];
    }

    /** Walks the nodes of the definition and registers the events attached to `at`. */
    method SetupBoundaryEvents(d: ProcessDefinition, at: string, i: Uuid, t: Uuid, env: Env)
      modifies this
      ensures Model() == RegisterBoundary(old(Model()), d, d.order, at, i, t, env)
    {
      hide AddTimer, AddCatch;
      var k := 0;
      while k < |d.order|
        invariant 0 <= k <= |d.order|
        invariant RegisterBoundary(Model(), d, d.order[k..], at, i, t, env)
          == RegisterBoundary(old(Model()), d, d.order, at, i, t, env)
      {
        var n := d.order[k];
        assert d.order[k..][1..] == d.order[k + 1..];
        if n in d.nodes {
          if d.nodes[n].BoundaryTimerEvent? && d.nodes[n].attachedTo == at {
            AddPendingTimer(i, t, n, d.nodes[n].timer, env);
          } else if d.nodes[n].BoundaryMessageEvent? && d.nodes[n].attachedTo == at {
            AddPendingCatch(i, t, n, d.nodes[n].messageName);
          }
        }
        k := k + 1;
      }
    }

    /** Registers the alternatives of an event-based gateway. */
    method SetupEventGroup(d: ProcessDefinition, i: Uuid, tok: Token, env: Env)
      modifies this
      ensures Model() == RegisterEvents(old(Model()), d, d.NextNodes(tok.currentNode), i, tok.id, env)
    {
      hide AddTimer, AddCatch;
      var flows, k := d.NextNodes(tok.currentNode), 0;
      while k < |flows|
        invariant 0 <= k <= |flows|
        invariant RegisterEvents(Model(), d, flows[k..], i, tok.id, env)
          == RegisterEvents(old(Model()), d, flows, i, tok.id, env)
      {
        var n := flows[k].target;
        assert flows[k..][1..] == flows[k + 1..];
        if n in d.nodes {
          if d.nodes[n].TimerCatchEvent? {
            AddPendingTimer(i, tok.id, n, d.nodes[n].timer, env);
          } else if d.nodes[n].MessageCatchEvent? {
            AddPendingCatch(i, tok.id, n, d.nodes[n].messageName);
          }
        }
        k := k + 1;
      }
    }

    // ---- executor ----

    /** What a waiting token does to its instance: it is stored and shown. */
    method Store(i: Uuid, tok: Token)
      requires i in instances
      modifies this`instances
      ensures Model() == StoreToken(old(Model()), i, tok)
    {
      instances := instances[i := instances[i].(tokens := instances[i].tokens[tok.id := tok],
        currentNode := tok.currentNode)];
    }

    method SetWaiting(i: Uuid, waiting: InstanceState)
      requires i in instances
      modifies this`instances
      ensures Model() == Await(old(Model()), i, waiting)
    {
      if !instances[i].state.ParallelExecution? {
        instances := instances[i := instances[i].(state := waiting)];
      } else {
        assert instances[i := instances[i].(state := instances[i].state)] == instances;
      }
    }

    method WaitAtUserTask(d: ProcessDefinition, i: Uuid, tok: Token, env: Env)
      requires i in instances && tok.currentNode in d.nodes && d.nodes[tok.currentNode].UserTask?
      modifies this
      ensures Model() == WaitUser(old(Model()), d, i, tok, env)
    {
      hide RegisterBoundary, Await;
      Store(i, tok);
      SetupBoundaryEvents(d, tok.currentNode, i, tok.id, env);
      var id := NewId();
      userTasks := userTasks[id := Entry(id, i, tok.currentNode, tok.id, UserInfo(d.nodes[tok.currentNode].assignee))];
      SetWaiting(i, WaitingOnUserTask(id));
    }

    method WaitAtServiceTask(d: ProcessDefinition, i: Uuid, tok: Token, env: Env)
      requires i in instances && tok.currentNode in d.nodes && d.nodes[tok.currentNode].ServiceTask?
      modifies this
      ensures Model() == WaitService(old(Model()), d, i, tok, env)
    {
      hide RegisterBoundary, Await;
      Store(i, tok);
      SetupBoundaryEvents(d, tok.currentNode, i, tok.id, env);
      var id := NewId();
      var info := ServiceInfo(d.key, d.nodes[tok.currentNode].topic, None, None, 3, None, None);
      serviceTasks := serviceTasks[id := Entry(id, i, tok.currentNode, tok.id, info)];
      SetWaiting(i, WaitingOnServiceTask(id));
    }

    method WaitAtEvent(d: ProcessDefinition, i: Uuid, tok: Token, env: Env)
      requires i in instances && tok.currentNode in d.nodes
      requires d.nodes[tok.currentNode].TimerCatchEvent? || d.nodes[tok.currentNode].MessageCatchEvent?
      modifies this
      ensures d.nodes[tok.currentNode].TimerCatchEvent? ==> Model() == WaitTimer(old(Model()), d, i, tok, env)
      ensures d.nodes[tok.currentNode].MessageCatchEvent? ==> Model() == WaitMessage(old(Model()), d, i, tok)
    {
      hide AddTimer, AddCatch, Await, StoreToken;
      Store(i, tok);
      var id := nextId;
      match d.nodes[tok.currentNode] {
        case TimerCatchEvent(timer) =>
          AddPendingTimer(i, tok.id, tok.currentNode, timer, env);
          KeepsInstances(old(Model()), i, tok, timer, "", env);
          SetWaiting(i, WaitingOnTimer(id));
        case MessageCatchEvent(name) =>
          AddPendingCatch(i, tok.id, tok.currentNode, name);
          KeepsInstances(old(Model()), i, tok, Duration(0), name, env);
          SetWaiting(i, WaitingOnMessage(id));
      }
    }

    static lemma KeepsInstances(s: State, i: Uuid, tok: Token, timer: TimerDefinition, name: string, env: Env)
      requires i in s.instances
      ensures var s1 := StoreToken(s, i, tok);
        && i in AddTimer(s1, i, tok.id, tok.currentNode, timer, env).instances
        && i in AddCatch(s1, i, tok.id, tok.currentNode, name).instances && s1.nextId == s.nextId
    {}

    method WaitAtEventGateway(d: ProcessDefinition, i: Uuid, tok: Token, env: Env)
      requires i in instances
      modifies this
      ensures Model() == WaitEvents(old(Model()), d, i, tok, env)
    {
      hide RegisterEvents, Await;
      Store(i, tok);
      SetupEventGroup(d, i, tok, env);
      SetWaiting(i, WaitingOnEventBasedGateway);
    }

    method WaitAtCallActivity(d: ProcessDefinition, i: Uuid, tok: Token, env: Env)
      requires i in instances
      modifies this
      ensures Model() == WaitCall(old(Model()), d, i, tok, env)
    {
      hide RegisterBoundary, Await;
      SetupBoundaryEvents(d, tok.currentNode, i, tok.id, env);
      instances := instances[i := instances[i].(currentNode := tok.currentNode)];
      ghost var shown := Model();
      SetWaiting(i, WaitingOnCallActivity(nextId, tok));
      var child := NewId();
      assert Model() == Await(shown, i,
        WaitingOnCallActivity(child, tok)).(nextId := child + 1) by { AwaitKeepsIds(shown, i, tok); }
    }

    static lemma AwaitKeepsIds(s: State, i: Uuid, tok: Token)
      requires i in s.instances
      ensures Await(s, i, WaitingOnCallActivity(s.nextId, tok)).nextId == s.nextId
    {}

    /** A gateway forks the token: branches are registered, and a join barrier when a join was found. */
    method ForkToken(i: Uuid, tok: Token, targets: seq<string>, join: Option<string>) returns (forked: seq<Token>)
      requires i in instances
      modifies this
      ensures (Model(), forked) == Fork(old(Model()), i, tok, targets, join)
    {
      var inst := instances[i];
      forked := Gateway.Forked(targets, tok.variables, nextId);
      nextId := nextId + |targets|;
      var barriers := inst.joinBarriers;
      match join {
        case Some(g) => barriers := barriers[g := JoinBarrier(g, |targets|, [])];
        case None =>
      }
      instances := instances[i := inst.(
          activeTokens := MarkCompleted(inst.activeTokens, tok.id) + RegisterActive(forked, tok.currentNode, 0),
          state := ParallelExecution(|inst.activeTokens| + |targets|),
          currentNode := tok.currentNode,
          joinBarriers := barriers)];
    }

    /** A token arrives at a join; the last one expected, or an early one, leaves it merged. */
    method ArriveAtJoin(i: Uuid, tok: Token, expected: nat, early: bool) returns (merged: seq<Token>)
      requires i in instances
      modifies this
      ensures (Model(), merged) == Arrive(old(Model()), i, tok, expected, early)
    {
      var inst, g := instances[i], tok.currentNode;
      var barrier := JoinBarrier(g, expected, []);
      if g in inst.joinBarriers {
        barrier := inst.joinBarriers[g];
      }
      var arrived := barrier.arrivedTokens + [tok];
      if |arrived| >= barrier.expectedCount || early {
        var id := NewId();
        merged := [Token(id, g, MergedVariables(arrived, map[]), true)];
        instances := instances[i := inst.(
            joinBarriers := inst.joinBarriers - {g},
            activeTokens := MarkEach(inst.activeTokens, arrived),
            state := Running,
            currentNode := g)];
      } else {
        merged := [];
        instances := instances[i := inst.(joinBarriers := inst.joinBarriers[g := barrier.(arrivedTokens := arrived)])];
      }
    }

    method EndToken(i: Uuid, tok: Token, end: End)
      requires i in instances
      modifies this`instances
      ensures Model() == CompleteToken(old(Model()), i, tok, end)
    {
      var inst := instances[i];
      inst := inst.(tokens := inst.tokens - {tok.id}, activeTokens := MarkCompleted(inst.activeTokens, tok.id));
      if AllTokensCompleted(inst) {
        match end {
          case WithError(code) => inst := inst.(state := CompletedWithError(code));
          case _ => inst := inst.(state := Completed);
        }
      }
      instances := instances[i := inst];
    }

    /** Drops every pending entry of an instance. */
    method DropPendingOf(i: Uuid)
      modifies this`userTasks, this`serviceTasks, this`timers, this`catches
      ensures Model() == DropPending(old(Model()), i)
    {
      userTasks := map id | id in userTasks && userTasks[id].instanceId != i :: userTasks[id];
      serviceTasks := map id | id in serviceTasks && serviceTasks[id].instanceId != i :: serviceTasks[id];
      timers := map id | id in timers && timers[id].instanceId != i :: timers[id];
      catches := map id | id in catches && catches[id].instanceId != i :: catches[id];
    }

    method Terminate(i: Uuid)
      requires i in instances
      modifies this
      ensures Model() == TerminateInstance(old(Model()), i)
    {
      instances := instances[i := instances[i].(activeTokens := MarkAllCompleted(instances[i].activeTokens),
        state := Completed)];
      DropPendingOf(i);
    }

    /** Whether the element the token stands on can take the action. */
    predicate Accepts(i: Uuid, tok: Token, action: Action)
      reads this
      ensures Accepts(i, tok, action) <==> CanAct(Model(), i, tok, action)
    {
      && i in instances && instances[i].definitionKey in definitions
      && tok.currentNode in definitions[instances[i].definitionKey].nodes
      && Enabled(definitions[instances[i].definitionKey].nodes[tok.currentNode], action)
      && (action.WaitForEventGroup? ==> LeadsToCatches(definitions[instances[i].definitionKey], tok.currentNode))
    }

    method HandleNextAction(i: Uuid, tok: Token, rest: seq<Token>, action: Action, env: Env) returns (queue: seq<Token>)
      requires Accepts(i, tok, action)
      modifies this
      ensures (Model(), queue) == Act(old(Model()), i, tok, rest, action, env)
    {
      hide WaitUser, WaitService, WaitTimer, WaitMessage, WaitEvents, WaitCall, Fork, Arrive, CompleteToken;
      hide TerminateInstance;
      var d := definitions[instances[i].definitionKey];
      queue := rest;
      match action {
        case Continue(node) =>
          var el := d.nodes[tok.currentNode];
          if el.InclusiveGateway? || el.ParallelGateway? || el.ComplexGateway? {
            queue := rest + [tok.(currentNode := node, isMerged := false)];
          } else {
            queue := rest + [tok.(currentNode := node)];
          }
        case ContinueMultiple(targets, join) =>
          var forked := ForkToken(i, tok, targets, join);
          queue := rest + forked;
        case WaitForJoin(expected, early) =>
          var merged := ArriveAtJoin(i, tok, expected, early);
          queue := rest + merged;
        case WaitForUser => WaitAtUserTask(d, i, tok, env);
        case WaitForServiceTask => WaitAtServiceTask(d, i, tok, env);
        case WaitForTimer => WaitAtEvent(d, i, tok, env);
        case WaitForMessage => WaitAtEvent(d, i, tok, env);
        case WaitForEventGroup => WaitAtEventGateway(d, i, tok, env);
        case WaitForCallActivity => WaitAtCallActivity(d, i, tok, env);
        case Complete(end) => EndToken(i, tok, end);
        case SpawnAndContinue(main, spawned) =>
          queue := rest + ([tok.(currentNode := main)] + Gateway.Forked(spawned, tok.variables, nextId));
          nextId := nextId + |spawned|;
        case Terminate =>
          Terminate(i);
          queue := [];
      }
    }

    /** Steps the tokens of the queue in turn until it is empty, a step fails, or too many were taken. */
    method RunInstanceBatch(i: Uuid, tok: Token, env: Env) returns (r: Outcome)
      modifies this
      ensures (Model(), r) == Run(old(Model()), i, tok, env)
    {
      hide Act;
      var queue, k := [tok], 0;
      assert env.steps[0..] == env.steps;
      while queue != []
        invariant 0 <= k <= |env.steps|
        invariant RunBatch(Model(), i, queue, env.steps[k..], env, k) == Run(old(Model()), i, tok, env)
        decreases |env.steps| - k
      {
        if k >= MAX_EXECUTION_STEPS {
          if i in instances {
            instances := instances[i := instances[i].(state := CompletedWithError("EXECUTION_LIMIT_EXCEEDED"))];
          }
          return Failed(ExecutionLimitExceeded(i));
        }
        if k == |env.steps| || !Accepts(i, queue[0], env.steps[k].action) {
          return Failed(ScriptError);
        }
        ghost var s, before := Model(), queue;
        var step := env.steps[k];
        instances := instances[i := instances[i].(variables := step.synced, currentNode := step.shown)];
        queue := HandleNextAction(i, queue[0].(variables := step.variables), queue[1..], step.action, env);
        assert env.steps[k..][1..] == env.steps[k + 1..];
        assert (Model(), queue) == ApplyStep(s, i, before[0], before[1..], step, env);
        k := k + 1;
      }
      r := Done;
    }

    // ---- Shared steps ----

    /** The first flow without a condition, or whose condition holds. */
    method ResolveNextTarget(flows: seq<SequenceFlow>, variables: Variables) returns (next: Option<string>)
      ensures next == ResolveNext(flows, variables)
    {
      var k := 0;
      while k < |flows|
        invariant 0 <= k <= |flows|
        invariant ResolveNext(flows[k..], variables) == ResolveNext(flows, variables)
      {
        assert flows[k..][1..] == flows[k + 1..];
        if flows[k].condition.None? || EvaluateCondition(flows[k].condition.value, variables) {
          return Some(flows[k].target);
        }
        k := k + 1;
      }
      next := None;
    }

    method CancelBoundaryEvents(i: Uuid, node: string)
      modifies this`timers, this`catches
      ensures Model() == CancelBoundary(old(Model()), i, node)
    {
      if i in instances && instances[i].definitionKey in definitions {
        var d := definitions[instances[i].definitionKey];
        var bound := BoundaryTimersOf(d, node);
        timers := map id | id in timers && !(timers[id].instanceId == i && timers[id].nodeId in bound) :: timers[id];
        var messages := BoundaryMessagesOf(d, node);
        catches := map id | id in catches && !(catches[id].instanceId == i && catches[id].nodeId in messages) ::
          catches[id];
      }
    }

    method ClearWaitStates(i: Uuid, t: Uuid)
      modifies this`timers, this`catches
      ensures Model() == ClearWaits(old(Model()), i, t)
    {
      timers := map id | id in timers && !(timers[id].instanceId == i && timers[id].tokenId == t) :: timers[id];
      catches := map id | id in catches && !(catches[id].instanceId == i && catches[id].tokenId == t) :: catches[id];
    }

    method Advance(i: Uuid, tok: Token, d: ProcessDefinition, from: string, env: Env) returns (r: Outcome)
      modifies this
      ensures (Model(), r) == MoveOn(old(Model()), i, tok, d, from, env)
    {
      hide Run, ResolveNext;
      var next := ResolveNextTarget(d.NextNodes(from), tok.variables);
      if next.None? {
        return Failed(InvalidDefinition);
      }
      if i !in instances {
        return Failed(NoSuchInstance(i));
      }
      instances := instances[i := instances[i].(currentNode := next.value)];
      r := RunInstanceBatch(i, tok.(currentNode := next.value), env);
    }

    /** Runs what follows the end scripts: both get the variables, and the token moves on. */
    method FinishTask(i: Uuid, tok: Token, variables: Variables, node: string, env: Env) returns (r: Outcome)
      requires i in instances && instances[i].definitionKey in definitions
      modifies this
      ensures (Model(), r) == Finish(old(Model()), i, tok, variables, node, env)
    {
      hide MoveOn;
      instances := instances[i := instances[i].(variables := variables)];
      r := Advance(i, tok.(variables := variables), definitions[instances[i].definitionKey], node, env);
    }

    /** The token leaves its task: out of the token map, its boundary events cancelled, the instance
        running unless it has several branches. */
    method LeaveActivity(i: Uuid, t: Uuid, node: string)
      requires i in instances
      modifies this
      ensures Model() == LeaveTask(old(Model()), i, t, node)
    {
      hide CancelBoundary;
      instances := instances[i := instances[i].(tokens := instances[i].tokens - {t})];
      CancelBoundaryEvents(i, node);
      if !instances[i].state.ParallelExecution? {
        instances := instances[i := instances[i].(state := Running)];
      } else {
        assert instances[i := instances[i]] == instances;
      }
    }

    // ---- user_task.rs ----

    method CompleteTask(id: Uuid, extra: Variables, env: Env) returns (r: Outcome)
      modifies this
      ensures (Model(), r) == CompleteUserTask(old(Model()), id, extra, env)
      ensures old(Valid()) ==> Valid()
    {
      hide Soundness.Sound;
      Soundness.UserDoneKeepsSound(Model(), id, extra, env);
      hide LeaveTask, Finish;
      if id !in userTasks {
        return Failed(TaskNotPending(id));
      }
      var task := userTasks[id];
      var i, t := task.instanceId, task.tokenId;
      userTasks := userTasks - {id};
      if i in instances && instances[i].state.Suspended? {
        userTasks := userTasks[id := task];
        return Failed(InstanceSuspended(i));
      }
      if i !in instances {
        return Failed(NoSuchInstance(i));
      }
      if t !in instances[i].tokens {
        return Failed(InvalidDefinition);
      }
      var tok := instances[i].tokens[t];
      tok := tok.(variables := tok.variables + extra);
      LeaveActivity(i, t, task.nodeId);
      instances := instances[i := instances[i].(currentNode := task.nodeId)];
      if instances[i].definitionKey !in definitions {
        return Failed(NoSuchDefinition(instances[i].definitionKey));
      }
      var ended := env.endScript(tok.variables);
      if ended.None? {
        var inst := instances[i];
        instances := instances[i := inst.(state := WaitingOnUserTask(id), tokens := inst.tokens[tok.id := tok])];
        userTasks := userTasks[id := task];
        return Failed(ScriptError);
      }
      r := FinishTask(i, tok, ended.value, task.nodeId, env);
    }

    // ---- service_task.rs ----

    /** Walks the tasks in the map's order and locks the lockable ones for the worker. */
    method FetchAndLockServiceTasks(worker: string, max: nat, topics: seq<string>, duration: int, now: Time,
        order: seq<Uuid>)
      returns (result: seq<Entry<ServiceInfo>>)
      modifies this`serviceTasks
      ensures (Model(), result) == FetchAndLock(old(Model()), worker, max, topics, duration, now, order)
      ensures old(Valid()) ==> Valid()
    {
      hide Soundness.Sound;
      Soundness.FetchKeepsSound(Model(), worker, max, topics, duration, now, order);
      result := [];
      var k, until := 0, now + duration;
      assert order[0..] == order;
      while k < |order|
        invariant 0 <= k <= |order| && |result| <= max
        invariant var (m, all) := LockTasks(old(serviceTasks), order, worker, max, topics, now, until);
          var (m', rest) := LockTasks(serviceTasks, order[k..], worker, max - |result|, topics, now, until);
          m' == m && result + rest == all
      {
        if |result| >= max {
          break;
        }
        var id := order[k];
        assert order[k..][1..] == order[k + 1..];
        if id in serviceTasks && Lockable(serviceTasks[id], topics, now) {
          var task := Locked(serviceTasks[id], worker, until);
          serviceTasks := serviceTasks[id := task];
          result := result + [task];
        }
        k := k + 1;
      }
      assert order[k..] == [] || max - |result| == 0;
      assert LockTasks(serviceTasks, order[k..], worker, max - |result|, topics, now, until) == (serviceTasks, []);
      assert result + [] == result;
    }

    /** `remove_if`: takes the task when the worker holds it, and says why not otherwise. */
    method TakeHeldTask(id: Uuid, worker: string) returns (task: Option<Entry<ServiceInfo>>, r: Outcome)
      modifies this
      ensures HeldBy(old(Model()), id, worker) ==>
        task == Some(old(serviceTasks)[id]) && r == Done && Model() == TakeServiceTask(old(Model()), id)
      ensures !HeldBy(old(Model()), id, worker) ==>
        task == None && r == NotHeldError(old(Model()), id) && Model() == old(Model())
    {
      if id !in serviceTasks {
        return None, Failed(ServiceTaskNotFound(id));
      }
      match serviceTasks[id].data.workerId {
        case None => return None, Failed(ServiceTaskNotLocked(id));
        case Some(w) =>
          if w != worker {
            return None, Failed(ServiceTaskLocked(id, w));
          }
      }
      task, r := Some(serviceTasks[id]), Done;
      serviceTasks := serviceTasks - {id};
      consumed := consumed + [id];
    }

    method CompleteService(id: Uuid, worker: string, extra: Variables, env: Env) returns (r: Outcome)
      modifies this
      ensures (Model(), r) == CompleteServiceTask(old(Model()), id, worker, extra, env)
      ensures old(Valid()) ==> Valid()
    {
      hide Soundness.Sound;
      Soundness.ServiceDoneKeepsSound(Model(), id, worker, extra, env);
      hide LeaveTask, Finish;
      var taken, refused := TakeHeldTask(id, worker);
      if taken.None? {
        return refused;
      }
      var task := taken.value;
      var i, t := task.instanceId, task.tokenId;
      if i in instances && instances[i].state.Suspended? {
        serviceTasks := serviceTasks[task.id := task];
        consumed := old(consumed);
        return Failed(InstanceSuspended(i));
      }
      if i !in instances {
        return Failed(NoSuchInstance(i));
      }
      if t !in instances[i].tokens {
        return Failed(InvalidDefinition);
      }
      var tok := instances[i].tokens[t];
      tok := tok.(variables := tok.variables + extra);
      LeaveActivity(i, t, task.nodeId);
      instances := instances[i := instances[i].(variables := tok.variables)];
      if instances[i].definitionKey !in definitions {
        return Failed(NoSuchDefinition(instances[i].definitionKey));
      }
      var ended := env.endScript(tok.variables);
      if ended.None? {
        return Failed(ScriptError);
      }
      r := FinishTask(i, tok, ended.value, task.nodeId, env);
    }

    method FailService(id: Uuid, worker: string, retries: Option<int>, message: Option<string>, details: Option<string>)
        returns (r: Outcome)
      modifies this`serviceTasks
      ensures (Model(), r) == FailServiceTask(old(Model()), id, worker, retries, message, details)
      ensures old(Valid()) ==> Valid()
    {
      hide Soundness.Sound;
      Soundness.FailureKeepsSound(Model(), id, worker, retries, message, details);
      if id !in serviceTasks {
        return Failed(ServiceTaskNotFound(id));
      }
      var task := serviceTasks[id];
      r := LockError(task, worker);
      if r.Done? {
        var left := task.data.retries - 1;
        if retries.Some? {
          left := retries.value;
        }
        serviceTasks := serviceTasks[id := Released(task, left, message, details)];
      }
    }

    method RetryServiceIncident(id: Uuid, retries: Option<int>) returns (r: Outcome)
      modifies this`serviceTasks
      ensures (Model(), r) == RetryIncident(old(Model()), id, retries)
      ensures old(Valid()) ==> Valid()
    {
      hide Soundness.Sound;
      Soundness.RetryKeepsSound(Model(), id, retries);
      if id !in serviceTasks {
        return Failed(ServiceTaskNotFound(id));
      }
      var task := serviceTasks[id];
      if task.data.retries > 0 {
        return Failed(InvalidDefinition);
      }
      var left := 3;
      if retries.Some? {
        left := retries.value;
      }
      serviceTasks := serviceTasks[id := Released(task, left, None, None)];
      r := Done;
    }

    method ResolveServiceIncident(id: Uuid, extra: Variables, env: Env) returns (r: Outcome)
      modifies this
      ensures (Model(), r) == ResolveIncident(old(Model()), id, extra, env)
      ensures old(Valid()) ==> Valid()
    {
      hide Soundness.Sound;
      Soundness.ResolutionKeepsSound(Model(), id, extra, env);
      hide LeaveTask, Finish;
      if id !in serviceTasks {
        return Failed(ServiceTaskNotFound(id));
      }
      var task := serviceTasks[id];
      if task.data.retries > 0 {
        return Failed(InvalidDefinition);
      }
      var i, t := task.instanceId, task.tokenId;
      serviceTasks := serviceTasks - {id};
      consumed := consumed + [id];
      if i !in instances {
        return Failed(NoSuchInstance(i));
      }
      if t !in instances[i].tokens {
        return Failed(InvalidDefinition);
      }
      var tok := instances[i].tokens[t];
      tok := tok.(variables := tok.variables + extra);
      LeaveActivity(i, t, task.nodeId);
      instances := instances[i := instances[i].(currentNode := task.nodeId)];
      if instances[i].definitionKey !in definitions {
        return Failed(NoSuchDefinition(instances[i].definitionKey));
      }
      var ended := env.endScript(tok.variables);
      if ended.None? {
        return Failed(ScriptError);
      }
      r := FinishTask(i, tok, ended.value, task.nodeId, env);
    }

    method ExtendServiceLock(id: Uuid, worker: string, duration: int, now: Time) returns (r: Outcome)
      modifies this`serviceTasks
      ensures (Model(), r) == ExtendLock(old(Model()), id, worker, duration, now)
      ensures old(Valid()) ==> Valid()
    {
      hide Soundness.Sound;
      Soundness.ExtensionKeepsSound(Model(), id, worker, duration, now);
      if id !in serviceTasks {
        return Failed(ServiceTaskNotFound(id));
      }
      var task := serviceTasks[id];
      r := LockError(task, worker);
      if r.Done? {
        serviceTasks := serviceTasks[id := task.(data := task.data.(lockExpiration := Some(now + duration)))];
      }
    }

    method FindErrorBoundary(d: ProcessDefinition, node: string, code: string) returns (found: Option<string>)
      ensures found == FindBoundaryError(d, d.order, node, code)
    {
      var k := 0;
      while k < |d.order|
        invariant 0 <= k <= |d.order|
        invariant FindBoundaryError(d, d.order[k..], node, code) == FindBoundaryError(d, d.order, node, code)
      {
        assert d.order[k..][1..] == d.order[k + 1..];
        var n := d.order[k];
        if n in d.nodes && d.nodes[n].BoundaryErrorEvent? && d.nodes[n].attachedTo == node
          && (d.nodes[n].errorCode.None? || d.nodes[n].errorCode.value == code)
        {
          return Some(n);
        }
        k := k + 1;
      }
      found := None;
    }

    method ReportBpmnError(id: Uuid, worker: string, code: string, env: Env) returns (r: Outcome)
      modifies this
      ensures (Model(), r) == HandleBpmnError(old(Model()), id, worker, code, env)
      ensures old(Valid()) ==> Valid()
    {
      hide Soundness.Sound;
      Soundness.ErrorKeepsSound(Model(), id, worker, code, env);
      hide CancelBoundary, MoveOn, FindBoundaryError;
      var taken, refused := TakeHeldTask(id, worker);
      if taken.None? {
        return refused;
      }
      var task := taken.value;
      var i, t := task.instanceId, task.tokenId;
      if i !in instances {
        return Failed(NoSuchInstance(i));
      }
      CancelBoundaryEvents(i, task.nodeId);
      if instances[i].definitionKey !in definitions {
        return Done;
      }
      var d := definitions[instances[i].definitionKey];
      var boundary := FindErrorBoundary(d, task.nodeId, code);
      if boundary.None? {
        return Done;
      }
      instances := instances[i := instances[i].(state := Running)];
      if t !in instances[i].tokens {
        return Failed(InvalidDefinition);
      }
      var tok := instances[i].tokens[t];
      instances := instances[i := instances[i].(tokens := instances[i].tokens - {t})];
      r := Advance(i, tok, d, boundary.value, env);
    }

    // ---- process_start.rs ----

    method FindStartEvent(d: ProcessDefinition) returns (start: Option<string>)
      ensures start == StartEventOf(d, d.order)
    {
      var k := 0;
      while k < |d.order|
        invariant 0 <= k <= |d.order|
        invariant StartEventOf(d, d.order[k..]) == StartEventOf(d, d.order)
      {
        assert d.order[k..][1..] == d.order[k + 1..];
        if d.order[k] in d.nodes && d.nodes[d.order[k]].IsStart() {
          return Some(d.order[k]);
        }
        k := k + 1;
      }
      start := None;
    }

    /** Registers the triggers of event sub-processes, under the nil token. */
    method RegisterScopeListeners(listeners: seq<ScopeEventListener>, i: Uuid, env: Env)
      modifies this
      ensures Model() == RegisterListeners(old(Model()), listeners, i, env)
    {
      hide AddTimer, AddCatch;
      var k := 0;
      assert listeners[0..] == listeners;
      while k < |listeners|
        invariant 0 <= k <= |listeners|
        invariant RegisterListeners(Model(), listeners[k..], i, env)
          == RegisterListeners(old(Model()), listeners, i, env)
      {
        assert listeners[k..][1..] == listeners[k + 1..];
        match listeners[k] {
          case TimerListener(timer, target) => AddPendingTimer(i, NIL, target, timer, env);
          case MessageListener(name, target) => AddPendingCatch(i, NIL, target, name);
          case ErrorListener(_) =>
        }
        k := k + 1;
      }
    }

    /** Puts the new instance and its listeners into the maps and runs its first token. */
    method Launch(key: Uuid, start: string, variables: Variables, env: Env) returns (r: Outcome)
      requires key in definitions
      modifies this
      ensures (Model(), r) == Run(Started(old(Model()), key, start, variables, env), old(nextId),
                                  Token(old(nextId) + 1, start, variables - {"business_key"}, false), env)
    {
      hide RegisterListeners, Run, BusinessKeyOf, InitialInstance;
      var i := nextId;
      var rest := variables - {"business_key"};
      var inst := InitialInstance(key, BusinessKeyOf(variables, i), start, rest);
      nextId := nextId + 2;
      instances := instances[i := inst];
      RegisterScopeListeners(definitions[key].eventListeners, i, env);
      r := RunInstanceBatch(i, Token(i + 1, start, rest, false), env);
    }

    method StartNewInstance(key: Uuid, variables: Variables, env: Env) returns (r: Result<Uuid>)
      modifies this
      ensures (Model(), r) == StartInstance(old(Model()), key, variables, env)
      ensures old(Valid()) ==> Valid()
    {
      hide Soundness.Sound, Run, Started;
      Soundness.StartKeepsSound(Model(), key, variables, env);
      if key !in definitions {
        return Err(NoSuchDefinition(key));
      }
      var d := definitions[key];
      var start := FindStartEvent(d);
      if start.None? {
        return Err(InvalidDefinition);
      }
      if d.nodes[start.value].TimerStartEvent? {
        return Err(InvalidDefinition);
      }
      var i := nextId;
      var ran := Launch(key, start.value, variables, env);
      match ran {
        case Done => r := Ok(i);
        case Failed(e) => r := Err(e);
      }
    }

    // ---- registry.rs ----

    /** The registered definition of a BPMN id with the highest version. */
    method FindLatest(order: seq<Uuid>, bpmnId: string) returns (latest: Option<Uuid>)
      ensures latest == LatestOf(definitions, order, bpmnId)
    {
      latest := None;
      var k := |order|;
      while k > 0
        invariant 0 <= k <= |order|
        invariant latest == LatestOf(definitions, order[k..], bpmnId)
      {
        k := k - 1;
        assert order[k..][1..] == order[k + 1..];
        var key := order[k];
        if key in definitions && definitions[key].id == bpmnId
          && (latest.None? || latest.value !in definitions
             || definitions[latest.value].version < definitions[key].version)
        {
          latest := Some(key);
        }
      }
    }

    method SpawnChild(i: Uuid, target: string, variables: Variables, defOrder: seq<Uuid>, env: Env) returns (r: Outcome)
      modifies this
      ensures (Model(), r) == FireListener(old(Model()), i, target, variables, defOrder, env)
    {
      hide StartInstance;
      var key := FindLatest(defOrder, target);
      if key.None? {
        return Failed(InvalidDefinition);
      }
      if i !in instances {
        return Failed(NoSuchInstance(i));
      }
      var started := StartNewInstance(key.value, instances[i].variables + variables, env);
      match started {
        case Ok(_) => r := Done;
        case Err(e) => r := Failed(e);
      }
    }

    // ---- timer_processor.rs, message_processor.rs ----

    /** A non-interrupting event: the token keeps waiting, a clone moves on. */
    method CloneWaitingToken(i: Uuid, t: Uuid) returns (clone: Token)
      requires i in instances && t in instances[i].tokens
      modifies this
      ensures (Model(), clone) == CloneToken(old(Model()), i, t)
    {
      var id := NewId();
      var inst := instances[i];
      clone := inst.tokens[t].(id := id);
      var active := ActiveToken(clone, Some(clone.currentNode), |inst.activeTokens|, false);
      inst := inst.(tokens := inst.tokens[id := clone], activeTokens := inst.activeTokens + [active]);
      if !inst.state.ParallelExecution? {
        inst := inst.(state := ParallelExecution(|inst.tokens|));
      }
      instances := instances[i := inst];
    }

    /** An interrupting event: the token is taken, and the tasks it waited in go. */
    method InterruptWaitingToken(i: Uuid, t: Uuid) returns (tok: Token)
      requires i in instances && t in instances[i].tokens
      modifies this
      ensures (Model(), tok) == InterruptToken(old(Model()), i, t)
    {
      tok := instances[i].tokens[t];
      var node := tok.currentNode;
      instances := instances[i := instances[i].(tokens := instances[i].tokens - {t})];
      userTasks := map id | id in userTasks
          && !(userTasks[id].instanceId == i && userTasks[id].nodeId == node && userTasks[id].tokenId == t) ::
             userTasks[id];
      serviceTasks := map id | id in serviceTasks
          && !(serviceTasks[id].instanceId == i && serviceTasks[id].nodeId == node && serviceTasks[id].tokenId == t) ::
             serviceTasks[id];
    }

    /** Takes a timer, clears its token's other waits, and resumes what waited. */
    method ResumeAfterTimer(id: Uuid, defOrder: seq<Uuid>, env: Env) returns (r: Outcome)
      requires id in timers
      modifies this
      ensures (Model(), r) == ResumeTimer(old(Model()), id, defOrder, env)
    {
      hide ClearWaits, FireListener, MoveOn, CloneToken, InterruptToken;
      var timer := timers[id];
      var i, t := timer.instanceId, timer.tokenId;
      timers := timers - {id};
      fired := fired + [TimerFired(id, timer.data.origin)];
      assert Model() == TakeTimer(old(Model()), id);
      ClearKeepsTheRest(Model(), i, t);
      ClearWaitStates(i, t);
      if i !in instances {
        return Failed(NoSuchInstance(i));
      }
      instances := instances[i := instances[i].(state := Running)];
      assert Model() == TimerTaken(old(Model()), id);
      if t == NIL {
        r := SpawnChild(i, timer.nodeId, map[], defOrder, env);
        return;
      }
      var key := instances[i].definitionKey;
      if key !in definitions {
        return Failed(NoSuchDefinition(key));
      }
      if t !in instances[i].tokens {
        return Failed(InvalidDefinition);
      }
      var d := definitions[key];
      var tok;
      if timer.nodeId in d.nodes && d.nodes[timer.nodeId].BoundaryTimerEvent? && !d.nodes[timer.nodeId].cancelActivity {
        tok := CloneWaitingToken(i, t);
      } else {
        tok := InterruptWaitingToken(i, t);
      }
      r := Advance(i, tok, d, timer.nodeId, env);
    }

    static lemma ClearKeepsTheRest(s: State, i: Uuid, t: Uuid)
      ensures ClearWaits(s, i, t) == s.(timers := ClearWaits(s, i, t).timers, catches := ClearWaits(s, i, t).catches)
    {}

    /** Schedules a recurring timer again, under the token it fired for. */
    method RescheduleTimer(timer: Entry<TimerInfo>, env: Env)
      modifies this
      ensures Model() == Reschedule(old(Model()), timer, env)
    {
      if timer.data.timerDef.Some? && timer.data.timerDef.value.IsRecurring() && timer.data.remaining != Some(0) {
        var next := timer.data.timerDef.value.NextExpiry(env.now, env.cron);
        if next.Some? {
          var left := timer.data.remaining;
          if left.Some? && left.value > 0 {
            left := Some(left.value - 1);
          }
          var id := NewId();
          timers := timers[id := timer.(id := id, data := timer.data.(expiresAt := next.value, remaining := left))];
        }
      }
    }

    /** The timers that are due and whose instance is not suspended. */
    method CollectExpired(now: Time, order: seq<Uuid>) returns (expired: seq<Uuid>)
      ensures expired == Expired(Model(), now, order)
    {
      ghost var s := Model();
      expired := [];
      var k := 0;
      assert order[0..] == order;
      while k < |order|
        invariant 0 <= k <= |order|
        invariant expired + Expired(s, now, order[k..]) == Expired(s, now, order)
      {
        assert order[k..][1..] == order[k + 1..];
        var id := order[k];
        if id in timers && timers[id].data.expiresAt <= now {
          var i := timers[id].instanceId;
          if !(i in instances && instances[i].state.Suspended?) {
            expired := expired + [id];
          }
        }
        k := k + 1;
      }
    }

    /** Fires a collected timer, which may have gone meanwhile. */
    method FireExpired(id: Uuid, defOrder: seq<Uuid>, env: Env) returns (r: Outcome)
      modifies this
      ensures (Model(), r) == FireTimer(old(Model()), id, defOrder, env)
    {
      hide ResumeTimer, Reschedule;
      if id !in timers {
        return Failed(InvalidDefinition);
      }
      var timer := timers[id];
      r := ResumeAfterTimer(id, defOrder, env);
      if r.Done? && timer.tokenId != NIL {
        RescheduleTimer(timer, env);
      }
    }

    /** Fires the timers that are due and whose instance is not suspended; the first error ends it. */
    method ProcessDueTimers(now: Time, order: seq<Uuid>, defOrder: seq<Uuid>, envs: nat -> Env) returns (r: Result<nat>)
      modifies this
      ensures (Model(), r) == ProcessTimers(old(Model()), now, order, defOrder, envs)
      ensures old(Valid()) ==> Valid()
    {
      hide Soundness.Sound;
      Soundness.TimersKeepsSound(Model(), now, order, defOrder, envs);
      hide FireTimer, Expired;
      var expired := CollectExpired(now, order);
      var k := 0;
      assert expired[0..] == expired;
      while k < |expired|
        invariant 0 <= k <= |expired|
        invariant FireTimers(Model(), expired[k..], defOrder, envs, k)
          == FireTimers(old(Model()), expired, defOrder, envs, 0)
      {
        assert expired[k..][1..] == expired[k + 1..];
        var resumed := FireExpired(expired[k], defOrder, envs(k));
        if resumed.Failed? {
          return Err(resumed.error);
        }
        k := k + 1;
      }
      r := Ok(|expired|);
    }

    method ResumeAfterMessage(id: Uuid, variables: Variables, defOrder: seq<Uuid>, env: Env) returns (r: Outcome)
      modifies this
      ensures (Model(), r) == FireCatch(old(Model()), id, variables, defOrder, env)
    {
      hide ClearWaits, FireListener, MoveOn, CloneToken, InterruptToken;
      if id !in catches {
        return Failed(InvalidDefinition);
      }
      var c := catches[id];
      var i, t := c.instanceId, c.tokenId;
      catches := catches - {id};
      fired := fired + [CatchFired(id)];
      assert Model() == TakeCatch(old(Model()), id);
      ClearKeepsTheRest(Model(), i, t);
      ClearWaitStates(i, t);
      if t == NIL {
        r := SpawnChild(i, c.nodeId, variables, defOrder, env);
        return;
      }
      if i !in instances {
        return Failed(NoSuchInstance(i));
      }
      var key := instances[i].definitionKey;
      if key !in definitions {
        return Failed(NoSuchDefinition(key));
      }
      if t !in instances[i].tokens {
        return Failed(InvalidDefinition);
      }
      var d := definitions[key];
      var tok;
      ghost var cleared := Model();
      if c.nodeId in d.nodes && d.nodes[c.nodeId].BoundaryMessageEvent? && !d.nodes[c.nodeId].cancelActivity {
        tok := CloneWaitingToken(i, t);
      } else {
        tok := InterruptWaitingToken(i, t);
      }
      ResumedTokenStays(cleared, i, t);
      tok := tok.(variables := tok.variables + variables);
      if !instances[i].state.ParallelExecution? {
        instances := instances[i := instances[i].(state := Running)];
      } else {
        assert instances[i := instances[i]] == instances;
      }
      r := Advance(i, tok, d, c.nodeId, env);
    }

    static lemma ResumedTokenStays(s: State, i: Uuid, t: Uuid)
      requires i in s.instances && t in s.instances[i].tokens
      ensures i in CloneToken(s, i, t).0.instances && i in InterruptToken(s, i, t).0.instances
    {}

    /** Resumes every collected catch; the first error ends it. */
    method ResumeAll(ids: seq<Uuid>, variables: Variables, defOrder: seq<Uuid>, envs: nat -> Env) returns (r: Outcome)
      modifies this
      ensures (Model(), r) == FireCatches(old(Model()), ids, variables, defOrder, envs, 0)
    {
      hide FireCatch;
      var k := 0;
      assert ids[0..] == ids;
      while k < |ids|
        invariant 0 <= k <= |ids|
        invariant FireCatches(Model(), ids[k..], variables, defOrder, envs, k)
          == FireCatches(old(Model()), ids, variables, defOrder, envs, 0)
      {
        assert ids[k..][1..] == ids[k + 1..];
        r := ResumeAfterMessage(ids[k], variables, defOrder, envs(k));
        if r.Failed? {
          return;
        }
        k := k + 1;
      }
      r := Done;
    }

    /** Resumes every catch the message matches, then starts every definition it starts. */
    method Correlate(name: string, businessKey: Option<string>, variables: Variables,
                     order: seq<Uuid>, defOrder: seq<Uuid>, envs: nat -> Env) returns (r: Result<seq<Uuid>>)
      modifies this
      ensures (Model(), r) == CorrelateMessage(old(Model()), name, businessKey, variables, order, defOrder, envs)
      ensures old(Valid()) ==> Valid()
    {
      hide Soundness.Sound;
      Soundness.MessageKeepsSound(Model(), name, businessKey, variables, order, defOrder, envs);
      hide FireCatches, StartEach, StartedBy, MatchingCatches, InstancesOf;
      var ids, affected := CollectMatches(name, businessKey, order);
      var resumed := ResumeAll(ids, variables, defOrder, envs);
      if resumed.Failed? {
        return Err(resumed.error);
      }
      var keys := CollectStarts(name, defOrder);
      var begun := StartAll(keys, variables, businessKey, envs, |ids|);
      match begun {
        case Ok(started) => r := Ok(affected + started);
        case Err(e) => r := Err(e);
      }
    }

    /** The catches a message reaches, and their instances. */
    method CollectMatches(name: string, businessKey: Option<string>, order: seq<Uuid>)
        returns (ids: seq<Uuid>, affected: seq<Uuid>)
      ensures ids == MatchingCatches(Model(), name, businessKey, order)
      ensures affected == InstancesOf(catches, ids)
    {
      ghost var s := Model();
      hide Matches, InstancesOf, MatchingCatches;
      NoInstances(catches);
      ids, affected := [], [];
      var k := 0;
      assert order[0..] == order;
      while k < |order|
        invariant 0 <= k <= |order|
        invariant ids + MatchingCatches(s, name, businessKey, order[k..])
          == MatchingCatches(s, name, businessKey, order)
        invariant affected == InstancesOf(catches, ids)
      {
        var id := order[k];
        MatchingNext(s, name, businessKey, order, k);
        Associative(ids, [id], MatchingCatches(s, name, businessKey, order[k + 1..]));
        if id in catches { MatchIs(s, id, name, businessKey); }
        if id in catches && catches[id].data.messageName == name && catches[id].instanceId in instances
          && (businessKey.None? || instances[catches[id].instanceId].businessKey == businessKey.value)
        {
          InstancesOfAppend(catches, ids, id);
          ids := ids + [id];
          affected := affected + [catches[id].instanceId];
        }
        k := k + 1;
      }
      NothingMatches(s, name, businessKey, order);
    }

    static lemma MatchingNext(s: State, name: string, businessKey: Option<string>, order: seq<Uuid>, k: nat)
      requires k < |order|
      ensures MatchingCatches(s, name, businessKey, order[k..]) ==
        if order[k] in s.catches && Matches(s, s.catches[order[k]], name, businessKey)
        then [order[k]] + MatchingCatches(s, name, businessKey, order[k + 1..])
        else MatchingCatches(s, name, businessKey, order[k + 1..])
    {
      assert order[k..][1..] == order[k + 1..];
      hide Matches;
    }

    static lemma NothingMatches(s: State, name: string, businessKey: Option<string>, order: seq<Uuid>)
      ensures MatchingCatches(s, name, businessKey, order[|order|..]) == []
    {}

    static lemma MatchIs(s: State, id: Uuid, name: string, businessKey: Option<string>)
      requires id in s.catches
      ensures Matches(s, s.catches[id], name, businessKey) <==> (
        && s.catches[id].data.messageName == name && s.catches[id].instanceId in s.instances
        && (businessKey.None? || s.instances[s.catches[id].instanceId].businessKey == businessKey.value))
    {}

    static lemma NoInstances(m: Catches)
      ensures InstancesOf(m, []) == []
    {}

    static lemma {:induction false} InstancesOfAppend(m: Catches, ids: seq<Uuid>, id: Uuid)
      requires id in m
      ensures InstancesOf(m, ids + [id]) == InstancesOf(m, ids) + [m[id].instanceId]
      decreases |ids|
    {
      if ids == [] {
        assert ids + [id] == [id] && [id][1..] == [];
      } else {
        InstancesOfAppend(m, ids[1..], id);
        assert (ids + [id])[1..] == ids[1..] + [id];
      }
    }

    /** The definitions whose start event waits for the message. */
    method CollectStarts(name: string, defOrder: seq<Uuid>) returns (keys: seq<Uuid>)
      ensures keys == StartedBy(definitions, name, defOrder)
    {
      hide StartsOn;
      keys := [];
      var k := 0;
      assert defOrder[0..] == defOrder;
      while k < |defOrder|
        invariant 0 <= k <= |defOrder|
        invariant keys + StartedBy(definitions, name, defOrder[k..]) == StartedBy(definitions, name, defOrder)
      {
        assert defOrder[k..][1..] == defOrder[k + 1..];
        if defOrder[k] in definitions && StartsOn(definitions[defOrder[k]], name) {
          assert StartedBy(definitions, name, defOrder[k..])
            == [defOrder[k]] + StartedBy(definitions, name, defOrder[k + 1..]);
          keys := keys + [defOrder[k]];
        }
        k := k + 1;
      }
    }

    /** Starts an instance of each definition; the first error ends it. */
    method StartAll(keys: seq<Uuid>, variables: Variables, businessKey: Option<string>, envs: nat -> Env, from: nat)
      returns (r: Result<seq<Uuid>>)
      modifies this
      ensures (Model(), r) == StartEach(old(Model()), keys, variables, businessKey, envs, from)
    {
      hide StartInstance;
      ghost var whole := StartEach(Model(), keys, variables, businessKey, envs, from);
      var started, k := [], 0;
      assert keys[0..] == keys;
      NothingStartedYet(whole);
      while k < |keys|
        invariant 0 <= k <= |keys|
        invariant AfterStarting(started, StartEach(Model(), keys[k..], variables, businessKey, envs, from + k)) == whole
      {
        assert keys[k..][1..] == keys[k + 1..];
        var begun := StartNewInstance(keys[k], variables, envs(from + k));
        match begun {
          case Err(e) => return Err(e);
          case Ok(i) =>
            ghost var s1 := Model();
            if businessKey.Some? && i in instances {
              instances := instances[i := instances[i].(businessKey := businessKey.value)];
            }
            assert Model() == WithBusinessKey(s1, i, businessKey);
            StartedTogether(started, i, StartEach(Model(), keys[k + 1..], variables, businessKey, envs, from + k + 1));
            started := started + [i];
        }
        k := k + 1;
      }
      assert keys[k..] == [] && started + [] == started;
      r := Ok(started);
    }

    static lemma NothingStartedYet(whole: (State, Result<seq<Uuid>>))
      ensures AfterStarting([], whole) == whole
    {
      if whole.1.Ok? {
        assert [] + whole.1.value == whole.1.value;
      }
    }

    /** The answer when `started` were started before the rest. */
    static ghost function AfterStarting(started: seq<Uuid>, rest: (State, Result<seq<Uuid>>)): (State,
        Result<seq<Uuid>>) {
      (rest.0, match rest.1 case Ok(more) => Ok(started + more) case Err(e) => Err(e))
    }

    static lemma StartedTogether(started: seq<Uuid>, i: Uuid, rest: (State, Result<seq<Uuid>>))
      ensures AfterStarting(started, AfterStarting([i], rest)) == AfterStarting(started + [i], rest)
    {
      if rest.1.Ok? {
        assert started + ([i] + rest.1.value) == (started + [i]) + rest.1.value;
      }
    }

    // ---- instance_ops.rs ----

    /** Applies an update to variables: null removes a key, any other value sets it. */
    method ApplyUpdate(variables: Variables, update: Variables) returns (merged: Variables)
      ensures merged == Merged(variables, update)
    {
      hide Merged, Applied;
      merged := variables;
      var left := update.Keys;
      AppliedEnds(variables, update);
      while left != {}
        invariant left <= update.Keys && merged == Merged(variables, Applied(update, left))
        decreases |left|
      {
        var k :| k in left;
        AppliedStep(variables, update, left, k);
        if update[k].Null? {
          merged := merged - {k};
        } else {
          merged := merged[k := update[k]];
        }
        left := left - {k};
      }
    }

    /** The part of an update that has been applied when `left` is still to come. */
    static ghost function Applied(update: Variables, left: set<string>): Variables {
      map k | k in update && k !in left :: update[k]
    }

    static lemma AppliedEnds(variables: Variables, update: Variables)
      ensures Merged(variables, Applied(update, update.Keys)) == variables && Applied(update, {}) == update
    {
      assert Applied(update, update.Keys) == map[];
    }

    static lemma AppliedStep(variables: Variables, update: Variables, left: set<string>, k: string)
      requires k in left && left <= update.Keys
      ensures var before := Merged(variables, Applied(update, left));
        Merged(variables, Applied(update, left - {k})) == if update[k].Null? then before - {k}
          else before[k := update[k]]
    {
      assert Applied(update, left - {k}) == Applied(update, left)[k := update[k]];
    }

    /** Hands the variables on to every token. */
    method RefreshTokens(tokens: map<Uuid, Token>, vars: Variables) returns (refreshed: map<Uuid, Token>)
      ensures refreshed == RefreshedTokens(tokens, vars)
    {
      hide Merged;
      refreshed := tokens;
      var left := tokens.Keys;
      while left != {}
        invariant left <= tokens.Keys && refreshed.Keys == tokens.Keys
        invariant forall t <- tokens :: refreshed[t] == if t in left then tokens[t] else RefreshedToken(tokens[t], vars)
        decreases |left|
      {
        var t :| t in left;
        var merged := ApplyUpdate(tokens[t].variables, vars);
        refreshed := refreshed[t := tokens[t].(variables := merged)];
        left := left - {t};
      }
    }

    /** Updates the instance's variables, and hands the result on to every token. */
    method UpdateInstanceVariables(i: Uuid, update: Variables) returns (r: Outcome)
      modifies this`instances
      ensures (Model(), r) == UpdateVariables(old(Model()), i, update)
      ensures old(Valid()) ==> Valid()
    {
      hide Soundness.Sound;
      Soundness.UpdateKeepsSound(Model(), i, update);
      hide Merged, RefreshedTokens;
      if i !in instances {
        return Failed(NoSuchInstance(i));
      }
      var vars := ApplyUpdate(instances[i].variables, update);
      var tokens := RefreshTokens(instances[i].tokens, vars);
      instances := instances[i := instances[i].(variables := vars, tokens := tokens)];
      r := Done;
    }

    method SuspendInstance(i: Uuid) returns (r: Outcome)
      modifies this`instances
      ensures (Model(), r) == Suspend(old(Model()), i)
      ensures old(Valid()) ==> Valid()
    {
      hide Soundness.Sound;
      Soundness.SuspensionKeepsSound(Model(), i);
      if i !in instances {
        return Failed(NoSuchInstance(i));
      }
      var inst := instances[i];
      match inst.state {
        case Completed => return Failed(AlreadyCompleted);
        case CompletedWithError(_) => return Failed(AlreadyCompleted);
        case Suspended(_) => return Failed(EngineError.InstanceSuspended(i));
        case _ =>
      }
      instances := instances[i := inst.(state := Suspended(inst.state))];
      r := Done;
    }

    method ResumeInstance(i: Uuid) returns (r: Outcome)
      modifies this`instances
      ensures (Model(), r) == Resume(old(Model()), i)
      ensures old(Valid()) ==> Valid()
    {
      hide Soundness.Sound;
      Soundness.ResumptionKeepsSound(Model(), i);
      if i !in instances {
        return Failed(NoSuchInstance(i));
      }
      match instances[i].state {
        case Suspended(previous) =>
          instances := instances[i := instances[i].(state := previous)];
          r := Done;
        case _ => r := Failed(InvalidDefinition);
      }
    }

    /** Why a move is refused. */
    method ValidateMove(i: Uuid, target: string) returns (e: Option<EngineError>)
      ensures e == MoveError(Model(), i, target)
    {
      if i !in instances {
        return Some(NoSuchInstance(i));
      }
      match instances[i].state {
        case Completed => return Some(AlreadyCompleted);
        case CompletedWithError(_) => return Some(AlreadyCompleted);
        case Suspended(_) => return Some(EngineError.InstanceSuspended(i));
        case _ =>
      }
      if instances[i].definitionKey !in definitions {
        return Some(NoSuchDefinition(instances[i].definitionKey));
      }
      if target !in definitions[instances[i].definitionKey].nodes {
        return Some(NoSuchNode(target));
      }
      e := None;
    }

    method MoveInstanceToken(i: Uuid, target: string, update: Variables, cancel: bool, env: Env) returns (r: Outcome)
      modifies this
      ensures (Model(), r) == MoveToken(old(Model()), i, target, update, cancel, env)
      ensures old(Valid()) ==> Valid()
    {
      hide Soundness.Sound;
      Soundness.MoveKeepsSound(Model(), i, target, update, cancel, env);
      hide Run, MoveError, DropPending;
      var refused := ValidateMove(i, target);
      if refused.Some? {
        return Failed(refused.value);
      }
      MoveFindsInstance(Model(), i, target);
      if cancel {
        DropPendingOf(i);
      }
      var variables := ApplyUpdate(instances[i].variables, update);
      hide Merged;
      var id := NewId();
      var tok := Token(id, target, variables, false);
      instances := instances[i := instances[i].(
          tokens := map[id := tok], activeTokens := [], joinBarriers := map[], multiInstance := map[],
          state := Running, currentNode := target, variables := variables)];
      r := RunInstanceBatch(i, tok, env);
    }

    static lemma MoveFindsInstance(s: State, i: Uuid, target: string)
      requires MoveError(s, i, target).None?
      ensures i in s.instances && i in DropPending(s, i).instances
      ensures DropPending(s, i).instances == s.instances && DropPending(s, i).nextId == s.nextId
    {}

    /** Checks, before anything is written, that every mapped node exists in the target definition. */
    method ValidateMigration(i: Uuid, key: Uuid, mapping: map<string, string>, order: MigrationOrder)
        returns (e: Option<EngineError>)
      ensures e == MigrationError(Model(), i, key, mapping, order)
    {
      if key !in definitions {
        return Some(NoSuchDefinition(key));
      }
      if i !in instances {
        return Some(NoSuchInstance(i));
      }
      var inst, d := instances[i], definitions[key];
      match inst.state {
        case Completed => return Some(AlreadyCompleted);
        case CompletedWithError(_) => return Some(AlreadyCompleted);
        case Suspended(_) => return Some(EngineError.InstanceSuspended(i));
        case _ =>
      }
      if Remap(mapping, inst.currentNode) !in d.nodes {
        return Some(OrphanedToken(Remap(mapping, inst.currentNode)));
      }
      var k := 0;
      assert order.tokens[0..] == order.tokens;
      while k < |order.tokens|
        invariant 0 <= k <= |order.tokens|
        invariant FirstOrphanToken(inst, order.tokens[k..], d, mapping)
          == FirstOrphanToken(inst, order.tokens, d, mapping)
      {
        assert order.tokens[k..][1..] == order.tokens[k + 1..];
        var t := order.tokens[k];
        if t in inst.tokens && Remap(mapping, inst.tokens[t].currentNode) !in d.nodes {
          return Some(OrphanedToken(Remap(mapping, inst.tokens[t].currentNode)));
        }
        k := k + 1;
      }
      k := 0;
      assert inst.activeTokens[0..] == inst.activeTokens;
      while k < |inst.activeTokens|
        invariant 0 <= k <= |inst.activeTokens|
        invariant FirstOrphanActive(inst.activeTokens[k..], d, mapping)
          == FirstOrphanActive(inst.activeTokens, d, mapping)
      {
        assert inst.activeTokens[k..][1..] == inst.activeTokens[k + 1..];
        var node := Remap(mapping, inst.activeTokens[k].token.currentNode);
        if node !in d.nodes {
          return Some(OrphanedToken(node));
        }
        k := k + 1;
      }
      e := None;
    }

    /** Enters a table again under mapped keys, in the order its hash map yields them. */
    static method RemapTable<V>(mapping: map<string, string>, table: map<string, V>, order: seq<string>)
        returns (remapped: map<string, V>)
      ensures remapped == RemapKeys(mapping, table, order)
    {
      remapped := map[];
      var k := 0;
      while k < |order|
        invariant 0 <= k <= |order|
        invariant remapped == RemapKeys(mapping, table, order[..k])
      {
        assert order[..k + 1][..k] == order[..k];
        if order[k] in table {
          remapped := remapped[Remap(mapping, order[k]) := table[order[k]]];
        }
        k := k + 1;
      }
      assert order[..k] == order;
    }

    /** Maps the nodes of the instance's entries in one pending map. */
    static method RemapPending<K>(m: map<Uuid, Entry<K>>, i: Uuid, mapping: map<string, string>)
        returns (remapped: map<Uuid, Entry<K>>)
      ensures remapped == RemapEntries(m, i, mapping)
    {
      remapped := m;
      var left := m.Keys;
      while left != {}
        invariant left <= m.Keys && remapped.Keys == m.Keys
        invariant forall id <- m :: remapped[id] == if id in left then m[id] else RemapEntries(m, i, mapping)[id]
        decreases |left|
      {
        var id :| id in left;
        if m[id].instanceId == i && m[id].nodeId in mapping {
          remapped := remapped[id := m[id].(nodeId := mapping[m[id].nodeId])];
        }
        left := left - {id};
      }
    }

    /** Maps the tokens of the active branches. */
    static method RemapActiveTokens(mapping: map<string, string>, active: seq<ActiveToken>)
        returns (remapped: seq<ActiveToken>)
      ensures remapped == RemapActive(mapping, active)
    {
      remapped := [];
      var k := 0;
      assert active[0..] == active;
      while k < |active|
        invariant 0 <= k <= |active|
        invariant remapped + RemapActive(mapping, active[k..]) == RemapActive(mapping, active)
      {
        assert active[k..][1..] == active[k + 1..];
        remapped := remapped + [active[k].(token := RemapToken(mapping, active[k].token))];
        k := k + 1;
      }
    }

    /** The instance and its entries under the mapped names. */
    method MapInstance(i: Uuid, key: Uuid, mapping: map<string, string>, order: MigrationOrder)
      requires i in instances
      modifies this
      ensures Model() == Migrated(old(Model()), i, key, mapping, order)
    {
      hide RemapActive, RemapKeys, RemapEntries;
      var inst := instances[i];
      var active := RemapActiveTokens(mapping, inst.activeTokens);
      var barriers := RemapTable(mapping, inst.joinBarriers, order.barriers);
      var progress := RemapTable(mapping, inst.multiInstance, order.multiInstance);
      instances := instances[i := inst.(
          definitionKey := key,
          currentNode := Remap(mapping, inst.currentNode),
          tokens := map t | t in inst.tokens :: RemapToken(mapping, inst.tokens[t]),
          activeTokens := active, joinBarriers := barriers, multiInstance := progress)];
      userTasks := RemapPending(userTasks, i, mapping);
      serviceTasks := map id | id in serviceTasks ::
        if serviceTasks[id].instanceId == i
        then serviceTasks[id].(nodeId := Remap(mapping, serviceTasks[id].nodeId),
          data := serviceTasks[id].data.(definitionKey := key))
        else serviceTasks[id];
      timers := RemapPending(timers, i, mapping);
      catches := RemapPending(catches, i, mapping);
    }

    method MigrateInstance(i: Uuid, key: Uuid, mapping: map<string, string>, order: MigrationOrder) returns (r: Outcome)
      modifies this
      ensures (Model(), r) == Migrate(old(Model()), i, key, mapping, order)
      ensures old(Valid()) ==> Valid()
    {
      hide Soundness.Sound, MigrationError, Migrated;
      Soundness.MigrationKeepsSound(Model(), i, key, mapping, order);
      var refused := ValidateMigration(i, key, mapping, order);
      if refused.Some? {
        return Failed(refused.value);
      }
      MigrationFindsInstance(Model(), i, key, mapping, order);
      MapInstance(i, key, mapping, order);
      r := Done;
    }

    static lemma MigrationFindsInstance(s: State, i: Uuid, key: Uuid, mapping: map<string, string>,
        order: MigrationOrder)
      requires MigrationError(s, i, key, mapping, order).None?
      ensures i in s.instances
    {}

    /** `storeOk` says whether the store accepts the deletion. */
    method RemoveInstance(i: Uuid, storeOk: bool) returns (r: Outcome)
      modifies this
      ensures (Model(), r) == DeleteInstance(old(Model()), i, storeOk)
      ensures old(Valid()) ==> Valid()
    {
      hide Soundness.Sound;
      Soundness.DeletionKeepsSound(Model(), i, storeOk);
      if i !in instances {
        return Failed(NoSuchInstance(i));
      }
      instances := instances - {i};
      if !storeOk {
        return Failed(PersistenceError);
      }
      DropPendingOf(i);
      r := Done;
    }
  }
}
