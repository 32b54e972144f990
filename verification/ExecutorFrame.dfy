/** What a batch leaves alone, on any definition: other instances, and old pending entries. */
module ExecutorFrame {
  import opened Values
  import opened Definition
  import opened EngineState
  import opened Executor

  /** `s'` follows `s` by a step of instance `i` that fires and consumes nothing. */
  ghost predicate Within(s: State, s': State, i: Uuid) {
    Sane(s') && RunsOn(s, s') && TouchesOnly(s, s', i) && KeysKept(s, s') && (i in s.instances ==> i in s'.instances)
  }

  lemma WithinTransitive(a: State, b: State, c: State, i: Uuid)
    requires Within(a, b, i) && Within(b, c, i)
    ensures Within(a, c, i)
  {
    RunsOnTransitive(a, b, c);
    TouchesOnlyTransitive(a, b, c, i);
  }

  /** Only instance `i` changes, and ids are drawn. */
  lemma InstanceWithin(s: State, i: Uuid, inst: Instance, next: Uuid)
    requires Sane(s) && i in s.instances && next >= s.nextId && inst.definitionKey == s.instances[i].definitionKey
    ensures Within(s, s.WithInstance(i, inst).(nextId := next), i)
  {}

  lemma NothingWithin(s: State, i: Uuid)
    requires Sane(s)
    ensures Within(s, s, i)
  {}

  /** `m'` is `m` without some entries of instance `i`. */
  ghost predicate Without<K>(m: map<Uuid, Entry<K>>, m': map<Uuid, Entry<K>>, i: Uuid) {
    && (forall id <- m' :: id in m && m'[id] == m[id])
    && (forall id <- m :: id !in m' ==> m[id].instanceId == i)
  }

  lemma WithoutParts<K>(m: map<Uuid, Entry<K>>, m': map<Uuid, Entry<K>>, i: Uuid, next: Uuid)
    requires Keyed(m, next) && Without(m, m', i)
    ensures Keyed(m', next) && KeptOrNew(m, m', next) && SameElsewhere(m, m', i) && forall id <- m' :: id < next
  {}

  lemma RemovalWithin(s: State, s': State, i: Uuid)
    requires Sane(s)
    requires s' == s.(userTasks := s'.userTasks, serviceTasks := s'.serviceTasks, timers := s'.timers,
      catches := s'.catches)
    requires Without(s.userTasks, s'.userTasks, i) && Without(s.serviceTasks, s'.serviceTasks, i)
    requires Without(s.timers, s'.timers, i) && Without(s.catches, s'.catches, i)
    ensures Within(s, s', i)
  {
    WithoutParts(s.userTasks, s'.userTasks, i, s.nextId);
    WithoutParts(s.serviceTasks, s'.serviceTasks, i, s.nextId);
    WithoutParts(s.timers, s'.timers, i, s.nextId);
    WithoutParts(s.catches, s'.catches, i, s.nextId);
    hide Keyed, KeptOrNew, SameElsewhere, Without;
  }

  /** `s'` adds waits of token `t` of instance `i` to `s`, with fresh ids, and nothing else. */
  ghost predicate AddsWaits(s: State, s': State, i: Uuid, t: Uuid) {
    && s' == s.(timers := s'.timers, catches := s'.catches, nextId := s'.nextId) && s.nextId <= s'.nextId
    && (forall id <- s.timers :: id in s'.timers && s'.timers[id] == s.timers[id])
    && (forall id <- s.catches :: id in s'.catches && s'.catches[id] == s.catches[id])
    && (forall id <- s'.timers :: id in s.timers ||
          (s.nextId <= id && s'.timers[id].instanceId == i && s'.timers[id].tokenId == t
           && s'.timers[id].data.origin == id && s'.timers[id].data.remaining.None?))
    && (forall id <- s'.catches :: id in s.catches ||
          (s.nextId <= id && s'.catches[id].instanceId == i && s'.catches[id].tokenId == t))
  }

  lemma AddsWaitsTransitive(a: State, b: State, c: State, i: Uuid, t: Uuid)
    requires AddsWaits(a, b, i, t) && AddsWaits(b, c, i, t)
    ensures AddsWaits(a, c, i, t)
  {}

  lemma AddTimerAdds(s: State, i: Uuid, t: Uuid, node: string, timer: TimerDefinition, env: Env)
    requires Sane(s)
    ensures var s' := AddTimer(s, i, t, node, timer, env); Sane(s') && AddsWaits(s, s', i, t)
  {}

  lemma AddCatchAdds(s: State, i: Uuid, t: Uuid, node: string, name: string)
    requires Sane(s)
    ensures var s' := AddCatch(s, i, t, node, name); Sane(s') && AddsWaits(s, s', i, t)
  {}

  lemma WaitsWithin(s: State, s': State, i: Uuid, t: Uuid)
    requires Sane(s) && Sane(s') && AddsWaits(s, s', i, t)
    ensures Within(s, s', i)
  {}

  lemma {:induction false} RegisterBoundaryAdds(s: State, d: ProcessDefinition, order: seq<string>, at: string, i: Uuid,
      t: Uuid, env: Env)
    requires Sane(s)
    ensures var s' := RegisterBoundary(s, d, order, at, i, t, env); Sane(s') && AddsWaits(s, s', i, t)
    decreases |order|
  {
    if order != [] {
      var n := order[0];
      var s1 := AddBoundary(s, d, n, at, i, t, env);
      if n in BoundaryTimersOf(d, at) {
        AddTimerAdds(s, i, t, n, d.nodes[n].timer, env);
      } else if n in BoundaryMessagesOf(d, at) {
        AddCatchAdds(s, i, t, n, d.nodes[n].messageName);
      }
      hide AddBoundary, Sane;
      RegisterBoundaryAdds(s1, d, order[1..], at, i, t, env);
      AddsWaitsTransitive(s, s1, RegisterBoundary(s1, d, order[1..], at, i, t, env), i, t);
    }
  }

  lemma {:induction false} RegisterEventsAdds(s: State, d: ProcessDefinition, flows: seq<SequenceFlow>, i: Uuid,
      t: Uuid, env: Env)
    requires Sane(s)
    ensures var s' := RegisterEvents(s, d, flows, i, t, env); Sane(s') && AddsWaits(s, s', i, t)
    decreases |flows|
  {
    if flows != [] {
      var n := flows[0].target;
      var s1 := AddEvent(s, d, n, i, t, env);
      if n in d.nodes && d.nodes[n].TimerCatchEvent? {
        AddTimerAdds(s, i, t, n, d.nodes[n].timer, env);
      } else if n in d.nodes && d.nodes[n].MessageCatchEvent? {
        AddCatchAdds(s, i, t, n, d.nodes[n].messageName);
      }
      hide AddEvent, Sane;
      RegisterEventsAdds(s1, d, flows[1..], i, t, env);
      AddsWaitsTransitive(s, s1, RegisterEvents(s1, d, flows[1..], i, t, env), i, t);
    }
  }

  // ---- Waiting ----

  lemma StoreTokenWithin(s: State, i: Uuid, tok: Token)
    requires Sane(s) && i in s.instances
    ensures Within(s, StoreToken(s, i, tok), i)
  {
    InstanceWithin(s, i, StoreToken(s, i, tok).instances[i], s.nextId);
  }

  lemma AwaitWithin(s: State, i: Uuid, waiting: InstanceState)
    requires Sane(s) && i in s.instances
    ensures Within(s, Await(s, i, waiting), i)
  {
    InstanceWithin(s, i, Await(s, i, waiting).instances[i], s.nextId);
  }

  lemma AddUserTaskWithin(s: State, i: Uuid, tok: Token, assignee: string)
    requires Sane(s)
    ensures Within(s, AddUserTask(s, i, tok, assignee), i)
  {}

  lemma AddServiceTaskWithin(s: State, i: Uuid, tok: Token, d: ProcessDefinition, topic: string)
    requires Sane(s)
    ensures Within(s, AddServiceTask(s, i, tok, d, topic), i)
  {}

  /** Stored, waits added, waiting. */
  lemma WaitPath(s: State, w: State, i: Uuid, tok: Token, waiting: InstanceState)
    requires Sane(s) && i in s.instances
    requires Within(StoreToken(s, i, tok), w, i)
    ensures Within(s, Await(w, i, waiting), i)
  {
    StoreTokenWithin(s, i, tok);
    AwaitWithin(w, i, waiting);
    hide Within;
    WithinTransitive(s, StoreToken(s, i, tok), w, i);
    WithinTransitive(s, w, Await(w, i, waiting), i);
  }

  lemma WaitTaskWithin(s: State, d: ProcessDefinition, i: Uuid, tok: Token, env: Env)
    requires Sane(s) && i in s.instances && tok.currentNode in d.nodes
    ensures d.nodes[tok.currentNode].UserTask? ==> Within(s, WaitUser(s, d, i, tok, env), i)
    ensures d.nodes[tok.currentNode].ServiceTask? ==> Within(s, WaitService(s, d, i, tok, env), i)
  {
    var s1 := StoreToken(s, i, tok);
    StoreTokenWithin(s, i, tok);
    RegisterBoundaryAdds(s1, d, d.order, tok.currentNode, i, tok.id, env);
    var b := RegisterBoundary(s1, d, d.order, tok.currentNode, i, tok.id, env);
    WaitsWithin(s1, b, i, tok.id);
    var el := d.nodes[tok.currentNode];
    if el.UserTask? {
      AddUserTaskWithin(b, i, tok, el.assignee);
      hide Within, Sane;
      WithinTransitive(s1, b, AddUserTask(b, i, tok, el.assignee), i);
      WaitPath(s, AddUserTask(b, i, tok, el.assignee), i, tok, WaitingOnUserTask(b.nextId));
    } else if el.ServiceTask? {
      AddServiceTaskWithin(b, i, tok, d, el.topic);
      hide Within, Sane;
      WithinTransitive(s1, b, AddServiceTask(b, i, tok, d, el.topic), i);
      WaitPath(s, AddServiceTask(b, i, tok, d, el.topic), i, tok, WaitingOnServiceTask(b.nextId));
    }
  }

  lemma WaitEventWithin(s: State, d: ProcessDefinition, i: Uuid, tok: Token, env: Env)
    requires Sane(s) && i in s.instances && tok.currentNode in d.nodes
    ensures d.nodes[tok.currentNode].TimerCatchEvent? ==> Within(s, WaitTimer(s, d, i, tok, env), i)
    ensures d.nodes[tok.currentNode].MessageCatchEvent? ==> Within(s, WaitMessage(s, d, i, tok), i)
    ensures Within(s, WaitEvents(s, d, i, tok, env), i)
  {
    var s1, el := StoreToken(s, i, tok), d.nodes[tok.currentNode];
    StoreTokenWithin(s, i, tok);
    RegisterEventsAdds(s1, d, d.NextNodes(tok.currentNode), i, tok.id, env);
    var w := RegisterEvents(s1, d, d.NextNodes(tok.currentNode), i, tok.id, env);
    WaitsWithin(s1, w, i, tok.id);
    WaitPath(s, w, i, tok, WaitingOnEventBasedGateway);
    if el.TimerCatchEvent? {
      AddTimerAdds(s1, i, tok.id, tok.currentNode, el.timer, env);
      var t := AddTimer(s1, i, tok.id, tok.currentNode, el.timer, env);
      WaitsWithin(s1, t, i, tok.id);
      WaitPath(s, t, i, tok, WaitingOnTimer(s.nextId));
    } else if el.MessageCatchEvent? {
      AddCatchAdds(s1, i, tok.id, tok.currentNode, el.messageName);
      var c := AddCatch(s1, i, tok.id, tok.currentNode, el.messageName);
      WaitsWithin(s1, c, i, tok.id);
      WaitPath(s, c, i, tok, WaitingOnMessage(s.nextId));
    }
  }

  lemma WaitCallWithin(s: State, d: ProcessDefinition, i: Uuid, tok: Token, env: Env)
    requires Sane(s) && i in s.instances
    ensures Within(s, WaitCall(s, d, i, tok, env), i)
  {
    RegisterBoundaryAdds(s, d, d.order, tok.currentNode, i, tok.id, env);
    var b := RegisterBoundary(s, d, d.order, tok.currentNode, i, tok.id, env);
    WaitsWithin(s, b, i, tok.id);
    var s' := WaitCall(s, d, i, tok, env);
    InstanceWithin(b, i, s'.instances[i], b.nextId + 1);
    assert s' == b.WithInstance(i, s'.instances[i]).(nextId := b.nextId + 1);
    WithinTransitive(s, b, s', i);
  }

  // ---- The other actions ----

  lemma TerminateWithin(s: State, i: Uuid)
    requires Sane(s) && i in s.instances
    ensures Within(s, TerminateInstance(s, i), i)
  {
    var s' := TerminateInstance(s, i);
    var s1 := s'.(instances := s.instances);
    RemovalWithin(s, s1, i);
    InstanceWithin(s1, i, s'.instances[i], s1.nextId);
    assert s1.WithInstance(i, s'.instances[i]).(nextId := s1.nextId) == s';
    hide Within;
    WithinTransitive(s, s1, s', i);
  }

  lemma ForkWithin(s: State, i: Uuid, tok: Token, targets: seq<string>, join: Option<string>)
    requires Sane(s) && i in s.instances
    ensures Within(s, Fork(s, i, tok, targets, join).0, i)
  {
    var s' := Fork(s, i, tok, targets, join).0;
    InstanceWithin(s, i, s'.instances[i], s'.nextId);
  }

  lemma ArriveWithin(s: State, i: Uuid, tok: Token, expected: nat, early: bool)
    requires Sane(s) && i in s.instances
    ensures Within(s, Arrive(s, i, tok, expected, early).0, i)
  {
    var s' := Arrive(s, i, tok, expected, early).0;
    InstanceWithin(s, i, s'.instances[i], s'.nextId);
    assert s' == s.WithInstance(i, s'.instances[i]).(nextId := s'.nextId);
  }

  lemma SimpleActionWithin(s: State, i: Uuid, tok: Token, end: End, main: string, spawned: seq<string>)
    requires Sane(s) && i in s.instances
    ensures Within(s, s, i) && Within(s, CompleteToken(s, i, tok, end), i)
      && Within(s, Spawned(s, tok, main, spawned).0, i)
  {
    InstanceWithin(s, i, CompleteToken(s, i, tok, end).instances[i], s.nextId);
    InstanceWithin(s, i, s.instances[i], Spawned(s, tok, main, spawned).0.nextId);
    assert s.WithInstance(i, s.instances[i]) == s;
  }

  lemma ActWithin(s: State, i: Uuid, tok: Token, rest: seq<Token>, action: Action, env: Env)
    requires Sane(s) && CanAct(s, i, tok, action)
    ensures Within(s, Act(s, i, tok, rest, action, env).0, i)
  {
    var d := s.definitions[s.instances[i].definitionKey];
    hide Within, Sane, WaitUser, WaitService, WaitTimer, WaitMessage, WaitEvents, WaitCall;
    hide Fork, Arrive, CompleteToken, Spawned, TerminateInstance;
    match action
    case Continue(node) => SimpleActionWithin(s, i, tok, Plain, "", []);
    case ContinueMultiple(targets, join) => ForkWithin(s, i, tok, targets, join);
    case WaitForJoin(expected, early) => ArriveWithin(s, i, tok, expected, early);
    case WaitForUser => WaitTaskWithin(s, d, i, tok, env);
    case WaitForServiceTask => WaitTaskWithin(s, d, i, tok, env);
    case WaitForTimer => WaitEventWithin(s, d, i, tok, env);
    case WaitForMessage => WaitEventWithin(s, d, i, tok, env);
    case WaitForEventGroup => WaitEventWithin(s, d, i, tok, env);
    case WaitForCallActivity => WaitCallWithin(s, d, i, tok, env);
    case Complete(end) => SimpleActionWithin(s, i, tok, end, "", []);
    case SpawnAndContinue(main, spawned) => SimpleActionWithin(s, i, tok, Plain, main, spawned);
    case Terminate => TerminateWithin(s, i);
  }

  lemma StepWithin(s: State, i: Uuid, head: Token, rest: seq<Token>, step: Step, env: Env)
    requires Sane(s) && CanStep(s, i, head, step)
    ensures Within(s, ApplyStep(s, i, head, rest, step, env).0, i)
  {
    InstanceWithin(s, i, Prelude(s, i, step).instances[i], s.nextId);
    var p, tok := Prelude(s, i, step), head.(variables := step.variables);
    hide Act, Within;
    WithinSane(s, p, i);
    ActWithin(p, i, tok, rest, step.action, env);
    WithinTransitive(s, p, Act(p, i, tok, rest, step.action, env).0, i);
  }

  lemma AbortWithin(s: State, i: Uuid)
    requires Sane(s)
    ensures Within(s, s, i)
    ensures i in s.instances ==>
      Within(s, s.WithInstance(i, s.instances[i].(state := CompletedWithError("EXECUTION_LIMIT_EXCEEDED"))), i)
  {
    if i in s.instances {
      InstanceWithin(s, i, s.instances[i].(state := CompletedWithError("EXECUTION_LIMIT_EXCEEDED")), s.nextId);
    }
  }

  /** Whatever steps a batch of instance `i` takes, it leaves every other instance and its pending
      entries as they were; of the old entries of `i` it changes none, it can only remove them; and
      every service task it adds is unlocked. */
  lemma {:induction false} BatchWithin(s: State, i: Uuid, queue: seq<Token>, steps: seq<Step>, env: Env, count: nat)
    requires Sane(s)
    ensures Within(s, RunBatch(s, i, queue, steps, env, count).0, i)
    decreases |steps|
  {
    hide ApplyStep, Within, Sane;
    if queue == [] || count >= MAX_EXECUTION_STEPS || steps == [] || !CanStep(s, i, queue[0], steps[0]) {
      AbortWithin(s, i);
    } else {
      var (s1, q1) := ApplyStep(s, i, queue[0], queue[1..], steps[0], env);
      StepWithin(s, i, queue[0], queue[1..], steps[0], env);
      WithinSane(s, s1, i);
      BatchWithin(s1, i, q1, steps[1..], env, count + 1);
      WithinTransitive(s, s1, RunBatch(s1, i, q1, steps[1..], env, count + 1).0, i);
    }
  }

  lemma WithinSane(s: State, s': State, i: Uuid)
    requires Within(s, s', i)
    ensures Sane(s')
  {}

  lemma RunWithin(s: State, i: Uuid, tok: Token, env: Env)
    requires Sane(s)
    ensures Within(s, Run(s, i, tok, env).0, i)
  {
    BatchWithin(s, i, [tok], env.steps, env, 0);
  }
}
