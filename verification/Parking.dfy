/** What a batch of a single step leads to when the token comes to rest: it waits in a task, for a timer,
    for a message or at an event-based gateway, or it ends (engine-core/src/engine/executor/next_action.rs). */
module Parking {
  import opened Values
  import opened Definition
  import opened EngineState
  import opened Executor
  import opened Endings

  /** The action with which a token rests at an element, if it does. */
  function RestAction(el: BpmnElement): Option<Action> {
    if el.UserTask? then Some(WaitForUser)
    else if el.ServiceTask? then Some(WaitForServiceTask)
    else if el.TimerCatchEvent? then Some(WaitForTimer)
    else if el.MessageCatchEvent? then Some(WaitForMessage)
    else if el.EventBasedGateway? then Some(WaitForEventGroup)
    else if el.EndEvent? then Some(Complete(Plain))
    else None
  }

  ghost predicate RestsAt(d: ProcessDefinition, node: string) {
    node in d.nodes && RestAction(d.nodes[node]).Some? && (d.nodes[node].EventBasedGateway? ==> LeadsToCatches(d, node))
  }

  /** Token `tok` comes to rest with `step`. */
  ghost predicate Rests(d: ProcessDefinition, tok: Token, step: Step) {
    RestsAt(d, tok.currentNode) && step.action == RestAction(d.nodes[tok.currentNode]).value
      && step.variables == tok.variables
  }

  /** The entries of `before` are all there, and new ones belong to token `t` of instance `i`. */
  ghost predicate OnlyFor<K>(before: map<Uuid, Entry<K>>, after: map<Uuid, Entry<K>>, i: Uuid, t: Uuid) {
    && (forall id <- before :: id in after && after[id] == before[id])
    && (forall id <- after :: id in before || (after[id].instanceId == i && after[id].tokenId == t))
  }

  ghost predicate OnlyWorkFor(s: State, s': State, i: Uuid, t: Uuid) {
    && OnlyFor(s.userTasks, s'.userTasks, i, t) && OnlyFor(s.serviceTasks, s'.serviceTasks, i, t)
    && OnlyFor(s.timers, s'.timers, i, t) && OnlyFor(s.catches, s'.catches, i, t)
  }

  ghost predicate For<K>(e: Entry<K>, i: Uuid, node: string, t: Uuid, data: K) {
    e.instanceId == i && e.nodeId == node && e.tokenId == t && e.data == data
  }

  ghost predicate HasUserTask(s: State, i: Uuid, tok: Token, assignee: string) {
    exists id <- s.userTasks :: For(s.userTasks[id], i, tok.currentNode, tok.id, UserInfo(assignee))
  }

  /** A new service task is unlocked and has three retries. */
  ghost predicate HasServiceTask(s: State, d: ProcessDefinition, i: Uuid, tok: Token, topic: string) {
    exists id <- s.serviceTasks ::
      For(s.serviceTasks[id], i, tok.currentNode, tok.id, ServiceInfo(d.key, topic, None, None, 3, None, None))
  }

  /** A timer set at time `env.now` is due after its duration or interval, at its date when that is still
      to come, or when the cron library says; and at once when none of these gives a time. */
  ghost predicate DueFrom(at: Time, timer: TimerDefinition, env: Env) {
    && (timer.Duration? ==> at == env.now + if timer.secs <= 9_223_372_036_854_775 then timer.secs else 0)
    && (timer.RepeatingInterval? ==>
       at == env.now + if timer.interval <= 9_223_372_036_854_775 then timer.interval else 0)
    && (timer.AbsoluteDate? && env.now < timer.at ==> at == timer.at)
    && (timer.AbsoluteDate? && timer.at <= env.now ==> at == env.now)
    && (timer.CronCycle? && env.cron(timer.expression, env.now).Some? ==>
       env.cron(timer.expression, env.now) == Some(at))
    && (timer.CronCycle? && env.cron(timer.expression, env.now).None? ==> at == env.now)
  }

  /** A timer without a limit waits for the token at `node`, and is due as its definition says. */
  ghost predicate HasTimer(s: State, i: Uuid, node: string, t: Uuid, timer: TimerDefinition, env: Env) {
    exists id <- s.timers :: s.timers[id].instanceId == i && s.timers[id].nodeId == node && s.timers[id].tokenId == t
                             && s.timers[id].data.timerDef == Some(timer) && s.timers[id].data.remaining.None?
                             && DueFrom(s.timers[id].data.expiresAt, timer, env)
  }

  ghost predicate HasCatch(s: State, i: Uuid, node: string, t: Uuid, name: string) {
    exists id <- s.catches :: For(s.catches[id], i, node, t, CatchInfo(name))
  }

  /** Node `n` is a boundary timer attached to `node`. */
  predicate TimerOn(d: ProcessDefinition, n: string, node: string) {
    n in d.nodes && d.nodes[n].BoundaryTimerEvent? && d.nodes[n].attachedTo == node
  }

  /** Node `n` is a boundary message attached to `node`. */
  predicate MessageOn(d: ProcessDefinition, n: string, node: string) {
    n in d.nodes && d.nodes[n].BoundaryMessageEvent? && d.nodes[n].attachedTo == node
  }

  /** The boundary timers and messages of `node` wait for token `t`. */
  ghost predicate HasBoundary(s: State, d: ProcessDefinition, order: seq<string>, i: Uuid, node: string, t: Uuid,
      env: Env) {
    && (forall n <- order :: TimerOn(d, n, node) ==> HasTimer(s, i, n, t, d.nodes[n].timer, env))
    && (forall n <- order :: MessageOn(d, n, node) ==> HasCatch(s, i, n, t, d.nodes[n].messageName))
  }

  /** The alternatives of an event-based gateway wait for token `t`. */
  ghost predicate HasEvents(s: State, d: ProcessDefinition, flows: seq<SequenceFlow>, i: Uuid, t: Uuid, env: Env) {
    && (forall f <- flows :: f.target in d.nodes && d.nodes[f.target].TimerCatchEvent? ==>
          HasTimer(s, i, f.target, t, d.nodes[f.target].timer, env))
    && (forall f <- flows :: f.target in d.nodes && d.nodes[f.target].MessageCatchEvent? ==>
          HasCatch(s, i, f.target, t, d.nodes[f.target].messageName))
  }

  /** The work a resting token waits in. */
  ghost predicate HasWork(s: State, d: ProcessDefinition, i: Uuid, tok: Token, env: Env)
    requires tok.currentNode in d.nodes
  {
    match d.nodes[tok.currentNode]
    case UserTask(assignee) =>
      HasUserTask(s, i, tok, assignee) && HasBoundary(s, d, d.order, i, tok.currentNode, tok.id, env)
    case ServiceTask(topic) =>
      HasServiceTask(s, d, i, tok, topic) && HasBoundary(s, d, d.order, i, tok.currentNode, tok.id, env)
    case TimerCatchEvent(timer) => HasTimer(s, i, tok.currentNode, tok.id, timer, env)
    case MessageCatchEvent(name) => HasCatch(s, i, tok.currentNode, tok.id, name)
    case EventBasedGateway => HasEvents(s, d, d.NextNodes(tok.currentNode), i, tok.id, env)
    case _ => true
  }

  /** Node `n` is one at which a timer waits for a token that rests at `at`. */
  ghost predicate TimerNode(d: ProcessDefinition, at: string, n: string)
    requires at in d.nodes
  {
    match d.nodes[at]
    case UserTask(_) => TimerOn(d, n, at)
    case ServiceTask(_) => TimerOn(d, n, at)
    case TimerCatchEvent(_) => n == at
    case EventBasedGateway => Alternative(d, d.NextNodes(at), n, true)
    case _ => false
  }

  /** Node `n` is one at which a message catch waits for a token that rests at `at`. */
  ghost predicate MessageNode(d: ProcessDefinition, at: string, n: string)
    requires at in d.nodes
  {
    match d.nodes[at]
    case UserTask(_) => MessageOn(d, n, at)
    case ServiceTask(_) => MessageOn(d, n, at)
    case MessageCatchEvent(_) => n == at
    case EventBasedGateway => Alternative(d, d.NextNodes(at), n, false)
    case _ => false
  }

  /** Only the waits of a token that rests at `at` were added. */
  ghost predicate OnlyWaits(s: State, s': State, d: ProcessDefinition, at: string)
    requires at in d.nodes
  {
    && (forall id <- s'.timers :: id in s.timers || TimerNode(d, at, s'.timers[id].nodeId))
    && (forall id <- s'.catches :: id in s.catches || MessageNode(d, at, s'.catches[id].nodeId))
  }

  ghost predicate BelongsTo<K>(m: map<Uuid, Entry<K>>, id: Uuid, i: Uuid, tok: Token) {
    id in m && m[id].instanceId == i && m[id].nodeId == tok.currentNode && m[id].tokenId == tok.id
  }

  /** The state of an instance names the work in which its only token waits. */
  ghost predicate WaitsIn(s: State, i: Uuid, tok: Token, el: BpmnElement, state: InstanceState) {
    match el
    case UserTask(_) => state.WaitingOnUserTask? && BelongsTo(s.userTasks, state.task, i, tok)
    case ServiceTask(_) => state.WaitingOnServiceTask? && BelongsTo(s.serviceTasks, state.task, i, tok)
    case TimerCatchEvent(_) => state.WaitingOnTimer? && BelongsTo(s.timers, state.timer, i, tok)
    case MessageCatchEvent(_) => state.WaitingOnMessage? && BelongsTo(s.catches, state.message, i, tok)
    case _ => state == WaitingOnEventBasedGateway
  }

  /** The token waits: it is stored, the instance shows its node and, unless several branches are active,
      names its work. */
  ghost predicate RestsWaiting(inst: Instance, s': State, i: Uuid, tok: Token, el: BpmnElement, synced: Variables)
    requires i in s'.instances
  {
    var inst' := s'.instances[i];
    && inst' == inst.(variables := synced, tokens := inst.tokens[tok.id := tok], currentNode := tok.currentNode,
                      state := inst'.state)
    && (inst.state.ParallelExecution? ==> inst'.state == inst.state)
    && (!inst.state.ParallelExecution? ==> WaitsIn(s', i, tok, el, inst'.state))
  }

  /** At an end event the token ends, at every other element it waits. */
  ghost predicate RestsAs(inst: Instance, s': State, i: Uuid, tok: Token, el: BpmnElement, synced: Variables)
    requires i in s'.instances
  {
    && (el.EndEvent? ==> TokenEnded(inst.(variables := synced, currentNode := s'.instances[i].currentNode),
                                    s'.instances[i], tok.id, el))
    && (!el.EndEvent? ==> RestsWaiting(inst, s', i, tok, el, synced))
  }

  /** No pending work came or went. */
  ghost predicate SameWork(s: State, s': State) {
    s'.userTasks == s.userTasks && s'.serviceTasks == s.serviceTasks && s'.timers == s.timers && s'.catches == s.catches
  }

  /** The token rests: it ended or waits, and has its work; nothing else is touched. */
  ghost predicate Rested(s: State, s': State, i: Uuid, tok: Token, synced: Variables, env: Env) {
    && i in s.instances && i in s'.instances && s'.definitions == s.definitions && s'.fired == s.fired
       && s'.consumed == s.consumed
    && s'.instances == s.instances[i := s'.instances[i]] && s.nextId <= s'.nextId && Sane(s')
    && s.instances[i].definitionKey in s.definitions && tok.currentNode in DefOf(s, i).nodes
    && RestsAs(s.instances[i], s', i, tok, DefOf(s, i).nodes[tok.currentNode], synced)
    && (DefOf(s, i).nodes[tok.currentNode].EndEvent? ==> SameWork(s, s'))
    && OnlyWorkFor(s, s', i, tok.id) && OnlyWaits(s, s', DefOf(s, i), tok.currentNode)
    && HasWork(s', DefOf(s, i), i, tok, env)
  }

  // ---- Adding waits ----

  lemma HasTimerLater(s: State, s': State, i: Uuid, node: string, t: Uuid, timer: TimerDefinition, env: Env)
    requires HasTimer(s, i, node, t, timer, env) && forall id <- s.timers ::
      id in s'.timers && s'.timers[id] == s.timers[id]
    ensures HasTimer(s', i, node, t, timer, env)
  {
    var id :| id in s.timers && s.timers[id].instanceId == i && s.timers[id].nodeId == node && s.timers[id].tokenId == t
              && s.timers[id].data.timerDef == Some(timer) && s.timers[id].data.remaining.None?
              && DueFrom(s.timers[id].data.expiresAt, timer, env);
    assert s'.timers[id] == s.timers[id];
  }

  lemma HasCatchLater(s: State, s': State, i: Uuid, node: string, t: Uuid, name: string)
    requires HasCatch(s, i, node, t, name) && forall id <- s.catches ::
      id in s'.catches && s'.catches[id] == s.catches[id]
    ensures HasCatch(s', i, node, t, name)
  {
    var id :| id in s.catches && For(s.catches[id], i, node, t, CatchInfo(name));
    assert s'.catches[id] == s.catches[id];
  }

  lemma AddTimerAdds(s: State, i: Uuid, t: Uuid, node: string, timer: TimerDefinition, env: Env)
    requires Sane(s)
    ensures var r := AddTimer(s, i, t, node, timer, env);
      HasTimer(r, i, node, t, timer, env) && OnlyWorkFor(s, r, i, t) && Sane(r) && r.nextId == s.nextId + 1
        && r == s.(timers := r.timers, nextId := r.nextId)
  {
    var r := AddTimer(s, i, t, node, timer, env);
    assert r.timers[s.nextId].nodeId == node;
  }

  lemma AddCatchAdds(s: State, i: Uuid, t: Uuid, node: string, name: string)
    requires Sane(s)
    ensures var r := AddCatch(s, i, t, node, name);
      HasCatch(r, i, node, t, name) && OnlyWorkFor(s, r, i, t) && Sane(r) && r.nextId == s.nextId + 1
        && r == s.(catches := r.catches, nextId := r.nextId)
  {
    var r := AddCatch(s, i, t, node, name);
    assert For(r.catches[s.nextId], i, node, t, CatchInfo(name));
  }

  lemma OnlyWorkThen(a: State, b: State, c: State, i: Uuid, t: Uuid)
    requires OnlyWorkFor(a, b, i, t) && OnlyWorkFor(b, c, i, t)
    ensures OnlyWorkFor(a, c, i, t)
  {}

  lemma NoWork(s: State, i: Uuid, t: Uuid)
    ensures OnlyWorkFor(s, s, i, t)
  {}

  /** Only waits are added to the state, and ids drawn. */
  ghost predicate WaitsAdded(s: State, r: State, i: Uuid, t: Uuid) {
    && OnlyWorkFor(s, r, i, t) && Sane(r) && s.nextId <= r.nextId
    && r == s.(timers := r.timers, catches := r.catches, nextId := r.nextId)
  }

  lemma WaitsAddedThen(a: State, b: State, c: State, i: Uuid, t: Uuid, env: Env)
    requires WaitsAdded(a, b, i, t) && WaitsAdded(b, c, i, t)
    ensures WaitsAdded(a, c, i, t)
    ensures forall node, timer :: HasTimer(b, i, node, t, timer, env) ==> HasTimer(c, i, node, t, timer, env)
    ensures forall node, name :: HasCatch(b, i, node, t, name) ==> HasCatch(c, i, node, t, name)
  {
    OnlyWorkThen(a, b, c, i, t);
    assert (forall id <- b.timers :: id in c.timers && c.timers[id] == b.timers[id])
        && (forall id <- b.catches :: id in c.catches && c.catches[id] == b.catches[id]);
    hide Sane, OnlyWorkFor, HasTimer, HasCatch;
    forall node, timer | HasTimer(b, i, node, t, timer, env) ensures HasTimer(c, i, node, t, timer, env) {
      HasTimerLater(b, c, i, node, t, timer, env);
    }
    forall node, name | HasCatch(b, i, node, t, name) ensures HasCatch(c, i, node, t, name) {
      HasCatchLater(b, c, i, node, t, name);
    }
  }

  lemma AddBoundaryAdds(s: State, d: ProcessDefinition, n: string, at: string, i: Uuid, t: Uuid, env: Env)
    requires Sane(s)
    ensures var r := AddBoundary(s, d, n, at, i, t, env);
      WaitsAdded(s, r, i, t) && HasBoundary(r, d, [n], i, at, t, env)
  {
    hide AddTimer, AddCatch, HasTimer, HasCatch, OnlyWorkFor, Sane;
    NoWork(s, i, t);
    if n in BoundaryTimersOf(d, at) {
      AddTimerAdds(s, i, t, n, d.nodes[n].timer, env);
    } else if n in BoundaryMessagesOf(d, at) {
      AddCatchAdds(s, i, t, n, d.nodes[n].messageName);
    }
  }

  lemma BoundaryJoined(s: State, d: ProcessDefinition, n: string, rest: seq<string>, i: Uuid, node: string, t: Uuid,
      env: Env)
    requires HasBoundary(s, d, [n], i, node, t, env) && HasBoundary(s, d, rest, i, node, t, env)
    ensures HasBoundary(s, d, [n] + rest, i, node, t, env)
  {
    assert n in [n];
    hide HasTimer, HasCatch;
  }

  lemma BoundaryLater(a: State, b: State, c: State, d: ProcessDefinition, order: seq<string>, i: Uuid, node: string,
      t: Uuid, env: Env)
    requires WaitsAdded(a, b, i, t) && WaitsAdded(b, c, i, t) && HasBoundary(b, d, order, i, node, t, env)
    ensures WaitsAdded(a, c, i, t) && HasBoundary(c, d, order, i, node, t, env)
  {
    WaitsAddedThen(a, b, c, i, t, env);
    hide HasTimer, HasCatch, WaitsAdded;
  }

  lemma {:induction false} RegisterBoundaryAdds(s: State, d: ProcessDefinition, order: seq<string>, at: string, i: Uuid,
      t: Uuid, env: Env)
    requires Sane(s)
    ensures var r := RegisterBoundary(s, d, order, at, i, t, env);
      WaitsAdded(s, r, i, t) && HasBoundary(r, d, order, i, at, t, env)
    decreases |order|
  {
    if order == [] {
      NoWork(s, i, t);
    } else {
      var s1 := AddBoundary(s, d, order[0], at, i, t, env);
      AddBoundaryAdds(s, d, order[0], at, i, t, env);
      var r := RegisterBoundary(s1, d, order[1..], at, i, t, env);
      AddedSane(s, s1, i, t);
      hide AddBoundary, WaitsAdded, HasBoundary;
      RegisterBoundaryAdds(s1, d, order[1..], at, i, t, env);
      BoundaryLater(s, s1, r, d, [order[0]], i, at, t, env);
      BoundaryJoined(r, d, order[0], order[1..], i, at, t, env);
      assert [order[0]] + order[1..] == order;
    }
  }

  /** What was added by one step stays as it is in the next. */
  lemma AddedStays(a: State, b: State, c: State, i: Uuid, t: Uuid)
    requires WaitsAdded(b, c, i, t)
    ensures forall id <- b.timers :: id in c.timers && c.timers[id] == b.timers[id]
    ensures forall id <- b.catches :: id in c.catches && c.catches[id] == b.catches[id]
  {}

  /** Every wait that was added is one of a boundary event of `at`. */
  ghost predicate BoundaryOnly(s: State, r: State, d: ProcessDefinition, at: string) {
    && (forall id <- r.timers :: id in s.timers || TimerOn(d, r.timers[id].nodeId, at))
    && (forall id <- r.catches :: id in s.catches || MessageOn(d, r.catches[id].nodeId, at))
  }

  lemma AddBoundaryOnly(s: State, d: ProcessDefinition, n: string, at: string, i: Uuid, t: Uuid, env: Env)
    ensures BoundaryOnly(s, AddBoundary(s, d, n, at, i, t, env), d, at)
  {}

  lemma BoundaryOnlyThen(a: State, b: State, c: State, d: ProcessDefinition, at: string)
    requires BoundaryOnly(a, b, d, at) && BoundaryOnly(b, c, d, at)
    requires forall id <- b.timers :: id in c.timers && c.timers[id] == b.timers[id]
    requires forall id <- b.catches :: id in c.catches && c.catches[id] == b.catches[id]
    ensures BoundaryOnly(a, c, d, at)
  {
    hide TimerOn, MessageOn;
  }

  /** Registering the boundary events of a node adds the waits of those events alone. */
  lemma {:induction false} RegisterBoundaryOnly(s: State, d: ProcessDefinition, order: seq<string>, at: string, i: Uuid,
      t: Uuid, env: Env)
    requires Sane(s)
    ensures BoundaryOnly(s, RegisterBoundary(s, d, order, at, i, t, env), d, at)
    decreases |order|
  {
    if order != [] {
      var s1 := AddBoundary(s, d, order[0], at, i, t, env);
      AddBoundaryOnly(s, d, order[0], at, i, t, env);
      AddBoundaryAdds(s, d, order[0], at, i, t, env);
      AddedSane(s, s1, i, t);
      var r := RegisterBoundary(s1, d, order[1..], at, i, t, env);
      assert RegisterBoundary(s, d, order, at, i, t, env) == r;
      hide AddBoundary, WaitsAdded, HasBoundary, Sane, BoundaryOnly, RegisterBoundary;
      RegisterBoundaryOnly(s1, d, order[1..], at, i, t, env);
      RegisterBoundaryAdds(s1, d, order[1..], at, i, t, env);
      AddedStays(s, s1, r, i, t);
      BoundaryOnlyThen(s, s1, r, d, at);
    }
  }

  /** One of the flows leads to the timer, or the message, at node `n`. */
  ghost predicate Alternative(d: ProcessDefinition, flows: seq<SequenceFlow>, n: string, timer: bool) {
    && n in d.nodes && (if timer then d.nodes[n].TimerCatchEvent? else d.nodes[n].MessageCatchEvent?)
    && exists k :: 0 <= k < |flows| && flows[k].target == n
  }

  lemma AlternativeLater(d: ProcessDefinition, flows: seq<SequenceFlow>, n: string, timer: bool)
    requires flows != [] && Alternative(d, flows[1..], n, timer)
    ensures Alternative(d, flows, n, timer)
  {
    var k :| 0 <= k < |flows[1..]| && flows[1..][k].target == n;
    assert flows[k + 1].target == n;
  }

  /** Every wait that was added is one of the alternatives. */
  ghost predicate EventsOnly(s: State, r: State, d: ProcessDefinition, flows: seq<SequenceFlow>) {
    && (forall id <- r.timers :: id in s.timers || Alternative(d, flows, r.timers[id].nodeId, true))
    && (forall id <- r.catches :: id in s.catches || Alternative(d, flows, r.catches[id].nodeId, false))
  }

  lemma AddEventOnly(s: State, d: ProcessDefinition, flows: seq<SequenceFlow>, i: Uuid, t: Uuid, env: Env)
    requires flows != []
    ensures EventsOnly(s, AddEvent(s, d, flows[0].target, i, t, env), d, flows)
  {
    assert flows[0].target == flows[0].target;
  }

  lemma EventsOnlyThen(a: State, b: State, c: State, d: ProcessDefinition, flows: seq<SequenceFlow>)
    requires flows != [] && EventsOnly(a, b, d, flows) && EventsOnly(b, c, d, flows[1..])
    requires forall id <- b.timers :: id in c.timers && c.timers[id] == b.timers[id]
    requires forall id <- b.catches :: id in c.catches && c.catches[id] == b.catches[id]
    ensures EventsOnly(a, c, d, flows)
  {
    hide Alternative;
    forall id | id in c.timers && id !in b.timers ensures Alternative(d, flows, c.timers[id].nodeId, true) {
      AlternativeLater(d, flows, c.timers[id].nodeId, true);
    }
    forall id | id in c.catches && id !in b.catches ensures Alternative(d, flows, c.catches[id].nodeId, false) {
      AlternativeLater(d, flows, c.catches[id].nodeId, false);
    }
  }

  /** Registering the alternatives of an event-based gateway adds the waits of those alone. */
  lemma {:induction false} RegisterEventsOnly(s: State, d: ProcessDefinition, flows: seq<SequenceFlow>, i: Uuid,
      t: Uuid, env: Env)
    requires Sane(s)
    ensures EventsOnly(s, RegisterEvents(s, d, flows, i, t, env), d, flows)
    decreases |flows|
  {
    if flows != [] {
      var s1 := AddEvent(s, d, flows[0].target, i, t, env);
      var r := RegisterEvents(s1, d, flows[1..], i, t, env);
      AddEventOnly(s, d, flows, i, t, env);
      AddEventAdds(s, d, flows[0], i, t, env);
      AddedSane(s, s1, i, t);
      assert RegisterEvents(s, d, flows, i, t, env) == r;
      hide AddEvent, WaitsAdded, HasEvents, Sane, EventsOnly, RegisterEvents;
      RegisterEventsOnly(s1, d, flows[1..], i, t, env);
      RegisterEventsAdds(s1, d, flows[1..], i, t, env);
      AddedStays(s, s1, r, i, t);
      EventsOnlyThen(s, s1, r, d, flows);
    }
  }

  lemma AddedSane(s: State, r: State, i: Uuid, t: Uuid)
    requires WaitsAdded(s, r, i, t)
    ensures Sane(r) && s.nextId <= r.nextId
  {}

  lemma AddEventAdds(s: State, d: ProcessDefinition, f: SequenceFlow, i: Uuid, t: Uuid, env: Env)
    requires Sane(s)
    ensures var r := AddEvent(s, d, f.target, i, t, env); WaitsAdded(s, r, i, t) && HasEvents(r, d, [f], i, t, env)
  {
    hide AddTimer, AddCatch, HasTimer, HasCatch, OnlyWorkFor, Sane;
    NoWork(s, i, t);
    if f.target in d.nodes && d.nodes[f.target].TimerCatchEvent? {
      AddTimerAdds(s, i, t, f.target, d.nodes[f.target].timer, env);
    } else if f.target in d.nodes && d.nodes[f.target].MessageCatchEvent? {
      AddCatchAdds(s, i, t, f.target, d.nodes[f.target].messageName);
    }
  }

  lemma EventsJoined(s: State, d: ProcessDefinition, f: SequenceFlow, rest: seq<SequenceFlow>, i: Uuid, t: Uuid,
      env: Env)
    requires HasEvents(s, d, [f], i, t, env) && HasEvents(s, d, rest, i, t, env)
    ensures HasEvents(s, d, [f] + rest, i, t, env)
  {
    assert f in [f];
    hide HasTimer, HasCatch;
  }

  lemma EventsLater(a: State, b: State, c: State, d: ProcessDefinition, flows: seq<SequenceFlow>, i: Uuid, t: Uuid,
      env: Env)
    requires WaitsAdded(a, b, i, t) && WaitsAdded(b, c, i, t) && HasEvents(b, d, flows, i, t, env)
    ensures WaitsAdded(a, c, i, t) && HasEvents(c, d, flows, i, t, env)
  {
    WaitsAddedThen(a, b, c, i, t, env);
    hide HasTimer, HasCatch, WaitsAdded;
  }

  lemma {:induction false} RegisterEventsAdds(s: State, d: ProcessDefinition, flows: seq<SequenceFlow>, i: Uuid,
      t: Uuid, env: Env)
    requires Sane(s)
    ensures var r := RegisterEvents(s, d, flows, i, t, env); WaitsAdded(s, r, i, t) && HasEvents(r, d, flows, i, t, env)
    decreases |flows|
  {
    if flows == [] {
      NoWork(s, i, t);
    } else {
      var s1 := AddEvent(s, d, flows[0].target, i, t, env);
      AddEventAdds(s, d, flows[0], i, t, env);
      var r := RegisterEvents(s1, d, flows[1..], i, t, env);
      AddedSane(s, s1, i, t);
      hide AddEvent, WaitsAdded, HasEvents;
      RegisterEventsAdds(s1, d, flows[1..], i, t, env);
      EventsLater(s, s1, r, d, [flows[0]], i, t, env);
      EventsJoined(r, d, flows[0], flows[1..], i, t, env);
      assert [flows[0]] + flows[1..] == flows;
    }
  }

  // ---- One step ----

  /** A batch whose one step leaves nothing in its queue. */
  lemma OneStep(s: State, i: Uuid, tok: Token, step: Step, env: Env, count: nat)
    requires CanStep(s, i, tok, step) && step.variables == tok.variables && count < MAX_EXECUTION_STEPS
    requires Act(Prelude(s, i, step), i, tok, [], step.action, env).1 == []
    ensures RunBatch(s, i, [tok], [step], env, count)
      == (Act(Prelude(s, i, step), i, tok, [], step.action, env).0, Done)
  {
    var w := Act(Prelude(s, i, step), i, tok, [], step.action, env).0;
    assert tok.(variables := step.variables) == tok;
    assert ApplyStep(s, i, tok, [], step, env) == (w, []);
    assert RunBatch(w, i, [], [], env, count + 1) == (w, Done);
    assert [tok][1..] == [] && [step][1..] == [];
    hide Act, ApplyStep, CanStep;
  }

  /** The instance after its token was stored and work was added for it. */
  lemma StoredRests(s: State, p: State, w: State, i: Uuid, tok: Token, synced: Variables, waiting: InstanceState,
      env: Env)
    requires Sane(s) && i in s.instances && s.instances[i].definitionKey in s.definitions
      && RestsAt(DefOf(s, i), tok.currentNode)
    requires !DefOf(s, i).nodes[tok.currentNode].EndEvent?
    requires p.instances == s.instances[i := StoreToken(s.WithInstance(i, s.instances[i].(variables := synced)), i,
      tok).instances[i]]
    requires w.instances == p.instances && w.definitions == s.definitions && w.fired == s.fired
      && w.consumed == s.consumed
    requires IdsOk(w) && s.nextId <= w.nextId && OnlyWorkFor(s, w, i, tok.id) && HasWork(w, DefOf(s, i), i, tok, env)
    requires OnlyWaits(s, w, DefOf(s, i), tok.currentNode)
    requires WaitsIn(w, i, tok, DefOf(s, i).nodes[tok.currentNode], waiting)
    ensures Rested(s, Await(w, i, waiting), i, tok, synced, env)
  {
    var r := Await(w, i, waiting);
    assert r == w.WithInstance(i, r.instances[i]);
    HasWorkSame(w, r, DefOf(s, i), i, tok, env);
    hide HasWork, HasTimer, HasCatch;
  }

  lemma HasWorkSame(w: State, r: State, d: ProcessDefinition, i: Uuid, tok: Token, env: Env)
    requires tok.currentNode in d.nodes && HasWork(w, d, i, tok, env)
    requires r.userTasks == w.userTasks && r.serviceTasks == w.serviceTasks && r.timers == w.timers
      && r.catches == w.catches
    ensures HasWork(r, d, i, tok, env)
  {}

  /** What the state looks like when the token is stored, before its work is added. */
  lemma StoreStep(s: State, i: Uuid, tok: Token, step: Step)
    requires Sane(s) && i in s.instances
    ensures var p := StoreToken(Prelude(s, i, step), i, tok);
      && Sane(p) && p == s.(instances := p.instances)
      && p.instances == s.instances[i := StoreToken(s.WithInstance(i, s.instances[i].(variables := step.synced)), i,
         tok).instances[i]]
  {}

  lemma BoundarySame(s: State, r: State, d: ProcessDefinition, order: seq<string>, i: Uuid, node: string, t: Uuid,
      env: Env)
    requires HasBoundary(s, d, order, i, node, t, env) && r.timers == s.timers && r.catches == s.catches
    ensures HasBoundary(r, d, order, i, node, t, env)
  {}

  lemma AddTaskAdds(b: State, i: Uuid, tok: Token, d: ProcessDefinition, assignee: string, topic: string)
    requires Sane(b)
    ensures var u := AddUserTask(b, i, tok, assignee);
      && HasUserTask(u, i, tok, assignee) && OnlyWorkFor(b, u, i, tok.id) && Sane(u)
         && u == b.(userTasks := u.userTasks, nextId := b.nextId + 1) && BelongsTo(u.userTasks, b.nextId, i, tok)
    ensures var v := AddServiceTask(b, i, tok, d, topic);
      && HasServiceTask(v, d, i, tok, topic) && OnlyWorkFor(b, v, i, tok.id) && Sane(v)
      && v == b.(serviceTasks := v.serviceTasks, nextId := b.nextId + 1) && BelongsTo(v.serviceTasks, b.nextId, i, tok)
  {
    assert For(AddUserTask(b, i, tok, assignee).userTasks[b.nextId], i, tok.currentNode, tok.id, UserInfo(assignee));
    assert For(AddServiceTask(b, i, tok, d, topic).serviceTasks[b.nextId], i, tok.currentNode, tok.id,
               ServiceInfo(d.key, topic, None, None, 3, None, None));
  }

  /** Boundary events are registered for a stored token. */
  lemma StoredWithBoundary(s: State, i: Uuid, tok: Token, step: Step, d: ProcessDefinition, env: Env)
    requires Sane(s) && i in s.instances
    ensures var p := StoreToken(Prelude(s, i, step), i, tok);
      var b := RegisterBoundary(p, d, d.order, tok.currentNode, i, tok.id, env);
      && Sane(b) && s.nextId <= b.nextId && OnlyWorkFor(s, b, i, tok.id)
         && HasBoundary(b, d, d.order, i, tok.currentNode, tok.id, env)
      && b.instances == p.instances && b.definitions == s.definitions && b.fired == s.fired && b.consumed == s.consumed
      && BoundaryOnly(s, b, d, tok.currentNode)
  {
    var p := StoreToken(Prelude(s, i, step), i, tok);
    StoreStep(s, i, tok, step);
    RegisterBoundaryOnly(p, d, d.order, tok.currentNode, i, tok.id, env);
    RegisterBoundaryAdds(p, d, d.order, tok.currentNode, i, tok.id, env);
    var b := RegisterBoundary(p, d, d.order, tok.currentNode, i, tok.id, env);
    NoWork(p, i, tok.id);
    assert OnlyWorkFor(s, p, i, tok.id);
    OnlyWorkThen(s, p, b, i, tok.id);
    hide RegisterBoundary, StoreToken, HasBoundary, OnlyWorkFor, Sane;
  }

  lemma TaskWaits(s: State, b: State, w: State, d: ProcessDefinition, at: string)
    requires BoundaryOnly(s, b, d, at) && w.timers == b.timers && w.catches == b.catches
    requires at in d.nodes && (d.nodes[at].UserTask? || d.nodes[at].ServiceTask?)
    ensures OnlyWaits(s, w, d, at)
  {}

  lemma UserRests(s: State, i: Uuid, tok: Token, step: Step, env: Env)
    requires Sane(s) && i in s.instances && s.instances[i].definitionKey in s.definitions
      && !s.instances[i].state.Suspended?
    requires Rests(DefOf(s, i), tok, step) && step.action.WaitForUser?
    ensures var (w, q) := Act(Prelude(s, i, step), i, tok, [], step.action, env);
      q == [] && Rested(s, w, i, tok, step.synced, env)
  {
    var d, at := DefOf(s, i), tok.currentNode;
    var p := StoreToken(Prelude(s, i, step), i, tok);
    var b := RegisterBoundary(p, d, d.order, at, i, tok.id, env);
    var w := AddUserTask(b, i, tok, d.nodes[at].assignee);
    assert Act(Prelude(s, i, step), i, tok, [], step.action, env) == (Await(w, i, WaitingOnUserTask(b.nextId)), []) by {
      hide StoreToken, RegisterBoundary, AddUserTask, Await, Sane;
    }
    hide Act, OnlyWorkFor, HasUserTask, HasBoundary, RegisterBoundary, AddUserTask, StoreToken, Await, Sane;
    hide Prelude, Rested, OnlyWaits, BoundaryOnly;
    StoreStep(s, i, tok, step);
    StoredWithBoundary(s, i, tok, step, d, env);
    AddTaskAdds(b, i, tok, d, d.nodes[at].assignee, "");
    OnlyWorkThen(s, b, w, i, tok.id);
    BoundarySame(b, w, d, d.order, i, at, tok.id, env);
    SaneIds(w);
    TaskWaits(s, b, w, d, at);
    StoredRests(s, p, w, i, tok, step.synced, WaitingOnUserTask(b.nextId), env);
  }

  lemma ServiceRests(s: State, i: Uuid, tok: Token, step: Step, env: Env)
    requires Sane(s) && i in s.instances && s.instances[i].definitionKey in s.definitions
      && !s.instances[i].state.Suspended?
    requires Rests(DefOf(s, i), tok, step) && step.action.WaitForServiceTask?
    ensures var (w, q) := Act(Prelude(s, i, step), i, tok, [], step.action, env);
      q == [] && Rested(s, w, i, tok, step.synced, env)
  {
    var d, at := DefOf(s, i), tok.currentNode;
    var p := StoreToken(Prelude(s, i, step), i, tok);
    var b := RegisterBoundary(p, d, d.order, at, i, tok.id, env);
    var w := AddServiceTask(b, i, tok, d, d.nodes[at].topic);
    assert Act(Prelude(s, i, step), i, tok, [], step.action, env)
      == (Await(w, i, WaitingOnServiceTask(b.nextId)), []) by {
      hide StoreToken, RegisterBoundary, AddServiceTask, Await, Sane;
    }
    hide Act, OnlyWorkFor, HasServiceTask, HasBoundary, RegisterBoundary, AddServiceTask, StoreToken, Await;
    hide Sane, Prelude, Rested, OnlyWaits, BoundaryOnly;
    StoreStep(s, i, tok, step);
    StoredWithBoundary(s, i, tok, step, d, env);
    AddTaskAdds(b, i, tok, d, "", d.nodes[at].topic);
    OnlyWorkThen(s, b, w, i, tok.id);
    BoundarySame(b, w, d, d.order, i, at, tok.id, env);
    SaneIds(w);
    TaskWaits(s, b, w, d, at);
    StoredRests(s, p, w, i, tok, step.synced, WaitingOnServiceTask(b.nextId), env);
  }

  lemma SaneIds(s: State)
    requires Sane(s)
    ensures IdsOk(s)
  {}

  /** The token is stored and waits are added for it. */
  lemma WaitRests(s: State, i: Uuid, tok: Token, step: Step, w: State, waiting: InstanceState, env: Env)
    requires Sane(s) && i in s.instances && s.instances[i].definitionKey in s.definitions
      && !s.instances[i].state.Suspended?
    requires Rests(DefOf(s, i), tok, step) && !step.action.Complete?
    requires OnlyWaits(StoreToken(Prelude(s, i, step), i, tok), w, DefOf(s, i), tok.currentNode)
    requires WaitsIn(w, i, tok, DefOf(s, i).nodes[tok.currentNode], waiting)
    requires WaitsAdded(StoreToken(Prelude(s, i, step), i, tok), w, i, tok.id) && HasWork(w, DefOf(s, i), i, tok, env)
    ensures Rested(s, Await(w, i, waiting), i, tok, step.synced, env)
  {
    var p := StoreToken(Prelude(s, i, step), i, tok);
    StoreStep(s, i, tok, step);
    NoWork(s, i, tok.id);
    assert OnlyWorkFor(s, p, i, tok.id);
    OnlyWorkThen(s, p, w, i, tok.id);
    SaneIds(w);
    hide OnlyWorkFor, Sane, HasWork, StoreToken, Prelude, Await, Rested;
    StoredRests(s, p, w, i, tok, step.synced, waiting, env);
  }

  lemma TimerActs(s: State, i: Uuid, tok: Token, step: Step, env: Env)
    requires i in s.instances && s.instances[i].definitionKey in s.definitions && Rests(DefOf(s, i), tok, step)
    requires step.action.WaitForTimer?
    ensures var d, at, p := DefOf(s, i), tok.currentNode, StoreToken(Prelude(s, i, step), i, tok);
      && CanAct(Prelude(s, i, step), i, tok, step.action)
      && Act(Prelude(s, i, step), i, tok, [], step.action, env)
         == (Await(AddTimer(p, i, tok.id, at, d.nodes[at].timer, env), i, WaitingOnTimer(s.nextId)), [])
  {
    hide AddTimer, StoreToken, Await;
  }

  lemma TimerRests(s: State, i: Uuid, tok: Token, step: Step, env: Env)
    requires Sane(s) && i in s.instances && s.instances[i].definitionKey in s.definitions
      && !s.instances[i].state.Suspended?
    requires Rests(DefOf(s, i), tok, step) && step.action.WaitForTimer?
    ensures var (w, q) := Act(Prelude(s, i, step), i, tok, [], step.action, env);
      q == [] && Rested(s, w, i, tok, step.synced, env)
  {
    var d, at, p := DefOf(s, i), tok.currentNode, StoreToken(Prelude(s, i, step), i, tok);
    var w := AddTimer(p, i, tok.id, at, d.nodes[at].timer, env);
    StoreStep(s, i, tok, step);
    AddTimerAdds(p, i, tok.id, at, d.nodes[at].timer, env);
    hide OnlyWorkFor, Sane, HasTimer, AddTimer, StoreToken, Await, Rested;
    TimerActs(s, i, tok, step, env);
    hide Act, CanAct;
    WaitRests(s, i, tok, step, w, WaitingOnTimer(s.nextId), env);
  }

  lemma MessageActs(s: State, i: Uuid, tok: Token, step: Step, env: Env)
    requires i in s.instances && s.instances[i].definitionKey in s.definitions && Rests(DefOf(s, i), tok, step)
    requires step.action.WaitForMessage?
    ensures var d, at, p := DefOf(s, i), tok.currentNode, StoreToken(Prelude(s, i, step), i, tok);
      && CanAct(Prelude(s, i, step), i, tok, step.action)
      && Act(Prelude(s, i, step), i, tok, [], step.action, env)
         == (Await(AddCatch(p, i, tok.id, at, d.nodes[at].messageName), i, WaitingOnMessage(s.nextId)), [])
  {
    hide AddCatch, StoreToken, Await;
  }

  lemma MessageRests(s: State, i: Uuid, tok: Token, step: Step, env: Env)
    requires Sane(s) && i in s.instances && s.instances[i].definitionKey in s.definitions
      && !s.instances[i].state.Suspended?
    requires Rests(DefOf(s, i), tok, step) && step.action.WaitForMessage?
    ensures var (w, q) := Act(Prelude(s, i, step), i, tok, [], step.action, env);
      q == [] && Rested(s, w, i, tok, step.synced, env)
  {
    var d, at, p := DefOf(s, i), tok.currentNode, StoreToken(Prelude(s, i, step), i, tok);
    var w := AddCatch(p, i, tok.id, at, d.nodes[at].messageName);
    StoreStep(s, i, tok, step);
    AddCatchAdds(p, i, tok.id, at, d.nodes[at].messageName);
    hide OnlyWorkFor, Sane, HasCatch, AddCatch, StoreToken, Await, Rested;
    MessageActs(s, i, tok, step, env);
    hide Act, CanAct;
    WaitRests(s, i, tok, step, w, WaitingOnMessage(s.nextId), env);
  }

  lemma GatewayActs(s: State, i: Uuid, tok: Token, step: Step, env: Env)
    requires i in s.instances && s.instances[i].definitionKey in s.definitions && Rests(DefOf(s, i), tok, step)
    requires step.action.WaitForEventGroup?
    ensures var d, at, p := DefOf(s, i), tok.currentNode, StoreToken(Prelude(s, i, step), i, tok);
      && CanAct(Prelude(s, i, step), i, tok, step.action)
      && Act(Prelude(s, i, step), i, tok, [], step.action, env)
         == (Await(RegisterEvents(p, d, d.NextNodes(at), i, tok.id, env), i, WaitingOnEventBasedGateway), [])
  {
    hide RegisterEvents, StoreToken, Await;
  }

  lemma EventsAwaited(p: State, d: ProcessDefinition, i: Uuid, tok: Token, env: Env)
    requires Sane(p) && tok.currentNode in d.nodes && d.nodes[tok.currentNode].EventBasedGateway?
    ensures var at := tok.currentNode; var w := RegisterEvents(p, d, d.NextNodes(at), i, tok.id, env);
      && OnlyWaits(p, w, d, at) && WaitsAdded(p, w, i, tok.id) && HasWork(w, d, i, tok, env)
      && WaitsIn(w, i, tok, d.nodes[at], WaitingOnEventBasedGateway)
  {
    RegisterEventsAdds(p, d, d.NextNodes(tok.currentNode), i, tok.id, env);
    RegisterEventsOnly(p, d, d.NextNodes(tok.currentNode), i, tok.id, env);
    hide OnlyWorkFor, Sane, HasEvents, RegisterEvents, WaitsAdded;
  }

  lemma GatewayRests(s: State, i: Uuid, tok: Token, step: Step, env: Env)
    requires Sane(s) && i in s.instances && s.instances[i].definitionKey in s.definitions
      && !s.instances[i].state.Suspended?
    requires Rests(DefOf(s, i), tok, step) && step.action.WaitForEventGroup?
    ensures var (w, q) := Act(Prelude(s, i, step), i, tok, [], step.action, env);
      q == [] && Rested(s, w, i, tok, step.synced, env)
  {
    var d, at, p := DefOf(s, i), tok.currentNode, StoreToken(Prelude(s, i, step), i, tok);
    var w := RegisterEvents(p, d, d.NextNodes(at), i, tok.id, env);
    GatewayActs(s, i, tok, step, env);
    StoreStep(s, i, tok, step);
    EventsAwaited(p, d, i, tok, env);
    hide Act, CanAct, OnlyWorkFor, Sane, HasWork, OnlyWaits, WaitsIn, WaitsAdded, RegisterEvents, StoreToken;
    hide Await, Rested;
    WaitRests(s, i, tok, step, w, WaitingOnEventBasedGateway, env);
  }

  lemma EndRests(s: State, i: Uuid, tok: Token, step: Step, env: Env)
    requires Sane(s) && i in s.instances && s.instances[i].definitionKey in s.definitions
      && !s.instances[i].state.Suspended?
    requires Rests(DefOf(s, i), tok, step) && step.action.Complete?
    ensures var (w, q) := Act(Prelude(s, i, step), i, tok, [], step.action, env);
      q == [] && Rested(s, w, i, tok, step.synced, env)
  {
    var p := Prelude(s, i, step);
    NoWork(s, i, tok.id);
    EndingEnds(p, i, tok, [], step.action.end, env);
    hide Act, LastToken, OwnBranch;
  }

  /** A token that comes to a node where it rests, rests there. */
  lemma StepRests(s: State, i: Uuid, tok: Token, step: Step, env: Env, count: nat)
    requires Sane(s) && i in s.instances && s.instances[i].definitionKey in s.definitions
      && !s.instances[i].state.Suspended?
    requires Rests(DefOf(s, i), tok, step) && count < MAX_EXECUTION_STEPS
    ensures var (s', r) := RunBatch(s, i, [tok], [step], env, count);
      r == Done && Rested(s, s', i, tok, step.synced, env)
  {
    assert CanStep(s, i, tok, step) && CanAct(Prelude(s, i, step), i, tok, step.action);
    hide Act, Rested;
    if step.action.WaitForUser? {
      UserRests(s, i, tok, step, env);
    } else if step.action.WaitForServiceTask? {
      ServiceRests(s, i, tok, step, env);
    } else if step.action.WaitForTimer? {
      TimerRests(s, i, tok, step, env);
    } else if step.action.WaitForMessage? {
      MessageRests(s, i, tok, step, env);
    } else if step.action.WaitForEventGroup? {
      GatewayRests(s, i, tok, step, env);
    } else {
      EndRests(s, i, tok, step, env);
    }
    OneStep(s, i, tok, step, env, count);
  }

  /** A step that only moves the token on. */
  lemma StepContinues(s: State, i: Uuid, tok: Token, step: Step, steps: seq<Step>, next: string, env: Env, count: nat)
    requires CanStep(s, i, tok, step) && step.action == Continue(next) && step.variables == tok.variables
      && count < MAX_EXECUTION_STEPS
    ensures RunBatch(s, i, [tok], [step] + steps, env, count)
         == RunBatch(Prelude(s, i, step), i, [Onward(ElementAt(s, i, tok.currentNode), tok, next)], steps, env,
           count + 1)
  {
    var p, on := Prelude(s, i, step), Onward(ElementAt(s, i, tok.currentNode), tok, next);
    assert tok.(variables := step.variables) == tok;
    assert [tok][1..] == [] && ([step] + steps)[1..] == steps;
    assert [] + [on] == [on];
    assert ApplyStep(s, i, tok, [], step, env) == (p, [on]);
    hide ApplyStep, CanStep;
  }
}
