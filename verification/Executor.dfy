/** The batch executor as a step machine (engine-core/src/engine/executor, engine/handlers).

    Which step an element takes depends on scripts, conditions and clocks; the model takes that choice
    as a given list of steps and lets an element take only steps its handler can produce. What a step
    does to the engine state follows `handle_next_action` and the wait-state handlers. */
module Executor {
  import opened Values
  import opened Definition
  import opened EngineState
  import Gateway

  /** Execution steps after which a batch is aborted. */
  const MAX_EXECUTION_STEPS: nat := 10_000

  datatype End = Plain | WithError(code: string) | WithEscalation(code: string)

  datatype Action =
    | Continue(node: string)
    | ContinueMultiple(targets: seq<string>, join: Option<string>)
    | WaitForJoin(expected: nat, early: bool)
    | WaitForUser
    | WaitForServiceTask
    | WaitForTimer
    | WaitForMessage
    | WaitForEventGroup
    | WaitForCallActivity
    | Complete(end: End)
    | SpawnAndContinue(main: string, spawned: seq<string>)
    | Terminate

  /** One execution step: the token's and the instance's variables after its scripts, the node the
      instance shows, and what happens to the token. */
  datatype Step = Step(variables: Variables, synced: Variables, shown: string, action: Action)

  /** What a call finds around it: the clock, the cron library, the end script of the node it leaves
      (`None` is a script error) and the steps its batch takes. */
  datatype Env = Env(
    now: Time,
    cron: (string, Time) -> Option<Time>,
    endScript: Variables -> Option<Variables>,
    steps: seq<Step>)

  /** The actions the handler of an element can answer with. */
  predicate Enabled(el: BpmnElement, action: Action) {
    match action
    case Continue(_) =>
      || el.IsStart() || el.ScriptTask? || el.SendTask? || el.ExclusiveGateway? || el.InclusiveGateway?
      || el.ParallelGateway? || el.ComplexGateway? || el.EmbeddedSubProcess? || el.SubProcessEndEvent?
      || el.EscalationThrowEvent? || el.CompensationThrowEvent? || (el.IsBoundary() && !el.BoundaryCompensationEvent?)
    case ContinueMultiple(_, _) => el.InclusiveGateway? || el.ParallelGateway? || el.ComplexGateway?
    case WaitForJoin(_, _) => el.InclusiveGateway? || el.ParallelGateway? || el.ComplexGateway?
    case WaitForUser => el.UserTask?
    case WaitForServiceTask => el.ServiceTask?
    case WaitForTimer => el.TimerCatchEvent?
    case WaitForMessage => el.MessageCatchEvent?
    case WaitForEventGroup => el.EventBasedGateway?
    case WaitForCallActivity => el.CallActivity?
    case Complete(end) =>
      || ((el.EndEvent? || el.CompensationEndEvent? || el.BoundaryCompensationEvent?) && end == Plain)
      || (el.ErrorEndEvent? && end == WithError(el.code))
      || (el.EscalationEndEvent? && end == WithEscalation(el.code))
    case SpawnAndContinue(_, _) => el.EscalationThrowEvent?
    case Terminate => el.TerminateEndEvent?
  }

  // ---- Registering wait states ----

  function AddTimer(s: State, i: Uuid, t: Uuid, node: string, timer: TimerDefinition, env: Env): State {
    var expiry := match timer.NextExpiry(env.now, env.cron) case Some(e) => e case None => env.now;
    s.(timers := s.timers[s.nextId := Entry(s.nextId, i, node, t, TimerInfo(expiry, Some(timer), None, s.nextId))],
       nextId := s.nextId + 1)
  }

  function AddCatch(s: State, i: Uuid, t: Uuid, node: string, messageName: string): State {
    s.(catches := s.catches[s.nextId := Entry(s.nextId, i, node, t, CatchInfo(messageName))],
       nextId := s.nextId + 1)
  }

  /** The boundary timer or message catch of `n`, when `n` is one and is attached to `at`. */
  function AddBoundary(s: State, d: ProcessDefinition, n: string, at: string, i: Uuid, t: Uuid, env: Env): State {
    if n in BoundaryTimersOf(d, at) then AddTimer(s, i, t, n, d.nodes[n].timer, env)
    else if n in BoundaryMessagesOf(d, at) then AddCatch(s, i, t, n, d.nodes[n].messageName)
    else s
  }

  /** `setup_boundary_events`, walking the nodes in `order`. */
  function RegisterBoundary(s: State, d: ProcessDefinition, order: seq<string>, at: string, i: Uuid, t: Uuid,
      env: Env): (r: State)
    ensures r.instances == s.instances && r.definitions == s.definitions
    ensures r.userTasks == s.userTasks && r.serviceTasks == s.serviceTasks
    decreases |order|
  {
    if order == [] then s
    else RegisterBoundary(AddBoundary(s, d, order[0], at, i, t, env), d, order[1..], at, i, t, env)
  }

  function AddEvent(s: State, d: ProcessDefinition, n: string, i: Uuid, t: Uuid, env: Env): State {
    if n in d.nodes && d.nodes[n].TimerCatchEvent? then AddTimer(s, i, t, n, d.nodes[n].timer, env)
    else if n in d.nodes && d.nodes[n].MessageCatchEvent? then AddCatch(s, i, t, n, d.nodes[n].messageName)
    else s
  }

  /** The alternatives of an event-based gateway, in flow order. */
  function RegisterEvents(s: State, d: ProcessDefinition, flows: seq<SequenceFlow>, i: Uuid, t: Uuid,
      env: Env): (r: State)
    ensures r.instances == s.instances && r.definitions == s.definitions
    ensures r.userTasks == s.userTasks && r.serviceTasks == s.serviceTasks
    decreases |flows|
  {
    if flows == [] then s
    else RegisterEvents(AddEvent(s, d, flows[0].target, i, t, env), d, flows[1..], i, t, env)
  }

  /** The token is stored in the instance, which shows the node it waits at. */
  function StoreToken(s: State, i: Uuid, tok: Token): State
    requires i in s.instances
  {
    var inst := s.instances[i];
    s.WithInstance(i, inst.(tokens := inst.tokens[tok.id := tok], currentNode := tok.currentNode))
  }

  /** The instance waits, unless several branches are active. */
  function Await(s: State, i: Uuid, waiting: InstanceState): State
    requires i in s.instances
  {
    var inst := s.instances[i];
    s.WithInstance(i, inst.(state := if inst.state.ParallelExecution? then inst.state else waiting))
  }

  // ---- Active tokens and joins ----

  function MarkCompleted(active: seq<ActiveToken>, t: Uuid): seq<ActiveToken> {
    if active == [] then []
    else if active[0].token.id == t then [active[0].(completed := true)] + active[1..]
    else [active[0]] + MarkCompleted(active[1..], t)
  }

  function MarkAllCompleted(active: seq<ActiveToken>): seq<ActiveToken> {
    if active == [] then [] else [active[0].(completed := true)] + MarkAllCompleted(active[1..])
  }

  function MarkEach(active: seq<ActiveToken>, arrived: seq<Token>): seq<ActiveToken>
    decreases |arrived|
  {
    if arrived == [] then active else MarkEach(MarkCompleted(active, arrived[0].id), arrived[1..])
  }

  function MergedVariables(arrived: seq<Token>, into: Variables): Variables {
    if arrived == [] then into else MergedVariables(arrived[1..], into + arrived[0].variables)
  }

  function RegisterActive(tokens: seq<Token>, fork: string, index: nat): seq<ActiveToken> {
    if tokens == [] then []
    else [ActiveToken(tokens[0], Some(fork), index, false)] + RegisterActive(tokens[1..], fork, index + 1)
  }

  predicate AllTokensCompleted(inst: Instance) {
    inst.tokens == map[] && forall at <- inst.activeTokens :: at.completed
  }

  // ---- What each action does ----

  function Fork(s: State, i: Uuid, tok: Token, targets: seq<string>, join: Option<string>): (State, seq<Token>)
    requires i in s.instances
  {
    var inst := s.instances[i];
    var forked := Gateway.Forked(targets, tok.variables, s.nextId);
    var barriers := match join
      case Some(g) => inst.joinBarriers[g := JoinBarrier(g, |targets|, [])]
      case None => inst.joinBarriers;
    (s.WithInstance(i, inst.(
        activeTokens := MarkCompleted(inst.activeTokens, tok.id) + RegisterActive(forked, tok.currentNode, 0),
        state := ParallelExecution(|inst.activeTokens| + |targets|),
        currentNode := tok.currentNode,
        joinBarriers := barriers)).(nextId := s.nextId + |targets|),
     forked)
  }

  function Arrive(s: State, i: Uuid, tok: Token, expected: nat, early: bool): (State, seq<Token>)
    requires i in s.instances
  {
    var inst, g := s.instances[i], tok.currentNode;
    var barrier := if g in inst.joinBarriers then inst.joinBarriers[g] else JoinBarrier(g, expected, []);
    var arrived := barrier.arrivedTokens + [tok];
    if |arrived| >= barrier.expectedCount || early then
      (s.WithInstance(i, inst.(
          joinBarriers := inst.joinBarriers - {g},
          activeTokens := MarkEach(inst.activeTokens, arrived),
          state := Running,
          currentNode := g)).(nextId := s.nextId + 1),
       [Token(s.nextId, g, MergedVariables(arrived, map[]), true)])
    else
      (s.WithInstance(i, inst.(joinBarriers := inst.joinBarriers[g := barrier.(arrivedTokens := arrived)])), [])
  }

  function CompleteToken(s: State, i: Uuid, tok: Token, end: End): State
    requires i in s.instances
  {
    var inst := s.instances[i];
    var rest := inst.(tokens := inst.tokens - {tok.id}, activeTokens := MarkCompleted(inst.activeTokens, tok.id));
    var state := match end case WithError(code) => CompletedWithError(code) case _ => Completed;
    s.WithInstance(i, if AllTokensCompleted(rest) then rest.(state := state) else rest)
  }

  function TerminateInstance(s: State, i: Uuid): State
    requires i in s.instances
  {
    var inst := s.instances[i];
    s.WithInstance(i, inst.(activeTokens := MarkAllCompleted(inst.activeTokens), state := Completed)).(
      userTasks := DropInstance(s.userTasks, i),
      serviceTasks := DropInstance(s.serviceTasks, i),
      timers := DropInstance(s.timers, i),
      catches := DropInstance(s.catches, i))
  }

  function AddUserTask(s: State, i: Uuid, tok: Token, assignee: string): State {
    s.(userTasks := s.userTasks[s.nextId := Entry(s.nextId, i, tok.currentNode, tok.id, UserInfo(assignee))],
       nextId := s.nextId + 1)
  }

  /** A service task starts unlocked, with three retries. */
  function AddServiceTask(s: State, i: Uuid, tok: Token, d: ProcessDefinition, topic: string): State {
    var info := ServiceInfo(d.key, topic, None, None, 3, None, None);
    s.(serviceTasks := s.serviceTasks[s.nextId := Entry(s.nextId, i, tok.currentNode, tok.id, info)],
       nextId := s.nextId + 1)
  }

  function WaitUser(s: State, d: ProcessDefinition, i: Uuid, tok: Token, env: Env): State
    requires i in s.instances && tok.currentNode in d.nodes && d.nodes[tok.currentNode].UserTask?
  {
    var b := RegisterBoundary(StoreToken(s, i, tok), d, d.order, tok.currentNode, i, tok.id, env);
    Await(AddUserTask(b, i, tok, d.nodes[tok.currentNode].assignee), i, WaitingOnUserTask(b.nextId))
  }

  function WaitService(s: State, d: ProcessDefinition, i: Uuid, tok: Token, env: Env): State
    requires i in s.instances && tok.currentNode in d.nodes && d.nodes[tok.currentNode].ServiceTask?
  {
    var b := RegisterBoundary(StoreToken(s, i, tok), d, d.order, tok.currentNode, i, tok.id, env);
    Await(AddServiceTask(b, i, tok, d, d.nodes[tok.currentNode].topic), i, WaitingOnServiceTask(b.nextId))
  }

  function WaitTimer(s: State, d: ProcessDefinition, i: Uuid, tok: Token, env: Env): State
    requires i in s.instances && tok.currentNode in d.nodes && d.nodes[tok.currentNode].TimerCatchEvent?
  {
    var w := AddTimer(StoreToken(s, i, tok), i, tok.id, tok.currentNode, d.nodes[tok.currentNode].timer, env);
    Await(w, i, WaitingOnTimer(s.nextId))
  }

  function WaitMessage(s: State, d: ProcessDefinition, i: Uuid, tok: Token): State
    requires i in s.instances && tok.currentNode in d.nodes && d.nodes[tok.currentNode].MessageCatchEvent?
  {
    var w := AddCatch(StoreToken(s, i, tok), i, tok.id, tok.currentNode, d.nodes[tok.currentNode].messageName);
    Await(w, i, WaitingOnMessage(s.nextId))
  }

  function WaitEvents(s: State, d: ProcessDefinition, i: Uuid, tok: Token, env: Env): State
    requires i in s.instances
  {
    var w := RegisterEvents(StoreToken(s, i, tok), d, d.NextNodes(tok.currentNode), i, tok.id, env);
    Await(w, i, WaitingOnEventBasedGateway)
  }

  /** A call activity parks its token in the instance state; the token map does not get it. */
  function WaitCall(s: State, d: ProcessDefinition, i: Uuid, tok: Token, env: Env): State
    requires i in s.instances
  {
    var b := RegisterBoundary(s, d, d.order, tok.currentNode, i, tok.id, env);
    var shown := b.WithInstance(i, b.instances[i].(currentNode := tok.currentNode));
    Await(shown, i, WaitingOnCallActivity(b.nextId, tok)).(nextId := b.nextId + 1)
  }

  function Spawned(s: State, tok: Token, main: string, spawned: seq<string>): (State, seq<Token>) {
    (s.(nextId := s.nextId + |spawned|),
     [tok.(currentNode := main)] + Gateway.Forked(spawned, tok.variables, s.nextId))
  }

  /** The token a step sends on to the next node. A gateway that merges tokens takes the mark of the merge
      off again. */
  function Onward(el: BpmnElement, tok: Token, node: string): Token {
    var merges := el.InclusiveGateway? || el.ParallelGateway? || el.ComplexGateway?;
    tok.(currentNode := node, isMerged := tok.isMerged && !merges)
  }

  predicate CanAct(s: State, i: Uuid, tok: Token, action: Action) {
    && i in s.instances && s.instances[i].definitionKey in s.definitions
    && tok.currentNode in s.definitions[s.instances[i].definitionKey].nodes
    && Enabled(s.definitions[s.instances[i].definitionKey].nodes[tok.currentNode], action)
    && (action.WaitForEventGroup? ==> LeadsToCatches(s.definitions[s.instances[i].definitionKey], tok.currentNode))
  }

  /** What the action of `tok` does: the new state and the new queue. */
  function Act(s: State, i: Uuid, tok: Token, rest: seq<Token>, action: Action, env: Env): (State, seq<Token>)
    requires CanAct(s, i, tok, action)
  {
    var d := s.definitions[s.instances[i].definitionKey];
    match action
    case Continue(node) => (s, rest + [Onward(d.nodes[tok.currentNode], tok, node)])
    case ContinueMultiple(targets, join) =>
      var (s', q) := Fork(s, i, tok, targets, join);
      (s', rest + q)
    case WaitForJoin(expected, early) =>
      var (s', q) := Arrive(s, i, tok, expected, early);
      (s', rest + q)
    case WaitForUser => (WaitUser(s, d, i, tok, env), rest)
    case WaitForServiceTask => (WaitService(s, d, i, tok, env), rest)
    case WaitForTimer => (WaitTimer(s, d, i, tok, env), rest)
    case WaitForMessage => (WaitMessage(s, d, i, tok), rest)
    case WaitForEventGroup => (WaitEvents(s, d, i, tok, env), rest)
    case WaitForCallActivity => (WaitCall(s, d, i, tok, env), rest)
    case Complete(end) => (CompleteToken(s, i, tok, end), rest)
    case SpawnAndContinue(main, spawned) =>
      var (s', q) := Spawned(s, tok, main, spawned);
      (s', rest + q)
    case Terminate => (TerminateInstance(s, i), [])
  }

  /** The scripts' part of a step. */
  function Prelude(s: State, i: Uuid, step: Step): State
    requires i in s.instances
  {
    s.WithInstance(i, s.instances[i].(variables := step.synced, currentNode := step.shown))
  }

  predicate CanStep(s: State, i: Uuid, head: Token, step: Step) {
    CanAct(s, i, head, step.action)
  }

  /** One step of the token at the head of the queue: its scripts, then its action. */
  function ApplyStep(s: State, i: Uuid, head: Token, rest: seq<Token>, step: Step, env: Env): (State, seq<Token>)
    requires CanStep(s, i, head, step)
  {
    Act(Prelude(s, i, step), i, head.(variables := step.variables), rest, step.action, env)
  }

  /** `run_instance_batch`: steps the queue's tokens in turn. A batch without a next step, or whose
      next step the element cannot take, stands for one whose `execute_step` failed. */
  function RunBatch(s: State, i: Uuid, queue: seq<Token>, steps: seq<Step>, env: Env, count: nat): (State, Outcome)
    decreases |steps|
  {
    if queue == [] then (s, Done)
    else if count >= MAX_EXECUTION_STEPS then
      (if i in s.instances then s.WithInstance(i,
        s.instances[i].(state := CompletedWithError("EXECUTION_LIMIT_EXCEEDED"))) else s,
       Failed(ExecutionLimitExceeded(i)))
    else if steps == [] || !CanStep(s, i, queue[0], steps[0]) then (s, Failed(ScriptError))
    else
      var (s', queue') := ApplyStep(s, i, queue[0], queue[1..], steps[0], env);
      RunBatch(s', i, queue', steps[1..], env, count + 1)
  }

  /** Runs a single token of instance `i` until every branch waits or ends. */
  function Run(s: State, i: Uuid, tok: Token, env: Env): (State, Outcome) {
    RunBatch(s, i, [tok], env.steps, env, 0)
  }
}
