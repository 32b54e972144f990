/** Where a token goes when a call takes it on: the node behind the task or event, with which variables,
    and what is left of the work it waited in. What the call leads to is what any batch makes of that. */
module Arrivals {
  import opened Values
  import opened Condition
  import opened Definition
  import opened EngineState
  import opened Executor
  import opened Operations
  import opened CallFrames
  import opened ExecutorProofs
  import opened Endings
  import opened Parking
  import Text

  // ---- Choosing the way ----

  predicate Open(flow: SequenceFlow, variables: Variables) {
    flow.condition.None? || EvaluateCondition(flow.condition.value, variables)
  }

  ghost predicate FirstOpen(flows: seq<SequenceFlow>, variables: Variables, k: nat) {
    k < |flows| && Open(flows[k], variables) && forall j :: 0 <= j < k ==> !Open(flows[j], variables)
  }

  /** A token leaves over the first open flow, and finds no way exactly when no flow is open. */
  lemma {:induction false} ResolvesToFirstOpen(flows: seq<SequenceFlow>, variables: Variables)
    ensures ResolveNext(flows, variables).None? <==> forall f <- flows :: !Open(f, variables)
    ensures forall k: nat :: FirstOpen(flows, variables, k) ==> ResolveNext(flows, variables) == Some(flows[k].target)
  {
    hide EvaluateCondition;
    if flows != [] && !Open(flows[0], variables) {
      ResolvesToFirstOpen(flows[1..], variables);
      forall k: nat | FirstOpen(flows, variables, k) ensures ResolveNext(flows, variables) == Some(flows[k].target) {
        assert FirstOpen(flows[1..], variables, k - 1);
      }
      assert flows == [flows[0]] + flows[1..];
    } else if flows != [] {
      assert flows[0] in flows;
      assert forall k: nat :: FirstOpen(flows, variables, k) ==> k == 0;
    }
  }

  /** A boundary event of `node` that catches the error `code`. */
  predicate Catching(d: ProcessDefinition, n: string, node: string, code: string) {
    && n in d.nodes && d.nodes[n].BoundaryErrorEvent? && d.nodes[n].attachedTo == node
    && (d.nodes[n].errorCode.None? || d.nodes[n].errorCode == Some(code))
  }

  ghost predicate FirstCatching(d: ProcessDefinition, order: seq<string>, node: string, code: string, k: nat) {
    k < |order| && Catching(d, order[k], node, code) && forall j :: 0 <= j < k ==> !Catching(d, order[j], node, code)
  }

  /** An error goes to the first boundary event that catches it, and is lost exactly when none does. */
  lemma {:induction false} FoundCatches(d: ProcessDefinition, order: seq<string>, node: string, code: string)
    ensures FindBoundaryError(d, order, node, code).None? <==> forall n <- order :: !Catching(d, n, node, code)
    ensures forall k: nat :: FirstCatching(d, order, node, code, k) ==>
      FindBoundaryError(d, order, node, code) == Some(order[k])
  {
    if order != [] && !Catching(d, order[0], node, code) {
      FoundCatches(d, order[1..], node, code);
      forall k: nat | FirstCatching(d, order, node, code, k) ensures FindBoundaryError(d, order, node, code)
        == Some(order[k]) {
        assert FirstCatching(d, order[1..], node, code, k - 1);
      }
      assert order == [order[0]] + order[1..];
    } else if order != [] {
      assert order[0] in order;
      assert forall k: nat :: FirstCatching(d, order, node, code, k) ==> k == 0;
    }
  }

  // ---- Handing a token over to a batch ----

  /** What a call leaves for the batch that takes token `tok` of instance `i` on: the instance and all
      pending work. */
  datatype Handover = Handover(i: Uuid, inst: Instance, tok: Token, users: UserTasks, services: ServiceTasks,
                               timers: Timers, catches: Catches)

  ghost predicate HandedOver(s: State, s1: State, h: Handover) {
    && s1.instances == s.instances[h.i := h.inst] && s1.definitions == s.definitions
    && s1.userTasks == h.users && s1.serviceTasks == h.services && s1.timers == h.timers && s1.catches == h.catches
    && h.inst.currentNode == h.tok.currentNode && !h.inst.state.Suspended? && Sane(s1) && s.nextId <= s1.nextId
  }

  /** The outcome is that of the batch which runs the token from there, whatever steps it takes. */
  ghost predicate TakenOn(s: State, outcome: (State, Outcome), h: Handover, env: Env) {
    exists s1 :: HandedOver(s, s1, h) && outcome == Run(s1, h.i, h.tok, env)
  }

  /** The timers of instance `i` on boundary events of `node` go. */
  function WithoutTimersOn(m: Timers, i: Uuid, d: ProcessDefinition, node: string): Timers {
    map id | id in m && !(m[id].instanceId == i && TimerOn(d, m[id].nodeId, node)) :: m[id]
  }

  /** The message catches of instance `i` on boundary events of `node` go. */
  function WithoutMessagesOn(m: Catches, i: Uuid, d: ProcessDefinition, node: string): Catches {
    map id | id in m && !(m[id].instanceId == i && MessageOn(d, m[id].nodeId, node)) :: m[id]
  }

  /** Entries are removed, instances stay, ids are drawn. */
  lemma FewerSane(s: State, s1: State)
    requires Sane(s) && s.nextId <= s1.nextId
      && (forall j <- s1.instances :: j in s.instances || s.nextId <= j < s1.nextId)
    requires Fewer(s1.userTasks, s.userTasks) && Fewer(s1.serviceTasks, s.serviceTasks)
    requires Fewer(s1.timers, s.timers) && Fewer(s1.catches, s.catches)
    ensures Sane(s1)
  {}

  /** When the batch has one step and the token comes to rest, it ended or waits there; the work handed
      over is all there, and new work is for this token alone. */
  lemma HandedOverRests(s: State, outcome: (State, Outcome), h: Handover, env: Env)
    requires TakenOn(s, outcome, h, env) && h.inst.definitionKey in s.definitions
    requires |env.steps| == 1 && Rests(s.definitions[h.inst.definitionKey], h.tok, env.steps[0])
    ensures var (s', r) := outcome; var d := s.definitions[h.inst.definitionKey];
      && r == Done && RestedAfter(s, s', h, d.nodes[h.tok.currentNode], env.steps[0].synced)
      && HasWork(s', d, h.i, h.tok, env)
  {
    var s1 :| HandedOver(s, s1, h) && outcome == Run(s1, h.i, h.tok, env);
    assert env.steps == [env.steps[0]];
    hide RunBatch, Sane, HasWork, OnlyWaits, RestsAs, OnlyFor;
    StepRests(s1, h.i, h.tok, env.steps[0], env, 0);
    RestedOf(s, s1, outcome.0, h, env.steps[0].synced, env);
  }

  /** The instance after its token came to rest at `el`, and all pending work. */
  ghost predicate RestedAfter(s: State, s': State, h: Handover, el: BpmnElement, synced: Variables) {
    && Sane(s') && s.nextId <= s'.nextId && s'.definitions == s.definitions && h.i in s'.instances
    && s'.instances == s.instances[h.i := s'.instances[h.i]]
    && RestsAs(h.inst, s', h.i, h.tok, el, synced) && !s'.instances[h.i].state.Suspended?
    && OnlyFor(h.users, s'.userTasks, h.i, h.tok.id) && OnlyFor(h.services, s'.serviceTasks, h.i, h.tok.id)
    && OnlyFor(h.timers, s'.timers, h.i, h.tok.id) && OnlyFor(h.catches, s'.catches, h.i, h.tok.id)
    && (el.EndEvent? ==> s'.userTasks == h.users && s'.serviceTasks == h.services && s'.timers == h.timers
                         && s'.catches == h.catches)
  }

  lemma RestedOf(s: State, s1: State, s': State, h: Handover, synced: Variables, env: Env)
    requires HandedOver(s, s1, h) && Rested(s1, s', h.i, h.tok, synced, env)
    ensures RestedAfter(s, s', h, DefOf(s1, h.i).nodes[h.tok.currentNode], synced)
  {
    hide Sane, HasWork, OnlyWaits, OnlyFor;
    assert s.instances[h.i := h.inst][h.i := s'.instances[h.i]] == s.instances[h.i := s'.instances[h.i]];
    RestedNotSuspended(h.inst, s', h.i, h.tok, DefOf(s1, h.i).nodes[h.tok.currentNode], synced);
    hide RestsAs;
  }

  lemma RestedNotSuspended(inst: Instance, s': State, i: Uuid, tok: Token, el: BpmnElement, synced: Variables)
    requires i in s'.instances && RestsAs(inst, s', i, tok, el, synced) && !inst.state.Suspended?
    ensures !s'.instances[i].state.Suspended?
  {
    hide LastToken, OwnBranch, BelongsTo;
  }

  /** What follows for the instance and its tokens. */
  lemma RestedParts(s: State, s': State, h: Handover, el: BpmnElement, synced: Variables)
    requires RestedAfter(s, s', h, el, synced)
    ensures Sane(s') && s.nextId <= s'.nextId && s'.definitions == s.definitions
    ensures h.i in s'.instances && !s'.instances[h.i].state.Suspended?
      && s'.instances[h.i].definitionKey == h.inst.definitionKey
    ensures s'.instances[h.i].tokens
      == (if el.EndEvent? then h.inst.tokens - {h.tok.id} else h.inst.tokens[h.tok.id := h.tok])
    ensures s'.instances[h.i].variables == synced
  {
    hide LastToken, OwnBranch, BelongsTo, Sane, OnlyFor, WaitsIn;
  }

  /** When the steps of the batch lead straight to an end, the token ends there, and with it the instance
      when the token was the last one. No pending work is touched. */
  lemma HandedOverEnds(s: State, outcome: (State, Outcome), h: Handover, last: string, env: Env)
    requires TakenOn(s, outcome, h, env) && h.inst.definitionKey in s.definitions
    requires PathToEnd(s.definitions[h.inst.definitionKey], h.tok.currentNode, env.steps, last)
    requires |env.steps| <= MAX_EXECUTION_STEPS
    ensures var (s', r) := outcome; var d := s.definitions[h.inst.definitionKey];
      && r == Done && h.i in s'.instances && s'.instances == s.instances[h.i := s'.instances[h.i]]
      && s'.userTasks == h.users && s'.serviceTasks == h.services && s'.timers == h.timers && s'.catches == h.catches
      && last in d.nodes
      && TokenEnded(Passed(h.inst, env.steps[|env.steps| - 1]), s'.instances[h.i], h.tok.id, d.nodes[last])
  {
    var s1 :| HandedOver(s, s1, h) && outcome == Run(s1, h.i, h.tok, env);
    hide RunBatch, Sane, TokenEnded, PathToEnd;
    PathEnds(s1, h.i, h.tok, env.steps, last, env, 0);
    hide Run, Passed;
    EndedOf(s, s1, outcome.0, h);
  }

  /** The only token of an instance without branches comes straight to an end: the instance is over. */
  lemma SoleHandedOverCompletes(s: State, outcome: (State, Outcome), h: Handover, last: string, env: Env)
    requires TakenOn(s, outcome, h, env) && h.inst.definitionKey in s.definitions
    requires PathToEnd(s.definitions[h.inst.definitionKey], h.tok.currentNode, env.steps, last)
    requires |env.steps| <= MAX_EXECUTION_STEPS && h.inst.tokens == map[] && h.inst.activeTokens == []
    ensures var (s', r) := outcome; var d := s.definitions[h.inst.definitionKey];
      && r == Done && h.i in s'.instances && last in d.nodes && s'.userTasks == h.users
      && s'.instances[h.i].tokens == map[] && EndsAs(d.nodes[last], s'.instances[h.i].state)
  {
    hide TakenOn, TokenEnded, EndsAs;
    assert env.steps != [] by { hide Enabled; }
    hide PathToEnd;
    HandedOverEnds(s, outcome, h, last, env);
    SoleTokenCompletes(Passed(h.inst, env.steps[|env.steps| - 1]), outcome.0.instances[h.i], h.tok.id,
                       s.definitions[h.inst.definitionKey].nodes[last]);
  }

  lemma EndedOf(s: State, s1: State, s': State, h: Handover)
    requires HandedOver(s, s1, h) && h.i in s'.instances && s' == s1.WithInstance(h.i, s'.instances[h.i])
    ensures s'.instances == s.instances[h.i := s'.instances[h.i]]
    ensures s'.userTasks == h.users && s'.serviceTasks == h.services && s'.timers == h.timers && s'.catches == h.catches
  {
    hide Sane;
    assert s.instances[h.i := h.inst][h.i := s'.instances[h.i]] == s.instances[h.i := s'.instances[h.i]];
  }

  /** Token `t` of instance `i` is there to be taken on. */
  ghost predicate Present(s: State, i: Uuid, t: Uuid) {
    && HasToken(s, i, t) && s.instances[i].tokens[t].id == t && s.instances[i].definitionKey in s.definitions && Sane(s)
  }

  /** The way on from `node` for a token with these variables. */
  ghost predicate LeadsTo(s: State, i: Uuid, node: string, variables: Variables, next: string)
    requires i in s.instances && s.instances[i].definitionKey in s.definitions
  {
    ResolveNext(DefOf(s, i).NextNodes(node), variables) == Some(next)
  }

  lemma MoveOnTakes(s: State, i: Uuid, tok: Token, node: string, next: string, env: Env)
    requires i in s.instances && s.instances[i].definitionKey in s.definitions
      && LeadsTo(s, i, node, tok.variables, next)
    ensures MoveOn(s, i, tok, DefOf(s, i), node, env)
         == Run(s.WithInstance(i, s.instances[i].(currentNode := next)), i, tok.(currentNode := next), env)
  {}

  // ---- Tasks ----

  /** The instance runs on, unless several branches are active. */
  function RunningOn(state: InstanceState): InstanceState {
    if state.ParallelExecution? then state else Running
  }

  /** The instance whose token `t` left on its way to `next`. */
  function Leaving(inst: Instance, t: Uuid, state: InstanceState, variables: Variables, next: string): Instance {
    inst.(tokens := inst.tokens - {t}, state := state, variables := variables, currentNode := next)
  }

  /** What is handed over when token `t` leaves the task at `node`: the timers and messages attached to
      the task go. */
  function LeavingTask(s: State, i: Uuid, t: Uuid, node: string, inst: Instance, tok: Token, users: UserTasks,
      services: ServiceTasks): Handover
    requires i in s.instances && s.instances[i].definitionKey in s.definitions
  {
    var d := s.definitions[s.instances[i].definitionKey];
    Handover(i, inst, tok, users, services,
             WithoutTimersOn(s.timers, i, d, node),
             WithoutMessagesOn(s.catches, i, d, node))
  }

  lemma LeaveTaskLeaves(s: State, i: Uuid, t: Uuid, node: string)
    requires Sane(s) && i in s.instances && s.instances[i].definitionKey in s.definitions
    ensures var r := LeaveTask(s, i, t, node); var inst, d := s.instances[i], DefOf(s, i);
      && r.instances == s.instances[i := inst.(tokens := inst.tokens - {t}, state := RunningOn(inst.state))]
      && r.nextId == s.nextId && r.userTasks == s.userTasks && r.serviceTasks == s.serviceTasks && Sane(r)
      && r.timers == WithoutTimersOn(s.timers, i, d, node)
      && r.catches == WithoutMessagesOn(s.catches, i, d, node)
      && r.definitions == s.definitions
  {
    FewerSane(s, LeaveTask(s, i, t, node));
    hide Sane;
  }

  lemma FinishTakes(s: State, i: Uuid, tok: Token, variables: Variables, node: string, next: string, env: Env)
    requires i in s.instances && s.instances[i].definitionKey in s.definitions && Sane(s)
      && !s.instances[i].state.Suspended?
    requires LeadsTo(s, i, node, variables, next)
    ensures TakenOn(s, Finish(s, i, tok, variables, node, env),
                    Handover(i, s.instances[i].(variables := variables, currentNode := next),
                             tok.(variables := variables, currentNode := next), s.userTasks, s.serviceTasks,
                             s.timers, s.catches), env)
  {
    hide ResolveNext, Run, MoveOn;
    var s1 := Synced(s, i, variables);
    MoveOnTakes(s1, i, tok.(variables := variables), node, next, env);
    var s2 := s1.WithInstance(i, s1.instances[i].(currentNode := next));
    assert HandedOver(s, s2, Handover(i, s.instances[i].(variables := variables, currentNode := next),
                             tok.(variables := variables, currentNode := next), s.userTasks, s.serviceTasks,
                             s.timers, s.catches));
  }

  lemma TakenOnLater(s: State, s1: State, outcome: (State, Outcome), h: Handover, env: Env)
    requires TakenOn(s1, outcome, h, env) && s1.definitions == s.definitions && s.nextId <= s1.nextId
    requires s1.instances[h.i := h.inst] == s.instances[h.i := h.inst]
    ensures TakenOn(s, outcome, h, env)
  {
    hide Run, Sane;
    var s2 :| HandedOver(s1, s2, h) && outcome == Run(s2, h.i, h.tok, env);
    assert HandedOver(s, s2, h);
  }

  /** The token of a task leaves it and goes on, whatever the instance shows meanwhile. */
  lemma LeavesTask(s: State, s1: State, s3: State, i: Uuid, t: Uuid, node: string, tok: Token, variables: Variables,
      next: string, env: Env)
    requires i in s.instances && s.instances[i].definitionKey in s.definitions && Sane(s1)
    requires s1.instances == s.instances && s1.definitions == s.definitions && s1.nextId == s.nextId
    requires s1.timers == s.timers && s1.catches == s.catches && LeadsTo(s, i, node, variables, next)
    requires var left := LeaveTask(s1, i, t, node);
      s3 == Shown(left, i, node) || s3 == Synced(left, i, tok.variables)
    ensures TakenOn(s, Finish(s3, i, tok, variables, node, env),
                    LeavingTask(s, i, t, node,
                      Leaving(s.instances[i], t, RunningOn(s.instances[i].state), variables, next),
                                tok.(variables := variables, currentNode := next), s1.userTasks, s1.serviceTasks), env)
  {
    hide LeaveTask, ResolveNext, Finish, Sane, TakenOn, WithoutTimersOn, WithoutMessagesOn;
    LeaveTaskLeaves(s1, i, t, node);
    ShownSane(LeaveTask(s1, i, t, node), i, node);
    FinishTakes(s3, i, tok, variables, node, next, env);
    TakenOnLater(s, s3, Finish(s3, i, tok, variables, node, env),
                 LeavingTask(s, i, t, node, s3.instances[i].(variables := variables, currentNode := next),
                             tok.(variables := variables, currentNode := next), s1.userTasks, s1.serviceTasks), env);
  }

  /** What a completed user task hands over: the task is gone, and its token goes on with the variables
      its end scripts made of the token's and the caller's. */
  lemma UserTaskHandsOver(s: State, id: Uuid, extra: Variables, variables: Variables, next: string, env: Env)
    requires id in s.userTasks && Present(s, s.userTasks[id].instanceId, s.userTasks[id].tokenId)
    requires var task := s.userTasks[id]; var i := task.instanceId;
      && !IsSuspended(s, i) && env.endScript(s.instances[i].tokens[task.tokenId].variables + extra) == Some(variables)
      && LeadsTo(s, i, task.nodeId, variables, next)
    ensures var task := s.userTasks[id]; var i, t := task.instanceId, task.tokenId; var inst := s.instances[i];
      TakenOn(s, CompleteUserTask(s, id, extra, env),
              LeavingTask(s, i, t, task.nodeId, Leaving(inst, t, RunningOn(inst.state), variables, next),
                          Token(t, next, variables, inst.tokens[t].isMerged), s.userTasks - {id}, s.serviceTasks), env)
  {
    var task := s.userTasks[id];
    var i, t := task.instanceId, task.tokenId;
    var s1 := s.(userTasks := s.userTasks - {id});
    FewerSane(s, s1);
    hide LeaveTask, ResolveNext, Finish, Sane, TakenOn, LeavingTask;
    var s3 := Shown(LeaveTask(s1, i, t, task.nodeId), i, task.nodeId);
    var tok := MergedToken(s1, i, t, extra);
    assert CompleteUserTask(s, id, extra, env) == Finish(s3, i, tok, variables, task.nodeId, env);
    hide CompleteUserTask;
    LeavesTask(s, s1, s3, i, t, task.nodeId, tok, variables, next, env);
  }

  lemma ShownSane(s: State, i: Uuid, node: string)
    requires Sane(s) && i in s.instances
    ensures Sane(Shown(s, i, node)) && Sane(Synced(s, i, s.instances[i].variables))
    ensures forall variables :: Sane(Synced(s, i, variables))
  {}

  /** What a service task hands over when its token goes on. */
  function ServiceHandover(s: State, id: Uuid, state: InstanceState, synced: Variables, variables: Variables,
      next: string): Handover
    requires id in s.serviceTasks && HasToken(s, s.serviceTasks[id].instanceId, s.serviceTasks[id].tokenId)
    requires s.instances[s.serviceTasks[id].instanceId].definitionKey in s.definitions
  {
    var task := s.serviceTasks[id];
    var i, t := task.instanceId, task.tokenId;
    LeavingTask(s, i, t, task.nodeId, Leaving(s.instances[i], t, state, synced, next),
                Token(t, next, variables, s.instances[i].tokens[t].isMerged), s.userTasks, s.serviceTasks - {id})
  }

  /** The way on from service task `id` for a token with these variables. */
  ghost predicate ServiceLeadsTo(s: State, id: Uuid, variables: Variables, next: string) {
    && id in s.serviceTasks && Present(s, s.serviceTasks[id].instanceId, s.serviceTasks[id].tokenId)
    && LeadsTo(s, s.serviceTasks[id].instanceId, s.serviceTasks[id].nodeId, variables, next)
  }

  lemma ServiceTaskHandsOver(s: State, id: Uuid, worker: string, extra: Variables, variables: Variables, next: string,
      env: Env)
    requires HeldBy(s, id, worker) && ServiceLeadsTo(s, id, variables, next)
    requires var task := s.serviceTasks[id]; var i := task.instanceId;
      !IsSuspended(s, i) && env.endScript(s.instances[i].tokens[task.tokenId].variables + extra) == Some(variables)
    ensures var state := RunningOn(s.instances[s.serviceTasks[id].instanceId].state);
      TakenOn(s, CompleteServiceTask(s, id, worker, extra, env),
              ServiceHandover(s, id, state, variables, variables, next), env)
  {
    var task := s.serviceTasks[id];
    var i, t := task.instanceId, task.tokenId;
    var s1 := TakeServiceTask(s, id);
    FewerSane(s, s1);
    hide LeaveTask, ResolveNext, Finish, Sane, TakenOn, LeavingTask;
    var tok := MergedToken(s1, i, t, extra);
    var s3 := Synced(LeaveTask(s1, i, t, task.nodeId), i, tok.variables);
    assert CompleteServiceTask(s, id, worker, extra, env) == Finish(s3, i, tok, variables, task.nodeId, env);
    hide CompleteServiceTask;
    LeavesTask(s, s1, s3, i, t, task.nodeId, tok, variables, next, env);
  }

  lemma IncidentHandsOver(s: State, id: Uuid, extra: Variables, variables: Variables, next: string, env: Env)
    requires ServiceLeadsTo(s, id, variables, next) && s.serviceTasks[id].data.retries <= 0
    requires var task := s.serviceTasks[id];
      env.endScript(s.instances[task.instanceId].tokens[task.tokenId].variables + extra) == Some(variables)
    ensures var state := RunningOn(s.instances[s.serviceTasks[id].instanceId].state);
      TakenOn(s, ResolveIncident(s, id, extra, env), ServiceHandover(s, id, state, variables, variables, next), env)
  {
    var task := s.serviceTasks[id];
    var i, t := task.instanceId, task.tokenId;
    var s1 := TakeServiceTask(s, id);
    FewerSane(s, s1);
    hide LeaveTask, ResolveNext, Finish, Sane, TakenOn, LeavingTask;
    var tok := MergedToken(s1, i, t, extra);
    var s3 := Shown(LeaveTask(s1, i, t, task.nodeId), i, task.nodeId);
    assert ResolveIncident(s, id, extra, env) == Finish(s3, i, tok, variables, task.nodeId, env);
    hide ResolveIncident;
    LeavesTask(s, s1, s3, i, t, task.nodeId, tok, variables, next, env);
  }

  /** The task and its boundary events are gone, and the token is out of the instance. */
  lemma ErrorLeaves(s: State, id: Uuid)
    requires id in s.serviceTasks && Present(s, s.serviceTasks[id].instanceId, s.serviceTasks[id].tokenId)
    ensures var task := s.serviceTasks[id]; var i, t := task.instanceId, task.tokenId;
      var s2 := CancelBoundary(TakeServiceTask(s, id), i, task.nodeId);
      && s2.instances == s.instances && s2.definitions == s.definitions
      && var s3 := WithoutToken(s2.WithInstance(i, s2.instances[i].(state := Running)), i, t);
         var inst := s.instances[i];
      && s3.instances == s.instances[i := inst.(tokens := inst.tokens - {t}, state := Running)]
      && s3.definitions == s.definitions && s3.userTasks == s.userTasks && s3.serviceTasks == s.serviceTasks - {id}
      && s3.timers == WithoutTimersOn(s.timers, i, DefOf(s, i), task.nodeId)
      && s3.catches == WithoutMessagesOn(s.catches, i, DefOf(s, i), task.nodeId)
      && Sane(s3) && s3.nextId == s.nextId
  {
    var task := s.serviceTasks[id];
    var s2 := CancelBoundary(TakeServiceTask(s, id), task.instanceId, task.nodeId);
    FewerSane(s, WithoutToken(s2.WithInstance(task.instanceId, s2.instances[task.instanceId].(state := Running)),
                              task.instanceId, task.tokenId));
    hide Sane;
  }

  /** A reported BPMN error: the token leaves over the first boundary event that catches it, with the
      variables it had, and the instance keeps its own. */
  lemma ErrorHandsOver(s: State, id: Uuid, worker: string, code: string, k: nat, next: string, env: Env)
    requires HeldBy(s, id, worker) && Present(s, s.serviceTasks[id].instanceId, s.serviceTasks[id].tokenId)
    requires var task := s.serviceTasks[id]; var i := task.instanceId; var d := DefOf(s, i);
      && FirstCatching(d, d.order, task.nodeId, code, k)
      && LeadsTo(s, i, d.order[k], s.instances[i].tokens[task.tokenId].variables, next)
    ensures var task := s.serviceTasks[id]; var inst := s.instances[task.instanceId];
      TakenOn(s, HandleBpmnError(s, id, worker, code, env),
              ServiceHandover(s, id, Running, inst.variables, inst.tokens[task.tokenId].variables, next), env)
  {
    var task := s.serviceTasks[id];
    var i, t := task.instanceId, task.tokenId;
    var d, inst := DefOf(s, i), s.instances[i];
    var tok := inst.tokens[t];
    FoundCatches(d, d.order, task.nodeId, code);
    var s2 := CancelBoundary(TakeServiceTask(s, id), i, task.nodeId);
    var s3 := WithoutToken(s2.WithInstance(i, s2.instances[i].(state := Running)), i, t);
    ErrorLeaves(s, id);
    var h := ServiceHandover(s, id, Running, inst.variables, tok.variables, next);
    hide MoveOn, ResolveNext, FindBoundaryError, Run, Sane, WithoutTimersOn, WithoutMessagesOn, CancelBoundary;
    hide FirstCatching, Catching;
    MoveOnTakes(s3, i, tok, d.order[k], next, env);
    assert HandleBpmnError(s, id, worker, code, env) == MoveOn(s3, i, tok, d, d.order[k], env);
    var s4 := s3.WithInstance(i, s3.instances[i].(currentNode := next));
    ShownSane(s3, i, next);
    assert s4 == Shown(s3, i, next);
    assert HandedOver(s, s4, h);
  }

  // ---- Timers and messages ----

  /** The tasks in which token `t` waits at `node` go. */
  function WithoutTasks<K>(m: map<Uuid, Entry<K>>, i: Uuid, t: Uuid, node: string): map<Uuid, Entry<K>> {
    map id | id in m && !(m[id].instanceId == i && m[id].nodeId == node && m[id].tokenId == t) :: m[id]
  }

  /** The waits of token `t` go. */
  function WithoutWaits<K>(m: map<Uuid, Entry<K>>, i: Uuid, t: Uuid): map<Uuid, Entry<K>> {
    map id | id in m && !(m[id].instanceId == i && m[id].tokenId == t) :: m[id]
  }

  lemma InterruptLeaves(s: State, i: Uuid, t: Uuid)
    requires Present(s, i, t)
    ensures var (r, tok) := InterruptToken(s, i, t); var inst := s.instances[i];
      && r.instances == s.instances[i := inst.(tokens := inst.tokens - {t})] && tok == inst.tokens[t] && Sane(r)
      && r.userTasks == WithoutTasks(s.userTasks, i, t, tok.currentNode)
      && r.serviceTasks == WithoutTasks(s.serviceTasks, i, t, tok.currentNode)
      && r.nextId == s.nextId && r.definitions == s.definitions && r.timers == s.timers && r.catches == s.catches
  {
    FewerSane(s, InterruptToken(s, i, t).0);
    hide Sane;
  }

  /** The instance with a copy of token `t` beside it: a branch of its own. */
  function Copied(inst: Instance, t: Uuid, copy: Uuid): Instance
    requires t in inst.tokens
  {
    var tok := inst.tokens[t].(id := copy);
    inst.(tokens := inst.tokens[copy := tok],
          activeTokens := inst.activeTokens + [ActiveToken(tok, Some(tok.currentNode), |inst.activeTokens|, false)],
          state := if inst.state.ParallelExecution? then inst.state else ParallelExecution(|inst.tokens[copy := tok]|))
  }

  lemma CloneLeaves(s: State, i: Uuid, t: Uuid)
    requires Present(s, i, t)
    ensures var (r, tok) := CloneToken(s, i, t); var inst := s.instances[i];
      && tok == inst.tokens[t].(id := s.nextId) && Sane(r)
      && r == s.WithInstance(i, Copied(inst, t, s.nextId)).(nextId := s.nextId + 1)
  {
    FewerSane(s, CloneToken(s, i, t).0);
    hide Sane;
  }

  /** What an event hands over that interrupts: its token leaves, and the tasks the token had at its node
      go with it, like everything the token waited for. */
  function Interrupting(s: State, i: Uuid, t: Uuid, state: InstanceState, variables: Variables, next: string): Handover
    requires HasToken(s, i, t)
  {
    var inst := s.instances[i];
    var tok := inst.tokens[t];
    Handover(i, Leaving(inst, t, state, inst.variables, next), tok.(variables := variables, currentNode := next),
             WithoutTasks(s.userTasks, i, t, tok.currentNode), WithoutTasks(s.serviceTasks, i, t, tok.currentNode),
             WithoutWaits(s.timers, i, t), WithoutWaits(s.catches, i, t))
  }

  /** What an event hands over that does not interrupt: the token and its tasks stay, and a copy with a
      new id goes on; what the token waited for goes all the same. */
  function NonInterrupting(s: State, i: Uuid, t: Uuid, state: InstanceState, variables: Variables,
      next: string): Handover
    requires HasToken(s, i, t)
  {
    var inst := s.instances[i];
    Handover(i, Copied(inst.(state := state), t, s.nextId).(currentNode := next),
             inst.tokens[t].(id := s.nextId, variables := variables, currentNode := next), s.userTasks, s.serviceTasks,
             WithoutWaits(s.timers, i, t), WithoutWaits(s.catches, i, t))
  }

  ghost predicate TimerLeadsTo(s: State, id: Uuid, next: string) {
    && id in s.timers && s.timers[id].tokenId != NIL && Present(s, s.timers[id].instanceId, s.timers[id].tokenId)
    && var i := s.timers[id].instanceId;
       LeadsTo(s, i, s.timers[id].nodeId, s.instances[i].tokens[s.timers[id].tokenId].variables, next)
  }

  lemma TimerTakenIs(s: State, id: Uuid)
    requires id in s.timers && Present(s, s.timers[id].instanceId, s.timers[id].tokenId)
    ensures var i, t := s.timers[id].instanceId, s.timers[id].tokenId; var r := TimerTaken(s, id);
      && r.instances == s.instances[i := s.instances[i].(state := Running)] && r.userTasks == s.userTasks
      && r.serviceTasks == s.serviceTasks && r.nextId == s.nextId && r.definitions == s.definitions
      && r.timers == WithoutWaits(s.timers, i, t) && r.catches == WithoutWaits(s.catches, i, t) && Present(r, i, t)
  {
    FewerSane(s, TimerTaken(s, id));
    hide Sane;
  }

  /** What a fired timer hands over, as its boundary event says. */
  function TimerHandover(s: State, id: Uuid, next: string): Handover
    requires id in s.timers && HasToken(s, s.timers[id].instanceId, s.timers[id].tokenId)
    requires s.instances[s.timers[id].instanceId].definitionKey in s.definitions
  {
    var i, t, node := s.timers[id].instanceId, s.timers[id].tokenId, s.timers[id].nodeId;
    var nodes := s.definitions[s.instances[i].definitionKey].nodes;
    var variables := s.instances[i].tokens[t].variables;
    if node in nodes && nodes[node].BoundaryTimerEvent? && !nodes[node].cancelActivity
    then NonInterrupting(s, i, t, Running, variables, next) else Interrupting(s, i, t, Running, variables, next)
  }

  /** An event took its token, or a copy of it; `state` is the instance's state by then. */
  ghost predicate Resumed(s: State, r: State, i: Uuid, t: Uuid, state: InstanceState, copied: bool, tok: Token)
    requires HasToken(s, i, t)
  {
    var inst := s.instances[i];
    var was := inst.tokens[t];
    && Sane(r) && s.nextId <= r.nextId && r.definitions == s.definitions
    && r.timers == WithoutWaits(s.timers, i, t) && r.catches == WithoutWaits(s.catches, i, t)
    && (copied ==>
          && tok == was.(id := s.nextId, variables := tok.variables)
          && r.instances == s.instances[i := Copied(inst.(state := state), t, s.nextId)]
          && r.userTasks == s.userTasks && r.serviceTasks == s.serviceTasks)
    && (!copied ==>
          && tok == was.(variables := tok.variables)
          && r.instances == s.instances[i := inst.(tokens := inst.tokens - {t}, state := RunningOn(state))]
          && r.userTasks == WithoutTasks(s.userTasks, i, t, was.currentNode)
          && r.serviceTasks == WithoutTasks(s.serviceTasks, i, t, was.currentNode))
  }

  lemma TimerResumesToken(s: State, id: Uuid)
    requires id in s.timers && Present(s, s.timers[id].instanceId, s.timers[id].tokenId)
    ensures var i, t := s.timers[id].instanceId, s.timers[id].tokenId; var (r, tok) := TimerResumes(s, id);
      && Resumed(s, r, i, t, Running, NonInterruptingTimer(DefOf(s, i), s.timers[id].nodeId), tok)
      && tok.variables == s.instances[i].tokens[t].variables
  {
    var i, t := s.timers[id].instanceId, s.timers[id].tokenId;
    var taken := TimerTaken(s, id);
    TimerTakenIs(s, id);
    InterruptLeaves(taken, i, t);
    CloneLeaves(taken, i, t);
    hide Sane, InterruptToken, CloneToken, TimerTaken, WithoutTasks, WithoutWaits, Present, NonInterruptingTimer;
  }

  /** The batch that takes the resumed token on from there. */
  lemma ResumedGoesOn(s: State, r: State, i: Uuid, t: Uuid, state: InstanceState, copied: bool, tok: Token,
      node: string, next: string, env: Env)
    requires HasToken(s, i, t) && Resumed(s, r, i, t, state, copied, tok)
    requires s.instances[i].definitionKey in s.definitions && LeadsTo(s, i, node, tok.variables, next)
    ensures TakenOn(s, MoveOn(r, i, tok, DefOf(s, i), node, env),
                    if copied then NonInterrupting(s, i, t, state, tok.variables, next)
                    else Interrupting(s, i, t, RunningOn(state), tok.variables, next), env)
  {
    hide MoveOn, ResolveNext, Run, Sane, WithoutTasks, WithoutWaits;
    MoveOnTakes(r, i, tok, node, next, env);
    ShownSane(r, i, next);
    var h := if copied then NonInterrupting(s, i, t, state, tok.variables, next)
             else Interrupting(s, i, t, RunningOn(state), tok.variables, next);
    assert HandedOver(s, Shown(r, i, next), h);
  }

  /** A fired timer hands over as its boundary event says; when the batch is done, it is scheduled again. */
  lemma TimerHandsOver(s: State, id: Uuid, next: string, defOrder: seq<Uuid>, env: Env)
    requires TimerLeadsTo(s, id, next)
    ensures var (s2, r) := ResumeTimer(s, id, defOrder, env);
      && TakenOn(s, (s2, r), TimerHandover(s, id, next), env)
      && FireTimer(s, id, defOrder, env) == if r.Done? then (Reschedule(s2, s.timers[id], env), Done) else (s2, r)
  {
    var timer := s.timers[id];
    var i, t := timer.instanceId, timer.tokenId;
    var d := DefOf(s, i);
    var (s2, tok) := TimerResumes(s, id);
    TimerResumesToken(s, id);
    hide MoveOn, LeadsTo, TimerResumes, Reschedule, Resumed, TakenOn, Interrupting, NonInterrupting, Sane;
    assert ResumeTimer(s, id, defOrder, env) == MoveOn(s2, i, tok, d, timer.nodeId, env);
    ResumedGoesOn(s, s2, i, t, Running, NonInterruptingTimer(d, timer.nodeId), tok, timer.nodeId, next, env);
  }

  ghost predicate CatchLeadsTo(s: State, id: Uuid, variables: Variables, next: string) {
    && id in s.catches && s.catches[id].tokenId != NIL && Present(s, s.catches[id].instanceId, s.catches[id].tokenId)
    && var i := s.catches[id].instanceId;
       LeadsTo(s, i, s.catches[id].nodeId, s.instances[i].tokens[s.catches[id].tokenId].variables + variables, next)
  }

  lemma CatchClearedIs(s: State, id: Uuid)
    requires id in s.catches && Present(s, s.catches[id].instanceId, s.catches[id].tokenId)
    ensures WaitsCleared(s, CatchCleared(s, id), s.catches[id].instanceId, s.catches[id].tokenId)
  {
    FewerSane(s, CatchCleared(s, id));
    hide Sane;
  }

  /** What a matched catch hands over, as its boundary event says: the message's variables go over the
      token's. */
  function CatchHandover(s: State, id: Uuid, variables: Variables, next: string): Handover
    requires id in s.catches && HasToken(s, s.catches[id].instanceId, s.catches[id].tokenId)
    requires s.instances[s.catches[id].instanceId].definitionKey in s.definitions
  {
    var i, t, node := s.catches[id].instanceId, s.catches[id].tokenId, s.catches[id].nodeId;
    var nodes := s.definitions[s.instances[i].definitionKey].nodes;
    var merged := s.instances[i].tokens[t].variables + variables;
    if node in nodes && nodes[node].BoundaryMessageEvent? && !nodes[node].cancelActivity
    then NonInterrupting(s, i, t, s.instances[i].state, merged, next)
    else Interrupting(s, i, t, RunningOn(s.instances[i].state), merged, next)
  }

  lemma CatchResumesToken(s: State, id: Uuid, variables: Variables)
    requires id in s.catches && Present(s, s.catches[id].instanceId, s.catches[id].tokenId)
    ensures var i, t, node := s.catches[id].instanceId, s.catches[id].tokenId, s.catches[id].nodeId;
      var (r, tok) := CatchResumes(CatchCleared(s, id), i, t, DefOf(s, i), node, variables);
      && Resumed(s, r, i, t, s.instances[i].state, NonInterruptingMessage(DefOf(s, i), node), tok)
      && tok.variables == s.instances[i].tokens[t].variables + variables
  {
    var i, t := s.catches[id].instanceId, s.catches[id].tokenId;
    CatchClearedIs(s, id);
    hide Sane, CatchCleared, Resumed, Present, NonInterruptingMessage, CloneToken, InterruptToken;
    if NonInterruptingMessage(DefOf(s, i), s.catches[id].nodeId) {
      CopyResumes(s, CatchCleared(s, id), i, t, variables);
    } else {
      TokenResumes(s, CatchCleared(s, id), i, t, variables);
    }
  }

  /** Only the waits of token `t` went. */
  ghost predicate WaitsCleared(s: State, cleared: State, i: Uuid, t: Uuid) {
    && cleared.instances == s.instances && cleared.userTasks == s.userTasks && cleared.serviceTasks == s.serviceTasks
    && cleared.nextId == s.nextId && cleared.definitions == s.definitions && Present(cleared, i, t)
    && cleared.timers == WithoutWaits(s.timers, i, t) && cleared.catches == WithoutWaits(s.catches, i, t)
  }

  lemma CopyResumes(s: State, cleared: State, i: Uuid, t: Uuid, variables: Variables)
    requires Present(s, i, t) && WaitsCleared(s, cleared, i, t)
    ensures var (s2, tok) := CloneToken(cleared, i, t); var r := s2.WithInstance(i, s2.instances[i].Resumed());
      Resumed(s, r, i, t, s.instances[i].state, true, tok.(variables := tok.variables + variables))
      && tok.variables == s.instances[i].tokens[t].variables
  {
    CloneLeaves(cleared, i, t);
    hide CloneToken, WithoutWaits, Sane;
    RunsOnSane(CloneToken(cleared, i, t).0, i);
  }

  lemma TokenResumes(s: State, cleared: State, i: Uuid, t: Uuid, variables: Variables)
    requires Present(s, i, t) && WaitsCleared(s, cleared, i, t)
    ensures var (s2, tok) := InterruptToken(cleared, i, t); var r := s2.WithInstance(i, s2.instances[i].Resumed());
      Resumed(s, r, i, t, s.instances[i].state, false, tok.(variables := tok.variables + variables))
      && tok.variables == s.instances[i].tokens[t].variables
  {
    InterruptLeaves(cleared, i, t);
    hide InterruptToken, WithoutWaits, WithoutTasks, Sane;
    RunsOnSane(InterruptToken(cleared, i, t).0, i);
  }

  lemma RunsOnSane(s: State, i: Uuid)
    requires Sane(s) && i in s.instances
    ensures Sane(s.WithInstance(i, s.instances[i].Resumed()))
  {}

  /** A resumed message catch hands over as its boundary event says, with the message's variables over
      the token's. */
  lemma MessageHandsOver(s: State, id: Uuid, variables: Variables, next: string, defOrder: seq<Uuid>, env: Env)
    requires CatchLeadsTo(s, id, variables, next)
    ensures TakenOn(s, FireCatch(s, id, variables, defOrder, env), CatchHandover(s, id, variables, next), env)
  {
    var i, t, node := s.catches[id].instanceId, s.catches[id].tokenId, s.catches[id].nodeId;
    var d := DefOf(s, i);
    var (s2, tok) := CatchResumes(CatchCleared(s, id), i, t, d, node, variables);
    CatchResumesToken(s, id, variables);
    CatchClearedIs(s, id);
    hide MoveOn, LeadsTo, CatchResumes, Resumed, TakenOn, Interrupting, NonInterrupting, Sane, WithoutWaits;
    assert FireCatch(s, id, variables, defOrder, env) == MoveOn(s2, i, tok, d, node, env);
    hide FireCatch;
    ResumedGoesOn(s, s2, i, t, s.instances[i].state, NonInterruptingMessage(d, node), tok, node, next, env);
  }

  /** A timer that fires for a token takes every other timer and message of that token with it, whether
      it interrupts or not: after a reminder, the deadline of the same activity is gone. */
  lemma ReminderCancelsDeadline(s: State, id: Uuid, defOrder: seq<Uuid>, env: Env)
    requires Sane(s) && id in s.timers
    ensures var s' := FireTimer(s, id, defOrder, env).0; var i, t := s.timers[id].instanceId, s.timers[id].tokenId;
      && (forall x <- s.timers :: s.timers[x].instanceId == i && s.timers[x].tokenId == t ==> x !in s'.timers)
      && (forall x <- s.catches :: s.catches[x].instanceId == i && s.catches[x].tokenId == t ==> x !in s'.catches)
  {
    ResumeTimerSteps(s, id, defOrder, env);
    hide ResumeTimer;
  }

  // ---- No way on ----

  /** No flow leads on from `node` for a token with these variables. */
  ghost predicate DeadEnd(d: ProcessDefinition, node: string, variables: Variables) {
    forall f <- d.NextNodes(node) :: !Open(f, variables)
  }

  lemma NoWayOn(s: State, i: Uuid, tok: Token, d: ProcessDefinition, node: string, env: Env)
    requires DeadEnd(d, node, tok.variables)
    ensures MoveOn(s, i, tok, d, node, env) == (s, Failed(InvalidDefinition))
  {
    ResolvesToFirstOpen(d.NextNodes(node), tok.variables);
    hide ResolveNext, Open, Run;
  }

  lemma FinishStrands(s: State, i: Uuid, tok: Token, variables: Variables, node: string, env: Env)
    requires i in s.instances && s.instances[i].definitionKey in s.definitions
    requires DeadEnd(DefOf(s, i), node, variables)
    ensures Finish(s, i, tok, variables, node, env) == (Synced(s, i, variables), Failed(InvalidDefinition))
  {
    NoWayOn(Synced(s, i, variables), i, tok.(variables := variables), DefOf(s, i), node, env);
    hide MoveOn, DeadEnd;
  }

  /** Token `t` left the task at `node` and has nowhere to go: it is in no map any more. */
  ghost predicate Stranded(s: State, outcome: (State, Outcome), i: Uuid, t: Uuid, variables: Variables) {
    && outcome.1 == Failed(InvalidDefinition) && i in s.instances && i in outcome.0.instances
    && outcome.0.instances[i].tokens == s.instances[i].tokens - {t} && outcome.0.instances[i].variables == variables
    && !outcome.0.instances[i].state.Terminal()
  }

  /** A user task whose token finds no open flow behind it is gone all the same, and so is the token: the
      call fails, and the instance is left without it. */
  lemma UserTaskStrands(s: State, id: Uuid, extra: Variables, variables: Variables, env: Env)
    requires id in s.userTasks && Present(s, s.userTasks[id].instanceId, s.userTasks[id].tokenId)
    requires var task := s.userTasks[id]; var i := task.instanceId;
      && !IsSuspended(s, i) && env.endScript(s.instances[i].tokens[task.tokenId].variables + extra) == Some(variables)
      && DeadEnd(DefOf(s, i), task.nodeId, variables) && !s.instances[i].state.Terminal()
    ensures var outcome := CompleteUserTask(s, id, extra, env); var task := s.userTasks[id];
      && Stranded(s, outcome, task.instanceId, task.tokenId, variables) && outcome.0.userTasks == s.userTasks - {id}
  {
    var task := s.userTasks[id];
    var i, t := task.instanceId, task.tokenId;
    var s1 := s.(userTasks := s.userTasks - {id});
    var s3 := Shown(LeaveTask(s1, i, t, task.nodeId), i, task.nodeId);
    FewerSane(s, s1);
    LeaveTaskLeaves(s1, i, t, task.nodeId);
    hide LeaveTask, Finish, Sane, DeadEnd;
    FinishStrands(s3, i, MergedToken(s1, i, t, extra), variables, task.nodeId, env);
  }

  lemma ServiceTaskStrands(s: State, id: Uuid, worker: string, extra: Variables, variables: Variables, env: Env)
    requires HeldBy(s, id, worker) && Present(s, s.serviceTasks[id].instanceId, s.serviceTasks[id].tokenId)
    requires var task := s.serviceTasks[id]; var i := task.instanceId;
      && !IsSuspended(s, i) && env.endScript(s.instances[i].tokens[task.tokenId].variables + extra) == Some(variables)
      && DeadEnd(DefOf(s, i), task.nodeId, variables) && !s.instances[i].state.Terminal()
    ensures var outcome := CompleteServiceTask(s, id, worker, extra, env); var task := s.serviceTasks[id];
      && Stranded(s, outcome, task.instanceId, task.tokenId, variables)
      && outcome.0.serviceTasks == s.serviceTasks - {id}
  {
    var task := s.serviceTasks[id];
    var i, t := task.instanceId, task.tokenId;
    var s1 := TakeServiceTask(s, id);
    var tok := MergedToken(s1, i, t, extra);
    var s3 := Synced(LeaveTask(s1, i, t, task.nodeId), i, tok.variables);
    FewerSane(s, s1);
    LeaveTaskLeaves(s1, i, t, task.nodeId);
    hide LeaveTask, Finish, Sane, DeadEnd;
    FinishStrands(s3, i, tok, variables, task.nodeId, env);
  }

  lemma IncidentStrands(s: State, id: Uuid, extra: Variables, variables: Variables, env: Env)
    requires id in s.serviceTasks && Present(s, s.serviceTasks[id].instanceId, s.serviceTasks[id].tokenId)
    requires var task := s.serviceTasks[id]; var i := task.instanceId;
      && task.data.retries <= 0
         && env.endScript(s.instances[i].tokens[task.tokenId].variables + extra) == Some(variables)
      && DeadEnd(DefOf(s, i), task.nodeId, variables) && !s.instances[i].state.Terminal()
    ensures var outcome := ResolveIncident(s, id, extra, env); var task := s.serviceTasks[id];
      && Stranded(s, outcome, task.instanceId, task.tokenId, variables)
      && outcome.0.serviceTasks == s.serviceTasks - {id}
  {
    var task := s.serviceTasks[id];
    var i, t := task.instanceId, task.tokenId;
    var s1 := TakeServiceTask(s, id);
    var s3 := Shown(LeaveTask(s1, i, t, task.nodeId), i, task.nodeId);
    FewerSane(s, s1);
    LeaveTaskLeaves(s1, i, t, task.nodeId);
    hide LeaveTask, Finish, Sane, DeadEnd;
    FinishStrands(s3, i, MergedToken(s1, i, t, extra), variables, task.nodeId, env);
  }

  /** An error that no boundary event catches: the call succeeds, the task and what was attached to it are
      gone, and the token stays where it is, with no work left that would take it on. */
  lemma UncaughtErrorKeepsToken(s: State, id: Uuid, worker: string, code: string, env: Env)
    requires HeldBy(s, id, worker) && Present(s, s.serviceTasks[id].instanceId, s.serviceTasks[id].tokenId)
    requires var d := DefOf(s, s.serviceTasks[id].instanceId);
      forall n <- d.order :: !Catching(d, n, s.serviceTasks[id].nodeId, code)
    ensures var (s', r) := HandleBpmnError(s, id, worker, code, env); var i := s.serviceTasks[id].instanceId;
      && r == Done && s'.instances == s.instances && s'.userTasks == s.userTasks
      && s'.serviceTasks == s.serviceTasks - {id}
      && s'.timers == WithoutTimersOn(s.timers, i, DefOf(s, i), s.serviceTasks[id].nodeId)
      && s'.catches == WithoutMessagesOn(s.catches, i, DefOf(s, i), s.serviceTasks[id].nodeId)
  {
    var d := DefOf(s, s.serviceTasks[id].instanceId);
    FoundCatches(d, d.order, s.serviceTasks[id].nodeId, code);
    ErrorLeaves(s, id);
    hide Sane, Catching, FindBoundaryError;
  }

  /** A timer whose token finds no open flow behind its event is used up, and not scheduled again. */
  lemma TimerStrands(s: State, id: Uuid, defOrder: seq<Uuid>, env: Env)
    requires id in s.timers && s.timers[id].tokenId != NIL && Present(s, s.timers[id].instanceId, s.timers[id].tokenId)
    requires var i := s.timers[id].instanceId;
      DeadEnd(DefOf(s, i), s.timers[id].nodeId, s.instances[i].tokens[s.timers[id].tokenId].variables)
    ensures var (s', r) := FireTimer(s, id, defOrder, env); var i, t := s.timers[id].instanceId, s.timers[id].tokenId;
      r == Failed(InvalidDefinition) && s'.timers == WithoutWaits(s.timers, i, t)
  {
    var i, t := s.timers[id].instanceId, s.timers[id].tokenId;
    var (s2, tok) := TimerResumes(s, id);
    TimerResumesToken(s, id);
    hide MoveOn, TimerResumes, Reschedule, Resumed, Sane, DeadEnd, WithoutWaits;
    NoWayOn(s2, i, tok, DefOf(s, i), s.timers[id].nodeId, env);
    ResumedTimers(s, s2, i, t, Running, NonInterruptingTimer(DefOf(s, i), s.timers[id].nodeId), tok);
  }

  lemma ResumedTimers(s: State, r: State, i: Uuid, t: Uuid, state: InstanceState, copied: bool, tok: Token)
    requires HasToken(s, i, t) && Resumed(s, r, i, t, state, copied, tok)
    ensures r.timers == WithoutWaits(s.timers, i, t)
  {}

  /** A message whose token finds no open flow fails the call in the same way. */
  lemma MessageStrands(s: State, id: Uuid, variables: Variables, defOrder: seq<Uuid>, env: Env)
    requires id in s.catches && s.catches[id].tokenId != NIL
      && Present(s, s.catches[id].instanceId, s.catches[id].tokenId)
    requires var i := s.catches[id].instanceId; DeadEnd(DefOf(s, i), s.catches[id].nodeId,
      s.instances[i].tokens[s.catches[id].tokenId].variables + variables)
    ensures FireCatch(s, id, variables, defOrder, env).1 == Failed(InvalidDefinition)
  {
    var i, t, node := s.catches[id].instanceId, s.catches[id].tokenId, s.catches[id].nodeId;
    var d := DefOf(s, i);
    var (s2, tok) := CatchResumes(CatchCleared(s, id), i, t, d, node, variables);
    CatchResumesToken(s, id, variables);
    CatchClearedIs(s, id);
    hide MoveOn, CatchResumes, Resumed, Sane, WithoutWaits, DeadEnd;
    NoWayOn(s2, i, tok, d, node, env);
  }

  // ---- Moving and starting ----

  /** A move hands over one token, at the target, with the instance's variables and the caller's, and
      nothing else of the instance; a cancelling one drops all its pending work. */
  lemma MoveHandsOver(s: State, i: Uuid, target: string, update: Variables, cancel: bool, env: Env)
    requires Sane(s) && MoveError(s, i, target).None?
    ensures var variables := Merged(s.instances[i].variables, update);
      var tok := Token(s.nextId, target, variables, false);
      var inst := s.instances[i].(tokens := map[s.nextId := tok], activeTokens := [], joinBarriers := map[],
        multiInstance := map[], state := Running, currentNode := target, variables := variables);
      TakenOn(s, MoveToken(s, i, target, update, cancel, env),
              if cancel then Handover(i, inst, tok, OfOthers(s.userTasks, i), OfOthers(s.serviceTasks, i),
                                      OfOthers(s.timers, i), OfOthers(s.catches, i))
              else Handover(i, inst, tok, s.userTasks, s.serviceTasks, s.timers, s.catches), env)
  {
    hide Run, Merged, DropInstance, OfOthers, Sane;
    var tok := MovedToken(s, i, target, update);
    var dropped := if cancel then DropPending(s, i) else s;
    var s1 := Relocated(dropped, i, tok);
    DroppedIsOthers(s.userTasks, i);
    DroppedIsOthers(s.serviceTasks, i);
    DroppedIsOthers(s.timers, i);
    DroppedIsOthers(s.catches, i);
    RelocatedSane(s, dropped, i, tok);
    assert MoveToken(s, i, target, update, cancel, env) == Run(s1, i, tok, env);
    hide MoveToken;
    assert HandedOver(s, s1, Handover(i, s1.instances[i], tok, s1.userTasks, s1.serviceTasks, s1.timers, s1.catches));
  }

  lemma RelocatedSane(s: State, dropped: State, i: Uuid, tok: Token)
    requires Sane(s) && i in s.instances && (dropped == s || dropped == DropPending(s, i))
    ensures Sane(Relocated(dropped, i, tok))
  {
    FewerSane(s, Relocated(dropped, i, tok));
  }

  lemma DroppedIsOthers<K>(m: map<Uuid, Entry<K>>, i: Uuid)
    ensures DropInstance(m, i) == OfOthers(m, i)
  {}

  /** The pending work of the other instances. */
  function OfOthers<K>(m: map<Uuid, Entry<K>>, i: Uuid): map<Uuid, Entry<K>> {
    map id | id in m && m[id].instanceId != i :: m[id]
  }

  /** The scope listeners of a started instance wait under the nil token: timers, each due as its
      definition says, and messages. */
  ghost predicate Listening(s: State, listeners: seq<ScopeEventListener>, i: Uuid, env: Env) {
    && (forall l <- listeners :: l.TimerListener? ==> HasTimer(s, i, l.targetDefinition, NIL, l.timer, env))
    && (forall l <- listeners :: l.MessageListener? ==> HasCatch(s, i, l.targetDefinition, NIL, l.messageName))
  }

  lemma ListeningJoined(s: State, l: ScopeEventListener, rest: seq<ScopeEventListener>, i: Uuid, env: Env)
    requires Listening(s, [l], i, env) && Listening(s, rest, i, env)
    ensures Listening(s, [l] + rest, i, env)
  {
    assert l in [l];
    hide HasTimer, HasCatch;
  }

  lemma ListeningLater(a: State, b: State, c: State, listeners: seq<ScopeEventListener>, i: Uuid, env: Env)
    requires WaitsAdded(a, b, i, NIL) && WaitsAdded(b, c, i, NIL) && Listening(b, listeners, i, env)
    ensures WaitsAdded(a, c, i, NIL) && Listening(c, listeners, i, env)
  {
    WaitsAddedThen(a, b, c, i, NIL, env);
    hide HasTimer, HasCatch, WaitsAdded;
  }

  /** The state after one listener is registered. */
  function AddListener(s: State, l: ScopeEventListener, i: Uuid, env: Env): State {
    match l
    case TimerListener(timer, target) => AddTimer(s, i, NIL, target, timer, env)
    case MessageListener(name, target) => AddCatch(s, i, NIL, target, name)
    case ErrorListener(_) => s
  }

  lemma AddListenerAdds(s: State, l: ScopeEventListener, i: Uuid, env: Env)
    requires Sane(s)
    ensures var r := AddListener(s, l, i, env); WaitsAdded(s, r, i, NIL) && Listening(r, [l], i, env)
  {
    hide AddTimer, AddCatch, HasTimer, HasCatch, OnlyWorkFor, Sane;
    NoWork(s, i, NIL);
    match l
    case TimerListener(timer, target) => AddTimerAdds(s, i, NIL, target, timer, env);
    case MessageListener(name, target) => AddCatchAdds(s, i, NIL, target, name);
    case ErrorListener(_) =>
  }

  lemma {:induction false} ListenersListen(s: State, listeners: seq<ScopeEventListener>, i: Uuid, env: Env)
    requires Sane(s)
    ensures var r := RegisterListeners(s, listeners, i, env);
      WaitsAdded(s, r, i, NIL) && Listening(r, listeners, i, env)
    decreases |listeners|
  {
    if listeners == [] {
      NoWork(s, i, NIL);
    } else {
      var s1 := AddListener(s, listeners[0], i, env);
      var r := RegisterListeners(s1, listeners[1..], i, env);
      AddListenerAdds(s, listeners[0], i, env);
      AddedSane(s, s1, i, NIL);
      assert RegisterListeners(s, listeners, i, env) == r;
      hide AddListener, WaitsAdded, Listening, RegisterListeners;
      ListenersListen(s1, listeners[1..], i, env);
      ListeningLater(s, s1, r, [listeners[0]], i, env);
      ListeningJoined(r, listeners[0], listeners[1..], i, env);
      assert [listeners[0]] + listeners[1..] == listeners;
    }
  }

  /** The business key of a started instance is the one given as a text; otherwise the instance has a key
      made of its id. */
  ghost predicate KeyedBy(variables: Variables, i: Uuid, businessKey: string) {
    if "business_key" in variables && variables["business_key"].Str? then businessKey == variables["business_key"].s
    else businessKey == Text.PrintNat(i)
  }

  /** What a started instance hands over to its first batch. */
  ghost predicate Launched(s: State, s1: State, key: Uuid, start: string, variables: Variables, env: Env)
    requires key in s.definitions
  {
    var i, rest := s.nextId, variables - {"business_key"};
    && i in s1.instances && KeyedBy(variables, i, s1.instances[i].businessKey)
    && HandedOver(s, s1,
         Handover(i, Instance(key, s1.instances[i].businessKey, Running, start, rest, map[], [], map[], map[]),
                                  Token(i + 1, start, rest, false), s.userTasks, s.serviceTasks, s1.timers, s1.catches))
    && OnlyFor(s.timers, s1.timers, i, NIL) && OnlyFor(s.catches, s1.catches, i, NIL)
    && Listening(s1, s.definitions[key].eventListeners, i, env)
  }

  lemma StartedIs(s: State, key: Uuid, start: string, variables: Variables, env: Env)
    requires Sane(s) && key in s.definitions
    ensures Launched(s, Started(s, key, start, variables, env), key, start, variables, env)
  {
    var i := s.nextId;
    var inst := InitialInstance(key, BusinessKeyOf(variables, i), start, variables - {"business_key"});
    var s1 := s.WithInstance(i, inst).(nextId := i + 2);
    FewerSane(s, s1);
    hide RegisterListeners, Sane, Listening;
    ListenersListen(s1, s.definitions[key].eventListeners, i, env);
  }

  /** A start hands over one token at the start event, with all variables but the business key, which the
      instance has; its scope listeners wait. */
  lemma StartHandsOver(s: State, key: Uuid, start: string, variables: Variables, env: Env)
    requires key in s.definitions && Sane(s)
    requires StartEventOf(s.definitions[key], s.definitions[key].order) == Some(start)
      && !s.definitions[key].nodes[start].TimerStartEvent?
    ensures var i, rest := s.nextId, variables - {"business_key"};
      exists s1 :: Launched(s, s1, key, start, variables, env)
        && var (s', r) := Run(s1, i, Token(i + 1, start, rest, false), env);
           StartInstance(s, key, variables, env) == (s', match r case Done => Ok(i) case Failed(e) => Err(e))
  {
    hide Run, Started, Launched;
    StartedIs(s, key, start, variables, env);
    var s1 := Started(s, key, start, variables, env);
    assert Launched(s, s1, key, start, variables, env);
  }

  /** The first start event on the way is the one where instances start. */
  ghost predicate FirstStart(d: ProcessDefinition, order: seq<string>, k: nat) {
    && k < |order| && order[k] in d.nodes && Starts(d.nodes[order[k]])
    && forall j :: 0 <= j < k ==> !(order[j] in d.nodes && Starts(d.nodes[order[j]]))
  }

  predicate Starts(el: BpmnElement) {
    el.StartEvent? || el.TimerStartEvent? || el.MessageStartEvent?
  }

  /** Instances start at the first start event of their definition, and none exactly when it has none. */
  lemma {:induction false} StartsAtFirst(d: ProcessDefinition, order: seq<string>)
    ensures StartEventOf(d, order).None? <==> forall n <- order :: n in d.nodes ==> !Starts(d.nodes[n])
    ensures forall k: nat :: FirstStart(d, order, k) ==> StartEventOf(d, order) == Some(order[k])
    decreases |order|
  {
    if order != [] && !(order[0] in d.nodes && Starts(d.nodes[order[0]])) {
      StartsAtFirst(d, order[1..]);
      forall k: nat | FirstStart(d, order, k) ensures StartEventOf(d, order) == Some(order[k]) {
        assert FirstStart(d, order[1..], k - 1);
      }
      assert order == [order[0]] + order[1..];
    } else if order != [] {
      assert order[0] in order;
      assert forall k: nat :: FirstStart(d, order, k) ==> k == 0;
    }
  }

  /** An instance whose steps lead from its start event straight to an end is completed when the call that
      starts it returns: with the error code at an error end. */
  lemma StartToEndCompletes(s: State, key: Uuid, start: string, variables: Variables, last: string, env: Env)
    requires key in s.definitions && Sane(s)
    requires StartEventOf(s.definitions[key], s.definitions[key].order) == Some(start)
      && !s.definitions[key].nodes[start].TimerStartEvent?
    requires PathToEnd(s.definitions[key], start, env.steps, last) && |env.steps| <= MAX_EXECUTION_STEPS
    ensures var (s', r) := StartInstance(s, key, variables, env); var i := s.nextId;
      && r == Ok(i) && i in s'.instances && last in s.definitions[key].nodes
      && EndsAs(s.definitions[key].nodes[last], s'.instances[i].state)
  {
    var i, rest := s.nextId, variables - {"business_key"};
    var tok := Token(i + 1, start, rest, false);
    StartHandsOver(s, key, start, variables, env);
    hide Run, StartInstance, Sane, OnlyFor, Listening, PathToEnd, EndsAs, StartEventOf, KeyedBy, TokenEnded, HandedOver;
    var s1 :| Launched(s, s1, key, start, variables, env)
      && var (s', r) := Run(s1, i, tok, env);
         StartInstance(s, key, variables, env) == (s', match r case Done => Ok(i) case Failed(e) => Err(e));
    var h := Handover(i, Instance(key, s1.instances[i].businessKey, Running, start, rest, map[], [], map[], map[]), tok,
                      s.userTasks, s.serviceTasks, s1.timers, s1.catches);
    assert TakenOn(s, Run(s1, i, tok, env), h, env);
    hide Launched, TakenOn;
    SoleHandedOverCompletes(s, Run(s1, i, tok, env), h, last, env);
  }
}
