/** Forks and joins (engine-core/src/engine/executor/helpers.rs, next_action.rs): what a fork sends out, a
    join brings back together, once. */
module Joins {
  import opened Values
  import opened Definition
  import opened EngineState
  import opened Executor
  import opened Endings
  import Gateway

  // ---- A fork ----

  /** The branches of a fork: a token for each target, with fresh ids in turn and the variables of the
      token that forked. */
  ghost predicate BranchesOf(queue: seq<Token>, targets: seq<string>, tok: Token, next: Uuid) {
    && |queue| == |targets|
    && forall k :: 0 <= k < |targets| ==> queue[k] == Token(next + k, targets[k], tok.variables, false)
  }

  lemma {:induction false} ForkedAre(targets: seq<string>, variables: Variables, next: Uuid)
    ensures var q := Gateway.Forked(targets, variables, next);
      |q| == |targets| && forall k :: 0 <= k < |targets| ==> q[k] == Token(next + k, targets[k], variables, false)
    decreases |targets|
  {
    if targets != [] {
      ForkedAre(targets[1..], variables, next + 1);
    }
  }

  lemma {:induction false} RegisteredAre(tokens: seq<Token>, fork: string, index: nat)
    ensures var r := RegisterActive(tokens, fork, index);
      |r| == |tokens| && forall k :: 0 <= k < |tokens| ==> r[k] == ActiveToken(tokens[k], Some(fork), index + k, false)
    decreases |tokens|
  {
    if tokens != [] {
      RegisteredAre(tokens[1..], fork, index + 1);
    }
  }

  /** Branches `from` on are those of the tokens, none of them completed. */
  ghost predicate Registered(active: seq<ActiveToken>, from: nat, tokens: seq<Token>, fork: string) {
    && |active| == from + |tokens|
    && forall k :: 0 <= k < |tokens| ==> active[from + k] == ActiveToken(tokens[k], Some(fork), k, false)
  }

  /** What a fork does: its token's branch is completed and one branch for each target is registered, the
      instance runs in parallel, and a join, if one is named, expects as many tokens as were sent out. */
  lemma ForkSendsOut(s: State, i: Uuid, tok: Token, rest: seq<Token>, targets: seq<string>, join: Option<string>,
      env: Env)
    requires CanAct(s, i, tok, ContinueMultiple(targets, join))
    ensures var (s', queue) := Act(s, i, tok, rest, ContinueMultiple(targets, join), env);
      && |queue| == |rest| + |targets| && rest <= queue && BranchesOf(queue[|rest|..], targets, tok, s.nextId)
      && s'.nextId == s.nextId + |targets| && i in s'.instances
      && s' == s.WithInstance(i, s'.instances[i]).(nextId := s'.nextId)
      && var inst, inst' := s.instances[i], s'.instances[i];
         && inst' == inst.(activeTokens := inst'.activeTokens,
            state := ParallelExecution(|inst.activeTokens| + |targets|),
                           currentNode := tok.currentNode, joinBarriers := inst'.joinBarriers)
         && Registered(inst'.activeTokens, |inst.activeTokens|, queue[|rest|..], tok.currentNode)
         && (forall k :: 0 <= k < |inst.activeTokens| ==>
               inst'.activeTokens[k] == if OwnBranch(inst.activeTokens, k, tok.id)
                                        then inst.activeTokens[k].(completed := true) else inst.activeTokens[k])
         && (join.None? ==> inst'.joinBarriers == inst.joinBarriers)
         && (join.Some? ==>
               inst'.joinBarriers == inst.joinBarriers[join.value := JoinBarrier(join.value, |targets|, [])])
  {
    var forked := Gateway.Forked(targets, tok.variables, s.nextId);
    ForkedAre(targets, tok.variables, s.nextId);
    RegisteredAre(forked, tok.currentNode, 0);
    MarkedAre(s.instances[i].activeTokens, tok.id);
    assert (rest + forked)[|rest|..] == forked;
    hide Gateway.Forked, RegisterActive, MarkCompleted, OwnBranch;
  }

  // ---- What a gateway decides, and what the executor does with it ----

  /** Where a gateway of the definition sends its token. */
  ghost function Routed(d: ProcessDefinition, tok: Token, nextId: Uuid): Result<Gateway.NextAction>
    requires tok.currentNode in d.nodes
  {
    var at := tok.currentNode;
    match d.nodes[at]
    case ExclusiveGateway(default) => Gateway.ExclusiveRoute(d, at, tok, default)
    case InclusiveGateway => Gateway.InclusiveRoute(d, at, tok, nextId)
    case ParallelGateway => Gateway.ParallelRoute(d, at, tok, nextId)
    case ComplexGateway(_, default) => Gateway.ComplexRoute(d, at, tok, default, nextId)
    case _ => Err(NoMatchingCondition(at))
  }

  /** The executor's action for a gateway's decision. */
  ghost predicate CarriesOut(action: Action, route: Gateway.NextAction) {
    match route
    case Continue(next) => action == Continue(next.currentNode)
    case ContinueMultiple(tokens) =>
      action.ContinueMultiple? && |action.targets| == |tokens|
      && forall k :: 0 <= k < |tokens| ==> tokens[k].currentNode == action.targets[k]
    case WaitForJoin(g, _) => action.WaitForJoin?
  }

  /** A gateway's decision is a step the executor can take, and the tokens it queues are those the gateway
      sent out: the one token, or the forked ones with their ids. A token that has to wait for a join is
      handed to the join of its gateway. */
  lemma GatewayStepsAreTaken(s: State, i: Uuid, d: ProcessDefinition, tok: Token, rest: seq<Token>, action: Action,
      route: Gateway.NextAction, env: Env)
    requires RunsOnDefinition(s, i, d) && tok.currentNode in d.nodes
    requires Routed(d, tok, s.nextId) == Ok(route) && CarriesOut(action, route)
    ensures CanAct(s, i, tok, action)
    ensures var (s', queue) := Act(s, i, tok, rest, action, env);
      && (route.Continue? ==> s' == s && queue == rest + [route.token])
      && (route.ContinueMultiple? ==> queue == rest + route.tokens)
      && (route.WaitForJoin? ==>
            route.gateway == tok.currentNode && route.token == tok && i in s.instances && action.WaitForJoin?
            && var (joined, sent) := Arrive(s, i, tok, action.expected, action.early);
               s' == joined && queue == rest + sent)
  {
    RouteIs(d, tok, s.nextId);
    GatewayCanAct(s, i, d, tok, action, route);
    SentNode(action, route);
    hide Routed, Enabled, CanAct, Arrive, Fork, Onward, CarriesOut, Gateway.Forked;
    PassingActs(s, i, d, tok, rest, action, env);
    hide Act, RunsOnDefinition;
    if route.ContinueMultiple? {
      TargetsOf(action, route);
      ForkedAre(action.targets, tok.variables, s.nextId);
      assert Gateway.Forked(action.targets, tok.variables, s.nextId) == route.tokens;
      ForkQueues(s, i, tok, action.targets, action.join);
    }
  }

  lemma TargetsOf(action: Action, route: Gateway.NextAction)
    requires CarriesOut(action, route) && route.ContinueMultiple?
    ensures action.ContinueMultiple? && |action.targets| == |route.tokens|
    ensures forall k :: 0 <= k < |route.tokens| ==> route.tokens[k].currentNode == action.targets[k]
  {}

  lemma SentNode(action: Action, route: Gateway.NextAction)
    requires CarriesOut(action, route)
    ensures route.Continue? ==> action == Continue(route.token.currentNode)
    ensures route.ContinueMultiple? <==> action.ContinueMultiple?
    ensures route.WaitForJoin? <==> action.WaitForJoin?
  {}

  lemma GatewayCanAct(s: State, i: Uuid, d: ProcessDefinition, tok: Token, action: Action, route: Gateway.NextAction)
    requires RunsOnDefinition(s, i, d) && tok.currentNode in d.nodes && CarriesOut(action, route)
    requires var el := d.nodes[tok.currentNode];
      el.IsGateway() && !el.EventBasedGateway? && (!route.Continue? ==> !el.ExclusiveGateway?)
    ensures i in s.instances && CanAct(s, i, tok, action)
  {}

  /** The actions of gateways: passing on, forking, and arriving at a join. */
  lemma PassingActs(s: State, i: Uuid, d: ProcessDefinition, tok: Token, rest: seq<Token>, action: Action, env: Env)
    requires RunsOnDefinition(s, i, d) && tok.currentNode in d.nodes && i in s.instances && CanAct(s, i, tok, action)
    ensures var (s', queue) := Act(s, i, tok, rest, action, env);
      && (action.Continue? ==> s' == s && queue == rest + [Onward(d.nodes[tok.currentNode], tok, action.node)])
      && (action.ContinueMultiple? ==> queue == rest + Fork(s, i, tok, action.targets, action.join).1)
      && (action.WaitForJoin? ==>
            var (joined, sent) := Arrive(s, i, tok, action.expected, action.early);
              s' == joined && queue == rest + sent)
  {
    hide Enabled, Arrive, Fork, Onward;
  }

  lemma RouteIs(d: ProcessDefinition, tok: Token, nextId: Uuid)
    requires tok.currentNode in d.nodes && Routed(d, tok, nextId).Ok?
    ensures var route, el := Routed(d, tok, nextId).value, d.nodes[tok.currentNode];
      && el.IsGateway() && !el.EventBasedGateway?
      && (route.Continue? ==> route.token == Onward(el, tok, route.token.currentNode))
      && (route.ContinueMultiple? ==> !el.ExclusiveGateway? && forall k :: 0 <= k < |route.tokens| ==>
            route.tokens[k] == Token(nextId + k, route.tokens[k].currentNode, tok.variables, false))
      && (route.WaitForJoin? ==> !el.ExclusiveGateway? && route.gateway == tok.currentNode && route.token == tok)
  {
    hide Gateway.Matched, Gateway.Targets, Gateway.FirstMatch, Gateway.Joins;
  }

  lemma ForkQueues(s: State, i: Uuid, tok: Token, targets: seq<string>, join: Option<string>)
    requires i in s.instances
    ensures Fork(s, i, tok, targets, join).1 == Gateway.Forked(targets, tok.variables, s.nextId)
  {}

  // ---- What elements answer ----

  predicate SameKind(a: Action, b: Action) {
    || (a.Continue? && b.Continue?) || (a.ContinueMultiple? && b.ContinueMultiple?)
       || (a.WaitForJoin? && b.WaitForJoin?)
    || (a.SpawnAndContinue? && b.SpawnAndContinue?) || a == b
  }

  /** Every element answers: forking gateways pass on, fork or wait for a join, an escalation passes on or
      spawns, and every other element has one kind of answer. */
  lemma EveryElementAnswers(el: BpmnElement)
    ensures exists action :: Enabled(el, action)
    ensures !el.InclusiveGateway? && !el.ParallelGateway? && !el.ComplexGateway? && !el.EscalationThrowEvent? ==>
      forall a, b :: Enabled(el, a) && Enabled(el, b) ==> SameKind(a, b)
  {
    assert Enabled(el, AnswerOf(el));
  }

  /** One of the answers of an element. */
  function AnswerOf(el: BpmnElement): Action {
    match el
    case UserTask(_) => WaitForUser
    case ServiceTask(_) => WaitForServiceTask
    case TimerCatchEvent(_) => WaitForTimer
    case MessageCatchEvent(_) => WaitForMessage
    case EventBasedGateway => WaitForEventGroup
    case CallActivity(_) => WaitForCallActivity
    case EndEvent => Complete(Plain)
    case CompensationEndEvent(_) => Complete(Plain)
    case BoundaryCompensationEvent(_) => Complete(Plain)
    case ErrorEndEvent(code) => Complete(WithError(code))
    case EscalationEndEvent(code) => Complete(WithEscalation(code))
    case TerminateEndEvent => Terminate
    case _ => Continue("")
  }

  /** A token that waits or ends leaves the other tokens of its batch to their turns, and does what it would
      do alone. */
  lemma OthersStayQueued(s: State, i: Uuid, tok: Token, rest: seq<Token>, action: Action, env: Env)
    requires CanAct(s, i, tok, action)
    requires || action.WaitForUser? || action.WaitForServiceTask? || action.WaitForTimer? || action.WaitForMessage?
             || action.WaitForEventGroup? || action.WaitForCallActivity? || action.Complete?
    ensures Act(s, i, tok, rest, action, env) == (Act(s, i, tok, [], action, env).0, rest)
  {
    hide WaitUser, WaitService, WaitTimer, WaitMessage, WaitEvents, WaitCall, CompleteToken;
  }

  // ---- Branches take turns ----

  /** Each token of the queue can be passed on by its step. */
  ghost predicate CanPass(d: ProcessDefinition, todo: seq<Token>, steps: seq<Step>) {
    && |todo| == |steps|
    && forall k :: 0 <= k < |todo| ==>
         todo[k].currentNode in d.nodes && steps[k].action.Continue?
           && Enabled(d.nodes[todo[k].currentNode], steps[k].action)
  }

  /** The tokens after their steps: each at the node its own step sends it to, with its own variables. */
  ghost predicate PassedEach(d: ProcessDefinition, todo: seq<Token>, steps: seq<Step>, moved: seq<Token>)
    requires CanPass(d, todo, steps)
  {
    && |moved| == |todo|
    && forall k :: 0 <= k < |todo| ==>
         moved[k] == Onward(d.nodes[todo[k].currentNode], todo[k].(variables := steps[k].variables),
           steps[k].action.node)
  }

  /** Instance `i` runs on `d`. */
  ghost predicate RunsOnDefinition(s: State, i: Uuid, d: ProcessDefinition) {
    i in s.instances && s.instances[i].definitionKey in s.definitions
      && d == s.definitions[s.instances[i].definitionKey]
  }

  /** After this round the tokens queue behind those that waited, and the instance shows what the last of
      them left. */
  ghost predicate RoundLeadsTo(s: State, i: Uuid, todo: seq<Token>, waiting: seq<Token>, steps: seq<Step>,
      later: seq<Step>, env: Env, count: nat, moved: seq<Token>)
    requires i in s.instances && steps != []
  {
    RunBatch(s, i, todo + waiting, steps + later, env, count)
    == RunBatch(s.WithInstance(i, Passed(s.instances[i], steps[|steps| - 1])), i, waiting + moved, later, env,
                count + |steps|)
  }

  /** The tokens of a queue take their steps in turn, first come first served: after one round they queue
      in the same order, each one node on. */
  lemma {:induction false} TokensTakeTurns(s: State, i: Uuid, d: ProcessDefinition, todo: seq<Token>,
      waiting: seq<Token>, steps: seq<Step>, later: seq<Step>, env: Env, count: nat) returns (moved: seq<Token>)
    requires i in s.instances && RunsOnDefinition(s, i, d) && CanPass(d, todo, steps)
    requires todo != [] && steps != [] && count + |steps| <= MAX_EXECUTION_STEPS
    ensures PassedEach(d, todo, steps, moved) && RoundLeadsTo(s, i, todo, waiting, steps, later, env, count, moved)
    decreases |todo|
  {
    HeadCanStep(s, i, d, todo, steps);
    hide CanStep, PassedOn, Prelude, PassedEach, CanPass, RunsOnDefinition, RoundLeadsTo;
    var s1, next := Prelude(s, i, steps[0]), PassedOn(s, i, todo[0], steps[0]);
    LeftBehind(s, i, d, todo[0], steps[0], steps[|steps| - 1]);
    if |todo| == 1 {
      OneTurn(s, i, d, todo, waiting, steps, later, env, count);
      moved := [next];
    } else {
      FewerCanPass(d, todo, steps);
      var rest := TokensTakeTurns(s1, i, d, todo[1..], waiting + [next], steps[1..], later, env, count + 1);
      MoreTurns(s, i, d, todo, waiting, steps, later, env, count, rest);
      moved := [next] + rest;
    }
  }

  lemma OneTurn(s: State, i: Uuid, d: ProcessDefinition, todo: seq<Token>, waiting: seq<Token>, steps: seq<Step>,
      later: seq<Step>, env: Env, count: nat)
    requires i in s.instances && RunsOnDefinition(s, i, d) && CanPass(d, todo, steps)
    requires |todo| == 1 == |steps| && CanStep(s, i, todo[0], steps[0]) && steps[0].action.Continue?
    requires count < MAX_EXECUTION_STEPS
    ensures var moved := [PassedOn(s, i, todo[0], steps[0])];
      PassedEach(d, todo, steps, moved) && RoundLeadsTo(s, i, todo, waiting, steps, later, env, count, moved)
  {
    var next := PassedOn(s, i, todo[0], steps[0]);
    OnePassed(s, i, d, todo, steps);
    hide RunBatch, CanStep, Enabled, PassedOn, Prelude, Passed, PassedEach, CanPass;
    TurnBegins(s, i, todo, waiting, steps, later, env, count);
    LeftBehind(s, i, d, todo[0], steps[0], steps[0]);
    assert [] + (waiting + [next]) == waiting + [next] && [] + later == later;
  }

  lemma MoreTurns(s: State, i: Uuid, d: ProcessDefinition, todo: seq<Token>, waiting: seq<Token>, steps: seq<Step>,
      later: seq<Step>, env: Env, count: nat, rest: seq<Token>)
    requires i in s.instances && RunsOnDefinition(s, i, d) && CanPass(d, todo, steps)
    requires |todo| == |steps| > 1 && CanStep(s, i, todo[0], steps[0]) && steps[0].action.Continue?
    requires count < MAX_EXECUTION_STEPS && i in Prelude(s, i, steps[0]).instances
    requires CanPass(d, todo[1..], steps[1..]) && PassedEach(d, todo[1..], steps[1..], rest)
    requires RoundLeadsTo(Prelude(s, i, steps[0]), i, todo[1..], waiting + [PassedOn(s, i, todo[0], steps[0])],
                          steps[1..], later, env, count + 1, rest)
    ensures var moved := [PassedOn(s, i, todo[0], steps[0])] + rest;
      PassedEach(d, todo, steps, moved) && RoundLeadsTo(s, i, todo, waiting, steps, later, env, count, moved)
  {
    var next := PassedOn(s, i, todo[0], steps[0]);
    AlsoPassed(s, i, d, todo, steps, rest);
    hide RunBatch, CanStep, Enabled, PassedOn, Prelude, Passed, PassedEach, CanPass;
    TurnBegins(s, i, todo, waiting, steps, later, env, count);
    LeftBehind(s, i, d, todo[0], steps[0], steps[|steps| - 1]);
    OneAfterAnother(waiting, [next], rest);
  }

  /** What one step left of the instance does not matter after a later one. */
  lemma LeftBehind(s: State, i: Uuid, d: ProcessDefinition, tok: Token, step: Step, last: Step)
    requires RunsOnDefinition(s, i, d) && CanStep(s, i, tok, step) && step.action.Continue?
    ensures var p := Prelude(s, i, step);
      && i in p.instances && RunsOnDefinition(p, i, d)
      && p.WithInstance(i, Passed(p.instances[i], last)) == s.WithInstance(i, Passed(s.instances[i], last))
      && (step == last ==> p == s.WithInstance(i, Passed(s.instances[i], last)))
  {
    hide Enabled;
    var p := Prelude(s, i, step);
    assert s.instances[i := p.instances[i]][i := Passed(s.instances[i], last)]
      == s.instances[i := Passed(s.instances[i], last)];
  }

  lemma TurnBegins(s: State, i: Uuid, todo: seq<Token>, waiting: seq<Token>, steps: seq<Step>, later: seq<Step>,
      env: Env, count: nat)
    requires i in s.instances && s.instances[i].definitionKey in s.definitions && todo != [] && steps != []
    requires CanStep(s, i, todo[0], steps[0]) && steps[0].action.Continue? && count < MAX_EXECUTION_STEPS
    ensures RunBatch(s, i, todo + waiting, steps + later, env, count)
         == RunBatch(Prelude(s, i, steps[0]), i, todo[1..] + (waiting + [PassedOn(s, i, todo[0], steps[0])]),
                     steps[1..] + later, env, count + 1)
  {
    hide RunBatch, CanStep, PassedOn, Prelude;
    FirstSteps(s, i, todo + waiting, steps + later, env, count);
    assert (todo + waiting)[1..] == todo[1..] + waiting && (steps + later)[1..] == steps[1..] + later;
    OneAfterAnother(todo[1..], waiting, [PassedOn(s, i, todo[0], steps[0])]);
  }

  lemma OneAfterAnother<T>(a: seq<T>, b: seq<T>, c: seq<T>)
    ensures a + b + c == a + (b + c)
  {}

  lemma HeadCanStep(s: State, i: Uuid, d: ProcessDefinition, todo: seq<Token>, steps: seq<Step>)
    requires RunsOnDefinition(s, i, d) && todo != []
    requires CanPass(d, todo, steps)
    ensures |todo| == |steps| && CanStep(s, i, todo[0], steps[0]) && steps[0].action.Continue?
  {
    hide Enabled;
  }

  lemma OnePassed(s: State, i: Uuid, d: ProcessDefinition, todo: seq<Token>, steps: seq<Step>)
    requires RunsOnDefinition(s, i, d) && |todo| == 1
    requires CanPass(d, todo, steps)
    ensures CanStep(s, i, todo[0], steps[0])
    ensures PassedEach(d, todo, steps, [PassedOn(s, i, todo[0], steps[0])])
  {
    hide Enabled, Onward;
  }

  lemma FewerCanPass(d: ProcessDefinition, todo: seq<Token>, steps: seq<Step>)
    requires CanPass(d, todo, steps) && todo != []
    ensures CanPass(d, todo[1..], steps[1..])
  {
    hide Enabled;
  }

  lemma AlsoPassed(s: State, i: Uuid, d: ProcessDefinition, todo: seq<Token>, steps: seq<Step>, rest: seq<Token>)
    requires RunsOnDefinition(s, i, d) && todo != []
    requires CanPass(d, todo, steps)
    requires CanPass(d, todo[1..], steps[1..])
    requires PassedEach(d, todo[1..], steps[1..], rest)
    ensures PassedEach(d, todo, steps, [PassedOn(s, i, todo[0], steps[0])] + rest)
  {
    hide Onward, Enabled;
    forall k | 0 < k < |todo| ensures todo[k] == todo[1..][k - 1] && steps[k] == steps[1..][k - 1] {}
  }

  lemma FirstSteps(s: State, i: Uuid, queue: seq<Token>, steps: seq<Step>, env: Env, count: nat)
    requires queue != [] && steps != [] && count < MAX_EXECUTION_STEPS
    requires CanStep(s, i, queue[0], steps[0]) && steps[0].action.Continue?
    ensures RunBatch(s, i, queue, steps, env, count)
         == RunBatch(Prelude(s, i, steps[0]), i, queue[1..] + [PassedOn(s, i, queue[0], steps[0])], steps[1..], env,
           count + 1)
  {
    hide Onward, Enabled;
  }

  // ---- Arriving at a join ----

  /** What a join makes of the tokens that arrived: a variable has the value of the last of them that has
      it. */
  ghost predicate MergesLast(arrived: seq<Token>, merged: Variables) {
    && (forall v <- merged ::
          exists j :: 0 <= j < |arrived| && LastWith(arrived, j, v) && arrived[j].variables[v] == merged[v])
    && (forall j, v :: 0 <= j < |arrived| && v in arrived[j].variables ==> v in merged)
  }

  ghost predicate LastWith(arrived: seq<Token>, j: nat, v: string) {
    && j < |arrived| && v in arrived[j].variables
    && forall l :: j < l < |arrived| ==> v !in arrived[l].variables
  }

  lemma {:induction false} MergedAppend(arrived: seq<Token>, last: Token, into: Variables)
    ensures MergedVariables(arrived + [last], into) == MergedVariables(arrived, into) + last.variables
    decreases |arrived|
  {
    if arrived == [] {
      assert [last][1..] == [] && [] + [last] == [last];
      assert MergedVariables([], into + last.variables) == into + last.variables;
    } else {
      assert (arrived + [last])[1..] == arrived[1..] + [last];
      MergedAppend(arrived[1..], last, into + arrived[0].variables);
    }
  }

  lemma {:induction false} MergedIsLast(arrived: seq<Token>)
    ensures MergesLast(arrived, MergedVariables(arrived, map[]))
    decreases |arrived|
  {
    if arrived != [] {
      var front, last := arrived[..|arrived| - 1], arrived[|arrived| - 1];
      assert arrived == front + [last];
      MergedIsLast(front);
      MergedAppend(front, last, map[]);
      hide MergedVariables;
      OneMoreMerged(front, last, MergedVariables(front, map[]));
    }
  }

  lemma OneMoreMerged(front: seq<Token>, last: Token, merged: Variables)
    requires MergesLast(front, merged)
    ensures MergesLast(front + [last], merged + last.variables)
  {
    var arrived, after := front + [last], merged + last.variables;
    forall v | v in after
      ensures exists j :: 0 <= j < |arrived| && LastWith(arrived, j, v) && arrived[j].variables[v] == after[v]
    {
      if v in last.variables {
        assert LastWith(arrived, |front|, v);
      } else {
        var j :| 0 <= j < |front| && LastWith(front, j, v) && front[j].variables[v] == merged[v];
        assert LastWith(arrived, j, v);
      }
    }
  }

  /** Tokens arrive one after the other at the join where they stand. */
  ghost function ArriveEach(s: State, i: Uuid, toks: seq<Token>, expected: nat): (State, seq<Token>)
    requires i in s.instances
    decreases |toks|
  {
    if toks == [] then (s, [])
    else
      var (s1, sent) := Arrive(s, i, toks[0], expected, false);
      var (s', later) := ArriveEach(s1, i, toks[1..], expected);
      (s', sent + later)
  }

  ghost predicate AllAt(toks: seq<Token>, g: string) {
    forall k :: 0 <= k < |toks| ==> toks[k].currentNode == g
  }

  /** While tokens are missing, the join only collects those that come: nothing goes on. */
  lemma {:induction false} JoinCollects(s: State, i: Uuid, g: string, toks: seq<Token>, expected: nat)
    requires i in s.instances && g in s.instances[i].joinBarriers && AllAt(toks, g)
    requires var b := s.instances[i].joinBarriers[g]; |b.arrivedTokens| + |toks| < b.expectedCount
    ensures var b := s.instances[i].joinBarriers[g]; var inst := s.instances[i];
      ArriveEach(s, i, toks, expected) == (s.WithInstance(i, inst.(joinBarriers :=
        inst.joinBarriers[g := b.(arrivedTokens := b.arrivedTokens + toks)])), [])
    decreases |toks|
  {
    var inst := s.instances[i];
    var b := inst.joinBarriers[g];
    if toks == [] {
      assert b.arrivedTokens + [] == b.arrivedTokens;
      assert inst.joinBarriers[g := b] == inst.joinBarriers && s.instances[i := inst] == s.instances;
    } else {
      var one := b.(arrivedTokens := b.arrivedTokens + [toks[0]]);
      var inst1 := inst.(joinBarriers := inst.joinBarriers[g := one]);
      var s1 := s.WithInstance(i, inst1);
      assert Arrive(s, i, toks[0], expected, false) == (s1, []);
      hide Arrive;
      JoinCollects(s1, i, g, toks[1..], expected);
      assert one.arrivedTokens + toks[1..] == b.arrivedTokens + toks;
      var all := b.(arrivedTokens := b.arrivedTokens + toks);
      assert one.(arrivedTokens := one.arrivedTokens + toks[1..]) == all;
      assert inst1.joinBarriers[g := all] == inst.joinBarriers[g := all];
      var done := inst.(joinBarriers := inst.joinBarriers[g := all]);
      assert s1.instances[i := done] == s.instances[i := done];
      assert s1.instances[i].(joinBarriers := s1.instances[i].joinBarriers[g := all]) == done;
      assert s1.WithInstance(i, done) == s.WithInstance(i, done);
      var (s', later) := ArriveEach(s1, i, toks[1..], expected);
      assert s' == s.WithInstance(i, done) && later == [];
      var none: seq<Token> := [];
      assert none + later == none;
    }
  }

  lemma ArriveKeeps(s: State, i: Uuid, tok: Token, expected: nat)
    requires i in s.instances
    ensures i in Arrive(s, i, tok, expected, false).0.instances
  {}

  lemma {:induction false} ArriveInTwo(s: State, i: Uuid, a: seq<Token>, last: Token, expected: nat)
    requires i in s.instances
    ensures var (mid, sent) := ArriveEach(s, i, a, expected);
      && i in mid.instances
      && ArriveEach(s, i, a + [last], expected)
         == (Arrive(mid, i, last, expected, false).0, sent + Arrive(mid, i, last, expected, false).1)
    decreases |a|
  {
    if a == [] {
      assert [] + [last] == [last] && [last][1..] == [];
      var (s1, sent) := Arrive(s, i, last, expected, false);
      assert ArriveEach(s1, i, [], expected) == (s1, []) && sent + [] == sent && [] + sent == sent;
    } else {
      assert (a + [last])[1..] == a[1..] + [last] && (a + [last])[0] == a[0];
      ArriveKeeps(s, i, a[0], expected);
      hide Arrive;
      var (s1, sent) := Arrive(s, i, a[0], expected, false);
      ArriveInTwo(s1, i, a[1..], last, expected);
      var (mid, later) := ArriveEach(s1, i, a[1..], expected);
      assert sent + (later + Arrive(mid, i, last, expected, false).1)
        == sent + later + Arrive(mid, i, last, expected, false).1;
    }
  }

  /** When the last expected token arrives, the join is over: its barrier goes, the branches of all that
      arrived are completed, the instance runs, and one token goes on with everything they brought. */
  lemma JoinCompletes(s: State, i: Uuid, g: string, toks: seq<Token>, expected: nat)
    requires i in s.instances && g in s.instances[i].joinBarriers && AllAt(toks, g) && toks != []
    requires var b := s.instances[i].joinBarriers[g]; b.arrivedTokens == [] && b.expectedCount == |toks|
    ensures var (s', sent) := ArriveEach(s, i, toks, expected); var inst := s.instances[i];
      && |sent| == 1 && sent[0] == Token(s.nextId, g, sent[0].variables, true) && MergesLast(toks, sent[0].variables)
      && s' == s.WithInstance(i, inst.(joinBarriers := inst.joinBarriers - {g},
           activeTokens := MarkEach(inst.activeTokens, toks), state := Running, currentNode := g))
           .(nextId := s.nextId + 1)
  {
    var inst := s.instances[i];
    var b := inst.joinBarriers[g];
    var front, last := toks[..|toks| - 1], toks[|toks| - 1];
    assert toks == front + [last];
    JoinCollects(s, i, g, front, expected);
    ArriveInTwo(s, i, front, last, expected);
    MergedIsLast(toks);
    var mid := ArriveEach(s, i, front, expected).0;
    assert b.arrivedTokens + front + [last] == toks;
    hide MergedVariables, MarkEach, ArriveEach, MergesLast;
    assert mid.instances[i].joinBarriers - {g} == inst.joinBarriers - {g};
    assert mid.instances[i := inst] == s.instances[i := inst];
  }

  /** The first token to come to a join that no fork announced opens it, for as many as the join expects. */
  lemma JoinOpens(s: State, i: Uuid, tok: Token, expected: nat)
    requires i in s.instances && tok.currentNode !in s.instances[i].joinBarriers && expected > 1
    ensures var inst, g := s.instances[i], tok.currentNode;
      Arrive(s, i, tok, expected, false)
      == (s.WithInstance(i, inst.(joinBarriers := inst.joinBarriers[g := JoinBarrier(g, expected, [tok])])), [])
  {
    assert [] + [tok] == [tok];
  }

  /** A token that ends a join early does not wait for the others: with those that came before it, it goes
      on as one token. */
  lemma JoinEndsEarly(s: State, i: Uuid, tok: Token, expected: nat)
    requires i in s.instances
    ensures var (s', sent) := Arrive(s, i, tok, expected, true); var inst, g := s.instances[i], tok.currentNode;
      var came := (if g in inst.joinBarriers then inst.joinBarriers[g].arrivedTokens else []) + [tok];
      && |sent| == 1 && sent[0] == Token(s.nextId, g, sent[0].variables, true) && MergesLast(came, sent[0].variables)
      && s' == s.WithInstance(i, inst.(joinBarriers := inst.joinBarriers - {g},
           activeTokens := MarkEach(inst.activeTokens, came), state := Running, currentNode := g))
           .(nextId := s.nextId + 1)
  {
    var inst, g := s.instances[i], tok.currentNode;
    MergedIsLast((if g in inst.joinBarriers then inst.joinBarriers[g].arrivedTokens else []) + [tok]);
    hide MergesLast, MarkEach, MergedVariables;
  }

  // ---- There and back ----

  /** The branches of the tokens are all completed, and every other branch is as it was. */
  ghost predicate BranchesEnded(was: seq<ActiveToken>, now: seq<ActiveToken>, toks: seq<Token>) {
    && |now| == |was|
    && forall k :: 0 <= k < |was| ==>
         now[k] == was[k].(completed :=
           was[k].completed || exists j :: 0 <= j < |toks| && toks[j].id == was[k].token.id)
  }

  ghost predicate DistinctBranches(active: seq<ActiveToken>) {
    forall j, k :: 0 <= j < k < |active| ==> active[j].token.id != active[k].token.id
  }

  lemma {:induction false} MarkEachEnds(active: seq<ActiveToken>, toks: seq<Token>)
    requires DistinctBranches(active)
    ensures BranchesEnded(active, MarkEach(active, toks), toks)
    decreases |toks|
  {
    if toks != [] {
      var one, rest := MarkCompleted(active, toks[0].id), toks[1..];
      MarkedAre(active, toks[0].id);
      assert DistinctBranches(one);
      MarkEachEnds(one, rest);
      var now := MarkEach(active, toks);
      hide MarkEach, MarkCompleted;
      forall k | 0 <= k < |active| ensures now[k] == active[k].(completed := active[k].completed
        || exists j :: 0 <= j < |toks| && toks[j].id == active[k].token.id)
      {
        assert OwnBranch(active, k, toks[0].id) <==> active[k].token.id == toks[0].id;
        ArrivedOrFirst(toks, active[k].token.id);
      }
    }
  }

  lemma ArrivedOrFirst(toks: seq<Token>, id: Uuid)
    requires toks != []
    ensures (exists j :: 0 <= j < |toks| && toks[j].id == id)
       <==> (toks[0].id == id || exists j :: 0 <= j < |toks[1..]| && toks[1..][j].id == id)
  {
    if j :| 0 <= j < |toks| && toks[j].id == id && j > 0 {
      assert toks[1..][j - 1].id == id;
    }
    if j :| 0 <= j < |toks[1..]| && toks[1..][j].id == id {
      assert toks[j + 1].id == id;
    }
  }

  /** The tokens are the branches of a fork, come to the join with whatever variables they have by then. */
  ghost predicate Returning(toks: seq<Token>, targets: seq<string>, next: Uuid, g: string) {
    |toks| == |targets| && AllAt(toks, g) && forall k :: 0 <= k < |toks| ==> toks[k].id == next + k
  }

  lemma ForkedDistinct(active: seq<ActiveToken>, forked: seq<ActiveToken>, from: nat, queue: seq<Token>,
      targets: seq<string>, tok: Token, fork: string, next: Uuid)
    requires DistinctBranches(active) && from == |active| && (forall at <- active :: at.token.id < next)
    requires BranchesOf(queue, targets, tok, next) && Registered(forked, from, queue, fork)
    requires forall k :: 0 <= k < |active| ==> forked[k].token == active[k].token
    ensures DistinctBranches(forked)
    ensures forall k :: 0 <= k < |active| ==> forked[k].token.id < next
    ensures forall k :: from <= k < |forked| ==> forked[k].token.id == next + (k - from)
  {
    forall k | 0 <= k < |active| ensures forked[k].token.id < next {
      assert active[k] in active;
    }
    forall k | from <= k < |forked| ensures forked[k].token.id == next + (k - from) {
      assert forked[from + (k - from)] == ActiveToken(queue[k - from], Some(fork), k - from, false);
    }
  }

  /** The state after a fork into `n` branches that meet at `g`: which branches there are, and which of
      them are completed. */
  ghost predicate SentOut(s: State, s1: State, i: Uuid, t: Uuid, n: nat, g: string)
    requires i in s.instances
  {
    && i in s1.instances && s1 == s.WithInstance(i, s1.instances[i]).(nextId := s.nextId + n)
    && var inst, inst1 := s.instances[i], s1.instances[i];
    && inst1 == inst.(activeTokens := inst1.activeTokens, state := inst1.state, currentNode := inst1.currentNode,
                      joinBarriers := inst.joinBarriers[g := JoinBarrier(g, n, [])])
    && |inst1.activeTokens| == |inst.activeTokens| + n && DistinctBranches(inst1.activeTokens)
    && (forall k :: |inst.activeTokens| <= k < |inst1.activeTokens| ==>
          inst1.activeTokens[k].token.id == s.nextId + (k - |inst.activeTokens|))
    && (forall k :: 0 <= k < |inst.activeTokens| ==>
          inst1.activeTokens[k] == if OwnBranch(inst.activeTokens, k, t) then inst.activeTokens[k].(completed := true)
                                   else inst.activeTokens[k])
  }

  lemma ForkPrepares(s: State, i: Uuid, tok: Token, targets: seq<string>, g: string, env: Env)
    requires CanAct(s, i, tok, ContinueMultiple(targets, Some(g)))
    requires DistinctBranches(s.instances[i].activeTokens)
    requires forall at <- s.instances[i].activeTokens :: at.token.id < s.nextId
    ensures SentOut(s, Act(s, i, tok, [], ContinueMultiple(targets, Some(g)), env).0, i, tok.id, |targets|, g)
  {
    var inst := s.instances[i];
    var (s1, queue) := Act(s, i, tok, [], ContinueMultiple(targets, Some(g)), env);
    ForkSendsOut(s, i, tok, [], targets, Some(g), env);
    assert queue[0..] == queue;
    hide Act, CanAct, OwnBranch;
    ForkedDistinct(inst.activeTokens, s1.instances[i].activeTokens, |inst.activeTokens|, queue, targets, tok,
                   tok.currentNode, s.nextId);
    hide BranchesOf, DistinctBranches;
  }

  /** What is left when `n` branches have met at `g`: the barrier is gone, the branches of the fork are
      completed, and everything else of the instance is as it was before the fork. */
  ghost predicate CameBack(s: State, s': State, i: Uuid, n: nat, g: string)
    requires i in s.instances
  {
    && i in s'.instances && s' == s.WithInstance(i, s'.instances[i]).(nextId := s.nextId + n + 1)
    && var inst, inst' := s.instances[i], s'.instances[i];
    && inst' == inst.(activeTokens := inst'.activeTokens, state := Running, currentNode := g,
                      joinBarriers := inst.joinBarriers - {g})
    && |inst'.activeTokens| == |inst.activeTokens| + n
    && (forall k :: |inst.activeTokens| <= k < |inst'.activeTokens| ==> inst'.activeTokens[k].completed)
  }

  lemma JoinRestores(s: State, s1: State, i: Uuid, t: Uuid, n: nat, g: string, toks: seq<Token>)
    requires i in s.instances && SentOut(s, s1, i, t, n, g) && |toks| == n > 0 && AllAt(toks, g)
    requires forall k :: 0 <= k < n ==> toks[k].id == s.nextId + k
    ensures var (s', sent) := ArriveEach(s1, i, toks, n);
      && |sent| == 1 && sent[0] == Token(s1.nextId, g, sent[0].variables, true) && MergesLast(toks, sent[0].variables)
      && CameBack(s, s', i, n, g)
      && (s.instances[i].tokens == map[] && LastToken(s.instances[i], t) ==> LastToken(s'.instances[i], sent[0].id))
  {
    var inst, forked := s.instances[i], s1.instances[i].activeTokens;
    hide MergesLast, OwnBranch, LastToken, MarkEach, ArriveEach, AllAt, DistinctBranches, BranchesEnded;
    JoinCompletes(s1, i, g, toks, n);
    MarkEachEnds(forked, toks);
    var (s', sent) := ArriveEach(s1, i, toks, n);
    RejoinedIs(s, s1, s', i, g, toks, n);
    BranchesBack(inst.activeTokens, forked, s'.instances[i].activeTokens, toks, n, s.nextId);
    if inst.tokens == map[] && LastToken(inst, t) {
      LastAgain(inst, s'.instances[i], t, sent[0].id, forked);
    }
  }

  /** A fork and its join: when all branches have come back, one token goes on with what they brought, and
      the instance is where it was. A token that was the last one of its instance is the last one again,
      so the end it comes to completes the instance. */
  lemma ForkJoinReturns(s: State, i: Uuid, tok: Token, targets: seq<string>, g: string, env: Env, toks: seq<Token>)
    requires CanAct(s, i, tok, ContinueMultiple(targets, Some(g))) && targets != []
    requires DistinctBranches(s.instances[i].activeTokens)
    requires forall at <- s.instances[i].activeTokens :: at.token.id < s.nextId
    requires Returning(toks, targets, s.nextId, g)
    ensures var (s1, _) := Act(s, i, tok, [], ContinueMultiple(targets, Some(g)), env);
      && i in s1.instances
      && var (s', sent) := ArriveEach(s1, i, toks, |targets|);
      && |sent| == 1 && sent[0] == Token(s.nextId + |targets|, g, sent[0].variables, true)
      && MergesLast(toks, sent[0].variables) && CameBack(s, s', i, |targets|, g)
      && (s.instances[i].tokens == map[] && LastToken(s.instances[i], tok.id) ==>
         LastToken(s'.instances[i], sent[0].id))
  {
    var s1 := Act(s, i, tok, [], ContinueMultiple(targets, Some(g)), env).0;
    ForkPrepares(s, i, tok, targets, g, env);
    hide Act, CanAct, MergesLast, LastToken, ArriveEach, AllAt, DistinctBranches, CameBack;
    JoinRestores(s, s1, i, tok.id, |targets|, g, toks);
  }

  lemma RejoinedIs(s: State, s1: State, s': State, i: Uuid, g: string, toks: seq<Token>, n: nat)
    requires i in s.instances && i in s1.instances
    requires var inst, inst1 := s.instances[i], s1.instances[i];
      && s1 == s.WithInstance(i, inst1).(nextId := s1.nextId)
      && inst1 == inst.(activeTokens := inst1.activeTokens, state := inst1.state, currentNode := inst1.currentNode,
                        joinBarriers := inst.joinBarriers[g := JoinBarrier(g, n, [])])
      && s' == s1.WithInstance(i, inst1.(joinBarriers := inst1.joinBarriers - {g},
           activeTokens := MarkEach(inst1.activeTokens, toks), state := Running, currentNode := g))
           .(nextId := s1.nextId + 1)
    ensures var inst := s.instances[i];
      && i in s'.instances && s' == s.WithInstance(i, s'.instances[i]).(nextId := s1.nextId + 1)
      && s'.instances[i] == inst.(activeTokens := s'.instances[i].activeTokens, state := Running, currentNode := g,
                                  joinBarriers := inst.joinBarriers - {g})
      && s'.instances[i].activeTokens == MarkEach(s1.instances[i].activeTokens, toks)
  {
    var inst := s.instances[i];
    hide MarkEach;
    assert inst.joinBarriers[g := JoinBarrier(g, n, [])] - {g} == inst.joinBarriers - {g};
    assert s1.instances[i := s'.instances[i]] == s.instances[i := s'.instances[i]];
  }

  lemma BranchesBack(active: seq<ActiveToken>, forked: seq<ActiveToken>, back: seq<ActiveToken>, toks: seq<Token>,
      n: nat, next: Uuid)
    requires |forked| == |active| + n && |toks| == n && BranchesEnded(forked, back, toks)
    requires forall k :: |active| <= k < |forked| ==> forked[k].token.id == next + (k - |active|)
    requires forall k :: 0 <= k < n ==> toks[k].id == next + k
    ensures |back| == |active| + n && forall k :: |active| <= k < |back| ==> back[k].completed
    ensures forall k :: 0 <= k < |active| ==> forked[k].completed ==> back[k].completed
  {
    forall k | |active| <= k < |back| ensures back[k].completed {
      assert toks[k - |active|].id == forked[k].token.id;
    }
  }

  lemma LastAgain(inst: Instance, inst': Instance, t: Uuid, merged: Uuid, forked: seq<ActiveToken>)
    requires inst.tokens == map[] == inst'.tokens && LastToken(inst, t)
    requires |forked| >= |inst.activeTokens| && |inst'.activeTokens| == |forked|
    requires forall k :: 0 <= k < |inst.activeTokens| ==>
      forked[k] == if OwnBranch(inst.activeTokens, k, t) then inst.activeTokens[k].(completed := true)
                   else inst.activeTokens[k]
    requires forall k :: 0 <= k < |inst.activeTokens| ==> forked[k].completed ==> inst'.activeTokens[k].completed
    requires forall k :: |inst.activeTokens| <= k < |inst'.activeTokens| ==> inst'.activeTokens[k].completed
    ensures LastToken(inst', merged)
  {
    forall k | 0 <= k < |inst.activeTokens| ensures inst'.activeTokens[k].completed {
      assert forked[k].completed;
    }
  }
}
