/** How tokens and instances end (engine-core/src/engine/executor/next_action.rs): the end of its last
    token completes an instance, and no other end does. */
module Endings {
  import opened Values
  import opened Definition
  import opened EngineState
  import opened Executor

  // ---- One token ends ----

  /** Entry `k` is the branch of token `t`: the first one that was registered for it. */
  ghost predicate OwnBranch(active: seq<ActiveToken>, k: nat, t: Uuid) {
    k < |active| && active[k].token.id == t && forall j :: 0 <= j < k ==> active[j].token.id != t
  }

  /** Token `t` is the last one: no other token is stored, and every other branch is completed. */
  ghost predicate LastToken(inst: Instance, t: Uuid) {
    && (forall x <- inst.tokens :: x == t)
    && (forall k :: 0 <= k < |inst.activeTokens| ==>
       inst.activeTokens[k].completed || OwnBranch(inst.activeTokens, k, t))
  }

  /** The state of an instance whose last token ended at this element. */
  ghost predicate EndsAs(el: BpmnElement, state: InstanceState) {
    if el.ErrorEndEvent? then state == CompletedWithError(el.code) else state == Completed
  }

  /** Token `t` ended at `el`: it is gone and its branch is completed. The instance ends with it when it was the
      last one, and its state is as before when it was not. */
  ghost predicate TokenEnded(inst: Instance, inst': Instance, t: Uuid, el: BpmnElement) {
    && inst' == inst.(tokens := inst.tokens - {t}, activeTokens := inst'.activeTokens, state := inst'.state)
    && |inst'.activeTokens| == |inst.activeTokens|
    && (forall k :: 0 <= k < |inst.activeTokens| ==>
          inst'.activeTokens[k] == if OwnBranch(inst.activeTokens, k, t) then inst.activeTokens[k].(completed := true)
                                   else inst.activeTokens[k])
    && (LastToken(inst, t) ==> EndsAs(el, inst'.state))
    && (!LastToken(inst, t) ==> inst'.state == inst.state)
  }

  lemma {:induction false} MarkedAre(active: seq<ActiveToken>, t: Uuid)
    ensures var marked := MarkCompleted(active, t);
      && |marked| == |active|
      && forall k :: 0 <= k < |active| ==>
           marked[k] == if OwnBranch(active, k, t) then active[k].(completed := true) else active[k]
    decreases |active|
  {
    if active != [] && active[0].token.id != t {
      MarkedAre(active[1..], t);
      forall k | 0 < k < |active| ensures OwnBranch(active, k, t) <==> OwnBranch(active[1..], k - 1, t) {
        assert forall j :: 0 <= j < k - 1 ==> active[1..][j] == active[j + 1];
        if OwnBranch(active[1..], k - 1, t) {
          forall j | 0 <= j < k ensures active[j].token.id != t {
            assert j > 0 ==> active[1..][j - 1] == active[j];
          }
        }
      }
    } else if active != [] {
      assert forall k :: 0 < k < |active| ==> !OwnBranch(active, k, t);
    }
  }

  lemma NoneLeft(inst: Instance, rest: Instance, t: Uuid)
    requires rest.tokens == inst.tokens - {t} && |rest.activeTokens| == |inst.activeTokens|
    requires forall k :: 0 <= k < |inst.activeTokens| ==>
      rest.activeTokens[k] == if OwnBranch(inst.activeTokens, k, t) then inst.activeTokens[k].(completed := true)
                              else inst.activeTokens[k]
    ensures AllTokensCompleted(rest) <==> LastToken(inst, t)
  {
    if AllTokensCompleted(rest) {
      forall x | x in inst.tokens ensures x == t {
        assert x != t ==> x in rest.tokens;
      }
      forall k | 0 <= k < |inst.activeTokens|
        ensures inst.activeTokens[k].completed || OwnBranch(inst.activeTokens, k, t)
      {
        assert rest.activeTokens[k] in rest.activeTokens;
      }
    }
    if LastToken(inst, t) {
      assert rest.tokens == map[];
      forall at | at in rest.activeTokens ensures at.completed {
        var k :| 0 <= k < |rest.activeTokens| && rest.activeTokens[k] == at;
      }
    }
  }

  /** The element of node `node` in the definition of instance `i`. */
  function ElementAt(s: State, i: Uuid, node: string): BpmnElement
    requires i in s.instances && s.instances[i].definitionKey in s.definitions
    requires node in s.definitions[s.instances[i].definitionKey].nodes
  {
    s.definitions[s.instances[i].definitionKey].nodes[node]
  }

  /** What an end does: the token ends, and nothing else of the engine changes. */
  lemma EndingEnds(s: State, i: Uuid, tok: Token, rest: seq<Token>, end: End, env: Env)
    requires CanAct(s, i, tok, Complete(end))
    ensures var (s', queue) := Act(s, i, tok, rest, Complete(end), env);
      && queue == rest && i in s'.instances && s' == s.WithInstance(i, s'.instances[i])
      && TokenEnded(s.instances[i], s'.instances[i], tok.id, ElementAt(s, i, tok.currentNode))
  {
    var inst := s.instances[i];
    MarkedAre(inst.activeTokens, tok.id);
    hide MarkCompleted;
    NoneLeft(inst, inst.(tokens := inst.tokens - {tok.id}, activeTokens := MarkCompleted(inst.activeTokens, tok.id)),
      tok.id);
    hide AllTokensCompleted, LastToken;
  }

  /** A terminate end event ends the instance whatever else is active: its queue is dropped, every branch
      is completed, and all its pending work goes. */
  lemma TerminationEnds(s: State, i: Uuid, tok: Token, rest: seq<Token>, env: Env)
    requires CanAct(s, i, tok, Terminate)
    ensures var (s', queue) := Act(s, i, tok, rest, Terminate, env);
      && queue == [] && i in s'.instances && s'.instances[i].state == Completed
      && (forall j <- s'.instances :: j in s.instances && (j != i ==> s'.instances[j] == s.instances[j]))
      && s'.instances.Keys == s.instances.Keys
      && (forall at <- s'.instances[i].activeTokens :: at.completed)
      && Dropped(s.userTasks, s'.userTasks, i) && Dropped(s.serviceTasks, s'.serviceTasks, i)
      && Dropped(s.timers, s'.timers, i) && Dropped(s.catches, s'.catches, i)
  {
    AllMarked(s.instances[i].activeTokens);
  }

  /** Exactly the entries of instance `i` went. */
  ghost predicate Dropped<K>(before: map<Uuid, Entry<K>>, after: map<Uuid, Entry<K>>, i: Uuid) {
    && (forall id <- before :: before[id].instanceId != i ==> id in after)
    && (forall id <- after :: id in before && after[id] == before[id] && before[id].instanceId != i)
  }

  lemma {:induction false} AllMarked(active: seq<ActiveToken>)
    ensures forall at <- MarkAllCompleted(active) :: at.completed
    decreases |active|
  {
    if active != [] {
      AllMarked(active[1..]);
    }
  }

  /** With no other token and no branch left, the end of a token completes its instance. */
  lemma SoleTokenCompletes(inst: Instance, inst': Instance, t: Uuid, el: BpmnElement)
    requires TokenEnded(inst, inst', t, el) && inst.tokens == map[] && inst.activeTokens == []
    ensures inst'.tokens == map[] && EndsAs(el, inst'.state)
  {}

  // ---- A batch that leads to an end ----

  /** These steps take a token from `node` straight to its end at `last`: the elements on the way let it
      pass. */
  ghost predicate PathToEnd(d: ProcessDefinition, node: string, steps: seq<Step>, last: string)
    decreases |steps|
  {
    && steps != [] && node in d.nodes && Enabled(d.nodes[node], steps[0].action)
    && if |steps| == 1 then steps[0].action.Complete? && node == last
       else steps[0].action.Continue? && PathToEnd(d, steps[0].action.node, steps[1..], last)
  }

  /** The instance after its token passed over to an end: it shows the last node and has the variables the
      scripts left. */
  function Passed(inst: Instance, last: Step): Instance {
    inst.(variables := last.synced, currentNode := last.shown)
  }

  /** The token that a step passes on. */
  ghost function PassedOn(s: State, i: Uuid, tok: Token, step: Step): Token
    requires CanStep(s, i, tok, step) && step.action.Continue?
  {
    Onward(ElementAt(s, i, tok.currentNode), tok.(variables := step.variables), step.action.node)
  }

  lemma StepPasses(s: State, i: Uuid, tok: Token, step: Step, rest: seq<Step>, env: Env, count: nat)
    requires CanStep(s, i, tok, step) && step.action.Continue? && count < MAX_EXECUTION_STEPS
    ensures RunBatch(s, i, [tok], [step] + rest, env, count)
         == RunBatch(Prelude(s, i, step), i, [PassedOn(s, i, tok, step)], rest, env, count + 1)
  {
    var next := PassedOn(s, i, tok, step);
    assert [tok][1..] == [] && ([step] + rest)[1..] == rest && [] + [next] == [next];
    assert ApplyStep(s, i, tok, [], step, env) == (Prelude(s, i, step), [next]);
    hide ApplyStep, CanStep, Prelude;
  }

  lemma StepEnds(s: State, i: Uuid, tok: Token, step: Step, env: Env, count: nat)
    requires CanStep(s, i, tok, step) && step.action.Complete? && count < MAX_EXECUTION_STEPS
    ensures var (s', r) := RunBatch(s, i, [tok], [step], env, count);
      && r == Done && i in s'.instances && s' == s.WithInstance(i, s'.instances[i])
      && TokenEnded(Passed(s.instances[i], step), s'.instances[i], tok.id, ElementAt(s, i, tok.currentNode))
  {
    var p, tok' := Prelude(s, i, step), tok.(variables := step.variables);
    EndingEnds(p, i, tok', [], step.action.end, env);
    var w := Act(p, i, tok', [], step.action, env).0;
    assert ApplyStep(s, i, tok, [], step, env) == (w, []);
    assert [tok][1..] == [] && [step][1..] == [] && RunBatch(w, i, [], [], env, count + 1) == (w, Done);
    hide Act, ApplyStep, CanStep, TokenEnded;
  }

  /** Passing on changes neither the token's id nor what the end makes of the instance. */
  lemma PassesBy(s: State, i: Uuid, tok: Token, step: Step, last: Step)
    requires CanStep(s, i, tok, step) && step.action.Continue?
    ensures var p, next := Prelude(s, i, step), PassedOn(s, i, tok, step);
      && next.id == tok.id && next.currentNode == step.action.node
      && i in p.instances && p.definitions == s.definitions
      && p.instances[i].definitionKey == s.instances[i].definitionKey
      && Passed(p.instances[i], last) == Passed(s.instances[i], last)
      && forall inst :: p.WithInstance(i, inst) == s.WithInstance(i, inst)
  {
    hide Enabled;
    forall inst ensures Prelude(s, i, step).WithInstance(i, inst) == s.WithInstance(i, inst) {
      assert s.instances[i := Prelude(s, i, step).instances[i]][i := inst] == s.instances[i := inst];
    }
  }

  /** A batch whose steps lead its only token to an end: the token ends there, and with it the instance
      when the token was the last one. */
  lemma {:induction false} PathEnds(s: State, i: Uuid, tok: Token, steps: seq<Step>, last: string, env: Env,
      count: nat)
    requires i in s.instances && s.instances[i].definitionKey in s.definitions
    requires PathToEnd(s.definitions[s.instances[i].definitionKey], tok.currentNode, steps, last)
    requires count + |steps| <= MAX_EXECUTION_STEPS
    ensures var (s', r) := RunBatch(s, i, [tok], steps, env, count);
      && r == Done && i in s'.instances && s' == s.WithInstance(i, s'.instances[i])
      && last in s.definitions[s.instances[i].definitionKey].nodes
      && TokenEnded(Passed(s.instances[i], steps[|steps| - 1]), s'.instances[i], tok.id, ElementAt(s, i, last))
    decreases |steps|
  {
    var step := steps[0];
    assert steps == [step] + steps[1..] && CanStep(s, i, tok, step);
    hide CanStep, RunBatch, TokenEnded, Enabled;
    if |steps| == 1 {
      StepEnds(s, i, tok, step, env, count);
    } else {
      var p, next := Prelude(s, i, step), PassedOn(s, i, tok, step);
      StepPasses(s, i, tok, step, steps[1..], env, count);
      hide PassedOn, Prelude;
      PassesBy(s, i, tok, step, steps[|steps| - 1]);
      PathEnds(p, i, next, steps[1..], last, env, count + 1);
    }
  }

  // ---- A batch that does not end ----

  /** These steps only pass the token on from node to node. */
  ghost predicate PassesOn(d: ProcessDefinition, node: string, steps: seq<Step>)
    decreases |steps|
  {
    steps == [] || (
      && node in d.nodes && steps[0].action.Continue? && Enabled(d.nodes[node], steps[0].action)
      && PassesOn(d, steps[0].action.node, steps[1..]))
  }

  /** A token that runs in circles is stopped: after ten thousand steps the batch fails, and the instance
      is completed with an error. */
  lemma {:induction false} RunawayIsStopped(s: State, i: Uuid, tok: Token, steps: seq<Step>, env: Env, count: nat)
    requires i in s.instances && s.instances[i].definitionKey in s.definitions && count <= 10_000
    requires PassesOn(s.definitions[s.instances[i].definitionKey], tok.currentNode, steps) && count + |steps| >= 10_000
    ensures var (s', r) := RunBatch(s, i, [tok], steps, env, count);
      && r == Failed(ExecutionLimitExceeded(i)) && i in s'.instances && s' == s.WithInstance(i, s'.instances[i])
      && s'.instances[i].state == CompletedWithError("EXECUTION_LIMIT_EXCEEDED")
      && s'.instances[i].tokens == s.instances[i].tokens
    decreases |steps|
  {
    if count < MAX_EXECUTION_STEPS {
      var step := steps[0];
      assert steps == [step] + steps[1..] && CanStep(s, i, tok, step);
      hide CanStep, RunBatch, Enabled;
      StepPasses(s, i, tok, step, steps[1..], env, count);
      RunawayIsStopped(Prelude(s, i, step), i, PassedOn(s, i, tok, step), steps[1..], env, count + 1);
    }
  }
}
